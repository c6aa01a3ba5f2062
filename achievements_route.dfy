/**
 * The `/api/achievements` route: `GET` sums up the solved challenges, grouped three ways, with
 * the ten most recently solved; `POST` stores the request body as it is.
 */
module AchievementsRoute {
  import opened Wrappers
  import opened Sorting
  import opened Api
  import opened BlogTypes
  import opened Aggregate
  import opened AchievementSchema

  /** How many achievements the summary lists. */
  const RecentLimit: nat := 10

  datatype AchievementStats = AchievementStats(
    totalChallenges: nat,
    totalPoints: int,
    categoryStats: seq<Group<Category>>,
    difficultyStats: seq<Group<Difficulty>>,
    platformStats: seq<Group<string>>,
    achievements: seq<Achievement>)

  /** The `_id: null` key: every achievement falls in the same group. */
  function NullKey(a: Achievement): () { () }

  /**
   * The points of all achievements: the total of the single `_id: null` group, or 0 when the
   * collection is empty and there is no group.
   */
  function TotalPoints(all: seq<Achievement>): (t: int)
    ensures t == TotalWeight(all, AchievementPoints)
    ensures all == [] ==> t == 0
  {
    var gs := GroupBy(all, NullKey, AchievementPoints);
    SharedKeyGrouping(all, NullKey, AchievementPoints);
    GroupByPartitions(all, NullKey, AchievementPoints);
    if gs == [] then 0 else gs[0].points
  }

  /**
   * The achievements sorted by `solvedDate`, newest first, cut to the first ten. Every
   * achievement left out was solved no later than each one kept.
   */
  function MostRecent(all: seq<Achievement>): (r: seq<Achievement>)
    ensures |r| == if |all| < RecentLimit then |all| else RecentLimit
    ensures SortedDesc(r, AchievementSolvedDate)
    ensures multiset(r) <= multiset(all)
    ensures forall x, i :: multiset(r)[x] < multiset(all)[x] && 0 <= i < |r| ==>
      x.solvedDate <= r[i].solvedDate
  {
    Top(all, RecentLimit, AchievementSolvedDate)
  }

  /** `GET /api/achievements`; `failure` is an error raised while reaching the store. */
  function GetAchievements(all: seq<Achievement>, failure: Option<string>): (r: Response<AchievementStats>)
    ensures failure.Some? ==> r == Error(500, "Failed to fetch achievements", NoDetails)
    ensures failure.None? ==> r.Ok?
    ensures r.Ok? ==> r.body.totalChallenges == |all|
    ensures r.Ok? ==> r.body.totalPoints == TotalWeight(all, AchievementPoints)
    ensures r.Ok? ==> IsGrouping(r.body.categoryStats, all, AchievementCategory, AchievementPoints)
    ensures r.Ok? ==> IsGrouping(r.body.difficultyStats, all, AchievementDifficulty, AchievementPoints)
    ensures r.Ok? ==> IsGrouping(r.body.platformStats, all, AchievementPlatform, AchievementPoints)
    ensures r.Ok? ==> |r.body.achievements| == if |all| < RecentLimit then |all| else RecentLimit
    ensures r.Ok? ==> SortedDesc(r.body.achievements, AchievementSolvedDate)
    ensures r.Ok? ==> multiset(r.body.achievements) <= multiset(all)
    ensures r.Ok? ==> forall x, i :: multiset(r.body.achievements)[x] < multiset(all)[x] && 0 <= i < |r.body.achievements| ==>
      x.solvedDate <= r.body.achievements[i].solvedDate
  {
    if failure.Some? then Error(500, "Failed to fetch achievements", NoDetails)
    else
      Ok(AchievementStats(
        |all|,
        TotalPoints(all),
        GroupBy(all, AchievementCategory, AchievementPoints),
        GroupBy(all, AchievementDifficulty, AchievementPoints),
        GroupBy(all, AchievementPlatform, AchievementPoints),
        MostRecent(all)))
  }

  /**
   * Each of the three groupings partitions the achievements: its counts add up to
   * `totalChallenges` and its points to `totalPoints`.
   */
  lemma AchievementTotalsAgree(all: seq<Achievement>)
    ensures var s := GetAchievements(all, None).body;
      && SumCounts(s.categoryStats) == s.totalChallenges && SumPoints(s.categoryStats) == s.totalPoints
      && SumCounts(s.difficultyStats) == s.totalChallenges && SumPoints(s.difficultyStats) == s.totalPoints
      && SumCounts(s.platformStats) == s.totalChallenges && SumPoints(s.platformStats) == s.totalPoints
  {
    GroupByPartitions(all, AchievementCategory, AchievementPoints);
    GroupByPartitions(all, AchievementDifficulty, AchievementPoints);
    GroupByPartitions(all, AchievementPlatform, AchievementPoints);
  }

  /** A create request's reply together with the collection after it. */
  datatype AchievementCreated = AchievementCreated(response: Response<Achievement>, achievements: seq<Achievement>)

  /**
   * `POST /api/achievements`: the body goes to the store unchanged. `now` is the clock when the
   * document is built, which a missing `solvedDate` defaults to. Every failure, a validation
   * error included, is the same 500.
   */
  function CreateAchievement(all: seq<Achievement>, failure: Option<string>, doc: AchievementDoc, now: int, reply: StoreReply): (c: AchievementCreated)
    ensures c.achievements == if c.response.Ok? then all + [c.response.body] else all
    ensures c.response.Ok? <==> failure.None? && IsValidAchievement(doc) && reply.Inserted?
    ensures c.response.Ok? ==> c.response.body == ToAchievement(doc, reply.id, now)
    ensures !c.response.Ok? ==> c.response == Error(500, "Failed to create achievement", NoDetails)
  {
    var valid := AchievementErrors(doc) == [];
    ValidAchievementIff(doc);
    if failure.Some? || !valid then
      AchievementCreated(Error(500, "Failed to create achievement", NoDetails), all)
    else
      match reply
      case Inserted(id, _) =>
        var a := ToAchievement(doc, id, now);
        AchievementCreated(Ok(a), all + [a])
      case _ =>
        AchievementCreated(Error(500, "Failed to create achievement", NoDetails), all)
  }
}
