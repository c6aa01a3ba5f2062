/**
 * The `/api/stats` route: the number of posts, the number of posts per category and per
 * difficulty, and the category counts added up.
 */
module StatsRoute {
  import opened Wrappers
  import opened BlogTypes
  import opened Api
  import opened Aggregate

  datatype Stats = Stats(
    totalPosts: nat,
    totalCTFs: int,
    categoryBreakdown: seq<Tally<Category>>,
    difficultyBreakdown: seq<Tally<Difficulty>>)

  /** `GET /api/stats`; `failure` is an error raised while reaching the store. */
  function GetStats(posts: seq<Post>, failure: Option<string>): (r: Response<Stats>)
    ensures failure.Some? ==> r == Error(500, "Failed to fetch stats", NoDetails)
    ensures failure.None? ==> r.Ok?
    ensures r.Ok? ==> r.body.totalPosts == |posts|
    ensures r.Ok? ==> IsBreakdown(r.body.categoryBreakdown, posts, PostCategory)
    ensures r.Ok? ==> IsBreakdown(r.body.difficultyBreakdown, posts, PostDifficulty)
    ensures r.Ok? ==> r.body.totalCTFs == SumTallies(r.body.categoryBreakdown)
  {
    if failure.Some? then Error(500, "Failed to fetch stats", NoDetails)
    else
      var categories := CountBy(posts, PostCategory);
      Ok(Stats(|posts|, SumTallies(categories), categories, CountBy(posts, PostDifficulty)))
  }

  /**
   * Grouping partitions the posts: `totalCTFs` equals `totalPosts`, and so do the difficulty
   * counts added up.
   */
  lemma StatsTotalsAgree(posts: seq<Post>)
    ensures var s := GetStats(posts, None).body;
      s.totalCTFs == s.totalPosts && SumTallies(s.difficultyBreakdown) == s.totalPosts
  {
    CountBySum(posts, PostCategory);
    CountBySum(posts, PostDifficulty);
  }
}
