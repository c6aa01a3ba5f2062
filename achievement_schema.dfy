/**
 * The Achievement schema: `ctfName`, `platform` and `challengeName` are required strings,
 * `category` and `difficulty` required strings from the same enumerations as posts, `points` a
 * required number with no bound, `solvedDate` defaults to the current time, and `writeupId` is an
 * optional reference to a post.
 */
module AchievementSchema {
  import opened Wrappers
  import opened Seqs
  import opened BlogTypes
  import opened Validation

  /** An achievement document as handed to the store, before validation. */
  datatype AchievementDoc = AchievementDoc(
    ctfName: Option<string>,
    platform: Option<string>,
    challengeName: Option<string>,
    category: Option<string>,
    difficulty: Option<string>,
    points: Option<int>,
    solvedDate: Option<int>,
    writeupId: Option<string>)

  /** A stored achievement; `solvedDate` is an opaque comparable timestamp. */
  datatype Achievement = Achievement(
    id: string,
    ctfName: string,
    platform: string,
    challengeName: string,
    category: Category,
    difficulty: Difficulty,
    points: int,
    solvedDate: int,
    writeupId: Option<string>)

  function AchievementCategory(a: Achievement): Category { a.category }
  function AchievementDifficulty(a: Achievement): Difficulty { a.difficulty }
  function AchievementPlatform(a: Achievement): string { a.platform }
  function AchievementPoints(a: Achievement): int { a.points }
  function AchievementSolvedDate(a: Achievement): int { a.solvedDate }

  /** The validated paths of an achievement. */
  datatype AchievementPath = CtfNamePath | PlatformPath | ChallengeNamePath | CategoryPath | DifficultyPath | PointsPath

  function AchievementPathName(p: AchievementPath): string {
    match p
    case CtfNamePath => "ctfName"
    case PlatformPath => "platform"
    case ChallengeNamePath => "challengeName"
    case CategoryPath => "category"
    case DifficultyPath => "difficulty"
    case PointsPath => "points"
  }

  const AchievementPaths: seq<AchievementPath> :=
    [CtfNamePath, PlatformPath, ChallengeNamePath, CategoryPath, DifficultyPath, PointsPath]

  /**
   * When a path fails validation: a name is missing or empty, an enumeration value is missing,
   * empty or not listed, or points are missing. Zero and negative points pass.
   */
  predicate Fails(doc: AchievementDoc, p: AchievementPath) {
    match p
    case CtfNamePath => !Present(doc.ctfName)
    case PlatformPath => !Present(doc.platform)
    case ChallengeNamePath => !Present(doc.challengeName)
    case CategoryPath => !(Present(doc.category) && doc.category.value in CategoryNames)
    case DifficultyPath => !(Present(doc.difficulty) && doc.difficulty.value in DifficultyNames)
    case PointsPath => doc.points.None?
  }

  /** The validators declared on one path. */
  function CheckPath(doc: AchievementDoc, p: AchievementPath): (errs: seq<FieldError<AchievementPath>>)
    ensures Paths(errs) == if Fails(doc, p) then [p] else []
  {
    match p
    case CtfNamePath => CheckRequired(p, doc.ctfName)
    case PlatformPath => CheckRequired(p, doc.platform)
    case ChallengeNamePath => CheckRequired(p, doc.challengeName)
    case CategoryPath => CheckEnum(p, doc.category, CategoryNames)
    case DifficultyPath => CheckEnum(p, doc.difficulty, DifficultyNames)
    case PointsPath => CheckRequiredNumber(p, doc.points)
  }

  /** The schema lists every path. */
  lemma AllPathsListed()
    ensures forall q :: q in AchievementPaths
  {
    forall q ensures q in AchievementPaths {
      match q
      case CtfNamePath => assert AchievementPaths[0] == q;
      case PlatformPath => assert AchievementPaths[1] == q;
      case ChallengeNamePath => assert AchievementPaths[2] == q;
      case CategoryPath => assert AchievementPaths[3] == q;
      case DifficultyPath => assert AchievementPaths[4] == q;
      case PointsPath => assert AchievementPaths[5] == q;
    }
  }

  lemma AchievementPathsDistinct()
    ensures NoDuplicates(AchievementPaths)
  {
  }

  /**
   * The validation errors of an achievement document, in schema order: each failing path is
   * reported exactly once and no other path is reported.
   */
  function AchievementErrors(doc: AchievementDoc): (errs: seq<FieldError<AchievementPath>>)
    ensures forall q :: q in Paths(errs) <==> Fails(doc, q)
    ensures NoDuplicates(Paths(errs))
  {
    AllPathsListed();
    AchievementPathsDistinct();
    var errs := RunChecks(AchievementPaths, p => CheckPath(doc, p));
    assert forall p :: Paths(CheckPath(doc, p)) == if Fails(doc, p) then [p] else [];
    RunChecksPaths(AchievementPaths, p => CheckPath(doc, p), p => Fails(doc, p));
    KeepNoDuplicates(AchievementPaths, p => Fails(doc, p));
    errs
  }

  /** The errors come in schema order: they are reported for the failing paths, as listed. */
  lemma AchievementErrorsInSchemaOrder(doc: AchievementDoc)
    ensures Paths(AchievementErrors(doc)) == Keep(AchievementPaths, p => Fails(doc, p))
  {
    assert forall p :: Paths(CheckPath(doc, p)) == if Fails(doc, p) then [p] else [];
    RunChecksPaths(AchievementPaths, p => CheckPath(doc, p), p => Fails(doc, p));
  }

  /** The schema's requirements, read directly off its declarations. */
  predicate IsValidAchievement(doc: AchievementDoc) {
    && Present(doc.ctfName) && Present(doc.platform) && Present(doc.challengeName)
    && Present(doc.category) && doc.category.value in CategoryNames
    && Present(doc.difficulty) && doc.difficulty.value in DifficultyNames
    && doc.points.Some?
  }

  /** No path fails exactly when the document meets every requirement. */
  lemma NoFailureIff(doc: AchievementDoc)
    ensures (forall q :: !Fails(doc, q)) <==> IsValidAchievement(doc)
  {
    if !IsValidAchievement(doc) {
      assert Fails(doc, CtfNamePath) || Fails(doc, PlatformPath) || Fails(doc, ChallengeNamePath)
        || Fails(doc, CategoryPath) || Fails(doc, DifficultyPath) || Fails(doc, PointsPath);
    }
  }

  /** Validation reports no error exactly when the document meets every requirement. */
  lemma ValidAchievementIff(doc: AchievementDoc)
    ensures AchievementErrors(doc) == [] <==> IsValidAchievement(doc)
  {
    var errs := AchievementErrors(doc);
    NoFailureIff(doc);
    if errs != [] {
      assert Paths(errs)[0] in Paths(errs);
    } else {
      assert Paths(errs) == [];
    }
  }

  /**
   * The schema puts no lower bound on points and does not check `writeupId`: neither changes
   * whether a document is valid, as long as points are given.
   */
  lemma ValidityIgnoresPointsAndWriteup(doc: AchievementDoc, points: int, writeupId: Option<string>)
    requires doc.points.Some?
    ensures (AchievementErrors(doc) == []) == (AchievementErrors(doc.(points := Some(points), writeupId := writeupId)) == [])
  {
    ValidAchievementIff(doc);
    ValidAchievementIff(doc.(points := Some(points), writeupId := writeupId));
  }

  /** The record the store keeps for a valid document; a missing `solvedDate` becomes `now`. */
  function ToAchievement(doc: AchievementDoc, id: string, now: int): (a: Achievement)
    requires IsValidAchievement(doc)
    ensures a.ctfName == doc.ctfName.value && a.platform == doc.platform.value
    ensures a.challengeName == doc.challengeName.value
    ensures CategoryName(a.category) == doc.category.value
    ensures DifficultyName(a.difficulty) == doc.difficulty.value
    ensures a.points == doc.points.value && a.writeupId == doc.writeupId
    ensures a.solvedDate == (if doc.solvedDate.Some? then doc.solvedDate.value else now)
    ensures a.id == id
  {
    Achievement(id, doc.ctfName.value, doc.platform.value, doc.challengeName.value,
                ParseCategory(doc.category.value).value, ParseDifficulty(doc.difficulty.value).value,
                doc.points.value, doc.solvedDate.GetOr(now), doc.writeupId)
  }
}
