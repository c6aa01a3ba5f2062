/**
 * The BlogPost schema: `title` and `content` are required strings, `difficulty` and `category`
 * are required strings from fixed enumerations; `excerpt`, `author`, `tags` and `images` are
 * optional and unconstrained.
 */
module BlogPostSchema {
  import opened Wrappers
  import opened Seqs
  import opened BlogTypes
  import opened Validation

  /** A post document as handed to the store, before validation. */
  datatype PostDoc = PostDoc(
    title: Option<string>,
    content: Option<string>,
    excerpt: Option<string>,
    author: Author,
    tags: seq<Tag>,
    difficulty: Option<string>,
    category: Option<string>,
    images: seq<Image>)

  /** The validated paths of a post. */
  datatype PostPath = TitlePath | ContentPath | DifficultyPath | CategoryPath

  function PostPathName(p: PostPath): string {
    match p
    case TitlePath => "title"
    case ContentPath => "content"
    case DifficultyPath => "difficulty"
    case CategoryPath => "category"
  }

  const PostPaths: seq<PostPath> := [TitlePath, ContentPath, DifficultyPath, CategoryPath]

  /**
   * When a path fails validation: a required string is missing or empty, or an enumeration
   * value is missing, empty or not listed.
   */
  predicate Fails(doc: PostDoc, p: PostPath) {
    match p
    case TitlePath => !Present(doc.title)
    case ContentPath => !Present(doc.content)
    case DifficultyPath => !(Present(doc.difficulty) && doc.difficulty.value in DifficultyNames)
    case CategoryPath => !(Present(doc.category) && doc.category.value in CategoryNames)
  }

  /** The validators declared on one path. */
  function CheckPath(doc: PostDoc, p: PostPath): (errs: seq<FieldError<PostPath>>)
    ensures Paths(errs) == if Fails(doc, p) then [p] else []
  {
    match p
    case TitlePath => CheckRequired(p, doc.title)
    case ContentPath => CheckRequired(p, doc.content)
    case DifficultyPath => CheckEnum(p, doc.difficulty, DifficultyNames)
    case CategoryPath => CheckEnum(p, doc.category, CategoryNames)
  }

  /** The schema lists every validated path. */
  lemma AllPathsListed()
    ensures forall q :: q in PostPaths
  {
    forall q ensures q in PostPaths {
      match q
      case TitlePath => assert PostPaths[0] == q;
      case ContentPath => assert PostPaths[1] == q;
      case DifficultyPath => assert PostPaths[2] == q;
      case CategoryPath => assert PostPaths[3] == q;
    }
  }

  lemma PostPathsDistinct()
    ensures NoDuplicates(PostPaths)
  {
  }

  /**
   * The validation errors of a post document, in schema order: each failing path is reported
   * exactly once and no other path is reported.
   */
  function PostErrors(doc: PostDoc): (errs: seq<FieldError<PostPath>>)
    ensures forall q :: q in Paths(errs) <==> Fails(doc, q)
    ensures NoDuplicates(Paths(errs))
  {
    AllPathsListed();
    PostPathsDistinct();
    var errs := RunChecks(PostPaths, p => CheckPath(doc, p));
    assert forall p :: Paths(CheckPath(doc, p)) == if Fails(doc, p) then [p] else [];
    RunChecksPaths(PostPaths, p => CheckPath(doc, p), p => Fails(doc, p));
    KeepNoDuplicates(PostPaths, p => Fails(doc, p));
    errs
  }

  /** The errors come in schema order: they are reported for the failing paths, as listed. */
  lemma PostErrorsInSchemaOrder(doc: PostDoc)
    ensures Paths(PostErrors(doc)) == Keep(PostPaths, p => Fails(doc, p))
  {
    assert forall p :: Paths(CheckPath(doc, p)) == if Fails(doc, p) then [p] else [];
    RunChecksPaths(PostPaths, p => CheckPath(doc, p), p => Fails(doc, p));
  }

  /** The errors are the reports of each path's validators, taken in schema order. */
  lemma PostErrorsByPath(doc: PostDoc)
    ensures PostErrors(doc) == CheckPath(doc, TitlePath) + CheckPath(doc, ContentPath)
      + CheckPath(doc, DifficultyPath) + CheckPath(doc, CategoryPath)
  {
    var check := p => CheckPath(doc, p);
    assert RunChecks([CategoryPath], check) == check(CategoryPath);
    assert RunChecks([DifficultyPath, CategoryPath], check) == check(DifficultyPath) + RunChecks([CategoryPath], check);
    assert RunChecks([ContentPath, DifficultyPath, CategoryPath], check)
      == check(ContentPath) + RunChecks([DifficultyPath, CategoryPath], check);
  }

  /** The `details` of a validation error: one message per failing path. */
  function PostErrorMessages(errs: seq<FieldError<PostPath>>): (ms: seq<string>)
    ensures |ms| == |errs|
    ensures forall i :: 0 <= i < |errs| ==> ms[i] == ErrorMessage(errs[i], PostPathName(errs[i].path))
  {
    seq(|errs|, i requires 0 <= i < |errs| => ErrorMessage(errs[i], PostPathName(errs[i].path)))
  }

  lemma PostErrorMessagesConcat(a: seq<FieldError<PostPath>>, b: seq<FieldError<PostPath>>)
    ensures PostErrorMessages(a + b) == PostErrorMessages(a) + PostErrorMessages(b)
  {
    var ms := PostErrorMessages(a + b);
    assert forall i :: 0 <= i < |a| ==> (a + b)[i] == a[i];
    assert forall i :: |a| <= i < |a + b| ==> (a + b)[i] == b[i - |a|];
  }

  /** The schema's requirements, read directly off its declarations. */
  predicate IsValidPost(doc: PostDoc) {
    && Present(doc.title) && Present(doc.content)
    && Present(doc.difficulty) && doc.difficulty.value in DifficultyNames
    && Present(doc.category) && doc.category.value in CategoryNames
  }

  /** No path fails exactly when the document meets every requirement. */
  lemma NoFailureIff(doc: PostDoc)
    ensures (forall q :: !Fails(doc, q)) <==> IsValidPost(doc)
  {
    if !IsValidPost(doc) {
      assert Fails(doc, TitlePath) || Fails(doc, ContentPath) || Fails(doc, DifficultyPath) || Fails(doc, CategoryPath);
    }
  }

  /** Validation reports no error exactly when the document meets every requirement. */
  lemma ValidPostIff(doc: PostDoc)
    ensures PostErrors(doc) == [] <==> IsValidPost(doc)
  {
    var errs := PostErrors(doc);
    NoFailureIff(doc);
    if errs != [] {
      assert Paths(errs)[0] in Paths(errs);
    } else {
      assert Paths(errs) == [];
    }
  }

  /** The optional fields never affect validity: excerpt, author, tags and images are unconstrained. */
  lemma ValidityIgnoresOptionalFields(doc: PostDoc, excerpt: Option<string>, author: Author, tags: seq<Tag>, images: seq<Image>)
    ensures (PostErrors(doc) == []) == (PostErrors(doc.(excerpt := excerpt, author := author, tags := tags, images := images)) == [])
  {
    ValidPostIff(doc);
    ValidPostIff(doc.(excerpt := excerpt, author := author, tags := tags, images := images));
  }

  /** The record the store keeps for a valid document, with the id and timestamp it assigned. */
  function ToPost(doc: PostDoc, id: string, createdAt: int): (p: Post)
    requires IsValidPost(doc)
    ensures p.title == doc.title.value && p.content == doc.content.value
    ensures DifficultyName(p.difficulty) == doc.difficulty.value
    ensures CategoryName(p.category) == doc.category.value
    ensures p.excerpt == doc.excerpt && p.author == doc.author
    ensures p.tags == doc.tags && p.images == doc.images
    ensures p.id == id && p.createdAt == createdAt
  {
    Post(id, doc.title.value, doc.content.value, doc.excerpt, doc.author, doc.tags,
         ParseDifficulty(doc.difficulty.value).value, ParseCategory(doc.category.value).value,
         doc.images, createdAt)
  }
}
