/**
 * The `/api/posts` route: `GET` lists every post, newest first; `POST` checks the required
 * fields, fills in defaults, hands the document to the store and maps its failures to statuses.
 */
module PostsRoute {
  import opened Wrappers
  import opened Sorting
  import opened Text
  import opened BlogTypes
  import opened Api
  import opened Validation
  import opened BlogPostSchema

  /**
   * The JSON body of a create request. A member that is absent, or not of the expected type,
   * is `None`. The optional `date` member is not modelled.
   */
  datatype PostRequest = PostRequest(
    title: Option<string>,
    content: Option<string>,
    excerpt: Option<string>,
    author: Option<Author>,
    tags: Option<seq<Tag>>,
    difficulty: Option<string>,
    category: Option<string>,
    images: Option<seq<Image>>)

  /**
   * The handler's own guard: one of the four required members is falsy. A string is falsy
   * exactly when it is absent or empty, which is `!Present`.
   */
  predicate MissingRequired(req: PostRequest) {
    !Present(req.title) || !Present(req.content) || !Present(req.difficulty) || !Present(req.category)
  }

  const DefaultAuthorName := "Anonymous"
  const DefaultAuthorImage := "/default-avatar.jpg"

  /** `x || fallback` on an optional string. */
  function OrElse(v: Option<string>, fallback: string): (r: string)
    ensures Present(v) ==> r == v.value
    ensures !Present(v) ==> r == fallback
  {
    if Present(v) then v.value else fallback
  }

  /** The author sub-document after defaulting each part on its own. */
  function AuthorData(a: Option<Author>): (r: Author)
    ensures r.name.Some? && r.image.Some?
    ensures a.Some? && Present(a.value.name) ==> r.name == a.value.name
    ensures !(a.Some? && Present(a.value.name)) ==> r.name == Some(DefaultAuthorName)
    ensures a.Some? && Present(a.value.image) ==> r.image == a.value.image
    ensures !(a.Some? && Present(a.value.image)) ==> r.image == Some(DefaultAuthorImage)
  {
    var name := if a.Some? then a.value.name else None;
    var image := if a.Some? then a.value.image else None;
    Author(Some(OrElse(name, DefaultAuthorName)), Some(OrElse(image, DefaultAuthorImage)))
  }

  /**
   * The document built from a request that passed the guard: the four required members are
   * copied, a falsy excerpt becomes the first 150 characters of the content followed by "...",
   * and missing tag and image lists become empty.
   */
  function PostData(req: PostRequest): (doc: PostDoc)
    requires !MissingRequired(req)
    ensures doc.title == req.title && doc.content == req.content
    ensures doc.difficulty == req.difficulty && doc.category == req.category
    ensures Present(req.excerpt) ==> doc.excerpt == req.excerpt
    ensures !Present(req.excerpt) ==> doc.excerpt == Some(DefaultExcerpt(req.content.value))
    ensures doc.author == AuthorData(req.author)
    ensures doc.tags == req.tags.GetOr([]) && doc.images == req.images.GetOr([])
  {
    PostDoc(req.title, req.content, Some(OrElse(req.excerpt, DefaultExcerpt(req.content.value))),
            AuthorData(req.author), req.tags.GetOr([]), req.difficulty, req.category,
            req.images.GetOr([]))
  }

  /**
   * Past the guard, the document can fail validation only on its enumerations: the required
   * strings are all there.
   */
  lemma PostDataFailsOnlyOnEnums(req: PostRequest)
    requires !MissingRequired(req)
    ensures forall q :: q in Paths(PostErrors(PostData(req))) <==>
      (q == DifficultyPath && req.difficulty.value !in DifficultyNames)
      || (q == CategoryPath && req.category.value !in CategoryNames)
  {
    var doc := PostData(req);
    forall q ensures Fails(doc, q) <==>
      (q == DifficultyPath && req.difficulty.value !in DifficultyNames)
      || (q == CategoryPath && req.category.value !in CategoryNames)
    {
    }
  }

  /** A create request's reply together with the collection after it. */
  datatype Created = Created(response: Response<Post>, posts: seq<Post>)

  /**
   * `POST /api/posts`. `failure` is an exception thrown while connecting or reading the body;
   * `reply` is how the store answers an insert of a document that passed validation.
   */
  function CreatePost(posts: seq<Post>, failure: Option<string>, req: PostRequest, reply: StoreReply): (c: Created)
    ensures c.posts == if c.response.Ok? then posts + [c.response.body] else posts
    ensures failure.Some? ==> c.response == Error(500, "Failed to create post", Message(failure.value))
    ensures failure.None? && MissingRequired(req) ==> c.response == Error(400, "Missing required fields", NoDetails)
    ensures c.response.Ok? <==>
      (failure.None? && !MissingRequired(req)
       && req.difficulty.value in DifficultyNames && req.category.value in CategoryNames && reply.Inserted?)
    ensures c.response.Ok? ==> c.response.body == ToPost(PostData(req), reply.id, reply.timestamp)
    ensures (failure.None? && !MissingRequired(req)
             && req.difficulty.value in DifficultyNames && req.category.value in CategoryNames) ==>
      && (reply.DuplicateKey? ==> c.response == Error(409, "A post with this title already exists", NoDetails))
      && (reply.StoreError? ==> c.response == Error(500, "Failed to create post", Message(reply.message)))
  {
    if failure.Some? then
      Created(Error(500, "Failed to create post", Message(failure.value)), posts)
    else if MissingRequired(req) then
      Created(Error(400, "Missing required fields", NoDetails), posts)
    else
      var doc := PostData(req);
      var errs := PostErrors(doc);
      ValidPostIff(doc);
      if errs != [] then
        Created(Error(400, "Validation error", Messages(PostErrorMessages(errs))), posts)
      else
        match reply
        case Inserted(id, timestamp) =>
          var p := ToPost(doc, id, timestamp);
          Created(Ok(p), posts + [p])
        case DuplicateKey =>
          Created(Error(409, "A post with this title already exists", NoDetails), posts)
        case StoreError(message) =>
          Created(Error(500, "Failed to create post", Message(message)), posts)
  }

  /** Every reply of the create handler carries one of four statuses. */
  lemma CreateStatuses(posts: seq<Post>, failure: Option<string>, req: PostRequest, reply: StoreReply)
    ensures CreatePost(posts, failure, req, reply).response.Status() in {200, 400, 409, 500}
  {
  }

  /**
   * The post created from a request that passes the guard and validation (which `CreatePost`
   * returns and appends when the store accepts it) keeps the four required members as sent,
   * gets the supplied excerpt or the default one, an author whose parts default independently,
   * and the sent tags and images or none; its id and timestamp are the store's.
   */
  lemma CreatedPostFields(req: PostRequest, id: string, timestamp: int)
    requires !MissingRequired(req)
    requires req.difficulty.value in DifficultyNames && req.category.value in CategoryNames
    ensures IsValidPost(PostData(req))
    ensures var p := ToPost(PostData(req), id, timestamp);
      && p.id == id && p.createdAt == timestamp
      && p.title == req.title.value && p.content == req.content.value
      && DifficultyName(p.difficulty) == req.difficulty.value && CategoryName(p.category) == req.category.value
      && (Present(req.excerpt) ==> p.excerpt == req.excerpt)
      && (!Present(req.excerpt) ==> p.excerpt == Some(DefaultExcerpt(req.content.value)))
      && p.author == AuthorData(req.author)
      && p.tags == req.tags.GetOr([]) && p.images == req.images.GetOr([])
  {
    var doc := PostData(req);
    assert IsValidPost(doc);
  }

  /**
   * A request that passes the guard fails validation exactly when an enumeration member is not
   * listed. The reply is then 400 with one message per failing path, the paths being those
   * `PostDataFailsOnlyOnEnums` names, and nothing is stored.
   */
  lemma ValidationErrorReply(posts: seq<Post>, req: PostRequest, reply: StoreReply)
    requires !MissingRequired(req)
    ensures var r := CreatePost(posts, None, req, reply).response;
      r.Error? && r.error == "Validation error" <==>
        req.difficulty.value !in DifficultyNames || req.category.value !in CategoryNames
    ensures req.difficulty.value !in DifficultyNames || req.category.value !in CategoryNames ==>
      CreatePost(posts, None, req, reply)
        == Created(Error(400, "Validation error", Messages(PostErrorMessages(PostErrors(PostData(req))))), posts)
  {
    var doc := PostData(req);
    ValidPostIff(doc);
  }

  /**
   * Past the guard, the only errors are enum errors: one for an unlisted difficulty, then one for
   * an unlisted category.
   */
  lemma ValidationErrorsPastGuard(req: PostRequest)
    requires !MissingRequired(req)
    ensures var d := req.difficulty.value; var c := req.category.value;
      PostErrors(PostData(req))
        == (if d in DifficultyNames then [] else [NotInEnum(DifficultyPath, d)])
         + (if c in CategoryNames then [] else [NotInEnum(CategoryPath, c)])
  {
    PostErrorsByPath(PostData(req));
  }

  /**
   * Past the guard, the details of a validation error carry the mapper's default enum message
   * for an unlisted difficulty, then for an unlisted category.
   */
  lemma ValidationErrorDetails(req: PostRequest)
    requires !MissingRequired(req)
    ensures var d := req.difficulty.value; var c := req.category.value;
      PostErrorMessages(PostErrors(PostData(req)))
        == (if d in DifficultyNames then [] else [ErrorMessage(NotInEnum(DifficultyPath, d), "difficulty")])
         + (if c in CategoryNames then [] else [ErrorMessage(NotInEnum(CategoryPath, c), "category")])
  {
    var d, c := req.difficulty.value, req.category.value;
    var a: seq<FieldError<PostPath>> := if d in DifficultyNames then [] else [NotInEnum(DifficultyPath, d)];
    var b: seq<FieldError<PostPath>> := if c in CategoryNames then [] else [NotInEnum(CategoryPath, c)];
    ValidationErrorsPastGuard(req);
    PostErrorMessagesConcat(a, b);
  }

  /**
   * `GET /api/posts`: every stored post, newest first (ties in any order), or 500 when the
   * store cannot be reached.
   */
  function ListPosts(posts: seq<Post>, failure: Option<string>): (r: Response<seq<Post>>)
    ensures failure.Some? ==> r == Error(500, "Failed to fetch posts", NoDetails)
    ensures failure.None? ==>
      r.Ok? && SortedDesc(r.body, PostCreatedAt) && multiset(r.body) == multiset(posts)
  {
    if failure.Some? then Error(500, "Failed to fetch posts", NoDetails)
    else Ok(SortDesc(posts, PostCreatedAt))
  }
}
