/**
 * The new-post form: its fields, the tag list it builds up, the image upload that extends the
 * content, and the request it sends to `/api/posts`.
 */
module NewPost {
  import opened Wrappers
  import opened Seqs
  import opened Text
  import opened BlogTypes
  import opened Api
  import opened Validation
  import opened PostsRoute
  import opened PostFilter

  /** The colours a tag can get. */
  const Palette: seq<string> := ["#2563eb", "#7c3aed", "#dc2626", "#2dd4bf", "#f59e0b"]

  type PaletteIndex = i: nat | i < 5

  const OwnerImage := "/my-avatar.jpg"

  /**
   * The tag records sent with a post: the i-th has id `i` in decimal, the i-th tag as its name,
   * and the palette colour `pick(i)`, which stands for the random choice made for it.
   */
  function TagRecords(tags: seq<string>, pick: nat -> PaletteIndex): (r: seq<Tag>)
    ensures |r| == |tags|
    ensures forall i :: 0 <= i < |r| ==> r[i].id == NatToString(i) && r[i].name == tags[i]
    ensures forall i :: 0 <= i < |r| ==> r[i].color in Palette
  {
    seq(|tags|, i requires 0 <= i < |tags| => Tag(NatToString(i), tags[i], Palette[pick(i)]))
  }

  /** No two tag records share an id. */
  lemma TagIdsDistinct(tags: seq<string>, pick: nat -> PaletteIndex)
    ensures forall i, j :: 0 <= i < j < |tags| ==> TagRecords(tags, pick)[i].id != TagRecords(tags, pick)[j].id
  {
    forall i, j | 0 <= i < j < |tags|
      ensures TagRecords(tags, pick)[i].id != TagRecords(tags, pick)[j].id
    {
      NatToStringInjective(i, j);
    }
  }

  /** The tag list without `tag`: every other tag, in order. */
  function WithoutTag(tags: seq<string>, tag: string): (r: seq<string>)
    ensures IsSubseq(r, tags)
    ensures forall s :: s in r <==> s in tags && s != tag
    ensures forall s :: multiset(r)[s] == if s != tag then multiset(tags)[s] else 0
  {
    Keep(tags, (s: string) => s != tag)
  }

  /** The markdown line that shows an uploaded image. */
  function ImageMarkdown(name: string, url: string): string {
    "![" + name + "](" + url + ")\n"
  }

  class NewPostForm {
    var title: string
    var content: string
    var category: Category
    var difficulty: Difficulty
    var tags: seq<string>
    var newTag: string
    var isSubmitting: bool
    var images: seq<Image>

    /** The tags are distinct, non-empty and trimmed. */
    ghost predicate Valid()
      reads this
    {
      && NoDuplicates(tags)
      && forall i :: 0 <= i < |tags| ==> tags[i] != "" && IsTrimmed(tags[i])
    }

    /** The empty form: category Web, difficulty Medium, no tags and no images. */
    constructor ()
      ensures Valid()
      ensures title == "" && content == "" && category == Web && difficulty == Medium
      ensures tags == [] && newTag == "" && !isSubmitting && images == []
    {
      title := "";
      content := "";
      category := Web;
      difficulty := Medium;
      tags := [];
      newTag := "";
      isSubmitting := false;
      images := [];
    }

    /** Typing in the tag input. */
    method EditNewTag(s: string)
      requires Valid()
      modifies this
      ensures Valid()
      ensures newTag == s
      ensures title == old(title) && content == old(content) && category == old(category)
      ensures difficulty == old(difficulty) && tags == old(tags) && isSubmitting == old(isSubmitting)
      ensures images == old(images)
    {
      newTag := s;
    }

    /**
     * A key press in the tag input. On Enter, the trimmed input is added at the end and the
     * input cleared when it is not empty and not a tag yet; anything else changes nothing.
     */
    method HandleAddTag(key: string)
      requires Valid()
      modifies this
      ensures Valid()
      ensures var t := Trim(old(newTag));
        if key == "Enter" && t != "" && t !in old(tags)
        then tags == old(tags) + [t] && newTag == ""
        else tags == old(tags) && newTag == old(newTag)
      ensures title == old(title) && content == old(content) && category == old(category)
      ensures difficulty == old(difficulty) && isSubmitting == old(isSubmitting) && images == old(images)
    {
      var t := Trim(newTag);
      if key == "Enter" && t != "" && t !in tags {
        var added := tags + [t];
        forall i, j | 0 <= i < j < |added| ensures added[i] != added[j] {
          if j == |tags| {
            assert added[i] == tags[i];
          } else {
            assert added[i] == tags[i] && added[j] == tags[j];
          }
        }
        tags := added;
        newTag := "";
      }
    }

    /** Removing a tag keeps the others, in order. */
    method RemoveTag(tag: string)
      requires Valid()
      modifies this
      ensures Valid()
      ensures tags == WithoutTag(old(tags), tag)
      ensures title == old(title) && content == old(content) && category == old(category)
      ensures difficulty == old(difficulty) && newTag == old(newTag) && isSubmitting == old(isSubmitting)
      ensures images == old(images)
    {
      KeepNoDuplicates(tags, (s: string) => s != tag);
      var kept := WithoutTag(tags, tag);
      forall i | 0 <= i < |kept| ensures kept[i] != "" && IsTrimmed(kept[i]) {
        assert kept[i] in tags;
      }
      tags := kept;
    }

    /**
     * The end of an upload. `fileName` is the first chosen file, `None` when none was chosen;
     * `url` is the `url` member of the upload reply, `None` when it is absent or the upload
     * failed. A non-empty url adds the image with an empty caption and appends its markdown
     * line to the content; otherwise nothing changes.
     */
    method HandleImageUpload(fileName: Option<string>, url: Option<string>)
      requires Valid()
      modifies this
      ensures Valid()
      ensures if fileName.Some? && Present(url)
        then images == old(images) + [Image(url.value, "")]
          && content == old(content) + ImageMarkdown(fileName.value, url.value)
        else images == old(images) && content == old(content)
      ensures title == old(title) && category == old(category) && difficulty == old(difficulty)
      ensures tags == old(tags) && newTag == old(newTag) && isSubmitting == old(isSubmitting)
    {
      if fileName.Some? && Present(url) {
        images := images + [Image(url.value, "")];
        content := content + ImageMarkdown(fileName.value, url.value);
      }
    }

    /**
     * The request body the form sends: title and content as typed, the default excerpt
     * computed on the client, the owner as author, numbered tag records, and the selected
     * category and difficulty, which are always enumeration values.
     */
    function Submission(pick: nat -> PaletteIndex): (r: PostRequest)
      reads this
      ensures MissingRequired(r) <==> title == "" || content == ""
      ensures r.difficulty.Some? && r.difficulty.value in DifficultyNames
      ensures r.category.Some? && r.category.value in CategoryNames
      ensures r.excerpt.Some? && |r.excerpt.value| <= ExcerptLength + 3
      ensures r.tags.Some? && |r.tags.value| == |tags|
      ensures forall i :: 0 <= i < |tags| ==> r.tags.value[i].name == tags[i]
      ensures r.title == Some(title) && r.content == Some(content)
      ensures r.excerpt == Some(DefaultExcerpt(content))
      ensures r.author == Some(Author(Some(OwnerName), Some(OwnerImage)))
      ensures r.tags == Some(TagRecords(tags, pick)) && r.images == Some(images)
    {
      PostRequest(Some(title), Some(content), Some(DefaultExcerpt(content)),
                  Some(Author(Some(OwnerName), Some(OwnerImage))), Some(TagRecords(tags, pick)),
                  Some(DifficultyName(difficulty)), Some(CategoryName(category)), Some(images))
    }
  }

  /**
   * A submission with a title and content that the store accepts becomes the owner's post: it
   * gets a delete button, keeps the client's excerpt, tags and images, and joins the list.
   */
  lemma SubmissionCreatesOwnedPost(form: NewPostForm, posts: seq<Post>, pick: nat -> PaletteIndex, id: string, timestamp: int)
    requires form.title != "" && form.content != ""
    ensures var c := CreatePost(posts, None, form.Submission(pick), Inserted(id, timestamp));
      && c.response.Ok? && c.posts == posts + [c.response.body]
      && var p := c.response.body;
      && ShowDeleteButton(p)
      && p.title == form.title && p.content == form.content
      && p.category == form.category && p.difficulty == form.difficulty
      && p.excerpt == Some(DefaultExcerpt(form.content))
      && p.tags == TagRecords(form.tags, pick) && p.images == form.images
  {
    var req := form.Submission(pick);
    CreatedPostFields(req, id, timestamp);
  }

  /** Without a title or content the server refuses the submission before validation. */
  lemma EmptySubmissionRejected(form: NewPostForm, posts: seq<Post>, pick: nat -> PaletteIndex, reply: StoreReply)
    requires form.title == "" || form.content == ""
    ensures CreatePost(posts, None, form.Submission(pick), reply)
      == Created(Error(400, "Missing required fields", NoDetails), posts)
  {
  }
}
