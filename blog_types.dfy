/** The shapes of the records the blog stores and shows: posts, their tags, author and images. */
module BlogTypes {
  import opened Wrappers

  /** The six challenge categories of the schema enumerations. */
  datatype Category = Web | Crypto | Forensics | Pwn | Reverse | Misc

  /** The three difficulty levels of the schema enumerations. */
  datatype Difficulty = Easy | Medium | Hard

  function CategoryName(c: Category): string {
    match c
    case Web => "Web"
    case Crypto => "Crypto"
    case Forensics => "Forensics"
    case Pwn => "Pwn"
    case Reverse => "Reverse"
    case Misc => "Misc"
  }

  function DifficultyName(d: Difficulty): string {
    match d
    case Easy => "Easy"
    case Medium => "Medium"
    case Hard => "Hard"
  }

  /** The enumeration values, as the schema lists them. */
  const CategoryNames: seq<string> := ["Web", "Crypto", "Forensics", "Pwn", "Reverse", "Misc"]
  const DifficultyNames: seq<string> := ["Easy", "Medium", "Hard"]

  /** The category a stored string stands for, if it is one of the enumeration values. */
  function ParseCategory(s: string): (r: Option<Category>)
    ensures r.Some? <==> s in CategoryNames
    ensures r.Some? ==> CategoryName(r.value) == s
    ensures forall c :: CategoryName(c) == s ==> r == Some(c)
  {
    if s == "Web" then Some(Web)
    else if s == "Crypto" then Some(Crypto)
    else if s == "Forensics" then Some(Forensics)
    else if s == "Pwn" then Some(Pwn)
    else if s == "Reverse" then Some(Reverse)
    else if s == "Misc" then Some(Misc)
    else None
  }

  /** The difficulty a stored string stands for, if it is one of the enumeration values. */
  function ParseDifficulty(s: string): (r: Option<Difficulty>)
    ensures r.Some? <==> s in DifficultyNames
    ensures r.Some? ==> DifficultyName(r.value) == s
    ensures forall d :: DifficultyName(d) == s ==> r == Some(d)
  {
    if s == "Easy" then Some(Easy)
    else if s == "Medium" then Some(Medium)
    else if s == "Hard" then Some(Hard)
    else None
  }

  datatype Tag = Tag(id: string, name: string, color: string)

  /** The author sub-document; neither part is required by the schema. */
  datatype Author = Author(name: Option<string>, image: Option<string>)

  datatype Image = Image(url: string, caption: string)

  /**
   * A stored post as the API returns it. `createdAt` is the store's timestamp, an opaque
   * comparable number here.
   */
  datatype Post = Post(
    id: string,
    title: string,
    content: string,
    excerpt: Option<string>,
    author: Author,
    tags: seq<Tag>,
    difficulty: Difficulty,
    category: Category,
    images: seq<Image>,
    createdAt: int)

  function PostCategory(p: Post): Category { p.category }
  function PostDifficulty(p: Post): Difficulty { p.difficulty }
  function PostCreatedAt(p: Post): int { p.createdAt }
}
