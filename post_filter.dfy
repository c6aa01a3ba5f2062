/**
 * The list logic of the post pages: the category and difficulty selection with its
 * "All ..." wildcards, the write-up whitelist, the local delete and the delete-button rule.
 */
module PostFilter {
  import opened Wrappers
  import opened Seqs
  import opened BlogTypes

  /** The first option of each selector, which matches everything. */
  const AllCategories := "All Categories"
  const AllDifficulties := "All Difficulties"

  /** A post matches a selection when each selector is its wildcard or names the post's value. */
  predicate Matches(p: Post, category: string, difficulty: string) {
    && (category == AllCategories || CategoryName(p.category) == category)
    && (difficulty == AllDifficulties || DifficultyName(p.difficulty) == difficulty)
  }

  /**
   * The posts shown for a selection: exactly the matching ones, each as often as it occurs, in
   * their original order.
   */
  function FilterPosts(posts: seq<Post>, category: string, difficulty: string): (r: seq<Post>)
    ensures IsSubseq(r, posts)
    ensures forall p :: p in r <==> p in posts && Matches(p, category, difficulty)
    ensures forall p :: multiset(r)[p] == if Matches(p, category, difficulty) then multiset(posts)[p] else 0
  {
    Keep(posts, p => Matches(p, category, difficulty))
  }

  /** With both selectors on their wildcard, every post is shown. */
  lemma FilterAllIsIdentity(posts: seq<Post>)
    ensures FilterPosts(posts, AllCategories, AllDifficulties) == posts
  {
    KeepAll(posts, p => Matches(p, AllCategories, AllDifficulties));
  }

  /** Filtering what is shown again with the same selection shows the same posts. */
  lemma FilterIdempotent(posts: seq<Post>, category: string, difficulty: string)
    ensures FilterPosts(FilterPosts(posts, category, difficulty), category, difficulty)
         == FilterPosts(posts, category, difficulty)
  {
    KeepIdempotent(posts, p => Matches(p, category, difficulty));
  }

  /**
   * The list after deleting post `id`: every post with that id is gone, every other post stays,
   * as often as before and in the same order.
   */
  function RemoveById(posts: seq<Post>, id: string): (r: seq<Post>)
    ensures IsSubseq(r, posts)
    ensures forall p :: p in r <==> p in posts && p.id != id
    ensures forall p: Post :: p.id != id ==> multiset(r)[p] == multiset(posts)[p]
  {
    Keep(posts, (p: Post) => p.id != id)
  }

  /** Deleting a post and selecting commute: the shown list loses exactly the deleted post. */
  lemma DeleteThenFilter(posts: seq<Post>, id: string, category: string, difficulty: string)
    ensures FilterPosts(RemoveById(posts, id), category, difficulty)
         == RemoveById(FilterPosts(posts, category, difficulty), id)
  {
    KeepCommutes(posts, (p: Post) => p.id != id, p => Matches(p, category, difficulty));
  }

  /** The categories the write-ups page keeps. */
  const WriteupCategories: seq<string> := ["Web", "Crypto", "Forensics", "Pwn", "Reverse"]

  predicate IsWriteup(p: Post) {
    CategoryName(p.category) in WriteupCategories
  }

  /** The write-ups among the fetched posts, in order: every post except the `Misc` ones. */
  function Writeups(posts: seq<Post>): (r: seq<Post>)
    ensures IsSubseq(r, posts)
    ensures forall p :: p in r <==> p in posts && p.category != Misc
    ensures forall p: Post :: p.category != Misc ==> multiset(r)[p] == multiset(posts)[p]
  {
    WhitelistIsAllButMisc();
    Keep(posts, IsWriteup)
  }

  /** The whitelist names every category except `Misc`. */
  lemma WhitelistIsAllButMisc()
    ensures forall p: Post :: IsWriteup(p) <==> p.category != Misc
  {
    forall p: Post ensures IsWriteup(p) <==> p.category != Misc {
      match p.category
      case Web => assert WriteupCategories[0] == "Web";
      case Crypto => assert WriteupCategories[1] == "Crypto";
      case Forensics => assert WriteupCategories[2] == "Forensics";
      case Pwn => assert WriteupCategories[3] == "Pwn";
      case Reverse => assert WriteupCategories[4] == "Reverse";
      case Misc => assert "Misc" !in WriteupCategories;
    }
  }

  /** The account whose posts get a delete button. */
  const OwnerName := "Xpl01tE4gl3"

  predicate ShowDeleteButton(p: Post) {
    p.author.name == Some(OwnerName)
  }
}
