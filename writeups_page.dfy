/**
 * The state of the write-ups page: like the blog index, but only the posts of the five
 * challenge categories are kept, so a `Misc` post is never held or shown.
 */
module WriteupsIndex {
  import opened Wrappers
  import opened Seqs
  import opened BlogTypes
  import opened PostFilter

  class WriteupsPage {
    var posts: seq<Post>
    var loading: bool
    var selectedCategory: string
    var selectedDifficulty: string

    /** The page holds only write-ups. */
    ghost predicate Valid()
      reads this
    {
      forall p :: p in posts ==> p.category != Misc
    }

    constructor ()
      ensures Valid()
      ensures posts == [] && loading
      ensures selectedCategory == AllCategories && selectedDifficulty == AllDifficulties
    {
      posts := [];
      loading := true;
      selectedCategory := AllCategories;
      selectedDifficulty := AllDifficulties;
    }

    /**
     * The end of the initial fetch: the write-ups among the listed posts, or the current posts
     * when the request failed. Loading ends either way.
     */
    method FetchPosts(data: Option<seq<Post>>)
      requires Valid()
      modifies this
      ensures Valid()
      ensures posts == (if data.Some? then Writeups(data.value) else old(posts))
      ensures !loading
      ensures selectedCategory == old(selectedCategory) && selectedDifficulty == old(selectedDifficulty)
    {
      if data.Some? {
        posts := Writeups(data.value);
      }
      loading := false;
    }

    /** The local delete: drops every post with that id. */
    method HandlePostDelete(id: string)
      requires Valid()
      modifies this
      ensures Valid()
      ensures posts == RemoveById(old(posts), id)
      ensures loading == old(loading)
      ensures selectedCategory == old(selectedCategory) && selectedDifficulty == old(selectedDifficulty)
    {
      posts := RemoveById(posts, id);
    }

    method SelectCategory(category: string)
      requires Valid()
      modifies this
      ensures Valid()
      ensures selectedCategory == category
      ensures posts == old(posts) && loading == old(loading) && selectedDifficulty == old(selectedDifficulty)
    {
      selectedCategory := category;
    }

    method SelectDifficulty(difficulty: string)
      requires Valid()
      modifies this
      ensures Valid()
      ensures selectedDifficulty == difficulty
      ensures posts == old(posts) && loading == old(loading) && selectedCategory == old(selectedCategory)
    {
      selectedDifficulty := difficulty;
    }

    /** The posts displayed: write-ups matching both selectors, in fetched order. */
    function FilteredPosts(): (r: seq<Post>)
      requires Valid()
      reads this
      ensures IsSubseq(r, posts)
      ensures forall p :: p in r <==> p in posts && Matches(p, selectedCategory, selectedDifficulty)
      ensures forall p :: multiset(r)[p] == if Matches(p, selectedCategory, selectedDifficulty) then multiset(posts)[p] else 0
      ensures forall p :: p in r ==> p.category != Misc
    {
      FilterPosts(posts, selectedCategory, selectedDifficulty)
    }
  }
}
