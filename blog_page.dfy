/** The state of the blog index page: the fetched posts, the loading flag and the two selectors. */
module BlogIndex {
  import opened Wrappers
  import opened Seqs
  import opened BlogTypes
  import opened PostFilter

  class BlogPage {
    var posts: seq<Post>
    var loading: bool
    var selectedCategory: string
    var selectedDifficulty: string

    /** The page as first rendered: no posts yet, still loading, both selectors on "All". */
    constructor ()
      ensures posts == [] && loading
      ensures selectedCategory == AllCategories && selectedDifficulty == AllDifficulties
    {
      posts := [];
      loading := true;
      selectedCategory := AllCategories;
      selectedDifficulty := AllDifficulties;
    }

    /**
     * The end of the initial fetch: `data` is the listed posts, or `None` when the request
     * failed, which keeps the current posts. Loading ends either way.
     */
    method FetchPosts(data: Option<seq<Post>>)
      modifies this
      ensures posts == (if data.Some? then data.value else old(posts))
      ensures !loading
      ensures selectedCategory == old(selectedCategory) && selectedDifficulty == old(selectedDifficulty)
    {
      if data.Some? {
        posts := data.value;
      }
      loading := false;
    }

    /** The local delete: drops every post with that id. */
    method HandlePostDelete(id: string)
      modifies this
      ensures posts == RemoveById(old(posts), id)
      ensures loading == old(loading)
      ensures selectedCategory == old(selectedCategory) && selectedDifficulty == old(selectedDifficulty)
    {
      posts := RemoveById(posts, id);
    }

    method SelectCategory(category: string)
      modifies this
      ensures selectedCategory == category
      ensures posts == old(posts) && loading == old(loading) && selectedDifficulty == old(selectedDifficulty)
    {
      selectedCategory := category;
    }

    method SelectDifficulty(difficulty: string)
      modifies this
      ensures selectedDifficulty == difficulty
      ensures posts == old(posts) && loading == old(loading) && selectedCategory == old(selectedCategory)
    {
      selectedDifficulty := difficulty;
    }

    /** The posts displayed: those matching both selectors, in fetched order. */
    function FilteredPosts(): (r: seq<Post>)
      reads this
      ensures IsSubseq(r, posts)
      ensures forall p :: p in r <==> p in posts && Matches(p, selectedCategory, selectedDifficulty)
      ensures forall p :: multiset(r)[p] == if Matches(p, selectedCategory, selectedDifficulty) then multiset(posts)[p] else 0
    {
      FilterPosts(posts, selectedCategory, selectedDifficulty)
    }
  }
}
