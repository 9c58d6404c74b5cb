/** The public blog views (blog/views.py): the featured strip of the
    landing page, the slug that names either a category or a post, the
    related posts and comment counts of a post page, and search. A table
    is a sequence of rows in the order the query returns them. */
module Blog {
  import opened Base
  import opened Grouping

  datatype BlogPost = BlogPost(
    id: nat,
    slug: string,
    title: string,
    content: string,
    excerpt: string,
    status: string,
    isTrashed: bool,
    isFeatured: bool,
    categories: set<nat>)

  datatype BlogCategory = BlogCategory(id: nat, slug: string)

  datatype Comment = Comment(id: nat, approved: bool, parent: Option<nat>)

  /** status='published' and is_trashed=False. */
  predicate IsLive(p: BlogPost) {
    p.status == "published" && !p.isTrashed
  }

  function Ids(s: seq<BlogPost>): (r: seq<nat>)
    ensures |r| == |s| && forall i :: 0 <= i < |s| ==> r[i] == s[i].id
  {
    seq(|s|, i requires 0 <= i < |s| => s[i].id)
  }

  /** Primary keys are unique. */
  predicate UniqueIds(s: seq<BlogPost>) {
    forall i, j :: 0 <= i < j < |s| ==> s[i].id != s[j].id
  }

  lemma {:induction false} FilterKeepsUniqueIds(xs: seq<BlogPost>, p: BlogPost -> bool)
    requires UniqueIds(xs)
    ensures UniqueIds(Filter(xs, p))
  {
    if xs != [] {
      var t := xs[1..];
      assert UniqueIds(t) by {
        forall i, j | 0 <= i < j < |t| ensures t[i].id != t[j].id {
          assert t[i] == xs[i + 1] && t[j] == xs[j + 1];
        }
      }
      FilterKeepsUniqueIds(t, p);
      var ft := Filter(t, p);
      forall k | 0 <= k < |ft| ensures ft[k].id != xs[0].id {
        var m :| 0 <= m < |t| && t[m] == ft[k];
        assert t[m] == xs[m + 1];
      }
      assert Filter(xs, p) == (if p(xs[0]) then [xs[0]] else []) + ft;
    }
  }

  lemma TakeKeepsUniqueIds(s: seq<BlogPost>, n: nat)
    requires UniqueIds(s)
    ensures UniqueIds(Take(s, n))
  {
    var t := Take(s, n);
    forall i, j | 0 <= i < j < |t| ensures t[i].id != t[j].id {
      assert t[i] == s[i] && t[j] == s[j];
    }
  }

  // ---------------------------------------------------------------------
  // The featured strip
  // ---------------------------------------------------------------------

  function FeaturedCandidates(posts: seq<BlogPost>): seq<BlogPost> {
    Filter(posts, (p: BlogPost) => IsLive(p) && p.isFeatured)
  }

  function Filler(posts: seq<BlogPost>, existing: seq<nat>): seq<BlogPost> {
    Filter(posts, (p: BlogPost) => IsLive(p) && p.id !in existing)
  }

  lemma ConcatUniqueIds(a: seq<BlogPost>, b: seq<BlogPost>)
    requires UniqueIds(a) && UniqueIds(b)
    requires forall j :: 0 <= j < |b| ==> b[j].id !in Ids(a)
    ensures UniqueIds(a + b)
  {
    var c := a + b;
    forall i, j | 0 <= i < j < |c| ensures c[i].id != c[j].id {
      if j >= |a| && i < |a| {
        assert c[j] == b[j - |a|];
        assert c[i].id == Ids(a)[i];
      } else if j >= |a| {
        assert c[i] == b[i - |a|] && c[j] == b[j - |a|];
      }
    }
  }

  /** A filler post is never one of the featured ones. */
  lemma FillerNotFeatured(posts: seq<BlogPost>, existing: seq<nat>, n: nat)
    ensures var extra := Take(Filler(posts, existing), n);
            forall j :: 0 <= j < |extra| ==> extra[j].id !in existing && IsLive(extra[j]) && extra[j] in posts
  {
    var extra := Take(Filler(posts, existing), n);
    forall j | 0 <= j < |extra|
      ensures extra[j].id !in existing && IsLive(extra[j]) && extra[j] in posts
    {
      assert extra[j] == Filler(posts, existing)[j];
    }
  }

  /** The blog view's featured list: up to three featured live posts,
      topped up with other live posts when there are fewer than three. */
  method FeaturedPosts(posts: seq<BlogPost>) returns (featured: seq<BlogPost>)
    requires UniqueIds(posts)
    ensures |featured| <= 3
    ensures forall i :: 0 <= i < |featured| ==> IsLive(featured[i]) && featured[i] in posts
    ensures UniqueIds(featured)
    ensures var first := Take(FeaturedCandidates(posts), 3);
            && first <= featured
            && (|first| == 3 ==> featured == first)
            && (|first| < 3 ==> featured == first + Take(Filler(posts, Ids(first)), 3 - |first|))
  {
    featured := Take(FeaturedCandidates(posts), 3);
    FilterKeepsUniqueIds(posts, (p: BlogPost) => IsLive(p) && p.isFeatured);
    TakeKeepsUniqueIds(FeaturedCandidates(posts), 3);
    assert forall i :: 0 <= i < |featured| ==> featured[i] == FeaturedCandidates(posts)[i];
    if |featured| < 3 {
      var existingIds := Ids(featured);
      var additional := Take(Filler(posts, existingIds), 3 - |featured|);
      FilterKeepsUniqueIds(posts, (p: BlogPost) => IsLive(p) && p.id !in existingIds);
      TakeKeepsUniqueIds(Filler(posts, existingIds), 3 - |featured|);
      FillerNotFeatured(posts, existingIds, 3 - |featured|);
      ConcatUniqueIds(featured, additional);
      featured := featured + additional;
    }
  }

  // ---------------------------------------------------------------------
  // Category or post
  // ---------------------------------------------------------------------

  /** What a /blog/<slug>/ request renders. */
  datatype Page =
    | CategoryListing(category: BlogCategory, posts: seq<BlogPost>)
    | PostPage(post: BlogPost, related: seq<BlogPost>)
    | PageNotFound
    | TooManyPosts      // get() finding several posts raises

  function FirstCategoryWithSlug(categories: seq<BlogCategory>, slug: string): (r: Option<BlogCategory>)
    ensures r.Some? <==> exists i :: 0 <= i < |categories| && categories[i].slug == slug
    ensures r.Some? ==> r.value in categories && r.value.slug == slug
  {
    if categories == [] then None
    else if categories[0].slug == slug then Some(categories[0])
    else
      var r := FirstCategoryWithSlug(categories[1..], slug);
      assert forall i :: 1 <= i < |categories| ==> categories[i] == categories[1..][i - 1];
      r
  }

  /** The live posts of one category, in table order. */
  function CategoryPosts(posts: seq<BlogPost>, cid: nat): (r: seq<BlogPost>)
    ensures forall i :: 0 <= i < |r| ==> r[i] in posts && IsLive(r[i]) && cid in r[i].categories
    ensures forall j :: 0 <= j < |posts| && IsLive(posts[j]) && cid in posts[j].categories ==> posts[j] in r
  {
    Filter(posts, (p: BlogPost) => IsLive(p) && cid in p.categories)
  }

  /** The live posts with the slug: what get(slug=...) searches. */
  function LiveWithSlug(posts: seq<BlogPost>, slug: string): (r: seq<BlogPost>)
    ensures forall i :: 0 <= i < |r| ==> r[i] in posts && IsLive(r[i]) && r[i].slug == slug
    ensures forall j :: 0 <= j < |posts| && IsLive(posts[j]) && posts[j].slug == slug ==> posts[j] in r
  {
    Filter(posts, (p: BlogPost) => IsLive(p) && p.slug == slug)
  }

  /** Up to five live posts sharing a category with `post`, not `post`
      itself. */
  function Related(posts: seq<BlogPost>, post: BlogPost): (r: seq<BlogPost>)
    ensures |r| <= 5
    ensures forall i :: 0 <= i < |r| ==>
              r[i] in posts && IsLive(r[i]) && r[i].id != post.id && r[i].categories * post.categories != {}
    ensures forall j ::
              (0 <= j < |posts| && IsLive(posts[j]) && posts[j].id != post.id
               && posts[j].categories * post.categories != {} && posts[j] !in r) ==> |r| == 5
  {
    Take(Filter(posts, (p: BlogPost) => IsLive(p) && p.id != post.id && p.categories * post.categories != {}), 5)
  }

  /** posts_by_category_or_post: a category with the slug wins; otherwise
      exactly one live post with the slug is shown, with its related
      posts. */
  function Resolve(categories: seq<BlogCategory>, posts: seq<BlogPost>, slug: string): (page: Page)
    ensures (exists i :: 0 <= i < |categories| && categories[i].slug == slug) <==> page.CategoryListing?
    ensures page.CategoryListing? ==>
              && page.category.slug == slug && page.category in categories
              && page.posts == CategoryPosts(posts, page.category.id)
    ensures page.PostPage? ==> page.post in posts && IsLive(page.post) && page.post.slug == slug
    ensures page.PostPage? ==> page.related == Related(posts, page.post)
    ensures page.PageNotFound? <==>
              !page.CategoryListing? && forall j :: 0 <= j < |posts| ==> !(IsLive(posts[j]) && posts[j].slug == slug)
    ensures page.PostPage? <==> !page.CategoryListing? && |LiveWithSlug(posts, slug)| == 1
    ensures page.TooManyPosts? <==> !page.CategoryListing? && |LiveWithSlug(posts, slug)| > 1
  {
    var c := FirstCategoryWithSlug(categories, slug);
    if c.Some? then CategoryListing(c.value, CategoryPosts(posts, c.value.id))
    else
      var matches := LiveWithSlug(posts, slug);
      if matches == [] then PageNotFound
      else if |matches| > 1 then
        assert matches[0] in posts && IsLive(matches[0]) && matches[0].slug == slug;
        TooManyPosts
      else PostPage(matches[0], Related(posts, matches[0]))
  }

  /** A slug shared by a category and a post shows the category. */
  lemma CategoryShadowsPost(categories: seq<BlogCategory>, posts: seq<BlogPost>, slug: string, i: nat, j: nat)
    requires i < |categories| && categories[i].slug == slug
    requires j < |posts| && posts[j].slug == slug && IsLive(posts[j])
    ensures Resolve(categories, posts, slug).CategoryListing?
  {
  }

  // ---------------------------------------------------------------------
  // Comments
  // ---------------------------------------------------------------------

  /** request.GET.get('show_all_comments') is truthy. */
  predicate ShowAll(showAll: Option<string>) {
    showAll.Some? && showAll.value != ""
  }

  predicate IsTopLevel(c: Comment) {
    c.approved && c.parent.None?
  }

  predicate IsReply(c: Comment) {
    c.approved && c.parent.Some?
  }

  /** The approved top-level comments, in query order. */
  function TopLevel(comments: seq<Comment>): seq<Comment> {
    Filter(comments, IsTopLevel)
  }

  /** Approved top-level comments: all of them with show_all, else ten. */
  function ShownComments(comments: seq<Comment>, showAll: Option<string>): (r: seq<Comment>)
    ensures !ShowAll(showAll) ==> |r| <= 10
    ensures forall i :: 0 <= i < |r| ==> r[i] in comments && r[i].approved && r[i].parent.None?
    ensures r <= TopLevel(comments)
    ensures ShowAll(showAll) || |TopLevel(comments)| <= 10 ==> r == TopLevel(comments)
    ensures !ShowAll(showAll) && |TopLevel(comments)| > 10 ==> |r| == 10
  {
    var top := TopLevel(comments);
    if ShowAll(showAll) then top else Take(top, 10)
  }

  /** The approved comments, replies included. */
  function TotalComments(comments: seq<Comment>): nat {
    CountWhere(comments, (c: Comment) => c.approved)
  }

  function HasMoreComments(comments: seq<Comment>, showAll: Option<string>): bool {
    TotalComments(comments) > 10 && !ShowAll(showAll)
  }

  /** The approved comments are the top-level ones and the replies. */
  lemma {:induction false} TotalSplits(comments: seq<Comment>)
    ensures TotalComments(comments) == |TopLevel(comments)| + CountWhere(comments, IsReply)
  {
    if comments != [] {
      TotalSplits(comments[1..]);
    }
  }

  /** In a thread without approved replies, "load more" is offered exactly
      when some top-level comment is held back. */
  lemma ReplyFreeLoadMore(comments: seq<Comment>, showAll: Option<string>)
    requires forall i :: 0 <= i < |comments| ==> !IsReply(comments[i])
    ensures HasMoreComments(comments, showAll) <==> |ShownComments(comments, showAll)| < |TopLevel(comments)|
  {
    TotalSplits(comments);
    CountWhereSame(comments, IsReply, (c: Comment) => false);
    NoneCounted(comments);
  }

  lemma {:induction false} NoneCounted(comments: seq<Comment>)
    ensures CountWhere(comments, (c: Comment) => false) == 0
  {
    if comments != [] {
      NoneCounted(comments[1..]);
    }
  }

  /** The count behind "load more" includes the replies, but only
      top-level comments are listed: when the replies lift the count above
      ten (five top-level comments and six replies, say), "load more" is
      offered although every top-level comment is already shown. */
  lemma LoadMoreWithEveryCommentShown(comments: seq<Comment>, showAll: Option<string>)
    requires !ShowAll(showAll)
    requires |TopLevel(comments)| <= 10 < |TopLevel(comments)| + CountWhere(comments, IsReply)
    ensures HasMoreComments(comments, showAll)
    ensures ShownComments(comments, showAll) == TopLevel(comments)
  {
    TotalSplits(comments);
  }

  // ---------------------------------------------------------------------
  // Search
  // ---------------------------------------------------------------------

  /** field__icontains=query (ASCII case folding). */
  predicate IContains(field: string, query: string) {
    Contains(Lower(field), Lower(query))
  }

  predicate Matches(p: BlogPost, query: string) {
    IsLive(p) && (IContains(p.title, query) || IContains(p.content, query) || IContains(p.excerpt, query))
  }

  /** The search view: no query, no results; otherwise the live posts whose
      title, content or excerpt contains it. */
  function Search(posts: seq<BlogPost>, query: string): (r: seq<BlogPost>)
    ensures query == "" ==> r == []
    ensures query != "" ==> forall i :: 0 <= i < |posts| && Matches(posts[i], query) ==> posts[i] in r
    ensures forall i :: 0 <= i < |r| ==> r[i] in posts && Matches(r[i], query)
  {
    if query == "" then [] else Filter(posts, (p: BlogPost) => Matches(p, query))
  }
}
