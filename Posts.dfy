/** The dashboard's handling of blog posts and categories
    (dashboard/views.py and dashboard/forms.py): the trash/restore/publish
    lifecycle, single and bulk, the status buttons of the editor, unique
    slugs, the form's slug and SEO checks, the category guards and the
    month filter options. Users are ids, timestamps are integers and
    Django's slugify is a parameter. */
module Posts {
  import opened Base
  import opened Calendar

  datatype Post = Post(
    title: string,
    slug: string,
    status: string,
    isTrashed: bool,
    trashedAt: Option<int>,
    trashedBy: Option<nat>,
    publishedDate: Option<int>,
    author: nat,
    categories: set<nat>)

  datatype Category = Category(name: string, slug: string, description: string)

  // ---------------------------------------------------------------------
  // One post's lifecycle
  // ---------------------------------------------------------------------

  /** trash_post and delete_post: into the trash, remembering when and by whom. */
  function Trashed(p: Post, now: int, user: nat): (r: Post)
    ensures r.isTrashed && r.status == "trashed" && r.trashedAt == Some(now) && r.trashedBy == Some(user)
    ensures r.(isTrashed := p.isTrashed, status := p.status, trashedAt := p.trashedAt, trashedBy := p.trashedBy) == p
  {
    p.(isTrashed := true, trashedAt := Some(now), trashedBy := Some(user), status := "trashed")
  }

  /** restore_post: out of the trash as a draft. */
  function Restored(p: Post): (r: Post)
    ensures !r.isTrashed && r.status == "draft" && r.trashedAt == None && r.trashedBy == None
    ensures r.(isTrashed := p.isTrashed, status := p.status, trashedAt := p.trashedAt, trashedBy := p.trashedBy) == p
  {
    p.(isTrashed := false, trashedAt := None, trashedBy := None, status := "draft")
  }

  /** Restoring a trashed post gives it back as a draft, with its content,
      slug, author, categories and publication date as they were. */
  lemma RestoreUndoesTrash(p: Post, now: int, user: nat)
    requires !p.isTrashed && p.trashedAt == None && p.trashedBy == None
    ensures Restored(Trashed(p, now, user)) == p.(status := "draft")
  {
  }

  /** The status buttons of add_post and edit_post: save_draft wins over
      publish; publishing keeps a publication date that is already set. */
  function ApplyStatus(p: Post, saveDraft: bool, publish: bool, now: int): (r: Post)
    ensures saveDraft ==> r == p.(status := "draft")
    ensures !saveDraft && publish ==> r.status == "published" && r.publishedDate.Some?
    ensures !saveDraft && publish && p.publishedDate.Some? ==> r == p.(status := "published")
    ensures !saveDraft && publish && p.publishedDate.None? ==> r == p.(status := "published", publishedDate := Some(now))
    ensures !saveDraft && !publish ==> r == p
  {
    if saveDraft then p.(status := "draft")
    else if publish then p.(status := "published", publishedDate := if p.publishedDate.Some? then p.publishedDate else Some(now))
    else p
  }

  // ---------------------------------------------------------------------
  // Bulk actions
  // ---------------------------------------------------------------------

  /** The effect of one bulk action on the posts with the selected ids
      (ids with no post are ignored). */
  function BulkApply(posts: map<nat, Post>, action: string, selected: set<nat>, now: int, user: nat): (r: map<nat, Post>)
    ensures action == "delete" ==> r.Keys == posts.Keys - selected
    ensures action != "delete" ==> r.Keys == posts.Keys
    ensures forall id :: id in r && id !in selected ==> r[id] == posts[id]
    ensures forall id :: id in r && id in selected ==>
              r[id] == (if action == "trash" then Trashed(posts[id], now, user)
                        else if action == "restore" then Restored(posts[id])
                        else if action == "publish" && posts[id].status != "published"
                          then posts[id].(status := "published", publishedDate := Some(now))
                        else if action == "draft" then posts[id].(status := "draft")
                        else posts[id])
  {
    if action == "delete" then map id | id in posts && id !in selected :: posts[id]
    else map id | id in posts :: if id !in selected then posts[id] else BulkOne(posts[id], action, now, user)
  }

  function BulkOne(p: Post, action: string, now: int, user: nat): Post {
    if action == "trash" then Trashed(p, now, user)
    else if action == "restore" then Restored(p)
    else if action == "publish" && p.status != "published" then p.(status := "published", publishedDate := Some(now))
    else if action == "draft" then p.(status := "draft")
    else p
  }

  /** Bulk publish leaves published posts alone, their date included, and
      gives every other selected post today's date. */
  lemma BulkPublishKeepsPublished(posts: map<nat, Post>, selected: set<nat>, now: int, user: nat, id: nat)
    requires id in posts
    ensures var r := BulkApply(posts, "publish", selected, now, user);
            && id in r
            && (r[id].status == "published" <==> (posts[id].status == "published" || id in selected))
    ensures posts[id].status == "published" ==> BulkApply(posts, "publish", selected, now, user)[id] == posts[id]
    ensures id in selected && posts[id].status != "published" ==>
              BulkApply(posts, "publish", selected, now, user)[id].publishedDate == Some(now)
  {
  }

  /** An action other than the five changes nothing. */
  lemma UnknownBulkActionChangesNothing(posts: map<nat, Post>, action: string, selected: set<nat>, now: int, user: nat)
    requires action !in {"trash", "restore", "delete", "publish", "draft"}
    ensures BulkApply(posts, action, selected, now, user) == posts
  {
    var r := BulkApply(posts, action, selected, now, user);
    assert forall id :: id in r ==> r[id] == posts[id];
  }

  // ---------------------------------------------------------------------
  // Slugs
  // ---------------------------------------------------------------------

  /** f"{base}-{counter}". */
  function Suffixed(base: string, k: nat): string {
    base + "-" + NatToString(k)
  }

  /** The slugs held by posts other than the excluded one. */
  function TakenSlugs(posts: map<nat, Post>, exclude: Option<nat>): set<string> {
    set id | id in posts && exclude != Some(id) :: posts[id].slug
  }

  /** slugify(title) or 'post'. */
  function BaseSlug(slugOfTitle: string): (r: string)
    ensures r != []
  {
    if slugOfTitle == "" then "post" else slugOfTitle
  }

  /** The candidates in the order they are tried: base, base-1, base-2, ... */
  function Candidate(base: string, j: nat): string {
    if j == 0 then base else Suffixed(base, j)
  }

  lemma CandidatesDistinct(base: string, i: nat, j: nat)
    requires i != j
    ensures Candidate(base, i) != Candidate(base, j)
  {
    if i > 0 && j > 0 {
      DigitsValueOfNatToString(i);
      DigitsValueOfNatToString(j);
      assert Suffixed(base, i)[|base| + 1..] == NatToString(i);
      assert Suffixed(base, j)[|base| + 1..] == NatToString(j);
    }
  }

  /** A slug is the first free candidate of base, base-1, base-2, ... */
  ghost predicate FirstFree(r: string, base: string, taken: set<string>) {
    r !in taken
    && (r == base || exists k: nat :: 1 <= k && r == Suffixed(base, k) && base in taken
                                      && forall j: nat :: 1 <= j < k ==> Suffixed(base, j) in taken)
  }

  /** Every post has a key of at least 1 (an auto-incremented id). */
  predicate KeysPositive(posts: map<nat, Post>) {
    forall id :: id in posts ==> id >= 1
  }

  /** With no post 0, excluding pk 0 excludes nothing. */
  lemma ExcludeZero(posts: map<nat, Post>)
    requires KeysPositive(posts)
    ensures TakenSlugs(posts, Some(0)) == TakenSlugs(posts, None)
  {
  }

  predicate CategoryNameTaken(categories: map<nat, Category>, name: string, exclude: Option<nat>) {
    exists id :: id in categories && exclude != Some(id) && Lower(categories[id].name) == Lower(name)
  }

  predicate CategorySlugTaken(categories: map<nat, Category>, slug: string, exclude: Option<nat>) {
    exists id :: id in categories && exclude != Some(id) && categories[id].slug == slug
  }

  /** The name, slug and description fields of the category form. */
  datatype CategoryForm = CategoryForm(name: string, slug: string, description: string)

  /** The PostForm fields the dashboard's logic reads (PostForm.Meta.fields
      also lists content, excerpt, image and SEO fields, which pass through
      unchanged and are not modelled; 'category' is the selection). Status
      and the trash fields are not form fields. */
  datatype PostForm = PostForm(title: string, slug: string, publishedDate: Option<int>)

  /** The status a new post starts with: the first state of its lifecycle. */
  const NewPostStatus: string := "draft"

  /** form.save(commit=False) in add_post: the form's fields on a new,
      untrashed post. A commit=False save does not save the many-to-many
      categories, so it has none. */
  function NewPost(form: PostForm, author: nat): Post {
    Post(form.title, form.slug, NewPostStatus, false, None, None, form.publishedDate, author, {})
  }

  /** form.save(commit=False) in edit_post: PostForm(instance=post) binds
      the form's fields onto the stored post and keeps everything else. */
  function Bound(p: Post, form: PostForm): Post {
    p.(title := form.title, slug := form.slug, publishedDate := form.publishedDate)
  }

  /** The category the form describes: every field stripped, and the slug
      (the name when none was given) passed through slugify. */
  function Submitted(form: CategoryForm, slugify: string -> string): (c: Category)
    ensures c.name == Strip(form.name) && c.description == Strip(form.description)
  {
    var name := Strip(form.name);
    var slug := Strip(form.slug);
    Category(name, slugify(if slug == "" then name else slug), Strip(form.description))
  }

  /** The slug is slugify of the stripped slug field, or of the name when
      that field is blank. */
  lemma SubmittedSlug(form: CategoryForm, slugify: string -> string)
    ensures Strip(form.slug) == "" ==> Submitted(form, slugify).slug == slugify(Strip(form.name))
    ensures Strip(form.slug) != "" ==> Submitted(form, slugify).slug == slugify(Strip(form.slug))
  {
  }

  /** The number of posts filed under a category. */
  function PostCount(posts: map<nat, Post>, cid: nat): nat {
    |set id | id in posts && cid in posts[id].categories|
  }

  /** How a dashboard request ended. */
  datatype Outcome =
    | Done
    | NotFound
    | NotOwnPost        // "You can only edit your own posts."
    | NameRequired      // "Category name is required"
    | DuplicateName     // "Category with this name already exists"
    | DuplicateSlug     // "Category with this slug already exists"
    | HasPosts(count: nat)

  /** The form's SEO description check. */
  datatype Cleaned = Accepted(value: string) | Rejected(error: string)

  /** clean_seo_description. */
  function CleanSeoDescription(s: string): (r: Cleaned)
    ensures |s| <= 160 <==> r == Accepted(s)
    ensures |s| > 160 <==> r.Rejected?
  {
    if |s| > 160 then Rejected("Institutional SEO metadata should not exceed 160 characters.") else Accepted(s)
  }

  /** The fields BaseContentForm.__init__ makes optional. */
  const OptionalFields: set<string> := {"slug", "published_date", "featured_image", "featured_image_id"}

  /** The fields still required once the form is set up. */
  function RequiredFields(modelRequired: set<string>): (r: set<string>)
    ensures r <= modelRequired
    ensures "slug" !in r && "published_date" !in r && "featured_image" !in r
    ensures forall f :: f in modelRequired && f !in OptionalFields ==> f in r
  {
    modelRequired - OptionalFields
  }

  /** The slug clean_slug starts from: the title's when none was given. */
  function InitialSlug(slug: string, title: Option<string>, slugify: string -> string): string {
    if slug == "" && title.Some? && title.value != "" then slugify(title.value) else slug
  }

  /** The twelve filter months: this month and the eleven before it. */
  method GetDateOptions(today: Date) returns (options: seq<Date>)
    requires ValidDate(today)
    ensures |options| == 12
    ensures forall i :: 0 <= i < 12 ==> options[i] == MonthStart(MonthIndex(today) - i)
    ensures forall i :: 0 <= i < 11 ==> MonthIndex(options[i + 1]) == MonthIndex(options[i]) - 1
  {
    options := [];
    for i := 0 to 12
      invariant |options| == i
      invariant forall k :: 0 <= k < i ==> options[k] == MonthStart(MonthIndex(today) - k)
    {
      var year, month;
      if today.month - i <= 0 {
        month := today.month - i + 12;
        year := today.year - 1;
      } else {
        month := today.month - i;
        year := today.year;
      }
      options := options + [Date(year, month, 1)];
    }
  }

  class Dashboard {
    var posts: map<nat, Post>
    var categories: map<nat, Category>
    var nextPostId: nat
    var nextCategoryId: nat

    predicate Valid()
      reads this
    {
      && KeysPositive(posts)
      && nextPostId >= 1
      && (forall id :: id in posts ==> id < nextPostId)
      && (forall id :: id in categories ==> id < nextCategoryId)
    }

    constructor()
      ensures Valid() && posts == map[] && categories == map[]
    {
      posts := map[];
      categories := map[];
      nextPostId := 1;
      nextCategoryId := 1;
    }

    /** generate_unique_slug: base (slugify(title) or 'post') if free,
        otherwise base-k for the least k >= 1 that no post other than
        `exclude` holds. */
    method GenerateUniqueSlug(slugOfTitle: string, exclude: Option<nat>) returns (slug: string)
      ensures FirstFree(slug, BaseSlug(slugOfTitle), TakenSlugs(posts, exclude))
    {
      var base := BaseSlug(slugOfTitle);
      slug := FreeCandidate(base, exclude);
    }

    /** The counter loop shared by generate_unique_slug and clean_slug. It
        ends because every candidate it passes over is a different taken
        slug, and there are finitely many. */
    method FreeCandidate(base: string, exclude: Option<nat>) returns (slug: string)
      ensures FirstFree(slug, base, TakenSlugs(posts, exclude))
    {
      var taken := TakenSlugs(posts, exclude);
      slug := base;
      var counter: nat := 1;
      ghost var passed: set<string> := {};
      while slug in taken
        invariant counter >= 1
        invariant slug == Candidate(base, counter - 1)
        invariant forall j :: 0 <= j < counter - 1 ==> Candidate(base, j) in taken
        invariant passed <= taken
        invariant |passed| == counter - 1
        invariant forall s :: s in passed ==> exists j :: 0 <= j < counter - 1 && s == Candidate(base, j)
        decreases |taken| - |passed|
      {
        forall s | s in passed
          ensures s != slug
        {
          var j :| 0 <= j < counter - 1 && s == Candidate(base, j);
          CandidatesDistinct(base, j, counter - 1);
        }
        passed := passed + {slug};
        SubsetSize(passed, taken);
        slug := Suffixed(base, counter);
        counter := counter + 1;
      }
      if counter > 1 {
        forall j: nat | 1 <= j < counter - 1
          ensures Suffixed(base, j) in taken
        {
          assert Candidate(base, j) in taken;
        }
        assert Candidate(base, 0) in taken;
      }
    }

    /** PostForm.clean_slug: an empty slug takes slugify(title); a slug no
        other post holds is kept; otherwise the first free of slug-1,
        slug-2, ... is returned. */
    method CleanSlug(slug: string, title: Option<string>, instancePk: Option<nat>, slugify: string -> string)
      returns (r: string)
      requires Valid()
      ensures var s0 := InitialSlug(slug, title, slugify);
              && (s0 == "" ==> r == "")
              && (s0 != "" ==> FirstFree(r, s0, TakenSlugs(posts, instancePk)))
              && (s0 != "" && s0 !in TakenSlugs(posts, instancePk) ==> r == s0)
    {
      r := InitialSlug(slug, title, slugify);
      if r != "" && r in TakenSlugs(posts, instancePk) {
        var exclude := if instancePk.Some? then instancePk.value else 0;
        ExcludeZero(posts);
        r := FreeCandidate(r, Some(exclude));
      }
    }

    /** bulk_action: nothing without selected ids; otherwise the action
        is applied to the selected posts. */
    method BulkAction(isPost: bool, action: Option<string>, selected: seq<nat>, now: int, user: nat)
      requires Valid()
      modifies this
      ensures Valid()
      ensures categories == old(categories) && nextPostId == old(nextPostId) && nextCategoryId == old(nextCategoryId)
      ensures !isPost || selected == [] ==> posts == old(posts)
      ensures isPost && selected != [] ==>
                posts == BulkApply(old(posts), if action.Some? then action.value else "", (set id | id in selected), now, user)
    {
      if !isPost || selected == [] {
        return;
      }
      posts := BulkApply(posts, if action.Some? then action.value else "", (set id | id in selected), now, user);
    }

    /** trash_post. */
    method TrashPost(id: nat, isPost: bool, now: int, user: nat) returns (o: Outcome)
      requires Valid()
      modifies this
      ensures Valid()
      ensures categories == old(categories) && nextPostId == old(nextPostId) && nextCategoryId == old(nextCategoryId)
      ensures id !in old(posts) ==> o == NotFound && posts == old(posts)
      ensures id in old(posts) ==> o == Done
      ensures id in old(posts) && isPost ==> posts == old(posts)[id := Trashed(old(posts)[id], now, user)]
      ensures !isPost ==> posts == old(posts)
    {
      if id !in posts {
        return NotFound;
      }
      if isPost {
        posts := posts[id := Trashed(posts[id], now, user)];
      }
      o := Done;
    }

    /** delete_post: only the author finds the post; it goes to the trash. */
    method DeletePost(id: nat, isPost: bool, now: int, user: nat) returns (o: Outcome)
      requires Valid()
      modifies this
      ensures Valid()
      ensures categories == old(categories) && nextPostId == old(nextPostId) && nextCategoryId == old(nextCategoryId)
      ensures id !in old(posts) || old(posts)[id].author != user ==> o == NotFound && posts == old(posts)
      ensures id in old(posts) && old(posts)[id].author == user ==> o == Done
      ensures id in old(posts) && old(posts)[id].author == user && isPost ==>
                posts == old(posts)[id := Trashed(old(posts)[id], now, user)]
      ensures !isPost ==> posts == old(posts)
    {
      if id !in posts || posts[id].author != user {
        return NotFound;
      }
      if isPost {
        posts := posts[id := Trashed(posts[id], now, user)];
      }
      o := Done;
    }

    /** restore_post (the definition that takes effect): only a trashed
        post is found, and it comes back as a draft. */
    method RestorePost(id: nat, isPost: bool) returns (o: Outcome)
      requires Valid()
      modifies this
      ensures Valid()
      ensures categories == old(categories) && nextPostId == old(nextPostId) && nextCategoryId == old(nextCategoryId)
      ensures id !in old(posts) || !old(posts)[id].isTrashed ==> o == NotFound && posts == old(posts)
      ensures id in old(posts) && old(posts)[id].isTrashed ==> o == Done
      ensures id in old(posts) && old(posts)[id].isTrashed && isPost ==>
                posts == old(posts)[id := Restored(old(posts)[id])]
      ensures !isPost ==> posts == old(posts)
    {
      if id !in posts || !posts[id].isTrashed {
        return NotFound;
      }
      if isPost {
        posts := posts[id := Restored(posts[id])];
      }
      o := Done;
    }

    /** add_post after validation: a new post authored by the user, the
        status button applied, an empty slug with a title replaced by a
        unique one, and the selected categories set (none when nothing is
        selected). */
    method AddPost(form: PostForm, saveDraft: bool, publish: bool, now: int, user: nat,
                   selected: set<nat>, slugify: string -> string)
      returns (id: nat)
      requires Valid()
      modifies this
      ensures Valid()
      ensures categories == old(categories) && nextCategoryId == old(nextCategoryId)
      ensures id == old(nextPostId) && id !in old(posts) && id in posts
      ensures posts.Keys == old(posts).Keys + {id}
      ensures forall k :: k in old(posts) ==> posts[k] == old(posts)[k]
      ensures posts[id] == ApplyStatus(NewPost(form, user), saveDraft, publish, now).(slug := posts[id].slug, categories := selected)
      ensures posts[id].author == user && posts[id].title == form.title && posts[id].categories == selected
      ensures !posts[id].isTrashed && posts[id].trashedAt == None && posts[id].trashedBy == None
      ensures form.slug == "" && form.title != "" ==>
                FirstFree(posts[id].slug, BaseSlug(slugify(form.title)), TakenSlugs(old(posts), None))
      ensures form.slug != "" || form.title == "" ==> posts[id].slug == form.slug
    {
      var p := ApplyStatus(NewPost(form, user), saveDraft, publish, now);
      if p.slug == "" && p.title != "" {
        var slug := GenerateUniqueSlug(slugify(p.title), None);
        p := p.(slug := slug);
      }
      if selected != {} {
        p := p.(categories := selected);
      }
      id := nextPostId;
      posts := posts[id := p];
      nextPostId := nextPostId + 1;
    }

    /** edit_post after validation: only the author or a superuser may
        save; the form's fields are bound onto the stored post, the status
        button applies, an empty slug with a title gets a unique one (the
        post's own slug does not count as taken) and the categories are
        replaced by the selection. */
    method EditPost(id: nat, form: PostForm, saveDraft: bool, publish: bool, now: int, user: nat,
                    isSuperuser: bool, selected: set<nat>, slugify: string -> string)
      returns (o: Outcome)
      requires Valid()
      modifies this
      ensures Valid()
      ensures categories == old(categories) && nextPostId == old(nextPostId) && nextCategoryId == old(nextCategoryId)
      ensures id !in old(posts) ==> o == NotFound && posts == old(posts)
      ensures id in old(posts) && old(posts)[id].author != user && !isSuperuser ==>
                o == NotOwnPost && posts == old(posts)
      ensures id in old(posts) && (old(posts)[id].author == user || isSuperuser) ==> o == Done
      ensures o == Done ==>
                && id in old(posts) && posts.Keys == old(posts).Keys
                && (forall k :: k in old(posts) && k != id ==> posts[k] == old(posts)[k])
                && posts[id] == ApplyStatus(Bound(old(posts)[id], form), saveDraft, publish, now).(slug := posts[id].slug, categories := selected)
                && posts[id].title == form.title && posts[id].author == old(posts)[id].author
                && posts[id].isTrashed == old(posts)[id].isTrashed
                && posts[id].trashedAt == old(posts)[id].trashedAt && posts[id].trashedBy == old(posts)[id].trashedBy
                && (form.slug == "" && form.title != "" ==>
                      FirstFree(posts[id].slug, BaseSlug(slugify(form.title)), TakenSlugs(old(posts), Some(id))))
                && (form.slug != "" || form.title == "" ==> posts[id].slug == form.slug)
    {
      if id !in posts {
        return NotFound;
      }
      if posts[id].author != user && !isSuperuser {
        return NotOwnPost;
      }
      var p := ApplyStatus(Bound(posts[id], form), saveDraft, publish, now);
      if p.slug == "" && p.title != "" {
        var slug := GenerateUniqueSlug(slugify(p.title), Some(id));
        p := p.(slug := slug);
      }
      p := p.(categories := selected);
      posts := posts[id := p];
      o := Done;
    }

    /** add_category: the name is required; the slug (given or from the
        name) goes through slugify; a name equal ignoring case, or an equal
        slug, is refused. */
    method AddCategory(isPost: bool, form: CategoryForm, slugify: string -> string) returns (o: Outcome)
      requires Valid()
      modifies this
      ensures Valid()
      ensures posts == old(posts) && nextPostId == old(nextPostId)
      ensures o != Done || !isPost ==> categories == old(categories) && nextCategoryId == old(nextCategoryId)
      ensures !isPost ==> o == Done
      ensures isPost ==>
                var c := Submitted(form, slugify);
                && (c.name == "" ==> o == NameRequired)
                && (c.name != "" && CategoryNameTaken(old(categories), c.name, None) ==> o == DuplicateName)
                && (c.name != "" && !CategoryNameTaken(old(categories), c.name, None)
                      && CategorySlugTaken(old(categories), c.slug, None)
                    ==> o == DuplicateSlug)
                && (c.name != "" && !CategoryNameTaken(old(categories), c.name, None)
                      && !CategorySlugTaken(old(categories), c.slug, None)
                    ==>
                      && o == Done
                      && categories == old(categories)[old(nextCategoryId) := c]
                      && nextCategoryId == old(nextCategoryId) + 1)
    {
      if !isPost {
        return Done;
      }
      var c := Submitted(form, slugify);
      if c.name == "" {
        return NameRequired;
      }
      if CategoryNameTaken(categories, c.name, None) {
        return DuplicateName;
      }
      if CategorySlugTaken(categories, c.slug, None) {
        return DuplicateSlug;
      }
      categories := categories[nextCategoryId := c];
      nextCategoryId := nextCategoryId + 1;
      o := Done;
    }

    /** edit_category: as add_category, but the category itself does not
        count as a duplicate. */
    method EditCategory(id: nat, isPost: bool, form: CategoryForm, slugify: string -> string) returns (o: Outcome)
      requires Valid()
      modifies this
      ensures Valid()
      ensures posts == old(posts) && nextPostId == old(nextPostId) && nextCategoryId == old(nextCategoryId)
      ensures o != Done || !isPost ==> categories == old(categories)
      ensures id !in old(categories) ==> o == NotFound
      ensures id in old(categories) && !isPost ==> o == Done
      ensures id in old(categories) && isPost ==>
                var c := Submitted(form, slugify);
                && (c.name == "" ==> o == NameRequired)
                && (c.name != "" && CategoryNameTaken(old(categories), c.name, Some(id)) ==> o == DuplicateName)
                && (c.name != "" && !CategoryNameTaken(old(categories), c.name, Some(id))
                      && CategorySlugTaken(old(categories), c.slug, Some(id))
                    ==> o == DuplicateSlug)
                && (c.name != "" && !CategoryNameTaken(old(categories), c.name, Some(id))
                      && !CategorySlugTaken(old(categories), c.slug, Some(id))
                    ==>
                      o == Done && categories == old(categories)[id := c])
    {
      if id !in categories {
        return NotFound;
      }
      if !isPost {
        return Done;
      }
      var c := Submitted(form, slugify);
      if c.name == "" {
        return NameRequired;
      }
      if CategoryNameTaken(categories, c.name, Some(id)) {
        return DuplicateName;
      }
      if CategorySlugTaken(categories, c.slug, Some(id)) {
        return DuplicateSlug;
      }
      categories := categories[id := c];
      o := Done;
    }

    /** delete_category: a category that still has posts is kept. */
    method DeleteCategory(id: nat, isPost: bool) returns (o: Outcome)
      requires Valid()
      modifies this
      ensures Valid()
      ensures posts == old(posts) && nextPostId == old(nextPostId) && nextCategoryId == old(nextCategoryId)
      ensures !isPost ==> o == Done && categories == old(categories)
      ensures isPost && id !in old(categories) ==> o == NotFound && categories == old(categories)
      ensures isPost && id in old(categories) && PostCount(old(posts), id) > 0 ==>
                o == HasPosts(PostCount(old(posts), id)) && categories == old(categories)
      ensures isPost && id in old(categories) && PostCount(old(posts), id) == 0 ==>
                o == Done && categories == old(categories) - {id}
    {
      if !isPost {
        return Done;
      }
      if id !in categories {
        return NotFound;
      }
      var count := PostCount(posts, id);
      if count > 0 {
        return HasPosts(count);
      }
      categories := categories - {id};
      o := Done;
    }
  }
}
