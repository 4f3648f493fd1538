// The blog page: the post list with its search and category filter, the
// cards rendered for it, the single-post view chosen by the `slug` query
// parameter, and the share links.

module Blog {
  import opened Wrappers
  import Strings
  import Seqs

  /** An entry of `posts.json`. A missing `tags` or `cover` is `None`. */
  datatype Post = Post(
    slug: string,
    title: string,
    summary: string,
    category: string,
    date: string,
    readingTime: nat,
    tags: Option<seq<string>>,
    cover: Option<string>)

  // ---------------------------------------------------------------------
  // Filtering the list
  // ---------------------------------------------------------------------

  /** The predicate of `filterPosts`: the lower-cased search term occurs in
      the lower-cased title or summary, and the category filter is empty or
      names the post's category. */
  predicate Matches(post: Post, term: string, category: string)
  {
    var t := Strings.ToLower(term);
    && (Strings.Contains(Strings.ToLower(post.title), t) || Strings.Contains(Strings.ToLower(post.summary), t))
    && (category == "" || post.category == category)
  }

  /** `filterPosts`: the matching posts, in their original order. */
  function FilterPosts(posts: seq<Post>, term: string, category: string): (r: seq<Post>)
    ensures Seqs.IsSublist(r, posts)
    ensures forall p :: p in r <==> p in posts && Matches(p, term, category)
    ensures forall p :: p in posts && Matches(p, term, category) ==> multiset(r)[p] == multiset(posts)[p]
  {
    Seqs.FilterMembers(posts, p => Matches(p, term, category));
    Seqs.Filter(posts, p => Matches(p, term, category))
  }

  /** With an empty search box and no category chosen, every post stays. */
  lemma EmptyFilterKeepsAll(posts: seq<Post>)
    ensures FilterPosts(posts, "", "") == posts
  {
    forall i | 0 <= i < |posts|
      ensures Matches(posts[i], "", "")
    {
      Strings.ContainsEmpty(Strings.ToLower(posts[i].title));
    }
  }

  /** With an empty search box, a chosen category keeps exactly that
      category's posts. */
  lemma CategoryOnly(posts: seq<Post>, category: string)
    requires category != ""
    ensures forall p :: p in FilterPosts(posts, "", category) <==> p in posts && p.category == category
  {
    forall p | p in posts
      ensures Matches(p, "", category) <==> p.category == category
    {
      Strings.ContainsEmpty(Strings.ToLower(p.title));
    }
  }

  // ---------------------------------------------------------------------
  // Cards
  // ---------------------------------------------------------------------

  /** The text of each tag chip, in order. */
  function Hashtags(tags: Option<seq<string>>): (r: seq<string>)
    ensures tags.None? ==> r == []
    ensures tags.Some? ==> |r| == |tags.value| && forall i :: 0 <= i < |r| ==> r[i] == "#" + tags.value[i]
  {
    match tags
    case None => []
    case Some(ts) => seq(|ts|, i requires 0 <= i < |ts| => "#" + ts[i])
  }

  /** A chip's text less its `#` is the tag. */
  lemma HashtagsUntag(tags: seq<string>)
    ensures forall i :: 0 <= i < |tags| ==> Hashtags(Some(tags))[i][1..] == tags[i]
  {
    forall i | 0 <= i < |tags|
      ensures Hashtags(Some(tags))[i][1..] == tags[i]
    {
      assert Hashtags(Some(tags))[i] == ['#'] + tags[i];
    }
  }

  /** The values a card derives from its post. */
  datatype Card = Card(
    href: string,
    cover: Option<string>,
    alt: string,
    dateTime: string,
    readingTime: string,
    title: string,
    summary: string,
    category: string,
    tags: seq<string>,
    delay: string)

  const MinRead := " min read"

  /** The card for the post at position `index`; `encode` is
      `encodeURIComponent`. */
  function CardFor(post: Post, index: nat, encode: string -> string): (c: Card)
  {
    Card(
      "/blog.html?slug=" + encode(post.slug),
      post.cover,
      post.title,
      post.date,
      Strings.NatToString(post.readingTime) + MinRead,
      post.title,
      post.summary,
      post.category,
      Hashtags(post.tags),
      Strings.NatToString(index * 100))
  }

  /** A card links to its post's encoded slug, its reading time is the
      post's minutes followed by " min read", its tags are the post's with
      `#` in front, and its animation delay reads back as a hundred
      milliseconds per position. */
  lemma CardReadsBack(post: Post, index: nat, encode: string -> string)
    ensures var c := CardFor(post, index, encode);
      && Strings.StartsWith(c.href, "/blog.html?slug=")
      && c.href[|"/blog.html?slug="|..] == encode(post.slug)
      && Strings.EndsWith(c.readingTime, MinRead)
      && Strings.ParseInt(c.readingTime[..|c.readingTime| - |MinRead|], false) == Some(post.readingTime as int)
      && Strings.ParseInt(c.delay, false) == Some(index * 100)
      && |c.tags| == (if post.tags.Some? then |post.tags.value| else 0)
  {
    var c := CardFor(post, index, encode);
    assert c.readingTime[..|c.readingTime| - |MinRead|] == Strings.NatToString(post.readingTime);
    Strings.ParseIntOfNatToString(post.readingTime, false);
    Strings.ParseIntOfNatToString(index * 100, false);
  }

  // ---------------------------------------------------------------------
  // The single-post view
  // ---------------------------------------------------------------------

  const NotFoundTitle := "Post Not Found \U{2013} Bilal Hussain"
  const TitleSuffix := " \U{2013} Bilal Hussain"

  /** The address of a post's markdown. */
  function MarkdownUrl(slug: string): string
  {
    "/assets/blog/posts/" + slug + ".md"
  }

  /** What `renderPost` leaves in the post element: the not-found panel,
      nothing (the markdown could not be fetched), or the article with its
      optional tags and cover blocks. */
  datatype Outcome =
    | NotFound
    | MarkdownMissing(mdUrl: string)
    | Shown(mdUrl: string, post: Post, markdown: string, tagsBlock: seq<string>, coverBlock: Option<string>)

  datatype Rendering = Rendering(documentTitle: string, outcome: Outcome)

  /** `renderPost(slug)` over the loaded posts; `fetchMarkdown` answers the
      text behind a URL, or `None` when the request fails. */
  function RenderPost(posts: seq<Post>, slug: string, fetchMarkdown: string -> Option<string>): (r: Rendering)
    ensures r.outcome.NotFound? <==> forall i :: 0 <= i < |posts| ==> posts[i].slug != slug
    ensures r.outcome.NotFound? ==> r.documentTitle == NotFoundTitle
    ensures !r.outcome.NotFound? ==>
      && r.outcome.mdUrl == MarkdownUrl(slug)
      && (r.outcome.Shown? <==> fetchMarkdown(MarkdownUrl(slug)).Some?)
      && (exists i :: 0 <= i < |posts| && posts[i].slug == slug
           && (forall j :: 0 <= j < i ==> posts[j].slug != slug)
           && r.documentTitle == posts[i].title + TitleSuffix
           && (r.outcome.Shown? ==> r.outcome.post == posts[i]))
    ensures r.outcome.Shown? ==>
      && r.outcome.post.slug == slug
      && r.outcome.markdown == fetchMarkdown(MarkdownUrl(slug)).value
      && (r.outcome.tagsBlock != [] <==> r.outcome.post.tags.Some? && r.outcome.post.tags.value != [])
      && (r.outcome.coverBlock.Some? <==> r.outcome.post.cover.Some? && r.outcome.post.cover.value != "")
      && (r.outcome.coverBlock.Some? ==> r.outcome.coverBlock == r.outcome.post.cover)
  {
    match Seqs.FindFirst(posts, (p: Post) => p.slug == slug)
    case None => Rendering(NotFoundTitle, NotFound)
    case Some(i) =>
      var meta := posts[i];
      var mdUrl := MarkdownUrl(slug);
      var title := meta.title + TitleSuffix;
      match fetchMarkdown(mdUrl)
      case None => Rendering(title, MarkdownMissing(mdUrl))
      case Some(md) =>
        var tagsBlock := if meta.tags.Some? && meta.tags.value != [] then Hashtags(meta.tags) else [];
        var coverBlock := if meta.cover.Some? && meta.cover.value != "" then meta.cover else None;
        Rendering(title, Shown(mdUrl, meta, md, tagsBlock, coverBlock))
  }

  // ---------------------------------------------------------------------
  // Sharing
  // ---------------------------------------------------------------------

  const DefaultShareTitle := "Check out this blog post"

  /** `meta?.title || 'Check out this blog post'`: the first post with the
      page's slug gives its title unless that title is empty. */
  function ShareTitle(posts: seq<Post>, slug: Option<string>): (t: string)
    ensures t != ""
    ensures slug.None? ==> t == DefaultShareTitle
    ensures (forall i :: 0 <= i < |posts| ==> slug != Some(posts[i].slug)) ==> t == DefaultShareTitle
    ensures t != DefaultShareTitle ==> exists i :: 0 <= i < |posts| && slug == Some(posts[i].slug) && t == posts[i].title
    ensures forall i ::
      (0 <= i < |posts| && slug == Some(posts[i].slug) && forall j :: 0 <= j < i ==> slug != Some(posts[j].slug))
      ==> t == (if posts[i].title == "" then DefaultShareTitle else posts[i].title)
  {
    match Seqs.FindFirst(posts, (p: Post) => slug == Some(p.slug))
    case None => DefaultShareTitle
    case Some(i) => if posts[i].title == "" then DefaultShareTitle else posts[i].title
  }

  const TwitterPrefix := "https://twitter.com/intent/tweet?text="
  const LinkedInPrefix := "https://www.linkedin.com/sharing/share-offsite/?url="

  /** `window.share(platform)`: the address opened, or `None` for a
      platform the table lacks (the window then opens blank). */
  function ShareUrl(posts: seq<Post>, slug: Option<string>, platform: string, href: string, encode: string -> string): (r: Option<string>)
    ensures r.Some? <==> platform == "twitter" || platform == "linkedin"
    ensures r.Some? ==> Strings.EndsWith(r.value, encode(href))
    ensures platform == "twitter" ==>
      Strings.StartsWith(r.value, TwitterPrefix)
      && r.value[|TwitterPrefix|..] == encode(ShareTitle(posts, slug)) + "&url=" + encode(href)
    ensures platform == "linkedin" ==>
      Strings.StartsWith(r.value, LinkedInPrefix) && r.value[|LinkedInPrefix|..] == encode(href)
  {
    var title := ShareTitle(posts, slug);
    if platform == "twitter" then
      var u := TwitterPrefix + encode(title) + "&url=" + encode(href);
      assert u[|TwitterPrefix|..] == encode(title) + "&url=" + encode(href);
      Some(u)
    else if platform == "linkedin" then
      var u := LinkedInPrefix + encode(href);
      assert u[|LinkedInPrefix|..] == encode(href);
      Some(u)
    else None
  }

  // ---------------------------------------------------------------------
  // The page
  // ---------------------------------------------------------------------

  /** The blog page's state: the loaded posts, whether the posts section
      was replaced by the load-failure panel, the cards in the grid, whether
      the empty state shows, and the post view with the document title. */
  class BlogPage {
    var posts: seq<Post>
    var loadFailed: bool
    var grid: seq<Card>
    var emptyShown: bool
    var rendering: Option<Rendering>

    constructor ()
      ensures posts == [] && !loadFailed && grid == [] && !emptyShown && rendering == None
    {
      posts, loadFailed, grid, emptyShown, rendering := [], false, [], false, None;
    }

    /** `fetchPosts()`; `response` is the parsed body, or `None` when the
        request or the parse fails, which keeps the posts loaded so far. */
    method FetchPosts(response: Option<seq<Post>>)
      modifies this
      ensures posts == (if response.Some? then response.value else old(posts))
      ensures loadFailed == (old(loadFailed) || response.None?)
      ensures grid == old(grid) && emptyShown == old(emptyShown) && rendering == old(rendering)
    {
      if response.Some? {
        posts := response.value;
      } else {
        loadFailed := true;
      }
    }

    /** `renderList(postsToRender)`: the grid holds one card per post in
        order, and the empty state shows exactly when there is none. */
    method RenderList(toRender: seq<Post>, encode: string -> string)
      modifies this
      ensures |grid| == |toRender|
      ensures forall i :: 0 <= i < |grid| ==> grid[i] == CardFor(toRender[i], i, encode)
      ensures emptyShown <==> toRender == []
      ensures posts == old(posts) && loadFailed == old(loadFailed) && rendering == old(rendering)
    {
      grid := [];
      emptyShown := |toRender| == 0;
      for i := 0 to |toRender|
        invariant |grid| == i
        invariant forall j :: 0 <= j < i ==> grid[j] == CardFor(toRender[j], j, encode)
        invariant emptyShown <==> toRender == []
        invariant posts == old(posts) && loadFailed == old(loadFailed) && rendering == old(rendering)
      {
        grid := grid + [CardFor(toRender[i], i, encode)];
      }
    }

    /** The `input` and `change` listeners: the grid shows the matching
        posts. */
    method OnFilter(term: string, category: string, encode: string -> string)
      modifies this
      ensures |grid| == |FilterPosts(posts, term, category)|
      ensures forall i :: 0 <= i < |grid| ==> grid[i] == CardFor(FilterPosts(posts, term, category)[i], i, encode)
      ensures emptyShown <==> forall p :: p in posts ==> !Matches(p, term, category)
      ensures posts == old(posts) && loadFailed == old(loadFailed) && rendering == old(rendering)
    {
      var shown := FilterPosts(posts, term, category);
      RenderList(shown, encode);
      assert shown != [] ==> shown[0] in shown;
    }

    /** `renderPost(slug)`, which loads the posts again first when none
        are loaded. */
    method ShowPost(slug: string, refetch: Option<seq<Post>>, fetchMarkdown: string -> Option<string>)
      modifies this
      ensures posts == (if old(posts) == [] && refetch.Some? then refetch.value else old(posts))
      ensures loadFailed == (old(loadFailed) || (old(posts) == [] && refetch.None?))
      ensures rendering == Some(RenderPost(posts, slug, fetchMarkdown))
      ensures grid == old(grid) && emptyShown == old(emptyShown)
    {
      if |posts| == 0 {
        FetchPosts(refetch);
      }
      rendering := Some(RenderPost(posts, slug, fetchMarkdown));
    }
  }

  /** `init()` without a slug: load the posts, then list them all. */
  method ListPage(response: Option<seq<Post>>, encode: string -> string) returns (page: BlogPage)
    ensures fresh(page)
    ensures page.posts == (if response.Some? then response.value else [])
    ensures page.loadFailed <==> response.None?
    ensures |page.grid| == |page.posts|
    ensures forall i :: 0 <= i < |page.grid| ==> page.grid[i] == CardFor(page.posts[i], i, encode)
    ensures page.emptyShown <==> page.posts == []
  {
    page := new BlogPage();
    page.FetchPosts(response);
    page.RenderList(page.posts, encode);
  }
}
