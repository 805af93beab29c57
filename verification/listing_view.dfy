/**
 * What the listing page renders from its pagination state
 * (src/pages/index.tsx): one entry per stored post, in stored order, and the
 * "load more" button while the cursor is truthy. Date formatting, icons and
 * markup are not modelled; an entry keeps the raw publication date.
 */
module ListingView {
  import opened Options
  import opened Pagination

  /** One rendered post: its React key, link target and displayed fields. */
  datatype Entry = Entry(
    key: PostUid,
    href: string,
    title: string,
    subtitle: string,
    date: Option<string>,
    author: string)

  /** The rendered page: the post entries and whether the button is shown. */
  datatype View = View(entries: seq<Entry>, loadMoreButton: bool)

  /**
   * `/post/${post.uid}`: the template literal writes a missing uid as
   * "undefined" and a null one as "null".
   */
  function PostHref(uid: PostUid): (href: string)
    ensures |href| >= 6 && href[..6] == "/post/"
    ensures uid.Uid? ==> href[6..] == uid.text
    ensures uid.Missing? ==> href[6..] == "undefined"
    ensures uid.NullUid? ==> href[6..] == "null"
  {
    "/post/" + match uid
      case Uid(u) => u
      case Missing => "undefined"
      case NullUid => "null"
  }

  /** Links to the same href come from the same uid string. */
  lemma PostHrefInjective(a: string, b: string)
    ensures PostHref(Uid(a)) == PostHref(Uid(b)) ==> a == b
  {
  }

  /**
   * The markup of one post: keyed by its uid, a link to its page, and its
   * title, subtitle, raw publication date and author. An entry always links
   * to the page of the uid it is keyed by.
   */
  function EntryOf(post: Post): (entry: Entry)
    ensures entry.href == PostHref(entry.key)
  {
    Entry(post.uid, PostHref(post.uid), post.data.title, post.data.subtitle,
          post.firstPublicationDate, post.data.author)
  }

  /** Two posts with different string uids link to different pages. */
  lemma DistinctLinks(p: Post, q: Post)
    requires p.uid.Uid? && q.uid.Uid? && p.uid != q.uid
    ensures EntryOf(p).href != EntryOf(q).href
  {
    PostHrefInjective(p.uid.text, q.uid.text);
  }

  /** `results.map(post => ...)`: one entry per post, in the stored order. */
  function Render(posts: seq<Post>): (entries: seq<Entry>)
    ensures |entries| == |posts|
    ensures forall i :: 0 <= i < |posts| ==> entries[i] == EntryOf(posts[i])
    decreases |posts|
  {
    if posts == [] then [] else [EntryOf(posts[0])] + Render(posts[1..])
  }

  /** The whole listing page for a pagination state. */
  function HomeView(pagination: PostPagination): (v: View)
    ensures |v.entries| == |pagination.results|
    ensures forall i :: 0 <= i < |pagination.results| ==> v.entries[i] == EntryOf(pagination.results[i])
    ensures v.loadMoreButton <==> pagination.nextPage.Some? && pagination.nextPage.value != ""
  {
    View(Render(pagination.results), HasMore(pagination.nextPage))
  }

  /**
   * After a successful load the page shows the entries it showed before,
   * unchanged and in place, followed by the fetched page's entries; the
   * button is shown exactly when the fetched cursor is truthy.
   */
  lemma LoadedView(state: PostPagination, page: PostPagination)
    ensures HomeView(Step(state, Fetched(page))).entries == HomeView(state).entries + HomeView(page).entries
    ensures HomeView(Step(state, Fetched(page))).loadMoreButton == HomeView(page).loadMoreButton
  {
    assert Step(state, Fetched(page)).results == state.results + page.results;
    RenderAppend(state.results, page.results);
  }

  /** Rendering a concatenation renders each part, in order. */
  lemma RenderAppend(a: seq<Post>, b: seq<Post>)
    ensures Render(a + b) == Render(a) + Render(b)
  {
  }

  /** A failed load changes nothing on the page. */
  lemma FailedView(state: PostPagination, reason: string)
    ensures HomeView(Step(state, FetchFailed(reason))) == HomeView(state)
  {
  }
}
