# Listing-page pagination, modelled in Dafny

The home page of this blog (`src/pages/index.tsx`) lists post summaries fetched
from a Prismic content backend. It is built with the backend's first page and
then grows by "load more": each press of the button fetches the page named by
the stored cursor (`next_page`). On success the fetched posts are appended to the
stored ones and the fetched cursor replaces the stored one. A failed fetch is
only logged.

The model:

- `options.dfy`: `Option`, for JavaScript's `null`/`undefined` (a post's uid
  keeps the two apart, see below).
- `pagination.dfy`: the `Post` and `PostPagination` records, the outcome of a
  fetch (`Fetched(page)` or `FetchFailed(reason)`), the merge as a pure function,
  one settled load (`Step`) and a sequence of loads (`LoadAll`), with lemmas
  about them.
- `listing_view.dfy`: what the page renders from its state. That is one entry per
  post, in the stored order, and the "load more" button while the cursor is truthy.
- `home.dfy`: the component as a class. Its `pagination` field is the React state
  cell. `LoadMore` is `loadMorePosts`, and `PressLoadMore` is the guarded button.
  Ghost fields record the first page and every load that has settled, and
  `Valid()` ties the field to `LoadAll` over that history.

How a load is guarded:

- The button guard is JavaScript truthiness (`pagination.next_page && ...`), so a
  `null` or `""` cursor hides the button.
- `loadMorePosts` checks nothing itself. Only the missing button stops a load
  without a cursor. `PressLoadMore` models this: without a truthy cursor it
  requests nothing and changes nothing.
- A post's `uid` is optional and may also arrive as JSON `null`. The model keeps
  the three cases apart (`Missing`, `NullUid`, `Uid(text)`), because the link
  template writes them differently.

## Model

| member | source | states |
|---|---|---|
| `Pagination.Merge` | src/pages/index.tsx:43-46 | the merged state's cursor is the fetched cursor; its results are the old results, unchanged, as a prefix, followed by every fetched result at its position; the length is the sum (no sorting, no deduplication) |
| `Pagination.Step` | src/pages/index.tsx:38-52 | a settled load only appends: on success the old results are a prefix, the appended part is exactly the fetched results and the cursor is the fetched one (also when null); on failure nothing is appended and the cursor is kept |
| `Pagination.LoadAll` | src/pages/index.tsx:37-52 | over any sequence of loads the first page's results stay a prefix of the state's results; if every load failed the state is the first page |
| `Pagination.LoadAllFold` | src/pages/index.tsx:37-52 | after any sequence of loads the results are the first page's results followed by each successfully fetched page's results in call order, and the cursor is the last fetched cursor (the first page's when none succeeded) |
| `Pagination.LoadAllResults` | src/pages/index.tsx:45 | the results half of `LoadAllFold`, by induction on the loads |
| `Pagination.LoadAllCursor` | src/pages/index.tsx:44 | the cursor half of `LoadAllFold`, by induction on the loads |
| `Pagination.LoadAllFetched` | src/pages/index.tsx:43-47 | when every load succeeds, the final results are the initial results followed by all fetched results in call order, and the final cursor is the last fetched page's cursor |
| `Pagination.LoadAllSnoc` | src/pages/index.tsx:47 | one more load after a sequence of loads is one more settled step applied to the state those loads left |
| `Pagination.TwoPageScenario` | src/pages/index.tsx:43-85 | a first page (cursor "page2", posts p1..p3) followed by a load bringing (null cursor, p4, p5) gives p1..p5 in order with a null cursor, and the button is no longer offered |
| `Pagination.HasMore` | src/pages/index.tsx:77 | defines JavaScript truthiness of the cursor (neither `null` nor empty); `HomeView` and `PressLoadMore` state the guard in their contracts |
| `ListingView.PostHref` | src/pages/index.tsx:58 | the link is "/post/" followed by the uid's text; a missing uid is written "undefined" and a `null` uid "null", as the template literal does |
| `ListingView.PostHrefInjective` | src/pages/index.tsx:58 | two posts with string uids get the same link only when their uids are equal |
| `ListingView.EntryOf` | src/pages/index.tsx:57-73 | one post's markup (title, subtitle, raw date, author); the entry always links to the page of the uid it is keyed by |
| `ListingView.DistinctLinks` | src/pages/index.tsx:57-58 | two posts with different string uids get entries linking to different pages |
| `ListingView.Render` | src/pages/index.tsx:56-75 | the listing has exactly one entry per stored post, the i-th entry built from the i-th post |
| `ListingView.HomeView` | src/pages/index.tsx:54-87 | the page shows the stored posts in stored order, one entry each, and shows the "load more" button if and only if the cursor is present and not empty |
| `ListingView.LoadedView` | src/pages/index.tsx:43-47 | after a successful load the page shows its previous entries unchanged, followed by the fetched page's entries; the button then follows the fetched cursor |
| `ListingView.RenderAppend` | src/pages/index.tsx:56 | rendering a concatenation of posts gives the entries of the first part followed by those of the second |
| `ListingView.FailedView` | src/pages/index.tsx:49-52 | after a failed load the rendered page is exactly as before |
| `Home.HomePage.constructor` | src/pages/index.tsx:35 | the state starts as the build-time first page exactly (the props pass the backend response through unchanged, lines 99-103) |
| `Home.HomePage.LoadMore` | src/pages/index.tsx:37-53 | requests the stored cursor; the new state is the settled step from the old one, so it is the merge on success and unchanged on failure; old results stay a prefix; the load history grows by this load |
| `Home.HomePage.PressLoadMore` | src/pages/index.tsx:77-85 | with a truthy cursor the press requests that cursor and performs the load; with a null or empty cursor nothing is requested and the state is unchanged |
| `Home.HistoryOfValid` | src/pages/index.tsx:35-52 | for a component in any reachable state, its results are the first page's results followed by each successfully fetched page's results in call order, and its cursor is the last fetched cursor |

## Left out

- The network: `fetch`, `response.json()` and the Prismic query in `getStaticProps`.
  They are foreign I/O calls. A fetch's result is a `FetchOutcome` parameter of
  `LoadMore`, and a decode failure counts as a `FetchFailed`. The first page is
  the constructor's parameter.
- Overlapping loads. `loadMorePosts` merges into the `pagination` value it captured
  when it was called, so two loads in flight at once can lose an update. The model
  settles loads one after another.
- Page size 5 and the descending-date ordering are requests sent to the backend.
  The client never checks them, so the model assumes nothing about fetched pages.
- Date formatting (`date-fns`, pt-BR locale), icons, CSS modules, the JSX markup
  and `console.log`. An entry keeps the raw publication date.
- The detail page `src/pages/post/[slug].tsx` (reading-time estimate, fallback
  rendering) is not part of this model.
