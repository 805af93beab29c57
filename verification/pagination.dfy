/**
 * The listing page's pagination state and its "load more" merge
 * (src/pages/index.tsx). The state is a `PostPagination`: the cursor of
 * the next page plus the posts loaded so far, in order. Every load that
 * settles successfully appends the fetched page's posts and takes over its
 * cursor; a load that fails leaves the state as it was.
 */
module Pagination {
  import opened Options

  /** The display fields of a post summary. */
  datatype PostData = PostData(title: string, subtitle: string, author: string)

  /**
   * A post's uid as decoded JSON may carry it: the key may be missing
   * (`undefined`), be `null`, or hold a string.
   */
  datatype PostUid = Missing | NullUid | Uid(text: string)

  /** A post summary; the uid is optional and the publication date nullable. */
  datatype Post = Post(uid: PostUid, firstPublicationDate: Option<string>, data: PostData)

  /**
   * One page as the content backend returns it, and equally the accumulated
   * listing: the cursor (a URL) of the next page, and the posts in order.
   */
  datatype PostPagination = PostPagination(nextPage: Option<string>, results: seq<Post>)

  /**
   * How `fetch(cursor).then(response => response.json())` settles: with a
   * decoded page, or by rejecting (transport error, a body that is not JSON,
   * a body whose `results` is not iterable, or one with no readable
   * `next_page`).
   */
  datatype FetchOutcome = Fetched(page: PostPagination) | FetchFailed(reason: string)

  predicate IsPrefix<T(==)>(p: seq<T>, s: seq<T>) {
    |p| <= |s| && p == s[..|p|]
  }

  /**
   * JavaScript truthiness of the cursor, which guards the "load more" button:
   * `null` and the empty string both mean that there is no further page.
   */
  predicate HasMore(cursor: Option<string>) {
    match cursor
    case None => false
    case Some(url) => url != ""
  }

  /**
   * The new state built on a successful load: old results followed by the
   * fetched ones, nothing sorted or removed; the fetched cursor replaces the
   * old one, even when it is null.
   */
  function Merge(state: PostPagination, page: PostPagination): (r: PostPagination)
    ensures r.nextPage == page.nextPage
    ensures |r.results| == |state.results| + |page.results|
    ensures IsPrefix(state.results, r.results)
    ensures forall j :: 0 <= j < |page.results| ==> r.results[|state.results| + j] == page.results[j]
  {
    PostPagination(page.nextPage, state.results + page.results)
  }

  /** One settled load: merge on success, the state unchanged on failure. */
  function Step(state: PostPagination, outcome: FetchOutcome): (r: PostPagination)
    ensures IsPrefix(state.results, r.results)
    ensures r.results[|state.results|..] == if outcome.Fetched? then outcome.page.results else []
    ensures r.nextPage == if outcome.Fetched? then outcome.page.nextPage else state.nextPage
  {
    match outcome
    case Fetched(page) => Merge(state, page)
    case FetchFailed(_) => state
  }

  /** The state after a sequence of loads, settled one after another in order. */
  function LoadAll(state: PostPagination, outcomes: seq<FetchOutcome>): (r: PostPagination)
    ensures IsPrefix(state.results, r.results)
    ensures (forall k :: 0 <= k < |outcomes| ==> outcomes[k].FetchFailed?) ==> r == state
    decreases |outcomes|
  {
    if outcomes == [] then state else LoadAll(Step(state, outcomes[0]), outcomes[1..])
  }

  /** The pages among the outcomes that were fetched successfully, in order. */
  function Successes(outcomes: seq<FetchOutcome>): seq<PostPagination>
    decreases |outcomes|
  {
    if outcomes == [] then []
    else match outcomes[0]
      case Fetched(page) => [page] + Successes(outcomes[1..])
      case FetchFailed(_) => Successes(outcomes[1..])
  }

  /** The posts of the pages, page after page. */
  function Flatten(pages: seq<PostPagination>): seq<Post>
    decreases |pages|
  {
    if pages == [] then [] else pages[0].results + Flatten(pages[1..])
  }

  /** The cursor left by the last of the pages, or `initial` when there is none. */
  function LastCursor(initial: Option<string>, pages: seq<PostPagination>): Option<string> {
    if pages == [] then initial else pages[|pages| - 1].nextPage
  }

  /** Every load of the sequence settled successfully with the given pages. */
  function AllFetched(pages: seq<PostPagination>): seq<FetchOutcome> {
    seq(|pages|, k requires 0 <= k < |pages| => Fetched(pages[k]))
  }

  /**
   * Loading several times in a row: the final results are the initial ones
   * followed by every successfully fetched page's results in call order, and
   * the final cursor is the last fetched cursor (the initial one if no load
   * succeeded). Failed loads contribute nothing.
   */
  lemma LoadAllFold(state: PostPagination, outcomes: seq<FetchOutcome>)
    ensures LoadAll(state, outcomes).results == state.results + Flatten(Successes(outcomes))
    ensures LoadAll(state, outcomes).nextPage == LastCursor(state.nextPage, Successes(outcomes))
  {
    LoadAllResults(state, outcomes);
    LoadAllCursor(state, outcomes);
  }

  lemma {:induction false} LoadAllResults(state: PostPagination, outcomes: seq<FetchOutcome>)
    ensures LoadAll(state, outcomes).results == state.results + Flatten(Successes(outcomes))
    decreases |outcomes|
  {
    if outcomes == [] {
      assert state.results + [] == state.results;
    } else {
      var rest := outcomes[1..];
      var next := Step(state, outcomes[0]);
      assert LoadAll(state, outcomes) == LoadAll(next, rest);
      LoadAllResults(next, rest);
      if outcomes[0].Fetched? {
        var page := outcomes[0].page;
        assert Successes(outcomes) == [page] + Successes(rest);
        assert next.results == state.results + page.results;
        FlattenCons(page, Successes(rest));
        AppendAssoc(state.results, page.results, Flatten(Successes(rest)));
      } else {
        assert Successes(outcomes) == Successes(rest);
      }
    }
  }

  lemma {:induction false} LoadAllCursor(state: PostPagination, outcomes: seq<FetchOutcome>)
    ensures LoadAll(state, outcomes).nextPage == LastCursor(state.nextPage, Successes(outcomes))
    decreases |outcomes|
  {
    if outcomes != [] {
      var rest := outcomes[1..];
      var next := Step(state, outcomes[0]);
      assert LoadAll(state, outcomes) == LoadAll(next, rest);
      LoadAllCursor(next, rest);
      if outcomes[0].Fetched? {
        var page := outcomes[0].page;
        assert Successes(outcomes) == [page] + Successes(rest);
        assert next.nextPage == page.nextPage;
      } else {
        assert Successes(outcomes) == Successes(rest);
        assert next == state;
      }
    }
  }

  lemma AppendAssoc(a: seq<Post>, b: seq<Post>, c: seq<Post>)
    ensures a + b + c == a + (b + c)
  {
  }

  lemma FlattenCons(page: PostPagination, pages: seq<PostPagination>)
    ensures Flatten([page] + pages) == page.results + Flatten(pages)
  {
    assert ([page] + pages)[1..] == pages;
  }

  lemma {:induction false} SuccessesOfAllFetched(pages: seq<PostPagination>)
    ensures Successes(AllFetched(pages)) == pages
    decreases |pages|
  {
    if pages != [] {
      assert AllFetched(pages)[1..] == AllFetched(pages[1..]);
      SuccessesOfAllFetched(pages[1..]);
      assert [pages[0]] + pages[1..] == pages;
    }
  }

  /**
   * Iterated successful loads: the results are the initial results followed
   * by each fetched page's results in call order; the cursor is the one of
   * the last fetched page.
   */
  lemma LoadAllFetched(state: PostPagination, pages: seq<PostPagination>)
    ensures LoadAll(state, AllFetched(pages)).results == state.results + Flatten(pages)
    ensures pages != [] ==> LoadAll(state, AllFetched(pages)).nextPage == pages[|pages| - 1].nextPage
  {
    LoadAllFold(state, AllFetched(pages));
    SuccessesOfAllFetched(pages);
  }

  /** One more load after a sequence of loads is one more `Step`. */
  lemma {:induction false} LoadAllSnoc(state: PostPagination, outcomes: seq<FetchOutcome>, last: FetchOutcome)
    ensures LoadAll(state, outcomes + [last]) == Step(LoadAll(state, outcomes), last)
    decreases |outcomes|
  {
    if outcomes == [] {
      assert [] + [last] == [last];
      assert [last][1..] == [];
    } else {
      assert (outcomes + [last])[0] == outcomes[0];
      assert (outcomes + [last])[1..] == outcomes[1..] + [last];
      LoadAllSnoc(Step(state, outcomes[0]), outcomes[1..], last);
    }
  }

  /**
   * A first page with cursor "page2" and posts p1, p2, p3, then one load that
   * brings a page with a null cursor and posts p4, p5: the listing holds
   * p1 .. p5 in that order and no further load is offered.
   */
  lemma TwoPageScenario(p1: Post, p2: Post, p3: Post, p4: Post, p5: Post)
    ensures var first := PostPagination(Some("page2"), [p1, p2, p3]);
            var after := Step(first, Fetched(PostPagination(None, [p4, p5])));
            HasMore(first.nextPage) && after == PostPagination(None, [p1, p2, p3, p4, p5]) && !HasMore(after.nextPage)
  {
  }
}
