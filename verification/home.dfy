/**
 * The listing page component (src/pages/index.tsx). It owns one state cell,
 * `pagination`, seeded with the build-time first page and overwritten by
 * `setPagination` only when a load succeeds. The ghost history (the first
 * page and every load that settled since) ties the cell to `LoadAll`.
 */
module Home {
  import opened Options
  import opened Pagination

  class HomePage {
    var pagination: PostPagination
    ghost var initial: PostPagination
    ghost var loads: seq<FetchOutcome>

    ghost predicate Valid()
      reads this
    {
      pagination == LoadAll(initial, loads)
    }

    /** `useState(postsPagination)`: the first page, unchanged. */
    constructor (postsPagination: PostPagination)
      ensures Valid()
      ensures pagination == postsPagination
      ensures initial == postsPagination && loads == []
    {
      pagination := postsPagination;
      initial := postsPagination;
      loads := [];
    }

    /**
     * `loadMorePosts`: requests the page named by the current cursor and, once
     * `outcome` settles, stores the merged state on success; on failure the
     * state is left untouched.
     */
    method LoadMore(outcome: FetchOutcome) returns (requested: Option<string>)
      requires Valid()
      modifies this
      ensures Valid()
      ensures requested == old(pagination.nextPage)
      ensures pagination == Step(old(pagination), outcome)
      ensures initial == old(initial) && loads == old(loads) + [outcome]
      ensures IsPrefix(old(pagination.results), pagination.results)
    {
      requested := pagination.nextPage;
      ghost var before := pagination;
      match outcome {
        case Fetched(result) =>
          var newPagination := PostPagination(result.nextPage, pagination.results + result.results);
          pagination := newPagination;
        case FetchFailed(_) =>
      }
      assert pagination == Step(before, outcome);
      LoadAllSnoc(initial, loads, outcome);
      loads := loads + [outcome];
    }

    /**
     * A press of the "load more" button. The button exists only while the
     * cursor is truthy; otherwise nothing is requested and nothing changes.
     * `requested` is the cursor fetched, `None` when no request was made.
     */
    method PressLoadMore(outcome: FetchOutcome) returns (requested: Option<string>)
      requires Valid()
      modifies this
      ensures Valid()
      ensures initial == old(initial)
      ensures HasMore(old(pagination.nextPage)) ==>
        requested == old(pagination.nextPage) && requested.Some? &&
        pagination == Step(old(pagination), outcome) && loads == old(loads) + [outcome]
      ensures !HasMore(old(pagination.nextPage)) ==>
        requested == None && pagination == old(pagination) && loads == old(loads)
    {
      if HasMore(pagination.nextPage) {
        requested := LoadMore(outcome);
      } else {
        requested := None;
      }
    }
  }

  /**
   * Whatever loads have settled since the page was built, the state holds the
   * first page's posts followed by those of every successfully fetched page,
   * in call order, and the cursor of the last of them.
   */
  lemma HistoryOfValid(page: HomePage)
    requires page.Valid()
    ensures page.pagination.results == page.initial.results + Flatten(Successes(page.loads))
    ensures page.pagination.nextPage == LastCursor(page.initial.nextPage, Successes(page.loads))
  {
    LoadAllFold(page.initial, page.loads);
  }
}
