/**
 The background refresh of the cached snapshot, one tick at a time. The fetch
 itself (network call and JSON decoding) is outside the model: each tick is
 handed its outcome.
 */
module Refresher {
  import opened Market
  import opened Handlers

  /** What one call to the upstream fetcher produced. */
  datatype FetchOutcome = Fetched(markets: Snapshot) | FetchFailed(reason: string)

  /** One tick: a fetched snapshot replaces the cache whole; a failure keeps it. */
  function Refresh(current: Snapshot, outcome: FetchOutcome): (next: Snapshot)
    ensures outcome.Fetched? ==> next == outcome.markets
    ensures outcome.FetchFailed? ==> next == current
  {
    match outcome
    case Fetched(fetched) => fetched
    case FetchFailed(_) => current
  }

  /** In the sequential model, a lookup after a tick answers as on the fetched map or as on the old snapshot. */
  lemma RefreshObservedByLookup(current: Snapshot, outcome: FetchOutcome, symbol: string)
    ensures outcome.Fetched? ==>
      GetCurrency(Refresh(current, outcome), symbol) == GetCurrency(outcome.markets, symbol)
    ensures outcome.FetchFailed? ==>
      GetCurrency(Refresh(current, outcome), symbol) == GetCurrency(current, symbol)
  {
  }

  /** After a tick the listing is a listing of the fetched map, or of the old snapshot on failure. */
  lemma RefreshObservedByListing(current: Snapshot, outcome: FetchOutcome, cs: seq<Currency>)
    ensures outcome.Fetched? ==>
      (IsListingOf(cs, Refresh(current, outcome)) <==> IsListingOf(cs, outcome.markets))
    ensures outcome.FetchFailed? ==>
      (IsListingOf(cs, Refresh(current, outcome)) <==> IsListingOf(cs, current))
  {
  }

  /**
   The cache after the ticks `outcomes`, in order, starting from `initial`. It is
   always a whole snapshot: the initial one or one that some tick fetched.
   */
  function RefreshAll(initial: Snapshot, outcomes: seq<FetchOutcome>): (s: Snapshot)
    ensures s == initial || exists i :: 0 <= i < |outcomes| && outcomes[i] == Fetched(s)
    decreases |outcomes|
  {
    if |outcomes| == 0 then initial
    else
      var n := |outcomes| - 1;
      var prev := RefreshAll(initial, outcomes[..n]);
      assert forall j :: 0 <= j < n ==> outcomes[..n][j] == outcomes[j];
      Refresh(prev, outcomes[n])
  }

  /** No tick of `outcomes` from index `i` on fetched anything. */
  ghost predicate FailedFrom(outcomes: seq<FetchOutcome>, i: nat)
  {
    forall j :: i <= j < |outcomes| ==> outcomes[j].FetchFailed?
  }

  /** Tick `i` is the last one that fetched. */
  ghost predicate LastFetchAt(outcomes: seq<FetchOutcome>, i: nat)
  {
    i < |outcomes| && outcomes[i].Fetched? && FailedFrom(outcomes, i + 1)
  }

  /**
   After any run of ticks the cache holds exactly what the last successful fetch
   returned, or the initial snapshot when every fetch failed.
   */
  lemma {:induction false} RefreshAllKeepsLastFetch(initial: Snapshot, outcomes: seq<FetchOutcome>)
    ensures FailedFrom(outcomes, 0) ==> RefreshAll(initial, outcomes) == initial
    ensures forall i: nat :: LastFetchAt(outcomes, i) ==>
      RefreshAll(initial, outcomes) == outcomes[i].markets
    decreases |outcomes|
  {
    if |outcomes| > 0 {
      var n := |outcomes| - 1;
      var prefix := outcomes[..n];
      RefreshAllKeepsLastFetch(initial, prefix);
      assert forall j :: 0 <= j < n ==> prefix[j] == outcomes[j];
      if outcomes[n].FetchFailed? {
        forall i: nat | LastFetchAt(outcomes, i)
          ensures RefreshAll(initial, outcomes) == outcomes[i].markets
        {
          assert i < n;
          assert LastFetchAt(prefix, i);
        }
      }
    }
  }
}
