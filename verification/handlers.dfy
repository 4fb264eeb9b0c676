/**
 The two read queries against one snapshot: the lookup of a single symbol and
 the listing of every cached symbol.
 */
module Handlers {
  import opened Market

  /** Why a single lookup is refused; both answer with a bad-request status. */
  datatype LookupError = NoSymbol | InvalidSymbol

  /** A lookup either yields a value or names the error. */
  datatype Result<+T> = Ok(value: T) | Err(error: LookupError)

  /** The message text of each error; each text names exactly one error. */
  function Message(e: LookupError): (s: string)
    ensures s == "No symbol specified" <==> e == NoSymbol
    ensures s == "Invalid symbol specified" <==> e == InvalidSymbol
  {
    match e
    case NoSymbol => "No symbol specified"
    case InvalidSymbol => "Invalid symbol specified"
  }

  /** The single-symbol query: the symbol is validated before the map is read. */
  function GetCurrency(m: Snapshot, symbol: string): (r: Result<Currency>)
    ensures symbol == "" ==> r == Err(NoSymbol)
    ensures symbol != "" && symbol !in m ==> r == Err(InvalidSymbol)
    ensures r.Ok? <==> symbol != "" && symbol in m
    ensures r.Ok? ==> r.value.id == symbol && r.value == Project(symbol, m[symbol])
  {
    if symbol == "" then Err(NoSymbol)
    else if symbol !in m then Err(InvalidSymbol)
    else Ok(Project(symbol, m[symbol]))
  }

  /** A cached quote for BTCUSD comes back with its prices verbatim and the fixed fields filled. */
  lemma BtcUsdExample()
    ensures
      var m := map["BTCUSD" := MarketTicker("10", "9", "9.5", "9", "8", "11", "100")];
      GetCurrency(m, "BTCUSD")
        == Ok(Currency("BTCUSD", "BTCUSD", "10", "9", "9.5", "9", "8", "11", "BTC", "", "", "", ""))
  {
  }

  /** The symbols a list of records names. */
  ghost function Ids(cs: seq<Currency>): set<string>
  {
    set i | 0 <= i < |cs| :: cs[i].id
  }

  /** No two records of the list share a symbol. */
  ghost predicate DistinctIds(cs: seq<Currency>)
  {
    forall i, j :: 0 <= i < j < |cs| ==> cs[i].id != cs[j].id
  }

  /** Every record is the projection of the quote its symbol names. */
  ghost predicate AllProjected(cs: seq<Currency>, m: Snapshot)
  {
    forall i :: 0 <= i < |cs| ==> cs[i].id in m && cs[i] == Project(cs[i].id, m[cs[i].id])
  }

  /**
   `cs` lists the snapshot `m` in some order: one projected record per key,
   no key twice and no record for a symbol outside the snapshot.
   */
  ghost predicate IsListingOf(cs: seq<Currency>, m: Snapshot)
  {
    && |cs| == |m|
    && Ids(cs) == m.Keys
    && DistinctIds(cs)
    && AllProjected(cs, m)
  }

  /** The records a snapshot projects to, as a set. */
  ghost function Projected(m: Snapshot): set<Currency>
  {
    set k | k in m :: Project(k, m[k])
  }

  /**
   The all-symbols query. The map is walked in an order the model leaves open
   (Go randomises it): each step takes any symbol not yet visited.
   */
  method AllCurrencies(m: Snapshot) returns (cs: seq<Currency>)
    ensures IsListingOf(cs, m)
  {
    cs := [];
    var rest := m.Keys;
    while rest != {}
      invariant rest <= m.Keys
      invariant Ids(cs) == m.Keys - rest
      invariant |cs| + |rest| == |m|
      invariant DistinctIds(cs)
      invariant AllProjected(cs, m)
      decreases rest
    {
      var k :| k in rest;
      AppendKeepsListing(cs, m, k);
      cs := cs + [Project(k, m[k])];
      rest := rest - {k};
    }
  }

  /** Appending the record of an unvisited key keeps the partial listing well formed. */
  lemma AppendKeepsListing(cs: seq<Currency>, m: Snapshot, k: string)
    requires k in m && k !in Ids(cs)
    requires DistinctIds(cs) && AllProjected(cs, m)
    ensures Ids(cs + [Project(k, m[k])]) == Ids(cs) + {k}
    ensures DistinctIds(cs + [Project(k, m[k])])
    ensures AllProjected(cs + [Project(k, m[k])], m)
  {
    var ds := cs + [Project(k, m[k])];
    assert forall i :: 0 <= i < |cs| ==> ds[i] == cs[i];
    assert ds[|cs|].id == k;
    assert forall i :: 0 <= i < |cs| ==> cs[i].id in Ids(cs);
  }

  /** A listing holds exactly the projected records of the snapshot. */
  lemma ListingContents(cs: seq<Currency>, m: Snapshot)
    requires IsListingOf(cs, m)
    ensures (set i | 0 <= i < |cs| :: cs[i]) == Projected(m)
  {
  }

  /** In a list without repeated ids every record occurs once or not at all. */
  lemma {:induction false} DistinctIdsOccurOnce(cs: seq<Currency>, c: Currency)
    requires DistinctIds(cs)
    ensures multiset(cs)[c] == if c in cs then 1 else 0
    decreases |cs|
  {
    if |cs| > 0 {
      var tail := cs[1..];
      assert cs == [cs[0]] + tail;
      assert DistinctIds(tail) by {
        forall i, j | 0 <= i < j < |tail| ensures tail[i].id != tail[j].id {
          assert tail[i] == cs[i + 1] && tail[j] == cs[j + 1];
        }
      }
      DistinctIdsOccurOnce(tail, c);
      if c == cs[0] {
        assert c !in tail by {
          forall j | 0 <= j < |tail| ensures tail[j] != c {
            assert tail[j] == cs[j + 1];
          }
        }
      }
    }
  }

  /** Two listings of one snapshot are permutations of each other: they differ at most in order. */
  lemma {:induction false} ListingsArePermutations(cs: seq<Currency>, ds: seq<Currency>, m: Snapshot)
    requires IsListingOf(cs, m) && IsListingOf(ds, m)
    ensures multiset(cs) == multiset(ds)
  {
    ListingContents(cs, m);
    ListingContents(ds, m);
    forall c ensures multiset(cs)[c] == multiset(ds)[c] {
      DistinctIdsOccurOnce(cs, c);
      DistinctIdsOccurOnce(ds, c);
      assert c in cs <==> c in (set i | 0 <= i < |cs| :: cs[i]);
      assert c in ds <==> c in (set j | 0 <= j < |ds| :: ds[j]);
    }
  }

  /** Every listed record with a non-empty symbol is what the single query returns for it. */
  lemma ListingAgreesWithLookup(cs: seq<Currency>, m: Snapshot)
    requires IsListingOf(cs, m)
    ensures forall i :: 0 <= i < |cs| && cs[i].id != "" ==> GetCurrency(m, cs[i].id) == Ok(cs[i])
  {
  }

  /**
   A snapshot with an empty symbol key lists a record for it, which the single
   query refuses with the "no symbol" error.
   */
  lemma EmptyKeyListedButRefused(cs: seq<Currency>, m: Snapshot)
    requires IsListingOf(cs, m)
    requires "" in m
    ensures exists i :: 0 <= i < |cs| && cs[i].id == ""
    ensures GetCurrency(m, "") == Err(NoSymbol)
  {
  }
}
