/**
 The dispatch of requests under `/currency/`. The part of the path after the
 prefix selects the listing when it is exactly `all`; any other suffix goes to
 the single-symbol handler, which reads the symbol from the request's `symbol`
 query parameter. The suffix is written into a copy of the query, so it never
 reaches the lookup.
 */
module Router {
  import opened Market
  import opened Handlers

  /** The pattern the dispatcher is registered under. */
  const Prefix: string := "/currency/"

  /** The suffix that selects the listing. */
  const AllSuffix: string := "all"

  /** A path the dispatcher receives: the server routes only these to it. */
  predicate IsCurrencyPath(path: string)
  {
    |Prefix| <= |path| && path[..|Prefix|] == Prefix
  }

  /** Which handler a request goes to, and the symbol a single lookup is given. */
  datatype Route = ListAll | LookUp(symbol: string)

  /** The handler choice for `path`, whose `symbol` query parameter is `querySymbol`. */
  function Dispatch(path: string, querySymbol: string): (r: Route)
    requires IsCurrencyPath(path)
    ensures r == ListAll <==> path[|Prefix|..] == AllSuffix
    ensures r.LookUp? ==> r.symbol == querySymbol
  {
    if path[|Prefix|..] != AllSuffix then LookUp(querySymbol) else ListAll
  }

  /** What the dispatcher answers with. */
  datatype Response = Single(lookup: Result<Currency>) | Listing(currencies: seq<Currency>)

  /** Answer a request for `path` whose `symbol` query parameter is `querySymbol`. */
  method Serve(m: Snapshot, path: string, querySymbol: string) returns (resp: Response)
    requires IsCurrencyPath(path)
    ensures path[|Prefix|..] == AllSuffix <==> resp.Listing?
    ensures resp.Listing? ==> IsListingOf(resp.currencies, m)
    ensures resp.Single? ==> resp.lookup == GetCurrency(m, querySymbol)
  {
    match Dispatch(path, querySymbol)
    case LookUp(symbol) =>
      resp := Single(GetCurrency(m, symbol));
    case ListAll =>
      var cs := AllCurrencies(m);
      resp := Listing(cs);
  }

  /** Every suffix other than `all` is routed alike: only the query parameter matters. */
  lemma SuffixDoesNotReachLookup(s: string, s': string, querySymbol: string)
    requires s != AllSuffix && s' != AllSuffix
    ensures IsCurrencyPath(Prefix + s) && IsCurrencyPath(Prefix + s')
    ensures Dispatch(Prefix + s, querySymbol) == Dispatch(Prefix + s', querySymbol) == LookUp(querySymbol)
  {
  }

  /**
   Naming a cached symbol in the path alone is refused: with no query parameter
   the request is looked up with the empty symbol and answers "no symbol".
   */
  lemma PathSymbolAloneRefused(m: Snapshot, symbol: string)
    requires symbol != AllSuffix && symbol in m
    ensures IsCurrencyPath(Prefix + symbol)
    ensures Dispatch(Prefix + symbol, "") == LookUp("")
    ensures GetCurrency(m, Dispatch(Prefix + symbol, "").symbol) == Err(NoSymbol)
  {
  }
}
