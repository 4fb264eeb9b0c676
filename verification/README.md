# Ticker-quote cache

A model of the core of a small Go microservice that caches the exchange's ticker
quotes in memory and answers two queries against the cached snapshot: one symbol
(`/currency/{symbol}`) and all symbols (`/currency/all`). The HTTP and goroutine
plumbing of `main.go` is stripped away. What remains is pure functions over an
immutable snapshot `map<string, MarketTicker>`:

- `market.dfy` (module `Market`): the `MarketTicker` quote, the `Currency` output
  record, and `Project`, which builds a record from a symbol and its quote.
- `handlers.dfy` (module `Handlers`): the single lookup `GetCurrency` with its two
  errors, and the listing `AllCurrencies`.
- `refresher.dfy` (module `Refresher`): one refresh tick as a pure function of the
  current snapshot and the fetch outcome, and a fold over a run of ticks.
- `router.dfy` (module `Router`): the `/currency/` dispatch.

Behaviour of the code that the model keeps as written:

- The listing walks the map in Go's unspecified order. `AllCurrencies` picks any
  unvisited key at each step, so its contract holds for every order.
- For an empty snapshot the Go listing is a nil slice, which the JSON encoder writes
  as `null`, not `[]`; the model only promises an empty sequence.
- The dispatcher writes the path suffix into `r.URL.Query()`. That call returns a
  fresh copy, so the write is lost. The single handler reads the request's own
  `symbol` query parameter. `Router.Dispatch` takes that parameter, and
  `Router.PathSymbolAloneRefused` shows that `/currency/BTCUSD` with no query
  parameter answers "No symbol specified".
- A snapshot key `""` is listed by the all-symbols query, but the single query
  refuses `""` before it reads the map. So the listing agrees with the single
  lookup only for non-empty symbols (`Handlers.EmptyKeyListedButRefused`).
- `feeCurrency` is the constant `"BTC"` for every symbol. The four fields volume,
  quoteVolume, change and percentChange stay at the Go zero value `""`. The quote's
  own volume is never copied.

## Model

| member | source | states |
|---|---|---|
| Market.Project | main.go:73-83 | id and fullName are the symbol; ask, bid, last, open, low and high are the quote's text unchanged; feeCurrency is "BTC"; volume, quoteVolume, change and percentChange are empty |
| Market.ProjectDeterminesQuote | main.go:102-112 | two records are equal exactly when their symbols are equal and their quotes agree on the six copied price fields |
| Market.ProjectIgnoresVolume | main.go:73-83 | changing a quote's volume does not change its record; the record's volume is empty |
| Handlers.Message | main.go:60-66 | the missing symbol is reported as "No symbol specified" and the unknown symbol as "Invalid symbol specified", and each text belongs to exactly one error |
| Handlers.GetCurrency | main.go:59-81 | an empty symbol fails with NoSymbol even when "" is a key; a non-empty symbol missing from the snapshot fails with InvalidSymbol; the lookup succeeds exactly when the symbol is non-empty and cached, and then yields that symbol's projected record |
| Handlers.BtcUsdExample | main.go:70-83 | the BTCUSD quote (ask 10, bid 9, last 9.5, open 9, low 8, high 11, volume 100) yields the record with those prices, feeCurrency BTC and four empty fields |
| Handlers.AllCurrencies | main.go:100-114 | in any iteration order, the listing has one record per snapshot key: its length is the snapshot's size, its ids are exactly the keys, no id repeats, and each record is the projection of its key's quote |
| Handlers.ListingContents | main.go:101-113 | the records of a listing are exactly the projections of the snapshot's entries |
| Handlers.ListingsArePermutations | main.go:101-114 | two listings of one snapshot, built in any two iteration orders, are permutations of each other (equal as multisets) |
| Handlers.ListingAgreesWithLookup | main.go:102-112 | every listed record with a non-empty id equals the single lookup's result for that id |
| Handlers.EmptyKeyListedButRefused | main.go:60-63 | when "" is a snapshot key, the listing has a record with id "" but the single lookup of "" fails with NoSymbol |
| Refresher.Refresh | main.go:208-213 | a successful fetch makes the new snapshot exactly the fetched map; a failed fetch leaves the snapshot unchanged |
| Refresher.RefreshObservedByLookup | main.go:208-213 | in the sequential model, a single lookup after a tick answers as on the fetched map (success) or as on the old snapshot (failure) |
| Refresher.RefreshObservedByListing | main.go:208-213 | in the sequential model, a listing after a tick is a listing of the fetched map (success) or of the old snapshot (failure) |
| Refresher.RefreshAll | main.go:202-215 | after any run of ticks the cache is a whole snapshot: the initial one or the map some tick fetched, never a patched mixture |
| Refresher.RefreshAllKeepsLastFetch | main.go:202-215 | after any run of ticks the snapshot is the map of the last successful fetch, or the initial snapshot when every fetch failed |
| Router.Dispatch | main.go:251-258 | the listing is chosen exactly when the path suffix after /currency/ is "all"; otherwise the lookup is given the query parameter, not the suffix |
| Router.Serve | main.go:251-258 | the suffix "all" answers with a listing of the snapshot; any other suffix answers with the single lookup of the query parameter |
| Router.SuffixDoesNotReachLookup | main.go:252-255 | any two suffixes other than "all" are routed identically, to a lookup of the query parameter |
| Router.PathSymbolAloneRefused | main.go:254-255 | a path naming a cached symbol, with no symbol query parameter, is looked up as "" and fails with NoSymbol |

## Left out

- HTTP serving, response headers, the 400 and 500 status codes and the 301 redirect from `/currency` (main.go:248-250, main.go:263): transport, not logic. Errors are modelled as the `LookupError` value and its message text.
- `json.Marshal` of the record and the listing (main.go:86-92, main.go:122-128): a foreign library; the serialization error path goes with it.
- `getConfig` and `ReadFile` (main.go:133-151, main.go:267-273): file I/O and JSON decoding. The symbol list is only passed on to the fetcher, which ignores it, so nothing depends on it.
- `getMarkets` (main.go:155-185): a network call and JSON decoding of the upstream response. Only its outcome is modelled, as the `FetchOutcome` handed to each refresh tick.
- The startup sequence in `main` (main.go:230-245): fatal exits on config or initial-fetch failure are process control.
- The 10-second ticker, the goroutines, the `done` channel and the WaitGroup (main.go:191-227): timing and concurrency. A run of ticks is modelled as a sequence of fetch outcomes folded in order. The unsynchronised struct copy at main.go:212, which can race with readers, is not modelled; each tick is one sequential step. In particular the single lookup reads the map twice (main.go:64 and main.go:70), so a tick between the two reads can validate a symbol against the old map and then read the zero quote from a new map that lacks it, returning a record whose six prices are `""`; the model treats each lookup as one read of one snapshot.
- Logging (main.go:207, main.go:210).
- The trailing newline `http.Error` appends to an error body (main.go:61, main.go:65): part of the transport; `Message` gives the text alone.
- Go strings are byte strings, modelled as `seq<char>`: the model only compares them for equality and slices them after the ASCII prefix `/currency/`, so nothing is lost.
