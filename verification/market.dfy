/**
 The data of the ticker cache: the quote the exchange reports for one symbol,
 the record the service hands out for it, and the projection from the first to
 the second. All prices are decimal text and are never parsed.
 */
module Market {

  /** One exchange quote for a symbol; every field is the exchange's own text. */
  datatype MarketTicker = MarketTicker(
    ask: string,
    bid: string,
    last: string,
    open: string,
    low: string,
    high: string,
    volume: string
  )

  /** The externally visible record for one symbol. */
  datatype Currency = Currency(
    id: string,
    fullName: string,
    ask: string,
    bid: string,
    last: string,
    open: string,
    low: string,
    high: string,
    feeCurrency: string,
    volume: string,
    quoteVolume: string,
    change: string,
    percentChange: string
  )

  /** The cached snapshot: symbol to its latest quote. A nil Go map reads as empty. */
  type Snapshot = map<string, MarketTicker>

  /** The fee currency every record reports, whatever its symbol. */
  const FeeCurrency: string := "BTC"

  /** The Go zero value of a string field that is never assigned. */
  const Unset: string := ""

  /** The six price fields a record copies from its quote. */
  predicate SameQuote(t: MarketTicker, u: MarketTicker)
  {
    && t.ask == u.ask && t.bid == u.bid && t.last == u.last
    && t.open == u.open && t.low == u.low && t.high == u.high
  }

  /** The record built for `symbol` from its quote `t`. */
  function Project(symbol: string, t: MarketTicker): (c: Currency)
    ensures c.id == symbol && c.fullName == symbol
    ensures c.ask == t.ask && c.bid == t.bid && c.last == t.last
    ensures c.open == t.open && c.low == t.low && c.high == t.high
    ensures c.feeCurrency == FeeCurrency
    ensures c.volume == Unset && c.quoteVolume == Unset
    ensures c.change == Unset && c.percentChange == Unset
  {
    Currency(
      id := symbol,
      fullName := symbol,
      ask := t.ask,
      bid := t.bid,
      last := t.last,
      open := t.open,
      low := t.low,
      high := t.high,
      feeCurrency := FeeCurrency,
      volume := Unset,
      quoteVolume := Unset,
      change := Unset,
      percentChange := Unset
    )
  }

  /** A record determines its symbol and the six copied prices, and nothing more. */
  lemma ProjectDeterminesQuote(s: string, t: MarketTicker, s': string, t': MarketTicker)
    ensures Project(s, t) == Project(s', t') <==> s == s' && SameQuote(t, t')
  {
  }

  /** The quote's own volume never reaches the record. */
  lemma ProjectIgnoresVolume(s: string, t: MarketTicker, v: string)
    ensures Project(s, t) == Project(s, t.(volume := v))
    ensures Project(s, t).volume == Unset
  {
  }
}
