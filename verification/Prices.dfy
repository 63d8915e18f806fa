/** Market events and the authoritative price (src/trading/data/events.py,
    src/trading/data/prices.py). */
module Prices {
  import opened Wrappers

  /** One payload value. `Empty` is the empty string or an empty container; other strings carry
      the finite number they parse to, if any; `Other` is a non-empty container. */
  datatype Json = Null | Empty | Boolean(b: bool) | Number(n: real) | Text(parsed: Option<real>) | Other

  datatype Row = Row(cells: map<string, Json>, optionType: Option<string>) {
    /** `row.get(first, row.get(second))`. */
    function Get(first: string, second: string): Json {
      if first in cells then cells[first] else if second in cells then cells[second] else Null
    }

    /** No option type, or an empty one: the underlying's own row. */
    predicate Untyped() { optionType.None? || optionType.value == "" }
  }

  /** A payload list: entries that are not objects are None. */
  datatype Listing = NotAList | Rows(rows: seq<Option<Row>>)

  datatype Event = Event(
    eventTime: int, receiveTime: int,
    strikes: Listing, strikeCount: int,
    quotes: Listing, quoteCount: int,
    bars: Listing, barCount: int,
    bidLevels: Listing, bidCount: int,
    askLevels: Listing, askCount: int)

  /** A strictly positive number, rejecting booleans and anything that does not parse. */
  function Positive(v: Json): (p: Option<real>)
    ensures p.Some? ==> p.value > 0.0
  {
    match v
    case Number(n) => if n > 0.0 then Some(n) else None
    case Text(Some(n)) => if n > 0.0 then Some(n) else None
    case _ => None
  }

  function FirstRow(listing: Listing): Option<Row> {
    if listing.Rows? && listing.rows != [] then listing.rows[0] else None
  }

  function LastRow(listing: Listing): Option<Row> {
    if listing.Rows? && listing.rows != [] then listing.rows[|listing.rows| - 1] else None
  }

  /** The first object row without an option type. */
  function UnderlyingRow(rows: seq<Option<Row>>): Option<Row> {
    if rows == [] then None
    else if rows[0].Some? && rows[0].value.Untyped() then rows[0]
    else UnderlyingRow(rows[1..])
  }

  function ChainSpot(chain: Event): Option<real> {
    if chain.strikes.NotAList? then None
    else
      match UnderlyingRow(chain.strikes.rows)
      case Some(row) => Positive(row.Get("ltp", "fp"))
      case None =>
        match FirstRow(chain.strikes)
        case Some(row) => Positive(row.Get("ltp", "fp"))
        case None => None
  }

  function QuoteLast(quote: Event): Option<real> {
    match FirstRow(quote.quotes)
    case Some(row) => Positive(row.Get("lp", "ltp"))
    case None => None
  }

  function BarClose(bar: Event): Option<real> {
    match LastRow(bar.bars)
    case Some(row) => Positive(row.Get("close", "close"))
    case None => None
  }

  function BestOf(levels: Listing): Option<real> {
    match FirstRow(levels)
    case Some(row) => Positive(row.Get("price", "price"))
    case None => None
  }

  /** A bar close outranks a quote, which outranks the chain's underlying row. */
  function ResolveLastPrice(chain: Event, quote: Option<Event>, bar: Option<Event>): (p: Option<real>)
    ensures p.Some? ==> p.value > 0.0
  {
    var close := if bar.Some? then BarClose(bar.value) else None;
    var last := if quote.Some? then QuoteLast(quote.value) else None;
    if close.Some? then close else if last.Some? then last else ChainSpot(chain)
  }

  /** The index path has no chain: the bar close, else the quote. */
  function IndexLast(quote: Event, bar: Option<Event>): Option<real> {
    var close := if bar.Some? then BarClose(bar.value) else None;
    if close.Some? then close else QuoteLast(quote)
  }
}
