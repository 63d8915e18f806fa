/** The builder's own price resolution (src/trading/data/snapshot_builder.py): it overwrites its
    prices source by source, and must agree with the gate's. */
module SnapshotBuilder {
  import opened Wrappers
  import opened Prices

  datatype BuildError = PriceUnavailable | Malformed

  datatype Built = Built(bid: Option<real>, ask: Option<real>, last: real)

  /** `Decimal(str(value or 0))`: falsy values are zero, and what does not parse is an error. */
  function RawNumber(v: Json): Result<real, BuildError> {
    match v
    case Null => Ok(0.0)
    case Boolean(b) => if b then Err(Malformed) else Ok(0.0)
    case Number(n) => Ok(n)
    case Empty => Ok(0.0)
    case Text(parsed) => if parsed.Some? then Ok(parsed.value) else Err(Malformed)
    case Other => Err(Malformed)
  }

  /** Reading a field fails exactly on the value true, on text that is no number, and on a structure; what
      the field leaves out, empty or false is zero. */
  lemma WhatParses(v: Json)
    ensures RawNumber(v) == Err(Malformed) <==> v == Boolean(true) || v == Text(None) || v.Other?
    ensures RawNumber(v) != Err(PriceUnavailable)
    ensures v.Null? || v.Empty? || v == Boolean(false) ==> RawNumber(v) == Ok(0.0)
    ensures v.Number? ==> RawNumber(v) == RawNumber(Text(Some(v.n)))
  {
  }

  function RowNumber(row: Option<Row>): Result<real, BuildError> {
    if row.None? then Ok(0.0) else RawNumber(row.value.Get("ltp", "fp"))
  }

  /** What the spot loop and its fallback leave behind. */
  function Spot(chain: Event): Result<real, BuildError> {
    if chain.strikes.NotAList? then Ok(0.0)
    else
      var first := RowNumber(UnderlyingRow(chain.strikes.rows));
      if first.Ok? && first.value <= 0.0 then
        var fallback := FirstRow(chain.strikes);
        if fallback.Some? then RowNumber(fallback) else first
      else first
  }

  method ResolveSpot(chain: Event) returns (spot: Result<real, BuildError>)
    ensures spot == Spot(chain)
  {
    var value := 0.0;
    if chain.strikes.NotAList? {
      return Ok(value);
    }
    var rows := chain.strikes.rows;
    var i := 0;
    while i < |rows|
      invariant 0 <= i <= |rows|
      invariant UnderlyingRow(rows[i..]) == UnderlyingRow(rows)
      invariant value == 0.0
    {
      assert rows[i..][1..] == rows[i + 1..];
      if rows[i].Some? && rows[i].value.Untyped() {
        var raw := RawNumber(rows[i].value.Get("ltp", "fp"));
        if raw.Err? {
          return raw;
        }
        value := raw.value;
        break;
      }
      i := i + 1;
    }
    if value <= 0.0 && rows != [] && rows[0].Some? {
      return RawNumber(rows[0].value.Get("ltp", "fp"));
    }
    return Ok(value);
  }

  function Or(a: Option<real>, b: Option<real>): Option<real> { if a.Some? then a else b }

  function QuoteCell(quote: Option<Event>, name: string): Option<real> {
    if quote.None? then None
    else match FirstRow(quote.value.quotes)
         case Some(row) => Positive(row.Get(name, name))
         case None => None
  }

  /** Chain, quotes, depth, then bars; each later source overwrites what it observes. */
  method Build(chain: Event, quote: Option<Event>, bar: Option<Event>, depth: Option<Event>)
    returns (r: Result<Built, BuildError>)
    ensures r.Ok? ==> r.value.bid == Or(if depth.Some? then BestOf(depth.value.bidLevels) else None,
                                        QuoteCell(quote, "bid"))
    ensures r.Ok? ==> r.value.ask == Or(if depth.Some? then BestOf(depth.value.askLevels) else None,
                                        QuoteCell(quote, "ask"))
    ensures Spot(chain).Err? ==> r == Err(Malformed)
    ensures Spot(chain).Ok? ==>
              match ResolveLastPrice(chain, quote, bar)
              case Some(price) => r.Ok? && r.value.last == price
              case None => if Spot(chain).value > 0.0 then r.Ok? && r.value.last == Spot(chain).value
                           else r == Err(PriceUnavailable)
  {
    var resolved := ResolveSpot(chain);
    if resolved.Err? {
      return Err(Malformed);
    }
    var spot := resolved.value;
    var bid: Option<real>, ask: Option<real>, last: Option<real> := None, None, None;
    if quote.Some? {
      var row := FirstRow(quote.value.quotes);
      if row.Some? {
        bid := Positive(row.value.Get("bid", "bid"));
        ask := Positive(row.value.Get("ask", "ask"));
        last := Positive(row.value.Get("lp", "ltp"));
      }
    }
    if depth.Some? {
      bid := Or(BestOf(depth.value.bidLevels), bid);
      ask := Or(BestOf(depth.value.askLevels), ask);
    }
    if bar.Some? {
      last := Or(BarClose(bar.value), last);
    }
    ChainSpotIsSpot(chain);
    if last.None? && spot > 0.0 {
      last := Some(spot);
    }
    if last.None? || last.value <= 0.0 {
      return Err(PriceUnavailable);
    }
    return Ok(Built(bid, ask, last.value));
  }

  /** Where the gate sees a chain price the builder's spot is that price. The gate stops at the
      underlying row; the builder falls through to the first row when that one is not positive. */
  lemma ChainSpotIsSpot(chain: Event)
    requires Spot(chain).Ok?
    ensures ChainSpot(chain).Some? ==> Spot(chain).value == ChainSpot(chain).value
    ensures ChainSpot(chain).None? && Spot(chain).value > 0.0 <==>
              && chain.strikes.Rows? && UnderlyingRow(chain.strikes.rows).Some?
              && RowNumber(UnderlyingRow(chain.strikes.rows)).value <= 0.0
              && FirstRow(chain.strikes).Some? && RowNumber(FirstRow(chain.strikes)).value > 0.0
  {
  }

  /** A premium priced as spot: an untyped row at zero in front of an option row. Neither the gate
      nor the quote has a price, yet the builder prices the cycle at the option's premium. */
  lemma BuilderPricesWhereGateDoesNot() returns (chain: Event)
    ensures ResolveLastPrice(chain, None, None).None?
    ensures Spot(chain) == Ok(12.5)
  {
    var option := Row(map["ltp" := Number(12.5)], Some("CE"));
    var underlying := Row(map["ltp" := Number(0.0)], None);
    var rows := [Some(option), Some(underlying)];
    chain := Event(0, 0, Rows(rows), 2, NotAList, 0, NotAList, 0, NotAList, 0, NotAList, 0);
    assert rows[1..] == [Some(underlying)];
    assert UnderlyingRow(rows) == Some(underlying);
  }

  /** The index path takes its price from the quote and the bar only. */
  method BuildIndex(quote: Event, bar: Option<Event>, depth: Option<Event>)
    returns (r: Result<Built, BuildError>)
    ensures r.Ok? ==> r.value.bid == Or(if depth.Some? then BestOf(depth.value.bidLevels) else None,
                                        QuoteCell(Some(quote), "bid"))
    ensures r.Ok? ==> r.value.ask == Or(if depth.Some? then BestOf(depth.value.askLevels) else None,
                                        QuoteCell(Some(quote), "ask"))
    ensures match IndexLast(quote, bar)
            case Some(price) => r.Ok? && r.value.last == price
            case None => r == Err(PriceUnavailable)
  {
    var bid: Option<real>, ask: Option<real>, last: Option<real> := None, None, None;
    var row := FirstRow(quote.quotes);
    if row.Some? {
      bid := Positive(row.value.Get("bid", "bid"));
      ask := Positive(row.value.Get("ask", "ask"));
      last := Positive(row.value.Get("lp", "ltp"));
    }
    if depth.Some? {
      bid := Or(BestOf(depth.value.bidLevels), bid);
      ask := Or(BestOf(depth.value.askLevels), ask);
    }
    if bar.Some? {
      last := Or(BarClose(bar.value), last);
    }
    if last.None? || last.value <= 0.0 {
      return Err(PriceUnavailable);
    }
    return Ok(Built(bid, ask, last.value));
  }
}
