/** Fill reconstruction from a decision-time book (src/trading/analytics/fills.py) and the P&L
    of a closed signal (src/trading/analytics/scorecard.py:251-278). */
module Fills {
  import opened Wrappers
  import opened Decimals
  import opened Primitives

  datatype Side = Buy | Sell

  function Opposite(side: Side): Side { if side.Buy? then Sell else Buy }

  /** Top of book. Comparing prices of different ticks raises, so a book with both sides has
      one tick, and it is not crossed (src/trading/domain/contracts/snapshot.py:83-93). */
  datatype Quote = Quote(
    bid: Option<Price>, ask: Option<Price>, last: Option<Price>, bidSize: Option<nat>, askSize: Option<nat>)
  {
    predicate Valid() {
      && (bid.Some? ==> bid.value.Valid())
      && (ask.Some? ==> ask.value.Valid())
      && (last.Some? ==> last.value.Valid())
      && (bid.Some? && ask.Some? ==> bid.value.tick == ask.value.tick && bid.value.value <= ask.value.value)
    }

    /** The side of the book an order of this side would take. */
    function Book(side: Side): Option<Price> { if side.Buy? then ask else bid }

    function Depth(side: Side): Option<nat> { if side.Buy? then askSize else bidSize }
  }

  datatype Command = Command(side: Side, quantity: nat, limit: Option<Price>) {
    predicate Valid() { quantity > 0 && (limit.Some? ==> limit.value.Valid()) }
  }

  datatype Policy = Policy(
    touch: bool, slippageTicks: nat, leggingTicks: nat, requireThrough: bool, chargesPerLot: Option<real>)

  datatype Outcome = Filled | Partial | Unfilled | Rejected

  datatype Reason = FillOk | PriceUnavailable | SlippageExceeded | DepthInsufficient

  datatype Fill = Fill(
    outcome: Outcome, quantity: nat, intended: Price, price: Option<Price>, slippage: Option<real>,
    charges: Option<real>, confirmed: bool, reason: Reason)
  {
    /** The record's own validator (src/trading/domain/contracts/evaluation.py:105-123). */
    predicate Valid() {
      && (outcome.Filled? || outcome.Partial? ==> quantity > 0 && price.Some?)
      && (outcome.Unfilled? || outcome.Rejected? ==> quantity == 0 && price.None?)
      && (charges.Some? <==> confirmed)
    }
  }

  function Anchor(quote: Quote, side: Side): Price {
    if quote.Book(side).Some? then quote.Book(side).value
    else if quote.last.Some? then quote.last.value
    else Price(0.0, 0.05)
  }

  /** `tick` against the trader: up when buying, down when selling. */
  function Against(side: Side, value: real, delta: real): real {
    if side.Buy? then value + delta else value - delta
  }

  function ConservativePrice(side: Side, book: Price, slippageTicks: nat): Option<Price>
    requires book.Valid()
  {
    var raw := Against(side, book.value, Units(slippageTicks, book.tick));
    if raw < 0.0 then None
    else
      match Snap(raw, book.tick, if side.Buy? then Ceiling else Floor)
      case Ok(p) => Some(p)
      case Err(_) => None
  }

  /** `last <= limit` raises when the two sit on different tick grids. */
  function TradedThrough(side: Side, limit: Price, quote: Quote): Result<bool, UnitError> {
    if quote.last.None? then Ok(false)
    else if quote.last.value.tick != limit.tick then Err(TickMismatch)
    else Ok(if side.Buy? then quote.last.value.value <= limit.value else quote.last.value.value >= limit.value)
  }

  function Slippage(side: Side, intended: Price, fill: Price): real {
    Max(0.0, if side.Buy? then fill.value - intended.value else intended.value - fill.value)
  }

  function Charges(chargesPerLot: Option<real>, lots: nat): Option<real> {
    match chargesPerLot
    case None => None
    case Some(perLot) => Some(perLot * lots as real)
  }

  function NoFill(outcome: Outcome, intended: Price, reason: Reason): Fill {
    Fill(outcome, 0, intended, None, None, None, false, reason)
  }

  function FillAt(command: Command, intended: Price, price: Price, policy: Policy, lots: nat): Fill {
    var charges := Charges(policy.chargesPerLot, lots);
    Fill(Filled, command.quantity, intended, Some(price), Some(Slippage(command.side, intended, price)),
         charges, charges.Some?, FillOk)
  }

  function Conservative(
    command: Command, quote: Quote, policy: Policy, through: Option<bool>, lots: nat): Result<Fill, UnitError>
    requires quote.Valid()
  {
    if command.limit.None? then Ok(NoFill(Rejected, Anchor(quote, command.side), PriceUnavailable))
    else
      var intended, book := command.limit.value, quote.Book(command.side);
      if book.None? then Ok(NoFill(Rejected, intended, PriceUnavailable))
      else
        var price := ConservativePrice(command.side, book.value, policy.slippageTicks);
        if price.None? then Ok(NoFill(Rejected, intended, PriceUnavailable))
        else
          var crossed :- if through.Some? then Ok(through.value) else TradedThrough(command.side, intended, quote);
          if policy.requireThrough && !crossed then Ok(NoFill(Unfilled, intended, SlippageExceeded))
          else if quote.Depth(command.side).None? || quote.Depth(command.side).value < command.quantity then
            Ok(NoFill(Unfilled, intended, DepthInsufficient))
          else Ok(FillAt(command, intended, price.value, policy, lots))
  }

  function Touch(command: Command, quote: Quote, policy: Policy, lots: nat): Fill {
    if command.limit.None? then NoFill(Rejected, Anchor(quote, command.side), PriceUnavailable)
    else
      var intended, book := command.limit.value, quote.Book(command.side);
      if book.None? then NoFill(Rejected, intended, PriceUnavailable)
      else FillAt(command, intended, book.value, policy, lots)
  }

  function Simulate(
    command: Command, quote: Quote, policy: Policy, through: Option<bool>, lots: nat): Result<Fill, UnitError>
    requires quote.Valid()
  {
    if policy.touch then Ok(Touch(command, quote, policy, lots))
    else Conservative(command, quote, policy, through, lots)
  }

  // ------------------------------------------------------------------- one fill

  /** The snap in the conservative price never rounds: the price is exactly the slippage away
      from the book, and it is missing exactly when a sale would slip below zero. */
  lemma ConservativePriceIsExact(side: Side, book: Price, slippageTicks: nat)
    requires book.Valid()
    ensures ConservativePrice(side, book, slippageTicks).None? <==> side.Sell? && slippageTicks > TickCount(book)
    ensures ConservativePrice(side, book, slippageTicks).Some? ==>
              var p := ConservativePrice(side, book, slippageTicks).value;
              p.Valid() && p == Price(Against(side, book.value, Units(slippageTicks, book.tick)), book.tick)
  {
    var n: int := if side.Buy? then TickCount(book) + slippageTicks else TickCount(book) - slippageTicks;
    UnitsAdd(TickCount(book), slippageTicks, book.tick);
    assert Against(side, book.value, Units(slippageTicks, book.tick)) == Units(n, book.tick);
    UnitsMonotone(0, n, book.tick);
    if n >= 0 {
      UnitsOnGrid(n, book.tick);
      SnapIdempotent(Price(Units(n, book.tick), book.tick), if side.Buy? then Ceiling else Floor);
    }
  }

  /** Every simulated fill satisfies its record's validator and reports an on-grid price. */
  lemma SimulatedFillsAreValid(
    command: Command, quote: Quote, policy: Policy, through: Option<bool>, lots: nat)
    requires command.Valid() && quote.Valid()
    ensures var r := Simulate(command, quote, policy, through, lots);
            r.Ok? ==> r.value.Valid() && (r.value.price.Some? ==> r.value.price.value.Valid())
    ensures Simulate(command, quote, policy, Some(true), lots).Ok?
  {
    if quote.Book(command.side).Some? {
      ConservativePriceIsExact(command.side, quote.Book(command.side).value, policy.slippageTicks);
    }
  }

  /** The figures of a simulated fill: the whole quantity at a price or nothing, charges of the per-lot fee on
      every lot where one is known, and a slippage that is never negative. */
  lemma FillFigures(command: Command, quote: Quote, policy: Policy, through: Option<bool>, lots: nat)
    requires command.Valid() && quote.Valid()
    requires Simulate(command, quote, policy, through, lots).Ok?
    ensures var f := Simulate(command, quote, policy, through, lots).value;
            && (f.outcome.Filled? ==>
                  && f.quantity == command.quantity && f.price.Some? && f.slippage.Some? && f.slippage.value >= 0.0
                  && (f.confirmed <==> policy.chargesPerLot.Some?) && f.reason.FillOk?
                  && f.charges == Charges(policy.chargesPerLot, lots))
            && (!f.outcome.Filled? ==>
                  f.quantity == 0 && f.price.None? && f.slippage.None? && f.charges.None? && !f.confirmed
                  && !f.outcome.Partial? && !f.reason.FillOk?)
            && (command.limit.Some? ==> f.intended == command.limit.value)
  {
  }

  /** Slippage is what the trader gave up against the limit: the distance to a worse price, nothing for the
      limit itself or a better one. */
  lemma SlippageIsWhatWasGivenUp(side: Side, intended: Price, distance: real)
    requires distance >= 0.0
    ensures Slippage(side, intended, intended.(value := Against(side, intended.value, distance))) == distance
    ensures Slippage(side, intended, intended.(value := Against(Opposite(side), intended.value, distance))) == 0.0
  {
  }

  /** Under touch an order fills exactly if it has a limit and a book to take, at that book's price; an order
      without a limit is rejected in either model, against its own side of the book, else the last price. */
  lemma TouchFillsExactly(command: Command, quote: Quote, policy: Policy, through: Option<bool>, lots: nat)
    requires command.Valid() && quote.Valid()
    ensures var f, book := Touch(command, quote, policy, lots), if command.side.Buy? then quote.ask else quote.bid;
            && (f.outcome.Filled? <==> command.limit.Some? && book.Some?)
            && (f.outcome.Filled? ==> f.price == book)
            && (!f.outcome.Filled? ==> f.outcome.Rejected? && f.reason.PriceUnavailable?)
    ensures command.limit.None? ==>
              var r := Simulate(command, quote, policy, through, lots);
              var book := if command.side.Buy? then quote.ask else quote.bid;
              && r.Ok? && r.value.outcome.Rejected? && r.value.reason.PriceUnavailable?
              && (book.Some? ==> r.value.intended == book.value)
              && (book.None? && quote.last.Some? ==> r.value.intended == quote.last.value)
              && (book.None? && quote.last.None? ==> r.value.intended == Price(0.0, 0.05))
  {
  }

  /** What a conservative fill implies about the touch fill of the same command and book: it
      happens too, for the same quantity and charges, exactly the slippage ticks closer. */
  lemma ConservativeImpliesTouch(
    command: Command, quote: Quote, policy: Policy, through: Option<bool>, lots: nat)
    requires command.Valid() && quote.Valid()
    requires Conservative(command, quote, policy, through, lots).Ok?
    requires Conservative(command, quote, policy, through, lots).value.outcome.Filled?
    ensures var strict := Conservative(command, quote, policy, through, lots).value;
            var touch := Touch(command, quote, policy, lots);
            && touch.outcome.Filled? && touch.quantity == strict.quantity == command.quantity
            && touch.charges == strict.charges && touch.confirmed == strict.confirmed
            && strict.price.value.tick == touch.price.value.tick
            && strict.price.value.value == Against(command.side, touch.price.value.value,
                                                   Units(policy.slippageTicks, touch.price.value.tick))
            && touch.slippage.value <= strict.slippage.value
                 <= touch.slippage.value + Units(policy.slippageTicks, touch.price.value.tick)
  {
    var book := quote.Book(command.side).value;
    ConservativePriceIsExact(command.side, book, policy.slippageTicks);
    UnitsMonotone(0, policy.slippageTicks, book.tick);
  }

  /** The order can be priced: a limit, a book on the side it takes, and no price below zero. */
  predicate Priced(command: Command, quote: Quote, policy: Policy)
    requires quote.Valid()
  {
    && command.limit.Some?
    && (command.side.Buy? ==> quote.ask.Some?)
    && (command.side.Sell? ==> quote.bid.Some? && policy.slippageTicks <= TickCount(quote.bid.value))
  }

  predicate Crossed(command: Command, quote: Quote, through: Option<bool>)
    requires command.limit.Some?
  {
    match through
    case Some(seen) => seen
    case None =>
      && quote.last.Some?
      && (command.side.Buy? ==> quote.last.value.value <= command.limit.value.value)
      && (command.side.Sell? ==> quote.last.value.value >= command.limit.value.value)
  }

  /** Exactly when the conservative model fills: a priced order that was traded through where that
      is required, with the whole quantity displayed on the side it takes. It raises exactly when
      it must judge the trade-through itself from a last price on another grid, even where no
      trade-through is required. */
  lemma ConservativeFillsExactly(
    command: Command, quote: Quote, policy: Policy, through: Option<bool>, lots: nat)
    requires command.Valid() && quote.Valid()
    ensures var r := Conservative(command, quote, policy, through, lots);
            && (r.Err? <==> Priced(command, quote, policy) && through.None? && quote.last.Some?
                            && quote.last.value.tick != command.limit.value.tick)
            && (r.Err? ==> r.error == TickMismatch)
            && (r.Ok? ==>
                  (r.value.outcome.Filled? <==>
                     && Priced(command, quote, policy)
                     && (!policy.requireThrough || Crossed(command, quote, through))
                     && (command.side.Buy? ==> quote.askSize.Some? && quote.askSize.value >= command.quantity)
                     && (command.side.Sell? ==> quote.bidSize.Some? && quote.bidSize.value >= command.quantity)))
            && (r.Ok? && r.value.outcome.Rejected? <==> !Priced(command, quote, policy))
            && (r.Ok? && r.value.outcome.Rejected? ==> r.value.reason.PriceUnavailable?)
            && (r.Ok? && r.value.outcome.Unfilled? ==>
                  r.value.reason ==
                    if policy.requireThrough && !Crossed(command, quote, through) then SlippageExceeded
                    else DepthInsufficient)
            && (r.Ok? && r.value.outcome.Filled? && command.side.Buy? ==>
                  r.value.price.value.value >= quote.ask.value.value)
            && (r.Ok? && r.value.outcome.Filled? && command.side.Sell? ==>
                  r.value.price.value.value <= quote.bid.value.value)
  {
    if quote.Book(command.side).Some? {
      var book := quote.Book(command.side).value;
      ConservativePriceIsExact(command.side, book, policy.slippageTicks);
      UnitsMonotone(0, policy.slippageTicks, book.tick);
    }
  }

  // --------------------------------------------------------------- closed signals

  datatype Signal = Signal(
    entry: Command, entryQuote: Quote, entryThrough: bool,
    exit: Option<Command>, exitQuote: Option<Quote>, exitThrough: bool, lots: nat)
  {
    predicate Valid() {
      && entry.Valid() && entryQuote.Valid()
      && (exit.Some? ==> exit.value.Valid())
      && (exitQuote.Some? ==> exitQuote.value.Valid())
    }
  }

  function EntryFill(s: Signal, policy: Policy): (f: Fill)
    requires s.Valid()
    ensures f.Valid()
  {
    SimulatedFillsAreValid(s.entry, s.entryQuote, policy, Some(s.entryThrough), s.lots);
    Simulate(s.entry, s.entryQuote, policy, Some(s.entryThrough), s.lots).value
  }

  function ExitFill(s: Signal, policy: Policy): (f: Fill)
    requires s.Valid() && s.exit.Some? && s.exitQuote.Some?
    ensures f.Valid()
  {
    SimulatedFillsAreValid(s.exit.value, s.exitQuote.value, policy, Some(s.exitThrough), s.lots);
    Simulate(s.exit.value, s.exitQuote.value, policy, Some(s.exitThrough), s.lots).value
  }

  function PnL(side: Side, entry: real, exit: real, quantity: nat): real {
    (if side.Buy? then exit - entry else entry - exit) * quantity as real
  }

  /** `_closed_pnl`: None while the signal is still open. */
  function ClosedPnl(s: Signal, entry: Fill, policy: Policy): Option<(real, Fill)>
    requires s.Valid()
  {
    if s.exit.None? || s.exitQuote.None? || entry.price.None? then None
    else
      var exit := ExitFill(s, policy);
      if !exit.outcome.Filled? || exit.price.None? then None
      else
        Some((PnL(s.entry.side, entry.price.value.value, exit.price.value.value,
                  MinInt(entry.quantity, exit.quantity)), exit))
  }

  function Close(s: Signal, policy: Policy): Option<(real, Fill)>
    requires s.Valid()
  {
    var entry := EntryFill(s, policy);
    if !entry.outcome.Filled? || entry.price.None? then None else ClosedPnl(s, entry, policy)
  }

  /** What `slips` ticks on both prices cost a position closed on `exitSide`. */
  function SlippageCost(slips: nat, side: Side, exitSide: Side, entryTick: real, exitTick: real, quantity: nat): real {
    var entryCost, exitCost := Units(slips, entryTick), Units(slips, exitTick);
    (entryCost + (if exitSide == Opposite(side) then exitCost else -exitCost)) * quantity as real
  }

  lemma PnLSlips(
    side: Side, exitSide: Side, entry: Price, exit: Price, slips: nat, quantity: nat, touch: real, strict: real)
    requires touch == PnL(side, entry.value, exit.value, quantity)
    requires strict == PnL(side, Against(side, entry.value, Units(slips, entry.tick)),
                           Against(exitSide, exit.value, Units(slips, exit.tick)), quantity)
    ensures touch - strict == SlippageCost(slips, side, exitSide, entry.tick, exit.tick, quantity)
  {
    var q := quantity as real;
    var dEntry, dExit := Units(slips, entry.tick), Units(slips, exit.tick);
    var slippedEntry, slippedExit := Against(side, entry.value, dEntry), Against(exitSide, exit.value, dExit);
    var before := if side.Buy? then exit.value - entry.value else entry.value - exit.value;
    var after := if side.Buy? then slippedExit - slippedEntry else slippedEntry - slippedExit;
    Distribute(before, after, q);
  }

  /** The slippage of each fill of a signal under the conservative model. */
  lemma BothFillsSlip(s: Signal, strict: Policy)
    requires s.Valid() && !strict.touch && Close(s, strict).Some?
    ensures Close(s, strict.(touch := true)).Some?
    ensures var touch := strict.(touch := true);
            && EntryFill(s, touch).price == s.entryQuote.Book(s.entry.side)
            && ExitFill(s, touch).price == s.exitQuote.value.Book(s.exit.value.side)
            && EntryFill(s, touch).quantity == EntryFill(s, strict).quantity == s.entry.quantity
            && ExitFill(s, touch).quantity == ExitFill(s, strict).quantity == s.exit.value.quantity
    ensures s.exit.Some? && s.exitQuote.Some? && s.entryQuote.Book(s.entry.side).Some?
    ensures s.exitQuote.value.Book(s.exit.value.side).Some?
    ensures var book := s.entryQuote.Book(s.entry.side).value;
            EntryFill(s, strict).price.value.value
              == Against(s.entry.side, book.value, Units(strict.slippageTicks, book.tick))
    ensures var book := s.exitQuote.value.Book(s.exit.value.side).value;
            ExitFill(s, strict).price.value.value
              == Against(s.exit.value.side, book.value, Units(strict.slippageTicks, book.tick))
  {
    ConservativeImpliesTouch(s.entry, s.entryQuote, strict, Some(s.entryThrough), s.lots);
    ConservativeImpliesTouch(s.exit.value, s.exitQuote.value, strict, Some(s.exitThrough), s.lots);
  }

  /** Both P&Ls, priced from the books. */
  lemma ClosesFromTheBooks(s: Signal, strict: Policy, entryBook: Price, exitBook: Price)
    requires s.Valid() && !strict.touch && Close(s, strict).Some?
    requires s.entryQuote.Book(s.entry.side) == Some(entryBook)
    requires s.exitQuote.Some? && s.exit.Some? && s.exitQuote.value.Book(s.exit.value.side) == Some(exitBook)
    ensures Close(s, strict.(touch := true)).Some?
    ensures var q := MinInt(s.entry.quantity, s.exit.value.quantity);
            && Close(s, strict.(touch := true)).value.0 == PnL(s.entry.side, entryBook.value, exitBook.value, q)
            && Close(s, strict).value.0 == PnL(s.entry.side,
                 Against(s.entry.side, entryBook.value, Units(strict.slippageTicks, entryBook.tick)),
                 Against(s.exit.value.side, exitBook.value, Units(strict.slippageTicks, exitBook.tick)), q)
  {
    BothFillsSlip(s, strict);
  }

  lemma SlippageFromTheBooks(s: Signal, strict: Policy, entryBook: Price, exitBook: Price)
    requires s.Valid() && !strict.touch && Close(s, strict).Some?
    requires s.entryQuote.Book(s.entry.side) == Some(entryBook)
    requires s.exitQuote.Some? && s.exit.Some? && s.exitQuote.value.Book(s.exit.value.side) == Some(exitBook)
    ensures Close(s, strict.(touch := true)).Some?
    ensures Close(s, strict.(touch := true)).value.0 - Close(s, strict).value.0
         == SlippageCost(strict.slippageTicks, s.entry.side, s.exit.value.side, entryBook.tick, exitBook.tick,
                         MinInt(s.entry.quantity, s.exit.value.quantity))
  {
    ClosesFromTheBooks(s, strict, entryBook, exitBook);
    PnLSlips(s.entry.side, s.exit.value.side, entryBook, exitBook, strict.slippageTicks,
             MinInt(s.entry.quantity, s.exit.value.quantity),
             Close(s, strict.(touch := true)).value.0, Close(s, strict).value.0);
  }

  /** Pessimism, exactly. A signal that closes under the conservative model closes under touch,
      and its touch P&L is better by the slippage of both prices when the exit is on the other
      side. An exit on the SAME side nets the two slippages instead, so there the conservative
      model is pessimistic exactly when the entry's tick is at least the exit's. */
  lemma ConservativeIsPessimistic(s: Signal, strict: Policy)
    requires s.Valid() && !strict.touch && Close(s, strict).Some?
    ensures s.exit.Some? && s.exitQuote.Some?
    ensures s.entryQuote.Book(s.entry.side).Some? && s.exitQuote.value.Book(s.exit.value.side).Some?
    ensures Close(s, strict.(touch := true)).Some?
    ensures Close(s, strict.(touch := true)).value.0 - Close(s, strict).value.0
         == SlippageCost(strict.slippageTicks, s.entry.side, s.exit.value.side,
                         s.entryQuote.Book(s.entry.side).value.tick,
                         s.exitQuote.value.Book(s.exit.value.side).value.tick,
                         MinInt(s.entry.quantity, s.exit.value.quantity))
  {
    SlippageFromTheBooks(s, strict, s.entryQuote.Book(s.entry.side).value,
                         s.exitQuote.value.Book(s.exit.value.side).value);
  }

  /** The cost is a loss for every exit on the other side, and nothing only without slippage. On
      the same side its sign is that of the tick difference. */
  lemma SlippageCostSign(n: nat, side: Side, exitSide: Side, entryTick: real, exitTick: real, quantity: nat)
    requires entryTick > 0.0 && exitTick > 0.0 && quantity > 0
    ensures var cost := SlippageCost(n, side, exitSide, entryTick, exitTick, quantity);
            if exitSide == Opposite(side) then cost >= 0.0 && (cost == 0.0 <==> n == 0)
            else cost >= 0.0 <==> n == 0 || entryTick >= exitTick
  {
    UnitsMonotone(0, n, entryTick);
    UnitsMonotone(n, 0, entryTick);
    UnitsMonotone(0, n, exitTick);
    UnitsMonotone(n, 0, exitTick);
    if exitSide == Opposite(side) {
    } else {
      if n > 0 {
        FractionAgainst(entryTick, exitTick, n as real, Units(n, entryTick), Units(n, exitTick));
      }
    }
  }

  /** One contract offered at a price. */
  function AskOnly(price: Price): Quote { Quote(None, Some(price), None, None, Some(1)) }

  function BuyOne(price: Price): Command { Command(Buy, 1, Some(price)) }

  function OneTick(touch: bool): Policy { Policy(touch, 1, 0, false, None) }

  lemma AskFills(price: Price, through: bool, lots: nat)
    requires price.Valid()
    ensures BuyOne(price).Valid() && AskOnly(price).Valid()
    ensures Simulate(BuyOne(price), AskOnly(price), OneTick(false), Some(through), lots).value.outcome.Filled?
    ensures Simulate(BuyOne(price), AskOnly(price), OneTick(false), Some(through), lots).value.price.Some?
  {
    ConservativePriceIsExact(Buy, price, 1);
  }

  /** Bought on a grid of one, and closed by buying again on a grid of two. */
  function BoughtTwice(entry: Price, exit: Price): Signal {
    Signal(BuyOne(entry), AskOnly(entry), false, Some(BuyOne(exit)), Some(AskOnly(exit)), false, 1)
  }

  /** A position closed by buying more on a coarser grid looks better under the conservative model. */
  lemma SameSideExitFlatters(entry: Price, exit: Price)
    requires entry.Valid() && exit.Valid() && entry.tick < exit.tick
    ensures var s := BoughtTwice(entry, exit);
            && s.Valid() && Close(s, OneTick(false)).Some? && Close(s, OneTick(true)).Some?
            && Close(s, OneTick(false)).value.0 > Close(s, OneTick(true)).value.0
  {
    var s := BoughtTwice(entry, exit);
    AskFills(entry, false, 1);
    AskFills(exit, false, 1);
    ConservativeIsPessimistic(s, OneTick(false));
    SlippageCostSign(1, Buy, Buy, entry.tick, exit.tick, 1);
  }

  /** For an exit on the other side the conservative P&L is never better. */
  lemma RoundTripsNeverFlatter(s: Signal, strict: Policy)
    requires s.Valid() && !strict.touch && Close(s, strict).Some?
    requires s.exit.value.side == Opposite(s.entry.side)
    ensures Close(s, strict.(touch := true)).Some?
    ensures Close(s, strict).value.0 <= Close(s, strict.(touch := true)).value.0
    ensures Close(s, strict).value.0 == Close(s, strict.(touch := true)).value.0 <==> strict.slippageTicks == 0
  {
    ConservativeIsPessimistic(s, strict);
    SlippageCostSign(strict.slippageTicks, s.entry.side, s.exit.value.side, s.entryQuote.Book(s.entry.side).value.tick,
                     s.exitQuote.value.Book(s.exit.value.side).value.tick,
                     MinInt(s.entry.quantity, s.exit.value.quantity));
  }

  // ------------------------------------------------------------------------ legs

  /** `quote.ask or quote.bid or quote.last`: a price object is always truthy. */
  function AdverseAnchor(quote: Quote): Option<Price> {
    if quote.ask.Some? then quote.ask else if quote.bid.Some? then quote.bid else quote.last
  }

  function AdverseQuote(quote: Quote, side: Side, ticks: nat): Quote
    requires quote.Valid()
  {
    if AdverseAnchor(quote).None? then quote
    else
      var grid := AdverseAnchor(quote).value.tick;
      var shift := Units(ticks, grid);
      if side.Buy? && quote.ask.Some? then
        match Snap(quote.ask.value.value + shift, grid, Ceiling)
        case Ok(p) => quote.(ask := Some(p))
        case Err(_) => quote
      else if side.Sell? && quote.bid.Some? && quote.bid.value.value - shift >= 0.0 then
        match Snap(quote.bid.value.value - shift, grid, Floor)
        case Ok(p) => quote.(bid := Some(p))
        case Err(_) => quote
      else quote
  }

  /** The shift takes only the side the leg trades on, by exactly the delay ticks; a bid that
      would go below zero is left where it is. The shifted book is still valid. */
  lemma AdverseQuoteIsExact(quote: Quote, side: Side, ticks: nat)
    requires quote.Valid()
    ensures var shifted := AdverseQuote(quote, side, ticks);
            && shifted.Valid()
            && shifted.Book(Opposite(side)) == quote.Book(Opposite(side))
            && shifted.Depth(side) == quote.Depth(side) && shifted.last == quote.last
            && (quote.Book(side).None? ==> shifted == quote)
            && (quote.Book(side).Some? ==>
                  var book := quote.Book(side).value;
                  shifted.Book(side) ==
                    (if side.Sell? && ticks > TickCount(book) then Some(book)
                     else Some(Price(Against(side, book.value, Units(ticks, book.tick)), book.tick))))
  {
    if quote.Book(side).Some? {
      var book := quote.Book(side).value;
      assert AdverseAnchor(quote).value.tick == book.tick;
      ConservativePriceIsExact(side, book, ticks);
      UnitsMonotone(0, ticks, book.tick);
    }
  }

  function BidOnly(price: Price): Quote { Quote(Some(price), None, None, Some(1), None) }

  /** A bid of n ticks, one tick short of the delay, stays where it is. */
  lemma ShallowBidStays(n: nat, tick: real)
    requires tick > 0.0
    ensures var quote := BidOnly(Price(Units(n, tick), tick));
            quote.Valid() && AdverseQuote(quote, Sell, n + 1) == quote
  {
    var price := Price(Units(n, tick), tick);
    UnitsOnGrid(n, tick);
    AdverseQuoteIsExact(BidOnly(price), Sell, n + 1);
  }

  datatype Leg = Leg(command: Command, quote: Quote, through: bool)

  predicate ValidLegs(legs: seq<Leg>) {
    forall i | 0 <= i < |legs| :: legs[i].command.Valid() && legs[i].quote.Valid()
  }

  /** The book a leg is priced against: every leg but the first waits for the delay. */
  function LegBook(legs: seq<Leg>, i: nat, policy: Policy): (q: Quote)
    requires ValidLegs(legs) && i < |legs|
    ensures q.Valid()
  {
    AdverseQuoteIsExact(legs[i].quote, legs[i].command.side, policy.leggingTicks);
    if i > 0 && policy.leggingTicks > 0 then AdverseQuote(legs[i].quote, legs[i].command.side, policy.leggingTicks)
    else legs[i].quote
  }

  function LegFill(legs: seq<Leg>, i: nat, policy: Policy, lots: nat): Result<Fill, UnitError>
    requires ValidLegs(legs) && i < |legs|
  {
    Simulate(legs[i].command, LegBook(legs, i, policy), policy, Some(legs[i].through), lots)
  }

  /** `simulate_legs`. */
  method SimulateLegs(legs: seq<Leg>, policy: Policy, lots: nat) returns (fills: seq<Fill>)
    requires ValidLegs(legs)
    ensures |fills| == |legs|
    ensures forall i | 0 <= i < |legs| :: Ok(fills[i]) == LegFill(legs, i, policy, lots)
  {
    fills := [];
    for i := 0 to |legs|
      invariant |fills| == i
      invariant forall j | 0 <= j < i :: Ok(fills[j]) == LegFill(legs, j, policy, lots)
    {
      var shifted := legs[i].quote;
      if i > 0 && policy.leggingTicks > 0 {
        shifted := AdverseQuote(legs[i].quote, legs[i].command.side, policy.leggingTicks);
      }
      AdverseQuoteIsExact(legs[i].quote, legs[i].command.side, policy.leggingTicks);
      SimulatedFillsAreValid(legs[i].command, shifted, policy, Some(legs[i].through), lots);
      var fill := Simulate(legs[i].command, shifted, policy, Some(legs[i].through), lots);
      fills := fills + [fill.value];
    }
  }

  /** Ticks the delay takes from a leg: all of them, or none from a bid too close to zero. */
  function DelayTicks(legs: seq<Leg>, i: nat, policy: Policy): nat
    requires ValidLegs(legs) && i < |legs| && legs[i].quote.Book(legs[i].command.side).Some?
  {
    var book := legs[i].quote.Book(legs[i].command.side).value;
    if i == 0 || (legs[i].command.side.Sell? && policy.leggingTicks > TickCount(book)) then 0
    else policy.leggingTicks
  }

  /** Two books for one command, the far one `delay` ticks against it. */
  ghost predicate Behind(command: Command, near: Quote, far: Quote, delay: nat) {
    && near.Valid() && far.Valid() && far.Depth(command.side) == near.Depth(command.side)
    && near.Book(command.side).Some?
    && var book := near.Book(command.side).value;
       far.Book(command.side) == Some(Price(Against(command.side, book.value, Units(delay, book.tick)), book.tick))
  }

  lemma BehindStillFills(
    command: Command, near: Quote, far: Quote, delay: nat, policy: Policy, through: bool, lots: nat)
    requires command.Valid() && Behind(command, near, far, delay)
    requires Simulate(command, far, policy, Some(through), lots).value.outcome.Filled?
    ensures var atOnce := Simulate(command, near, policy, Some(through), lots);
            var late := Simulate(command, far, policy, Some(through), lots).value;
            && atOnce.Ok? && atOnce.value.outcome.Filled? && atOnce.value.quantity == late.quantity
            && late.price.value.tick == atOnce.value.price.value.tick
            && late.price.value.value == Against(command.side, atOnce.value.price.value.value,
                                                 Units(delay, atOnce.value.price.value.tick))
            && late.slippage.value >= atOnce.value.slippage.value
  {
    var book, shifted := near.Book(command.side).value, far.Book(command.side).value;
    UnitsMonotone(0, delay, book.tick);
    assert Units(0, book.tick) == 0.0;
    UnitsMonotone(TickCount(shifted), TickCount(book), book.tick);
    ConservativePriceIsExact(command.side, book, policy.slippageTicks);
    ConservativePriceIsExact(command.side, shifted, policy.slippageTicks);
  }

  lemma LegIsBehind(legs: seq<Leg>, i: nat, policy: Policy)
    requires ValidLegs(legs) && i < |legs| && legs[i].quote.Book(legs[i].command.side).Some?
    ensures Behind(legs[i].command, legs[i].quote, LegBook(legs, i, policy), DelayTicks(legs, i, policy))
  {
    var leg := legs[i];
    AdverseQuoteIsExact(leg.quote, leg.command.side, policy.leggingTicks);
    assert Units(0, leg.quote.Book(leg.command.side).value.tick) == 0.0;
  }

  /** Legging in never helps: a delayed leg that still fills would have filled at once, for the
      same quantity, and its price is worse by exactly its delay ticks. */
  lemma LeggingNeverHelps(legs: seq<Leg>, i: nat, policy: Policy, lots: nat)
    requires ValidLegs(legs) && i < |legs|
    requires LegFill(legs, i, policy, lots).Ok? && LegFill(legs, i, policy, lots).value.outcome.Filled?
    ensures var leg := legs[i];
            var alone := Simulate(leg.command, leg.quote, policy, Some(leg.through), lots);
            var legged := LegFill(legs, i, policy, lots).value;
            && alone.Ok? && alone.value.outcome.Filled? && alone.value.quantity == legged.quantity
            && leg.quote.Book(leg.command.side).Some?
            && legged.price.value.tick == alone.value.price.value.tick
            && legged.price.value.value == Against(leg.command.side, alone.value.price.value.value,
                 Units(DelayTicks(legs, i, policy), alone.value.price.value.tick))
            && legged.slippage.value >= alone.value.slippage.value
  {
    LegIsBehind(legs, i, policy);
    BehindStillFills(legs[i].command, legs[i].quote, LegBook(legs, i, policy), DelayTicks(legs, i, policy),
                     policy, legs[i].through, lots);
  }
}
