/** The snapshot-emission decision (src/trading/data/cycle.py): the gate and the builder, which
    resolve prices separately, agree on every cycle the gate lets through. */
module CycleEmission {
  import opened Wrappers
  import opened Prices
  import Q = Quality
  import B = SnapshotBuilder

  datatype Emission = NoSnapshot | Emitted(built: B.Built) | BuildFailed(error: B.BuildError)

  /** An INVALID cycle emits nothing; any other is built. Emission prices at the gate's own price
      and can never fail for want of one. */
  method EmitCombined(c: Q.Cycle, now: int) returns (e: Emission)
    ensures e.NoSnapshot? <==> Q.Verdict(c, now).state.Invalid?
    ensures e != BuildFailed(B.PriceUnavailable)
    ensures e.Emitted? ==> Some(e.built.last) == ResolveLastPrice(c.chain, c.quote, c.bar)
    ensures e.BuildFailed? <==> !Q.Verdict(c, now).state.Invalid? && B.Spot(c.chain).Err?
  {
    var quality := Q.AssessCombined(c, now);
    if quality.state.Invalid? {
      return NoSnapshot;
    }
    Q.HardFailuresInvalidate(c, now);
    var built := B.Build(c.chain, c.quote, c.bar, c.depth);
    e := if built.Ok? then Emitted(built.value) else BuildFailed(built.error);
  }

  datatype IndexEmission = IndexNoSnapshot | IndexEmitted(built: B.Built) | IndexFailed(gate: bool)

  /** On the index path the builder fails exactly when the gate finds no price, so an emitted
      cycle always carries the gate's price. */
  method EmitIndex(c: Q.IndexCycle, now: int) returns (e: IndexEmission)
    ensures e == IndexFailed(true) <==> !c.Warmup() && Q.SomeFeedFresh(c, now)
    ensures e != IndexFailed(false)
    ensures e.IndexEmitted? ==> Some(e.built.last) == IndexLast(c.quote, c.bar)
    ensures e.IndexNoSnapshot? || e.IndexEmitted? ==>
              (e.IndexNoSnapshot? <==> Q.IndexVerdict(c, now).state.Invalid?)
  {
    var quality := Q.AssessIndex(c, now);
    if quality.Err? {
      return IndexFailed(true);
    }
    if quality.value.state.Invalid? {
      return IndexNoSnapshot;
    }
    Q.IndexHardFailuresInvalidate(c, now);
    var built := B.BuildIndex(c.quote, c.bar, c.depth);
    e := if built.Ok? then IndexEmitted(built.value) else IndexFailed(false);
  }
}
