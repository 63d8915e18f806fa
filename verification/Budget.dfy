/** Token and money budget of one agent run, persisted per month and role (src/trading/ai/budget.py,
    src/trading/storage/trading_store.py:747-807). Every charge rounds the running total to four
    places; the ledger row is the prior spend plus this run's. The month does not change during a
    run. */
module Budget {
  import opened Decimals

  /** What one model turn reports; a negative count is read as zero. */
  datatype Usage = Usage(input: int, output: int)

  function Clip(n: int): nat { if n > 0 then n else 0 }

  /** The agent settings (src/trading/config/agent.py:34-44); `price` is the charge of one turn. */
  datatype Config = Config(enabled: bool, maxTokensPerRun: nat, monthlyBudget: real, price: Usage -> real) {
    ghost predicate Valid() { monthlyBudget >= 0.0 && forall u :: price(u) >= 0.0 }
  }

  /** The charge at given rupees per million tokens. */
  function RateCard(inputRate: real, outputRate: real): Usage -> real {
    (u: Usage) =>
      Clip(u.input) as real / 1000000.0 * inputRate + Clip(u.output) as real / 1000000.0 * outputRate
  }

  lemma RateCardIsValid(enabled: bool, maxTokens: nat, monthly: real, inputRate: real, outputRate: real)
    requires monthly >= 0.0 && inputRate >= 0.0 && outputRate >= 0.0
    ensures Config(enabled, maxTokens, monthly, RateCard(inputRate, outputRate)).Valid()
  {
    forall u: Usage ensures RateCard(inputRate, outputRate)(u) >= 0.0 {
      ProductNonNegative(Clip(u.input) as real / 1000000.0, inputRate);
      ProductNonNegative(Clip(u.output) as real / 1000000.0, outputRate);
    }
  }

  /** A million tokens cost the rate of their own kind, each kind is priced apart from the other, and a
      negative count costs nothing. */
  lemma RatesPriceTheirOwnTokens(inputRate: real, outputRate: real, u: Usage)
    ensures RateCard(inputRate, outputRate)(Usage(1_000_000, 0)) == inputRate
    ensures RateCard(inputRate, outputRate)(Usage(0, 1_000_000)) == outputRate
    ensures RateCard(inputRate, outputRate)(u) ==
              RateCard(inputRate, outputRate)(Usage(u.input, 0)) + RateCard(inputRate, outputRate)(Usage(0, u.output))
    ensures u.input <= 0 && u.output <= 0 ==> RateCard(inputRate, outputRate)(u) == 0.0
  {
  }

  lemma ProductNonNegative(a: real, b: real)
    requires a >= 0.0 && b >= 0.0
    ensures a * b >= 0.0
  {
  }

  /** `quantize(Decimal("0.0001"), ROUND_HALF_EVEN)`. */
  function FourPlaces(x: real): real { Quantize(x, 10_000) }

  /** Within half a unit of the last place, monotone, and still on what is already rounded. */
  lemma FourPlacesFacts(x: real, y: real)
    ensures -1.0 <= (FourPlaces(x) - x) * 20000.0 <= 1.0
    ensures x <= y ==> FourPlaces(x) <= FourPlaces(y)
    ensures FourPlaces(FourPlaces(x)) == FourPlaces(x)
    ensures FourPlaces(0.0) == 0.0
  {
    QuantizeError(x, 10_000);
    if x <= y { QuantizeMonotone(x, y, 10_000); }
    var n := Round(x * 10_000.0, HalfEven);
    RoundSpec(x * 10_000.0, n, HalfEven);
    QuantizeIs(x, n, 10_000);
    QuantizeExact(FourPlaces(x), n, 10_000);
    QuantizeExact(0.0, 0, 10_000);
  }

  /** Money after some turns: every charge rounds the running total to four places. */
  function Spend(c: Config, usage: seq<Usage>): real {
    if usage == [] then 0.0
    else FourPlaces(Spend(c, usage[..|usage| - 1]) + c.price(usage[|usage| - 1]))
  }

  /** The same without rounding. */
  function ExactCost(c: Config, usage: seq<Usage>): real {
    if usage == [] then 0.0 else ExactCost(c, usage[..|usage| - 1]) + c.price(usage[|usage| - 1])
  }

  function InputTokens(usage: seq<Usage>): nat {
    if usage == [] then 0 else InputTokens(usage[..|usage| - 1]) + Clip(usage[|usage| - 1].input)
  }

  function OutputTokens(usage: seq<Usage>): nat {
    if usage == [] then 0 else OutputTokens(usage[..|usage| - 1]) + Clip(usage[|usage| - 1].output)
  }

  /** The run or the month is over budget. */
  predicate Exhausted(c: Config, prior: real, usage: seq<Usage>) {
    InputTokens(usage) + OutputTokens(usage) > c.maxTokensPerRun || prior + Spend(c, usage) > c.monthlyBudget
  }

  // ------------------------------------------------------------------------ rounding

  lemma SpendOnGrid(c: Config, usage: seq<Usage>)
    ensures FourPlaces(Spend(c, usage)) == Spend(c, usage)
  {
    if usage == [] {
      FourPlacesFacts(0.0, 0.0);
    } else {
      FourPlacesFacts(Spend(c, usage[..|usage| - 1]) + c.price(usage[|usage| - 1]), 0.0);
    }
  }

  lemma SpendWith(c: Config, usage: seq<Usage>, u: Usage)
    ensures Spend(c, usage + [u]) == FourPlaces(Spend(c, usage) + c.price(u))
    ensures InputTokens(usage + [u]) == InputTokens(usage) + Clip(u.input)
    ensures OutputTokens(usage + [u]) == OutputTokens(usage) + Clip(u.output)
  {
    assert (usage + [u])[..|usage|] == usage;
  }

  /** A charge never lowers the spend, rounding included. */
  lemma SpendGrows(c: Config, usage: seq<Usage>, u: Usage)
    requires c.Valid()
    ensures Spend(c, usage + [u]) >= Spend(c, usage)
  {
    SpendWith(c, usage, u);
    SpendOnGrid(c, usage);
    FourPlacesFacts(Spend(c, usage), Spend(c, usage) + c.price(u));
  }

  lemma {:induction false} SpendNonNegative(c: Config, usage: seq<Usage>)
    requires c.Valid()
    ensures Spend(c, usage) >= 0.0
  {
    if usage != [] {
      var n := |usage| - 1;
      SpendNonNegative(c, usage[..n]);
      SpendGrows(c, usage[..n], usage[n]);
      assert usage == usage[..n] + [usage[n]];
    }
  }

  /** Half a ten-thousandth of a rupee of error for each charge, and no more. */
  lemma {:induction false} SpendError(c: Config, usage: seq<Usage>)
    ensures -(|usage| as real) <= (Spend(c, usage) - ExactCost(c, usage)) * 20000.0 <= |usage| as real
  {
    if usage != [] {
      var front, u := usage[..|usage| - 1], usage[|usage| - 1];
      SpendError(c, front);
      FourPlacesFacts(Spend(c, front) + c.price(u), 0.0);
    }
  }

  // -------------------------------------------------------------------------- ledger

  datatype Key = Key(month: string, role: string)

  datatype Row = Row(spent: real, input: int, output: int)

  /** The persisted table; a missing row reads as zero spend. */
  class Ledger {
    var rows: map<Key, Row>

    constructor ()
      ensures rows == map[]
    {
      rows := map[];
    }

    function Get(key: Key): Row
      reads this
    {
      if key in rows then rows[key] else Row(0.0, 0, 0)
    }

    method Upsert(key: Key, row: Row)
      modifies this
      ensures rows == old(rows)[key := row]
    {
      rows := rows[key := row];
    }
  }

  class TokenBudget {
    const config: Config
    const key: Key
    const store: Ledger?
    var inputTokens: nat
    var outputTokens: nat
    var spent: real
    const prior: Row
    /** The turns charged so far. */
    ghost var usage: seq<Usage>

    ghost predicate Valid()
      reads this, store
    {
      && spent == Spend(config, usage)
      && inputTokens == InputTokens(usage) && outputTokens == OutputTokens(usage)
      && (store != null && usage != [] ==>
            store.Get(key) == Row(prior.spent + spent, prior.input + inputTokens, prior.output + outputTokens))
      && (store != null && usage == [] ==> store.Get(key) == prior)
    }

    constructor (config: Config, key: Key, store: Ledger?)
      ensures Valid() && usage == [] && this.config == config && this.key == key && this.store == store
      ensures prior == if store == null then Row(0.0, 0, 0) else store.Get(key)
    {
      this.config, this.key, this.store := config, key, store;
      inputTokens, outputTokens, spent, usage := 0, 0, 0.0, [];
      prior := if store == null then Row(0.0, 0, 0) else store.Get(key);
    }

    /** Applies one turn and says whether run and month are still within budget; the ledger row
        becomes the prior spend plus this run, and no other row moves. */
    method Charge(input: int, output: int) returns (ok: bool)
      requires Valid()
      modifies this, store
      ensures Valid() && usage == old(usage) + [Usage(input, output)]
      ensures ok <==> !Exhausted(config, prior.spent, usage)
      ensures store != null ==> store.rows == old(store.rows)[key := store.Get(key)]
    {
      var u := Usage(input, output);
      SpendWith(config, usage, u);
      inputTokens := inputTokens + Clip(input);
      outputTokens := outputTokens + Clip(output);
      spent := FourPlaces(spent + config.price(u));
      usage := usage + [u];
      if store != null {
        store.Upsert(key, Row(prior.spent + spent, prior.input + inputTokens, prior.output + outputTokens));
      }
      if inputTokens + outputTokens > config.maxTokensPerRun {
        return false;
      }
      return prior.spent + spent <= config.monthlyBudget;
    }
  }

  // ------------------------------------------------------------- runs within one month

  function TotalSpend(c: Config, runs: seq<seq<Usage>>): real {
    if runs == [] then 0.0 else TotalSpend(c, runs[..|runs| - 1]) + Spend(c, runs[|runs| - 1])
  }

  function TotalExact(c: Config, runs: seq<seq<Usage>>): real {
    if runs == [] then 0.0 else TotalExact(c, runs[..|runs| - 1]) + ExactCost(c, runs[|runs| - 1])
  }

  function ChargeCount(runs: seq<seq<Usage>>): nat {
    if runs == [] then 0 else ChargeCount(runs[..|runs| - 1]) + |runs[|runs| - 1]|
  }

  /** Consecutive readings of one ledger row around runs that each add their own spend. */
  predicate Chained(c: Config, runs: seq<seq<Usage>>, readings: seq<real>) {
    && |readings| == |runs| + 1
    && forall k | 0 <= k < |runs| :: readings[k + 1] == readings[k] + Spend(c, runs[k])
  }

  lemma ChainedWith(c: Config, runs: seq<seq<Usage>>, readings: seq<real>, run: seq<Usage>, reading: real)
    requires Chained(c, runs, readings) && reading == readings[|runs|] + Spend(c, run)
    ensures Chained(c, runs + [run], readings + [reading])
  {
  }

  /** Over the runs of a month the row is the sum of all charges, at most half a ten-thousandth
      of a rupee per charge away from their exact cost, and it never falls. */
  lemma {:induction false} LedgerIsSumOfCharges(c: Config, runs: seq<seq<Usage>>, readings: seq<real>)
    requires c.Valid() && Chained(c, runs, readings)
    ensures readings[|runs|] == readings[0] + TotalSpend(c, runs)
    ensures -(ChargeCount(runs) as real) <= (readings[|runs|] - readings[0] - TotalExact(c, runs)) * 20000.0
                                         <= ChargeCount(runs) as real
    ensures readings[0] <= readings[|runs|]
  {
    if runs != [] {
      var n := |runs| - 1;
      assert Chained(c, runs[..n], readings[..n + 1]);
      LedgerIsSumOfCharges(c, runs[..n], readings[..n + 1]);
      SpendError(c, runs[n]);
      SpendNonNegative(c, runs[n]);
    }
  }

  lemma {:induction false} ReadingsRise(c: Config, runs: seq<seq<Usage>>, readings: seq<real>, i: nat, k: nat)
    requires c.Valid() && Chained(c, runs, readings) && i <= k <= |runs|
    ensures readings[i] <= readings[k]
    decreases k
  {
    if i < k {
      ReadingsRise(c, runs, readings, i, k - 1);
      SpendNonNegative(c, runs[k - 1]);
    }
  }
}
