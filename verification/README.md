# Trading stack: models and proofs

A Dafny 4.11 model of the deterministic layers of a trading stack: the search for option contracts,
the snapshot quality gate, fill and score accounting, calibration and improvement pipelines, policy
state machines, the budgeted agent loop, replay, stress, expiry selection, ids and back-fills. Each
module models one source file or one component, in the form the source has it: loops and mutable
objects are methods and classes proved against specification functions, pure code is functions with
lemmas about them. `dafny verify dfyconfig.toml` checks the whole project.

Decimals are exact reals; every `quantize` and every rounding mode is written out (`Decimals`).
Instants are integers (microseconds or seconds), dates are Gregorian dates or their day numbers,
strings compare by code point, `sorted` is a stable sort (`Ordering`), a `setdefault` dictionary is
an insertion-ordered list of groups (`Grouping`).

## How it is organised

- **Contract search.** `Contracts`, `Scoring` and `Search` say without loops what each binder looks
  for: admissible leg tuples, their quantized score, the lexicographic optimum. `Enumeration` and
  `Binders` hold the nested loops and the sort, proved to return that optimum. `FeedOrder` and
  `Refusals` say exactly when the answer depends on the feed order and when its score is refused.
  `Payoff` turns the inequality checks into profit and loss at every settlement price, `Direction` says
  which way what is bound bets, `Terms` what it costs, holds and scores, and `Preference` what each
  observation of a candidate does for its score. `Calendar`, `Expiry` and `LongOption` cover the weekly long
  option from expiry to contract.
- **Data.** `Quality` shows the gate’s chain of merges to be a lattice meet, and `QualityReasons` says
  on receive times and contents when each reason is held; `Prices`,
  `SnapshotBuilder` and `Cycle` relate the two separately written price resolutions. `Replay`
  recovers fetch cycles from receive times, `Backfill` tiles look-backs.
- **Analytics.** `Primitives`, `Fills`, `Equity` and `Scorecard` go from tick grid to scorecard;
  `Counterfactual` and `BreakoutStudy` account for what the agent adds; `Judgment` for calibration;
  `Promotion` for improvement records; `Stress` for the tail budget.
- **Agents.** `Invalidation` and `Terminal` are the one-way door over arbitrary runs; `Budget` and
  `Runtime` the tool loop against an arbitrary model; `Ids` the identifiers.

## Findings

The model follows the code. These behaviours are modelled as they are. Where a natural property fails
because of one, its exact condition is proved, and an input at which it fails.

- The condor’s score has an unbounded wing penalty, and the binding model refuses scores outside
  [0, 1]: a condor request is refused exactly when every condor on offer is lopsided
  (`Refusals.BindRefusesExactly`, `Refusals.RefusedFeed`).
- The long butterfly’s spacing test admits a zero width when a contract is listed under three
  symbols (`Binders.ZeroWidthIffOneContract`). Such copies follow the feed order, so the binding is
  independent of it exactly when properly spaced structures outrank them
  (`FeedOrder.OrderFreeExactly`, `FeedOrder.CopiedFeedBindsBothWays`).
- When nothing binds, the reported reason is the first refused candidate’s, and independent of the
  feed order exactly when all refused candidates share one (`FeedOrder.ReasonOrderFreeExactly`).
- A bid-ask spread of exactly zero is scored as the widest one
  (`Scoring.NarrowerSpreadScoresHigher`, `Scoring.LockedBookScoresZero`).
- The index gate raises instead of reporting when warm-up is incomplete and some feed is fresh
  (`Quality.AssessIndex`, `Quality.ColdIndexIsRefused`).
- The builder can price an option row as spot where the gate sees no price
  (`SnapshotBuilder.ChainSpotIsSpot`, `SnapshotBuilder.BuilderPricesWhereGateDoesNot`); it never does
  on a cycle the gate lets through.
- The gate on a missing agent Brier score can never fire (`Judgment.AgentGateNeverFires`).
- A second promotion pass grows the occurrences of a supporting record exactly when its promoted
  claim has another active row; only statuses are a fixpoint (`Promotion.SecondPassChanges`,
  `Promotion.SecondPassDoubles`). The store keeps one row per area and claim (schema.sql:189-190),
  so it lists two rows of one claim only under two areas; the function itself accepts any rows.
- A legging delay leaves a bid unshifted when the shift would go negative (`Fills.AdverseQuoteIsExact`,
  `Fills.ShallowBidStays`).
- Conservative fills are not pessimistic for an exit on the entry’s own side over a coarser tick
  (`Fills.SlippageCostSign`, `Fills.SameSideExitFlatters`).
- The simulator never produces a partial fill, so the partial fill rate is always zero
  (`Scorecard.AttemptsBalance`).
- The per-case alpha of the breakout study counts a stopped winner as a saving
  (`BreakoutStudy.CaseAlphasOverstate`, `BreakoutStudy.StoppedWinnerCountsAsSaving`).
- A month already over its budget still pays for exactly one model call per enabled run
  (`Runtime.ExhaustedMonthMakesOneCall`).
- A refused expiry selection reports the 0/1-day ban even when other days were refused for another
  cause, although the method’s documentation says “solely”: exactly without the fallback, when next
  week has no day to offer (`Expiry.BlamedForMoreExactly`, `Expiry.BanIsBlamedForFebruary`).
- The weekday tests of the monthly-contract rule cancel (`Calendar.MonthlyIsLastSevenDays`).
- Sequential ids stop being sorted when the counter outgrows its width (`Ids.NextIdRisesWhen`,
  `Ids.OrderBreaksAtTheLimit`).

## Model

| member | source | states |
|---|---|---|
| FeedOrder.BestUnique | src/trading/identification/binders.py:219-241 | With distinct symbols the best admissible leg tuple, by quantized score and then symbols, is one tuple for every order of the feed, wherever properly spaced structures outrank copies of one contract. |
| FeedOrder.FeedOrderIrrelevant | src/trading/identification/binders.py:185-270 | There, two answers to one request over permuted feeds bind the same legs with the same score, or both bind nothing and reject the same symbols, for the same reason if all refused candidates share one. |
| FeedOrder.ReasonOrderFreeExactly | src/trading/identification/binders.py:2136-2146 | The reason reported when nothing binds is the same for every order of the candidates exactly when all refused ones are refused for one reason. |
| FeedOrder.NothingToOutrank | src/trading/identification/binders.py:1096-1116 | That condition holds outright for every structure but the long butterfly, and for it where no three usable candidates of the side are one contract. |
| FeedOrder.OrderFreeExactly | src/trading/identification/binders.py:1096-1162 | A search ignores the order of its feed if and only if a properly spaced structure outranks every triple of usable copies of one contract, in whichever order. |
| FeedOrder.CopiesFollowTheFeed | src/trading/identification/binders.py:1096-1162 | Copies that nothing outranks are bound under one order of the feed and not under another. |
| FeedOrder.CopiedFeedBindsBothWays | src/trading/identification/binders.py:1096-1116 | A feed of three symbols of one contract binds in the order listed, so reversing the feed changes the binding. |
| Search.SelectedAndRejectedPartition | src/trading/identification/binders.py:241-262 | Selected and rejected symbols of a bound structure are, as multisets, exactly the symbols of the feed. |
| Search.LegsDiffer | src/trading/identification/binders.py:538-565 | No admissible structure uses one candidate twice. |
| Refusals.RefusedExactly | src/trading/identification/binders.py:566-639 | Over valid books a search ends in a score the binding model refuses exactly when it looks for a condor, some condor is admissible, and in every one the wing mismatch exceeds a thousand times the mean leg score by more than 0.0005, the edge of the half-even rounding. |
| Refusals.BindRefusesExactly | src/trading/domain/contracts/identification.py:107-116 | The same for what a request returns: only the condor family is ever refused, and exactly on the feeds whose every condor is that lopsided. |
| Refusals.LopsidedFeedIsRefused | src/trading/identification/binders.py:566-639 | A range-bound feed whose only condor has wings at least 1001 points apart in width is refused whatever its legs are worth. |
| Refusals.RefusedFeed | src/trading/identification/binders.py:566-639 | Puts at 100 and 2000 with calls at 3000 and 3001 are such a feed. |
| Scoring.CandidateScoreInUnit | src/trading/identification/binders.py:1745-1796 | Over a valid book a candidate score is in [0, 1] for every universe, delta range and observed series. |
| Scoring.CandidateScoreSameMembers | src/trading/identification/binders.py:1745-1921 | A candidate score depends on the members of the universe and not on their order. |
| Scoring.NarrowerSpreadScoresHigher | src/trading/identification/binders.py:1785-1796 | A narrower spread scores at least as high as a wider one exactly unless it is zero while the wider one is positive and below the limit. |
| Scoring.LockedBookScoresZero | src/trading/identification/binders.py:1785-1796 | A book with bid and ask at one price gets the lowest spread score. |
| Scoring.NearerTheMiddleScoresHigher | src/trading/identification/binders.py:1763-1776 | Of two deltas the one nearer the middle of the range scores higher exactly if it lies inside a range that has an inside. |
| Preference.RefusalNamesTheFirstFault | src/trading/identification/binders.py:1606-1650 | What each gate reason says of the candidate, on its fields alone, and so exactly what a candidate that passes has; the gates are tried in one order. |
| Preference.SpreadInMiddles | src/trading/identification/binders.py:2122-2128 | A spread is the width of a two-sided book in units of its middle, and there is one exactly for a book with two sides and a positive middle. |
| Preference.DeltaIsSignBlind | src/trading/identification/binders.py:2107-2119 | A delta is in a range by its size, whatever its sign, and a missing one never is. |
| Preference.DaysLieInAWindow | src/trading/identification/binders.py:1653-1661 | The days to expiry must lie in one of two closed windows. |
| Preference.LargestHasTheWholeShare | src/trading/identification/binders.py:2130-2133 | The largest open interest, or volume, of a universe has the whole share. |
| Preference.DeltaInProportion | src/trading/identification/binders.py:1763-1776 | Full marks in the middle of the delta range, none at or beyond its ends, in proportion between. |
| Preference.DaysInProportion | src/trading/identification/binders.py:1777-1782 | Weekly contracts aim at 8 days and others at 28, in proportion to the distance. |
| Preference.SpreadInProportion | src/trading/identification/binders.py:1783-1785 | A positive spread costs its part of the widest one allowed, and beyond that everything. |
| Preference.BestButForHalfTheSpread | src/trading/identification/binders.py:1745-1796 | A candidate that leads its universe in every observation and has half the widest spread has a base score of nine tenths. |
| Preference.OpenInterestWeighs | src/trading/identification/binders.py:1786-1791 | Between candidates that differ in open interest alone, the base scores differ by seven fortieths of the difference of their shares. |
| Preference.VolatilityAgainstTheMoney | src/trading/identification/binders.py:1826-1838 | A long leg has full marks for volatility up to the money’s and none from twice it; a short leg is best at 1.1 times the money’s and loses alike on both sides. |
| Preference.VolatilityAgainstTheRealized | src/trading/identification/binders.py:1866-1878 | A long leg prefers volatility below what was realized and a short leg above it, in proportion. |
| Preference.SkewFavoursItsOwnSide | src/trading/identification/binders.py:1841-1851 | Calls are favoured exactly under a positive skew, and puts under its negative. |
| Preference.CheapestExpiryIsFavoured | src/trading/identification/binders.py:1854-1863 | The cheapest expiry has full marks, and another the cheapest one’s part of its own volatility. |
| Preference.DeepestIsFavoured | src/trading/identification/binders.py:1881-1894 | The thinner displayed side is scored in proportion to the deepest displayed. |
| Preference.BothGreeksCountAlike | src/trading/identification/binders.py:1897-1920 | A candidate with theta and vega has the mean of the marks it would have with either alone. |
| Preference.MostDecayScoresLowest | src/trading/identification/binders.py:1897-1920 | The candidate of a universe with the largest theta has the lowest mark for it. |
| Preference.MostVegaScoresHighest | src/trading/identification/binders.py:1897-1920 | The candidate with the largest vega has the highest mark for it. |
| Preference.MissingSeriesAreLeftOut | src/trading/identification/binders.py:1799-1823 | A missing series is left out of the mean wherever it stands among the others. |
| Preference.AnySeriesTilts | src/trading/identification/binders.py:1799-1823 | A tilt exists exactly if one of the six series was observed. |
| Preference.TiltIsAFifth | src/trading/identification/binders.py:1792-1796 | The observed tilt moves a fifth of the score; without one the base is only rounded, by at most half of the sixth place. |
| Terms.PerLot | src/trading/identification/binders.py:1680-1742 | Per lot a debit is the ask of the long leg less the bid of the short one plus the round trip, and a credit the opposite. |
| Terms.DebitPairExactly | src/trading/identification/binders.py:1680-1707 | A debit pair passes exactly with one expiry, the strikes in the order of its side, the quotes it needs, and a cost above zero and below the width that the best gain covers by the required multiple. |
| Terms.CreditPairExactly | src/trading/identification/binders.py:1710-1742 | A credit pair passes exactly in the mirror image, with what it risks at most the cap, four unless given, times what it brings in. |
| Terms.DebitDeltas | src/trading/identification/binders.py:1664-1677 | The legs of a debit spread have their deltas in the policy’s long and short range. |
| Terms.ExpiryIsKnown | src/trading/identification/binders.py:291-294 | The legs of every other structure but a vertical share an expiry that is known. |
| Terms.OneSidedHoldings | src/trading/identification/binders.py:1058-1162 | The lots of a vertical and of a long butterfly are those of the payoffs proved for them. |
| Terms.TwoSidedHoldings | src/trading/identification/binders.py:468-639 | The lots of short wings are worth minus what is owed on them, and a straddle or strangle is never worth less than nothing. |
| Terms.ScoreIsTheMeanOfItsLegs | src/trading/identification/binders.py:219-240 | A structure scores the mean of its legs, what is sold in the short role and what is bought in the long one, each against its own delta range; a condor also loses a thousandth per point of wing mismatch. |
| Terms.NothingScoresHigher | src/trading/identification/binders.py:219-241 | No structure on offer scores higher than what is bound, to six places, nor equally under lesser leg symbols. |
| Enumeration.Pairs | src/trading/identification/binders.py:371-410 | The i < j loop collects a tuple exactly as often as there are pairs of positions arranged into it. |
| Enumeration.Triples | src/trading/identification/binders.py:1096-1122 | The same for i < j < k. |
| Enumeration.PairsOfPairs | src/trading/identification/binders.py:538-610 | The same for two puts and two calls. |
| Enumeration.Product | src/trading/identification/binders.py:185-218 | The two-list loop collects a tuple exactly as often as there are pairs, one from each list, arranged into it. |
| Binders.SearchDebit | src/trading/identification/binders.py:176-218 | The debit loop collects exactly the admissible debit pairs, each once when symbols are distinct. |
| Binders.SearchCredit | src/trading/identification/binders.py:297-410 | The credit loop with its ordering helper collects exactly the admissible credit pairs, each once when symbols are distinct. |
| Binders.SearchVolatility | src/trading/identification/binders.py:1196-1228 | The straddle and strangle loop collects exactly the admissible put and call pairs, each once when symbols are distinct. |
| Binders.SearchWings | src/trading/identification/binders.py:533-610 | The four-leg loops of condor and iron butterfly collect exactly the admissible wings, each once when symbols are distinct. |
| Binders.SearchButterfly | src/trading/identification/binders.py:1089-1122 | The three-leg loop with its strike sort collects exactly the evenly spaced triples, each once when symbols are distinct. |
| Binders.ZeroWidthIffOneContract | src/trading/identification/binders.py:1100-1116 | An evenly spaced butterfly has zero width exactly when its three legs are one contract under three symbols. |
| Binders.Select | src/trading/identification/binders.py:219-270 | Sorting the collected rows and taking the head returns an optimum over all admissible tuples, or the refusal exactly when there is none. |
| Binders.Bind | src/trading/identification/binders.py:167-270 | For the debit, credit, condor, iron butterfly, long butterfly and straddle or strangle families: past the master and market gates the answer is the brute-force lexicographic optimum of the search space; otherwise the gate’s refusal. Which way the answer bets, and when a market has none, is stated without those gates in the `Direction` rows below. |
| Direction.DebitFollowsTheTrend | src/trading/identification/binders.py:2004-2009 | Over settlements: a bound debit spread is of calls and gains as the underlying rises in an uptrend, of puts and gains as it falls in a downtrend, whatever was paid, and never bound without a trend. |
| Direction.CreditFollowsTheTrend | src/trading/identification/binders.py:273-288 | A bound credit spread gains the same way with puts in an uptrend and calls in a downtrend; each directional kind binds only in its own trend. |
| Direction.VolatilityPaysBothWays | src/trading/identification/binders.py:1165-1263 | A bound straddle or strangle pays by how far the settlement leaves its strikes, one strike exactly for a straddle. |
| Direction.CondorKeepsInside | src/trading/identification/binders.py:468-639 | A condor is bound in a range only; its strikes rise from bought put to bought call, and nothing is owed exactly while the settlement stays between the two sold strikes. |
| Direction.IronButterflyKeepsAtOneStrike | src/trading/identification/binders.py:715-840 | A short iron butterfly reports its bought legs first, and owes nothing at its one sold strike alone. |
| Direction.ButterflyPaysInside | src/trading/identification/binders.py:1058-1162 | A long butterfly is bound in a range only, of the side asked for, is worth something exactly between its outer strikes and most at the middle one. |
| Direction.UnboundExactly | src/trading/identification/binders.py:167-185 | A request binds nothing exactly if no candidate is in the master, the market does not suit the family, or no structure is admissible; the first two are reported first, with their own reasons. |
| FeedOrder.BindingIgnoresFeedOrder | src/trading/identification/binders.py:185-270 | Wherever copies are outranked a permuted feed gives the same binding, master filter included; when nothing binds only the reported reason may differ. |
| Binders.BindingPartitionsTheFeed | src/trading/identification/binders.py:1288-1299 | A bound request, master filter included, splits the whole feed’s symbols into selected and rejected. |
| Payoff.DebitRange | src/trading/identification/binders.py:1680-1707 | A vertical is worth between zero and its width at every settlement, and both ends are reached. |
| Payoff.DebitCheckMeansPayoff | src/trading/identification/binders.py:1694-1707 | The debit inequality holds exactly when P&L over all settlements lies in [-debit, width - debit] with both ends reached, a loss possible and the best gain at least the minimum reward-to-risk times the worst loss. |
| Payoff.CreditCheckMeansPayoff | src/trading/identification/binders.py:1710-1742 | The credit inequality holds exactly when P&L lies in [credit - width, credit], both ends reached, and the worst loss is within the cap times the credit. |
| Payoff.AdmissibleVerticalsAreBounded | src/trading/identification/binders.py:1680-1742 | Every pair a vertical binder may choose has those bounds at every settlement price. |
| Payoff.WingsNeverOweMoreThanTheWiderWing | src/trading/identification/binders.py:557-563 | A condor or iron butterfly owes between zero and its wider wing at every settlement, and reaches it. |
| Payoff.ButterflyValueBounded | src/trading/identification/binders.py:1100-1116 | An evenly spaced long butterfly is worth between zero and its width at every settlement. |
| Calendar.BeforeIsOrdinalOrder | src/trading/identification/calendar.py:305-311 | Comparing dates field by field is comparing their Gregorian day numbers, which identify them. |
| Calendar.PlusWeekIsSevenDays | src/trading/identification/calendar.py:267-272 | Adding a week across month and year ends is seven day numbers. |
| Calendar.MonthlyIsLastSevenDays | src/trading/identification/calendar.py:278-283 | The monthly-contract test holds on exactly the last seven days of a month; its two weekday tests cancel. |
| Calendar.ExactlyOneLastThursday | src/trading/identification/calendar.py:267-272 | Every Gregorian month has exactly one last Thursday. |
| Calendar.OrdinalRoundTrip | src/trading/identification/calendar.py:305-311 | Day numbers and dates are one to one. |
| Expiry.FollowingWeek | src/trading/identification/calendar.py:260-265 | The following week starts on a Monday 1 to 7 days ahead and its Thursday is 4 to 10 days out, beyond the 0/1-day ban. |
| Expiry.WeekOfADay | src/trading/identification/calendar.py:260-265 | A day is in the following week exactly if its own week starts on that week’s Monday. |
| Expiry.TodayAndTomorrowAreBanned | src/trading/identification/calendar.py:313-330 | Every day is past, today or tomorrow, or eligible; an eligible one is in, after or before the following week. |
| Expiry.SelectIsChosen | src/trading/identification/calendar.py:285-422 | For every listing and date the selected expiry is exactly the declared one (listed, two or more days out, next week’s Thursday or else that week’s earliest, with the fallback the nearest later or else the latest earlier day); with the fallback something is selected exactly when any listed day is two or more days out. |
| Expiry.SelectIgnoresOrder | src/trading/identification/calendar.py:305-311 | Order and repeats of the listing change no part of the selection. |
| Expiry.RefusalReason | src/trading/identification/calendar.py:400-422 | By what is listed alone: something is selected exactly when next week has a day two or more days out, or with the fallback any listed day is; a refusal names the 0/1-day ban exactly when such a day is listed. |
| Expiry.BlamedForMoreExactly | src/trading/identification/calendar.py:400-411 | The ban is named although an unbanned day is listed exactly without the fallback, when next week has none and a banned day is listed; with the fallback the documented “solely” always holds. |
| Expiry.BanIsBlamedForFebruary | src/trading/identification/calendar.py:400-411 | On New Year’s Day 2024, with 2 January and 1 February listed and no fallback, the ban is named although February does not fall under it. |
| Expiry.SelectedFacts | src/trading/identification/calendar.py:305-352 | A selected expiry is at least two days out; the holiday mark is set exactly when the week’s Thursday is a holiday, even if that Thursday was selected. |
| Expiry.MonthlyFlag | src/trading/identification/calendar.py:330-352 | The monthly mark is set exactly on the last seven days of a month. |
| LongOption.PickClosest | src/trading/identification/binders.py:2093-2104 | The chosen survivor is one that no other survivor beats on distance to delta 0.55 and then on symbol. |
| LongOption.BindLongOption | src/trading/identification/binders.py:1302-1457 | The answer is the refusal of the first failed stage, or the closest survivor of the first pass that has survivors, with its score, fallback mark and rejected symbols. |
| LongOption.BoundIsTheClosest | src/trading/identification/binders.py:1340-1395 | A bound contract is of the side the trend selects (Direction.LongOptionFollowsTheTrend says which way that pays), at the expiry the calendar selects and two or more days out; it passes the pass it was found in and nothing passing is closer to the target; the looser pass is used exactly when no contract of that expiry passes the strict one. |
| Direction.LongOptionFollowsTheTrend | src/trading/identification/binders.py:2004-2009 | The payoff of a bound long option gains as the underlying rises in an uptrend and as it falls in a downtrend; without a trend none is bound. |
| LongOption.BoundMeetsItsLimits | src/trading/identification/binders.py:2012-2090 | What is bound meets the open interest, spread, days and delta limits of its pass: the discovery profile’s, or without one a delta from 0.45 to 0.65 and the policy’s own limits. |
| LongOption.NoneIsNearer | src/trading/identification/binders.py:2093-2104 | No contract of the same side and expiry within those limits has a delta nearer 0.55, nor one as near under an earlier symbol. |
| LongOption.RefusedBeforeTheSearch | src/trading/identification/binders.py:1314-1360 | A master without any candidate, a missing trend and a missing expiry end the request with their own reasons. |
| LongOption.BoundScoreInUnit | src/trading/identification/binders.py:1406-1412 | Its score is one the binding model accepts. |
| LongOption.LongOptionIgnoresFeedOrder | src/trading/identification/binders.py:1302-1457 | A permuted feed of distinct symbols gives the same binding. |
| Judgment.Brier | src/trading/analytics/judgment.py:172-186 | The loop returns the rounded mean squared miss of the usable forecasts, or nothing when there are none. |
| Judgment.Reliability | src/trading/analytics/judgment.py:189-217 | The bucket dictionary yields the weighted squared gap between mean confidence and mean outcome per bucket. |
| Judgment.MurphyDecomposition | src/trading/analytics/judgment.py:172-217 | For any bucketing, summed squared misses equal the reliability gaps plus the scatter inside the buckets. |
| Judgment.AnyBucketsStayBelowBrier | src/trading/analytics/judgment.py:172-217 | For any bucketing of any forecasts the rounded reliability is never negative and never above the rounded Brier score. |
| Judgment.ReliabilityNeverExceedsBrier | src/trading/analytics/judgment.py:117-130 | So it is for the reported pair on the same rows; one is reported exactly when the other is. |
| Judgment.Calibrate | src/trading/analytics/judgment.py:117-130 | The same through the labelled-row filter, for set-up and agent confidences. |
| Judgment.EvaluateJudgment | src/trading/analytics/judgment.py:54-163 | The counts are counts of signals: labelled are those not declined with both excursions known, worth entering those whose excursion net of charges clears the minimum and, where asked, the adverse one; TP + FP = entered, TP + FN = should-enter, should-enter + should-pass = labelled, rates and scores over those signals. |
| Judgment.LabelMeans | src/trading/analytics/judgment.py:38-51 | A signal is labelled should-enter exactly if its favourable excursion covers the charges and the minimum and, where required, exceeds the adverse one plus charges. |
| Judgment.RowsCountSignals | src/trading/analytics/judgment.py:54-116 | Every count over the labelled rows is the count of the signals with that property. |
| Judgment.RowsForecastSignals | src/trading/analytics/judgment.py:117-130 | The forecasts scored are the confidences of the labelable signals against whether they were worth entering, in order. |
| Judgment.ChargesNeverHelp | src/trading/analytics/judgment.py:38-51 | Higher charges never raise the number of signals worth entering. |
| Judgment.AgentGateNeverFires | src/trading/analytics/judgment.py:127-142 | The gate for a missing agent Brier score is dead: one labelled row with an agent confidence always yields a score. |
| Grouping.GroupByTotal | src/trading/analytics/improvements.py:64-93 | Grouping rows into an insertion-ordered dictionary conserves every total. |
| Grouping.GroupByMembers | src/trading/analytics/improvements.py:64-93 | Under each key the dictionary holds exactly that key’s rows in order. |
| Promotion.ClusterImprovements | src/trading/analytics/improvements.py:64-93 | The loops and the final sort build the clusters of the specification. |
| Promotion.RefusedRowsCountForNothing | src/trading/analytics/improvements.py:68-72 | Without a rejected or stale record the clusters are the same. |
| Promotion.OtherRowsCount | src/trading/analytics/improvements.py:68-72 | Every other record of a claim is among the rows and ids of its cluster. |
| Promotion.ClusterFigures | src/trading/analytics/improvements.py:74-91 | Occurrences and cost of a cluster grow by each row’s own, and the rank is one times the other. |
| Promotion.HeadLeads | src/trading/analytics/improvements.py:78-78 | The row that names the area is the first of those seen most and, among them, opened last. |
| Promotion.ClustersFallInRank | src/trading/analytics/improvements.py:92-93 | Clusters come out in falling rank, and among equal ranks by falling occurrences. |
| Promotion.ClustersAreTheClaims | src/trading/analytics/improvements.py:64-93 | There is exactly one cluster per claim with active rows, holding those rows in order. |
| Promotion.OccurrencesConserved | src/trading/analytics/improvements.py:64-93 | Cluster occurrences add up to the occurrences of the active records. |
| Promotion.PromoteImprovements | src/trading/analytics/hypothesis_promotion.py:157-229 | The loops over sets and dictionaries return the specification’s hypotheses, notes and records. |
| Promotion.HypothesesAndNotesPartition | src/trading/analytics/hypothesis_promotion.py:190-199 | Every cluster becomes one hypothesis or one note, never both. |
| Promotion.PromotionPointwise | src/trading/analytics/hypothesis_promotion.py:157-229 | The pipeline does to each record exactly what a declarative per-record account says. |
| Promotion.PassKeepsRecords | src/trading/analytics/hypothesis_promotion.py:168-221 | Ids, claims and order are kept, terminal records are untouched, a status only advances from open to clustered or promoted and from clustered to promoted, no count shrinks. |
| Promotion.PromotedExactly | src/trading/analytics/hypothesis_promotion.py:54-86 | An active record of a promoted claim ends PROMOTED exactly when it is testable and not terminal, or was already promoted. |
| Promotion.SameClaimsPromoted | src/trading/analytics/hypothesis_promotion.py:54-86 | A second pass promotes the same claims although their counts have grown. |
| Promotion.StatusesAreAFixpoint | src/trading/analytics/hypothesis_promotion.py:157-229 | Running the pass on its own output changes no status. |
| Promotion.SecondPassChanges | src/trading/analytics/hypothesis_promotion.py:196-221 | A second pass changes a record exactly when it is active and supports a promoted claim that has at least two active rows; its occurrences grow again. |
| Promotion.SecondPassDoubles | src/trading/analytics/hypothesis_promotion.py:196-221 | Two records of one claim, seen once each, count two after one pass and four after two. |
| Quality.MergeIsMeet | src/trading/data/quality.py:213-231 | On reports that can exist merging is the meet of states and the union of reasons, and never fails. |
| Quality.MeetLaws | src/trading/data/quality.py:213-231 | That meet is associative, commutative and idempotent. |
| Quality.MeetAllPermutation | src/trading/data/quality.py:213-231 | Merging the same checks in another order gives the same verdict. |
| Quality.AssessCombined | src/trading/data/quality.py:425-622 | The chain of conditional merges never fails and ends at the meet of every check that fired; on receive times, limits and contents alone that verdict is stated in the three rows below. |
| QualityReasons.ReasonsExactly | src/trading/data/quality.py:425-622 | Each reason code is held exactly under its own condition on the events, their receive times and the limits. |
| QualityReasons.StateExactly | src/trading/data/quality.py:425-622 | The state is the worst that the held reasons stand for, and VALID without any. |
| QualityReasons.CombinedFreshness | src/trading/data/quality.py:69-106 | VALID implies every feed within half its limit; a filled feed beyond its limit forces STALE or worse with DATA_STALE, which is reported only then; one beyond half of it forces DEGRADED or worse. |
| Quality.ValidIffNoReasons | src/trading/data/quality.py:425-622 | The combined verdict is VALID exactly when no reason code is held against it. |
| Quality.HardFailuresInvalidate | src/trading/data/quality.py:440-520 | Incomplete warm-up, a missing price, an empty chain or a closed or unverified session always give INVALID. |
| Quality.StateNeverImproves | src/trading/data/quality.py:69-106 | With events and session verdict fixed, the state never improves as the clock advances. |
| Quality.MergeOrderIrrelevant | src/trading/data/quality.py:425-622 | Any order of the fired checks gives the gate’s verdict. |
| Quality.AssessIndex | src/trading/data/quality.py:268-422 | The index gate raises exactly when warm-up is incomplete while some feed is fresh (the report model refuses a VALID report without warm-up) and otherwise returns the meet of its checks; that meet is stated on receive times and contents in the three rows below. |
| QualityReasons.IndexReasonsExactly | src/trading/data/quality.py:268-422 | Each reason code of the index gate is held exactly under its own condition on the events. |
| QualityReasons.IndexStateExactly | src/trading/data/quality.py:268-422 | The state is the worst that the held reasons stand for. |
| QualityReasons.IndexFreshness | src/trading/data/quality.py:69-106 | The same freshness law for a report of the index gate. |
| Quality.ColdIndexIsRefused | src/trading/data/quality.py:268-289 | An index quote received just now with one bar behind it where two are required is such a cycle. |
| Quality.IndexStateNeverImproves | src/trading/data/quality.py:69-106 | Nor does the index verdict improve as the clock advances. |
| Quality.IndexHardFailuresInvalidate | src/trading/data/quality.py:268-422 | A missing index price or incomplete warm-up makes every report it returns INVALID. |
| SnapshotBuilder.ResolveSpot | src/trading/data/snapshot_builder.py:272-281 | The builder’s own loop over the chain rows returns its spot as specified. |
| SnapshotBuilder.WhatParses | src/trading/data/snapshot_builder.py:272-281 | Reading a price field fails exactly on true, on text that is no number and on a structure; a missing, empty or false field is zero. |
| SnapshotBuilder.Build | src/trading/data/snapshot_builder.py:272-334 | Source-by-source overwriting yields the builder’s last price, or the price error. |
| SnapshotBuilder.BuildIndex | src/trading/data/snapshot_builder.py:148-184 | The index path prices from quote and bar only and fails exactly when neither has a price. |
| SnapshotBuilder.ChainSpotIsSpot | src/trading/data/prices.py:39-49 | The builder’s spot is the gate’s chain price wherever the gate has one; where it has none they agree exactly unless the chain’s untyped row is not positive and the first row of the chain, the builder’s fallback, is. |
| SnapshotBuilder.BuilderPricesWhereGateDoesNot | src/trading/data/snapshot_builder.py:272-281 | A chain on which the gate finds no price and the builder prices an option row as spot. |
| CycleEmission.EmitCombined | src/trading/data/cycle.py:16-35 | When the combined gate is not INVALID the builder never raises for want of a price and its price is the gate’s; an INVALID cycle emits nothing. |
| CycleEmission.EmitIndex | src/trading/data/cycle.py:16-35 | On the index path the builder never fails on a cycle the gate lets through, and an emitted snapshot carries the gate’s price. |
| Invalidation.MissingExactly | src/trading/analytics/invalidation.py:53-90 | A condition is reported missing exactly when its metric, or the prior a crossing needs, was not observed; the raising branch is unreachable. |
| Invalidation.ThesisBreaksOnHardOnly | src/trading/analytics/invalidation.py:93-120 | A thesis breaks exactly when some HARD condition triggers, and its SOFT list is non-empty exactly when some SOFT one does. |
| Invalidation.ExactlyOneTriggers | src/trading/analytics/invalidation.py:23-41 | At one observation exactly one of LT, EQ and GT triggers, LTE exactly when GT does not, and GTE exactly when LT does not. |
| Invalidation.ThesisBreaksPastTheLevel | src/trading/analytics/invalidation.py:34-36 | A thesis with a HARD LT condition breaks once the metric is below its threshold, with a GT one once it is above, and if that is its only condition, only then. |
| Invalidation.CrossingMustFire | src/trading/analytics/invalidation.py:23-51 | A crossing condition fires somewhere on every consecutive trace that starts on one side of the threshold and ends on the other; the first firing step is returned. |
| Terminal.EvaluateEligibility | src/trading/ai/terminal_policy.py:52-92 | A reason is reported exactly when its condition fails, and none exactly when all seven hold. |
| Terminal.OnlyPrepaidMayRun | src/trading/ai/terminal_policy.py:36-49 | Of positions that meet the other conditions exactly the long options and debit spreads without assignment risk may run to expiry. |
| Terminal.Accept | src/trading/ai/terminal_policy.py:95-190 | Run-to-expiry is granted exactly to an eligible request for it and always carries run conditions; everything else falls back to a flatten that has a day count and remembers what was requested; the call raises exactly without eligibility facts. |
| Terminal.Enforce | src/trading/ai/terminal_enforcement.py:69-135 | A pass reverts exactly a running policy with a triggered or missing run condition: it is flattened at the day count in force, the exit days follow, the original request stays on record, the ids are those of the broken conditions, and the verdict says whether that day count was already reached. What makes a condition break is stated on observations in the three rows below. |
| Terminal.RevertsPastTheLevel | src/trading/ai/terminal_enforcement.py:69-135 | A running policy with an LT run condition reverts once the observed metric is below the threshold, with a GT one once it is above; if that is its only condition, only then; and with a crossing one as its only condition exactly on the step that crosses. |
| Terminal.RevertsBlindOnlyIfTold | src/trading/ai/terminal_enforcement.py:95-118 | A run whose only condition was not observed reverts exactly where missing data breaks it. |
| Terminal.FlattensAt | src/trading/ai/terminal_enforcement.py:179-184 | A reverted run flattens at its policy’s own day count, else at the position’s exit days, else one day out. |
| Terminal.TurnedAwayFor | src/trading/ai/terminal_enforcement.py:138-200 | Attaching, reverting and regranting are refused exactly for the named reason. |
| Terminal.PolicyOfItsOwnTrade | src/trading/trade/exits.py:448-466 | Along any run of steps a position only ever holds a policy of its own trade. |
| Terminal.DoorNeverReopens | src/trading/ai/terminal_enforcement.py:69-200 | Along any run of attach, enforce, revert and regrant steps, a flattened policy stays flattened, a frozen one is never dropped, and a run to expiry that ended never resumes. |
| Terminal.AtMostOneRevertReported | src/trading/ai/terminal_enforcement.py:69-135 | At most one step of a run reports a revert. |
| Terminal.FirstBreakReverts | src/trading/ai/terminal_enforcement.py:69-135 | Of the enforcement passes of a running policy, exactly the first with a triggered or missing run condition reports the revert; earlier ones change nothing. |
| Terminal.CrossingReverts | src/trading/ai/terminal_enforcement.py:69-135 | Polls that follow the metric of a running policy’s crossing condition from one side of the threshold to the other revert the policy: exactly one pass reports it and the policy ends flattened. |
| Terminal.RevertShutsTheDoor | src/trading/ai/terminal_enforcement.py:138-200 | After a revert the exit days are synced, the run conditions are gone and every regrant is refused at the one-way door. |
| Decimals.RoundSpec | src/trading/domain/primitives.py:73-79 | Each rounding mode determines one integer, the one the implementation returns. |
| Decimals.QuantizeError | src/trading/domain/primitives.py:122-130 | Quantizing moves a value by at most half a step. |
| Primitives.SnapLandsOnGrid | src/trading/domain/primitives.py:228-259 | Snapping fails exactly on a negative value and otherwise gives a price the constructor accepts. |
| Primitives.SnapIdempotent | src/trading/domain/primitives.py:243-259 | An on-grid price is moved by no mode. |
| Primitives.SnapMonotone | src/trading/domain/primitives.py:243-259 | Snapping is monotone in every mode. |
| Primitives.SnapWithinATick | src/trading/domain/primitives.py:243-259 | The result is within one tick in the named direction, within half a tick for half-even. |
| Primitives.SnapIsTightest | src/trading/domain/primitives.py:243-259 | Floor gives the highest grid price not above the value, ceiling the lowest not below it. |
| Primitives.TicksFromIsExact | src/trading/domain/primitives.py:284-287 | Tick distance between on-grid prices is exact despite the truncation, and adds up along a path. |
| Primitives.LotsRoundTrip | src/trading/domain/primitives.py:328-376 | Contracts convert to lots exactly when lots convert back to those contracts. |
| Fills.ConservativePriceIsExact | src/trading/analytics/fills.py:193-202 | The conservative price is exactly the slippage ticks beyond the book, never rounded, and missing exactly when a sale would go below zero. |
| Fills.SimulatedFillsAreValid | src/trading/domain/contracts/evaluation.py:105-123 | Every simulated fill meets its record’s validator with an on-grid price; with a known trade-through the simulator never raises. |
| Fills.ConservativeFillsExactly | src/trading/analytics/fills.py:50-124 | The conservative model fills exactly a priced order that was traded through where required with its whole quantity displayed; it raises exactly when it must compare a last price on another grid; a refusal names its cause. |
| Fills.FillFigures | src/trading/analytics/fills.py:105-166 | A simulated fill is of the whole quantity with a price, a slippage not below zero and charges exactly where a per-lot charge is known, or of nothing at all. |
| Fills.SlippageIsWhatWasGivenUp | src/trading/analytics/fills.py:221-228 | Slippage is the distance to a price worse than the limit, and nothing for one as good or better. |
| Fills.TouchFillsExactly | src/trading/analytics/fills.py:127-166 | Under touch an order fills exactly if it has a limit and a book, at the book’s price; without a limit it is rejected in either model. |
| Fills.ConservativeImpliesTouch | src/trading/analytics/fills.py:50-166 | A conservative fill implies the touch fill of the same quantity and charges at a price exactly the slippage ticks better. |
| Fills.ConservativeIsPessimistic | src/trading/analytics/scorecard.py:251-278 | A signal that closes conservatively closes under touch; its P&L is lower by exactly slippage ticks times (entry tick + exit tick) times quantity for opposite-side exits, and by the difference of the ticks for same-side ones. |
| Fills.SlippageCostSign | src/trading/analytics/scorecard.py:251-278 | That cost is never negative for opposite-side exits and zero exactly without slippage; on the same side it is non-negative exactly when there is no slippage or the entry tick is at least the exit tick. |
| Fills.SameSideExitFlatters | src/trading/analytics/scorecard.py:251-278 | A contract bought and then bought again on a coarser grid closes under both models, with the better P&L under the conservative one. |
| Fills.RoundTripsNeverFlatter | src/trading/analytics/scorecard.py:251-278 | For opposite-side exits the conservative P&L is never above the touch P&L, and equal exactly without slippage. |
| Fills.AdverseQuoteIsExact | src/trading/analytics/fills.py:231-245 | A legging delay moves only the side the leg trades on, by exactly the delay ticks, and leaves a bid that would go negative where it is; the book stays valid. |
| Fills.ShallowBidStays | src/trading/analytics/fills.py:241-244 | A bid of n ticks delayed by n + 1 is left where it is. |
| Fills.SimulateLegs | src/trading/analytics/fills.py:169-190 | Legs are filled in order, each later one against its delayed book. |
| Fills.LeggingNeverHelps | src/trading/analytics/fills.py:169-190 | A delayed leg that still fills would have filled at once for the same quantity at a price better by exactly its delay ticks. |
| Equity.MaxDrawdown | src/trading/analytics/scorecard.py:327-336 | The one-pass drawdown is the maximum of equity[i] - equity[j] over all i <= j, with equity starting at zero. |
| Equity.MaxDrawdownIsUnique | src/trading/analytics/scorecard.py:327-336 | That maximum is one number and not negative. |
| Equity.DrawdownOfAppend | src/trading/analytics/scorecard.py:327-336 | The drawdown of a concatenation is the largest of both drawdowns and the fall from the first peak to the second trough. |
| Equity.MaxConsecutiveLosses | src/trading/analytics/scorecard.py:339-347 | The streak counter equals the longest contiguous run of losing trades. |
| Equity.DrawdownAndProfitFactor | src/trading/analytics/breakout_evaluation.py:306-336 | The second implementation has the same drawdown, rounded, and a profit factor of gains and losses that differ by the total. |
| Equity.ProfitFactorMeans | src/trading/analytics/breakout_evaluation.py:328-336 | The factor is gains over losses to the nearest hundredth, a sentinel for gains without losses, and zero for neither. |
| Equity.Concentration | src/trading/analytics/scorecard.py:317-324 | The share is that of the largest absolute trade, nothing for no trades and zero when nothing moved. |
| Equity.ConcentrationBounds | src/trading/analytics/scorecard.py:317-324 | The share is in [0, 1], and with n trades the largest carries at least one n-th of the movement. |
| Scorecard.Score | src/trading/analytics/scorecard.py:95-138 | One signal adds to each running figure exactly what its decision says. |
| Scorecard.ReasonsCount | src/trading/analytics/scorecard.py:95-106 | A decline counts for its own reason only; otherwise every risk reason counts as given, and the rejection once if risk did not give it. |
| Scorecard.AttemptsBalance | src/trading/analytics/scorecard.py:231-244 | Filled + unfilled + rejected = attempted, PARTIAL stays zero, and only filled entries close. |
| Scorecard.ChargesArePerLot | src/trading/analytics/fills.py:248-253 | Total charges are the per-lot charge of every lot that changed hands, open entries included. |
| Scorecard.ConfirmedWhen | src/trading/analytics/scorecard.py:247-248 | Costs are confirmed exactly when the per-lot charge is verified or nothing filled. |
| Scorecard.BuildScorecard | src/trading/analytics/scorecard.py:73-154 | Every figure counts the cohort as specified; net is known exactly when costs are confirmed and is gross less that charge; drawdown and streak are the quadratic ones, concentration the largest trade’s share. |
| Counterfactual.EvaluateCounterfactuals | src/trading/analytics/counterfactual.py:66-117 | Six accumulators give the counts and the saved and missed parts of vetoes and of downscales, and net alpha is the total change of outcome for baselines of any sign. |
| BreakoutStudy.AlphaIsConserved | src/trading/analytics/breakout_evaluation.py:222-303 | Unrounded agent total = deterministic total + net alpha for every list of cases. |
| BreakoutStudy.CaseAlphasOverstate | src/trading/analytics/breakout_evaluation.py:261-303 | The sum of the per-case alphas is never below the net alpha, and equal exactly when no intervention stopped a winner. |
| BreakoutStudy.CaseOutcome | src/trading/analytics/breakout_evaluation.py:222-303 | Whatever the agent does it realizes its share of the deterministic result and is credited with the distance between the two; it trades exactly with a positive share: all of a true breakout, three tenths of every fourth fake. |
| BreakoutStudy.StoppedWinnerCountsAsSaving | src/trading/analytics/breakout_evaluation.py:261-303 | A vetoed fake that would have won one R reports an alpha of plus one where the net alpha is minus one. |
| BreakoutStudy.TradesAreConserved | src/trading/analytics/breakout_evaluation.py:382-413 | Every signalled case is either vetoed or traded by the agent. |
| BreakoutStudy.RunScenarioStudy | src/trading/analytics/breakout_evaluation.py:339-440 | The study raises exactly on no cases; the two reported totals reconcile with the net alpha within one cent of rounding; drawdowns and profit factors are those of the two trade lists. |
| Replay.GroupEvents | src/trading/data/replay.py:37-54 | The groups partition the time-sorted events with gaps of at most one second inside and more than one second between. |
| Replay.OneSecondApart | src/trading/data/replay.py:37-54 | Two events a second apart are one cycle, and a microsecond more makes them two. |
| Replay.CyclesAreUnique | src/trading/data/replay.py:37-54 | No other partition of the sorted events has those gaps. |
| Replay.SameCycles | src/trading/data/replay.py:37-54 | Two such partitions of the same events in any order are the same cycles, event for event. |
| Replay.ShuffleRoundTrip | src/trading/data/replay.py:37-54 | Grouping any shuffle of the events of separated cycles returns those cycles event for event, and literally exactly when the shuffle keeps the order of simultaneous events, as it must when receive times are distinct. |
| Replay.LatestInGroupIsLatest | src/trading/data/replay.py:57-62 | The event taken for a type is the one of that type received last, missing exactly when the group has none. |
| Replay.DecisionClockWindow | src/trading/data/replay.py:114-119 | The decision clock is never before the data nor more than fifteen minutes after it, is the requested end exactly in that window, and otherwise the data’s. |
| Budget.TokenBudget.Charge | src/trading/ai/budget.py:56-83 | A charge adds one turn, leaves the ledger row at prior plus this run and every other row alone, and reports exhaustion of run tokens or monthly money. |
| Budget.RateCardIsValid | src/trading/ai/budget.py:60-68 | Non-negative rates price every turn at zero or more. |
| Budget.RatesPriceTheirOwnTokens | src/trading/ai/budget.py:60-68 | A million tokens of one kind cost that kind’s rate, the two kinds are priced apart, and a negative count costs nothing. |
| Budget.FourPlacesFacts | src/trading/ai/budget.py:69-71 | The ledger’s rounding is within half a unit, monotone and idempotent. |
| Budget.SpendGrows | src/trading/ai/budget.py:56-71 | A charge never lowers the rounded spend. |
| Budget.SpendError | src/trading/ai/budget.py:56-71 | After n charges the rounded spend is within n half-units of the exact cost. |
| Budget.LedgerIsSumOfCharges | src/trading/ai/budget.py:36-83 | For readings that each grow by one run’s spend, the last is the first plus all rounded charges, within 0.00005 per charge of the exact cost, and never below it. |
| Runtime.ToolContext.Dispatch | src/trading/ai/tools.py:144-162 | A sink grows only by its own tool and by one validated record. |
| Runtime.AnswerCalls | src/trading/ai/runtime.py:111-125 | Each call is answered in order by what the tool returned at its step, up to a terminal one; the calls after it stay unanswered; the sinks take in exactly what their own tools validated. |
| Runtime.RunDeskToolLoop | src/trading/ai/runtime.py:55-130 | Against any model and tools: at most max(0, max_iterations) model calls and at least one where one is allowed. Each conversation sent is the two prompts followed by every earlier turn and, for each of its calls, what the tool returned at its step; each turn is the model’s reply to it; the run times out or ends malformed exactly if the last reply did. Only a turn with calls is followed by another, no call of the exhausting turn is dispatched, and only a terminal stop leaves calls open. The ledger grows by this run’s spend, each sink by exactly what its tool validated, and from an empty sink the record is the one the last call validated, exactly on a terminal stop. |
| Runtime.OneRecordAtMost | src/trading/ai/runtime.py:111-126 | From an empty sink a run comes to one record, the last call’s, exactly when that call ended it. |
| Runtime.ExhaustedMonthMakesOneCall | src/trading/ai/runtime.py:91-130 | With the month already over its cap a run makes exactly one model call if it is enabled, not observing and allowed an iteration, and none otherwise; it dispatches nothing and stops on the budget if the call returns. |
| Runtime.RunMonth | src/trading/ai/budget.py:36-83 | Runs one after another on one ledger row: each is a run against its own world as above and starts from the reading the last one left, the row ends at the start plus all rounded charges, within 0.00005 per charge of the exact cost, and no other row moves. |
| Runtime.ExhaustedMonthStaysExhausted | src/trading/ai/runtime.py:91-130 | Over such runs, once a reading exceeds the cap every later run makes that one call and dispatches nothing. |
| Stress.ScenarioPnl | src/trading/analytics/stress.py:191-219 | It raises exactly when some position’s money cannot be added or its stated loss is negative, for the first such position, and otherwise returns the scenario total. |
| Stress.ShocksReachTheirOwnSensitivity | src/trading/analytics/stress.py:205-218 | A pure spot move does not reach the vega nor a pure volatility move the delta, and an unclamped position loses on a shock what it gains on the opposite one. |
| Stress.DefinedRiskFloorsTheShock | src/trading/analytics/stress.py:205-218 | A defined risk caps the loss at the stated one and changes nothing above it; without fills the stated loss is lost. |
| Stress.StandingScenariosReach | src/trading/analytics/stress.py:50-105 | What the standing scenarios cost one unclamped position: eight percent down or five up on its delta, thirty points of volatility down or fifty up on its vega, or else the stated loss. |
| Stress.RunScenarios | src/trading/analytics/stress.py:125-138 | All totals, and the first of the worst ones. |
| Stress.BuildStressReport | src/trading/analytics/stress.py:108-163 | It raises exactly on bad equity, budget or scenarios or unaddable money, for the first cause; breach is decided on the exact worst case, the first worst scenario says whether it assumed no fills, and the flags say what they name. |
| Stress.WorstIsSuperadditive | src/trading/analytics/stress.py:191-219 | worst(A + B) >= worst(A) + worst(B) for any books and scenarios. |
| Stress.WorstOfDefinedRisk | src/trading/analytics/stress.py:191-219 | With defined risk only the worst case is never below minus the stated losses, and exactly that when some scenario assumes no fills. |
| Stress.DefaultScenariosAssumeNoFills | src/trading/analytics/stress.py:50-107 | The standing scenario list has such a scenario. |
| Stress.FreezeIsExact | src/trading/analytics/stress.py:166-188 | For a defined-risk book under the standing scenarios entries freeze exactly when the stated losses exceed the budget share of equity. |
| Stress.AddingNeverHelps | src/trading/analytics/stress.py:191-219 | There a further position costs exactly its own stated loss. |
| Ids.SplitJoin | src/trading/domain/ids.py:84-94 | Splitting at the separator undoes the join for any number of separator-free parts. |
| Ids.RenderIsInjective | src/trading/domain/ids.py:91-91 | The decimal rendering of the quantity is injective over all integers. |
| Ids.FirstBadComponent | src/trading/domain/ids.py:46-79 | An order is refused for a zero quantity, else for its first component that is empty or holds the separator. |
| Ids.PayloadIsInjective | src/trading/domain/ids.py:56-94 | Exactly the well-formed orders have a payload, and two payloads are equal exactly when all seven components are. |
| Ids.SequentialIdFactory.NewId | src/trading/domain/ids.py:115-119 | An id carries the next counter value; a refused prefix consumes none. |
| Ids.IdsNeverRepeat | src/trading/domain/ids.py:115-119 | Equal ids of one factory have the same counter and prefix. |
| Ids.IdsRise | src/trading/domain/ids.py:115-119 | Ids of one prefix rise lexicographically with the counter while it is printed equally wide. |
| Ids.FixedWidthBelowLimit | src/trading/domain/ids.py:107-119 | The counter is printed eight wide exactly below one hundred million. |
| Ids.StampOfAnInstant | src/trading/domain/ids.py:115-119 | The stamp of an instant is its digits, sixteen wide as long as they fit. |
| Ids.StampBeforeTheEpoch | src/trading/domain/ids.py:115-119 | Before the epoch the sign takes one of the sixteen. |
| Ids.NextIdRisesWhen | src/trading/domain/ids.py:115-119 | The next id sorts after its predecessor exactly unless the counter just gained a digit beyond its width. |
| Ids.OrderBreaksAtTheLimit | src/trading/domain/ids.py:115-119 | The hundred-millionth id sorts before the one issued just before it. |
| Backfill.HistoryWindows | src/trading/data/backfill.py:59-82 | The windows tile the inclusive range: consecutive, each at most max_days, all but the last full, ceil(days / max_days) of them; errors exactly on days or size below one. |
| Backfill.CoveredOnce | src/trading/data/backfill.py:59-82 | Every day of the range lies in exactly one window. |
| Backfill.TilingIsUnique | src/trading/data/backfill.py:65-71 | The tiling of a range is unique, so a retry requests the same windows. |
| Backfill.SessionCloseKeepsItsDay | src/trading/data/vix_backfill.py:108-116 | The 15:30 stamp of a day falls on that day in India. |
| Backfill.IndianDay | src/trading/data/vix_backfill.py:108-116 | A day in India runs from half past six in the evening of the day before, and its session closes at ten in the morning, both in UTC. |
| Backfill.MarksNoDay | src/trading/data/vix_backfill.py:151-168 | A stored record marks no day exactly if it has no snapshot, or neither its level nor its price is positive. |
| Backfill.StoreWindows | src/trading/data/vix_backfill.py:86-148 | The nested loops append exactly the first buildable candle of each absent day and count written, skipped and present days. |
| Backfill.BackfillVix | src/trading/data/vix_backfill.py:49-148 | The same over the tiling of the look-back, with its three counts; a bad look-back stores nothing. |
| Backfill.OneRecordPerDay | src/trading/data/vix_backfill.py:106-142 | Appended records mark days that were absent, each day once. |
| Backfill.SecondRunWritesNothing | src/trading/data/vix_backfill.py:151-168 | A second run over the same rows appends nothing. |

## Left out

- Expiry: the audit note text and the calendar's weekend test for Thursday, which is never a weekend.
- Binders: calendar spreads, which sort on score alone, and the single-leg and same-day binders.
- LongOption: the set-up record attached to a binding (score components, tags), only its fallback mark.
- Quality: parsing of session hours; the session verdict is an input.
- SnapshotBuilder: features, greeks, macro references and raw references of a snapshot; the price, bid, ask and spot only.
- Promotion: text fields of hypotheses and the shadow experiments derived from them; stale marking.
- Judgment: review labels and their report.
- Scorecard: histograms other than the reason counter, excursion averages, coverage ratios, Brier score of the package and the confidence bound with its square root.
- BreakoutStudy: win and loss counters, INR multiples and narratives; strategies are an input, and a case id is taken to end in its number.
- Runtime: tool handlers, prompts and the effective-mode resolution, which is an input; errors outside the handled classes.
- Budget: a month that changes during a run, and concurrent writers of one ledger row.
- Terminal: policy ids, timestamps, money fields of a policy and the optional run-time environment checks around enforcement.
- Ids: UTF-8 encoding and BLAKE2b; the key is a function of the payload.
- Backfill: HTTP, request formatting and instrument masters; a candle the builder cannot turn into a snapshot is given by a predicate.
- Calendar: Python's year limits 1 and 9999, at which date arithmetic raises.
- Decimals: the 28 and 34 digit context precision; arithmetic is exact.
- CLI, dashboards, storage, Telegram, HTTP and SSH, configuration loading, authority demotion, eligibility gates and readiness reports are not part of this model: I/O, or settled by reading one branch.
