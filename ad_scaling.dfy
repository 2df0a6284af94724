/**
 * The ad-scaling decision engine: every ad is placed in a spend phase
 * (Launch below 5,000 INR, Validation below 15,000 INR, Longevity above) and
 * judged by that phase's decision tree over stop loss, ad score, trend,
 * stop-loss trajectory, ROAS and multi-window ROAS decay.
 * Money, ROAS and percentages are reals; dates are integer timestamps.
 */
module AdScaling {
  import opened Wrappers

  // ---------------------------------------------------------------------------
  // Thresholds
  // ---------------------------------------------------------------------------

  const LaunchMaxSpend: real := 5000.0
  const ValidationMaxSpend: real := 15000.0
  const LaunchLearningSpend: real := 2500.0

  const LaunchStopLossWarning: real := -1000.0
  const LaunchStopLossCritical: real := -2000.0
  const LaunchStopLossHardStop: real := -3000.0
  const ValidationStopLossHardStop: real := -2000.0
  const ValidationStopLossWarning: real := -1000.0

  const RoasGood: real := 2.2
  const RoasAcceptable: real := 2.0
  const RoasWarning: real := 1.8
  const RoasSafeZone: real := 2.7

  const AdScoreStrong: int := 9
  const AdScoreDecent: int := 7
  const AdScoreWeak: int := 5

  const DecayIgnore: real := 20.0
  const DecayWarning: real := 30.0
  const DecayVelocityAccelerating: real := 15.0

  const ProfitBufferSafe: real := 5000.0
  const ProfitPerPurchase: real := 1000.0

  /** The spend windows of the Longevity phase (L3K, L5K, L7K, L10K). */
  const Window3K: real := 3000.0
  const Window5K: real := 5000.0
  const Window7K: real := 7000.0
  const Window10K: real := 10000.0

  // ---------------------------------------------------------------------------
  // Data model
  // ---------------------------------------------------------------------------

  /** One day of an ad's history, with the column names of the engine. */
  datatype DayRecord = DayRecord(
    reportingStarts: int,
    amountSpent: real,
    purchases: real,
    conversionValue: real,
    ctr: real,
    hookRate: real,
    cpm: real)

  datatype Phase = Launch | Validation | Longevity | NoPhase | PhaseError
  datatype Status = Continue | Monitor | LastChance | Kill | StatusError
  datatype Trend = Improving | Stable | Declining | TrendNA
  datatype Trajectory = TrajectoryImproving | TrajectoryStable | Worsening | TrajectoryNA
  datatype Pattern = PatternNA | InsufficientData | Recovering | Accelerating | PatternStable | SuddenDrop | Mixed

  /** The decay report of the Longevity phase; absent values are None. */
  datatype DecayInfo = DecayInfo(
    pattern: Pattern,
    l3kDecay: Option<real>,
    l5kDecay: Option<real>,
    l7kDecay: Option<real>,
    l10kDecay: Option<real>,
    velocity: Option<real>)

  datatype SpendWindows = SpendWindows(l3k: Option<real>, l5k: Option<real>, l7k: Option<real>, l10k: Option<real>)

  datatype AdStatus = AdStatus(phase: Phase, status: Status)

  /** One row of the batch result; `error` holds the message of a failed ad. */
  datatype StatusRow = StatusRow(adName: string, phase: Phase, status: Status, error: Option<string>)

  /** How favourable a status is: KILL < LAST CHANCE < MONITOR < CONTINUE. */
  function Rank(s: Status): int
  {
    match s
    case Kill => 0
    case LastChance => 1
    case Monitor => 2
    case Continue => 3
    case StatusError => -1
  }

  predicate IsVerdict(s: Status)
  {
    s != StatusError
  }

  function PhaseRank(p: Phase): int
  {
    match p
    case Launch => 0
    case Validation => 1
    case Longevity => 2
    case NoPhase => -1
    case PhaseError => -1
  }

  // ---------------------------------------------------------------------------
  // Sums and columns
  // ---------------------------------------------------------------------------

  function Sum(xs: seq<real>): real
  {
    if |xs| == 0 then 0.0 else Sum(xs[..|xs| - 1]) + xs[|xs| - 1]
  }

  lemma SumExtend(xs: seq<real>, k: nat)
    requires k < |xs|
    ensures Sum(xs[..k + 1]) == Sum(xs[..k]) + xs[k]
  {
    assert xs[..k + 1][..k] == xs[..k];
  }

  /** One numeric column of a history. */
  function Column(days: seq<DayRecord>, f: DayRecord -> real): (c: seq<real>)
    ensures |c| == |days| && forall i :: 0 <= i < |days| ==> c[i] == f(days[i])
  {
    seq(|days|, i requires 0 <= i < |days| => f(days[i]))
  }

  function SpendOf(d: DayRecord): real { d.amountSpent }
  function PurchasesOf(d: DayRecord): real { d.purchases }
  function ConversionValueOf(d: DayRecord): real { d.conversionValue }

  function Spends(days: seq<DayRecord>): (c: seq<real>)
    ensures |c| == |days| && forall i :: 0 <= i < |days| ==> c[i] == days[i].amountSpent
  {
    Column(days, SpendOf)
  }

  function Purchases(days: seq<DayRecord>): (c: seq<real>)
    ensures |c| == |days| && forall i :: 0 <= i < |days| ==> c[i] == days[i].purchases
  {
    Column(days, PurchasesOf)
  }

  function ConversionValues(days: seq<DayRecord>): (c: seq<real>)
    ensures |c| == |days| && forall i :: 0 <= i < |days| ==> c[i] == days[i].conversionValue
  {
    Column(days, ConversionValueOf)
  }

  function Reverse(xs: seq<real>): (r: seq<real>)
    ensures |r| == |xs| && forall i :: 0 <= i < |xs| ==> r[i] == xs[|xs| - 1 - i]
  {
    seq(|xs|, i requires 0 <= i < |xs| => xs[|xs| - 1 - i])
  }

  /** Python's int() of a float: truncation toward zero. */
  function Truncate(x: real): (n: int)
    ensures 0.0 <= x ==> 0 <= n && n as real <= x < n as real + 1.0
    ensures x < 0.0 ==> n <= 0 && n as real - 1.0 < x <= n as real
  {
    if x >= 0.0 then x.Floor else -((-x).Floor)
  }

  // ---------------------------------------------------------------------------
  // Sorting by reporting date
  // ---------------------------------------------------------------------------

  predicate SortedByDate(s: seq<DayRecord>)
  {
    forall i, j :: 0 <= i < j < |s| ==> s[i].reportingStarts <= s[j].reportingStarts
  }

  /** A day later than the first one goes behind it: keeping the first day in
    * front of the remaining days with `d` inserted keeps the order. */
  lemma InsertBehind(d: DayRecord, s: seq<DayRecord>, rest: seq<DayRecord>)
    requires SortedByDate(s) && s != [] && s[0].reportingStarts < d.reportingStarts
    requires SortedByDate(rest) && multiset(rest) == multiset(s[1..]) + multiset{d}
    ensures SortedByDate([s[0]] + rest)
    ensures multiset([s[0]] + rest) == multiset(s) + multiset{d}
  {
    assert s == [s[0]] + s[1..];
    forall k | 0 <= k < |rest| ensures s[0].reportingStarts <= rest[k].reportingStarts {
      assert rest[k] in multiset(rest);
      if rest[k] != d {
        assert rest[k] in s[1..];
      }
    }
  }

  function Insert(d: DayRecord, s: seq<DayRecord>): (r: seq<DayRecord>)
    requires SortedByDate(s)
    ensures SortedByDate(r)
    ensures multiset(r) == multiset(s) + multiset{d}
    ensures |r| == |s| + 1
  {
    if s == [] then [d]
    else if d.reportingStarts <= s[0].reportingStarts then [d] + s
    else
      var rest := Insert(d, s[1..]);
      InsertBehind(d, s, rest);
      [s[0]] + rest
  }

  /** The history in ascending date order (stable for equal dates). */
  function SortByDate(s: seq<DayRecord>): (r: seq<DayRecord>)
    ensures SortedByDate(r)
    ensures multiset(r) == multiset(s)
    ensures |r| == |s|
  {
    if s == [] then []
    else
      assert s == [s[0]] + s[1..];
      Insert(s[0], SortByDate(s[1..]))
  }

  // ---------------------------------------------------------------------------
  // Metric calculators
  // ---------------------------------------------------------------------------

  /** Stop loss: a purchase is worth 1,000 INR of profit, spend is subtracted. */
  function StopLoss(purchases: int, spend: real): (r: real)
    ensures r >= 0.0 <==> spend <= purchases as real * ProfitPerPurchase
    ensures r + spend == purchases as real * ProfitPerPurchase
  {
    purchases as real * ProfitPerPurchase - spend
  }

  /** Conversion value per unit of spend; 0 when nothing was spent. */
  function ScalingRoas(conversionValue: real, spend: real): (r: real)
    ensures spend <= 0.0 ==> r == 0.0
    ensures spend > 0.0 ==> r * spend == conversionValue
  {
    if spend <= 0.0 then 0.0 else conversionValue / spend
  }

  function CtrPoints(ctr: real): (p: int)
    ensures 1 <= p <= 4
  {
    if ctr >= 1.0 then 4
    else if ctr >= 0.85 then 3
    else if ctr >= 0.70 then 2
    else 1
  }

  /** A hook rate below 1 is a decimal fraction and is read as a percentage. */
  function HookPercent(hookRate: real): real
  {
    if hookRate < 1.0 then hookRate * 100.0 else hookRate
  }

  function HookPoints(hookRate: real): (p: int)
    ensures 1 <= p <= 4
  {
    var pct := HookPercent(hookRate);
    if pct >= 30.0 then 4
    else if pct >= 20.0 then 3
    else if pct >= 15.0 then 2
    else 1
  }

  function CpmPoints(cpm: real): (p: int)
    ensures 1 <= p <= 4
  {
    if cpm <= 100.0 then 4
    else if cpm <= 150.0 then 3
    else if cpm <= 200.0 then 2
    else 1
  }

  /** The 3..12 creative score: CTR, hook rate and CPM tiers of 1..4 points each. */
  function ScalingAdScore(ctr: real, hookRate: real, cpm: real): (score: int)
    ensures 3 <= score <= 12
    ensures score == 12 <==> ctr >= 1.0 && HookPercent(hookRate) >= 30.0 && cpm <= 100.0
    ensures score == 3 <==> ctr < 0.70 && HookPercent(hookRate) < 15.0 && cpm > 200.0
  {
    CtrPoints(ctr) + HookPoints(hookRate) + CpmPoints(cpm)
  }

  /** The score of one day, as the engine adds it to every row. */
  function DayScore(d: DayRecord): (score: int)
    ensures 3 <= score <= 12
  {
    ScalingAdScore(d.ctr, d.hookRate, d.cpm)
  }

  /** A hook rate written as a fraction and the same rate written in percent score alike. */
  lemma HookFractionAndPercentAgree(fraction: real)
    requires 0.01 <= fraction < 1.0
    ensures HookPoints(fraction) == HookPoints(fraction * 100.0)
  {
  }

  /** A better CTR, a better hook rate or a cheaper CPM never lowers the score. */
  lemma ScalingAdScoreMonotone(ctr1: real, hook1: real, cpm1: real, ctr2: real, hook2: real, cpm2: real)
    requires ctr1 <= ctr2 && HookPercent(hook1) <= HookPercent(hook2) && cpm2 <= cpm1
    ensures ScalingAdScore(ctr1, hook1, cpm1) <= ScalingAdScore(ctr2, hook2, cpm2)
  {
  }

  /** The module's own examples of the score, the stop loss and the phase. */
  lemma SelfCheckExamples()
    ensures ScalingAdScore(1.2, 0.25, 90.0) == 11
    ensures ScalingAdScore(0.8, 0.22, 130.0) == 8
    ensures ScalingAdScore(0.5, 0.12, 220.0) == 3
    ensures StopLoss(5, 3000.0) == 2000.0
    ensures StopLoss(2, 4000.0) == -2000.0
    ensures DetectPhase(3000.0) == Launch
    ensures DetectPhase(8000.0) == Validation
    ensures DetectPhase(20000.0) == Longevity
  {
  }

  // ---------------------------------------------------------------------------
  // Trend: day 1 against the average of the last three days
  // ---------------------------------------------------------------------------

  /** One metric's comparison: its day-1 value, its average over the last three
    * days, and whether a higher value is better. */
  datatype MetricChange = MetricChange(day1: real, average: real, higherIsBetter: bool)

  /** The metric moved the good way by more than ten percent of a positive day-1 value. */
  predicate Improved(m: MetricChange)
  {
    m.day1 > 0.0 && if m.higherIsBetter then m.average > m.day1 * 1.1 else m.average < m.day1 * 0.9
  }

  /** The metric moved the bad way by more than ten percent of a positive day-1 value. */
  predicate Declined(m: MetricChange)
  {
    m.day1 > 0.0 && if m.higherIsBetter then m.average < m.day1 * 0.9 else m.average > m.day1 * 1.1
  }

  /** The percentage change of the source passes +10 (or -10) exactly when the
    * average passes 110% (or 90%) of a positive day-1 value. */
  lemma ChangeBeyondTenPercent(day1: real, average: real)
    requires day1 > 0.0
    ensures (average - day1) / day1 * 100.0 > 10.0 <==> average > day1 * 1.1
    ensures (average - day1) / day1 * 100.0 < -10.0 <==> average < day1 * 0.9
  {
    var q := (average - day1) / day1;
    assert q * day1 == average - day1;
    if q > 0.1 {
      assert q * day1 > 0.1 * day1;
    } else {
      assert q * day1 <= 0.1 * day1;
    }
    if q < -0.1 {
      assert q * day1 < -0.1 * day1;
    } else {
      assert q * day1 >= -0.1 * day1;
    }
  }

  /** +1 beyond a 10% improvement, -1 beyond a 10% deterioration, 0 otherwise
    * or when the day-1 value is not positive. */
  function MetricPoints(day1: real, average: real, higherIsBetter: bool): (p: int)
    ensures -1 <= p <= 1
    ensures day1 <= 0.0 ==> p == 0
    ensures p == 1 <==> Improved(MetricChange(day1, average, higherIsBetter))
    ensures p == -1 <==> Declined(MetricChange(day1, average, higherIsBetter))
  {
    if day1 <= 0.0 then 0
    else
      ChangeBeyondTenPercent(day1, average);
      var change := (average - day1) / day1 * 100.0;
      if higherIsBetter then
        (if change > 10.0 then 1 else if change < -10.0 then -1 else 0)
      else
        (if change < -10.0 then 1 else if change > 10.0 then -1 else 0)
  }

  /** CPM is scored in reverse: a fall counts as an improvement. */
  lemma CpmScoredInReverse(day1: real, average: real)
    ensures MetricPoints(day1, average, false) == -MetricPoints(day1, average, true)
  {
  }

  function Last3Average(xs: seq<real>): real
    requires |xs| >= 3
  {
    (xs[|xs| - 3] + xs[|xs| - 2] + xs[|xs| - 1]) / 3.0
  }

  function Scores(days: seq<DayRecord>): (c: seq<real>)
    ensures |c| == |days| && forall i :: 0 <= i < |days| ==> c[i] == DayScore(days[i]) as real
  {
    seq(|days|, i requires 0 <= i < |days| => DayScore(days[i]) as real)
  }

  function Ctrs(days: seq<DayRecord>): (c: seq<real>)
    ensures |c| == |days|
  {
    seq(|days|, i requires 0 <= i < |days| => days[i].ctr)
  }

  function HookRates(days: seq<DayRecord>): (c: seq<real>)
    ensures |c| == |days|
  {
    seq(|days|, i requires 0 <= i < |days| => days[i].hookRate)
  }

  function Cpms(days: seq<DayRecord>): (c: seq<real>)
    ensures |c| == |days|
  {
    seq(|days|, i requires 0 <= i < |days| => days[i].cpm)
  }

  /** The four metrics compared by the trend, from a date-sorted history: the
    * Ad_Score, CTR and hook rate (higher is better) and the CPM (lower is
    * better) of day 1 against their averages over the last three days. */
  function TrendMetrics(sorted: seq<DayRecord>): (ms: seq<MetricChange>)
    requires |sorted| >= 3
    ensures |ms| == 4
  {
    [MetricChange(DayScore(sorted[0]) as real, Last3Average(Scores(sorted)), true),
     MetricChange(sorted[0].ctr, Last3Average(Ctrs(sorted)), true),
     MetricChange(sorted[0].hookRate, Last3Average(HookRates(sorted)), true),
     MetricChange(sorted[0].cpm, Last3Average(Cpms(sorted)), false)]
  }

  /** The number of metrics that improved. */
  function CountImproved(ms: seq<MetricChange>): (n: nat)
    ensures n <= |ms|
  {
    if ms == [] then 0 else (if Improved(ms[0]) then 1 else 0) + CountImproved(ms[1..])
  }

  /** The number of metrics that declined. */
  function CountDeclined(ms: seq<MetricChange>): (n: nat)
    ensures n <= |ms|
  {
    if ms == [] then 0 else (if Declined(ms[0]) then 1 else 0) + CountDeclined(ms[1..])
  }

  /** The metric points summed: improvements minus declines. */
  function PointsOf(ms: seq<MetricChange>): (points: int)
    ensures points == CountImproved(ms) - CountDeclined(ms)
  {
    if ms == [] then 0
    else MetricPoints(ms[0].day1, ms[0].average, ms[0].higherIsBetter) + PointsOf(ms[1..])
  }

  /** The trend points of a date-sorted history of at least three days: the
    * number of the four metrics that improved minus the number that declined. */
  function TrendPoints(sorted: seq<DayRecord>): (points: int)
    requires |sorted| >= 3
    ensures points == CountImproved(TrendMetrics(sorted)) - CountDeclined(TrendMetrics(sorted))
    ensures -4 <= points <= 4
  {
    PointsOf(TrendMetrics(sorted))
  }

  function TrendOfPoints(points: int): (t: Trend)
    ensures t != TrendNA
    ensures t == Improving <==> points >= 2
    ensures t == Declining <==> points <= -2
  {
    if points >= 2 then Improving
    else if points <= -2 then Declining
    else Stable
  }

  /** The trend of a history: N/A below three days; otherwise, over its date-sorted
    * metrics, IMPROVING when at least two more improved than declined, DECLINING
    * when at least two more declined than improved, and STABLE in between. */
  function CalculateTrend(days: seq<DayRecord>): (t: Trend)
    ensures t == TrendNA <==> |days| < 3
    ensures |days| >= 3 ==>
      var ms := TrendMetrics(SortByDate(days));
      (t == Improving <==> CountImproved(ms) - CountDeclined(ms) >= 2) &&
      (t == Declining <==> CountImproved(ms) - CountDeclined(ms) <= -2) &&
      (t == Stable <==> -2 < CountImproved(ms) - CountDeclined(ms) < 2)
  {
    if |days| < 3 then TrendNA else TrendOfPoints(TrendPoints(SortByDate(days)))
  }

  // ---------------------------------------------------------------------------
  // Trajectory of the stop loss during Validation
  // ---------------------------------------------------------------------------

  function CalculateTrajectory(currentStopLoss: real, stopLossAt5k: Option<real>): (t: Trajectory)
    ensures stopLossAt5k.None? <==> t == TrajectoryNA
    ensures stopLossAt5k.Some? ==>
      (t == TrajectoryImproving <==> currentStopLoss > stopLossAt5k.value + 300.0) &&
      (t == Worsening <==> currentStopLoss < stopLossAt5k.value - 300.0)
  {
    match stopLossAt5k
    case None => TrajectoryNA
    case Some(earlier) =>
      var diff := currentStopLoss - earlier;
      if diff > 300.0 then TrajectoryImproving
      else if diff < -300.0 then Worsening
      else TrajectoryStable
  }

  // ---------------------------------------------------------------------------
  // Accumulate-until-threshold windows
  // ---------------------------------------------------------------------------

  /** The least k >= max(from, 1) with Sum(xs[..k]) >= threshold, if any. */
  function FirstReachFrom(xs: seq<real>, threshold: real, from: nat): (w: Option<nat>)
    requires from <= |xs|
    decreases |xs| - from
    ensures w.Some? ==> from <= w.value <= |xs| && 1 <= w.value && Sum(xs[..w.value]) >= threshold
    ensures w.Some? ==> forall j :: from <= j < w.value && 1 <= j ==> Sum(xs[..j]) < threshold
    ensures w.None? ==> forall j :: from <= j <= |xs| && 1 <= j ==> Sum(xs[..j]) < threshold
  {
    if 1 <= from && Sum(xs[..from]) >= threshold then Some(from)
    else if from == |xs| then None
    else FirstReachFrom(xs, threshold, from + 1)
  }

  /** The length of the shortest non-empty prefix whose sum reaches the threshold. */
  function FirstReach(xs: seq<real>, threshold: real): (w: Option<nat>)
    ensures w.Some? ==> 1 <= w.value <= |xs| && Sum(xs[..w.value]) >= threshold
    ensures w.Some? ==> forall j :: 1 <= j < w.value ==> Sum(xs[..j]) < threshold
    ensures w.None? ==> forall j :: 1 <= j <= |xs| ==> Sum(xs[..j]) < threshold
  {
    FirstReachFrom(xs, threshold, 0)
  }

  /** FirstReach is determined by its contract: a minimal reaching prefix is THE window. */
  lemma FirstReachUnique(xs: seq<real>, threshold: real, k: nat)
    requires 1 <= k <= |xs| && Sum(xs[..k]) >= threshold
    requires forall j :: 1 <= j < k ==> Sum(xs[..j]) < threshold
    ensures FirstReach(xs, threshold) == Some(k)
  {
  }

  lemma FirstReachNone(xs: seq<real>, threshold: real)
    requires forall j :: 1 <= j <= |xs| ==> Sum(xs[..j]) < threshold
    ensures FirstReach(xs, threshold) == None
  {
  }

  /** ROAS of the shortest leading run of `spends` (paired with `values`) whose
    * spend reaches `threshold`; None when no run reaches it. */
  function WindowRoas(spends: seq<real>, values: seq<real>, threshold: real): (r: Option<real>)
    requires |spends| == |values|
  {
    match FirstReach(spends, threshold)
    case None => None
    case Some(k) =>
      var spent := Sum(spends[..k]);
      Some(if spent > 0.0 then Sum(values[..k]) / spent else 0.0)
  }

  /** ROAS of the most recent run of days whose spend first reaches `threshold`;
    * None when no such run exists. */
  function LastXSpendRoas(days: seq<DayRecord>, threshold: real): (r: Option<real>)
  {
    var sorted := SortByDate(days);
    WindowRoas(Reverse(Spends(sorted)), Reverse(ConversionValues(sorted)), threshold)
  }

  /** The loop over spends given most recent first, stopping as soon as the
    * accumulated spend reaches the threshold. */
  method AccumulateWindow(spends: seq<real>, values: seq<real>, threshold: real) returns (r: Option<real>)
    requires |spends| == |values|
    ensures r == WindowRoas(spends, values, threshold)
  {
    if |spends| == 0 {
      return None;
    }
    var cumulativeSpend := 0.0;
    var cumulativeValue := 0.0;
    var i := 0;
    while i < |spends| && (i == 0 || cumulativeSpend < threshold)
      invariant 0 <= i <= |spends|
      invariant cumulativeSpend == Sum(spends[..i])
      invariant cumulativeValue == Sum(values[..i])
      invariant forall j :: 1 <= j < i ==> Sum(spends[..j]) < threshold
    {
      SumExtend(spends, i);
      SumExtend(values, i);
      cumulativeSpend := cumulativeSpend + spends[i];
      cumulativeValue := cumulativeValue + values[i];
      i := i + 1;
    }
    if cumulativeSpend < threshold {
      FirstReachNone(spends, threshold);
      return None;
    }
    FirstReachUnique(spends, threshold, i);
    r := Some(if cumulativeSpend > 0.0 then cumulativeValue / cumulativeSpend else 0.0);
  }

  /** The history sorted newest first, then accumulated until the threshold. */
  method ComputeLastXSpendRoas(days: seq<DayRecord>, threshold: real) returns (r: Option<real>)
    ensures r == LastXSpendRoas(days, threshold)
  {
    var sorted := SortByDate(days);
    r := AccumulateWindow(Reverse(Spends(sorted)), Reverse(ConversionValues(sorted)), threshold);
  }

  /** A window that exists for a larger threshold exists for every smaller one. */
  lemma WindowsNested(days: seq<DayRecord>, small: real, large: real)
    requires small <= large
    requires LastXSpendRoas(days, large).Some?
    ensures LastXSpendRoas(days, small).Some?
  {
    var spends := Reverse(Spends(SortByDate(days)));
    var k := FirstReach(spends, large).value;
    assert Sum(spends[..k]) >= small;
  }

  /** With non-negative daily spend, the window is missing exactly when the
    * whole history spent less than the threshold. */
  lemma {:induction false} LastXSpendRoasNoneIffShort(days: seq<DayRecord>, threshold: real)
    requires forall i :: 0 <= i < |days| ==> days[i].amountSpent >= 0.0
    requires |days| > 0 || threshold > 0.0
    ensures LastXSpendRoas(days, threshold).None? <==> Sum(Spends(days)) < threshold
  {
    var sorted := SortByDate(days);
    var spends := Reverse(Spends(sorted));
    SortedTotals(days);
    ReverseSum(Spends(sorted));
    assert spends[..|spends|] == spends;
    SortedSpendsNonNegative(days);
    if Sum(Spends(days)) >= threshold {
      if |days| == 0 {
        assert false;
      }
    } else {
      forall j | 1 <= j <= |spends| ensures Sum(spends[..j]) < threshold {
        PrefixSumBounded(spends, j);
      }
    }
  }

  /** Sorting and reversing keep every daily spend non-negative. */
  lemma SortedSpendsNonNegative(days: seq<DayRecord>)
    requires forall i :: 0 <= i < |days| ==> days[i].amountSpent >= 0.0
    ensures forall i :: 0 <= i < |days| ==> Reverse(Spends(SortByDate(days)))[i] >= 0.0
  {
    var sorted := SortByDate(days);
    forall i | 0 <= i < |sorted| ensures sorted[i].amountSpent >= 0.0 {
      assert sorted[i] in multiset(days);
    }
  }

  /** A prefix of non-negative amounts sums to no more than the whole. */
  lemma {:induction false} PrefixSumBounded(xs: seq<real>, k: nat)
    requires k <= |xs|
    requires forall i :: 0 <= i < |xs| ==> xs[i] >= 0.0
    ensures Sum(xs[..k]) <= Sum(xs)
    decreases |xs| - k
  {
    if k == |xs| {
      assert xs[..k] == xs;
    } else {
      PrefixSumBounded(xs, k + 1);
      SumExtend(xs, k);
    }
  }

  lemma {:induction false} SumAppend(xs: seq<real>, ys: seq<real>)
    ensures Sum(xs + ys) == Sum(xs) + Sum(ys)
    decreases |ys|
  {
    if |ys| == 0 {
      assert xs + ys == xs;
    } else {
      var ys' := ys[..|ys| - 1];
      assert (xs + ys)[..|xs + ys| - 1] == xs + ys';
      SumAppend(xs, ys');
    }
  }

  lemma {:induction false} ReverseSum(xs: seq<real>)
    ensures Sum(Reverse(xs)) == Sum(xs)
    decreases |xs|
  {
    if |xs| > 0 {
      var front := xs[..|xs| - 1];
      assert Reverse(xs) == [xs[|xs| - 1]] + Reverse(front);
      SumAppend([xs[|xs| - 1]], Reverse(front));
      assert Sum([xs[|xs| - 1]]) == xs[|xs| - 1] by {
        assert [xs[|xs| - 1]][..0] == [];
      }
      ReverseSum(front);
    }
  }

  lemma SumPrepend(x: real, xs: seq<real>)
    ensures Sum([x] + xs) == x + Sum(xs)
  {
    SumAppend([x], xs);
    assert [x][..0] == [];
  }

  lemma ColumnPrepend(d: DayRecord, s: seq<DayRecord>, f: DayRecord -> real)
    ensures Column([d] + s, f) == [f(d)] + Column(s, f)
  {
  }

  /** Inserting a day adds exactly its own value to a column total. */
  lemma {:induction false} InsertColumnSum(d: DayRecord, s: seq<DayRecord>, f: DayRecord -> real)
    requires SortedByDate(s)
    ensures Sum(Column(Insert(d, s), f)) == f(d) + Sum(Column(s, f))
    decreases |s|
  {
    if s == [] {
      ColumnPrepend(d, [], f);
      SumPrepend(f(d), []);
    } else if d.reportingStarts <= s[0].reportingStarts {
      ColumnPrepend(d, s, f);
      SumPrepend(f(d), Column(s, f));
    } else {
      var rest := Insert(d, s[1..]);
      assert s == [s[0]] + s[1..];
      ColumnPrepend(s[0], rest, f);
      SumPrepend(f(s[0]), Column(rest, f));
      InsertColumnSum(d, s[1..], f);
      ColumnPrepend(s[0], s[1..], f);
      SumPrepend(f(s[0]), Column(s[1..], f));
    }
  }

  /** Sorting never changes a column total. */
  lemma {:induction false} SortColumnSum(s: seq<DayRecord>, f: DayRecord -> real)
    ensures Sum(Column(SortByDate(s), f)) == Sum(Column(s, f))
    decreases |s|
  {
    if s != [] {
      assert s == [s[0]] + s[1..];
      SortColumnSum(s[1..], f);
      InsertColumnSum(s[0], SortByDate(s[1..]), f);
      ColumnPrepend(s[0], s[1..], f);
      SumPrepend(f(s[0]), Column(s[1..], f));
    }
  }

  /** Sorting the history leaves the spend, purchase and value totals unchanged. */
  lemma SortedTotals(days: seq<DayRecord>)
    ensures Sum(Spends(SortByDate(days))) == Sum(Spends(days))
    ensures Sum(Purchases(SortByDate(days))) == Sum(Purchases(days))
    ensures Sum(ConversionValues(SortByDate(days))) == Sum(ConversionValues(days))
  {
    SortColumnSum(days, SpendOf);
    SortColumnSum(days, PurchasesOf);
    SortColumnSum(days, ConversionValueOf);
  }

  /** The four Longevity windows. */
  function AllSpendWindows(days: seq<DayRecord>): (w: SpendWindows)
  {
    SpendWindows(
      LastXSpendRoas(days, Window3K),
      LastXSpendRoas(days, Window5K),
      LastXSpendRoas(days, Window7K),
      LastXSpendRoas(days, Window10K))
  }

  method ComputeAllSpendWindows(days: seq<DayRecord>) returns (w: SpendWindows)
    ensures w == AllSpendWindows(days)
    ensures w.l10k.Some? ==> w.l7k.Some?
    ensures w.l7k.Some? ==> w.l5k.Some?
    ensures w.l5k.Some? ==> w.l3k.Some?
  {
    var l3k := ComputeLastXSpendRoas(days, Window3K);
    var l5k := ComputeLastXSpendRoas(days, Window5K);
    var l7k := ComputeLastXSpendRoas(days, Window7K);
    var l10k := ComputeLastXSpendRoas(days, Window10K);
    w := SpendWindows(l3k, l5k, l7k, l10k);
    if l10k.Some? { WindowsNested(days, Window7K, Window10K); }
    if l7k.Some? { WindowsNested(days, Window5K, Window7K); }
    if l5k.Some? { WindowsNested(days, Window3K, Window5K); }
  }

  /** The length of the shortest prefix of `xs` whose sum reaches `threshold`,
    * or all of `xs` when none does. */
  function PrefixUntil(xs: seq<real>, threshold: real): (k: nat)
    ensures k <= |xs|
  {
    match FirstReach(xs, threshold)
    case Some(k) => k
    case None => |xs|
  }

  /** Stop loss over the first days whose spend reaches the Launch ceiling
    * (all days when it is never reached), on a date-sorted history. */
  function StopLossAt5k(sorted: seq<DayRecord>): real
  {
    var k := PrefixUntil(Spends(sorted), LaunchMaxSpend);
    StopLoss(Truncate(Sum(Purchases(sorted)[..k])), Sum(Spends(sorted)[..k]))
  }

  /** Where the forward loop stops (the first prefix reaching the threshold, or
    * the whole sequence) is PrefixUntil. */
  lemma PrefixUntilExit(xs: seq<real>, threshold: real, i: nat)
    requires i <= |xs|
    requires forall j :: 1 <= j < i ==> Sum(xs[..j]) < threshold
    requires i == |xs| || (1 <= i && Sum(xs[..i]) >= threshold)
    ensures PrefixUntil(xs, threshold) == i
  {
    if 1 <= i && Sum(xs[..i]) >= threshold {
      FirstReachUnique(xs, threshold, i);
    } else {
      FirstReachNone(xs, threshold);
    }
  }

  /** The forward loop that adds up spends and a second column until the spend
    * reaches the threshold. */
  method AccumulateUntil(spends: seq<real>, values: seq<real>, threshold: real) returns (spent: real, total: real)
    requires |spends| == |values|
    ensures spent == Sum(spends[..PrefixUntil(spends, threshold)])
    ensures total == Sum(values[..PrefixUntil(spends, threshold)])
  {
    spent := 0.0;
    total := 0.0;
    var i := 0;
    while i < |spends| && (i == 0 || spent < threshold)
      invariant 0 <= i <= |spends|
      invariant spent == Sum(spends[..i])
      invariant total == Sum(values[..i])
      invariant forall j :: 1 <= j < i ==> Sum(spends[..j]) < threshold
    {
      SumExtend(spends, i);
      SumExtend(values, i);
      spent := spent + spends[i];
      total := total + values[i];
      i := i + 1;
    }
    PrefixUntilExit(spends, threshold, i);
  }

  /** The forward pass over the sorted history that stops at 5,000 INR spent. */
  method ComputeStopLossAt5k(sorted: seq<DayRecord>) returns (r: real)
    ensures r == StopLossAt5k(sorted)
  {
    var spendAt5k, purchasesAt5k := AccumulateUntil(Spends(sorted), Purchases(sorted), LaunchMaxSpend);
    r := StopLoss(Truncate(purchasesAt5k), spendAt5k);
  }

  // ---------------------------------------------------------------------------
  // Decay
  // ---------------------------------------------------------------------------

  /** Percentage fall of `current` below `baseline`; 0 for a non-positive baseline. */
  function CalculateDecay(baseline: real, current: real): (d: real)
    ensures baseline <= 0.0 ==> d == 0.0
    ensures baseline > 0.0 ==> (d > 0.0 <==> current < baseline) && (d == 0.0 <==> current == baseline)
    ensures baseline > 0.0 ==> current == baseline * (1.0 - d / 100.0)
  {
    if baseline <= 0.0 then 0.0 else (baseline - current) / baseline * 100.0
  }

  function DecayOf(baseline: real, roas: Option<real>): Option<real>
  {
    match roas
    case None => None
    case Some(v) => Some(CalculateDecay(baseline, v))
  }

  /** The multi-window decay pattern of the Longevity phase. */
  function ClassifyDecayPattern(baseline: real, l3k: Option<real>, l5k: Option<real>, l7k: Option<real>, l10k: Option<real>): (info: DecayInfo)
  {
    if baseline <= 0.0 then DecayInfo(PatternNA, None, None, None, None, None)
    else
      var d3 := DecayOf(baseline, l3k);
      var d5 := DecayOf(baseline, l5k);
      var d7 := DecayOf(baseline, l7k);
      var d10 := DecayOf(baseline, l10k);
      if d3.None? || d7.None? then DecayInfo(InsufficientData, d3, d5, d7, d10, None)
      else
        var a := d3.value;
        var b := d5.UnwrapOr(a);
        var c := d7.value;
        var e := d10.UnwrapOr(c);
        DecayInfo(PatternFor(a, b, c, e), d3, d5, d7, d10, Some(a - c))
  }

  /** The pattern tests, in their order of precedence. */
  function PatternFor(d3: real, d5: real, d7: real, d10: real): Pattern
  {
    if d3 < d5 < d7 then Recovering
    else if d3 > d5 > d7 > d10 then Accelerating
    else if (if d3 - d7 < 0.0 then d7 - d3 else d3 - d7) < 5.0 then PatternStable
    else if d3 > d7 + 15.0 then SuddenDrop
    else Mixed
  }

  lemma DecayPatternRules(baseline: real, l3k: Option<real>, l5k: Option<real>, l7k: Option<real>, l10k: Option<real>)
    ensures var info := ClassifyDecayPattern(baseline, l3k, l5k, l7k, l10k);
      (baseline <= 0.0 ==> info.pattern == PatternNA && info.l3kDecay.None? && info.velocity.None?) &&
      (baseline > 0.0 ==>
        info.l3kDecay.Some? == l3k.Some? && info.l5kDecay.Some? == l5k.Some? &&
        info.l7kDecay.Some? == l7k.Some? && info.l10kDecay.Some? == l10k.Some? &&
        ((l3k.None? || l7k.None?) <==> info.pattern == InsufficientData) &&
        (info.velocity.Some? <==> info.pattern != InsufficientData) &&
        (info.velocity.Some? ==> info.velocity.value == info.l3kDecay.value - info.l7kDecay.value))
  {
  }

  /** A missing L5K counts as L3K and a missing L10K as L7K. */
  lemma MissingWindowsFilled(baseline: real, l3: real, l7: real, l10: Option<real>)
    requires baseline > 0.0
    ensures ClassifyDecayPattern(baseline, Some(l3), None, Some(l7), l10).pattern
         == ClassifyDecayPattern(baseline, Some(l3), Some(l3), Some(l7), l10).pattern
    ensures ClassifyDecayPattern(baseline, Some(l3), None, Some(l7), None).pattern
         == ClassifyDecayPattern(baseline, Some(l3), None, Some(l7), Some(l7)).pattern
  {
  }

  /** A strictly worsening ladder of decays from L10K to L3K is ACCELERATING. */
  lemma StrictlyWorseningIsAccelerating(d3: real, d5: real, d7: real, d10: real)
    requires d3 > d5 > d7 > d10
    ensures PatternFor(d3, d5, d7, d10) == Accelerating
  {
  }

  /** The module's own decay example: baseline 3.0 with windows 2.1, 2.3, 2.5, 2.7. */
  lemma DecaySelfCheck()
    ensures var info := ClassifyDecayPattern(3.0, Some(2.1), Some(2.3), Some(2.5), Some(2.7));
      info.l3kDecay == Some(30.0) && info.l5kDecay == Some(70.0 / 3.0) &&
      info.l7kDecay == Some(50.0 / 3.0) && info.l10kDecay == Some(10.0) &&
      info.pattern == Accelerating && info.velocity == Some(40.0 / 3.0)
  {
    StrictlyWorseningIsAccelerating(30.0, 70.0 / 3.0, 50.0 / 3.0, 10.0);
  }

  // ---------------------------------------------------------------------------
  // Phase
  // ---------------------------------------------------------------------------

  function DetectPhase(totalSpend: real): (p: Phase)
    ensures p == Launch <==> totalSpend < LaunchMaxSpend
    ensures p == Validation <==> LaunchMaxSpend <= totalSpend < ValidationMaxSpend
    ensures p == Longevity <==> ValidationMaxSpend <= totalSpend
  {
    if totalSpend < LaunchMaxSpend then Launch
    else if totalSpend < ValidationMaxSpend then Validation
    else Longevity
  }

  /** More spend never moves an ad back to an earlier phase. */
  lemma DetectPhaseMonotone(s1: real, s2: real)
    requires s1 <= s2
    ensures PhaseRank(DetectPhase(s1)) <= PhaseRank(DetectPhase(s2))
  {
  }

  // ---------------------------------------------------------------------------
  // Phase 1: Launch (below 5,000 INR)
  // ---------------------------------------------------------------------------

  function LaunchPhaseStatus(stopLoss: real, adScore: int, trend: Trend, totalSpend: real): (s: Status)
    ensures IsVerdict(s)
  {
    if totalSpend < LaunchLearningSpend then Monitor
    else if stopLoss < LaunchStopLossHardStop then Kill
    else if stopLoss < LaunchStopLossCritical then
      (if adScore >= AdScoreStrong && trend == Improving then LastChance else Kill)
    else if stopLoss < LaunchStopLossWarning then
      (if adScore >= AdScoreStrong then (if trend == Improving then Continue else Monitor)
       else if adScore >= AdScoreDecent then (if trend == Improving then Monitor else LastChance)
       else if adScore >= AdScoreWeak then LastChance
       else Kill)
    else if adScore >= AdScoreStrong then Continue
    else if adScore >= AdScoreDecent then (if trend == Declining then Monitor else Continue)
    else if adScore >= AdScoreWeak then (if trend == Improving || trend == Stable then Monitor else LastChance)
    else if trend == Improving then Monitor
    else if trend == Stable then LastChance
    else Kill
  }

  lemma LaunchHardStops(stopLoss: real, adScore: int, trend: Trend, totalSpend: real)
    ensures totalSpend < LaunchLearningSpend ==> LaunchPhaseStatus(stopLoss, adScore, trend, totalSpend) == Monitor
    ensures totalSpend >= LaunchLearningSpend && stopLoss < LaunchStopLossHardStop ==>
      LaunchPhaseStatus(stopLoss, adScore, trend, totalSpend) == Kill
    ensures totalSpend >= LaunchLearningSpend && stopLoss < LaunchStopLossCritical ==>
      Rank(LaunchPhaseStatus(stopLoss, adScore, trend, totalSpend)) <= Rank(LastChance)
  {
  }

  /** A higher ad score never makes the Launch verdict worse. */
  lemma LaunchMonotoneInScore(stopLoss: real, score1: int, score2: int, trend: Trend, totalSpend: real)
    requires score1 <= score2
    ensures Rank(LaunchPhaseStatus(stopLoss, score1, trend, totalSpend)) <= Rank(LaunchPhaseStatus(stopLoss, score2, trend, totalSpend))
  {
  }

  /** A better stop loss never makes the Launch verdict worse. */
  lemma LaunchMonotoneInStopLoss(loss1: real, loss2: real, adScore: int, trend: Trend, totalSpend: real)
    requires loss1 <= loss2
    ensures Rank(LaunchPhaseStatus(loss1, adScore, trend, totalSpend)) <= Rank(LaunchPhaseStatus(loss2, adScore, trend, totalSpend))
  {
  }

  // ---------------------------------------------------------------------------
  // Phase 2: Validation (5,000 to 15,000 INR)
  // ---------------------------------------------------------------------------

  function ValidationPhaseStatus(stopLoss: real, trajectory: Trajectory, trend: Trend, roas: real): (s: Status)
    ensures IsVerdict(s)
  {
    if stopLoss < ValidationStopLossHardStop then Kill
    else if stopLoss > 0.0 then
      (if roas >= RoasAcceptable then Continue
       else if roas >= RoasWarning then
         (if trend == Declining && trajectory == Worsening then LastChance else Monitor)
       else LastChance)
    else if stopLoss < ValidationStopLossWarning then
      (if trajectory == TrajectoryImproving && trend == Improving then
         (if roas >= RoasAcceptable then Monitor else if roas >= RoasWarning then LastChance else Kill)
       else if trajectory == TrajectoryImproving && trend == Stable then LastChance
       else Kill)
    else if trajectory == TrajectoryImproving then
      (if trend == Improving && roas >= RoasAcceptable then Continue
       else if (trend == Improving || trend == Stable) && roas >= RoasWarning then Continue
       else Monitor)
    else if trajectory == TrajectoryStable then
      (if roas >= RoasAcceptable && trend == Stable then Monitor
       else if roas >= RoasWarning && trend == Stable then LastChance
       else if trend == Declining then LastChance
       else Kill)
    else Kill
  }

  lemma ValidationHardStops(stopLoss: real, trajectory: Trajectory, trend: Trend, roas: real)
    ensures stopLoss < ValidationStopLossHardStop ==> ValidationPhaseStatus(stopLoss, trajectory, trend, roas) == Kill
    ensures ValidationStopLossWarning <= stopLoss <= 0.0 && trajectory == Worsening ==>
      ValidationPhaseStatus(stopLoss, trajectory, trend, roas) == Kill
    ensures stopLoss > 0.0 && roas >= RoasAcceptable ==> ValidationPhaseStatus(stopLoss, trajectory, trend, roas) == Continue
  {
  }

  /** A higher ROAS never makes the Validation verdict worse. */
  lemma ValidationMonotoneInRoas(stopLoss: real, trajectory: Trajectory, trend: Trend, roas1: real, roas2: real)
    requires roas1 <= roas2
    ensures Rank(ValidationPhaseStatus(stopLoss, trajectory, trend, roas1)) <= Rank(ValidationPhaseStatus(stopLoss, trajectory, trend, roas2))
  {
  }

  // ---------------------------------------------------------------------------
  // Phase 3: Longevity (15,000 INR and more)
  // ---------------------------------------------------------------------------

  predicate Above(x: Option<real>, bound: real)
  {
    x.Some? && x.value > bound
  }

  function LongevityPhaseStatus(overallRoas: real, decay: DecayInfo, stopLoss: real, trend: Trend): (s: Status)
    ensures IsVerdict(s)
  {
    var l3k := decay.l3kDecay;
    if overallRoas >= RoasSafeZone then
      (if decay.pattern == Accelerating && Above(l3k, 30.0) then Monitor else Continue)
    else if overallRoas < RoasAcceptable then Kill
    else if overallRoas < RoasGood then
      (if decay.pattern == Recovering then Monitor
       else if Above(l3k, 20.0) then Kill
       else if Above(l3k, 10.0) then
         (if trend == Improving && stopLoss > ProfitBufferSafe then LastChance else Kill)
       else if (trend == Improving || trend == Stable) && stopLoss > ProfitBufferSafe then Monitor
       else LastChance)
    else if decay.pattern == Recovering then Continue
    else if l3k.None? || l3k.value < DecayIgnore then Continue
    else if l3k.value < DecayWarning then
      (if Above(decay.velocity, DecayVelocityAccelerating) then Kill
       else if decay.pattern == Accelerating then (if stopLoss > ProfitBufferSafe then Monitor else LastChance)
       else if decay.pattern == SuddenDrop then Monitor
       else if trend == Improving then Monitor
       else if trend == Stable then (if stopLoss > ProfitBufferSafe then Monitor else LastChance)
       else LastChance)
    else if trend == Improving && stopLoss > ProfitBufferSafe then LastChance
    else Kill
  }

  lemma LongevityRules(overallRoas: real, decay: DecayInfo, stopLoss: real, trend: Trend)
    ensures overallRoas < RoasAcceptable ==> LongevityPhaseStatus(overallRoas, decay, stopLoss, trend) == Kill
    ensures overallRoas >= RoasSafeZone ==> Rank(LongevityPhaseStatus(overallRoas, decay, stopLoss, trend)) >= Rank(Monitor)
    ensures RoasGood <= overallRoas < RoasSafeZone && decay.pattern == Recovering ==>
      LongevityPhaseStatus(overallRoas, decay, stopLoss, trend) == Continue
    ensures RoasAcceptable <= overallRoas < RoasGood && decay.pattern == Recovering ==>
      LongevityPhaseStatus(overallRoas, decay, stopLoss, trend) == Monitor
  {
  }

  // ---------------------------------------------------------------------------
  // Orchestration
  // ---------------------------------------------------------------------------

  /** The phase and status of one ad's history. */
  function AdStatusOf(history: seq<DayRecord>): (r: AdStatus)
    ensures history == [] <==> r == AdStatus(NoPhase, Monitor)
    ensures history != [] ==> r.phase == DetectPhase(Sum(Spends(history))) && IsVerdict(r.status)
    ensures history != [] && Sum(Spends(history)) < LaunchLearningSpend ==> r.status == Monitor
    ensures history != [] && Sum(Spends(history)) >= ValidationMaxSpend && ScalingRoas(Sum(ConversionValues(history)), Sum(Spends(history))) < RoasAcceptable ==> r.status == Kill
  {
    if history == [] then AdStatus(NoPhase, Monitor)
    else
      var sorted := SortByDate(history);
      var totalSpend := Sum(Spends(sorted));
      var stopLoss := StopLoss(Truncate(Sum(Purchases(sorted))), totalSpend);
      var overallRoas := ScalingRoas(Sum(ConversionValues(sorted)), totalSpend);
      var latest := sorted[|sorted| - 1];
      var adScore := DayScore(latest);
      var phase := DetectPhase(totalSpend);
      SortedTotals(history);
      AdStatus(phase, PhaseStatus(phase, sorted, stopLoss, adScore, overallRoas, totalSpend))
  }

  function PhaseStatus(phase: Phase, sorted: seq<DayRecord>, stopLoss: real, adScore: int, overallRoas: real, totalSpend: real): (s: Status)
    requires phase == DetectPhase(totalSpend)
    ensures IsVerdict(s)
    ensures totalSpend < LaunchLearningSpend ==> s == Monitor
    ensures totalSpend >= ValidationMaxSpend && overallRoas < RoasAcceptable ==> s == Kill
  {
    match phase
    case Launch => LaunchPhaseStatus(stopLoss, adScore, CalculateTrend(sorted), totalSpend)
    case Validation =>
      var trajectory := CalculateTrajectory(stopLoss, Some(StopLossAt5k(sorted)));
      ValidationPhaseStatus(stopLoss, trajectory, CalculateTrend(sorted), overallRoas)
    case Longevity =>
      var w := AllSpendWindows(sorted);
      var decay := ClassifyDecayPattern(overallRoas, w.l3k, w.l5k, w.l7k, w.l10k);
      LongevityPhaseStatus(overallRoas, decay, stopLoss, CalculateTrend(sorted))
  }

  /** The orchestrator as the source runs it, with its loops. */
  method GetAdStatus(history: seq<DayRecord>) returns (r: AdStatus)
    ensures r == AdStatusOf(history)
  {
    if history == [] {
      return AdStatus(NoPhase, Monitor);
    }
    var sorted := SortByDate(history);
    var totalSpend := Sum(Spends(sorted));
    var stopLoss := StopLoss(Truncate(Sum(Purchases(sorted))), totalSpend);
    var overallRoas := ScalingRoas(Sum(ConversionValues(sorted)), totalSpend);
    var adScore := DayScore(sorted[|sorted| - 1]);
    var phase := DetectPhase(totalSpend);
    var status: Status;
    if phase == Launch {
      status := LaunchPhaseStatus(stopLoss, adScore, CalculateTrend(sorted), totalSpend);
    } else if phase == Validation {
      var atLaunchLimit := ComputeStopLossAt5k(sorted);
      var trajectory := CalculateTrajectory(stopLoss, Some(atLaunchLimit));
      status := ValidationPhaseStatus(stopLoss, trajectory, CalculateTrend(sorted), overallRoas);
    } else {
      var w := ComputeAllSpendWindows(sorted);
      var decay := ClassifyDecayPattern(overallRoas, w.l3k, w.l5k, w.l7k, w.l10k);
      status := LongevityPhaseStatus(overallRoas, decay, stopLoss, CalculateTrend(sorted));
    }
    r := AdStatus(phase, status);
  }

  /** The batch row of one ad: its status, or an error row when the attempt
    * raised. `Err` stands for either failure of the source's `try` block:
    * loading the history, or an exception inside the status computation. */
  function RowFor(adName: string, history: Result<seq<DayRecord>, string>): (row: StatusRow)
    ensures row.adName == adName
    ensures history.Err? <==> row.phase == PhaseError
    ensures history.Err? ==> row.status == StatusError && row.error == Some(history.error)
    ensures history.Ok? ==> row.error.None? && AdStatus(row.phase, row.status) == AdStatusOf(history.value)
  {
    match history
    case Err(e) => StatusRow(adName, PhaseError, StatusError, Some(e))
    case Ok(h) =>
      var s := AdStatusOf(h);
      StatusRow(adName, s.phase, s.status, None)
  }

  /** One row per ad name, in order; a failing ad does not stop the batch. */
  method GetAllAdsStatus(adNames: seq<string>, loadHistory: string -> Result<seq<DayRecord>, string>) returns (rows: seq<StatusRow>)
    ensures rows == AllRows(adNames, loadHistory)
  {
    rows := [];
    var i := 0;
    while i < |adNames|
      invariant 0 <= i <= |adNames|
      invariant rows == AllRows(adNames[..i], loadHistory)
    {
      var row := StatusRowOf(adNames[i], loadHistory(adNames[i]));
      assert adNames[..i + 1][..i] == adNames[..i];
      rows := rows + [row];
      i := i + 1;
    }
    assert adNames[..i] == adNames;
  }

  /** The batch rows of the ads, one after another. */
  function AllRows(adNames: seq<string>, loadHistory: string -> Result<seq<DayRecord>, string>): (rows: seq<StatusRow>)
    ensures |rows| == |adNames|
  {
    if adNames == [] then []
    else AllRows(adNames[..|adNames| - 1], loadHistory) + [RowFor(adNames[|adNames| - 1], loadHistory(adNames[|adNames| - 1]))]
  }

  /** The batch yields one row per ad name, in order: row `i` is the row of ad `i`. */
  lemma {:induction false} AllRowsAt(adNames: seq<string>, loadHistory: string -> Result<seq<DayRecord>, string>, i: nat)
    requires i < |adNames|
    ensures AllRows(adNames, loadHistory)[i] == RowFor(adNames[i], loadHistory(adNames[i]))
    decreases |adNames|
  {
    var n := |adNames| - 1;
    var last := RowFor(adNames[n], loadHistory(adNames[n]));
    assert AllRows(adNames, loadHistory) == AllRows(adNames[..n], loadHistory) + [last];
    if i < n {
      AllRowsAt(adNames[..n], loadHistory, i);
      assert adNames[..n][i] == adNames[i];
    }
  }

  /** One ad's batch row: a load error becomes an error row, otherwise the ad's status. */
  method StatusRowOf(adName: string, history: Result<seq<DayRecord>, string>) returns (row: StatusRow)
    ensures row == RowFor(adName, history)
  {
    match history {
      case Err(e) =>
        row := StatusRow(adName, PhaseError, StatusError, Some(e));
      case Ok(h) =>
        var s := GetAdStatus(h);
        row := StatusRow(adName, s.phase, s.status, None);
    }
  }
}
