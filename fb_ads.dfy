/**
 * Companion ad analytics: the recommendation-labelled ad score, rolling and
 * last-spend ROAS series, true ROAS, the trend arrow, a weighted average, the
 * column adapter that feeds the scaling engine, and the composite key and
 * counters of the ads upload.
 * A cell that is missing or not numeric is `None`; numeric columns are
 * coerced with such cells counted as 0.
 */
module FbAds {
  import opened Wrappers
  import AdScaling

  // ---------------------------------------------------------------------------
  // Ad score with a recommendation
  // ---------------------------------------------------------------------------

  datatype Recommendation = Scale | Test | Rework | KillAd

  function RecommendationFor(score: int): (r: Recommendation)
    ensures r == Scale <==> score >= 10
    ensures r == Test <==> 8 <= score < 10
    ensures r == Rework <==> 6 <= score < 8
    ensures r == KillAd <==> score < 6
  {
    if score >= 10 then Scale
    else if score >= 8 then Test
    else if score >= 6 then Rework
    else KillAd
  }

  /** Hook tiers on the decimal form of the rate (0.30 means 30%). */
  function DecimalHookPoints(hookRate: real): (p: int)
    ensures 1 <= p <= 4
  {
    if hookRate >= 0.30 then 4
    else if hookRate >= 0.20 then 3
    else if hookRate >= 0.15 then 2
    else 1
  }

  /** The ad score and its recommendation; a missing CTR or hook rate counts as 0
    * and a missing CPM as 999. */
  function CalculateAdScore(ctr: Option<real>, hookRate: Option<real>, cpm: Option<real>): (r: (int, Recommendation))
    ensures 3 <= r.0 <= 12
    ensures r.1 == RecommendationFor(r.0)
  {
    var score := AdScaling.CtrPoints(ctr.UnwrapOr(0.0))
      + DecimalHookPoints(hookRate.UnwrapOr(0.0))
      + AdScaling.CpmPoints(cpm.UnwrapOr(999.0));
    (score, RecommendationFor(score))
  }

  /** Missing inputs fall to the lowest tier of every component. */
  lemma MissingInputsScoreLowest(ctr: Option<real>, hookRate: Option<real>, cpm: Option<real>)
    ensures var (score, rec) := CalculateAdScore(None, None, None); score == 3 && rec == KillAd
    ensures CalculateAdScore(ctr, hookRate, None).0 == CalculateAdScore(ctr, hookRate, Some(999.0)).0
    ensures AdScaling.CpmPoints(999.0) == 1 && DecimalHookPoints(0.0) == 1 && AdScaling.CtrPoints(0.0) == 1
  {
  }

  /** For a hook rate given as a fraction below 1, this score and the scaling
    * engine's score agree. */
  lemma ScoresAgreeOnFractions(ctr: real, hookRate: real, cpm: real)
    requires hookRate < 1.0
    ensures CalculateAdScore(Some(ctr), Some(hookRate), Some(cpm)).0 == AdScaling.ScalingAdScore(ctr, hookRate, cpm)
  {
  }

  /** A hook rate written in percent (5.0 for 5%) scores at the top tier here and
    * at the bottom tier in the scaling engine. */
  lemma ScoresDisagreeOnPercentForm()
    ensures CalculateAdScore(Some(0.0), Some(5.0), Some(999.0)).0 == 6
    ensures AdScaling.ScalingAdScore(0.0, 5.0, 999.0) == 3
  {
  }

  // ---------------------------------------------------------------------------
  // Trend arrow
  // ---------------------------------------------------------------------------

  datatype Arrow = Up | Down | Flat

  function Abs(x: real): real { if x < 0.0 then -x else x }

  /** Up above a +5% change, down below -5%, flat otherwise or when there is no
    * previous value to compare with. */
  function TrendArrow(current: real, previous: real): (a: Arrow)
    ensures previous == 0.0 ==> a == Flat
    ensures previous != 0.0 ==> (a == Up <==> current - previous > Abs(previous) * 0.05)
    ensures previous != 0.0 ==> (a == Down <==> current - previous < -Abs(previous) * 0.05)
  {
    if previous == 0.0 then Flat
    else
      var pctChange := (current - previous) / Abs(previous) * 100.0;
      if pctChange > 5.0 then Up
      else if pctChange < -5.0 then Down
      else Flat
  }

  // ---------------------------------------------------------------------------
  // ROAS series
  // ---------------------------------------------------------------------------

  /** One row of the ads table, reduced to the two columns the ROAS series read. */
  datatype AdRow = AdRow(amountSpent: Option<real>, conversionValue: Option<real>)

  /** The coerced spend column (non-numeric cells become 0). */
  function SpendColumn(rows: seq<AdRow>): (c: seq<real>)
    ensures |c| == |rows| && forall i :: 0 <= i < |rows| ==> c[i] == rows[i].amountSpent.UnwrapOr(0.0)
  {
    seq(|rows|, i requires 0 <= i < |rows| => rows[i].amountSpent.UnwrapOr(0.0))
  }

  function ValueColumn(rows: seq<AdRow>): (c: seq<real>)
    ensures |c| == |rows| && forall i :: 0 <= i < |rows| ==> c[i] == rows[i].conversionValue.UnwrapOr(0.0)
  {
    seq(|rows|, i requires 0 <= i < |rows| => rows[i].conversionValue.UnwrapOr(0.0))
  }

  /** Total conversion value over total spend; 0 for no rows or zero total spend. */
  function TrueRoas(rows: seq<AdRow>): (r: real)
    ensures rows == [] ==> r == 0.0
    ensures AdScaling.Sum(SpendColumn(rows)) == 0.0 ==> r == 0.0
    ensures AdScaling.Sum(SpendColumn(rows)) != 0.0 ==> r * AdScaling.Sum(SpendColumn(rows)) == AdScaling.Sum(ValueColumn(rows))
  {
    if rows == [] then 0.0
    else
      var spend := AdScaling.Sum(SpendColumn(rows));
      if spend == 0.0 then 0.0 else AdScaling.Sum(ValueColumn(rows)) / spend
  }

  function RatioOrZero(value: real, spend: real): (r: real)
    ensures spend <= 0.0 ==> r == 0.0
    ensures spend > 0.0 ==> r * spend == value
  {
    if spend > 0.0 then value / spend else 0.0
  }

  /** Where the window of `days` rows ending at row i begins (an empty window
    * for a non-positive day count). */
  function WindowStart(i: nat, days: int): (s: nat)
    requires days - 1 <= i
    ensures s <= i + 1
  {
    if days >= 1 then i - days + 1 else i + 1
  }

  /** The `days`-day rolling ROAS: None for the first days-1 rows. */
  method CalculateRollingRoas(rows: seq<AdRow>, days: int) returns (series: seq<Option<real>>)
    ensures |series| == |rows|
    ensures forall i :: 0 <= i < |rows| ==> (series[i].None? <==> i < days - 1)
    ensures forall i :: 0 <= i < |rows| && days - 1 <= i ==>
      var spends := SpendColumn(rows)[WindowStart(i, days)..i + 1];
      var values := ValueColumn(rows)[WindowStart(i, days)..i + 1];
      series[i] == Some(RatioOrZero(AdScaling.Sum(values), AdScaling.Sum(spends)))
  {
    var spendCol := SpendColumn(rows);
    var valueCol := ValueColumn(rows);
    series := [];
    var i := 0;
    while i < |rows|
      invariant 0 <= i <= |rows|
      invariant |series| == i
      invariant forall k :: 0 <= k < i ==> (series[k].None? <==> k < days - 1)
      invariant forall k :: 0 <= k < i && days - 1 <= k ==>
        series[k] == Some(RatioOrZero(AdScaling.Sum(valueCol[WindowStart(k, days)..k + 1]), AdScaling.Sum(spendCol[WindowStart(k, days)..k + 1])))
    {
      if i < days - 1 {
        series := series + [None];
      } else {
        var start := WindowStart(i, days);
        var totalSpend := AdScaling.Sum(spendCol[start..i + 1]);
        var totalValue := AdScaling.Sum(valueCol[start..i + 1]);
        series := series + [Some(RatioOrZero(totalValue, totalSpend))];
      }
      i := i + 1;
    }
  }

  /** The value of row i of the last-spend series. */
  function LastSpendEntry(spends: seq<real>, values: seq<real>, i: nat, threshold: real): Option<real>
    requires |spends| == |values| && i < |spends|
  {
    if AdScaling.Sum(spends[..i + 1]) < threshold then None
    else AdScaling.WindowRoas(AdScaling.Reverse(spends[..i + 1]), AdScaling.Reverse(values[..i + 1]), threshold)
  }

  /** Once the spend so far reaches the threshold, the backward window always
    * reaches it too, so the entry is a number. */
  lemma LastSpendEntryDefined(spends: seq<real>, values: seq<real>, i: nat, threshold: real)
    requires |spends| == |values| && i < |spends|
    ensures LastSpendEntry(spends, values, i, threshold).None? <==> AdScaling.Sum(spends[..i + 1]) < threshold
  {
    var back := AdScaling.Reverse(spends[..i + 1]);
    if AdScaling.Sum(spends[..i + 1]) >= threshold {
      AdScaling.ReverseSum(spends[..i + 1]);
      assert back[..|back|] == back;
      assert AdScaling.Sum(back[..i + 1]) >= threshold;
    }
  }

  /** For each row, the ROAS of the shortest run of rows ending there whose spend
    * reaches the threshold, or None while the spend so far is below it. */
  method CalculateLastSpendRoas(rows: seq<AdRow>, threshold: real) returns (series: seq<Option<real>>)
    ensures |series| == |rows|
    ensures forall i :: 0 <= i < |rows| ==> series[i] == LastSpendEntry(SpendColumn(rows), ValueColumn(rows), i, threshold)
    ensures forall i :: 0 <= i < |rows| ==> (series[i].None? <==> AdScaling.Sum(SpendColumn(rows)[..i + 1]) < threshold)
  {
    var spendCol := SpendColumn(rows);
    var valueCol := ValueColumn(rows);
    series := [];
    var i := 0;
    while i < |rows|
      invariant 0 <= i <= |rows|
      invariant |series| == i
      invariant forall k :: 0 <= k < i ==> series[k] == LastSpendEntry(spendCol, valueCol, k, threshold)
    {
      var cumulativeSpend := AdScaling.Sum(spendCol[..i + 1]);
      if cumulativeSpend < threshold {
        series := series + [None];
      } else {
        var entry := AdScaling.AccumulateWindow(AdScaling.Reverse(spendCol[..i + 1]), AdScaling.Reverse(valueCol[..i + 1]), threshold);
        series := series + [entry];
      }
      i := i + 1;
    }
    forall i | 0 <= i < |rows|
      ensures series[i].None? <==> AdScaling.Sum(spendCol[..i + 1]) < threshold
    {
      LastSpendEntryDefined(spendCol, valueCol, i, threshold);
    }
  }

  // ---------------------------------------------------------------------------
  // Weighted average
  // ---------------------------------------------------------------------------

  /** The rows with both a value and a weight (the others are dropped). */
  function Complete(rows: seq<(Option<real>, Option<real>)>): (r: seq<(real, real)>)
    ensures |r| <= |rows|
    ensures forall p :: p in r <==>
      (exists i :: 0 <= i < |rows| && rows[i].0.Some? && rows[i].1.Some? && p == (rows[i].0.value, rows[i].1.value))
  {
    if rows == [] then []
    else
      var rest := Complete(rows[1..]);
      if rows[0].0.Some? && rows[0].1.Some? then [(rows[0].0.value, rows[0].1.value)] + rest else rest
  }

  function Weights(pairs: seq<(real, real)>): (r: seq<real>)
    ensures |r| == |pairs| && forall i :: 0 <= i < |pairs| ==> r[i] == pairs[i].1
  {
    seq(|pairs|, i requires 0 <= i < |pairs| => pairs[i].1)
  }

  function Products(pairs: seq<(real, real)>): (r: seq<real>)
    ensures |r| == |pairs| && forall i :: 0 <= i < |pairs| ==> r[i] == pairs[i].0 * pairs[i].1
  {
    seq(|pairs|, i requires 0 <= i < |pairs| => pairs[i].0 * pairs[i].1)
  }

  /** Sum of value times weight over sum of weight, over the complete rows;
    * 0 when there are none or their weights sum to 0. */
  function WeightedAverage(rows: seq<(Option<real>, Option<real>)>): (r: real)
    ensures rows == [] || Complete(rows) == [] || AdScaling.Sum(Weights(Complete(rows))) == 0.0 ==> r == 0.0
    ensures AdScaling.Sum(Weights(Complete(rows))) != 0.0 ==>
      r * AdScaling.Sum(Weights(Complete(rows))) == AdScaling.Sum(Products(Complete(rows)))
  {
    if rows == [] then 0.0
    else
      var clean := Complete(rows);
      var totalWeight := AdScaling.Sum(Weights(clean));
      if clean == [] || totalWeight == 0.0 then 0.0
      else AdScaling.Sum(Products(clean)) / totalWeight
  }

  /** Every value paired with the same weight. */
  function WithWeight(values: seq<real>, w: real): (rows: seq<(Option<real>, Option<real>)>)
    ensures |rows| == |values| && forall i :: 0 <= i < |values| ==> rows[i] == (Some(values[i]), Some(w))
  {
    seq(|values|, i requires 0 <= i < |values| => (Some(values[i]), Some(w)))
  }

  function Scaled(xs: seq<real>, w: real): (r: seq<real>)
    ensures |r| == |xs| && forall i :: 0 <= i < |xs| ==> r[i] == xs[i] * w
  {
    seq(|xs|, i requires 0 <= i < |xs| => xs[i] * w)
  }

  function Constant(w: real, n: nat): (r: seq<real>)
    ensures |r| == n && forall i :: 0 <= i < n ==> r[i] == w
  {
    seq(n, i requires 0 <= i < n => w)
  }

  function Pairs(values: seq<real>, w: real): (r: seq<(real, real)>)
    ensures |r| == |values| && forall i :: 0 <= i < |values| ==> r[i] == (values[i], w)
  {
    seq(|values|, i requires 0 <= i < |values| => (values[i], w))
  }

  lemma {:induction false} CompleteWithWeight(values: seq<real>, w: real)
    ensures Complete(WithWeight(values, w)) == Pairs(values, w)
    decreases |values|
  {
    if values != [] {
      assert WithWeight(values, w)[1..] == WithWeight(values[1..], w);
      CompleteWithWeight(values[1..], w);
      assert Complete(WithWeight(values, w)) == [(values[0], w)] + Pairs(values[1..], w);
      assert [(values[0], w)] + Pairs(values[1..], w) == Pairs(values, w);
    }
  }

  lemma {:induction false} ScaledSum(xs: seq<real>, w: real)
    ensures AdScaling.Sum(Scaled(xs, w)) == AdScaling.Sum(xs) * w
    decreases |xs|
  {
    if |xs| > 0 {
      var n := |xs| - 1;
      var front := xs[..n];
      var scaled := Scaled(xs, w);
      ScaledSum(front, w);
      ScaledPrefix(xs, w, n);
      assert AdScaling.Sum(scaled) == AdScaling.Sum(scaled[..n]) + scaled[n];
      assert AdScaling.Sum(xs) == AdScaling.Sum(front) + xs[n];
      Distribute(AdScaling.Sum(front), xs[n], w);
    }
  }

  lemma ScaledPrefix(xs: seq<real>, w: real, k: nat)
    requires k <= |xs|
    ensures Scaled(xs, w)[..k] == Scaled(xs[..k], w)
  {
    assert forall i :: 0 <= i < k ==> Scaled(xs, w)[..k][i] == Scaled(xs[..k], w)[i];
  }

  lemma Distribute(a: real, b: real, w: real)
    ensures a * w + b * w == (a + b) * w
  {
  }

  lemma {:induction false} ConstantSum(w: real, n: nat)
    ensures AdScaling.Sum(Constant(w, n)) == w * (n as real)
    decreases n
  {
    if n > 0 {
      ConstantSum(w, n - 1);
      assert Constant(w, n)[..n - 1] == Constant(w, n - 1);
    }
  }

  lemma CancelWeight(avg: real, weight: real, product: real, total: real, w: real, n: real)
    requires w != 0.0 && n > 0.0
    requires weight == w * n && product == total * w
    requires weight != 0.0 ==> avg * weight == product
    ensures avg == total / n
  {
    NonZeroProduct(w, n);
    assert avg * (w * n) == total * w;
    assert (avg * n - total) * w == avg * (w * n) - total * w;
  }

  lemma NonZeroProduct(w: real, n: real)
    requires w != 0.0 && n > 0.0
    ensures w * n != 0.0
  {
    if w > 0.0 { assert w * n > 0.0; } else { assert w * n < 0.0; }
  }

  lemma MeanFromTotals(rows: seq<(Option<real>, Option<real>)>, total: real, w: real, n: real)
    requires w != 0.0 && n > 0.0
    requires AdScaling.Sum(Weights(Complete(rows))) == w * n
    requires AdScaling.Sum(Products(Complete(rows))) == total * w
    ensures WeightedAverage(rows) == total / n
  {
    CancelWeight(WeightedAverage(rows), AdScaling.Sum(Weights(Complete(rows))),
      AdScaling.Sum(Products(Complete(rows))), total, w, n);
  }

  lemma WithWeightTotalWeight(values: seq<real>, w: real)
    ensures AdScaling.Sum(Weights(Complete(WithWeight(values, w)))) == w * (|values| as real)
  {
    CompleteWithWeight(values, w);
    assert Weights(Complete(WithWeight(values, w))) == Constant(w, |values|);
    ConstantSum(w, |values|);
  }

  lemma WithWeightTotalProduct(values: seq<real>, w: real)
    ensures AdScaling.Sum(Products(Complete(WithWeight(values, w)))) == AdScaling.Sum(values) * w
  {
    CompleteWithWeight(values, w);
    var clean := Complete(WithWeight(values, w));
    forall i | 0 <= i < |values| ensures Products(clean)[i] == Scaled(values, w)[i] {
      assert clean[i] == (values[i], w);
    }
    assert Products(clean) == Scaled(values, w);
    ScaledSum(values, w);
  }

  /** The plain arithmetic mean. */
  function Mean(values: seq<real>): (r: real)
    requires |values| > 0
    ensures r * (|values| as real) == AdScaling.Sum(values)
  {
    AdScaling.Sum(values) / (|values| as real)
  }

  /** With one common non-zero weight the weighted average is the plain mean. */
  lemma EqualWeightsGiveMean(values: seq<real>, w: real)
    requires w != 0.0 && |values| > 0
    ensures WeightedAverage(WithWeight(values, w)) == Mean(values)
  {
    WithWeightTotalWeight(values, w);
    WithWeightTotalProduct(values, w);
    MeanFromTotals(WithWeight(values, w), AdScaling.Sum(values), w, |values| as real);
  }

  // ---------------------------------------------------------------------------
  // Column adapter for the scaling engine
  // ---------------------------------------------------------------------------

  /** A column: its name and (for this model) one cell value. */
  datatype Col = Col(name: string, cell: real)

  const ScalingColumnMap: map<string, string> := map[
    "Reporting starts" := "Reporting_starts",
    "Amount spent (INR)" := "Amount_spent_INR",
    "CPM (cost per 1,000 impressions) (INR)" := "CPM_INR",
    "CPM (cost per 1,000 impressions)" := "CPM_INR",
    "Purchases conversion value" := "Purchases_conversion_value",
    "Hook rate" := "Hook_rate",
    "Hook Rate" := "Hook_rate",
    "CTR (link click-through rate)" := "CTR",
    "Purchases" := "Purchases"]

  /** The target columns in the order the adapter fills them in. */
  const ScalingTargets: seq<string> := [
    "Reporting_starts", "Amount_spent_INR", "CPM_INR", "CPM_INR",
    "Purchases_conversion_value", "Hook_rate", "Hook_rate", "CTR", "Purchases"]

  lemma TargetsAreMapValues()
    ensures forall t :: t in ScalingTargets <==> t in ScalingColumnMap.Values
  {
    assert ScalingColumnMap["Reporting starts"] == "Reporting_starts";
    assert ScalingColumnMap["Amount spent (INR)"] == "Amount_spent_INR";
    assert ScalingColumnMap["CPM (cost per 1,000 impressions) (INR)"] == "CPM_INR";
    assert ScalingColumnMap["Purchases conversion value"] == "Purchases_conversion_value";
    assert ScalingColumnMap["Hook rate"] == "Hook_rate";
    assert ScalingColumnMap["CTR (link click-through rate)"] == "CTR";
    assert ScalingColumnMap["Purchases"] == "Purchases";
  }

  function Rename(name: string): string
  {
    if name in ScalingColumnMap then ScalingColumnMap[name] else name
  }

  function Names(cols: seq<Col>): (names: seq<string>)
    ensures |names| == |cols| && forall i :: 0 <= i < |cols| ==> names[i] == cols[i].name
  {
    seq(|cols|, i requires 0 <= i < |cols| => cols[i].name)
  }

  lemma NamesAppend(cols: seq<Col>, c: Col)
    ensures Names(cols + [c]) == Names(cols) + [c.name]
  {
  }

  /** Renames the known columns in place, then appends every still-missing
    * target column filled with 0. */
  method MapColumnsForScaling(cols: seq<Col>) returns (out: seq<Col>)
    ensures |out| >= |cols|
    ensures forall i :: 0 <= i < |cols| ==> out[i] == Col(Rename(cols[i].name), cols[i].cell)
    ensures forall t :: t in ScalingTargets ==> t in Names(out)
    ensures forall i :: |cols| <= i < |out| ==> out[i].cell == 0.0 && out[i].name in ScalingTargets
    ensures forall i :: |cols| <= i < |out| ==> out[i].name !in Names(out[..i])
  {
    out := seq(|cols|, i requires 0 <= i < |cols| => Col(Rename(cols[i].name), cols[i].cell));
    var k := 0;
    while k < |ScalingTargets|
      invariant 0 <= k <= |ScalingTargets|
      invariant |out| >= |cols|
      invariant forall i :: 0 <= i < |cols| ==> out[i] == Col(Rename(cols[i].name), cols[i].cell)
      invariant forall j :: 0 <= j < k ==> ScalingTargets[j] in Names(out)
      invariant forall i :: |cols| <= i < |out| ==> out[i].cell == 0.0 && out[i].name in ScalingTargets
      invariant forall i :: |cols| <= i < |out| ==> out[i].name !in Names(out[..i])
    {
      var target := ScalingTargets[k];
      if target !in Names(out) {
        var old' := out;
        NamesAppend(old', Col(target, 0.0));
        out := old' + [Col(target, 0.0)];
        assert out[..|old'|] == old';
        assert forall i :: |cols| <= i < |old'| ==> out[..i] == old'[..i];
      }
      k := k + 1;
    }
  }

  // ---------------------------------------------------------------------------
  // Composite key and upload counters
  // ---------------------------------------------------------------------------

  const KeySeparator: string := "||"

  /** The upsert key of an ads row: ad, campaign, ad set and reporting start. */
  function CompositeKey(adName: string, campaign: string, adSet: string, reportingStarts: string): string
  {
    adName + KeySeparator + campaign + KeySeparator + adSet + KeySeparator + reportingStarts
  }

  /** Splits a string at every occurrence of `sep`. */
  function SplitOn(s: string, sep: char): (parts: seq<string>)
    ensures |parts| >= 1
    decreases |s|
  {
    if s == [] then [[]]
    else if s[0] == sep then [[]] + SplitOn(s[1..], sep)
    else
      var rest := SplitOn(s[1..], sep);
      [[s[0]] + rest[0]] + rest[1..]
  }

  lemma {:induction false} SplitOnPlain(x: string, sep: char)
    requires sep !in x
    ensures SplitOn(x, sep) == [x]
    decreases |x|
  {
    if x != [] {
      SplitOnPlain(x[1..], sep);
      assert [x[0]] + x[1..] == x;
    }
  }

  lemma {:induction false} SplitOnConcat(x: string, sep: char, y: string)
    requires sep !in x
    ensures SplitOn(x + [sep] + y, sep) == [x] + SplitOn(y, sep)
    decreases |x|
  {
    if x == [] {
      assert x + [sep] + y == [sep] + y;
      assert ([sep] + y)[1..] == y;
    } else {
      assert (x + [sep] + y)[1..] == x[1..] + [sep] + y;
      SplitOnConcat(x[1..], sep, y);
      assert [x[0]] + x[1..] == x;
    }
  }

  lemma SplitOnSeparator(x: string, y: string)
    requires '|' !in x
    ensures SplitOn(x + KeySeparator + y, '|') == [x, ""] + SplitOn(y, '|')
  {
    assert x + KeySeparator + y == x + ['|'] + ([] + ['|'] + y);
    SplitOnConcat(x, '|', [] + ['|'] + y);
    SplitOnConcat([], '|', y);
  }

  /** A key splits back into its four fields when no field contains '|'. */
  lemma CompositeKeyFields(adName: string, campaign: string, adSet: string, reportingStarts: string)
    requires '|' !in adName && '|' !in campaign && '|' !in adSet && '|' !in reportingStarts
    ensures SplitOn(CompositeKey(adName, campaign, adSet, reportingStarts), '|')
         == [adName, "", campaign, "", adSet, "", reportingStarts]
  {
    var tail2 := campaign + KeySeparator + (adSet + KeySeparator + reportingStarts);
    assert CompositeKey(adName, campaign, adSet, reportingStarts) == adName + KeySeparator + tail2;
    SplitFields(adName, campaign, adSet, reportingStarts);
  }

  lemma SplitFields(a: string, b: string, c: string, d: string)
    requires '|' !in a && '|' !in b && '|' !in c && '|' !in d
    ensures SplitOn(a + KeySeparator + (b + KeySeparator + (c + KeySeparator + d)), '|') == [a, "", b, "", c, "", d]
  {
    SplitOnSeparator(a, b + KeySeparator + (c + KeySeparator + d));
    SplitOnSeparator(b, c + KeySeparator + d);
    SplitOnSeparator(c, d);
    SplitOnPlain(d, '|');
    assert [a, ""] + ([b, ""] + ([c, ""] + [d])) == [a, "", b, "", c, "", d];
  }

  /** Rows whose fields contain no '|' share a key only when all four fields agree. */
  lemma CompositeKeyInjective(a1: string, c1: string, s1: string, r1: string, a2: string, c2: string, s2: string, r2: string)
    requires '|' !in a1 && '|' !in c1 && '|' !in s1 && '|' !in r1
    requires '|' !in a2 && '|' !in c2 && '|' !in s2 && '|' !in r2
    requires CompositeKey(a1, c1, s1, r1) == CompositeKey(a2, c2, s2, r2)
    ensures a1 == a2 && c1 == c2 && s1 == s2 && r1 == r2
  {
    CompositeKeyFields(a1, c1, s1, r1);
    CompositeKeyFields(a2, c2, s2, r2);
  }

  /** The four key fields of an uploaded row, already converted to text. */
  datatype KeyFields = KeyFields(adName: string, campaign: string, adSet: string, reportingStarts: string)

  function KeyOf(f: KeyFields): string
  {
    CompositeKey(f.adName, f.campaign, f.adSet, f.reportingStarts)
  }

  /** What the database did with one upsert: rows touched, or an integrity error. */
  datatype WriteResult = Written(rowCount: int) | IntegrityFailure

  datatype UploadCounts = UploadCounts(newCount: nat, updatedCount: nat, unchangedCount: nat)

  function Total(c: UploadCounts): nat
  {
    c.newCount + c.updatedCount + c.unchangedCount
  }

  /** How one row is counted: an unknown key is new, a known key is updated when
    * the write touched a row and unchanged otherwise, a failed write is unchanged. */
  function CountRow(c: UploadCounts, known: bool, result: WriteResult): (c': UploadCounts)
    ensures Total(c') == Total(c) + 1
  {
    match result
    case IntegrityFailure => c.(unchangedCount := c.unchangedCount + 1)
    case Written(n) =>
      if !known then c.(newCount := c.newCount + 1)
      else if n > 0 then c.(updatedCount := c.updatedCount + 1)
      else c.(unchangedCount := c.unchangedCount + 1)
  }

  function StoredAfter(stored: set<string>, key: string, result: WriteResult): set<string>
  {
    if result.Written? then stored + {key} else stored
  }

  /** The counters and the stored keys after uploading `rows` in order, each
    * row stored under the key `keyOf` gives it. */
  function UploadOutcomeWith(rows: seq<KeyFields>, stored: set<string>, results: seq<WriteResult>, c: UploadCounts,
                             keyOf: KeyFields -> string): (r: (UploadCounts, set<string>))
    requires |results| == |rows|
    ensures Total(r.0) == Total(c) + |rows|
    decreases |rows|
  {
    if rows == [] then (c, stored)
    else
      var key := keyOf(rows[0]);
      UploadOutcomeWith(rows[1..], StoredAfter(stored, key, results[0]), results[1..], CountRow(c, key in stored, results[0]), keyOf)
  }

  /** The counters and the stored keys after uploading `rows` in order. */
  function UploadOutcome(rows: seq<KeyFields>, stored: set<string>, results: seq<WriteResult>, c: UploadCounts): (UploadCounts, set<string>)
    requires |results| == |rows|
  {
    UploadOutcomeWith(rows, stored, results, c, KeyOf)
  }

  /** The upload: one key lookup and one upsert per row, under the composite key. */
  method UploadFbAdsData(rows: seq<KeyFields>, stored: set<string>, results: seq<WriteResult>)
    returns (counts: UploadCounts, storedAfter: set<string>)
    requires |results| == |rows|
    ensures (counts, storedAfter) == UploadOutcome(rows, stored, results, UploadCounts(0, 0, 0))
    ensures counts.newCount + counts.updatedCount + counts.unchangedCount == |rows|
  {
    counts, storedAfter := UploadRows(rows, stored, results, KeyOf);
  }

  /** The upload loop, with the key of a row given by `keyOf`. */
  method UploadRows(rows: seq<KeyFields>, stored: set<string>, results: seq<WriteResult>, keyOf: KeyFields -> string)
    returns (counts: UploadCounts, storedAfter: set<string>)
    requires |results| == |rows|
    ensures (counts, storedAfter) == UploadOutcomeWith(rows, stored, results, UploadCounts(0, 0, 0), keyOf)
    ensures counts.newCount + counts.updatedCount + counts.unchangedCount == |rows|
  {
    counts := UploadCounts(0, 0, 0);
    storedAfter := stored;
    var i := 0;
    while i < |rows|
      invariant 0 <= i <= |rows|
      invariant UploadOutcomeWith(rows[i..], storedAfter, results[i..], counts, keyOf)
        == UploadOutcomeWith(rows, stored, results, UploadCounts(0, 0, 0), keyOf)
    {
      var key := keyOf(rows[i]);
      var known := key in storedAfter;
      assert rows[i..][1..] == rows[i + 1..] && results[i..][1..] == results[i + 1..];
      counts := CountRow(counts, known, results[i]);
      storedAfter := StoredAfter(storedAfter, key, results[i]);
      i := i + 1;
    }
  }

  function KeySet(rows: seq<KeyFields>): set<string>
  {
    set i | 0 <= i < |rows| :: KeyOf(rows[i])
  }

  lemma KeySetCons(rows: seq<KeyFields>)
    requires rows != []
    ensures KeySet(rows) == {KeyOf(rows[0])} + KeySet(rows[1..])
  {
    forall k | k in KeySet(rows) ensures k in {KeyOf(rows[0])} + KeySet(rows[1..]) {
      var i :| 0 <= i < |rows| && KeyOf(rows[i]) == k;
      if i > 0 { assert KeyOf(rows[1..][i - 1]) == k; }
    }
    forall k | k in KeySet(rows[1..]) ensures k in KeySet(rows) {
      var i :| 0 <= i < |rows[1..]| && KeyOf(rows[1..][i]) == k;
      assert KeyOf(rows[i + 1]) == k;
    }
  }

  /** When every write succeeds, every key ends up stored. */
  lemma {:induction false} AllKeysStored(rows: seq<KeyFields>, stored: set<string>, results: seq<WriteResult>, c: UploadCounts)
    requires |results| == |rows|
    requires forall i :: 0 <= i < |results| ==> results[i].Written?
    ensures UploadOutcome(rows, stored, results, c).1 == stored + KeySet(rows)
    decreases |rows|
  {
    if rows == [] {
      assert KeySet(rows) == {};
    } else {
      var key := KeyOf(rows[0]);
      assert results[0].Written?;
      assert forall i :: 0 <= i < |results[1..]| ==> results[1..][i] == results[i + 1];
      AllKeysStored(rows[1..], stored + {key}, results[1..], CountRow(c, key in stored, results[0]));
      KeySetCons(rows);
    }
  }

  /** When every write succeeds, the new-row counter grows by the number of
    * distinct keys that were not stored before the upload. */
  lemma {:induction false} NewRowsAreFreshKeys(rows: seq<KeyFields>, stored: set<string>, results: seq<WriteResult>, c: UploadCounts)
    requires |results| == |rows|
    requires forall i :: 0 <= i < |results| ==> results[i].Written?
    ensures UploadOutcome(rows, stored, results, c).0.newCount == c.newCount + |KeySet(rows) - stored|
    decreases |rows|
  {
    if rows == [] {
      assert KeySet(rows) == {};
    } else {
      var key := KeyOf(rows[0]);
      var stored' := stored + {key};
      var c' := CountRow(c, key in stored, results[0]);
      WrittenStep(rows, stored, results, c);
      assert forall i :: 0 <= i < |results[1..]| ==> results[1..][i] == results[i + 1];
      NewRowsAreFreshKeys(rows[1..], stored', results[1..], c');
      KeySetCons(rows);
      FreshCount(key, stored, KeySet(rows[1..]));
    }
  }

  /** The first row of an upload whose write succeeds. */
  lemma WrittenStep(rows: seq<KeyFields>, stored: set<string>, results: seq<WriteResult>, c: UploadCounts)
    requires |results| == |rows| && rows != [] && results[0].Written?
    ensures UploadOutcome(rows, stored, results, c)
      == UploadOutcome(rows[1..], stored + {KeyOf(rows[0])}, results[1..], CountRow(c, KeyOf(rows[0]) in stored, results[0]))
    ensures CountRow(c, KeyOf(rows[0]) in stored, results[0]).newCount
      == if KeyOf(rows[0]) in stored then c.newCount else c.newCount + 1
  {
  }

  lemma FreshCount(key: string, stored: set<string>, later: set<string>)
    ensures |({key} + later) - stored| == |later - (stored + {key})| + (if key in stored then 0 else 1)
  {
    var rest := later - (stored + {key});
    if key in stored {
      assert ({key} + later) - stored == rest;
    } else {
      assert ({key} + later) - stored == {key} + rest;
      assert key !in rest;
    }
  }
}
