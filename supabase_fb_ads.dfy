/** The column renaming between the locally used Facebook Ads export headers and
  * the snake_case columns of the hosted table, and the upload counters. */
module SupabaseFbAds {
  import FbAds

  /** A cell as it reaches the converter: missing markers (None, NaN) and values. */
  datatype Value = Null | NaN | Text(text: string) | Number(number: real)

  predicate IsMissing(v: Value)
  {
    v.Null? || v.NaN?
  }

  /** NaN (and None) become None; every other value is kept. */
  function Clean(v: Value): (r: Value)
    ensures !r.NaN?
    ensures IsMissing(v) ==> r == Null
    ensures !IsMissing(v) ==> r == v
  {
    if IsMissing(v) then Null else v
  }

  type Row = map<string, Value>

  /** Export header to hosted column name, in dictionary order. */
  const ToSupabaseColumns: seq<(string, string)> := [
    ("Reporting starts", "reporting_starts"),
    ("Reporting ends", "reporting_ends"),
    ("Ad name", "ad_name"),
    ("Ad delivery", "ad_delivery"),
    ("Amount spent (INR)", "amount_spent"),
    ("Purchase ROAS (return on ad spend)", "purchase_roas"),
    ("Purchases", "purchases"),
    ("CTR (link click-through rate)", "ctr"),
    ("CPC (cost per link click) (INR)", "cpc"),
    ("CPM (cost per 1,000 impressions) (INR)", "cpm"),
    ("Hook rate", "hook_rate"),
    ("Hold Rate", "hold_rate"),
    ("Impressions", "impressions"),
    ("Reach", "reach"),
    ("Frequency", "frequency"),
    ("Adds to cart", "adds_to_cart"),
    ("ATC Cost", "atc_cost"),
    ("FTIR", "ftir"),
    ("Link clicks", "link_clicks"),
    ("Landing page views", "landing_page_views"),
    ("Click To LP Visit %", "click_to_lp_percent"),
    ("Checkouts initiated", "checkouts_initiated"),
    ("Cost per purchase (INR)", "cost_per_purchase"),
    ("Purchases conversion value", "purchases_conversion_value"),
    ("Engagement rate ranking", "engagement_rate_ranking"),
    ("Engagement Ratio", "engagement_ratio"),
    ("ATC to Purchase", "atc_to_purchase"),
    ("LP Conversion", "lp_conversion"),
    ("Campaign name", "campaign_name"),
    ("Ad set name", "ad_set_name"),
    ("Video average play time", "video_avg_play_time"),
    ("Percentage 25% Video", "video_25_percent"),
    ("Percentage 50% Video", "video_50_percent"),
    ("Percentage 75% Video", "video_75_percent"),
    ("Percentage 95% Video", "video_95_percent"),
    ("Percentage 100% Video", "video_100_percent"),
    ("composite_key", "composite_key")
  ]

  /** The reverse table: every pair swapped, in the same order. */
  function Swapped(pairs: seq<(string, string)>): (r: seq<(string, string)>)
    ensures |r| == |pairs|
    ensures forall i :: 0 <= i < |pairs| ==> r[i] == (pairs[i].1, pairs[i].0)
  {
    seq(|pairs|, i requires 0 <= i < |pairs| => (pairs[i].1, pairs[i].0))
  }

  const FromSupabaseColumns: seq<(string, string)> := Swapped(ToSupabaseColumns)

  predicate TargetsDistinct(pairs: seq<(string, string)>)
  {
    forall i, j :: 0 <= i < j < |pairs| ==> pairs[i].1 != pairs[j].1
  }

  /** The row after copying, pair by pair, every present source key to its
    * target name (a later pair overwrites an earlier one with the same target). */
  function Renamed(pairs: seq<(string, string)>, row: Row, clean: bool): Row
    decreases |pairs|
  {
    if pairs == [] then map[]
    else
      var before := Renamed(pairs[..|pairs| - 1], row, clean);
      var (source, target) := pairs[|pairs| - 1];
      if source in row then
        before[target := if clean then Clean(row[source]) else row[source]]
      else before
  }

  /** Copy the hosted table's id through, when the row has one. */
  function WithId(converted: Row, row: Row): (r: Row)
    ensures "id" in row ==> "id" in r && r["id"] == row["id"]
    ensures forall k :: k != "id" ==> (k in r <==> k in converted)
    ensures forall k :: k in converted && k != "id" ==> r[k] == converted[k]
  {
    if "id" in row then converted["id" := row["id"]] else converted
  }

  function ToSupabase(row: Row): Row
  {
    Renamed(ToSupabaseColumns, row, true)
  }

  function FromSupabase(row: Row): Row
  {
    WithId(Renamed(FromSupabaseColumns, row, false), row)
  }

  /** The export headers that have a hosted column. */
  function SourceNames(pairs: seq<(string, string)>): set<string>
  {
    set i | 0 <= i < |pairs| :: pairs[i].0
  }

  function TargetNames(pairs: seq<(string, string)>): set<string>
  {
    set i | 0 <= i < |pairs| :: pairs[i].1
  }

  /** The conversion loop: each pair whose source key the row has copies that
    * value to the target key, with NaN and None turned into None when `clean`. */
  method RenameColumns(pairs: seq<(string, string)>, row: Row, clean: bool) returns (result: Row)
    ensures result == Renamed(pairs, row, clean)
  {
    result := map[];
    var i := 0;
    while i < |pairs|
      invariant 0 <= i <= |pairs|
      invariant result == Renamed(pairs[..i], row, clean)
    {
      var (source, target) := pairs[i];
      assert pairs[..i + 1][..i] == pairs[..i];
      if source in row {
        var value := row[source];
        if clean && IsMissing(value) {
          value := Null;
        }
        result := result[target := value];
      }
      i := i + 1;
    }
    assert pairs[..i] == pairs;
  }

  /** The conversion into hosted column names. */
  method ConvertRowToSupabase(row: Row) returns (result: Row)
    ensures result == ToSupabase(row)
  {
    result := RenameColumns(ToSupabaseColumns, row, true);
  }

  /** The conversion back into export headers, then the id. */
  method ConvertRowFromSupabase(row: Row) returns (result: Row)
    ensures result == FromSupabase(row)
  {
    result := RenameColumns(FromSupabaseColumns, row, false);
    if "id" in row {
      result := result["id" := row["id"]];
    }
  }

  // ---------------------------------------------------------------------------
  // Properties of the renaming
  // ---------------------------------------------------------------------------

  /** A target is present exactly when one of its sources is. */
  lemma {:induction false} RenamedKeys(pairs: seq<(string, string)>, row: Row, clean: bool, k: string)
    ensures k in Renamed(pairs, row, clean) <==> exists i :: 0 <= i < |pairs| && pairs[i].1 == k && pairs[i].0 in row
    decreases |pairs|
  {
    if pairs != [] {
      var front := pairs[..|pairs| - 1];
      RenamedKeys(front, row, clean, k);
      if k !in Renamed(pairs, row, clean) {
        forall i | 0 <= i < |pairs| && pairs[i].1 == k
          ensures pairs[i].0 !in row
        {
          if i < |pairs| - 1 { assert front[i] == pairs[i]; }
        }
      } else {
        if exists i :: 0 <= i < |front| && front[i].1 == k && front[i].0 in row {
          var i :| 0 <= i < |front| && front[i].1 == k && front[i].0 in row;
          assert pairs[i] == front[i];
        }
      }
    }
  }

  /** With distinct targets, each present source's value lands under its own
    * target, cleaned when asked to. */
  lemma {:induction false} RenamedValue(pairs: seq<(string, string)>, row: Row, clean: bool, i: nat)
    requires TargetsDistinct(pairs)
    requires i < |pairs| && pairs[i].0 in row
    ensures pairs[i].1 in Renamed(pairs, row, clean)
    ensures Renamed(pairs, row, clean)[pairs[i].1] == if clean then Clean(row[pairs[i].0]) else row[pairs[i].0]
    decreases |pairs|
  {
    var front := pairs[..|pairs| - 1];
    if i < |pairs| - 1 {
      assert front[i] == pairs[i];
      assert TargetsDistinct(front) by {
        forall a, b | 0 <= a < b < |front| ensures front[a].1 != front[b].1 {
          assert front[a] == pairs[a] && front[b] == pairs[b];
        }
      }
      RenamedValue(front, row, clean, i);
      assert pairs[|pairs| - 1].1 != pairs[i].1;
    }
  }

  /** The forward conversion keeps only mapped keys, under their hosted names,
    * and never leaves a NaN behind. */
  lemma ToSupabaseKeepsMappedKeys(row: Row)
    ensures forall k :: k in ToSupabase(row) ==> k in TargetNames(ToSupabaseColumns)
    ensures forall k :: k in ToSupabase(row) ==> !ToSupabase(row)[k].NaN?
  {
    forall k | k in ToSupabase(row)
      ensures k in TargetNames(ToSupabaseColumns) && !ToSupabase(row)[k].NaN?
    {
      RenamedKeys(ToSupabaseColumns, row, true, k);
      var i :| 0 <= i < |ToSupabaseColumns| && ToSupabaseColumns[i].1 == k && ToSupabaseColumns[i].0 in row;
      ToSupabaseDistinct();
      RenamedValue(ToSupabaseColumns, row, true, i);
    }
  }

  // The distinctness of the 37 literal names is checked in blocks of rows; the
  // case split on the row makes each comparison one between two literals.

  lemma TargetsDistinctA(i: nat)
    requires 0 <= i < 3
    ensures forall j :: i < j < |ToSupabaseColumns| ==> ToSupabaseColumns[i].1 != ToSupabaseColumns[j].1
  {
    if i == 0 {}
    else if i == 1 {}
    else if i == 2 {}
  }

  lemma TargetsDistinctB(i: nat)
    requires 3 <= i < 6
    ensures forall j :: i < j < |ToSupabaseColumns| ==> ToSupabaseColumns[i].1 != ToSupabaseColumns[j].1
  {
    if i == 3 {}
    else if i == 4 {}
    else if i == 5 {}
  }

  lemma TargetsDistinctC(i: nat)
    requires 6 <= i < 9
    ensures forall j :: i < j < |ToSupabaseColumns| ==> ToSupabaseColumns[i].1 != ToSupabaseColumns[j].1
  {
    if i == 6 {}
    else if i == 7 {}
    else if i == 8 {}
  }

  lemma TargetsDistinctD(i: nat)
    requires 9 <= i < 13
    ensures forall j :: i < j < |ToSupabaseColumns| ==> ToSupabaseColumns[i].1 != ToSupabaseColumns[j].1
  {
    if i == 9 {}
    else if i == 10 {}
    else if i == 11 {}
    else if i == 12 {}
  }

  lemma TargetsDistinctE(i: nat)
    requires 13 <= i < 17
    ensures forall j :: i < j < |ToSupabaseColumns| ==> ToSupabaseColumns[i].1 != ToSupabaseColumns[j].1
  {
    if i == 13 {}
    else if i == 14 {}
    else if i == 15 {}
    else if i == 16 {}
  }

  lemma TargetsDistinctF(i: nat)
    requires 17 <= i < 21
    ensures forall j :: i < j < |ToSupabaseColumns| ==> ToSupabaseColumns[i].1 != ToSupabaseColumns[j].1
  {
    if i == 17 {}
    else if i == 18 {}
    else if i == 19 {}
    else if i == 20 {}
  }

  lemma TargetsDistinctG(i: nat)
    requires 21 <= i < 28
    ensures forall j :: i < j < |ToSupabaseColumns| ==> ToSupabaseColumns[i].1 != ToSupabaseColumns[j].1
  {
    if i == 21 {}
    else if i == 22 {}
    else if i == 23 {}
    else if i == 24 {}
    else if i == 25 {}
    else if i == 26 {}
    else if i == 27 {}
  }

  lemma TargetsDistinctH(i: nat)
    requires 28 <= i < 37
    ensures forall j :: i < j < |ToSupabaseColumns| ==> ToSupabaseColumns[i].1 != ToSupabaseColumns[j].1
  {
    if i == 28 {}
    else if i == 29 {}
    else if i == 30 {}
    else if i == 31 {}
    else if i == 32 {}
    else if i == 33 {}
    else if i == 34 {}
    else if i == 35 {}
    else if i == 36 {}
  }

  /** No two export headers share a hosted column name. */
  lemma ToSupabaseDistinct()
    ensures TargetsDistinct(ToSupabaseColumns)
  {
    forall i, j | 0 <= i < j < |ToSupabaseColumns|
      ensures ToSupabaseColumns[i].1 != ToSupabaseColumns[j].1
    {
      if i < 3 {
        TargetsDistinctA(i);
      } else if i < 6 {
        TargetsDistinctB(i);
      } else if i < 9 {
        TargetsDistinctC(i);
      } else if i < 13 {
        TargetsDistinctD(i);
      } else if i < 17 {
        TargetsDistinctE(i);
      } else if i < 21 {
        TargetsDistinctF(i);
      } else if i < 28 {
        TargetsDistinctG(i);
      } else {
        TargetsDistinctH(i);
      }
    }
  }

  /** "id" is not a hosted column name of the table, so only the explicit copy carries it. */
  lemma IdIsNotATarget()
    ensures forall i :: 0 <= i < |ToSupabaseColumns| ==> ToSupabaseColumns[i].1 != "id"
  {
  }

  /** The headers present after the round trip are the mapped headers of the row. */
  lemma RoundTripKeys(pairs: seq<(string, string)>, row: Row, k: string)
    requires TargetsDistinct(pairs)
    ensures k in Renamed(Swapped(pairs), Renamed(pairs, row, true), false) <==>
      k in row && k in SourceNames(pairs)
  {
    var hosted := Renamed(pairs, row, true);
    var back := Swapped(pairs);
    RenamedKeys(back, hosted, false, k);
    if k in Renamed(back, hosted, false) {
      var i :| 0 <= i < |back| && back[i].1 == k && back[i].0 in hosted;
      RenamedKeys(pairs, row, true, pairs[i].1);
      var j :| 0 <= j < |pairs| && pairs[j].1 == pairs[i].1 && pairs[j].0 in row;
      assert i == j;
    }
    if k in row && k in SourceNames(pairs) {
      var i :| 0 <= i < |pairs| && pairs[i].0 == k;
      RenamedValue(pairs, row, true, i);
      assert back[i] == (pairs[i].1, k);
    }
  }

  /** Each mapped header of the row is present after the round trip and holds
    * its cleaned original value. */
  lemma RoundTripValue(pairs: seq<(string, string)>, row: Row, k: string)
    requires TargetsDistinct(pairs)
    requires k in row && k in SourceNames(pairs)
    ensures k in Renamed(Swapped(pairs), Renamed(pairs, row, true), false)
    ensures Renamed(Swapped(pairs), Renamed(pairs, row, true), false)[k] == Clean(row[k])
  {
    var hosted := Renamed(pairs, row, true);
    var back := Swapped(pairs);
    RoundTripKeys(pairs, row, k);
    LastWriter(back, hosted, k);
    var i :| 0 <= i < |back| && back[i].1 == k && back[i].0 in hosted
      && Renamed(back, hosted, false)[k] == hosted[back[i].0];
    RenamedKeys(pairs, row, true, pairs[i].1);
    var j :| 0 <= j < |pairs| && pairs[j].1 == pairs[i].1 && pairs[j].0 in row;
    assert i == j;
    RenamedValue(pairs, row, true, i);
  }

  /** The round trip over any table whose targets are distinct and do not include "id". */
  lemma RoundTripOver(pairs: seq<(string, string)>, row: Row)
    requires TargetsDistinct(pairs)
    requires forall i :: 0 <= i < |pairs| ==> pairs[i].1 != "id"
    ensures WithId(Renamed(Swapped(pairs), Renamed(pairs, row, true), false), Renamed(pairs, row, true)) ==
      map k | k in row && k in SourceNames(pairs) :: Clean(row[k])
  {
    var hosted := Renamed(pairs, row, true);
    var renamed := Renamed(Swapped(pairs), hosted, false);
    var expected := map k | k in row && k in SourceNames(pairs) :: Clean(row[k]);
    assert "id" !in hosted by {
      RenamedKeys(pairs, row, true, "id");
    }
    assert WithId(renamed, hosted) == renamed;
    forall k ensures k in renamed <==> k in expected {
      RoundTripKeys(pairs, row, k);
    }
    forall k | k in expected ensures k in renamed && renamed[k] == expected[k] {
      RoundTripValue(pairs, row, k);
    }
  }

  /** Round trip: converting a row to hosted names and back gives the row
    * restricted to the mapped headers, with NaN turned into None. */
  lemma RoundTrip(row: Row)
    ensures FromSupabase(ToSupabase(row)) ==
      map k | k in row && k in SourceNames(ToSupabaseColumns) :: Clean(row[k])
  {
    ToSupabaseDistinct();
    IdIsNotATarget();
    RoundTripOver(ToSupabaseColumns, row);
  }

  /** Every value in a renamed row comes from one of the pairs that target it. */
  lemma {:induction false} LastWriter(pairs: seq<(string, string)>, row: Row, k: string)
    requires k in Renamed(pairs, row, false)
    ensures exists i :: (0 <= i < |pairs| && pairs[i].1 == k && pairs[i].0 in row
      && Renamed(pairs, row, false)[k] == row[pairs[i].0])
    decreases |pairs|
  {
    var front := pairs[..|pairs| - 1];
    var last := |pairs| - 1;
    if pairs[last].1 == k && pairs[last].0 in row {
      assert Renamed(pairs, row, false)[k] == row[pairs[last].0];
    } else {
      LastWriter(front, row, k);
      var i :| 0 <= i < |front| && front[i].1 == k && front[i].0 in row
        && Renamed(front, row, false)[k] == row[front[i].0];
      assert pairs[i] == front[i];
    }
  }

  // ---------------------------------------------------------------------------
  // Upload
  // ---------------------------------------------------------------------------

  /** The row sent to the upsert: the export row with its composite key added,
    * converted to hosted names. */
  function PreparedRow(fields: FbAds.KeyFields, row: Row): Row
  {
    ToSupabase(row["composite_key" := Text(FbAds.KeyOf(fields))])
  }

  /** The upserted row always carries the composite key the lookup used. */
  lemma PreparedRowCarriesKey(fields: FbAds.KeyFields, row: Row)
    ensures "composite_key" in PreparedRow(fields, row)
    ensures PreparedRow(fields, row)["composite_key"] == Text(FbAds.KeyOf(fields))
  {
    var withKey := row["composite_key" := Text(FbAds.KeyOf(fields))];
    ToSupabaseDistinct();
    assert ToSupabaseColumns[36] == ("composite_key", "composite_key");
    RenamedValue(ToSupabaseColumns, withKey, true, 36);
  }

  /** The outcome of the existence lookup: a failed lookup counts as absent. */
  datatype Lookup = Found | Absent | LookupFailed

  datatype Outcome = New | Updated | Unchanged

  /** A successful upsert is an update for a known key and new otherwise;
    * a failed upsert leaves the row unchanged. */
  function OutcomeOf(lookup: Lookup, upserted: bool): (r: Outcome)
    ensures r == Unchanged <==> !upserted
    ensures r == Updated <==> upserted && lookup == Found
  {
    if !upserted then Unchanged
    else if lookup == Found then Updated
    else New
  }

  /** The number of rows, among the first ones, with the given outcome. */
  function CountOutcome(lookups: seq<Lookup>, upserts: seq<bool>, o: Outcome): (r: nat)
    requires |lookups| == |upserts|
    ensures r <= |lookups|
  {
    if lookups == [] then 0
    else
      var n := |lookups| - 1;
      CountOutcome(lookups[..n], upserts[..n], o) + if OutcomeOf(lookups[n], upserts[n]) == o then 1 else 0
  }

  /** Every row is counted exactly once. */
  lemma {:induction false} CountsPartitionRows(lookups: seq<Lookup>, upserts: seq<bool>)
    requires |lookups| == |upserts|
    ensures CountOutcome(lookups, upserts, New) + CountOutcome(lookups, upserts, Updated)
      + CountOutcome(lookups, upserts, Unchanged) == |lookups|
    decreases |lookups|
  {
    if lookups != [] {
      var n := |lookups| - 1;
      CountsPartitionRows(lookups[..n], upserts[..n]);
    }
  }

  /** When every upsert succeeds and no key was known, every row is new. */
  lemma {:induction false} FreshUploadIsAllNew(lookups: seq<Lookup>, upserts: seq<bool>)
    requires |lookups| == |upserts|
    requires forall i :: 0 <= i < |lookups| ==> lookups[i] != Found && upserts[i]
    ensures CountOutcome(lookups, upserts, New) == |lookups|
    decreases |lookups|
  {
    if lookups != [] {
      var n := |lookups| - 1;
      FreshUploadIsAllNew(lookups[..n], upserts[..n]);
    }
  }

  /** The upload loop: without a client nothing is counted; otherwise each row's
    * lookup and upsert outcome is tallied. */
  method UploadFbAdsData(clientAvailable: bool, lookups: seq<Lookup>, upserts: seq<bool>)
    returns (newCount: nat, updatedCount: nat, unchangedCount: nat)
    requires |lookups| == |upserts|
    ensures !clientAvailable ==> newCount == 0 && updatedCount == 0 && unchangedCount == 0
    ensures clientAvailable ==> (newCount == CountOutcome(lookups, upserts, New)
      && updatedCount == CountOutcome(lookups, upserts, Updated)
      && unchangedCount == CountOutcome(lookups, upserts, Unchanged))
    ensures clientAvailable ==> newCount + updatedCount + unchangedCount == |lookups|
  {
    newCount, updatedCount, unchangedCount := 0, 0, 0;
    if !clientAvailable {
      return;
    }
    var i := 0;
    while i < |lookups|
      invariant 0 <= i <= |lookups|
      invariant newCount == CountOutcome(lookups[..i], upserts[..i], New)
      invariant updatedCount == CountOutcome(lookups[..i], upserts[..i], Updated)
      invariant unchangedCount == CountOutcome(lookups[..i], upserts[..i], Unchanged)
    {
      assert lookups[..i + 1][..i] == lookups[..i] && upserts[..i + 1][..i] == upserts[..i];
      var known := lookups[i] == Found;
      if upserts[i] {
        if known {
          updatedCount := updatedCount + 1;
        } else {
          newCount := newCount + 1;
        }
      } else {
        unchangedCount := unchangedCount + 1;
      }
      i := i + 1;
    }
    assert lookups[..i] == lookups && upserts[..i] == upserts;
    CountsPartitionRows(lookups, upserts);
  }
}
