/** Loading Shopify orders and Zoom attendance for the user-journey tracker:
  * the note-attribute and tag extractors, the payment classifier, the
  * first-row-per-order dedup and the per-email attendance dedup. Phone and
  * email normalisation are the ones of `LogisticsParsers`. */
module JourneyLoader {
  import opened Wrappers
  import opened Text
  import LogisticsParsers

  type Cell = Option<string>

  // ---------------------------------------------------------------------------
  // Scanning helpers (the extractors' patterns, written out)
  // ---------------------------------------------------------------------------

  predicate IsWordChar(c: char)
  {
    'a' <= c <= 'z' || 'A' <= c <= 'Z' || '0' <= c <= '9' || c == '_'
  }

  /** The length of the run of word characters starting at `i`. */
  function WordRun(s: string, i: nat): (n: nat)
    requires i <= |s|
    ensures i + n <= |s|
    ensures forall k :: i <= k < i + n ==> IsWordChar(s[k])
    ensures i + n == |s| || !IsWordChar(s[i + n])
    decreases |s| - i
  {
    if i == |s| || !IsWordChar(s[i]) then 0 else 1 + WordRun(s, i + 1)
  }

  /** The first position at or after `i` that is not whitespace. */
  function SkipSpaces(s: string, i: nat): (j: nat)
    requires i <= |s|
    ensures i <= j <= |s|
    ensures forall k :: i <= k < j ==> IsSpace(s[k])
    ensures j == |s| || !IsSpace(s[j])
    decreases |s| - i
  {
    if i == |s| || !IsSpace(s[i]) then i else SkipSpaces(s, i + 1)
  }

  /** `lit` (lower-case) occurs at `i`, ignoring the case of `s`. */
  predicate MatchesAt(s: string, i: nat, lit: string)
  {
    i + |lit| <= |s| && Lower(s[i..i + |lit|]) == lit
  }

  /** The first match at or after `i` of a pattern given by its match at a
    * position. */
  function SearchFrom(s: string, i: nat, at: (string, nat) -> Option<string>): (r: Option<string>)
    requires i <= |s|
    ensures r.Some? ==>
      (exists k :: i <= k <= |s| && at(s, k) == r && forall j :: i <= j < k ==> at(s, j).None?)
    ensures r.None? <==> forall k :: i <= k <= |s| ==> at(s, k).None?
    decreases |s| - i
  {
    if at(s, i).Some? then at(s, i)
    else if i == |s| then None
    else SearchFrom(s, i + 1, at)
  }

  // ---------------------------------------------------------------------------
  // Note attributes
  // ---------------------------------------------------------------------------

  /** `razorpay_order_id:`, optional whitespace, then an id starting with
    * `order_` and at least one more word character (case ignored). */
  function RazorpayAt(s: string, i: nat): (r: Option<string>)
    ensures r.Some? ==> (|r.value| > 6 && Lower(r.value[..6]) == "order_"
      && forall k :: 0 <= k < |r.value| ==> IsWordChar(r.value[k]))
  {
    if !MatchesAt(s, i, "razorpay_order_id:") then None
    else
      var j := SkipSpaces(s, i + 18);
      if !MatchesAt(s, j, "order_") then None
      else
        var n := WordRun(s, j + 6);
        if n == 0 then None
        else
          assert forall k :: j <= k < j + 6 ==> IsWordChar(s[k]) by {
            assert Lower(s[j..j + 6]) == "order_";
            forall k | j <= k < j + 6 ensures IsWordChar(s[k]) {
              assert Lower(s[j..j + 6])[k - j] == LowerChar(s[k]);
            }
          }
          var v := s[j..j + 6 + n];
          assert v[..6] == s[j..j + 6];
          assert forall k :: 0 <= k < |v| ==> IsWordChar(v[k]) by {
            forall k | 0 <= k < |v| ensures IsWordChar(v[k]) {
              assert v[k] == s[j + k];
            }
          }
          Some(v)
  }

  /** `payment_method:`, optional whitespace, then a word, lower-cased. */
  function PaymentTypeAt(s: string, i: nat): (r: Option<string>)
    ensures r.Some? ==> r.value != [] && Lower(r.value) == r.value
  {
    if !MatchesAt(s, i, "payment_method:") then None
    else
      var j := SkipSpaces(s, i + 15);
      var n := WordRun(s, j);
      if n == 0 then None
      else
        LowerIdempotent(s[j..j + n]);
        Some(Lower(s[j..j + n]))
  }

  /** The Razorpay order id and the payment type named in the note
    * attributes; both `None` for a missing or empty note. */
  function ExtractFromNoteAttributes(note: Cell): (r: (Option<string>, Option<string>))
    ensures note.None? || note.value == [] ==> r == (None, None)
    ensures r.0.Some? ==> |r.0.value| > 6 && Lower(r.0.value[..6]) == "order_"
    ensures r.1.Some? ==> r.1.value != [] && Lower(r.1.value) == r.1.value
    ensures note.Some? && note.value != [] ==>
      (r.0.None? <==> forall k :: 0 <= k <= |note.value| ==> RazorpayAt(note.value, k).None?)
  {
    if note.None? || note.value == [] then (None, None)
    else (SearchFrom(note.value, 0, RazorpayAt), SearchFrom(note.value, 0, PaymentTypeAt))
  }

  // ---------------------------------------------------------------------------
  // RTO risk tag
  // ---------------------------------------------------------------------------

  /** The levels a risk tag can name. */
  predicate IsRiskLevel(level: string)
  {
    level == "low" || level == "medium" || level == "high"
  }

  /** `rto`, spaces, `risk`, spaces, `-` or `:`, spaces, then a level, in a
    * lower-cased string. */
  function RtoRiskAt(t: string, i: nat): (r: Option<string>)
    ensures r.Some? ==> IsRiskLevel(r.value)
  {
    if !OccursAt(t, "rto", i) then None
    else
      var j1 := SkipSpaces(t, i + 3);
      if !OccursAt(t, "risk", j1) then None
      else
        var j2 := SkipSpaces(t, j1 + 4);
        if j2 == |t| || (t[j2] != '-' && t[j2] != ':') then None
        else
          var j3 := SkipSpaces(t, j2 + 1);
          if OccursAt(t, "low", j3) then Some("low")
          else if OccursAt(t, "medium", j3) then Some("medium")
          else if OccursAt(t, "high", j3) then Some("high")
          else None
  }

  /** The RTO risk level named in the tags, or `None`. */
  function ExtractRtoRisk(tags: Cell): (r: Option<string>)
    ensures r.Some? ==> IsRiskLevel(r.value)
    ensures tags.None? || tags.value == [] ==> r.None?
    ensures tags.Some? && tags.value != [] ==>
      (r.None? <==> forall k :: 0 <= k <= |tags.value| ==> RtoRiskAt(Lower(tags.value), k).None?)
  {
    if tags.None? || tags.value == [] then None
    else SearchFrom(Lower(tags.value), 0, RtoRiskAt)
  }

  /** Skipping spaces from `i` stops at the first non-space `j`. */
  lemma SkipsTo(s: string, i: nat, j: nat)
    requires i <= j < |s| && !IsSpace(s[j])
    requires forall k :: i <= k < j ==> IsSpace(s[k])
    ensures SkipSpaces(s, i) == j
  {
  }

  /** The parse of `rto risk - <level>` from its characters. */
  lemma RiskTagParse(t: string, k: nat, level: string)
    requires IsRiskLevel(level) && k + 11 + |level| <= |t|
    requires t[k..k + 3] == "rto" && t[k + 3] == ' ' && t[k + 4..k + 8] == "risk"
    requires t[k + 8] == ' ' && t[k + 9] == '-' && t[k + 10] == ' '
    requires t[k + 11..k + 11 + |level|] == level
    ensures RtoRiskAt(t, k) == Some(level)
  {
    assert OccursAt(t, "rto", k);
    assert !IsSpace(t[k + 4]) by { assert t[k + 4] == t[k + 4..k + 8][0]; }
    SkipsTo(t, k + 3, k + 4);
    assert OccursAt(t, "risk", k + 4);
    SkipsTo(t, k + 8, k + 9);
    assert t[k + 11] == level[0] by { assert t[k + 11] == t[k + 11..k + 11 + |level|][0]; }
    SkipsTo(t, k + 10, k + 11);
    assert OccursAt(t, level, k + 11);
  }

  /** A tag written `rto risk - <level>` is recognised at its position. */
  lemma RiskTagRecognised(t: string, k: nat, level: string)
    requires IsRiskLevel(level)
    requires k + 11 + |level| <= |t| && t[k..k + 11 + |level|] == "rto risk - " + level
    ensures RtoRiskAt(t, k) == Some(level)
  {
    var n := 11 + |level|;
    var tag := "rto risk - " + level;
    assert t[k..k + 3] == t[k..k + n][..3] == tag[..3];
    assert t[k + 4..k + 8] == t[k..k + n][4..8] == tag[4..8];
    assert t[k + 11..k + n] == t[k..k + n][11..] == tag[11..];
    assert t[k + 3] == tag[3] && t[k + 8] == tag[8] && t[k + 9] == tag[9] && t[k + 10] == tag[10];
    RiskTagParse(t, k, level);
  }

  // ---------------------------------------------------------------------------
  // Payment method
  // ---------------------------------------------------------------------------

  datatype JourneyPayment = Prepaid | Cod | Snapmint | Manual | Other | Unknown

  /** The payment class: razorpay before cash on delivery before Snapmint
    * before manual; a missing or empty method is unknown. */
  function ClassifyPaymentMethod(payment: Cell): (r: JourneyPayment)
    ensures r == Unknown <==> payment.None? || payment.value == []
    ensures r == Prepaid <==> payment.Some? && payment.value != [] && Contains(Lower(payment.value), "razorpay")
    ensures r == Cod <==> (payment.Some? && payment.value != [] && !Contains(Lower(payment.value), "razorpay")
      && (Contains(Lower(payment.value), "cash on delivery") || Contains(Lower(payment.value), "cod")))
    ensures r == Snapmint ==> Contains(Lower(payment.value), "snapmint")
    ensures r == Manual ==> Contains(Lower(payment.value), "manual") && !Contains(Lower(payment.value), "snapmint")
    ensures r == Other ==> (payment.Some? && !Contains(Lower(payment.value), "razorpay") && !Contains(Lower(payment.value), "cod")
      && !Contains(Lower(payment.value), "snapmint") && !Contains(Lower(payment.value), "manual"))
  {
    if payment.None? || payment.value == [] then Unknown
    else
      var pm := Lower(payment.value);
      if Contains(pm, "razorpay") then Prepaid
      else if Contains(pm, "cash on delivery") || Contains(pm, "cod") then Cod
      else if Contains(pm, "snapmint") then Snapmint
      else if Contains(pm, "manual") then Manual
      else Other
  }

  // ---------------------------------------------------------------------------
  // Shopify export: first row per order
  // ---------------------------------------------------------------------------

  /** The columns of an export row the loader reads. */
  datatype JourneyRow = JourneyRow(
    name: Cell, email: Cell, phone: Cell, billingPhone: Cell,
    paymentMethod: Cell, tags: Cell, noteAttributes: Cell)

  /** The stored order built from a row. */
  datatype JourneyOrder = JourneyOrder(
    orderNumber: Cell, email: Option<string>, phone: Option<string>, billingPhone: Option<string>,
    payment: JourneyPayment, razorpayOrderId: Option<string>, paymentType: Option<string>,
    rtoRisk: Option<string>)

  function OrderOf(row: JourneyRow): JourneyOrder
  {
    var note := ExtractFromNoteAttributes(row.noteAttributes);
    JourneyOrder(row.name, LogisticsParsers.NormalizeEmail(row.email),
      LogisticsParsers.NormalizePhone(row.phone), LogisticsParsers.NormalizePhone(row.billingPhone),
      ClassifyPaymentMethod(row.paymentMethod), note.0, note.1, ExtractRtoRisk(row.tags))
  }

  /** The order numbers of the rows (a missing one counts as one value). */
  function Names(rows: seq<JourneyRow>): set<Cell>
    decreases |rows|
  {
    if rows == [] then {} else Names(rows[..|rows| - 1]) + {rows[|rows| - 1].name}
  }

  /** The rows with the first row of each order number kept. */
  function KeepFirst(rows: seq<JourneyRow>): (kept: seq<JourneyRow>)
    ensures |kept| <= |rows|
    decreases |rows|
  {
    if rows == [] then []
    else
      var n := |rows| - 1;
      KeepFirst(rows[..n]) + if rows[n].name in Names(rows[..n]) then [] else [rows[n]]
  }

  /** The kept rows carry every order number once: as many rows as distinct
    * order numbers, with pairwise different numbers. */
  lemma {:induction false} KeepFirstDistinct(rows: seq<JourneyRow>)
    ensures Names(KeepFirst(rows)) == Names(rows)
    ensures |KeepFirst(rows)| == |Names(rows)|
    ensures forall i, j :: 0 <= i < j < |KeepFirst(rows)| ==> KeepFirst(rows)[i].name != KeepFirst(rows)[j].name
    decreases |rows|
  {
    if rows != [] {
      var n := |rows| - 1;
      KeepFirstDistinct(rows[..n]);
      var before := KeepFirst(rows[..n]);
      if rows[n].name !in Names(rows[..n]) {
        var kept := before + [rows[n]];
        assert kept[..|kept| - 1] == before;
        assert Names(kept) == Names(before) + {rows[n].name};
        forall i | 0 <= i < |before| ensures before[i].name != rows[n].name {
          NameInNames(before, i);
        }
      } else {
        assert KeepFirst(rows) == before;
      }
    }
  }

  lemma {:induction false} NameInNames(rows: seq<JourneyRow>, i: int)
    requires 0 <= i < |rows|
    ensures rows[i].name in Names(rows)
    decreases |rows|
  {
    var n := |rows| - 1;
    if i < n {
      assert rows[..n][i] == rows[i];
      NameInNames(rows[..n], i);
    }
  }

  /** The dedup loop: the first row of each order number, in row order. */
  method DedupeByName(rows: seq<JourneyRow>) returns (kept: seq<JourneyRow>)
    ensures kept == KeepFirst(rows)
  {
    kept := [];
    var seen: set<Cell> := {};
    var i := 0;
    while i < |rows|
      invariant 0 <= i <= |rows|
      invariant seen == Names(rows[..i])
      invariant kept == KeepFirst(rows[..i])
    {
      assert rows[..i + 1][..i] == rows[..i];
      if rows[i].name !in seen {
        kept := kept + [rows[i]];
        seen := seen + {rows[i].name};
      }
      i := i + 1;
    }
    assert rows[..i] == rows;
  }

  /** The Shopify load: the first row of each order number is stored; the
    * counts say how many rows there were, how many were kept and how many
    * dropped as duplicates. */
  method LoadShopifyCsv(rows: seq<JourneyRow>)
    returns (totalRows: nat, uniqueOrders: nat, duplicatesRemoved: nat, stored: seq<JourneyOrder>)
    ensures totalRows == |rows| && uniqueOrders == |Names(rows)| == |KeepFirst(rows)|
    ensures uniqueOrders + duplicatesRemoved == totalRows
    ensures |stored| == uniqueOrders
    ensures forall i :: 0 <= i < |stored| ==> stored[i] == OrderOf(KeepFirst(rows)[i])
  {
    var kept := DedupeByName(rows);
    KeepFirstDistinct(rows);
    totalRows := |rows|;
    uniqueOrders := |kept|;
    duplicatesRemoved := totalRows - uniqueOrders;
    stored := StoreOrders(kept, OrderOf);
  }

  /** The insert loop over the kept rows: one stored order per row, in row
    * order, each built from its row by `toOrder`. */
  method StoreOrders(kept: seq<JourneyRow>, toOrder: JourneyRow -> JourneyOrder) returns (stored: seq<JourneyOrder>)
    ensures |stored| == |kept|
    ensures forall k :: 0 <= k < |kept| ==> stored[k] == toOrder(kept[k])
  {
    stored := [];
    var j := 0;
    while j < |kept|
      invariant 0 <= j <= |kept|
      invariant |stored| == j
      invariant forall k :: 0 <= k < j ==> stored[k] == toOrder(kept[k])
    {
      stored := stored + [toOrder(kept[j])];
      j := j + 1;
    }
  }

  // ---------------------------------------------------------------------------
  // Zoom attendance
  // ---------------------------------------------------------------------------

  /** Every occurrence of `pat` replaced by `with`, scanning left to right. */
  function ReplaceAll(s: string, pat: string, with: string): string
    requires pat != []
    decreases |s|
  {
    if |s| < |pat| then s
    else if s[..|pat|] == pat then with + ReplaceAll(s[|pat|..], pat, with)
    else [s[0]] + ReplaceAll(s[1..], pat, with)
  }

  /** No occurrence of a pattern starting with a space can begin inside a
    * spaceless prefix, nor in a tail shorter than the pattern. */
  lemma {:induction false} ReplaceAllNoMatch(x: string, tail: string, pat: string, with: string)
    requires pat != [] && pat[0] == ' ' && |tail| < |pat|
    requires forall k :: 0 <= k < |x| ==> x[k] != ' '
    ensures ReplaceAll(x + tail, pat, with) == x + tail
    decreases |x|
  {
    var s := x + tail;
    if x != [] && |s| >= |pat| {
      assert s[..|pat|][0] == x[0];
      assert s[1..] == x[1..] + tail;
      ReplaceAllNoMatch(x[1..], tail, pat, with);
    }
  }

  /** A unit after a number without spaces is stripped. */
  lemma {:induction false} ReplaceAllUnit(x: string, pat: string)
    requires pat != [] && pat[0] == ' '
    requires forall k :: 0 <= k < |x| ==> x[k] != ' '
    ensures ReplaceAll(x + pat, pat, []) == x
    decreases |x|
  {
    var s := x + pat;
    if x == [] {
      assert s[..|pat|] == pat && s[|pat|..] == [];
    } else {
      assert s[..|pat|][0] == x[0];
      assert s[1..] == x[1..] + pat;
      ReplaceAllUnit(x[1..], pat);
    }
  }

  /** The duration text with its unit removed. */
  function StripUnit(raw: string): string
  {
    ReplaceAll(ReplaceAll(raw, " mins", ""), " min", "")
  }

  /** `"45 mins"` and `"45 min"` both read as the number before the unit. */
  lemma StripUnitOfNumber(x: string)
    requires forall k :: 0 <= k < |x| ==> x[k] != ' '
    ensures StripUnit(x + " mins") == x && StripUnit(x + " min") == x && StripUnit(x) == x
  {
    ReplaceAllUnit(x, " mins");
    ReplaceAllNoMatch(x, [], " min", "");
    assert x + [] == x;
    ReplaceAllNoMatch(x, " min", " mins", "");
    ReplaceAllUnit(x, " min");
    ReplaceAllNoMatch(x, [], " mins", "");
  }

  /** The attended minutes, truncated toward zero; 0 when missing or when
    * the text is not a number. `parse` is the number reader. */
  function DurationMinutes(raw: Cell, parse: string -> Option<real>): (r: int)
    ensures raw.None? ==> r == 0
    ensures raw.Some? && parse(StripUnit(raw.value)).None? ==> r == 0
    ensures raw.Some? && parse(StripUnit(raw.value)).Some? ==>
      r == LogisticsParsers.Truncate(parse(StripUnit(raw.value)).value)
  {
    if raw.None? then 0
    else
      match parse(StripUnit(raw.value))
      case None => 0
      case Some(x) => LogisticsParsers.Truncate(x)
  }

  /** The company's own domain marks internal participants. */
  predicate IsInternal(email: Option<string>)
  {
    email.Some? && Contains(email.value, "topbeat.in")
  }

  datatype ZoomRow = ZoomRow(name: Cell, email: Cell, duration: Cell)

  /** One stored attendance record. */
  datatype Attendance = Attendance(name: Cell, email: Option<string>, minutes: int, internal: bool)

  function AttendanceOf(row: ZoomRow, parse: string -> Option<real>): (a: Attendance)
    ensures a.email == LogisticsParsers.NormalizeEmail(row.email)
    ensures a.internal <==> IsInternal(a.email)
    ensures a.minutes == DurationMinutes(row.duration, parse)
  {
    var email := LogisticsParsers.NormalizeEmail(row.email);
    Attendance(row.name, email, DurationMinutes(row.duration, parse), IsInternal(email))
  }

  /** The number of internal records. */
  function InternalCount(records: seq<Attendance>): (c: nat)
    ensures c <= |records|
    decreases |records|
  {
    if records == [] then 0 else InternalCount(records[..|records| - 1]) + if records[|records| - 1].internal then 1 else 0
  }

  /** The attendance load. Every row becomes one stored record and the
    * internal ones are counted. The external count is then taken over the
    * deduplicated view of ALL the meeting's stored records: `stored`, the
    * rows an earlier load of the same meeting left in the table, followed by
    * this load's `records`. The topic defaults to "Unknown" when the
    * metadata has none. */
  method LoadZoomCsv(rows: seq<ZoomRow>, parse: string -> Option<real>, stored: seq<Attendance>,
                     topic: Option<string>, startTime: Cell)
    returns (totalParticipants: nat, externalCount: nat, internalCount: nat, meetingTopic: string,
             meetingDate: string, records: seq<Attendance>)
    ensures totalParticipants == |rows| && |records| == |rows|
    ensures forall i :: 0 <= i < |rows| ==> records[i] == AttendanceOf(rows[i], parse)
    ensures internalCount == InternalCount(records) <= totalParticipants
    ensures externalCount == ExternalCount(Dedupe(stored + records)) == |ExternalEmails(stored + records)|
    ensures meetingTopic == if topic.Some? then topic.value else "Unknown"
    ensures meetingDate == MeetingDate(startTime)
  {
    meetingTopic := if topic.Some? then topic.value else "Unknown";
    meetingDate := MeetingDate(startTime);
    totalParticipants, internalCount, records := StoreAttendance(rows, row => AttendanceOf(row, parse));
    externalCount := ExternalCount(Dedupe(stored + records));
    ExternalCountIsExternalEmails(stored + records);
  }

  /** The insert loop over the attendance rows: one record per row, built by
    * `toRecord`, counting the internal ones. */
  method StoreAttendance(rows: seq<ZoomRow>, toRecord: ZoomRow -> Attendance)
    returns (totalParticipants: nat, internalCount: nat, records: seq<Attendance>)
    ensures totalParticipants == |rows| && |records| == |rows|
    ensures forall i :: 0 <= i < |rows| ==> records[i] == toRecord(rows[i])
    ensures internalCount == InternalCount(records) <= totalParticipants
  {
    totalParticipants := 0;
    internalCount := 0;
    records := [];
    while totalParticipants < |rows|
      invariant totalParticipants <= |rows| && |records| == totalParticipants
      invariant forall i :: 0 <= i < totalParticipants ==> records[i] == toRecord(rows[i])
      invariant internalCount == InternalCount(records)
    {
      var record := toRecord(rows[totalParticipants]);
      assert (records + [record])[..|records|] == records;
      if record.internal {
        internalCount := internalCount + 1;
      }
      records := records + [record];
      totalParticipants := totalParticipants + 1;
    }
  }

  /** One deduplicated participant of a meeting. */
  datatype Participant = Participant(sessionCount: nat, totalMinutes: int, internal: bool)

  /** Records grouped by email; records without an email are left out. */
  function Dedupe(records: seq<Attendance>): (groups: map<string, Participant>)
    ensures forall e :: e in groups ==> e != [] && (groups[e].internal <==> Contains(e, "topbeat.in"))
    decreases |records|
  {
    if records == [] then map[]
    else
      var n := |records| - 1;
      var groups := Dedupe(records[..n]);
      var r := records[n];
      if r.email.None? || r.email.value == [] then groups
      else
        var e := r.email.value;
        var before := if e in groups then groups[e] else Participant(0, 0, Contains(e, "topbeat.in"));
        groups[e := Participant(before.sessionCount + 1, before.totalMinutes + r.minutes, before.internal)]
  }

  /** The records of one email, and their minutes. */
  function SessionsOf(records: seq<Attendance>, e: string): (c: nat)
    decreases |records|
  {
    if records == [] then 0 else SessionsOf(records[..|records| - 1], e) + if records[|records| - 1].email == Some(e) then 1 else 0
  }

  function MinutesOf(records: seq<Attendance>, e: string): int
    decreases |records|
  {
    if records == [] then 0 else MinutesOf(records[..|records| - 1], e) + if records[|records| - 1].email == Some(e) then records[|records| - 1].minutes else 0
  }

  /** One participant per non-empty email, counting that email's sessions
    * and summing their minutes. */
  lemma {:induction false} DedupeCharacterised(records: seq<Attendance>, e: string)
    requires e != []
    ensures e in Dedupe(records) <==> SessionsOf(records, e) > 0
    ensures e in Dedupe(records) ==>
      Dedupe(records)[e].sessionCount == SessionsOf(records, e) && Dedupe(records)[e].totalMinutes == MinutesOf(records, e)
    decreases |records|
  {
    if records != [] {
      var n := |records| - 1;
      DedupeCharacterised(records[..n], e);
      var before := Dedupe(records[..n]);
      var r := records[n];
      if r.email == Some(e) {
        var prior := if e in before then before[e] else Participant(0, 0, Contains(e, "topbeat.in"));
        if e !in before {
          assert SessionsOf(records[..n], e) == 0;
          ZeroSessionsZeroMinutes(records[..n], e);
        }
        assert Dedupe(records)[e] == Participant(prior.sessionCount + 1, prior.totalMinutes + r.minutes, prior.internal);
      } else if r.email.Some? && r.email.value != [] {
        assert Dedupe(records) == before[r.email.value := Dedupe(records)[r.email.value]];
      } else {
        assert Dedupe(records) == before;
      }
    }
  }

  lemma {:induction false} ZeroSessionsZeroMinutes(records: seq<Attendance>, e: string)
    requires SessionsOf(records, e) == 0
    ensures MinutesOf(records, e) == 0
    decreases |records|
  {
    if records != [] {
      ZeroSessionsZeroMinutes(records[..|records| - 1], e);
    }
  }

  /** The participants outside the company. */
  function ExternalCount(groups: map<string, Participant>): (c: nat)
    ensures c <= |groups|
  {
    var external := set e | e in groups && !groups[e].internal;
    assert external <= groups.Keys;
    SubsetCard(external, groups.Keys);
    |external|
  }

  /** The non-empty addresses outside the company that some record carries. */
  function ExternalEmails(records: seq<Attendance>): set<string>
  {
    set i | 0 <= i < |records| && records[i].email.Some? && records[i].email.value != []
              && !Contains(records[i].email.value, "topbeat.in") :: records[i].email.value
  }

  /** An address has a session exactly when some record carries it. */
  lemma {:induction false} SessionsPositive(records: seq<Attendance>, e: string)
    ensures SessionsOf(records, e) > 0 <==> exists i :: 0 <= i < |records| && records[i].email == Some(e)
    decreases |records|
  {
    if records != [] {
      var n := |records| - 1;
      SessionsPositive(records[..n], e);
      if exists i :: 0 <= i < n && records[..n][i].email == Some(e) {
        var i :| 0 <= i < n && records[..n][i].email == Some(e);
        assert records[i].email == Some(e);
      }
      if exists i :: 0 <= i < |records| && records[i].email == Some(e) {
        var i :| 0 <= i < |records| && records[i].email == Some(e);
        if i < n {
          assert records[..n][i].email == Some(e);
        }
      }
    }
  }

  /** The external count of the deduplicated view is the number of distinct
    * external addresses among the records. */
  lemma ExternalCountIsExternalEmails(records: seq<Attendance>)
    ensures ExternalCount(Dedupe(records)) == |ExternalEmails(records)|
  {
    var groups := Dedupe(records);
    var external := set e | e in groups && !groups[e].internal;
    forall e | e in external
      ensures e in ExternalEmails(records)
    {
      DedupeCharacterised(records, e);
      SessionsPositive(records, e);
      var i :| 0 <= i < |records| && records[i].email == Some(e);
    }
    forall e | e in ExternalEmails(records)
      ensures e in external
    {
      var i :| 0 <= i < |records| && records[i].email.Some? && records[i].email.value == e && e != []
        && !Contains(e, "topbeat.in");
      SessionsPositive(records, e);
      DedupeCharacterised(records, e);
    }
    assert external == ExternalEmails(records);
  }

  lemma {:induction false} SessionsConcat(a: seq<Attendance>, b: seq<Attendance>, e: string)
    ensures SessionsOf(a + b, e) == SessionsOf(a, e) + SessionsOf(b, e)
    ensures MinutesOf(a + b, e) == MinutesOf(a, e) + MinutesOf(b, e)
    decreases |b|
  {
    if b == [] {
      assert a + b == a;
    } else {
      var n := |b| - 1;
      assert (a + b)[..|a + b| - 1] == a + b[..n];
      assert (a + b)[|a + b| - 1] == b[n];
      SessionsConcat(a, b[..n], e);
    }
  }

  /** Loading the same attendance again appends its records a second time:
    * the external count the load reports stays the same, but every
    * participant's session count and minutes grow by the reloaded records. */
  lemma ReloadPilesUp(stored: seq<Attendance>, records: seq<Attendance>, e: string)
    requires e != []
    ensures ExternalCount(Dedupe(stored + records + records)) == ExternalCount(Dedupe(stored + records))
    ensures e in Dedupe(stored + records) ==>
      e in Dedupe(stored + records + records)
      && Dedupe(stored + records + records)[e].sessionCount == SessionsOf(stored, e) + 2 * SessionsOf(records, e)
      && Dedupe(stored + records + records)[e].totalMinutes == MinutesOf(stored, e) + 2 * MinutesOf(records, e)
  {
    var once := stored + records;
    var twice := once + records;
    forall x | x in ExternalEmails(twice)
      ensures x in ExternalEmails(once)
    {
      var i :| 0 <= i < |twice| && twice[i].email.Some? && twice[i].email.value == x && x != []
        && !Contains(x, "topbeat.in");
      if i >= |once| {
        assert twice[i] == once[|stored| + (i - |once|)];
      } else {
        assert twice[i] == once[i];
      }
    }
    forall x | x in ExternalEmails(once)
      ensures x in ExternalEmails(twice)
    {
      var i :| 0 <= i < |once| && once[i].email.Some? && once[i].email.value == x && x != []
        && !Contains(x, "topbeat.in");
      assert twice[i] == once[i];
    }
    assert ExternalEmails(twice) == ExternalEmails(once);
    ExternalCountIsExternalEmails(once);
    ExternalCountIsExternalEmails(twice);
    SessionsConcat(stored, records, e);
    SessionsConcat(once, records, e);
    DedupeCharacterised(once, e);
    DedupeCharacterised(twice, e);
  }

  lemma SubsetCard(a: set<string>, b: set<string>)
    requires a <= b
    ensures |a| <= |b|
  {
    if a != b {
      var x :| x in b && x !in a;
      assert a <= b - {x};
      SubsetCard(a, b - {x});
    }
  }

  /** The meeting date: the start time up to its first space. */
  function MeetingDate(startTime: Cell): (r: string)
    ensures startTime.None? || startTime.value == [] ==> r == []
    ensures startTime.Some? ==> r <= startTime.value && ' ' !in r
    ensures startTime.Some? && |r| < |startTime.value| ==> startTime.value[|r|] == ' '
  {
    if startTime.None? then [] else FirstToken(startTime.value)
  }

  function FirstToken(s: string): (r: string)
    ensures r <= s && ' ' !in r
    ensures |r| < |s| ==> s[|r|] == ' '
  {
    if s == [] || s[0] == ' ' then []
    else
      var rest := FirstToken(s[1..]);
      [s[0]] + rest
  }
}
