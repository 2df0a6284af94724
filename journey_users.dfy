/** The unified users of the journey tracker: the table that links a Zoom
  * participant to the Shopify order the waterfall matched, the import of
  * orders nobody attended with, and the per-meeting matching run with its
  * statistics. The tracker and the dashboard copy differ only in where a
  * new user's city, state and pincode come from, which the table's
  * `shippingFallback` flag selects. */
module JourneyUsers {
  import opened Wrappers
  import LogisticsParsers
  import opened JourneyMatching

  /** A row of the deduplicated Zoom participants table, as matching reads it. */
  datatype ZoomParticipant = ZoomParticipant(
    id: string, meetingId: string, email: Cell, name: Cell, internal: bool,
    topic: Cell, minutes: Option<int>)

  /** A row of the unified users table. Dates are seconds. */
  datatype UnifiedUser = UnifiedUser(
    email: Cell, phone: Cell, name: Cell,
    city: Cell, state: Cell, pincode: Cell,
    orderNumbers: Cell, attendanceIds: Cell,
    firstOrderDate: Option<int>, latestOrderDate: Option<int>,
    orderCount: nat, totalValue: Option<real>, paymentMethod: Cell,
    hasAttended: bool, eventsAttended: nat, latestEvent: Cell, latestDuration: Option<int>,
    stage: string, confidence: real, via: MatchMethod, needsReview: bool, ltv: Option<real>)

  const Ordered: string := "ordered"
  const Engaged: string := "engaged"

  /** A new match below this confidence is flagged for review. */
  const ReviewBelow: real := 0.8

  // ---------------------------------------------------------------------------
  // Creating or updating one user
  // ---------------------------------------------------------------------------

  /** `WHERE primary_email = ? OR primary_phone = ?`: a NULL parameter matches nothing. */
  predicate SameContact(u: UnifiedUser, email: Cell, phone: Cell)
  {
    (email.Some? && u.email == email) || (phone.Some? && u.phone == phone)
  }

  /** The first user, in table order, with the given e-mail or phone. */
  function FindUser(users: seq<UnifiedUser>, email: Cell, phone: Cell): (r: Option<nat>)
    ensures r.Some? ==> r.value < |users| && SameContact(users[r.value], email, phone)
    ensures r.Some? ==> forall j :: 0 <= j < r.value ==> !SameContact(users[j], email, phone)
    ensures r.None? <==> forall j :: 0 <= j < |users| ==> !SameContact(users[j], email, phone)
    decreases |users|
  {
    if users == [] then None
    else if SameContact(users[0], email, phone) then Some(0)
    else
      var rest := FindUser(users[1..], email, phone);
      assert forall j :: 1 <= j < |users| ==> users[j] == users[1..][j - 1];
      if rest.None? then None else Some(rest.value + 1)
  }

  /** The update of an existing user on one more attendance: the participant's
    * id is appended to the attendance ids, the attendance count grows by one,
    * the latest event is this one, a stage of "ordered" becomes "engaged",
    * and nothing else changes. */
  function Attended(u: UnifiedUser, p: ZoomParticipant): (r: UnifiedUser)
    ensures r.attendanceIds.Some? && r.attendanceIds.value == u.attendanceIds.UnwrapOr("") + "," + p.id
    ensures r.hasAttended && r.eventsAttended == u.eventsAttended + 1
    ensures r.latestEvent == p.topic && r.latestDuration == p.minutes
    ensures r.stage == (if u.stage == Ordered then Engaged else u.stage)
    ensures r.(attendanceIds := u.attendanceIds, hasAttended := u.hasAttended,
               eventsAttended := u.eventsAttended, latestEvent := u.latestEvent,
               latestDuration := u.latestDuration, stage := u.stage) == u
  {
    u.(attendanceIds := Some(u.attendanceIds.UnwrapOr("") + "," + p.id),
       hasAttended := true,
       eventsAttended := u.eventsAttended + 1,
       latestEvent := p.topic,
       latestDuration := p.minutes,
       stage := if u.stage == Ordered then Engaged else u.stage)
  }

  /** A user's place fields: billing, falling back to shipping where the
    * table's flag says so. */
  function Place(billing: Cell, shipping: Cell, shippingFallback: bool): (r: Cell)
    ensures !shippingFallback ==> r == billing
    ensures shippingFallback ==> r == OrElse(billing, shipping)
  {
    if shippingFallback then OrElse(billing, shipping) else billing
  }

  /** The contact address a match is keyed by: the order's, else the participant's. */
  function MatchEmail(p: ZoomParticipant, o: StoredOrder): Cell
  {
    OrElse(o.email, p.email)
  }

  /** A new user from a match: engaged, one attendance and one order, the
    * match's confidence and method, flagged for review exactly when the
    * confidence is below 0.8. */
  function NewMatchedUser(p: ZoomParticipant, o: StoredOrder, confidence: real, via: MatchMethod,
                          shippingFallback: bool): (r: UnifiedUser)
    ensures r.needsReview <==> confidence < ReviewBelow
    ensures r.stage == Engaged && r.hasAttended && r.eventsAttended == 1 && r.orderCount == 1
    ensures r.email == MatchEmail(p, o) && r.phone == o.phone
    ensures r.name == OrElse(o.billingName, o.shippingName)
    ensures r.orderNumbers == o.orderNumber && r.attendanceIds == Some(p.id)
    ensures r.confidence == confidence && r.via == via
    ensures r.totalValue == o.total && r.ltv == o.total
  {
    UnifiedUser(
      MatchEmail(p, o), o.phone, OrElse(o.billingName, o.shippingName),
      Place(o.billingCity, o.shippingCity, shippingFallback),
      Place(o.billingProvince, o.shippingProvince, shippingFallback),
      Place(o.billingZip, o.shippingZip, shippingFallback),
      o.orderNumber, Some(p.id),
      o.createdAt, o.createdAt,
      1, o.total, o.paymentMethod,
      true, 1, p.topic, p.minutes,
      Engaged, confidence, via, confidence < ReviewBelow, o.total)
  }

  /** The table after recording one match: the first user with the match's
    * e-mail or the order's phone is updated, or else a new user is appended. */
  function AfterMatch(users: seq<UnifiedUser>, p: ZoomParticipant, o: StoredOrder, confidence: real,
                      via: MatchMethod, shippingFallback: bool): (r: seq<UnifiedUser>)
    ensures FindUser(users, MatchEmail(p, o), o.phone).Some? ==> |r| == |users|
    ensures FindUser(users, MatchEmail(p, o), o.phone).None? ==> |r| == |users| + 1
  {
    match FindUser(users, MatchEmail(p, o), o.phone)
    case Some(i) => users[i := Attended(users[i], p)]
    case None => users + [NewMatchedUser(p, o, confidence, via, shippingFallback)]
  }

  /** Recording a match changes one user only: the one found, or the new last
    * one; every other user is as before. */
  lemma AfterMatchTouchesOne(users: seq<UnifiedUser>, p: ZoomParticipant, o: StoredOrder, confidence: real,
                             via: MatchMethod, shippingFallback: bool, j: int)
    requires 0 <= j < |users|
    requires FindUser(users, MatchEmail(p, o), o.phone) != Some(j)
    ensures AfterMatch(users, p, o, confidence, via, shippingFallback)[j] == users[j]
  {
  }

  /** The user a match lands on is engaged unless it already had a stage other than "ordered". */
  lemma AfterMatchStage(users: seq<UnifiedUser>, p: ZoomParticipant, o: StoredOrder, confidence: real,
                        via: MatchMethod, shippingFallback: bool)
    ensures var r := AfterMatch(users, p, o, confidence, via, shippingFallback);
      match FindUser(users, MatchEmail(p, o), o.phone)
      case Some(i) => r[i].stage == (if users[i].stage == Ordered then Engaged else users[i].stage)
      case None => r[|users|].stage == Engaged && r[|users|].needsReview == (confidence < ReviewBelow)
  {
  }

  /** Once a match with some contact is recorded, a user with that contact
    * exists, so recording another match with the same order updates that
    * user instead of adding one. */
  lemma {:induction false} MatchRecordedOnce(users: seq<UnifiedUser>, p: ZoomParticipant, q: ZoomParticipant,
                                             o: StoredOrder, c1: real, c2: real,
                                             v1: MatchMethod, v2: MatchMethod, shippingFallback: bool)
    requires MatchEmail(p, o).Some? || o.phone.Some?
    requires MatchEmail(q, o) == MatchEmail(p, o)
    ensures var once := AfterMatch(users, p, o, c1, v1, shippingFallback);
      |AfterMatch(once, q, o, c2, v2, shippingFallback)| == |once|
  {
    var e := MatchEmail(p, o);
    var once := AfterMatch(users, p, o, c1, v1, shippingFallback);
    match FindUser(users, e, o.phone)
    case Some(i) =>
      assert once[i] == Attended(users[i], p);
      assert SameContact(once[i], e, o.phone);
    case None =>
      assert once[|users|] == NewMatchedUser(p, o, c1, v1, shippingFallback);
      assert SameContact(once[|users|], e, o.phone);
  }

  // ---------------------------------------------------------------------------
  // Direct import of orders
  // ---------------------------------------------------------------------------

  /** The stored e-mails of the users, the `primary_email IS NOT NULL` subquery. */
  function KnownEmails(users: seq<UnifiedUser>): (r: set<string>)
    ensures forall e :: e in r <==> exists i :: 0 <= i < |users| && users[i].email == Some(e)
  {
    set i | 0 <= i < |users| && users[i].email.Some? :: users[i].email.value
  }

  /** The stored order numbers of the users. */
  function KnownNumbers(users: seq<UnifiedUser>): (r: set<string>)
    ensures forall k :: k in r <==> exists i :: 0 <= i < |users| && users[i].orderNumbers == Some(k)
  {
    set i | 0 <= i < |users| && users[i].orderNumbers.Some? :: users[i].orderNumbers.value
  }

  /** SQL `x NOT IN (subquery)` over a subquery without NULLs: true over an
    * empty subquery whatever `x` is, otherwise true only for a non-NULL `x`
    * that is absent. */
  predicate SqlNotIn(x: Cell, s: set<string>)
  {
    s == {} || (x.Some? && x.value !in s)
  }

  /** An order the import selects: neither its e-mail nor its number is known. */
  predicate Unimported(o: StoredOrder, emails: set<string>, numbers: set<string>)
  {
    SqlNotIn(o.email, emails) && SqlNotIn(o.orderNumber, numbers)
  }

  /** The orders the import selects, in table order, against the users as
    * they were before the import began. */
  function ToImport(orders: seq<StoredOrder>, emails: set<string>, numbers: set<string>): (r: seq<StoredOrder>)
    ensures |r| <= |orders|
    ensures forall k :: 0 <= k < |r| ==> r[k] in orders && Unimported(r[k], emails, numbers)
    ensures forall o :: o in orders && Unimported(o, emails, numbers) ==> o in r
  {
    if orders == [] then []
    else
      var prior := ToImport(orders[..|orders| - 1], emails, numbers);
      var last := orders[|orders| - 1];
      assert orders == orders[..|orders| - 1] + [last];
      if Unimported(last, emails, numbers) then prior + [last] else prior
  }

  /** A user made from an order nobody attended with: stage "ordered",
    * confidence 1.0, method direct import, no attendance, a missing total
    * taken as 0. */
  function DirectImportUser(o: StoredOrder, shippingFallback: bool): (r: UnifiedUser)
    ensures r.stage == Ordered && r.confidence == 1.0 && r.via == DirectImport
    ensures !r.hasAttended && r.eventsAttended == 0 && !r.needsReview && r.attendanceIds.None?
    ensures r.email == o.email && r.orderNumbers == o.orderNumber && r.orderCount == 1
    ensures r.totalValue == Some(o.total.UnwrapOr(0.0)) && r.ltv == r.totalValue
  {
    UnifiedUser(
      o.email, o.phone, OrElse(o.billingName, o.shippingName),
      Place(o.billingCity, o.shippingCity, shippingFallback),
      Place(o.billingProvince, o.shippingProvince, shippingFallback),
      Place(o.billingZip, o.shippingZip, shippingFallback),
      o.orderNumber, None,
      o.createdAt, o.createdAt,
      1, Some(o.total.UnwrapOr(0.0)), o.paymentMethod,
      false, 0, None, None,
      Ordered, 1.0, DirectImport, false, Some(o.total.UnwrapOr(0.0)))
  }

  function DirectImports(orders: seq<StoredOrder>, shippingFallback: bool): (r: seq<UnifiedUser>)
    ensures |r| == |orders|
    ensures forall k :: 0 <= k < |orders| ==> r[k] == DirectImportUser(orders[k], shippingFallback)
  {
    seq(|orders|, k requires 0 <= k < |orders| => DirectImportUser(orders[k], shippingFallback))
  }

  /** Because `NOT IN` is NULL for a NULL e-mail, an order without an e-mail
    * is imported only while no user has an e-mail at all; likewise for a
    * missing order number. */
  lemma NullEmailImportedOnlyIntoEmptyTable(o: StoredOrder, users: seq<UnifiedUser>)
    requires Unimported(o, KnownEmails(users), KnownNumbers(users))
    ensures o.email.None? ==> forall i :: 0 <= i < |users| ==> users[i].email.None?
    ensures o.orderNumber.None? ==> forall i :: 0 <= i < |users| ==> users[i].orderNumbers.None?
  {
    assert forall i :: 0 <= i < |users| && users[i].email.Some? ==> users[i].email.value in KnownEmails(users);
    assert forall i :: 0 <= i < |users| && users[i].orderNumbers.Some? ==>
      users[i].orderNumbers.value in KnownNumbers(users);
  }

  /** After an import, no imported order with an e-mail or an order number
    * is selected by a second import. */
  lemma ImportedOnce(orders: seq<StoredOrder>, users: seq<UnifiedUser>, shippingFallback: bool, o: StoredOrder)
    requires o in ToImport(orders, KnownEmails(users), KnownNumbers(users))
    requires o.email.Some? || o.orderNumber.Some?
    ensures var after := users + DirectImports(ToImport(orders, KnownEmails(users), KnownNumbers(users)), shippingFallback);
      !Unimported(o, KnownEmails(after), KnownNumbers(after))
  {
    var batch := ToImport(orders, KnownEmails(users), KnownNumbers(users));
    var after := users + DirectImports(batch, shippingFallback);
    var k :| 0 <= k < |batch| && batch[k] == o;
    assert after[|users| + k] == DirectImportUser(o, shippingFallback);
    if o.email.Some? {
      assert o.email.value in KnownEmails(after);
    } else {
      assert o.orderNumber.value in KnownNumbers(after);
    }
  }

  // ---------------------------------------------------------------------------
  // Matching one meeting
  // ---------------------------------------------------------------------------

  /** The meeting's participants that are not internal, in table order. */
  function External(participants: seq<ZoomParticipant>, meetingId: string): (r: seq<ZoomParticipant>)
    ensures |r| <= |participants|
    ensures forall k :: 0 <= k < |r| ==> r[k] in participants && r[k].meetingId == meetingId && !r[k].internal
    ensures forall p :: p in participants && p.meetingId == meetingId && !p.internal ==> p in r
  {
    if participants == [] then []
    else
      var prior := External(participants[..|participants| - 1], meetingId);
      var last := participants[|participants| - 1];
      assert participants == participants[..|participants| - 1] + [last];
      if last.meetingId == meetingId && !last.internal then prior + [last] else prior
  }

  /** A participant's match: the waterfall on the normalised address and name. */
  function MatchOf(p: ZoomParticipant, orders: seq<StoredOrder>, ratio: Ratio): (m: MatchResult)
    ensures Settled(m)
  {
    Match(p.email, p.name, orders, ratio)
  }

  /** The matcher of a run, as a function of the participant. */
  function MatcherOf(orders: seq<StoredOrder>, ratio: Ratio): ZoomParticipant -> MatchResult
  {
    p => MatchOf(p, orders, ratio)
  }

  /** The results of a matcher over the participants, in order. */
  function MatchesBy(ps: seq<ZoomParticipant>, f: ZoomParticipant -> MatchResult): (ms: seq<MatchResult>)
    ensures |ms| == |ps|
  {
    if ps == [] then [] else MatchesBy(ps[..|ps| - 1], f) + [f(ps[|ps| - 1])]
  }

  lemma {:induction false} MatchesByAt(ps: seq<ZoomParticipant>, f: ZoomParticipant -> MatchResult, k: nat)
    requires k < |ps|
    ensures MatchesBy(ps, f)[k] == f(ps[k])
    decreases |ps|
  {
    var n := |ps| - 1;
    if k < n {
      MatchesByAt(ps[..n], f, k);
      assert ps[..n][k] == ps[k];
    }
  }

  lemma MatchesBySnoc(ps: seq<ZoomParticipant>, f: ZoomParticipant -> MatchResult, i: nat)
    requires i < |ps|
    ensures MatchesBy(ps[..i + 1], f) == MatchesBy(ps[..i], f) + [f(ps[i])]
  {
    assert ps[..i + 1][..i] == ps[..i];
  }

  /** Every participant's match, in order. */
  function Matches(ps: seq<ZoomParticipant>, orders: seq<StoredOrder>, ratio: Ratio): (ms: seq<MatchResult>)
    ensures |ms| == |ps| && WellFormed(ms)
  {
    var ms := MatchesBy(ps, MatcherOf(orders, ratio));
    assert WellFormed(ms) by {
      forall k | 0 <= k < |ms|
        ensures Settled(ms[k])
      {
        MatchesByAt(ps, MatcherOf(orders, ratio), k);
        assert ms[k] == MatchOf(ps[k], orders, ratio);
      }
    }
    ms
  }

  /** Entry `k` of the matches is participant `k`'s match. */
  lemma MatchesAt(ps: seq<ZoomParticipant>, orders: seq<StoredOrder>, ratio: Ratio, k: nat)
    requires k < |ps|
    ensures Matches(ps, orders, ratio)[k] == MatchOf(ps[k], orders, ratio)
  {
    MatchesByAt(ps, MatcherOf(orders, ratio), k);
  }

  /** The matches of one more participant. */
  lemma MatchesSnoc(ps: seq<ZoomParticipant>, orders: seq<StoredOrder>, ratio: Ratio, i: nat)
    requires i < |ps|
    ensures Matches(ps[..i + 1], orders, ratio) == Matches(ps[..i], orders, ratio) + [MatchOf(ps[i], orders, ratio)]
  {
    MatchesBySnoc(ps, MatcherOf(orders, ratio), i);
  }

  /** The four methods the statistics count. */
  predicate Counted(via: MatchMethod)
  {
    via.ExactEmail? || via.FuzzyEmail? || via.ExactName? || via.FuzzyName?
  }

  /** A match that carries an order and one of the four counted methods. */
  predicate Settled(m: MatchResult)
  {
    m.matched ==> Counted(m.via) && m.order.Some?
  }

  /** Matches whose matched ones are all settled. */
  predicate WellFormed(ms: seq<MatchResult>)
  {
    forall k :: 0 <= k < |ms| ==> Settled(ms[k])
  }

  lemma WellFormedPrefix(ms: seq<MatchResult>, n: nat)
    requires WellFormed(ms) && n <= |ms|
    ensures WellFormed(ms[..n]) && (n < |ms| ==> Settled(ms[n]))
  {
    assert forall k :: 0 <= k < n ==> ms[..n][k] == ms[k];
  }

  /** The per-method match counts. */
  datatype MethodCounts = MethodCounts(exactEmail: nat, fuzzyEmail: nat, exactName: nat, fuzzyName: nat)

  function Sum(c: MethodCounts): nat
  {
    c.exactEmail + c.fuzzyEmail + c.exactName + c.fuzzyName
  }

  /** One more match by the given method. */
  function CountMethod(c: MethodCounts, via: MatchMethod): (r: MethodCounts)
    ensures Counted(via) ==> Sum(r) == Sum(c) + 1
    ensures !Counted(via) ==> r == c
    ensures via == ExactEmail ==> r == c.(exactEmail := c.exactEmail + 1)
    ensures via == FuzzyEmail ==> r == c.(fuzzyEmail := c.fuzzyEmail + 1)
    ensures via == ExactName ==> r == c.(exactName := c.exactName + 1)
    ensures via == FuzzyName ==> r == c.(fuzzyName := c.fuzzyName + 1)
  {
    match via
    case ExactEmail => c.(exactEmail := c.exactEmail + 1)
    case FuzzyEmail => c.(fuzzyEmail := c.fuzzyEmail + 1)
    case ExactName => c.(exactName := c.exactName + 1)
    case FuzzyName => c.(fuzzyName := c.fuzzyName + 1)
    case _ => c
  }

  /** One line of the meeting's results. */
  datatype ParticipantResult = ParticipantResult(
    name: Cell, email: Cell, matched: bool, via: MatchMethod, confidence: real, orderNumber: Cell)

  datatype MeetingStats = MeetingStats(
    total: nat, matched: nat, unmatched: nat, methods: MethodCounts, results: seq<ParticipantResult>)

  function ResultOf(p: ZoomParticipant, m: MatchResult): ParticipantResult
  {
    ParticipantResult(p.name, p.email, m.matched, m.via, m.confidence, m.orderNumber)
  }

  /** One participant counted: a match under its method or one more unmatched,
    * and the participant's result line appended. */
  function CountOne(s: MeetingStats, p: ZoomParticipant, m: MatchResult): (r: MeetingStats)
    ensures r.total == s.total && |r.results| == |s.results| + 1
  {
    var counted :=
      if m.matched then s.(matched := s.matched + 1, methods := CountMethod(s.methods, m.via))
      else s.(unmatched := s.unmatched + 1);
    counted.(results := counted.results + [ResultOf(p, m)])
  }

  /** The statistics of a run over participants with the given matches, the
    * total being set up front: every participant is counted as matched or
    * unmatched, every match under its method, and the results list each
    * participant's match in order. */
  function Tally(ps: seq<ZoomParticipant>, ms: seq<MatchResult>, total: nat): (s: MeetingStats)
    requires |ms| == |ps| && WellFormed(ms)
    ensures s.total == total && s.matched + s.unmatched == |ps|
    ensures |s.results| == |ps|
    ensures forall k :: 0 <= k < |ps| ==> s.results[k] == ResultOf(ps[k], ms[k])
  {
    if ps == [] then MeetingStats(total, 0, 0, MethodCounts(0, 0, 0, 0), [])
    else
      var n := |ps| - 1;
      WellFormedPrefix(ms, n);
      CountOne(Tally(ps[..n], ms[..n], total), ps[n], ms[n])
  }

  /** The statistics of matching the participants against the orders. */
  function StatsOf(ps: seq<ZoomParticipant>, orders: seq<StoredOrder>, ratio: Ratio): (s: MeetingStats)
    ensures s.total == |ps| && s.matched + s.unmatched == s.total
    ensures |s.results| == |ps|
  {
    Tally(ps, Matches(ps, orders, ratio), |ps|)
  }

  /** Every match is counted under exactly one method: the per-method counts add up to the matches. */
  lemma {:induction false} TallyMethods(ps: seq<ZoomParticipant>, ms: seq<MatchResult>, total: nat)
    requires |ms| == |ps| && WellFormed(ms)
    ensures Sum(Tally(ps, ms, total).methods) == Tally(ps, ms, total).matched
    decreases |ps|
  {
    if ps != [] {
      var n := |ps| - 1;
      WellFormedPrefix(ms, n);
      TallyMethods(ps[..n], ms[..n], total);
    }
  }

  lemma StatsMethods(ps: seq<ZoomParticipant>, orders: seq<StoredOrder>, ratio: Ratio)
    ensures Sum(StatsOf(ps, orders, ratio).methods) == StatsOf(ps, orders, ratio).matched
  {
    TallyMethods(ps, Matches(ps, orders, ratio), |ps|);
  }

  /** Line `k` of a meeting's results is participant `k`'s match. */
  lemma StatsResult(ps: seq<ZoomParticipant>, orders: seq<StoredOrder>, ratio: Ratio, k: nat)
    requires k < |ps|
    ensures StatsOf(ps, orders, ratio).results[k] == ResultOf(ps[k], MatchOf(ps[k], orders, ratio))
  {
    MatchesAt(ps, orders, ratio, k);
  }

  /** One match's effect on the table: a match is recorded, no match changes nothing. */
  function RecordOne(users: seq<UnifiedUser>, p: ZoomParticipant, m: MatchResult, shippingFallback: bool)
    : (r: seq<UnifiedUser>)
    requires Settled(m)
    ensures |users| <= |r| <= |users| + (if m.matched then 1 else 0)
  {
    if m.matched then AfterMatch(users, p, m.order.value, m.confidence, m.via, shippingFallback) else users
  }

  /** The table after recording the matches one after another. */
  function RecordAll(users: seq<UnifiedUser>, ps: seq<ZoomParticipant>, ms: seq<MatchResult>,
                     shippingFallback: bool): (r: seq<UnifiedUser>)
    requires |ms| == |ps| && WellFormed(ms)
  {
    if ps == [] then users
    else
      var n := |ps| - 1;
      WellFormedPrefix(ms, n);
      RecordOne(RecordAll(users, ps[..n], ms[..n], shippingFallback), ps[n], ms[n], shippingFallback)
  }

  /** The table after matching the participants against the orders. */
  function MatchAll(users: seq<UnifiedUser>, ps: seq<ZoomParticipant>, orders: seq<StoredOrder>, ratio: Ratio,
                    shippingFallback: bool): seq<UnifiedUser>
  {
    RecordAll(users, ps, Matches(ps, orders, ratio), shippingFallback)
  }

  lemma PrefixSnoc<T>(s: seq<T>, i: nat)
    requires i < |s|
    ensures s[..i + 1] == s[..i] + [s[i]]
  {
  }

  lemma PrefixAll<T>(s: seq<T>)
    ensures s[..|s|] == s
  {
  }

  /** One more participant extends the tally by that participant's match. */
  lemma TallySnoc(ps: seq<ZoomParticipant>, ms: seq<MatchResult>, p: ZoomParticipant, m: MatchResult, total: nat)
    requires |ms| == |ps| && WellFormed(ms) && Settled(m)
    ensures WellFormed(ms + [m])
    ensures Tally(ps + [p], ms + [m], total) == CountOne(Tally(ps, ms, total), p, m)
  {
    assert forall k :: 0 <= k < |ms| ==> (ms + [m])[k] == ms[k];
    assert (ps + [p])[..|ps|] == ps && (ms + [m])[..|ms|] == ms;
  }

  /** One more participant records that participant's match. */
  lemma RecordAllSnoc(users: seq<UnifiedUser>, ps: seq<ZoomParticipant>, ms: seq<MatchResult>,
                      p: ZoomParticipant, m: MatchResult, shippingFallback: bool)
    requires |ms| == |ps| && WellFormed(ms) && Settled(m)
    ensures WellFormed(ms + [m])
    ensures RecordAll(users, ps + [p], ms + [m], shippingFallback) ==
      RecordOne(RecordAll(users, ps, ms, shippingFallback), p, m, shippingFallback)
  {
    assert forall k :: 0 <= k < |ms| ==> (ms + [m])[k] == ms[k];
    assert (ps + [p])[..|ps|] == ps && (ms + [m])[..|ms|] == ms;
  }

  /** The loop step of a meeting's run: one more participant's match extends the matches. */
  lemma MeetingStep(ps: seq<ZoomParticipant>, ms: seq<MatchResult>, i: nat, m: MatchResult,
                    orders: seq<StoredOrder>, ratio: Ratio)
    requires i < |ps| && ms == Matches(ps[..i], orders, ratio)
    requires m == Match(ps[i].email, ps[i].name, orders, ratio)
    ensures |ms| == i && WellFormed(ms) && Settled(m)
    ensures ms + [m] == Matches(ps[..i + 1], orders, ratio)
    ensures ps[..i + 1] == ps[..i] + [ps[i]]
  {
    assert m == MatchOf(ps[i], orders, ratio);
    PrefixSnoc(ps, i);
    MatchesSnoc(ps, orders, ratio, i);
  }

  /** Match the next participant of a run: the result extends the matches made so far. */
  method NextMatch(ps: seq<ZoomParticipant>, i: nat, ghost ms: seq<MatchResult>, orders: seq<StoredOrder>,
                   ratio: Ratio) returns (m: MatchResult)
    requires i < |ps| && ms == Matches(ps[..i], orders, ratio)
    ensures |ms| == i && WellFormed(ms) && Settled(m)
    ensures ms + [m] == Matches(ps[..i + 1], orders, ratio)
    ensures ps[..i + 1] == ps[..i] + [ps[i]]
  {
    m := FindMatchingOrder(ps[i].email, ps[i].name, orders, ratio);
    MeetingStep(ps, ms, i, m, orders, ratio);
  }

  /** Recording never removes users, and adds at most one per match counted. */
  lemma {:induction false} RecordAllGrowth(users: seq<UnifiedUser>, ps: seq<ZoomParticipant>, ms: seq<MatchResult>,
                                           total: nat, shippingFallback: bool)
    requires |ms| == |ps| && WellFormed(ms)
    ensures |users| <= |RecordAll(users, ps, ms, shippingFallback)| <= |users| + Tally(ps, ms, total).matched
  {
    if ps != [] {
      var n := |ps| - 1;
      WellFormedPrefix(ms, n);
      RecordAllGrowth(users, ps[..n], ms[..n], total, shippingFallback);
    }
  }

  /** A meeting's run adds at most as many users as it counts matches. */
  lemma MatchAllGrowth(users: seq<UnifiedUser>, ps: seq<ZoomParticipant>, orders: seq<StoredOrder>,
                       ratio: Ratio, shippingFallback: bool)
    ensures |users| <= |MatchAll(users, ps, orders, ratio, shippingFallback)| <= |users| + StatsOf(ps, orders, ratio).matched
  {
    RecordAllGrowth(users, ps, Matches(ps, orders, ratio), |ps|, shippingFallback);
  }

  /** The unified users table, with the matching run and the import that change it. */
  class UnifiedUsers {
    var users: seq<UnifiedUser>
    /** Whether a new user's place falls back to the shipping address (the
      * tracker) or is the billing address only (the dashboard copy). */
    const shippingFallback: bool

    constructor(shippingFallback: bool)
      ensures users == [] && this.shippingFallback == shippingFallback
    {
      users := [];
      this.shippingFallback := shippingFallback;
    }

    /** Create or update the user for one match; the result is the user's position. */
    method RecordMatch(p: ZoomParticipant, o: StoredOrder, confidence: real, via: MatchMethod) returns (id: nat)
      modifies this
      ensures users == AfterMatch(old(users), p, o, confidence, via, shippingFallback)
      ensures id < |users|
      ensures FindUser(old(users), MatchEmail(p, o), o.phone).Some? ==>
        id == FindUser(old(users), MatchEmail(p, o), o.phone).value
      ensures FindUser(old(users), MatchEmail(p, o), o.phone).None? ==> id == |old(users)|
    {
      var found := FindUser(users, MatchEmail(p, o), o.phone);
      if found.Some? {
        id := found.value;
        users := users[id := Attended(users[id], p)];
      } else {
        users := users + [NewMatchedUser(p, o, confidence, via, shippingFallback)];
        id := |users| - 1;
      }
    }

    /** Import every order that no user holds by e-mail or order number; the
      * result is the number of users created. */
    method ImportOrders(orders: seq<StoredOrder>) returns (created: nat)
      modifies this
      ensures var batch := ToImport(orders, KnownEmails(old(users)), KnownNumbers(old(users)));
        users == old(users) + DirectImports(batch, shippingFallback) && created == |batch|
    {
      var emails := KnownEmails(users);
      var numbers := KnownNumbers(users);
      var batch := ToImport(orders, emails, numbers);
      ghost var before := users;
      created := 0;
      while created < |batch|
        invariant 0 <= created <= |batch|
        invariant users == before + DirectImports(batch[..created], shippingFallback)
      {
        users := users + [DirectImportUser(batch[created], shippingFallback)];
        created := created + 1;
      }
      assert batch[..created] == batch;
    }

    /** One participant's outcome in a run: a match is counted under its
      * method and recorded in the table, a miss is counted as unmatched, and
      * the participant's result line is appended either way. */
    method CountAndRecord(p: ZoomParticipant, m: MatchResult, stats: MeetingStats) returns (next: MeetingStats)
      requires Settled(m)
      modifies this
      ensures next == CountOne(stats, p, m)
      ensures users == RecordOne(old(users), p, m, shippingFallback)
    {
      next := stats;
      if m.matched {
        next := next.(matched := next.matched + 1, methods := CountMethod(next.methods, m.via));
        var id := RecordMatch(p, m.order.value, m.confidence, m.via);
      } else {
        next := next.(unmatched := next.unmatched + 1);
      }
      next := next.(results := next.results + [ResultOf(p, m)]);
    }

    /** Match every external participant of a meeting, record each match, and
      * report the statistics. */
    method RunMatchingForMeeting(participants: seq<ZoomParticipant>, meetingId: string, orders: seq<StoredOrder>,
                                 ratio: Ratio) returns (stats: MeetingStats)
      modifies this
      ensures stats == StatsOf(External(participants, meetingId), orders, ratio)
      ensures users == MatchAll(old(users), External(participants, meetingId), orders, ratio, shippingFallback)
    {
      var ps := External(participants, meetingId);
      stats := MeetingStats(|ps|, 0, 0, MethodCounts(0, 0, 0, 0), []);
      ghost var before := users;
      ghost var ms: seq<MatchResult> := [];
      var i := 0;
      while i < |ps|
        invariant 0 <= i <= |ps|
        invariant ms == Matches(ps[..i], orders, ratio)
        invariant stats == Tally(ps[..i], ms, |ps|)
        invariant users == RecordAll(before, ps[..i], ms, shippingFallback)
      {
        var m := NextMatch(ps, i, ms, orders, ratio);
        stats := CountAndRecord(ps[i], m, stats);
        TallySnoc(ps[..i], ms, ps[i], m, |ps|);
        RecordAllSnoc(before, ps[..i], ms, ps[i], m, shippingFallback);
        ms := ms + [m];
        i := i + 1;
      }
      PrefixAll(ps);
    }
  }
}
