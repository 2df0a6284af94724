/** Linking Zoom participants to Shopify orders for the user-journey tracker:
  * name normalisation, the fuzzy e-mail and name comparisons, the four-step
  * matching waterfall, the per-meeting statistics and the unified-user table
  * that matching and direct import fill. The similarity measure is a
  * parameter; the order table is a sequence of rows in table order. */
module JourneyMatching {
  import opened Wrappers
  import opened Text
  import LogisticsParsers

  type Cell = Option<string>

  /** A similarity measure on two strings. */
  type Ratio = (string, string) -> real

  /** The measure stays within [0, 1], as a sequence-matcher ratio does. */
  ghost predicate RatioInRange(ratio: Ratio)
  {
    forall a: string, b: string :: 0.0 <= ratio(a, b) <= 1.0
  }

  // ---------------------------------------------------------------------------
  // Name normalisation
  // ---------------------------------------------------------------------------

  /** The titles removed from the front of a name, tried once each in this order. */
  const Titles: seq<string> := ["mr", "mrs", "ms", "dr", "shri", "smt", "prof"]

  /** `s` without a leading `title`, an optional '.' and the whitespace after
    * them; `s` itself when it does not start that way. */
  function StripTitle(s: string, title: string): (r: string)
    ensures |r| <= |s| && r == s[|s| - |r|..]
    ensures r != s ==> StartsWith(s, title) && (r == [] || !IsSpace(r[0]))
  {
    if !StartsWith(s, title) then s
    else
      var j := if |title| < |s| && s[|title|] == '.' then |title| + 1 else |title|;
      if j < |s| && IsSpace(s[j]) then
        var r := TrimStart(s[j..]);
        SuffixOfSuffix(s, j, |r|);
        r
      else s
  }

  lemma SuffixOfSuffix(s: string, j: nat, m: nat)
    requires j <= |s| && m <= |s| - j
    ensures s[j..][|s| - j - m..] == s[|s| - m..]
  {
  }

  /** Dropping a run of whitespace in front of `rest` leaves `rest`. */
  lemma {:induction false} TrimStartSpaces(gap: string, rest: string)
    requires forall k :: 0 <= k < |gap| ==> IsSpace(gap[k])
    requires rest == [] || !IsSpace(rest[0])
    ensures TrimStart(gap + rest) == rest
    decreases |gap|
  {
    if gap == [] {
      assert gap + rest == rest;
      TrimStartNoop(rest);
    } else {
      assert (gap + rest)[1..] == gap[1..] + rest;
      TrimStartSpaces(gap[1..], rest);
    }
  }

  /** A title followed by whitespace is removed together with the whitespace. */
  lemma TitleRemoved(title: string, gap: string, rest: string)
    requires gap != [] && forall k :: 0 <= k < |gap| ==> IsSpace(gap[k])
    requires rest == [] || !IsSpace(rest[0])
    ensures StripTitle(title + gap + rest, title) == rest
  {
    var tail := gap + rest;
    var s := title + tail;
    assert title + gap + rest == s;
    assert s[..|title|] == title;
    assert s[|title|..] == tail;
    assert s[|title|] == tail[0] == gap[0];
    assert StartsWith(s, title) && !(s[|title|] == '.') && IsSpace(s[|title|]);
    TrimStartSpaces(gap, rest);
    assert StripTitle(s, title) == TrimStart(tail);
  }

  /** So is a title followed by a dot and whitespace. */
  lemma DottedTitleRemoved(title: string, gap: string, rest: string)
    requires gap != [] && forall k :: 0 <= k < |gap| ==> IsSpace(gap[k])
    requires rest == [] || !IsSpace(rest[0])
    ensures StripTitle(title + "." + gap + rest, title) == rest
  {
    var s := title + "." + gap + rest;
    assert s[..|title|] == title;
    assert s[|title|] == '.';
    assert s[|title| + 1] == gap[0];
    assert s[|title| + 1..] == gap + rest;
    TrimStartSpaces(gap, rest);
  }

  /** Each title of `titles` removed in turn. */
  function StripTitles(s: string, titles: seq<string>): (r: string)
    ensures |r| <= |s|
    decreases |titles|
  {
    if titles == [] then s else StripTitles(StripTitle(s, titles[0]), titles[1..])
  }

  /** A string none of the titles applies to is left as it is. */
  lemma {:induction false} StripTitlesNoop(s: string, titles: seq<string>)
    requires forall k :: 0 <= k < |titles| ==> StripTitle(s, titles[k]) == s
    ensures StripTitles(s, titles) == s
    decreases |titles|
  {
    if titles != [] {
      StripTitlesNoop(s, titles[1..]);
    }
  }

  predicate LettersOrSpaces(s: string)
  {
    forall i :: 0 <= i < |s| ==> IsLowerLetter(s[i]) || IsSpace(s[i])
  }

  /** The lower-case ASCII letters and whitespace of `s`, in order. */
  function KeepLettersAndSpaces(s: string): (r: string)
    ensures |r| <= |s| && LettersOrSpaces(r)
  {
    if s == [] then []
    else (if IsLowerLetter(s[0]) || IsSpace(s[0]) then [s[0]] else []) + KeepLettersAndSpaces(s[1..])
  }

  lemma {:induction false} KeepLettersAndSpacesNoop(s: string)
    requires LettersOrSpaces(s)
    ensures KeepLettersAndSpaces(s) == s
    decreases |s|
  {
    if s != [] {
      KeepLettersAndSpacesNoop(s[1..]);
    }
  }

  /** The length of the run of non-whitespace characters at the front of `s`. */
  function WordLength(s: string): (n: nat)
    ensures n <= |s|
    ensures forall k :: 0 <= k < n ==> !IsSpace(s[k])
    ensures n == |s| || IsSpace(s[n])
  {
    if s == [] || IsSpace(s[0]) then 0 else 1 + WordLength(s[1..])
  }

  /** A non-empty run of non-whitespace characters. */
  predicate IsWord(w: string)
  {
    w != [] && forall k :: 0 <= k < |w| ==> !IsSpace(w[k])
  }

  /** The whitespace-separated words of `s`. */
  function Words(s: string): (r: seq<string>)
    ensures TrimStart(s) != [] ==> r != []
    decreases |s|
  {
    var t := TrimStart(s);
    if t == [] then []
    else
      var n := WordLength(t);
      assert n >= 1;
      [t[..n]] + Words(t[n..])
  }

  predicate AllLetters(w: string)
  {
    forall k :: 0 <= k < |w| ==> IsLowerLetter(w[k])
  }

  lemma SuffixLettersOrSpaces(s: string, j: nat)
    requires LettersOrSpaces(s) && j <= |s|
    ensures LettersOrSpaces(s[j..])
  {
    forall k | 0 <= k < |s| - j ensures s[j..][k] == s[j + k] { }
  }

  lemma WordOfLetters(t: string, n: nat)
    requires LettersOrSpaces(t) && n <= |t|
    requires forall k :: 0 <= k < n ==> !IsSpace(t[k])
    ensures AllLetters(t[..n])
  {
    forall k | 0 <= k < n ensures t[..n][k] == t[k] { }
  }

  /** Every word is a non-empty run without whitespace. */
  lemma {:induction false} WordsAreWords(s: string)
    ensures forall i :: 0 <= i < |Words(s)| ==> IsWord(Words(s)[i])
    decreases |s|
  {
    var t := TrimStart(s);
    if t != [] {
      var n := WordLength(t);
      assert n != 0;
      var later := Words(t[n..]);
      WordsAreWords(t[n..]);
      var ws := Words(s);
      assert ws == [t[..n]] + later;
      forall i | 0 <= i < |ws| ensures IsWord(ws[i]) {
        if i > 0 {
          assert ws[i] == later[i - 1];
        } else {
          assert forall k :: 0 <= k < n ==> t[..n][k] == t[k];
        }
      }
    }
  }

  /** The words of a string of letters and whitespace are non-empty and made
    * of letters. */
  lemma {:induction false} WordsOfLetters(s: string)
    requires LettersOrSpaces(s)
    ensures forall i :: 0 <= i < |Words(s)| ==> Words(s)[i] != [] && AllLetters(Words(s)[i])
    decreases |s|
  {
    var t := TrimStart(s);
    if t != [] {
      var n := WordLength(t);
      assert n != 0;
      SuffixLettersOrSpaces(s, |s| - |t|);
      WordOfLetters(t, n);
      SuffixLettersOrSpaces(t, n);
      var later := Words(t[n..]);
      WordsOfLetters(t[n..]);
      var ws := Words(s);
      assert ws == [t[..n]] + later;
      forall i | 0 <= i < |ws| ensures ws[i] != [] && AllLetters(ws[i]) {
        if i > 0 {
          assert ws[i] == later[i - 1];
        }
      }
    }
  }

  /** Lower-case words separated by single spaces, with none at either end. */
  ghost predicate Tidy(s: string)
  {
    && (forall i :: 0 <= i < |s| ==> IsLowerLetter(s[i]) || s[i] == ' ')
    && (s != [] ==> IsLowerLetter(s[0]) && IsLowerLetter(s[|s| - 1]))
    && (forall i, j :: 0 <= i < j < |s| && j == i + 1 ==> IsLowerLetter(s[i]) || IsLowerLetter(s[j]))
  }

  /** Words joined by single spaces form a tidy string. */
  lemma {:induction false} JoinTidy(words: seq<string>)
    requires forall i :: 0 <= i < |words| ==> words[i] != [] && AllLetters(words[i])
    ensures Tidy(Join(words, " "))
    ensures words != [] ==> Join(words, " ") != []
    decreases |words|
  {
    if |words| == 1 {
      assert Join(words, " ") == words[0];
    } else if |words| >= 2 {
      var w := words[0];
      var rest := Join(words[1..], " ");
      JoinTidy(words[1..]);
      var r := Join(words, " ");
      assert r == w + " " + rest;
      assert IsLowerLetter(r[0]) by { assert r[0] == w[0]; }
      assert r[|r| - 1] == rest[|rest| - 1];
      forall i | 0 <= i < |r|
        ensures IsLowerLetter(r[i]) || r[i] == ' '
      {
        if i < |w| {
          assert r[i] == w[i];
        } else if i > |w| {
          assert r[i] == rest[i - |w| - 1];
        }
      }
      forall i, j | 0 <= i < j < |r| && j == i + 1
        ensures IsLowerLetter(r[i]) || IsLowerLetter(r[j])
      {
        if i < |w| {
          assert r[i] == w[i];
        } else if i == |w| {
          assert r[j] == rest[0];
        } else {
          assert r[i] == rest[i - |w| - 1] && r[j] == rest[j - |w| - 1];
        }
      }
    }
  }

  /** What follows a space of a tidy string is tidy. */
  lemma TidySuffix(s: string, j: nat)
    requires Tidy(s) && 0 < j < |s| && s[j - 1] == ' '
    ensures Tidy(s[j..])
  {
    var t := s[j..];
    assert t[0] == s[j];
    assert IsLowerLetter(s[j - 1]) || IsLowerLetter(s[j]);
    forall i | 0 <= i < |t| ensures IsLowerLetter(t[i]) || t[i] == ' ' {
      assert t[i] == s[j + i];
    }
    forall i, k | 0 <= i < k < |t| && k == i + 1
      ensures IsLowerLetter(t[i]) || IsLowerLetter(t[k])
    {
      assert t[i] == s[j + i] && t[k] == s[j + k];
      assert IsLowerLetter(s[j + i]) || IsLowerLetter(s[j + k]);
    }
  }

  lemma WordsAfterSpace(u: string)
    requires |u| >= 2 && IsSpace(u[0]) && !IsSpace(u[1])
    ensures Words(u) == Words(u[1..])
  {
    TrimStartNoop(u[1..]);
  }

  /** `s` around a space at position `n`. */
  lemma SplitAtSpace(s: string, n: nat)
    requires n < |s| && s[n] == ' '
    ensures s == s[..n] + " " + s[n + 1..]
  {
    var r := s[..n] + " " + s[n + 1..];
    assert |r| == |s|;
    forall i | 0 <= i < |s| ensures r[i] == s[i] {
      if i < n {
        assert r[i] == s[..n][i];
      } else if i > n {
        assert r[i] == s[n + 1..][i - n - 1];
      }
    }
  }

  lemma WordsCons(s: string)
    requires s != [] && !IsSpace(s[0])
    ensures Words(s) == [s[..WordLength(s)]] + Words(s[WordLength(s)..])
  {
    TrimStartNoop(s);
  }

  lemma JoinCons(a: string, ws: seq<string>, sep: string)
    requires ws != []
    ensures Join([a] + ws, sep) == a + sep + Join(ws, sep)
  {
    assert ([a] + ws)[1..] == ws;
  }

  lemma DropOne(s: string, n: nat)
    requires n < |s|
    ensures s[n..][1..] == s[n + 1..]
  {
  }

  /** The step of `CollapseTidy`: the first word of a tidy string, a space and
    * the rest, given the rest is its own words joined. */
  lemma CollapseAtSpace(s: string, n: nat)
    requires s != [] && !IsSpace(s[0]) && n == WordLength(s) < |s| - 1
    requires s[n] == ' ' && !IsSpace(s[n + 1])
    requires Join(Words(s[n + 1..]), " ") == s[n + 1..]
    ensures Join(Words(s), " ") == s
  {
    var t := s[n + 1..];
    WordsCons(s);
    var u := s[n..];
    assert u[1..] == t by { DropOne(s, n); }
    WordsAfterSpace(u);
    TrimStartNoop(t);
    var ws := Words(t);
    JoinCons(s[..n], ws, " ");
    SplitAtSpace(s, n);
  }

  /** In a tidy string the first word ends at a single space before more words. */
  lemma TidyWordEnd(s: string, n: nat)
    requires Tidy(s) && s != [] && n == WordLength(s) < |s|
    ensures s[n] == ' ' && n < |s| - 1 && IsLowerLetter(s[n + 1]) && Tidy(s[n + 1..])
  {
    assert IsSpace(s[n]) && !IsLowerLetter(s[n]);
    TidySuffix(s, n + 1);
    assert s[n + 1..][0] == s[n + 1];
  }

  lemma CollapseOneWord(s: string)
    requires s != [] && !IsSpace(s[0]) && WordLength(s) == |s|
    ensures Join(Words(s), " ") == s
  {
    WordsCons(s);
    var empty := s[|s|..];
    assert empty == [];
    assert TrimStart(empty) == [];
    assert Words(empty) == [];
    assert s[..|s|] == s;
    assert Words(s) == [s];
  }

  /** A tidy string is its own words joined by single spaces. */
  lemma {:induction false} CollapseTidy(s: string)
    requires Tidy(s)
    ensures Join(Words(s), " ") == s
    decreases |s|
  {
    if s != [] {
      assert IsLowerLetter(s[0]);
      var n := WordLength(s);
      if n == |s| {
        CollapseOneWord(s);
      } else {
        TidyWordEnd(s, n);
        CollapseTidy(s[n + 1..]);
        CollapseAtSpace(s, n);
      }
    }
  }

  /** The canonical form of a person's name used for matching, `None` when
    * nothing is left: lower-cased and trimmed, leading titles removed,
    * everything but letters and whitespace dropped, words separated by single
    * spaces. */
  function NormalizeName(name: Cell): (r: Option<string>)
    ensures r.Some? ==> r.value != []
    ensures name.None? || Strip(name.value) == [] ==> r.None?
  {
    match name
    case None => None
    case Some(raw) =>
      if Strip(raw) == [] then None
      else
        var c := Join(Words(KeepLettersAndSpaces(StripTitles(Strip(Lower(raw)), Titles))), " ");
        if c == [] then None else Some(c)
  }

  /** A normalised name is tidy: lower-case words of letters separated by
    * single spaces, with no space at either end. */
  lemma NormalizeNameTidy(name: Cell)
    ensures NormalizeName(name).Some? ==> Tidy(NormalizeName(name).value)
  {
    if name.Some? && Strip(name.value) != [] {
      var letters := KeepLettersAndSpaces(StripTitles(Strip(Lower(name.value)), Titles));
      WordsOfLetters(letters);
      JoinTidy(Words(letters));
    }
  }

  /** A tidy name that starts with no title normalises to itself, so
    * normalising it a second time changes nothing. */
  lemma NormalizeNameStable(s: string)
    requires s != [] && Tidy(s)
    requires forall k :: 0 <= k < |Titles| ==> StripTitle(s, Titles[k]) == s
    ensures NormalizeName(Some(s)) == Some(s)
  {
    assert IsLowerLetter(s[0]) && IsLowerLetter(s[|s| - 1]);
    StripNoop(s);
    assert Lower(s) == s;
    StripTitlesNoop(s, Titles);
    assert LettersOrSpaces(s);
    KeepLettersAndSpacesNoop(s);
    CollapseTidy(s);
  }

  // ---------------------------------------------------------------------------
  // Fuzzy comparisons
  // ---------------------------------------------------------------------------

  /** Whether two values are taken to match, and how similar they are. */
  datatype Comparison = Comparison(isMatch: bool, confidence: real)

  const NoComparison: Comparison := Comparison(false, 0.0)

  /** The default thresholds of the e-mail and name comparisons. */
  const EmailThreshold: real := 0.85
  const NameThreshold: real := 0.75

  /** The part of an address before its first '@' (all of it without one). */
  function LocalPart(e: string): (r: string)
    ensures '@' !in r
    ensures StartsWith(e, r)
    ensures |r| < |e| ==> e[|r|] == '@'
  {
    if e == [] || e[0] == '@' then [] else [e[0]] + LocalPart(e[1..])
  }

  /** Two addresses compared by the similarity of their local parts; a missing
    * or invalid address compares as no match with confidence 0. */
  function EmailFuzzyMatch(email1: Cell, email2: Cell, ratio: Ratio, threshold: real): (c: Comparison)
    ensures LogisticsParsers.NormalizeEmail(email1).None? || LogisticsParsers.NormalizeEmail(email2).None? ==> c == NoComparison
    ensures LogisticsParsers.NormalizeEmail(email1).Some? && LogisticsParsers.NormalizeEmail(email2).Some? ==>
      c.confidence == ratio(LocalPart(LogisticsParsers.NormalizeEmail(email1).value), LocalPart(LogisticsParsers.NormalizeEmail(email2).value))
    ensures c.isMatch <==> c != NoComparison && c.confidence >= threshold
  {
    var e1 := LogisticsParsers.NormalizeEmail(email1);
    var e2 := LogisticsParsers.NormalizeEmail(email2);
    if e1.None? || e2.None? then NoComparison
    else
      var r := ratio(LocalPart(e1.value), LocalPart(e2.value));
      Comparison(r >= threshold, r)
  }

  /** Only the local parts count: two addresses with the same local part
    * compare alike against any third, whatever their domains. */
  lemma EmailDomainIgnored(email: Cell, a: Cell, b: Cell, ratio: Ratio, threshold: real)
    requires LogisticsParsers.NormalizeEmail(a).Some? && LogisticsParsers.NormalizeEmail(b).Some?
    requires LocalPart(LogisticsParsers.NormalizeEmail(a).value) == LocalPart(LogisticsParsers.NormalizeEmail(b).value)
    ensures EmailFuzzyMatch(email, a, ratio, threshold) == EmailFuzzyMatch(email, b, ratio, threshold)
  {
  }

  function Reversed(ws: seq<string>): (r: seq<string>)
    ensures |r| == |ws| && forall i :: 0 <= i < |ws| ==> r[i] == ws[|ws| - 1 - i]
  {
    if ws == [] then [] else Reversed(ws[1..]) + [ws[0]]
  }

  /** The first name's words in reverse order, joined by single spaces. */
  function ReversedName(n: string): string
  {
    Join(Reversed(Words(n)), " ")
  }

  /** Both names have at least two words, so the reversed order is tried. */
  predicate BothMultiWord(n1: string, n2: string)
  {
    |Words(n1)| >= 2 && |Words(n2)| >= 2
  }

  /** Two normalised names compared: they match when the direct similarity,
    * or for two names of at least two words each the similarity with the
    * first name's words reversed, reaches the threshold. A match reports the
    * similarity that matched, the direct one first; a failure reports the
    * direct similarity. */
  function CompareNames(n1: string, n2: string, ratio: Ratio, threshold: real): (c: Comparison)
    ensures c.isMatch <==> ratio(n1, n2) >= threshold || (BothMultiWord(n1, n2) && ratio(ReversedName(n1), n2) >= threshold)
    ensures c.isMatch ==> c.confidence >= threshold
    ensures !c.isMatch || ratio(n1, n2) >= threshold ==> c.confidence == ratio(n1, n2)
    ensures c.isMatch && ratio(n1, n2) < threshold ==> c.confidence == ratio(ReversedName(n1), n2)
  {
    var direct := ratio(n1, n2);
    if direct >= threshold then Comparison(true, direct)
    else if BothMultiWord(n1, n2) then
      var reversed := ratio(ReversedName(n1), n2);
      if reversed >= threshold then Comparison(true, reversed) else Comparison(false, direct)
    else Comparison(false, direct)
  }

  /** Two names compared on their normal forms; a missing or empty name
    * compares as no match with confidence 0. */
  function NameFuzzyMatch(name1: Cell, name2: Cell, ratio: Ratio, threshold: real): (c: Comparison)
    ensures NormalizeName(name1).None? || NormalizeName(name2).None? ==> c == NoComparison
    ensures NormalizeName(name1).Some? && NormalizeName(name2).Some? ==>
      c == CompareNames(NormalizeName(name1).value, NormalizeName(name2).value, ratio, threshold)
  {
    var n1 := NormalizeName(name1);
    var n2 := NormalizeName(name2);
    if n1.None? || n2.None? then NoComparison
    else CompareNames(n1.value, n2.value, ratio, threshold)
  }

  /** A one-word name is compared directly only: word order is tried only for
    * two names of at least two words each. */
  lemma OneWordNameComparedDirectly(n1: string, n2: string, ratio: Ratio, threshold: real)
    requires |Words(n1)| < 2 || |Words(n2)| < 2
    ensures CompareNames(n1, n2, ratio, threshold) == Comparison(ratio(n1, n2) >= threshold, ratio(n1, n2))
  {
  }

  /** Under a measure within [0, 1] the e-mail comparison reports a confidence within [0, 1]. */
  lemma EmailComparisonInRange(a: Cell, b: Cell, ratio: Ratio, threshold: real)
    requires RatioInRange(ratio)
    ensures 0.0 <= EmailFuzzyMatch(a, b, ratio, threshold).confidence <= 1.0
  {
  }

  /** And so does the comparison of two normalised names. */
  lemma CompareNamesInRange(n1: string, n2: string, ratio: Ratio, threshold: real)
    requires RatioInRange(ratio)
    ensures 0.0 <= CompareNames(n1, n2, ratio, threshold).confidence <= 1.0
  {
    assert 0.0 <= ratio(n1, n2) <= 1.0;
    assert 0.0 <= ratio(ReversedName(n1), n2) <= 1.0;
  }

  /** And so does the name comparison. */
  lemma NameComparisonInRange(a: Cell, b: Cell, ratio: Ratio, threshold: real)
    requires RatioInRange(ratio)
    ensures 0.0 <= NameFuzzyMatch(a, b, ratio, threshold).confidence <= 1.0
  {
    var n1 := NormalizeName(a);
    var n2 := NormalizeName(b);
    if n1.Some? && n2.Some? {
      CompareNamesInRange(n1.value, n2.value, ratio, threshold);
    }
  }

  // ---------------------------------------------------------------------------
  // Orders and lookups
  // ---------------------------------------------------------------------------

  /** A row of the stored Shopify orders, with the columns matching and the
    * unified users read. Dates are seconds. */
  datatype StoredOrder = StoredOrder(
    orderNumber: Cell, email: Cell, phone: Cell,
    billingName: Cell, shippingName: Cell,
    billingCity: Cell, shippingCity: Cell,
    billingProvince: Cell, shippingProvince: Cell,
    billingZip: Cell, shippingZip: Cell,
    createdAt: Option<int>, total: Option<real>, paymentMethod: Cell)

  /** The row selections of the waterfall's queries. */
  datatype OrderFilter = EmailIs(email: string) | NameIs(name: string) | NumberIs(number: string)

  /** SQL `LOWER` on a nullable column. */
  function LowerCell(c: Cell): (r: Cell)
    ensures r.None? <==> c.None?
    ensures c.Some? ==> r.value == Lower(c.value)
  {
    if c.None? then None else Some(Lower(c.value))
  }

  predicate Keeps(f: OrderFilter, o: StoredOrder)
  {
    match f
    case EmailIs(e) => o.email == Some(e)
    case NameIs(n) => LowerCell(o.billingName) == Some(n) || LowerCell(o.shippingName) == Some(n)
    case NumberIs(k) => o.orderNumber == Some(k)
  }

  /** Date `a` sorts no later than date `b` under `ORDER BY created_at DESC`,
    * where a missing date sorts last. */
  predicate NewerOrSame(a: Option<int>, b: Option<int>)
  {
    b.None? || (a.Some? && a.value >= b.value)
  }

  /** The first row of `ORDER BY created_at DESC LIMIT 1` over the selected rows
    * (among equally dated rows, the earliest in the table). */
  function Latest(orders: seq<StoredOrder>, f: OrderFilter): (r: Option<StoredOrder>)
    ensures r.None? <==> forall i :: 0 <= i < |orders| ==> !Keeps(f, orders[i])
    ensures r.Some? ==> r.value in orders && Keeps(f, r.value)
    ensures r.Some? ==> forall i :: 0 <= i < |orders| && Keeps(f, orders[i]) ==> NewerOrSame(r.value.createdAt, orders[i].createdAt)
    decreases |orders|
  {
    if orders == [] then None
    else
      var rest := Latest(orders[1..], f);
      assert forall i :: 1 <= i < |orders| ==> orders[i] == orders[1..][i - 1];
      if !Keeps(f, orders[0]) then rest
      else if rest.None? || NewerOrSame(orders[0].createdAt, rest.value.createdAt) then Some(orders[0])
      else rest
  }

  /** The first selected row in table order (a query without `ORDER BY`). */
  function First(orders: seq<StoredOrder>, f: OrderFilter): (r: Option<StoredOrder>)
    ensures r.None? <==> forall i :: 0 <= i < |orders| ==> !Keeps(f, orders[i])
    ensures r.Some? ==> exists i :: (0 <= i < |orders| && orders[i] == r.value && Keeps(f, r.value)
      && forall j :: 0 <= j < i ==> !Keeps(f, orders[j]))
    decreases |orders|
  {
    if orders == [] then None
    else if Keeps(f, orders[0]) then Some(orders[0])
    else
      var rest := First(orders[1..], f);
      assert forall i :: 1 <= i < |orders| ==> orders[i] == orders[1..][i - 1];
      if rest.Some? then
        assert exists i :: (1 <= i < |orders| && orders[i] == rest.value && Keeps(f, rest.value)
          && forall j :: 0 <= j < i ==> !Keeps(f, orders[j])) by {
          var i' :| 0 <= i' < |orders[1..]| && orders[1..][i'] == rest.value && Keeps(f, rest.value)
            && forall j :: 0 <= j < i' ==> !Keeps(f, orders[1..][j]);
          assert orders[i' + 1] == rest.value;
        }
        rest
      else rest
  }

  /** `SELECT DISTINCT email ... WHERE email IS NOT NULL`, in order of first appearance. */
  function DistinctEmails(orders: seq<StoredOrder>): (r: seq<string>)
    ensures forall e :: e in r <==> exists i :: 0 <= i < |orders| && orders[i].email == Some(e)
    ensures forall i, j :: 0 <= i < j < |r| ==> r[i] != r[j]
    decreases |orders|
  {
    if orders == [] then []
    else
      var prior := DistinctEmails(orders[..|orders| - 1]);
      var last := orders[|orders| - 1].email;
      assert forall i :: 0 <= i < |orders| - 1 ==> orders[..|orders| - 1][i] == orders[i];
      if last.Some? && last.value !in prior then prior + [last.value] else prior
  }

  // ---------------------------------------------------------------------------
  // Best-so-far scans
  // ---------------------------------------------------------------------------

  /** A compared value: the key the scan reports (an address or an order
    * number) and its comparison. */
  datatype Candidate = Candidate(key: Option<string>, comparison: Comparison)

  /** The state of a best-so-far scan. */
  datatype Best = Best(key: Option<string>, confidence: real)

  /** Candidate `i` is the scan's winner: a match with the best confidence,
    * and no earlier match reaches it. */
  predicate IsWinner(cands: seq<Candidate>, i: int, b: Best)
  {
    && 0 <= i < |cands|
    && cands[i].comparison.isMatch
    && cands[i].key == b.key
    && cands[i].comparison.confidence == b.confidence
    && forall j :: 0 <= j < i && cands[j].comparison.isMatch ==> cands[j].comparison.confidence < b.confidence
  }

  /** The outcome of scanning `cands` in order, replacing the best only on a
    * match with strictly higher confidence, from no key and confidence 0. */
  function BestOf(cands: seq<Candidate>): (b: Best)
    ensures b.confidence >= 0.0
    ensures forall i :: 0 <= i < |cands| && cands[i].comparison.isMatch ==> cands[i].comparison.confidence <= b.confidence
    ensures b.confidence == 0.0 ==> b == Best(None, 0.0)
    ensures b.confidence > 0.0 ==> exists i :: IsWinner(cands, i, b)
    decreases |cands|
  {
    if cands == [] then Best(None, 0.0)
    else
      var prior := BestOf(cands[..|cands| - 1]);
      var c := cands[|cands| - 1];
      assert forall i :: 0 <= i < |cands| - 1 ==> cands[..|cands| - 1][i] == cands[i];
      if c.comparison.isMatch && c.comparison.confidence > prior.confidence then
        var b := Best(c.key, c.comparison.confidence);
        assert IsWinner(cands, |cands| - 1, b);
        b
      else
        assert prior.confidence > 0.0 ==> exists i :: IsWinner(cands, i, prior) by {
          if prior.confidence > 0.0 {
            var i :| IsWinner(cands[..|cands| - 1], i, prior);
            assert IsWinner(cands, i, prior);
          }
        }
        prior
  }

  /** One more candidate replaces the best only on a strictly better match. */
  lemma BestOfSnoc(cands: seq<Candidate>, y: Candidate)
    ensures BestOf(cands + [y]) ==
      if y.comparison.isMatch && y.comparison.confidence > BestOf(cands).confidence
      then Best(y.key, y.comparison.confidence) else BestOf(cands)
  {
    assert (cands + [y])[..|cands|] == cands;
  }

  /** A candidate seen before does not change the scan wherever the repeat
    * stands after it, so dropping later duplicates, as a DISTINCT that keeps
    * first occurrences does, scans like all rows. */
  lemma {:induction false} BestOfRepeat(a: seq<Candidate>, x: Candidate, b: seq<Candidate>)
    requires x in a
    ensures BestOf(a + [x] + b) == BestOf(a + b)
    decreases |b|
  {
    if b == [] {
      assert a + [x] + b == a + [x];
      assert a + b == a;
      var i :| 0 <= i < |a| && a[i] == x;
      var p := BestOf(a);
      if x.comparison.isMatch {
        assert a[i].comparison.confidence <= p.confidence;
      }
      BestOfSnoc(a, x);
    } else {
      var n := |b| - 1;
      var y := b[n];
      assert a + [x] + b == (a + [x] + b[..n]) + [y];
      assert a + b == (a + b[..n]) + [y];
      BestOfRepeat(a, x, b[..n]);
      BestOfSnoc(a + [x] + b[..n], y);
      BestOfSnoc(a + b[..n], y);
    }
  }

  /** A scan over confidences of at most 1 ends with at most 1. */
  lemma BestOfAtMostOne(cands: seq<Candidate>)
    requires forall i :: 0 <= i < |cands| ==> cands[i].comparison.confidence <= 1.0
    ensures BestOf(cands).confidence <= 1.0
  {
    var b := BestOf(cands);
    if b.confidence > 0.0 {
      var i :| IsWinner(cands, i, b);
    }
  }

  /** The best-so-far loop of the two fuzzy steps. */
  method ScanBest(cands: seq<Candidate>) returns (best: Best)
    ensures best == BestOf(cands)
  {
    best := Best(None, 0.0);
    var i := 0;
    while i < |cands|
      invariant 0 <= i <= |cands|
      invariant best == BestOf(cands[..i])
    {
      var c := cands[i];
      assert cands[..i + 1][..i] == cands[..i];
      if c.comparison.isMatch && c.comparison.confidence > best.confidence {
        best := Best(c.key, c.comparison.confidence);
      }
      i := i + 1;
    }
    assert cands[..i] == cands;
  }

  /** The fuzzy e-mail step's candidates: every distinct stored address. */
  function EmailCandidates(email: string, emails: seq<string>, ratio: Ratio): (r: seq<Candidate>)
    ensures |r| == |emails|
    ensures forall i :: 0 <= i < |emails| ==>
      r[i] == Candidate(Some(emails[i]), EmailFuzzyMatch(Some(email), Some(emails[i]), ratio, EmailThreshold))
  {
    seq(|emails|, i requires 0 <= i < |emails| =>
      Candidate(Some(emails[i]), EmailFuzzyMatch(Some(email), Some(emails[i]), ratio, EmailThreshold)))
  }

  /** The candidates of one row: one per name column that is filled in. */
  function CandidatePair(key: Cell, first: Option<Comparison>, second: Option<Comparison>): (r: seq<Candidate>)
    ensures forall c :: c in r ==>
      c.key == key && ((first.Some? && c.comparison == first.value) || (second.Some? && c.comparison == second.value))
  {
    var one := if first.Some? then [Candidate(key, first.value)] else [];
    var two := if second.Some? then [Candidate(key, second.value)] else [];
    assert forall c :: c in one + two ==> c in one || c in two;
    one + two
  }

  /** The fuzzy comparison of `name` with one name column, when that column is filled in. */
  function NameAgainst(name: string, cell: Cell, ratio: Ratio): (r: Option<Comparison>)
    ensures r.Some? ==> r.value == NameFuzzyMatch(Some(name), cell, ratio, NameThreshold)
  {
    if Given(cell) then Some(NameFuzzyMatch(Some(name), cell, ratio, NameThreshold)) else None
  }

  /** The fuzzy name step's candidates of one row: its billing name, then its
    * shipping name, each when given, keyed by the row's order number. */
  function RowCandidates(name: string, o: StoredOrder, ratio: Ratio): (r: seq<Candidate>)
    ensures forall c :: c in r ==> c.key == o.orderNumber
    ensures forall c :: c in r && c.comparison.isMatch ==> c.comparison.confidence >= NameThreshold
  {
    CandidatePair(o.orderNumber, NameAgainst(name, o.billingName, ratio), NameAgainst(name, o.shippingName, ratio))
  }

  /** The fuzzy name step's candidates, row by row in table order. */
  function NameCandidates(name: string, orders: seq<StoredOrder>, ratio: Ratio): (r: seq<Candidate>)
    ensures forall c :: c in r ==> exists i :: 0 <= i < |orders| && c.key == orders[i].orderNumber
    ensures forall c :: c in r && c.comparison.isMatch ==> c.comparison.confidence >= NameThreshold
    decreases |orders|
  {
    if orders == [] then []
    else
      var rest := NameCandidates(name, orders[1..], ratio);
      assert forall i :: 1 <= i < |orders| ==> orders[i] == orders[1..][i - 1];
      RowCandidates(name, orders[0], ratio) + rest
  }

  lemma RowCandidatesInRange(name: string, o: StoredOrder, ratio: Ratio)
    requires RatioInRange(ratio)
    ensures forall c :: c in RowCandidates(name, o, ratio) ==> c.comparison.confidence <= 1.0
  {
    NameComparisonInRange(Some(name), o.billingName, ratio, NameThreshold);
    NameComparisonInRange(Some(name), o.shippingName, ratio, NameThreshold);
    RowCandidatesBounded(name, o, ratio);
  }

  lemma RowCandidatesBounded(name: string, o: StoredOrder, ratio: Ratio)
    requires NameFuzzyMatch(Some(name), o.billingName, ratio, NameThreshold).confidence <= 1.0
    requires NameFuzzyMatch(Some(name), o.shippingName, ratio, NameThreshold).confidence <= 1.0
    ensures forall c :: c in RowCandidates(name, o, ratio) ==> c.comparison.confidence <= 1.0
  {
  }

  lemma {:induction false} NameCandidatesInRange(name: string, orders: seq<StoredOrder>, ratio: Ratio)
    requires RatioInRange(ratio)
    ensures forall c :: c in NameCandidates(name, orders, ratio) ==> c.comparison.confidence <= 1.0
    decreases |orders|
  {
    if orders != [] {
      RowCandidatesInRange(name, orders[0], ratio);
      NameCandidatesInRange(name, orders[1..], ratio);
    }
  }

  lemma EmailCandidatesInRange(email: string, emails: seq<string>, ratio: Ratio)
    requires RatioInRange(ratio)
    ensures forall c :: c in EmailCandidates(email, emails, ratio) ==> c.comparison.confidence <= 1.0
  {
    forall i | 0 <= i < |emails|
      ensures EmailCandidates(email, emails, ratio)[i].comparison.confidence <= 1.0
    {
      EmailComparisonInRange(Some(email), Some(emails[i]), ratio, EmailThreshold);
    }
  }

  // ---------------------------------------------------------------------------
  // The matching waterfall
  // ---------------------------------------------------------------------------

  datatype MatchMethod = ExactEmail | FuzzyEmail | ExactName | FuzzyName | NoMatch | DirectImport

  /** The outcome of matching one participant. */
  datatype MatchResult = MatchResult(
    matched: bool, orderNumber: Cell, confidence: real, via: MatchMethod, order: Option<StoredOrder>)

  const Unmatched: MatchResult := MatchResult(false, None, 0.0, NoMatch, None)

  /** The fixed confidence of a name match, the floors of the two fuzzy steps
    * and the discount on a fuzzy name match. */
  const ExactNameConfidence: real := 0.7
  const FuzzyEmailFloor: real := 0.85
  const FuzzyNameFloor: real := 0.6
  const NameDiscount: real := 0.85

  function Found(o: StoredOrder, confidence: real, m: MatchMethod): (r: MatchResult)
    ensures r.matched && r.order == Some(o) && r.orderNumber == o.orderNumber
  {
    MatchResult(true, o.orderNumber, confidence, m, Some(o))
  }

  /** Step 1: the latest order with exactly the participant's address. */
  function ExactEmailStep(email: Option<string>, orders: seq<StoredOrder>): Option<StoredOrder>
  {
    if email.Some? then Latest(orders, EmailIs(email.value)) else None
  }

  /** Step 2's scan: the address most similar to the participant's. */
  function FuzzyEmailBest(email: Option<string>, orders: seq<StoredOrder>, ratio: Ratio): Best
  {
    if email.Some? then BestOf(EmailCandidates(email.value, DistinctEmails(orders), ratio)) else Best(None, 0.0)
  }

  /** Step 2: the latest order with the best similar address, when it clears the floor. */
  function FuzzyEmailStep(email: Option<string>, orders: seq<StoredOrder>, ratio: Ratio): Option<StoredOrder>
  {
    var b := FuzzyEmailBest(email, orders, ratio);
    if email.Some? && Given(b.key) && b.confidence >= FuzzyEmailFloor
    then Latest(orders, EmailIs(b.key.value)) else None
  }

  /** Step 3: the latest order whose billing or shipping name, lower-cased, is the normalised name. */
  function ExactNameStep(name: Option<string>, orders: seq<StoredOrder>): Option<StoredOrder>
  {
    if name.Some? then Latest(orders, NameIs(name.value)) else None
  }

  /** Step 4's scan: the order whose billing or shipping name is most similar. */
  function FuzzyNameBest(name: Option<string>, orders: seq<StoredOrder>, ratio: Ratio): Best
  {
    if name.Some? then BestOf(NameCandidates(name.value, orders, ratio)) else Best(None, 0.0)
  }

  /** Step 4: the first order carrying the best order number, when it clears the floor. */
  function FuzzyNameStep(name: Option<string>, orders: seq<StoredOrder>, ratio: Ratio): Option<StoredOrder>
  {
    var b := FuzzyNameBest(name, orders, ratio);
    if name.Some? && Given(b.key) && b.confidence >= FuzzyNameFloor
    then First(orders, NumberIs(b.key.value)) else None
  }

  /** The matching waterfall on the participant's normalised address and
    * name: the first step that finds an order decides the match, with
    * confidence 1.0, the best address similarity, 0.7 or the best name
    * similarity discounted by 0.85. */
  function Waterfall(email: Option<string>, name: Option<string>, orders: seq<StoredOrder>, ratio: Ratio): (m: MatchResult)
    ensures m.matched <==> m.order.Some?
    ensures !m.matched ==> m == Unmatched
    ensures m.matched ==> m.order.value in orders && m.orderNumber == m.order.value.orderNumber
    ensures m.matched ==> m.via in {ExactEmail, FuzzyEmail, ExactName, FuzzyName}
    ensures m.via == ExactEmail ==> m.confidence == 1.0 && m.order.value.email == email
    ensures m.via == FuzzyEmail ==> m.confidence >= EmailThreshold && m.order.value.email.Some?
    ensures m.via == ExactName ==> m.confidence == ExactNameConfidence && name.Some? && Keeps(NameIs(name.value), m.order.value)
    ensures m.via == FuzzyName ==> m.confidence >= NameThreshold * NameDiscount
  {
    var s1 := ExactEmailStep(email, orders);
    if s1.Some? then Found(s1.value, 1.0, ExactEmail)
    else
      var s2 := FuzzyEmailStep(email, orders, ratio);
      if s2.Some? then Found(s2.value, FuzzyEmailBest(email, orders, ratio).confidence, FuzzyEmail)
      else
        var s3 := ExactNameStep(name, orders);
        if s3.Some? then Found(s3.value, ExactNameConfidence, ExactName)
        else
          var s4 := FuzzyNameStep(name, orders, ratio);
          if s4.Some? then
            FuzzyNameBestClears(name.value, orders, ratio);
            Found(s4.value, FuzzyNameBest(name, orders, ratio).confidence * NameDiscount, FuzzyName)
          else Unmatched
  }

  /** The first step that finds an order wins, in the order exact e-mail,
    * fuzzy e-mail, exact name, fuzzy name. */
  lemma WaterfallPriority(email: Option<string>, name: Option<string>, orders: seq<StoredOrder>, ratio: Ratio)
    ensures var m := Waterfall(email, name, orders, ratio);
      && (m.via == ExactEmail <==> ExactEmailStep(email, orders).Some?)
      && (m.via == FuzzyEmail <==> ExactEmailStep(email, orders).None? && FuzzyEmailStep(email, orders, ratio).Some?)
      && (m.via == ExactName <==>
            ExactEmailStep(email, orders).None? && FuzzyEmailStep(email, orders, ratio).None?
            && ExactNameStep(name, orders).Some?)
      && (m.via == FuzzyName <==>
            ExactEmailStep(email, orders).None? && FuzzyEmailStep(email, orders, ratio).None?
            && ExactNameStep(name, orders).None? && FuzzyNameStep(name, orders, ratio).Some?)
  {
  }

  /** A participant whose address appears on some order is matched by exact e-mail. */
  lemma ExactEmailWins(email: string, name: Option<string>, orders: seq<StoredOrder>, ratio: Ratio, i: int)
    requires 0 <= i < |orders| && orders[i].email == Some(email)
    ensures Waterfall(Some(email), name, orders, ratio).via == ExactEmail
    ensures Waterfall(Some(email), name, orders, ratio).confidence == 1.0
  {
    assert Keeps(EmailIs(email), orders[i]);
  }

  lemma FuzzyEmailBestAtMostOne(email: string, orders: seq<StoredOrder>, ratio: Ratio)
    requires RatioInRange(ratio)
    ensures FuzzyEmailBest(Some(email), orders, ratio).confidence <= 1.0
  {
    var cands := EmailCandidates(email, DistinctEmails(orders), ratio);
    EmailCandidatesInRange(email, DistinctEmails(orders), ratio);
    assert forall i :: 0 <= i < |cands| ==> cands[i] in cands;
    BestOfAtMostOne(cands);
  }

  lemma FuzzyNameBestAtMostOne(name: string, orders: seq<StoredOrder>, ratio: Ratio)
    requires RatioInRange(ratio)
    ensures FuzzyNameBest(Some(name), orders, ratio).confidence <= 1.0
  {
    var cands := NameCandidates(name, orders, ratio);
    NameCandidatesInRange(name, orders, ratio);
    assert forall i :: 0 <= i < |cands| ==> cands[i] in cands;
    BestOfAtMostOne(cands);
  }

  /** Under a measure within [0, 1] every confidence lies in [0, 1], and a
    * fuzzy name match never exceeds the discount. */
  lemma WaterfallConfidenceInRange(email: Option<string>, name: Option<string>, orders: seq<StoredOrder>, ratio: Ratio)
    requires RatioInRange(ratio)
    ensures var m := Waterfall(email, name, orders, ratio);
      && 0.0 <= m.confidence <= 1.0
      && (m.via == FuzzyEmail ==> EmailThreshold <= m.confidence <= 1.0)
      && (m.via == FuzzyName ==> NameThreshold * NameDiscount <= m.confidence <= NameDiscount)
  {
    WaterfallCases(email, name, orders, ratio);
    if email.Some? {
      FuzzyEmailBestAtMostOne(email.value, orders, ratio);
    }
    if name.Some? {
      FuzzyNameBestAtMostOne(name.value, orders, ratio);
    }
    assert 0.0 <= FuzzyEmailBest(email, orders, ratio).confidence <= 1.0;
    assert 0.0 <= FuzzyNameBest(name, orders, ratio).confidence <= 1.0;
  }

  /** A fuzzy name scan that ends on a key ends on a name match, so at or above the name threshold. */
  lemma FuzzyNameBestClears(name: string, orders: seq<StoredOrder>, ratio: Ratio)
    requires Given(FuzzyNameBest(Some(name), orders, ratio).key)
    ensures FuzzyNameBest(Some(name), orders, ratio).confidence >= NameThreshold
  {
    var cands := NameCandidates(name, orders, ratio);
    var b := BestOf(cands);
    var i :| IsWinner(cands, i, b);
    assert cands[i] in cands;
  }

  /** Whenever the fuzzy name scan ends on an order number, that order is
    * found: the 0.6 floor never rejects, since a name match already clears 0.75. */
  lemma FuzzyNameFloorNeverRejects(name: string, orders: seq<StoredOrder>, ratio: Ratio)
    requires Given(FuzzyNameBest(Some(name), orders, ratio).key)
    ensures FuzzyNameStep(Some(name), orders, ratio).Some?
  {
    var cands := NameCandidates(name, orders, ratio);
    var b := BestOf(cands);
    assert b.confidence > 0.0;
    var i :| IsWinner(cands, i, b);
    assert cands[i] in cands;
    var k :| 0 <= k < |orders| && cands[i].key == orders[k].orderNumber;
    assert Keeps(NumberIs(b.key.value), orders[k]);
  }

  /** The waterfall's outcome, step by step. */
  lemma WaterfallCases(email: Option<string>, name: Option<string>, orders: seq<StoredOrder>, ratio: Ratio)
    ensures var m := Waterfall(email, name, orders, ratio);
      var s1 := ExactEmailStep(email, orders);
      var s2 := FuzzyEmailStep(email, orders, ratio);
      var s3 := ExactNameStep(name, orders);
      var s4 := FuzzyNameStep(name, orders, ratio);
      && (s1.Some? ==> m == Found(s1.value, 1.0, ExactEmail))
      && (s1.None? && s2.Some? ==> m == Found(s2.value, FuzzyEmailBest(email, orders, ratio).confidence, FuzzyEmail))
      && (s1.None? && s2.None? && s3.Some? ==> m == Found(s3.value, ExactNameConfidence, ExactName))
      && (s1.None? && s2.None? && s3.None? && s4.Some? ==>
            m == Found(s4.value, FuzzyNameBest(name, orders, ratio).confidence * NameDiscount, FuzzyName))
      && (s1.None? && s2.None? && s3.None? && s4.None? ==> m == Unmatched)
  {
  }

  /** A participant's match: the waterfall on the normalised address and name. */
  function Match(zoomEmail: Cell, zoomName: Cell, orders: seq<StoredOrder>, ratio: Ratio): MatchResult
  {
    Waterfall(LogisticsParsers.NormalizeEmail(zoomEmail), NormalizeName(zoomName), orders, ratio)
  }

  /** The matcher: the waterfall with its two best-so-far loops. */
  method FindMatchingOrder(zoomEmail: Cell, zoomName: Cell, orders: seq<StoredOrder>, ratio: Ratio)
    returns (m: MatchResult)
    ensures m == Match(zoomEmail, zoomName, orders, ratio)
  {
    var email := LogisticsParsers.NormalizeEmail(zoomEmail);
    var name := NormalizeName(zoomName);
    WaterfallCases(email, name, orders, ratio);
    var row := ExactEmailStep(email, orders);
    if row.Some? {
      return Found(row.value, 1.0, ExactEmail);
    }
    var best := Best(None, 0.0);
    if email.Some? {
      best := ScanBest(EmailCandidates(email.value, DistinctEmails(orders), ratio));
      if Given(best.key) && best.confidence >= FuzzyEmailFloor {
        row := Latest(orders, EmailIs(best.key.value));
      }
    }
    assert best == FuzzyEmailBest(email, orders, ratio) && row == FuzzyEmailStep(email, orders, ratio);
    if row.Some? {
      return Found(row.value, best.confidence, FuzzyEmail);
    }
    row := ExactNameStep(name, orders);
    if row.Some? {
      return Found(row.value, ExactNameConfidence, ExactName);
    }
    best := Best(None, 0.0);
    if name.Some? {
      best := ScanBest(NameCandidates(name.value, orders, ratio));
      if Given(best.key) && best.confidence >= FuzzyNameFloor {
        row := First(orders, NumberIs(best.key.value));
      }
    }
    assert best == FuzzyNameBest(name, orders, ratio) && row == FuzzyNameStep(name, orders, ratio);
    if row.Some? {
      return Found(row.value, best.confidence * NameDiscount, FuzzyName);
    }
    return Unmatched;
  }
}
