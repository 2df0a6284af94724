/** String helpers on `seq<char>`: whitespace trimming, ASCII case mapping,
  * substring tests, digit filtering and joining. */
module Text {

  /** The ASCII characters Python counts as whitespace: space, tab, line feed,
    * vertical tab, form feed, carriage return and the four separators 0x1C-0x1F. */
  predicate IsSpace(c: char)
  {
    c == ' ' || ('\t' <= c <= '\r') || ('\U{1C}' <= c <= '\U{1F}')
  }

  predicate IsDigit(c: char)
  {
    '0' <= c <= '9'
  }

  predicate IsLowerLetter(c: char)
  {
    'a' <= c <= 'z'
  }

  /** Drop leading whitespace. */
  function TrimStart(s: string): (r: string)
    ensures |r| <= |s| && r == s[|s| - |r|..]
    ensures r == [] || !IsSpace(r[0])
    ensures forall i :: 0 <= i < |s| - |r| ==> IsSpace(s[i])
  {
    if s == [] || !IsSpace(s[0]) then s else TrimStart(s[1..])
  }

  /** Drop trailing whitespace. */
  function TrimEnd(s: string): (r: string)
    ensures |r| <= |s| && r == s[..|r|]
    ensures r == [] || !IsSpace(r[|r| - 1])
    ensures forall i :: |r| <= i < |s| ==> IsSpace(s[i])
  {
    if s == [] || !IsSpace(s[|s| - 1]) then s else TrimEnd(s[..|s| - 1])
  }

  /** Both ends trimmed. */
  function Strip(s: string): (r: string)
    ensures |r| <= |s|
    ensures r == [] || (!IsSpace(r[0]) && !IsSpace(r[|r| - 1]))
  {
    TrimEnd(TrimStart(s))
  }

  lemma TrimStartNoop(s: string)
    requires s == [] || !IsSpace(s[0])
    ensures TrimStart(s) == s
  {
  }

  lemma TrimEndNoop(s: string)
    requires s == [] || !IsSpace(s[|s| - 1])
    ensures TrimEnd(s) == s
  {
  }

  /** A string without whitespace at either end is its own strip. */
  lemma StripNoop(s: string)
    requires s == [] || (!IsSpace(s[0]) && !IsSpace(s[|s| - 1]))
    ensures Strip(s) == s
  {
    TrimStartNoop(s);
    TrimEndNoop(s);
  }

  /** A string strips to nothing exactly when it is all whitespace. */
  lemma StripEmptyIffBlank(s: string)
    ensures Strip(s) == [] <==> forall i :: 0 <= i < |s| ==> IsSpace(s[i])
  {
    var t := TrimStart(s);
    assert Strip(s) == TrimEnd(t);
  }

  lemma StripIdempotent(s: string)
    ensures Strip(Strip(s)) == Strip(s)
  {
    var t := Strip(s);
    assert t == [] || (!IsSpace(t[0]) && !IsSpace(t[|t| - 1]));
    StripNoop(t);
  }

  function LowerChar(c: char): (r: char)
    ensures 'A' <= c <= 'Z' ==> IsLowerLetter(r)
    ensures !('A' <= c <= 'Z') ==> r == c
    ensures IsSpace(r) <==> IsSpace(c)
  {
    if 'A' <= c <= 'Z' then (c as int - 'A' as int + 'a' as int) as char else c
  }

  function UpperChar(c: char): (r: char)
    ensures 'a' <= c <= 'z' ==> 'A' <= r <= 'Z'
    ensures !('a' <= c <= 'z') ==> r == c
  {
    if 'a' <= c <= 'z' then (c as int - 'a' as int + 'A' as int) as char else c
  }

  /** ASCII lower-casing, character by character. */
  function Lower(s: string): (r: string)
    ensures |r| == |s| && forall i :: 0 <= i < |s| ==> r[i] == LowerChar(s[i])
  {
    seq(|s|, i requires 0 <= i < |s| => LowerChar(s[i]))
  }

  /** ASCII upper-casing, character by character. */
  function Upper(s: string): (r: string)
    ensures |r| == |s| && forall i :: 0 <= i < |s| ==> r[i] == UpperChar(s[i])
  {
    seq(|s|, i requires 0 <= i < |s| => UpperChar(s[i]))
  }

  lemma LowerIdempotent(s: string)
    ensures Lower(Lower(s)) == Lower(s)
  {
    assert forall i :: 0 <= i < |s| ==> LowerChar(LowerChar(s[i])) == LowerChar(s[i]);
  }

  /** Lower-casing keeps whitespace where it was, so it commutes with trimming. */
  lemma {:induction false} LowerTrimStart(s: string)
    ensures Lower(TrimStart(s)) == TrimStart(Lower(s))
    decreases |s|
  {
    var low := Lower(s);
    if s != [] && IsSpace(s[0]) {
      assert low[1..] == Lower(s[1..]);
      assert IsSpace(low[0]);
      assert TrimStart(low) == TrimStart(low[1..]);
      assert TrimStart(s) == TrimStart(s[1..]);
      LowerTrimStart(s[1..]);
    } else {
      assert TrimStart(s) == s;
      assert low == [] || !IsSpace(low[0]);
      TrimStartNoop(low);
    }
  }

  lemma {:induction false} LowerTrimEnd(s: string)
    ensures Lower(TrimEnd(s)) == TrimEnd(Lower(s))
    decreases |s|
  {
    var low := Lower(s);
    if s != [] && IsSpace(s[|s| - 1]) {
      assert low[..|s| - 1] == Lower(s[..|s| - 1]);
      assert IsSpace(low[|s| - 1]);
      assert TrimEnd(low) == TrimEnd(low[..|s| - 1]);
      assert TrimEnd(s) == TrimEnd(s[..|s| - 1]);
      LowerTrimEnd(s[..|s| - 1]);
    } else {
      assert TrimEnd(s) == s;
      assert low == [] || !IsSpace(low[|low| - 1]);
      TrimEndNoop(low);
    }
  }

  lemma LowerStrip(s: string)
    ensures Lower(Strip(s)) == Strip(Lower(s))
  {
    LowerTrimEnd(TrimStart(s));
    LowerTrimStart(s);
  }

  /** `sub` occurs in `s` starting at position `i`. */
  predicate OccursAt(s: string, sub: string, i: int)
  {
    0 <= i <= |s| - |sub| && s[i..i + |sub|] == sub
  }

  /** `sub` occurs somewhere in `s`. */
  predicate Contains(s: string, sub: string)
  {
    exists i :: 0 <= i <= |s| - |sub| && OccursAt(s, sub, i)
  }

  predicate StartsWith(s: string, prefix: string)
  {
    |prefix| <= |s| && s[..|prefix|] == prefix
  }

  /** The digits of `s`, in order. */
  function Digits(s: string): (r: string)
    ensures |r| <= |s|
    ensures forall i :: 0 <= i < |r| ==> IsDigit(r[i])
  {
    if s == [] then []
    else if IsDigit(s[0]) then [s[0]] + Digits(s[1..])
    else Digits(s[1..])
  }

  /** A single character keeps itself exactly when it is a digit. */
  lemma DigitsOfChar(c: char)
    ensures Digits([c]) == if IsDigit(c) then [c] else []
  {
    assert [c][1..] == [];
  }

  /** The digit filter works piecewise: nothing is dropped, reordered or
    * invented across a concatenation. */
  lemma {:induction false} DigitsConcat(a: string, b: string)
    ensures Digits(a + b) == Digits(a) + Digits(b)
    decreases |a|
  {
    if a == [] {
      assert a + b == b;
    } else {
      assert (a + b)[0] == a[0];
      assert (a + b)[1..] == a[1..] + b;
      DigitsConcat(a[1..], b);
      if IsDigit(a[0]) {
        assert Digits(a + b) == [a[0]] + (Digits(a[1..]) + Digits(b));
        assert Digits(a) == [a[0]] + Digits(a[1..]);
      } else {
        assert Digits(a + b) == Digits(a[1..]) + Digits(b);
        assert Digits(a) == Digits(a[1..]);
      }
    }
  }

  /** Whitespace holds no digits. */
  lemma {:induction false} DigitsOfBlank(s: string)
    requires forall i :: 0 <= i < |s| ==> IsSpace(s[i])
    ensures Digits(s) == []
    decreases |s|
  {
    if s != [] {
      assert IsSpace(s[0]);
      DigitsOfBlank(s[1..]);
    }
  }

  /** Stripping never drops a digit: the digits of the stripped text are the
    * digits of the text. */
  lemma DigitsOfStrip(s: string)
    ensures Digits(Strip(s)) == Digits(s)
  {
    DigitsOfTrimStart(s);
    DigitsOfTrimEnd(TrimStart(s));
  }

  lemma DigitsOfTrimStart(s: string)
    ensures Digits(TrimStart(s)) == Digits(s)
  {
    var t := TrimStart(s);
    var pre := s[..|s| - |t|];
    assert s == pre + t;
    assert forall i :: 0 <= i < |pre| ==> IsSpace(pre[i]);
    DigitsOfBlank(pre);
    DigitsConcat(pre, t);
  }

  lemma DigitsOfTrimEnd(s: string)
    ensures Digits(TrimEnd(s)) == Digits(s)
  {
    var r := TrimEnd(s);
    var suf := s[|r|..];
    assert s == r + suf;
    assert forall i :: 0 <= i < |suf| ==> IsSpace(suf[i]);
    DigitsOfBlank(suf);
    DigitsConcat(r, suf);
  }

  /** A string of digits is its own digit filter. */
  lemma {:induction false} DigitsOfDigits(s: string)
    requires forall i :: 0 <= i < |s| ==> IsDigit(s[i])
    ensures Digits(s) == s
    decreases |s|
  {
    if s != [] {
      DigitsOfDigits(s[1..]);
    }
  }

  /** The parts separated by `sep`. */
  function Join(parts: seq<string>, sep: string): (r: string)
    ensures parts == [] ==> r == []
    ensures |parts| == 1 ==> r == parts[0]
    ensures parts != [] ==> |r| >= |parts[0]|
  {
    if parts == [] then []
    else if |parts| == 1 then parts[0]
    else parts[0] + sep + Join(parts[1..], sep)
  }

  /** Joining one more part appends the separator and that part. */
  lemma {:induction false} JoinSnoc(parts: seq<string>, p: string, sep: string)
    requires parts != []
    ensures Join(parts + [p], sep) == Join(parts, sep) + sep + p
    decreases |parts|
  {
    if |parts| == 1 {
      assert (parts + [p])[1..] == [p];
    } else {
      assert (parts + [p])[1..] == parts[1..] + [p];
      JoinSnoc(parts[1..], p, sep);
    }
  }

  /** The parts that are not empty, in their order: every non-empty part is
    * kept as often as it occurs, and nothing else. */
  function NonEmpty(parts: seq<string>): (r: seq<string>)
    ensures |r| <= |parts|
    ensures forall i :: 0 <= i < |r| ==> r[i] != []
    ensures multiset(r) == multiset(parts)[[] := 0]
  {
    if parts == [] then []
    else
      var rest := NonEmpty(parts[1..]);
      assert parts == [parts[0]] + parts[1..];
      if parts[0] == [] then rest
      else [parts[0]] + rest
  }

  lemma ConcatAssoc<T>(x: seq<T>, y: seq<T>, z: seq<T>)
    ensures (x + y) + z == x + (y + z)
  {
  }

  /** Dropping the empty parts of two lists one after the other keeps their order. */
  lemma {:induction false} NonEmptyConcat(a: seq<string>, b: seq<string>)
    ensures NonEmpty(a + b) == NonEmpty(a) + NonEmpty(b)
    decreases |a|
  {
    if a != [] {
      assert (a + b)[0] == a[0];
      assert (a + b)[1..] == a[1..] + b;
      NonEmptyConcat(a[1..], b);
      var head := if a[0] == [] then [] else [a[0]];
      assert NonEmpty(a + b) == head + NonEmpty(a[1..] + b);
      assert NonEmpty(a) == head + NonEmpty(a[1..]);
      ConcatAssoc(head, NonEmpty(a[1..]), NonEmpty(b));
    } else {
      assert a + b == b;
    }
  }

  /** Joining the non-empty parts after one more part: an empty one changes
    * nothing, the first non-empty one is the whole text, any later one is
    * appended after the separator. */
  lemma NonEmptyJoinSnoc(parts: seq<string>, p: string, sep: string)
    ensures Join(NonEmpty(parts + [p]), sep) ==
      if p == [] then Join(NonEmpty(parts), sep)
      else if NonEmpty(parts) == [] then p
      else Join(NonEmpty(parts), sep) + sep + p
  {
    NonEmptyConcat(parts, [p]);
    assert [p][1..] == [];
    if p != [] && NonEmpty(parts) != [] {
      assert NonEmpty([p]) == [p] + NonEmpty([p][1..]) == [p];
      assert NonEmpty(parts + [p]) == NonEmpty(parts) + [p];
      JoinSnoc(NonEmpty(parts), p, sep);
    } else if p == [] {
      assert NonEmpty(parts) + [] == NonEmpty(parts);
    }
  }
}
