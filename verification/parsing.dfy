/** The text handling the skill filter relies on: Python's `str.split(',')`,
    Python's `int()` on a string (base 10), and the database's case-insensitive
    substring match (`icontains`). Only ASCII letters, digits and whitespace
    are given their special meaning. */
module Parsing {
  import opened Optional

  // ---------------------------------------------------------------- split

  /** `sep.join(parts)`. */
  function Join(parts: seq<string>, sep: char): string
    requires |parts| >= 1
  {
    if |parts| == 1 then parts[0] else parts[0] + [sep] + Join(parts[1..], sep)
  }

  /** The first position of `c` in `s`, if any. */
  function IndexOf(s: string, c: char): (r: Option<nat>)
    ensures r.None? <==> c !in s
    ensures r.Some? ==> r.value < |s| && s[r.value] == c && c !in s[..r.value]
  {
    if s == [] then None
    else if s[0] == c then Some(0)
    else
      match IndexOf(s[1..], c)
      case None => None
      case Some(i) =>
        assert s[..i + 1] == [s[0]] + s[1..][..i];
        Some(i + 1)
  }

  /** Number of occurrences of `c` in `s`. */
  function Count(s: string, c: char): nat {
    if s == [] then 0 else (if s[0] == c then 1 else 0) + Count(s[1..], c)
  }

  lemma {:induction false} CountSplit(a: string, b: string, c: char)
    ensures Count(a + b, c) == Count(a, c) + Count(b, c)
  {
    if a == [] {
      assert a + b == b;
    } else {
      assert (a + b)[0] == a[0];
      assert (a + b)[1..] == a[1..] + b;
      CountSplit(a[1..], b, c);
    }
  }

  lemma {:induction false} CountAbsent(s: string, c: char)
    requires c !in s
    ensures Count(s, c) == 0
  {
    if s != [] {
      CountAbsent(s[1..], c);
    }
  }

  /** `s.split(sep)` with an explicit separator: the pieces between
      separators, so one more piece than there are separators; the empty
      string gives one empty piece. */
  function Split(s: string, sep: char): (parts: seq<string>)
    ensures |parts| == Count(s, sep) + 1
    ensures Join(parts, sep) == s
    ensures forall i :: 0 <= i < |parts| ==> sep !in parts[i]
    decreases |s|
  {
    match IndexOf(s, sep)
    case None =>
      CountAbsent(s, sep);
      [s]
    case Some(i) =>
      var rest := Split(s[i + 1..], sep);
      SplitStep(s, sep, i, rest);
      [s[..i]] + rest
  }

  /** Cutting at the first separator: the piece before it, then the pieces
      of the remainder. */
  lemma SplitStep(s: string, sep: char, i: nat, rest: seq<string>)
    requires i < |s| && s[i] == sep && sep !in s[..i]
    requires |rest| == Count(s[i + 1..], sep) + 1 && Join(rest, sep) == s[i + 1..]
    requires forall j :: 0 <= j < |rest| ==> sep !in rest[j]
    ensures |[s[..i]] + rest| == Count(s, sep) + 1
    ensures Join([s[..i]] + rest, sep) == s
    ensures forall j :: 0 <= j < |[s[..i]] + rest| ==> sep !in ([s[..i]] + rest)[j]
  {
    var parts := [s[..i]] + rest;
    assert s == s[..i] + ([sep] + s[i + 1..]);
    CountSplit(s[..i], [sep] + s[i + 1..], sep);
    CountSplit([sep], s[i + 1..], sep);
    CountAbsent(s[..i], sep);
    assert parts[1..] == rest;
    assert Join(parts, sep) == s[..i] + [sep] + Join(rest, sep);
  }

  // ---------------------------------------------------------------- int()

  predicate IsSpace(c: char) {
    c == ' ' || c == '\t' || c == '\n' || c == '\r' || c == '\U{b}' || c == '\U{c}'
    || c == '\U{1c}' || c == '\U{1d}' || c == '\U{1e}' || c == '\U{1f}'
  }

  predicate IsDigit(c: char) { '0' <= c <= '9' }

  function DigitValue(c: char): nat
    requires IsDigit(c)
  {
    c as int - '0' as int
  }

  function DigitChar(d: nat): (c: char)
    requires d < 10
    ensures IsDigit(c) && DigitValue(c) == d
  {
    ('0' as int + d) as char
  }

  /** `s.strip()` for the whitespace `int()` ignores. */
  function Strip(s: string): (t: string)
    ensures |t| <= |s|
    ensures t != [] ==> !IsSpace(t[0]) && !IsSpace(t[|t| - 1])
    decreases |s|
  {
    if s != [] && IsSpace(s[0]) then Strip(s[1..])
    else if s != [] && IsSpace(s[|s| - 1]) then Strip(s[..|s| - 1])
    else s
  }

  /** The digit run `int()` accepts: digits, with single underscores allowed
      between two digits. */
  predicate DigitRun(s: string)
    decreases |s|
  {
    && |s| > 0
    && IsDigit(s[0])
    && (|s| == 1 || DigitRun(s[1..]) || (|s| > 2 && s[1] == '_' && DigitRun(s[2..])))
  }

  lemma {:induction false} DigitRunChars(s: string)
    requires DigitRun(s)
    ensures forall i :: 0 <= i < |s| ==> IsDigit(s[i]) || s[i] == '_'
    decreases |s|
  {
    if |s| > 1 {
      if DigitRun(s[1..]) {
        DigitRunChars(s[1..]);
        forall i | 1 <= i < |s| ensures IsDigit(s[i]) || s[i] == '_' {
          assert s[i] == s[1..][i - 1];
        }
      } else {
        DigitRunChars(s[2..]);
        forall i | 2 <= i < |s| ensures IsDigit(s[i]) || s[i] == '_' {
          assert s[i] == s[2..][i - 2];
        }
      }
    }
  }

  /** Plain digits are a digit run. */
  lemma {:induction false} DigitsAreRun(s: string)
    requires |s| > 0 && forall i :: 0 <= i < |s| ==> IsDigit(s[i])
    ensures DigitRun(s)
    decreases |s|
  {
    if |s| > 1 {
      assert forall i :: 0 <= i < |s[1..]| ==> IsDigit(s[1..][i]);
      DigitsAreRun(s[1..]);
    }
  }

  function Digits(s: string): (ds: string)
    ensures forall i :: 0 <= i < |ds| ==> ds[i] != '_'
    ensures (forall i :: 0 <= i < |s| ==> IsDigit(s[i]) || s[i] == '_') ==>
              forall i :: 0 <= i < |ds| ==> IsDigit(ds[i])
  {
    if s == [] then [] else (if s[0] == '_' then [] else [s[0]]) + Digits(s[1..])
  }

  /** The value of a string of decimal digits, most significant first. */
  function Value(ds: string): nat
    requires forall i :: 0 <= i < |ds| ==> IsDigit(ds[i])
  {
    if ds == [] then 0 else Value(ds[..|ds| - 1]) * 10 + DigitValue(ds[|ds| - 1])
  }

  /** Python's `int(s)`: `None` where Python raises `ValueError`. */
  function ParseInt(s: string): Option<int> {
    ParseStripped(Strip(s))
  }

  /** `int()` succeeds only on text holding a digit. */
  lemma ParseIntNeedsDigit(s: string)
    ensures ParseInt(s).Some? ==> exists i :: 0 <= i < |s| && IsDigit(s[i])
  {
    var t := Strip(s);
    if ParseStripped(t).Some? {
      if IsDigit(t[0]) {
        StripDigit(s, t[0]);
      } else {
        StripDigit(s, t[1]);
      }
    }
  }

  /** `int()` once the surrounding whitespace is gone: an optional sign,
      then a digit run. */
  function ParseStripped(t: string): (r: Option<int>)
    ensures r.Some? ==> |t| > 0 && (IsDigit(t[0]) || (|t| > 1 && IsDigit(t[1])))
  {
    if t != [] && (t[0] == '-' || t[0] == '+') then
      match Unsigned(t[1..])
      case None => None
      case Some(v) => Some(if t[0] == '-' then 0 - v else v)
    else Unsigned(t)
  }

  /** A digit run without a sign, and its value. */
  function Unsigned(t: string): (r: Option<nat>)
    ensures r.Some? ==> DigitRun(t)
  {
    if DigitRun(t) then DigitRunChars(t); Some(Value(Digits(t))) else None
  }

  lemma {:induction false} StripDigit(s: string, c: char)
    requires IsDigit(c) && c in Strip(s)
    ensures exists i :: 0 <= i < |s| && IsDigit(s[i])
    decreases |s|
  {
    if s != [] && IsSpace(s[0]) {
      StripDigit(s[1..], c);
      var i :| 0 <= i < |s[1..]| && IsDigit(s[1..][i]);
      assert s[i + 1] == s[1..][i];
    } else if s != [] && IsSpace(s[|s| - 1]) {
      StripDigit(s[..|s| - 1], c);
      var i :| 0 <= i < |s[..|s| - 1]| && IsDigit(s[..|s| - 1][i]);
      assert s[i] == s[..|s| - 1][i];
    } else {
      var i :| 0 <= i < |s| && s[i] == c;
    }
  }

  /** The decimal text of a natural number, as Python's `str()` writes it. */
  function ShowNat(n: nat): (s: string)
    ensures |s| > 0
    ensures forall i :: 0 <= i < |s| ==> IsDigit(s[i])
  {
    if n < 10 then [DigitChar(n)] else ShowNat(n / 10) + [DigitChar(n % 10)]
  }

  function Show(n: int): string {
    if n < 0 then "-" + ShowNat(-n) else ShowNat(n)
  }

  lemma {:induction false} ValueShowNat(n: nat)
    ensures Value(ShowNat(n)) == n
  {
    if n >= 10 {
      var s := ShowNat(n);
      assert s[..|s| - 1] == ShowNat(n / 10);
      ValueShowNat(n / 10);
    }
  }

  lemma {:induction false} DigitsOfDigits(s: string)
    requires forall i :: 0 <= i < |s| ==> IsDigit(s[i])
    ensures Digits(s) == s
  {
    if s != [] {
      DigitsOfDigits(s[1..]);
    }
  }

  lemma ParseDigits(ds: string)
    requires |ds| > 0 && forall i :: 0 <= i < |ds| ==> IsDigit(ds[i])
    ensures ParseInt(ds) == Some(Value(ds))
  {
    UnsignedDigits(ds);
    assert IsDigit(ds[0]) && IsDigit(ds[|ds| - 1]);
    PlainUnsigned(ds, Value(ds));
    ParseUnpadded(ds, Some(Value(ds)));
  }

  lemma ParseNegDigits(ds: string)
    requires |ds| > 0 && forall i :: 0 <= i < |ds| ==> IsDigit(ds[i])
    ensures ParseInt("-" + ds) == Some(0 - Value(ds))
  {
    NegText(ds);
    ParseNegText("-" + ds, ds);
  }

  /** The text of a minus sign followed by digits. */
  lemma NegText(ds: string)
    requires |ds| > 0 && forall i :: 0 <= i < |ds| ==> IsDigit(ds[i])
    ensures var m := "-" + ds;
      |m| > 1 && m[0] == '-' && m[1..] == ds && !IsSpace(m[0]) && !IsSpace(m[|m| - 1])
  {
    var m := "-" + ds;
    assert m[1..] == ds;
    assert m[|m| - 1] == ds[|ds| - 1];
  }

  lemma ParseNegText(m: string, ds: string)
    requires |ds| > 0 && forall i :: 0 <= i < |ds| ==> IsDigit(ds[i])
    requires |m| > 1 && m[0] == '-' && m[1..] == ds && !IsSpace(m[0]) && !IsSpace(m[|m| - 1])
    ensures ParseInt(m) == Some(0 - Value(ds))
  {
    UnsignedDigits(ds);
    assert Unsigned(m[1..]) == Some(Value(ds));
    NegatedUnsigned(m, Value(ds));
    ParseUnpadded(m, Some(0 - Value(ds)));
  }

  lemma UnsignedDigits(ds: string)
    requires |ds| > 0 && forall i :: 0 <= i < |ds| ==> IsDigit(ds[i])
    ensures Unsigned(ds) == Some(Value(ds))
  {
    DigitsOfDigits(ds);
    DigitsAreRun(ds);
  }

  lemma PlainUnsigned(t: string, v: nat)
    requires |t| > 0 && IsDigit(t[0]) && Unsigned(t) == Some(v)
    ensures ParseStripped(t) == Some(v)
  {
  }

  lemma NegatedUnsigned(m: string, v: nat)
    requires |m| > 1 && m[0] == '-' && Unsigned(m[1..]) == Some(v)
    ensures ParseStripped(m) == Some(0 - v)
  {
  }

  /** Text that starts and ends with no whitespace parses as it stands. */
  lemma ParseUnpadded(m: string, r: Option<int>)
    requires |m| > 0 && !IsSpace(m[0]) && !IsSpace(m[|m| - 1])
    requires ParseStripped(m) == r
    ensures ParseInt(m) == r
  {
  }

  /** Round trip: `int(str(n)) == n` for every integer. */
  lemma ParseShow(n: int)
    ensures ParseInt(Show(n)) == Some(n)
  {
    var m: nat := if n < 0 then -n else n;
    ValueShowNat(m);
    if n < 0 {
      ParseNegDigits(ShowNat(m));
    } else {
      ParseDigits(ShowNat(m));
    }
  }

  lemma {:induction false} StripPadded(s: string)
    requires |s| > 0 && !IsSpace(s[0]) && !IsSpace(s[|s| - 1])
    ensures Strip(" " + s + " ") == s
  {
    var p := " " + s + " ";
    assert p[1..] == s + " ";
    var q := s + " ";
    assert p[0] == ' ' && IsSpace(p[0]);
    assert Strip(p) == Strip(q);
    assert q[0] == s[0] && q[|q| - 1] == ' ';
    assert q[..|q| - 1] == s;
    assert Strip(q) == Strip(s);
  }

  /** Whitespace around the number is ignored. */
  lemma ParseShowPadded(n: int)
    ensures ParseInt(" " + Show(n) + " ") == Some(n)
  {
    var s := Show(n);
    assert s[|s| - 1] == ShowNat(if n < 0 then -n else n)[|ShowNat(if n < 0 then -n else n)| - 1];
    StripPadded(s);
    ParseShow(n);
  }

  // ---------------------------------------------------------------- icontains

  /** Case folding of ASCII letters. */
  function FoldChar(c: char): char {
    if 'A' <= c <= 'Z' then (c as int + 32) as char else c
  }

  function Fold(s: string): (r: string)
    ensures |r| == |s| && forall i :: 0 <= i < |s| ==> r[i] == FoldChar(s[i])
  {
    seq(|s|, i requires 0 <= i < |s| => FoldChar(s[i]))
  }

  /** `p` occurs in `t` starting at position `i`. */
  predicate At(p: string, t: string, i: nat) {
    i + |p| <= |t| && t[i..i + |p|] == p
  }

  /** Substring search: `p` occurs in `t` at some position. */
  function Occurs(p: string, t: string): (b: bool)
    ensures b <==> exists i: nat :: At(p, t, i)
    decreases |t|
  {
    if |p| > |t| then false
    else if t[..|p|] == p then
      assert At(p, t, 0);
      true
    else
      var b := Occurs(p, t[1..]);
      assert !At(p, t, 0);
      assert forall i: nat :: At(p, t[1..], i) <==> At(p, t, i + 1) by {
        forall i: nat ensures At(p, t[1..], i) <==> At(p, t, i + 1) {
          if i + |p| <= |t[1..]| {
            assert t[1..][i..i + |p|] == t[i + 1..i + 1 + |p|];
          }
        }
      }
      assert (exists i: nat :: At(p, t, i)) ==> exists i: nat :: At(p, t[1..], i) by {
        if exists i: nat :: At(p, t, i) {
          var i: nat :| At(p, t, i);
          assert i > 0 && At(p, t[1..], i - 1);
        }
      }
      b
  }

  /** `text ILIKE '%pat%'`. */
  predicate IContains(text: string, pat: string) {
    Occurs(Fold(pat), Fold(text))
  }

  /** A name always contains itself, whatever the case of either. */
  lemma IContainsCase(text: string, pat: string)
    requires Fold(text) == Fold(pat)
    ensures IContains(text, pat)
  {
    assert At(Fold(pat), Fold(text), 0);
  }
}
