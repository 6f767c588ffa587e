/**
 * The .NET text conversions the commands rely on when they persist their fields:
 * `int.ToString()`, `int.Parse`, `bool.ToString()`, `bool.Parse` and `string.Trim()`,
 * together with the white-space class shared by `Char.IsWhiteSpace` and the regular
 * expression escape `\s`.
 */
module Text {
  import opened Wrappers

  /** `Char.IsWhiteSpace`: U+0009..U+000D, U+0085 and the Unicode separator categories
      (space, line and paragraph separators). The .NET regex class `\s` is the same set. */
  predicate IsWhiteSpace(c: char) {
    var n := c as int;
    (9 <= n <= 13) || n == 32 || n == 0x85 || n == 0xA0 || n == 0x1680
    || (0x2000 <= n <= 0x200A) || n == 0x2028 || n == 0x2029 || n == 0x202F
    || n == 0x205F || n == 0x3000
  }

  predicate IsDigit(c: char) {
    '0' <= c <= '9'
  }

  predicate AllDigits(s: string) {
    forall i :: 0 <= i < |s| ==> IsDigit(s[i])
  }

  const Int32Min: int := -0x8000_0000
  const Int32Max: int := 0x7FFF_FFFF

  /** The range of a C# `int`. */
  predicate IsInt32(i: int) {
    Int32Min <= i <= Int32Max
  }

  /** A C# `int` field. */
  type Int32 = i: int | Int32Min <= i <= Int32Max

  function DigitChar(d: nat): (c: char)
    requires d < 10
    ensures IsDigit(c)
  {
    (48 + d) as char
  }

  function DigitValue(c: char): (d: nat)
    requires IsDigit(c)
    ensures d < 10 && DigitChar(d) == c
  {
    c as int - 48
  }

  /** The decimal digits of `n`, most significant first, with no leading zero. */
  function NatToString(n: nat): (s: string)
    ensures |s| >= 1 && AllDigits(s)
    ensures s[0] == '0' ==> n == 0
    decreases n
  {
    if n < 10 then [DigitChar(n)] else NatToString(n / 10) + [DigitChar(n % 10)]
  }

  /** The value of a string of decimal digits. */
  function DigitsValue(s: string): nat
    requires AllDigits(s)
    decreases |s|
  {
    if s == [] then 0 else DigitsValue(s[..|s| - 1]) * 10 + DigitValue(s[|s| - 1])
  }

  lemma {:induction false} DigitsValueOfNatToString(n: nat)
    ensures DigitsValue(NatToString(n)) == n
    decreases n
  {
    if n >= 10 {
      DigitsValueOfNatToString(n / 10);
      var s := NatToString(n);
      assert s[..|s| - 1] == NatToString(n / 10);
    }
  }

  lemma NatToStringInjective(a: nat, b: nat)
    requires NatToString(a) == NatToString(b)
    ensures a == b
  {
    DigitsValueOfNatToString(a);
    DigitsValueOfNatToString(b);
  }

  /** `int.ToString()` under the invariant culture: an optional '-' and the digits. */
  function IntToString(i: int): (s: string)
    ensures |s| >= 1 && !IsWhiteSpace(s[0]) && !IsWhiteSpace(s[|s| - 1])
    ensures (s[0] == '-') == (i < 0)
    ensures s[0] != '-' ==> IsDigit(s[0])
    ensures IsDigit(s[|s| - 1])
  {
    if i < 0 then "-" + NatToString(-i) else NatToString(i)
  }

  /** Distinct integers have distinct decimal texts. */
  lemma IntToStringInjective(a: int, b: int)
    requires IntToString(a) == IntToString(b)
    ensures a == b
  {
    var s := IntToString(a);
    if a < 0 {
      assert b < 0;
      assert NatToString(-a) == s[1..] == NatToString(-b);
      NatToStringInjective(-a, -b);
    } else {
      NatToStringInjective(a, b);
    }
  }

  /** If a run of digits followed by a tail that does not start with a digit equals another
      such concatenation, the two splits coincide. */
  lemma DigitRunSplit(d1: string, r1: string, d2: string, r2: string)
    requires AllDigits(d1) && AllDigits(d2)
    requires r1 == [] || !IsDigit(r1[0])
    requires r2 == [] || !IsDigit(r2[0])
    requires d1 + r1 == d2 + r2
    ensures d1 == d2 && r1 == r2
  {
    var s := d1 + r1;
    DigitRunEnd(d1, r1);
    DigitRunEnd(d2, r2);
    assert |d1| == |d2|;
    assert d1 == s[..|d1|] == d2;
    assert r1 == s[|d1|..] == r2;
  }

  /** In a digit run followed by a tail that does not start with a digit, the run's length
      is the position of the first non-digit. */
  lemma DigitRunEnd(d: string, r: string)
    requires AllDigits(d)
    requires r == [] || !IsDigit(r[0])
    ensures forall k :: 0 <= k < |d| ==> IsDigit((d + r)[k])
    ensures |d| < |d + r| ==> !IsDigit((d + r)[|d|])
  {
  }

  /** The decimal text of an integer, followed by a tail that does not start with a digit,
      determines both the integer and the tail. Keys and labels built as `text + separator`
      rely on this. */
  lemma IntPrefixSplit(i1: int, r1: string, i2: int, r2: string)
    requires r1 == [] || !IsDigit(r1[0])
    requires r2 == [] || !IsDigit(r2[0])
    requires IntToString(i1) + r1 == IntToString(i2) + r2
    ensures i1 == i2 && r1 == r2
  {
    var t1, t2 := IntToString(i1), IntToString(i2);
    assert (i1 < 0) == (i2 < 0) by {
      assert (t1 + r1)[0] == t1[0] && (t2 + r2)[0] == t2[0];
    }
    if i1 < 0 {
      var n1, n2 := NatToString(-i1), NatToString(-i2);
      assert n1 + r1 == n2 + r2 by {
        assert t1 + r1 == "-" + (n1 + r1) && t2 + r2 == "-" + (n2 + r2);
        assert n1 + r1 == (t1 + r1)[1..] == (t2 + r2)[1..] == n2 + r2;
      }
      DigitRunSplit(n1, r1, n2, r2);
      NatToStringInjective(-i1, -i2);
    } else {
      DigitRunSplit(t1, r1, t2, r2);
      NatToStringInjective(i1, i2);
    }
  }

  /** A key of the form `prefix + a + separator + b`, with a separator that does not start
      with a digit, determines both integers. */
  lemma IntPairKeyInjective(p: string, sep: string, a1: int, b1: int, a2: int, b2: int)
    requires |sep| > 0 && !IsDigit(sep[0])
    requires p + IntToString(a1) + sep + IntToString(b1) == p + IntToString(a2) + sep + IntToString(b2)
    ensures a1 == a2 && b1 == b2
  {
    var t1, u1, t2, u2 := IntToString(a1), IntToString(b1), IntToString(a2), IntToString(b2);
    assert p + t1 + sep + u1 == p + (t1 + (sep + u1));
    assert p + t2 + sep + u2 == p + (t2 + (sep + u2));
    PrefixCancel(p, t1 + (sep + u1), t2 + (sep + u2));
    IntPrefixSplit(a1, sep + u1, a2, sep + u2);
    PrefixCancel(sep, u1, u2);
    IntToStringInjective(b1, b2);
  }

  lemma PrefixCancel(p: string, a: string, b: string)
    requires p + a == p + b
    ensures a == b
  {
    assert a == (p + a)[|p|..];
    assert b == (p + b)[|p|..];
  }

  /** `TrimEnd()`: drops the longest white-space suffix. */
  function TrimEnd(s: string): (r: string)
    ensures |r| <= |s| && r == s[..|r|]
    ensures r == [] || !IsWhiteSpace(r[|r| - 1])
    ensures forall i :: |r| <= i < |s| ==> IsWhiteSpace(s[i])
    decreases |s|
  {
    if s != [] && IsWhiteSpace(s[|s| - 1]) then TrimEnd(s[..|s| - 1]) else s
  }

  /** `TrimEnd` of a text that ends in a run of white space after a non-white-space
      character (or nothing) gives back exactly the text before the run. */
  lemma TrimEndDropsWhiteRun(base: string, ws: string)
    requires base == [] || !IsWhiteSpace(base[|base| - 1])
    requires forall i :: 0 <= i < |ws| ==> IsWhiteSpace(ws[i])
    ensures TrimEnd(base + ws) == base
  {
    var s := base + ws;
    assert forall i :: |base| <= i < |s| ==> IsWhiteSpace(s[i]);
    assert base == [] || !IsWhiteSpace(s[|base| - 1]);
    var r := TrimEnd(s);
    assert forall i :: 0 <= i < |r| ==> r[i] == s[i];
    assert |r| == |base|;
    assert r == s[..|base|] == base;
  }

  /** `TrimStart()`: drops the longest white-space prefix. */
  function TrimStart(s: string): (r: string)
    ensures |r| <= |s| && r == s[|s| - |r|..]
    ensures r == [] || !IsWhiteSpace(r[0])
    ensures forall i :: 0 <= i < |s| - |r| ==> IsWhiteSpace(s[i])
    decreases |s|
  {
    if s != [] && IsWhiteSpace(s[0]) then TrimStart(s[1..]) else s
  }

  /** `string.Trim()`. */
  function Trim(s: string): string {
    TrimStart(TrimEnd(s))
  }

  /** `s.Trim().Length == 0`, the test the commands use for "no persisted details". */
  predicate IsBlank(s: string) {
    |Trim(s)| == 0
  }

  /** A string is blank exactly when every one of its characters is white space. */
  lemma BlankIffAllWhiteSpace(s: string)
    ensures IsBlank(s) <==> forall i :: 0 <= i < |s| ==> IsWhiteSpace(s[i])
  {
  }

  /** A string that neither starts nor ends with white space is its own trim. */
  lemma TrimUnchanged(s: string)
    requires |s| >= 1 && !IsWhiteSpace(s[0]) && !IsWhiteSpace(s[|s| - 1])
    ensures Trim(s) == s
  {
  }

  /** The white space `int.Parse` allows around a number: U+0009..U+000D and U+0020, a
      narrower set than `Char.IsWhiteSpace`. */
  predicate IsNumberWhiteSpace(c: char) {
    (9 <= c as int <= 13) || c == ' '
  }

  /** Drops the number white space at both ends; `TrimNumberDropsOnlyWhiteSpace` states
      that nothing else goes. */
  function TrimNumber(s: string): (r: string)
    ensures |r| <= |s|
    ensures r == [] || (!IsNumberWhiteSpace(r[0]) && !IsNumberWhiteSpace(r[|r| - 1]))
    ensures |s| >= 1 && !IsNumberWhiteSpace(s[0]) && !IsNumberWhiteSpace(s[|s| - 1]) ==> r == s
    decreases |s|
  {
    if s != [] && IsNumberWhiteSpace(s[0]) then TrimNumber(s[1..])
    else if s != [] && IsNumberWhiteSpace(s[|s| - 1]) then TrimNumber(s[..|s| - 1])
    else s
  }

  /** What `TrimNumber` removes is number white space before and after the result, which
      is a contiguous part of the input. */
  lemma TrimNumberDropsOnlyWhiteSpace(s: string)
    ensures var r := TrimNumber(s);
            exists a :: 0 <= a <= |s| - |r| && r == s[a..][..|r|]
                     && (forall i :: 0 <= i < a ==> IsNumberWhiteSpace(s[i]))
                     && (forall i :: a + |r| <= i < |s| ==> IsNumberWhiteSpace(s[i]))
  {
    var a := TrimNumberStart(s);
  }

  /** Where the result of `TrimNumber` starts in its input. */
  lemma {:induction false} TrimNumberStart(s: string) returns (a: nat)
    ensures var r := TrimNumber(s);
            a + |r| <= |s| && r == s[a..][..|r|]
            && (forall i :: 0 <= i < a ==> IsNumberWhiteSpace(s[i]))
            && (forall i :: a + |r| <= i < |s| ==> IsNumberWhiteSpace(s[i]))
    decreases |s|
  {
    var r := TrimNumber(s);
    if s != [] && IsNumberWhiteSpace(s[0]) {
      var t := s[1..];
      var b := TrimNumberStart(t);
      assert r == TrimNumber(t);
      a := b + 1;
      assert s[a..] == t[b..];
      forall i | 1 <= i < a ensures IsNumberWhiteSpace(s[i]) { assert s[i] == t[i - 1]; }
      forall i | a + |r| <= i < |s| ensures IsNumberWhiteSpace(s[i]) { assert s[i] == t[i - 1]; }
    } else if s != [] && IsNumberWhiteSpace(s[|s| - 1]) {
      var t := s[..|s| - 1];
      a := TrimNumberStart(t);
      assert r == TrimNumber(t);
      assert s[a..][..|r|] == t[a..][..|r|];
    } else {
      a := 0;
      assert s[0..][..|r|] == s;
    }
  }

  /** `int.Parse(s)` with the default number style: surrounding number white space, an
      optional leading sign, one or more decimal digits. A text of another form throws a
      `FormatException`; a well-formed text whose value lies outside the `int` range throws
      an `OverflowException`. */
  function ParseInt(s: string): (r: Result<int, Fault>)
    ensures r.Ok? ==> IsInt32(r.value)
    ensures r.Err? ==> r.error == Format || r.error == Overflow
  {
    var t := TrimNumber(s);
    var negative := |t| > 0 && t[0] == '-';
    var digits := if |t| > 0 && (t[0] == '-' || t[0] == '+') then t[1..] else t;
    if |digits| == 0 || !AllDigits(digits) then Err(Format)
    else
      var v: int := if negative then 0 - DigitsValue(digits) else DigitsValue(digits);
      if IsInt32(v) then Ok(v) else Err(Overflow)
  }

  /** Parsing the decimal text of any integer gives it back when it fits an `int`, and
      overflows otherwise. */
  lemma ParseIntOfIntToString(i: int)
    ensures ParseInt(IntToString(i)) == if IsInt32(i) then Ok(i) else Err(Overflow)
  {
    var s := IntToString(i);
    assert TrimNumber(s) == s;
    if i < 0 {
      var digits := NatToString(-i);
      assert s[1..] == digits;
      DigitsValueOfNatToString(-i);
      assert 0 - DigitsValue(digits) == i;
    } else {
      assert s[0] != '-' && s[0] != '+';
      DigitsValueOfNatToString(i);
    }
  }

  /** White space outside the number set, such as U+00A0, is not skipped: a number preceded
      by it is a format error, although `Trim` would remove it. */
  lemma ParseIntRejectsOtherWhiteSpace(c: char, i: int)
    requires IsWhiteSpace(c) && !IsNumberWhiteSpace(c)
    ensures ParseInt([c] + IntToString(i)) == Err(Format)
    ensures Trim([c] + IntToString(i)) == IntToString(i)
  {
  }

  /** `bool.ToString()`. */
  function BoolToString(b: bool): string {
    if b then "True" else "False"
  }

  function ToLowerAscii(c: char): char {
    if 'A' <= c <= 'Z' then (c as int + 32) as char else c
  }

  predicate EqualsIgnoreCase(a: string, b: string) {
    |a| == |b| && forall i :: 0 <= i < |a| ==> ToLowerAscii(a[i]) == ToLowerAscii(b[i])
  }

  /** `bool.Parse(s)`: "true" or "false" in any letter case, surrounded by optional white
      space; any other text throws, which the model reports as `None`. */
  function ParseBool(s: string): Option<bool> {
    var t := Trim(s);
    if EqualsIgnoreCase(t, "true") then Some(true)
    else if EqualsIgnoreCase(t, "false") then Some(false)
    else None
  }

  /** Parsing the text of a `bool` gives that `bool` back. */
  lemma ParseBoolOfBoolToString(b: bool)
    ensures ParseBool(BoolToString(b)) == Some(b)
  {
    TrimUnchanged(BoolToString(b));
    if !b {
      assert ToLowerAscii(BoolToString(b)[0]) != 't';
    }
  }
}
