/**
 * String operations of the two languages involved, as the hub uses them: Python's `str.split`,
 * `str.strip`, `str(int)`, `int(str)`, `float(str)` and `format(n, '03d')`, and JavaScript's
 * `String.prototype.split`, `includes` and `toLowerCase`.
 */
module Text {
  import opened Wrappers

  predicate IsDigit(c: char) { '0' <= c <= '9' }

  function DigitValue(c: char): (d: nat)
    requires IsDigit(c)
    ensures d < 10
  {
    c as int - '0' as int
  }

  function DigitChar(d: nat): (c: char)
    requires d < 10
    ensures IsDigit(c) && DigitValue(c) == d
  {
    ('0' as int + d) as char
  }

  predicate AllDigits(s: string) { forall i :: 0 <= i < |s| ==> IsDigit(s[i]) }

  /** The number a string of decimal digits denotes. */
  function DigitsValue(s: string): nat
    requires AllDigits(s)
  {
    if s == [] then 0 else DigitsValue(s[..|s| - 1]) * 10 + DigitValue(s[|s| - 1])
  }

  /** The decimal digits of `n`, without leading zeros (Python `str(n)` for `n >= 0`). */
  function NatToDigits(n: nat): (r: string)
    ensures |r| >= 1 && AllDigits(r)
  {
    if n < 10 then [DigitChar(n)] else NatToDigits(n / 10) + [DigitChar(n % 10)]
  }

  lemma {:induction false} NatToDigitsValue(n: nat)
    ensures DigitsValue(NatToDigits(n)) == n
  {
    var r := NatToDigits(n);
    if n >= 10 {
      NatToDigitsValue(n / 10);
      assert r[..|r| - 1] == NatToDigits(n / 10);
    }
  }

  /** A leading digit that is not zero, unless the number is zero. */
  lemma {:induction false} NatToDigitsNoLeadingZero(n: nat)
    ensures NatToDigits(n)[0] == '0' <==> n == 0
  {
    if n >= 10 {
      NatToDigitsNoLeadingZero(n / 10);
    }
  }

  /** Python `str(n)` for any integer. */
  function IntToString(n: int): (r: string)
    ensures |r| >= 1
  {
    if n < 0 then "-" + NatToDigits(-n) else NatToDigits(n)
  }

  /** Left-pads with '0' up to `width` characters. */
  function ZeroPad(s: string, width: nat): (r: string)
    ensures |r| == if |s| >= width then |s| else width
    ensures AllDigits(s) ==> AllDigits(r)
    decreases width - |s|
  {
    if |s| >= width then s else ZeroPad("0" + s, width)
  }

  lemma {:induction false} DigitsValueZeroPrefix(s: string)
    requires AllDigits(s)
    ensures AllDigits("0" + s) && DigitsValue("0" + s) == DigitsValue(s)
  {
    assert AllDigits("0" + s);
    if s != [] {
      DigitsValueZeroPrefix(s[..|s| - 1]);
      assert ("0" + s)[..|"0" + s| - 1] == "0" + s[..|s| - 1];
    }
  }

  lemma {:induction false} ZeroPadValue(s: string, width: nat)
    requires AllDigits(s)
    ensures DigitsValue(ZeroPad(s, width)) == DigitsValue(s)
    decreases width - |s|
  {
    if |s| < width {
      DigitsValueZeroPrefix(s);
      ZeroPadValue("0" + s, width);
    }
  }

  /** Python `format(n, '03d')`: sign-aware zero padding to three characters. */
  function Format03(n: int): (r: string)
    ensures |r| >= 3
  {
    if n < 0 then "-" + ZeroPad(NatToDigits(-n), 2) else ZeroPad(NatToDigits(n), 3)
  }

  // ----- whitespace -----

  /** Python's `str.isspace` for one character. */
  predicate IsPySpace(c: char)
  {
    c == ' ' || ('\t' <= c <= '\r') || ('\U{1c}' <= c <= '\U{1f}') || c == '\U{85}' || c == '\U{a0}'
    || c == '\U{1680}' || ('\U{2000}' <= c <= '\U{200a}') || c == '\U{2028}' || c == '\U{2029}'
    || c == '\U{202f}' || c == '\U{205f}' || c == '\U{3000}'
  }

  function StripLeft(s: string): (r: string)
    ensures |r| <= |s| && r == s[|s| - |r|..]
    ensures r == [] || !IsPySpace(r[0])
  {
    if s != [] && IsPySpace(s[0]) then StripLeft(s[1..]) else s
  }

  function StripRight(s: string): (r: string)
    ensures |r| <= |s| && r == s[..|r|]
    ensures r == [] || !IsPySpace(r[|r| - 1])
  {
    if s != [] && IsPySpace(s[|s| - 1]) then StripRight(s[..|s| - 1]) else s
  }

  /** Python `str.strip()` with no argument. */
  function Strip(s: string): (r: string)
    ensures |r| <= |s|
    ensures r == [] || (!IsPySpace(r[0]) && !IsPySpace(r[|r| - 1]))
  {
    StripRight(StripLeft(s))
  }

  lemma {:induction false} StripNoSpace(s: string)
    requires s == [] || (!IsPySpace(s[0]) && !IsPySpace(s[|s| - 1]))
    ensures Strip(s) == s
  {
  }

  // ----- case -----

  function LowerChar(c: char): char { if 'A' <= c <= 'Z' then (c as int + 32) as char else c }
  function UpperChar(c: char): char { if 'a' <= c <= 'z' then (c as int - 32) as char else c }

  /** `toLowerCase` / `lower()` on the ASCII letters. */
  function ToLower(s: string): (r: string)
    ensures |r| == |s| && forall i :: 0 <= i < |s| ==> r[i] == LowerChar(s[i])
  {
    if s == [] then [] else [LowerChar(s[0])] + ToLower(s[1..])
  }

  /** `upper()` on the ASCII letters. */
  function ToUpper(s: string): (r: string)
    ensures |r| == |s| && forall i :: 0 <= i < |s| ==> r[i] == UpperChar(s[i])
  {
    if s == [] then [] else [UpperChar(s[0])] + ToUpper(s[1..])
  }

  // ----- substrings -----

  /** `s.includes(t)` / Python `t in s`. */
  predicate Contains(s: string, t: string)
    decreases |s|
  {
    if |t| > |s| then false else s[..|t|] == t || (|s| > 0 && Contains(s[1..], t))
  }

  /** `t` occurs in `s` starting at index `i`. */
  predicate OccursAt(s: string, t: string, i: int)
  {
    0 <= i && i + |t| <= |s| && s[i..i + |t|] == t
  }

  lemma {:induction false} ContainsAt(s: string, t: string)
    ensures Contains(s, t) <==> exists i :: OccursAt(s, t, i)
    decreases |s|
  {
    if |t| <= |s| && |s| > 0 {
      ContainsAt(s[1..], t);
      if Contains(s[1..], t) {
        var i :| OccursAt(s[1..], t, i);
        assert s[1..][i..i + |t|] == s[i + 1..i + 1 + |t|];
        assert OccursAt(s, t, i + 1);
      }
      if s[..|t|] == t {
        assert OccursAt(s, t, 0);
      }
      if exists i :: OccursAt(s, t, i) {
        var i :| OccursAt(s, t, i);
        if i > 0 {
          assert s[1..][i - 1..i - 1 + |t|] == s[i..i + |t|];
          assert OccursAt(s[1..], t, i - 1);
        }
      }
    } else if |t| <= |s| {
      assert OccursAt(s, t, 0);
    }
  }

  // ----- splitting -----

  /** Python `s.split(c)` and JavaScript `s.split(c)` for a one-character separator. */
  function Split(s: string, c: char): (r: seq<string>)
    ensures |r| >= 1
  {
    if s == [] then [""]
    else if s[0] == c then [""] + Split(s[1..], c)
    else var t := Split(s[1..], c); [[s[0]] + t[0]] + t[1..]
  }

  /** The inverse of `Split`: `c.join(parts)`. */
  function Join(parts: seq<string>, c: char): string
    requires |parts| >= 1
  {
    if |parts| == 1 then parts[0] else parts[0] + [c] + Join(parts[1..], c)
  }

  lemma {:induction false} SplitNoSeparator(s: string, c: char)
    requires c !in s
    ensures Split(s, c) == [s]
  {
    if s != [] {
      SplitNoSeparator(s[1..], c);
      assert [s[0]] + s[1..] == s;
    }
  }

  lemma {:induction false} SplitPrefix(a: string, b: string, c: char)
    requires c !in a
    ensures Split(a + [c] + b, c) == [a] + Split(b, c)
  {
    if a == [] {
      assert a + [c] + b == [c] + b;
      assert ([c] + b)[1..] == b;
    } else {
      assert (a + [c] + b)[0] == a[0];
      assert (a + [c] + b)[1..] == a[1..] + [c] + b;
      SplitPrefix(a[1..], b, c);
      assert [a[0]] + a[1..] == a;
    }
  }

  /** Splitting a join of separator-free parts gives the parts back. */
  lemma {:induction false} SplitJoin(parts: seq<string>, c: char)
    requires |parts| >= 1
    requires forall i :: 0 <= i < |parts| ==> c !in parts[i]
    ensures Split(Join(parts, c), c) == parts
  {
    if |parts| == 1 {
      SplitNoSeparator(parts[0], c);
    } else {
      SplitJoin(parts[1..], c);
      SplitPrefix(parts[0], Join(parts[1..], c), c);
      assert parts == [parts[0]] + parts[1..];
    }
  }

  /** The first piece of a split is the text before the first separator. */
  lemma {:induction false} SplitFirst(s: string, c: char)
    ensures var f := Split(s, c)[0];
      && c !in f && |f| <= |s| && s[..|f|] == f && (|f| == |s| || s[|f|] == c)
  {
    if s != [] && s[0] != c {
      SplitFirst(s[1..], c);
    }
  }

  // ----- Python int() and float() on strings -----

  /** Digits with single underscores between them, as Python's numeric literals allow. */
  predicate DigitGroups(s: string)
  {
    |s| > 0 && IsDigit(s[0]) && IsDigit(s[|s| - 1])
    && (forall i :: 0 <= i < |s| ==> IsDigit(s[i]) || s[i] == '_')
    && (forall i, j :: 0 <= i < |s| && 0 <= j < |s| && j == i + 1 ==> !(s[i] == '_' && s[j] == '_'))
  }

  function DropUnderscores(s: string): (r: string)
    ensures (forall i :: 0 <= i < |s| ==> IsDigit(s[i]) || s[i] == '_') ==> AllDigits(r)
  {
    if s == [] then [] else (if s[0] == '_' then [] else [s[0]]) + DropUnderscores(s[1..])
  }

  function GroupsValue(s: string): nat
    requires DigitGroups(s)
  {
    DigitsValue(DropUnderscores(s))
  }

  /** Python `int(s)` for a string: `None` where Python raises `ValueError`. */
  function ParseInt(s: string): (r: Option<int>)
  {
    ParseSignedGroups(Strip(s))
  }

  /** An optional sign followed by digit groups. */
  function ParseSignedGroups(t: string): (r: Option<int>)
  {
    if |t| > 0 && (t[0] == '-' || t[0] == '+') then
      (if DigitGroups(t[1..]) then
         var v: int := GroupsValue(t[1..]);
         Some(if t[0] == '-' then -v else v)
       else None)
    else if DigitGroups(t) then Some(GroupsValue(t))
    else None
  }

  lemma {:induction false} DropUnderscoresDigits(s: string)
    requires AllDigits(s)
    ensures DropUnderscores(s) == s
  {
    if s != [] {
      DropUnderscoresDigits(s[1..]);
      assert [s[0]] + s[1..] == s;
    }
  }

  lemma {:induction false} NatToDigitsGroups(n: nat)
    ensures DigitGroups(NatToDigits(n)) && GroupsValue(NatToDigits(n)) == n
  {
    DropUnderscoresDigits(NatToDigits(n));
    NatToDigitsValue(n);
  }

  /** `int(str(n)) == n`. */
  lemma {:induction false} ParseIntToString(n: int)
    ensures ParseInt(IntToString(n)) == Some(n)
  {
    var r := IntToString(n);
    var d := NatToDigits(if n < 0 then -n else n);
    NatToDigitsGroups(if n < 0 then -n else n);
    StripNoSpace(r);
    if n < 0 {
      assert r[1..] == d;
    }
  }

  lemma {:induction false} AllDigitsGroups(d: string)
    requires |d| > 0 && AllDigits(d)
    ensures DigitGroups(d) && GroupsValue(d) == DigitsValue(d)
  {
    DropUnderscoresDigits(d);
  }

  lemma {:induction false} StripDigits(d: string)
    requires |d| > 0 && AllDigits(d)
    ensures Strip(d) == d
  {
    assert !IsPySpace(d[0]) && !IsPySpace(d[|d| - 1]);
    StripNoSpace(d);
  }

  lemma {:induction false} StripSigned(d: string)
    requires |d| > 0 && AllDigits(d)
    ensures Strip("-" + d) == "-" + d
  {
    var t := "-" + d;
    assert t[|t| - 1] == d[|d| - 1];
    assert !IsPySpace(t[0]) && !IsPySpace(t[|t| - 1]);
    StripNoSpace(t);
  }

  /** A string of digits is read by `int()` as its digit value. */
  lemma {:induction false} ParseIntDigits(d: string)
    requires |d| > 0 && AllDigits(d)
    ensures ParseInt(d) == Some(DigitsValue(d))
  {
    StripDigits(d);
    AllDigitsGroups(d);
    UnsignedGroupsOf(d);
  }

  lemma {:induction false} UnsignedGroupsOf(t: string)
    requires DigitGroups(t)
    ensures ParseSignedGroups(t) == Some(GroupsValue(t) as int)
  {
    assert IsDigit(t[0]);
  }

  lemma {:induction false} SignedGroupsOf(d: string)
    requires DigitGroups(d)
    ensures ParseSignedGroups("-" + d) == Some(-(GroupsValue(d) as int))
  {
    var t := "-" + d;
    assert t[1..] == d;
  }

  lemma {:induction false} SignedGroupsNeg(d: string)
    requires |d| > 0 && AllDigits(d)
    ensures ParseSignedGroups("-" + d) == Some(-(DigitsValue(d) as int))
  {
    AllDigitsGroups(d);
    SignedGroupsOf(d);
  }

  /** A minus sign followed by digits is read by `int()` as the negated digit value. */
  lemma {:induction false} ParseIntNegDigits(d: string)
    requires |d| > 0 && AllDigits(d)
    ensures ParseInt("-" + d) == Some(-(DigitsValue(d) as int))
  {
    StripSigned(d);
    SignedGroupsNeg(d);
  }

  /** `int(format(n, '03d')) == n`: a zero-padded job number reads back as the same number. */
  lemma {:induction false} ParseIntFormat03(n: int)
    ensures ParseInt(Format03(n)) == Some(n)
  {
    if n < 0 {
      var m: nat := -n;
      var d := ZeroPad(NatToDigits(m), 2);
      ZeroPadValue(NatToDigits(m), 2);
      NatToDigitsValue(m);
      assert DigitsValue(d) == m;
      assert Format03(n) == "-" + d;
      ParseIntNegDigits(d);
    } else {
      var d := ZeroPad(NatToDigits(n), 3);
      ZeroPadValue(NatToDigits(n), 3);
      NatToDigitsValue(n);
      assert DigitsValue(d) == n;
      assert Format03(n) == d;
      ParseIntDigits(d);
    }
  }

  /** The value of `10` to the power `e`. */
  function Pow10(e: nat): (r: nat)
    ensures r >= 1
  {
    if e == 0 then 1 else 10 * Pow10(e - 1)
  }

  /** Digits after a decimal point: "25" denotes 25/100. */
  function FractionValue(s: string): real
    requires DigitGroups(s)
  {
    GroupsValue(s) as real / Pow10(|DropUnderscores(s)|) as real
  }

  /** An unsigned decimal: digits, optionally a point and more digits (one side may be empty). */
  function ParseUnsignedDecimal(t: string): Option<real>
  {
    var parts := Split(t, '.');
    if |parts| == 1 then
      (if DigitGroups(t) then Some(GroupsValue(t) as real) else None)
    else if |parts| == 2 then
      var whole, frac := parts[0], parts[1];
      if whole == [] && frac == [] then None
      else if (whole == [] || DigitGroups(whole)) && (frac == [] || DigitGroups(frac)) then
        Some((if whole == [] then 0.0 else GroupsValue(whole) as real)
             + (if frac == [] then 0.0 else FractionValue(frac)))
      else None
    else None
  }

  /** Python `float(s)` for a string in plain decimal notation: `None` where Python raises. */
  function ParseFloat(s: string): (r: Option<real>)
  {
    var t := Strip(s);
    if |t| > 0 && (t[0] == '-' || t[0] == '+') then
      match ParseUnsignedDecimal(t[1..])
      case Some(v) => Some(if t[0] == '-' then -v else v)
      case None => None
    else ParseUnsignedDecimal(t)
  }

  /** Python `s.replace(d, "")` for a one-character `d`. */
  function RemoveChar(s: string, drop: char): (r: string)
    ensures drop !in r
    ensures forall c :: c in r ==> c in s
  {
    if s == [] then [] else (if s[0] == drop then [] else [s[0]]) + RemoveChar(s[1..], drop)
  }
}
