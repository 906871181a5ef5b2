/** Python 2's `int(token)` and `str(n)` on decimal integers. */
module Integers {
  import opened Results

  /** The characters C's `isspace` accepts: space, tab, newline, vertical tab,
      form feed and carriage return. */
  predicate IsSpace(c: char) {
    c == ' ' || 9 <= c as int <= 13
  }

  predicate IsDigit(c: char) {
    '0' <= c <= '9'
  }

  predicate AllDigits(s: string) {
    forall i :: 0 <= i < |s| ==> IsDigit(s[i])
  }

  /** `s` without its leading whitespace: a suffix of `s`, everything dropped was
      whitespace, and what is left does not start with whitespace. */
  function StripLeft(s: string): (r: string)
    ensures |r| <= |s| && r == s[|s| - |r|..]
    ensures forall k :: 0 <= k < |s| - |r| ==> IsSpace(s[k])
    ensures |r| > 0 ==> !IsSpace(r[0])
  {
    if |s| > 0 && IsSpace(s[0]) then StripLeft(s[1..]) else s
  }

  /** `s` without its trailing whitespace: a prefix of `s`, everything dropped was
      whitespace, and what is left does not end with whitespace. */
  function StripRight(s: string): (r: string)
    ensures |r| <= |s| && r == s[..|r|]
    ensures forall k :: |r| <= k < |s| ==> IsSpace(s[k])
    ensures |r| > 0 ==> !IsSpace(r[|r| - 1])
  {
    if |s| > 0 && IsSpace(s[|s| - 1]) then StripRight(s[..|s| - 1]) else s
  }

  /** Where `s.strip()` begins inside `s`. */
  function StripOffset(s: string): nat {
    |s| - |StripLeft(s)|
  }

  /** `s.strip()`: a slice of `s` with only whitespace around it and none at its ends. */
  function Strip(s: string): (r: string)
    ensures StripOffset(s) + |r| <= |s| && r == s[StripOffset(s)..StripOffset(s) + |r|]
    ensures forall k :: 0 <= k < StripOffset(s) ==> IsSpace(s[k])
    ensures forall k :: StripOffset(s) + |r| <= k < |s| ==> IsSpace(s[k])
    ensures |r| > 0 ==> !IsSpace(r[0]) && !IsSpace(r[|r| - 1])
  {
    var left := StripLeft(s);
    var r := StripRight(left);
    PrefixOfSuffix(s, left, r);
    r
  }

  /** A prefix `r` of a suffix `left` of `s` is the slice of `s` after the part
      `left` dropped, and what follows it in `s` is what follows it in `left`. */
  lemma PrefixOfSuffix(s: string, left: string, r: string)
    requires |left| <= |s| && left == s[|s| - |left|..]
    requires |r| <= |left| && r == left[..|r|]
    ensures r == s[|s| - |left|..|s| - |left| + |r|]
    ensures forall k :: |s| - |left| + |r| <= k < |s| ==> s[k] == left[k - (|s| - |left|)]
    ensures |r| > 0 ==> r[0] == left[0]
  {
  }

  /** The value of a string of decimal digits, most significant digit first. */
  function DigitsValue(s: string): nat
    requires AllDigits(s)
  {
    if s == [] then 0
    else DigitsValue(s[..|s| - 1]) * 10 + (s[|s| - 1] as int - '0' as int)
  }

  /** A non-empty run of decimal digits, as `int` reads it. */
  function ParseDigits(d: string): Option<nat> {
    if |d| > 0 && AllDigits(d) then Some(DigitsValue(d)) else None
  }

  /** An optional sign followed by at least one decimal digit, and nothing else. */
  function ParseLiteral(t: string): (r: Option<int>)
    ensures r.Some? ==> forall k :: 0 <= k < |t| ==> IsDigit(t[k]) || (k == 0 && (t[k] == '+' || t[k] == '-'))
    ensures r.Some? ==> exists k :: 0 <= k < |t| && IsDigit(t[k])
  {
    var signed := |t| > 0 && (t[0] == '-' || t[0] == '+');
    var digits := if signed then t[1..] else t;
    match ParseDigits(digits)
    case None => None
    case Some(v) =>
      assert digits[0] == t[if signed then 1 else 0];
      var magnitude: int := v;
      if signed && t[0] == '-' then Some(-magnitude) else Some(magnitude)
  }

  /** `int(s)`: surrounding whitespace is ignored, then an optional sign and at least
      one decimal digit; anything else is a `ValueError`, modelled as `None`.
      Whatever it accepts is made of whitespace, signs and digits only, with at least
      one digit, so in particular it never holds a ':'. */
  function ParseInt(s: string): (r: Option<int>)
    ensures r.Some? ==> forall k :: 0 <= k < |s| ==> IsSpace(s[k]) || IsDigit(s[k]) || s[k] == '+' || s[k] == '-'
    ensures r.Some? ==> exists k :: 0 <= k < |s| && IsDigit(s[k])
  {
    var t := Strip(s);
    var r := ParseLiteral(t);
    assert r.Some? ==> forall k :: StripOffset(s) <= k < StripOffset(s) + |t| ==> s[k] == t[k - StripOffset(s)];
    r
  }

  /** `int()` rejects every token holding a colon. */
  lemma ColonNotInteger(s: string)
    ensures ':' in s ==> ParseInt(s).None?
  {
    if ':' in s {
      var k :| 0 <= k < |s| && s[k] == ':';
      assert !IsSpace(s[k]) && !IsDigit(s[k]);
    }
  }

  function DigitChar(d: nat): (c: char)
    requires d < 10
    ensures IsDigit(c) && c as int - '0' as int == d
  {
    ('0' as int + d) as char
  }

  /** `str(n)` for n >= 0: non-empty, digits only, reads back as n, and has no
      leading zero unless n is zero. */
  function NatToString(n: nat): (s: string)
    ensures |s| > 0 && AllDigits(s)
    ensures DigitsValue(s) == n
    ensures s[0] == '0' ==> n == 0
  {
    if n < 10 then [DigitChar(n)]
    else
      var s := NatToString(n / 10) + [DigitChar(n % 10)];
      assert s[..|s| - 1] == NatToString(n / 10);
      s
  }

  /** `str(n)`: a '-' for negative numbers, then the digits of the magnitude. */
  function IntToString(n: int): (s: string)
    ensures |s| > 0
    ensures forall k :: 0 <= k < |s| ==> IsDigit(s[k]) || (k == 0 && s[k] == '-')
    ensures s[0] == '-' <==> n < 0
    ensures n >= 0 ==> AllDigits(s) && DigitsValue(s) == n && (s[0] == '0' ==> n == 0)
    ensures n < 0 ==> |s| > 1 && AllDigits(s[1..]) && DigitsValue(s[1..]) == -n && s[1] != '0'
  {
    if n < 0 then
      var d := NatToString(-n);
      assert ("-" + d)[1..] == d;
      "-" + d
    else NatToString(n)
  }

  /** `int(str(n)) == n` for every integer `n`. */
  lemma ParseIntRoundTrip(n: int)
    ensures ParseInt(IntToString(n)) == Some(n)
  {
    var s := IntToString(n);
    var d := if n < 0 then s[1..] else s;
    assert IsDigit(s[|s| - 1]);
    StripCanonical(s);
    assert ParseInt(s) == ParseLiteral(s);
    assert ParseDigits(d) == Some(if n < 0 then -n else n);
    if n >= 0 {
      assert IsDigit(s[0]);
    }
  }

  /** A string with no whitespace at either end is its own `strip()`. */
  lemma StripCanonical(s: string)
    requires |s| > 0 && !IsSpace(s[0]) && !IsSpace(s[|s| - 1])
    ensures Strip(s) == s
  {
  }

  /** `int` ignores whitespace around the number: `int("  42\n") == 42`. */
  lemma ParseIntPadded(n: int, pre: string, post: string)
    requires forall k :: 0 <= k < |pre| ==> IsSpace(pre[k])
    requires forall k :: 0 <= k < |post| ==> IsSpace(post[k])
    ensures ParseInt(pre + IntToString(n) + post) == Some(n)
  {
    var s := IntToString(n);
    StripPadded(pre, s, post);
    ParseIntRoundTrip(n);
    StripCanonical(s);
  }

  lemma {:induction false} StripPadded(pre: string, s: string, post: string)
    requires |s| > 0 && !IsSpace(s[0]) && !IsSpace(s[|s| - 1])
    requires forall k :: 0 <= k < |pre| ==> IsSpace(pre[k])
    requires forall k :: 0 <= k < |post| ==> IsSpace(post[k])
    ensures Strip(pre + s + post) == s
  {
    assert pre + s + post == pre + (s + post);
    StripLeftPadded(pre, s + post);
    StripRightPadded(s, post);
  }

  lemma {:induction false} StripLeftPadded(pre: string, s: string)
    requires |s| > 0 && !IsSpace(s[0])
    requires forall k :: 0 <= k < |pre| ==> IsSpace(pre[k])
    ensures StripLeft(pre + s) == s
  {
    if pre != [] {
      assert (pre + s)[1..] == pre[1..] + s;
      StripLeftPadded(pre[1..], s);
    } else {
      assert pre + s == s;
    }
  }

  lemma {:induction false} StripRightPadded(s: string, post: string)
    requires |s| > 0 && !IsSpace(s[|s| - 1])
    requires forall k :: 0 <= k < |post| ==> IsSpace(post[k])
    ensures StripRight(s + post) == s
  {
    if post != [] {
      assert (s + post)[..|s + post| - 1] == s + post[..|post| - 1];
      StripRightPadded(s, post[..|post| - 1]);
    } else {
      assert s + post == s;
    }
  }
}
