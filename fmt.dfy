/** Decimal formatting of unsigned integers the way Rust's `core::fmt` writes
    `{}` (shortest decimal) and `{:w}` (right-justified to width w with spaces),
    together with the parsers that read such text back, used to state round trips. */
module Fmt {

  /** An unsigned 8-bit value (`u8`). */
  type Byte = x: int | 0 <= x < 256

  datatype Option<+T> = None | Some(value: T) {
    predicate IsFailure() { None? }

    function PropagateFailure<U>(): Option<U>
      requires None?
    {
      None
    }

    function Extract(): T
      requires Some?
    {
      value
    }
  }

  predicate IsDigit(c: char) { '0' <= c <= '9' }

  predicate AllDigits(s: string) { forall i :: 0 <= i < |s| ==> IsDigit(s[i]) }

  function DigitChar(d: nat): (c: char)
    requires d < 10
    ensures IsDigit(c) && c as int - '0' as int == d
  {
    ('0' as int + d) as char
  }

  /** `{}` applied to an unsigned integer: its shortest decimal numeral. */
  function NatToString(n: nat): (s: string)
    ensures |s| >= 1 && AllDigits(s)
    ensures |s| > 1 ==> s[0] != '0'
    decreases n
  {
    if n < 10 then [DigitChar(n)] else NatToString(n / 10) + [DigitChar(n % 10)]
  }

  /** The number a string of digits denotes. */
  function DecimalValue(s: string): nat
    requires AllDigits(s)
  {
    if s == [] then 0 else 10 * DecimalValue(s[..|s| - 1]) + (s[|s| - 1] as int - '0' as int)
  }

  lemma {:induction false} DecimalRoundTrip(n: nat)
    ensures DecimalValue(NatToString(n)) == n
  {
    if n >= 10 {
      var s := NatToString(n);
      assert s[..|s| - 1] == NatToString(n / 10);
      DecimalRoundTrip(n / 10);
    }
  }

  /** Every value of a `u8` or a menu index takes at most three digits. */
  lemma NatToStringWidth(n: nat)
    requires n < 1000
    ensures |NatToString(n)| <= 3
  {
    if n >= 100 {
      assert NatToString(n) == NatToString(n / 10) + [DigitChar(n % 10)];
      assert NatToString(n / 10) == NatToString(n / 10 / 10) + [DigitChar(n / 10 % 10)];
      assert |NatToString(n / 10 / 10)| == 1;
    } else if n >= 10 {
      assert NatToString(n) == NatToString(n / 10) + [DigitChar(n % 10)];
      assert |NatToString(n / 10)| == 1;
    }
  }

  function Spaces(k: nat): (s: string)
    ensures |s| == k && forall i :: 0 <= i < k ==> s[i] == ' '
  {
    if k == 0 then [] else [' '] + Spaces(k - 1)
  }

  /** `{:w}`: the numeral padded on the left with spaces up to width w; never truncated. */
  function RightJustify(s: string, w: nat): (r: string)
    ensures |r| == if |s| < w then w else |s|
    ensures r[|r| - |s|..] == s
    ensures forall i :: 0 <= i < |r| - |s| ==> r[i] == ' '
  {
    if |s| < w then Spaces(w - |s|) + s else s
  }

  /** The rest of `s` after the prefix `p`, if `s` starts with `p`. */
  function Expect(p: string, s: string): (r: Option<string>)
    ensures r.Some? <==> |p| <= |s| && s[..|p|] == p
    ensures r.Some? ==> r.value == s[|p|..]
  {
    if |p| <= |s| && s[..|p|] == p then Some(s[|p|..]) else None
  }

  lemma ExpectPrefix(p: string, rest: string)
    ensures Expect(p, p + rest) == Some(rest)
  {
    assert (p + rest)[..|p|] == p;
    assert (p + rest)[|p|..] == rest;
  }

  /** Length of the longest prefix of `s` made of digits. */
  function DigitSpan(s: string): (k: nat)
    ensures k <= |s| && AllDigits(s[..k])
    ensures k < |s| ==> !IsDigit(s[k])
  {
    if s == [] || !IsDigit(s[0]) then 0
    else
      var k := 1 + DigitSpan(s[1..]);
      assert forall i :: 1 <= i < k ==> s[..k][i] == s[1..][..k - 1][i - 1];
      k
  }

  lemma {:induction false} DigitSpanOf(d: string, rest: string)
    requires AllDigits(d)
    requires rest == [] || !IsDigit(rest[0])
    ensures DigitSpan(d + rest) == |d|
  {
    if d != [] {
      assert (d + rest)[1..] == d[1..] + rest;
      DigitSpanOf(d[1..], rest);
    }
  }

  /** Reads a decimal numeral at the front of `s`; at least one digit. */
  function ParseNat(s: string): (r: Option<(nat, string)>)
    ensures r.Some? ==> |r.value.1| < |s|
  {
    var k := DigitSpan(s);
    if k == 0 then None else Some((DecimalValue(s[..k]), s[k..]))
  }

  lemma ParseNatRoundTrip(n: nat, rest: string)
    requires rest == [] || !IsDigit(rest[0])
    ensures ParseNat(NatToString(n) + rest) == Some((n, rest))
  {
    var d := NatToString(n);
    DigitSpanOf(d, rest);
    assert (d + rest)[..|d|] == d;
    assert (d + rest)[|d|..] == rest;
    DecimalRoundTrip(n);
  }

  /** Number of leading spaces of `s`. */
  function SpaceSpan(s: string): (k: nat)
    ensures k <= |s| && forall i :: 0 <= i < k ==> s[i] == ' '
    ensures k < |s| ==> s[k] != ' '
  {
    if s == [] || s[0] != ' ' then 0 else 1 + SpaceSpan(s[1..])
  }

  lemma {:induction false} SpaceSpanOf(k: nat, d: string)
    requires d != [] && d[0] != ' '
    ensures SpaceSpan(Spaces(k) + d) == k
  {
    if k > 0 {
      assert (Spaces(k) + d)[1..] == Spaces(k - 1) + d;
      SpaceSpanOf(k - 1, d);
    }
  }

  /** Reads a field of width `w` written by `{:w}`: leading spaces, then at least one digit. */
  function ParseField(s: string, w: nat): (r: Option<(nat, string)>)
    ensures r.Some? ==> w <= |s| && r.value.1 == s[w..]
  {
    if |s| < w then None
    else
      var f := s[..w];
      var k := SpaceSpan(f);
      if k == w || !AllDigits(f[k..]) then None else Some((DecimalValue(f[k..]), s[w..]))
  }

  lemma ParseFieldRoundTrip(n: nat, w: nat, rest: string)
    requires |NatToString(n)| <= w
    ensures ParseField(RightJustify(NatToString(n), w) + rest, w) == Some((n, rest))
  {
    var d := NatToString(n);
    var f := RightJustify(d, w);
    var s := f + rest;
    assert s[..w] == f;
    assert s[w..] == rest;
    assert f == Spaces(w - |d|) + d;
    SpaceSpanOf(w - |d|, d);
    assert f[w - |d|..] == d;
    DecimalRoundTrip(n);
  }
}
