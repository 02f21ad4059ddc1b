/** Decimal text as the C++ standard library writes and reads it for the
    tuneable codec: std::to_string of an int and of a double ("%f"), and
    std::istream extraction of whitespace-separated words and integers. */
module TextFormat {
  import opened Wrappers

  predicate IsDigit(c: char) { '0' <= c <= '9' }

  /** The characters std::isspace accepts in the "C" locale. */
  predicate IsSpace(c: char) {
    c == ' ' || c == '\t' || c == '\n' || c == '\U{000B}' || c == '\U{000C}' || c == '\r'
  }

  predicate AllDigits(s: string) { forall i | 0 <= i < |s| :: IsDigit(s[i]) }

  /** What `is >> word` can produce: non-empty and free of whitespace. */
  predicate IsWord(w: string) { |w| > 0 && forall i | 0 <= i < |w| :: !IsSpace(w[i]) }

  function DigitValue(c: char): nat
    requires IsDigit(c)
  {
    c as int - '0' as int
  }

  function DigitChar(d: nat): (c: char)
    requires d < 10
    ensures IsDigit(c) && DigitValue(c) == d
  {
    ('0' as int + d) as char
  }

  function Pow10(k: nat): (p: nat)
    ensures p >= 1
  {
    if k == 0 then 1 else 10 * Pow10(k - 1)
  }

  function Abs(x: real): real { if x < 0.0 then -x else x }

  // ---------------------------------------------------------------------
  // Integers: std::to_string(int) and its inverse

  /** The decimal digits of n, most significant first, without leading zeros. */
  function NatDigits(n: nat): string
    decreases n
  {
    if n < 10 then [DigitChar(n)] else NatDigits(n / 10) + [DigitChar(n % 10)]
  }

  /** The value of a string of decimal digits; leading zeros are allowed. */
  function DigitsValue(s: string): nat
    requires AllDigits(s)
  {
    if s == [] then 0 else DigitsValue(s[..|s| - 1]) * 10 + DigitValue(s[|s| - 1])
  }

  lemma {:induction false} NatDigitsRoundTrip(n: nat)
    ensures |NatDigits(n)| > 0 && AllDigits(NatDigits(n))
    ensures DigitsValue(NatDigits(n)) == n
  {
    if n >= 10 {
      NatDigitsRoundTrip(n / 10);
      var s := NatDigits(n);
      assert s[..|s| - 1] == NatDigits(n / 10);
    }
  }

  /** std::to_string of an int: one word, a '-' exactly for negatives, then
      the digits of the magnitude in canonical form: "0" for zero and no
      leading zero otherwise, so never "-0". */
  function Decimal(n: int): (r: string)
    ensures IsWord(r)
    ensures r[0] == '-' <==> n < 0
    ensures n == 0 <==> r == "0"
    ensures n > 0 ==> r[0] != '0'
    ensures n < 0 ==> |r| > 1 && r[1] != '0'
  {
    var m: nat := if n < 0 then -n else n;
    NatDigitsRoundTrip(m);
    NatDigitsLeading(m);
    var r := if n < 0 then "-" + NatDigits(m) else NatDigits(m);
    assert forall i | 0 <= i < |NatDigits(m)| :: !IsSpace(NatDigits(m)[i]);
    assert n < 0 ==> r[1..] == NatDigits(m);
    r
  }

  /** The first digit of a positive number is not '0'; zero is "0". */
  lemma {:induction false} NatDigitsLeading(n: nat)
    ensures n == 0 ==> NatDigits(n) == "0"
    ensures n > 0 ==> NatDigits(n)[0] != '0'
    ensures |NatDigits(n)| > 0
    decreases n
  {
    if n >= 10 {
      NatDigitsLeading(n / 10);
    } else if n > 0 {
      assert DigitValue(NatDigits(n)[0]) == n;
    }
  }

  /** A whole word read as a decimal integer: an optional '-' and at least one digit. */
  function ParseDecimal(w: string): Option<int>
  {
    if |w| > 1 && w[0] == '-' && AllDigits(w[1..]) then Some(-(DigitsValue(w[1..]) as int))
    else if |w| > 0 && AllDigits(w) then Some(DigitsValue(w))
    else None
  }

  /** Every integer's rendering is one word that reads back as that integer. */
  lemma DecimalRoundTrip(n: int)
    ensures IsWord(Decimal(n))
    ensures ParseDecimal(Decimal(n)) == Some(n)
    ensures Decimal(n)[0] == '-' <==> n < 0
  {
    var m: nat := if n < 0 then -n else n;
    NatDigitsRoundTrip(m);
    if n < 0 {
      assert Decimal(n)[1..] == NatDigits(m);
    }
  }

  // ---------------------------------------------------------------------
  // Reals: std::to_string(double), which prints "%f"

  const Micro: nat := 1000000

  /** |x| * 10^6 rounded to the nearest integer, ties to even, as glibc's
      printf rounds the exact value it is given. */
  function ScaledMagnitude(x: real): (n: nat)
    ensures Abs(n as real - Abs(x) * 1000000.0) <= 0.5
  {
    var y := Abs(x) * Micro as real;
    var f := y.Floor;
    var frac := y - f as real;
    if frac > 0.5 || (frac == 0.5 && f % 2 == 1) then f + 1 else f
  }

  /** The last `width` decimal digits of n, leading zeros kept. */
  function Padded(n: nat, width: nat): string
  {
    if width == 0 then "" else Padded(n / 10, width - 1) + [DigitChar(n % 10)]
  }

  lemma {:induction false} PaddedValue(n: nat, width: nat)
    requires n < Pow10(width)
    ensures |Padded(n, width)| == width && AllDigits(Padded(n, width))
    ensures DigitsValue(Padded(n, width)) == n
  {
    if width > 0 {
      assert n / 10 < Pow10(width - 1);
      PaddedValue(n / 10, width - 1);
      var s := Padded(n, width);
      assert s[..|s| - 1] == Padded(n / 10, width - 1);
    }
  }

  /** std::to_string of a double: sign, integer part, '.', six rounded decimals. */
  function FixedPoint6(x: real): string
  {
    var n := ScaledMagnitude(x);
    (if x < 0.0 then "-" else "") + NatDigits(n / Micro) + "." + Padded(n % Micro, 6)
  }

  /** The shape of a `%f` rendering: one word, a '-' exactly for negatives,
      at least one whole digit, the point, and six fractional digits. */
  lemma FixedPoint6Shape(x: real)
    ensures var r := FixedPoint6(x);
      && IsWord(r)
      && (r[0] == '-' <==> x < 0.0)
      && |r| >= 8 && r[|r| - 7] == '.' && AllDigits(r[|r| - 6..])
  {
    var n := ScaledMagnitude(x);
    var sign := if x < 0.0 then "-" else "";
    var whole, frac := NatDigits(n / Micro), Padded(n % Micro, 6);
    NatDigitsRoundTrip(n / Micro);
    PaddedValue(n % Micro, 6);
    RenderingIsWord(sign, whole, frac);
    FixedShape(sign, whole, frac);
  }

  lemma FixedShape(sign: string, whole: string, frac: string)
    requires sign == "" || sign == "-"
    requires |whole| > 0 && AllDigits(whole) && |frac| == 6 && AllDigits(frac)
    ensures var r := sign + whole + "." + frac;
      && (r[0] == '-' <==> sign == "-")
      && |r| >= 8 && r[|r| - 7] == '.' && r[|r| - 6..] == frac
  {
    var r := sign + whole + "." + frac;
    assert r[|r| - 6..] == frac;
    if sign == "" {
      assert r[0] == whole[0];
    }
  }

  /** Index of the first '.' of w, or |w| when there is none. */
  function DotIndex(w: string): (k: nat)
    ensures k <= |w|
    ensures forall i | 0 <= i < k :: w[i] != '.'
    ensures k < |w| ==> w[k] == '.'
  {
    if w == [] || w[0] == '.' then 0 else 1 + DotIndex(w[1..])
  }

  /** Digits, then optionally '.' and more digits, read as an exact value. */
  function ParseUnsignedFixed(w: string): Option<real>
  {
    var k := DotIndex(w);
    var whole := w[..k];
    var frac := if k < |w| then w[k + 1..] else "";
    if |whole| > 0 && AllDigits(whole) && AllDigits(frac) then Some(FixedValue(whole, frac)) else None
  }

  /** The value of the digits "whole.frac". */
  function FixedValue(whole: string, frac: string): real
    requires AllDigits(whole) && AllDigits(frac)
  {
    DigitsValue(whole) as real + DigitsValue(frac) as real / Pow10(|frac|) as real
  }

  /** A whole word read as a plain decimal fraction, with an optional '-'. */
  function ParseFixed(w: string): Option<real>
  {
    if |w| > 0 && w[0] == '-' then
      match ParseUnsignedFixed(w[1..])
      case Some(v) => Some(-v)
      case None => None
    else
      ParseUnsignedFixed(w)
  }

  lemma Pow10Six()
    ensures Pow10(6) == Micro
  {
  }

  lemma DotIndexOfJoin(a: string, b: string)
    requires AllDigits(a)
    ensures DotIndex(a + "." + b) == |a|
  {
    var w := a + "." + b;
    assert w[|a|] == '.';
    assert forall i | 0 <= i < |a| :: w[i] == a[i] && w[i] != '.';
  }

  lemma UnsignedFixedOfRendering(q: nat, r: nat)
    requires r < Micro
    ensures ParseUnsignedFixed(NatDigits(q) + "." + Padded(r, 6))
            == Some(q as real + r as real / 1000000.0)
  {
    var a, b := NatDigits(q), Padded(r, 6);
    NatDigitsRoundTrip(q);
    PaddedValue(r, 6);
    ParseJoin(a, b);
    Pow10Six();
    assert FixedValue(a, b) == q as real + r as real / 1000000.0;
  }

  /** Digits, '.', digits reads as the whole part plus the scaled fraction. */
  lemma ParseJoin(a: string, b: string)
    requires |a| > 0 && AllDigits(a) && AllDigits(b)
    ensures ParseUnsignedFixed(a + "." + b) == Some(FixedValue(a, b))
  {
    var w := a + "." + b;
    DotIndexOfJoin(a, b);
    assert w[..|a|] == a;
    assert w[|a| + 1..] == b;
    ParseParts(w, a, b);
  }

  lemma ParseParts(w: string, a: string, b: string)
    requires DotIndex(w) == |a| < |w| && w[..|a|] == a && w[|a| + 1..] == b
    requires |a| > 0 && AllDigits(a) && AllDigits(b)
    ensures ParseUnsignedFixed(w) == Some(FixedValue(a, b))
  {
    var k := DotIndex(w);
    var whole := w[..k];
    var frac := if k < |w| then w[k + 1..] else "";
    assert whole == a && frac == b;
  }

  lemma UnscaleBound(n: nat, m: real)
    requires m >= 0.0
    requires Abs(n as real - m * 1000000.0) <= 0.5
    ensures Abs(n as real / 1000000.0 - m) <= 0.0000005
  {
    var d := n as real / 1000000.0 - m;
    assert n as real - m * 1000000.0 == d * 1000000.0;
  }

  lemma RenderingIsWord(sign: string, a: string, b: string)
    requires sign == "" || sign == "-"
    requires |a| > 0 && AllDigits(a) && AllDigits(b)
    ensures IsWord(sign + a + "." + b)
  {
    var w := sign + a + "." + b;
    forall i | 0 <= i < |w| ensures !IsSpace(w[i]) {
      if i < |sign| {
        assert w[i] == '-';
      } else if i < |sign| + |a| {
        assert w[i] == a[i - |sign|];
      } else if i > |sign| + |a| {
        assert w[i] == b[i - |sign| - |a| - 1];
      }
    }
  }

  /** A double's rendering is one word, and it reads back to within half a
      unit of the sixth decimal: the text keeps no more than that. */
  lemma FixedPoint6Close(x: real)
    ensures IsWord(FixedPoint6(x))
    ensures ParseFixed(FixedPoint6(x)).Some?
    ensures Abs(ParseFixed(FixedPoint6(x)).value - x) <= 0.0000005
  {
    var n := ScaledMagnitude(x);
    var q, r := n / Micro, n % Micro;
    var sign := if x < 0.0 then "-" else "";
    var u := NatDigits(q) + "." + Padded(r, 6);
    assert FixedPoint6(x) == sign + u;
    RenderingPieces(sign, q, r, u);
    var v := n as real / 1000000.0;
    assert n == q * 1000000 + r;
    UnsignedRendering(n, q, r);
    UnscaleBound(n, Abs(x));
    SignedParse(sign, u, v, x);
  }

  /** The unsigned part of a rendering starts with a digit, and with its
      sign it is one word. */
  lemma RenderingPieces(sign: string, q: nat, r: nat, u: string)
    requires sign == "" || sign == "-"
    requires r < Micro && u == NatDigits(q) + "." + Padded(r, 6)
    ensures |u| > 0 && u[0] != '-' && IsWord(sign + u)
  {
    Pow10Six();
    NatDigitsRoundTrip(q);
    PaddedValue(r, 6);
    RenderingIsWord(sign, NatDigits(q), Padded(r, 6));
    assert sign + u == sign + NatDigits(q) + "." + Padded(r, 6);
    assert u[0] == NatDigits(q)[0];
  }

  /** The unsigned part of a rendering reads back as the scaled magnitude. */
  lemma UnsignedRendering(n: nat, q: nat, r: nat)
    requires n == q * 1000000 + r && r < Micro
    ensures ParseUnsignedFixed(NatDigits(q) + "." + Padded(r, 6)) == Some(n as real / 1000000.0)
  {
    UnsignedFixedOfRendering(q, r);
    assert n as real == q as real * 1000000.0 + r as real;
  }

  lemma SignedParse(sign: string, u: string, v: real, x: real)
    requires sign == if x < 0.0 then "-" else ""
    requires |u| > 0 && u[0] != '-' && ParseUnsignedFixed(u) == Some(v)
    requires Abs(v - Abs(x)) <= 0.0000005
    ensures ParseFixed(sign + u).Some?
    ensures Abs(ParseFixed(sign + u).value - x) <= 0.0000005
  {
    if x < 0.0 {
      assert (sign + u)[1..] == u;
    } else {
      assert sign + u == u;
    }
  }

  // ---------------------------------------------------------------------
  // std::istream extraction

  /** The first position at or after i that does not hold whitespace. */
  function SkipSpaces(s: string, i: nat): (j: nat)
    requires i <= |s|
    ensures i <= j <= |s|
    ensures forall k | i <= k < j :: IsSpace(s[k])
    ensures j < |s| ==> !IsSpace(s[j])
    decreases |s| - i
  {
    if i == |s| || !IsSpace(s[i]) then i else SkipSpaces(s, i + 1)
  }

  /** The first position at or after i that holds whitespace, or |s|. */
  function WordEnd(s: string, i: nat): (j: nat)
    requires i <= |s|
    ensures i <= j <= |s|
    ensures forall k | i <= k < j :: !IsSpace(s[k])
    ensures j < |s| ==> IsSpace(s[j])
    decreases |s| - i
  {
    if i == |s| || IsSpace(s[i]) then i else WordEnd(s, i + 1)
  }

  /** `is >> word` from position i: the next word and the position just after
      it, or None when only whitespace remains (the extraction fails). */
  function NextWord(s: string, i: nat): (r: Option<(string, nat)>)
    requires i <= |s|
    ensures r.Some? ==> IsWord(r.value.0) && i < r.value.1 <= |s|
    ensures r.None? <==> forall k | i <= k < |s| :: IsSpace(s[k])
  {
    var b := SkipSpaces(s, i);
    if b == |s| then None else var e := WordEnd(s, b); Some((s[b..e], e))
  }

  /** Two words joined by one space are read back as those two words. */
  lemma NextWordOfPair(w1: string, w2: string)
    requires IsWord(w1) && IsWord(w2)
    ensures NextWord(w1 + " " + w2, 0) == Some((w1, |w1|))
    ensures NextWord(w1 + " " + w2, |w1|) == Some((w2, |w1| + 1 + |w2|))
  {
    var s := w1 + " " + w2;
    assert s[0] == w1[0];
    assert SkipSpaces(s, 0) == 0;
    var e := WordEnd(s, 0);
    assert forall k | 0 <= k < |w1| :: s[k] == w1[k] && !IsSpace(s[k]);
    assert s[|w1|] == ' ';
    assert e == |w1|;
    assert s[0..e] == w1;
    var b := SkipSpaces(s, |w1|);
    assert s[|w1| + 1] == w2[0];
    assert b == |w1| + 1;
    var e2 := WordEnd(s, b);
    assert forall k | b <= k < |s| :: s[k] == w2[k - b] && !IsSpace(s[k]);
    assert e2 == |s|;
    assert s[b..e2] == w2;
  }

  /** `is >> word`: skip whitespace, then collect characters up to the next
      whitespace. When only whitespace is left nothing is found. */
  method ExtractWord(s: string, i: nat) returns (found: bool, word: string, next: nat)
    requires i <= |s|
    ensures found <==> NextWord(s, i).Some?
    ensures found ==> NextWord(s, i) == Some((word, next))
    ensures !found ==> next == |s|
  {
    var j := i;
    while j < |s| && IsSpace(s[j])
      invariant i <= j <= |s|
      invariant forall k | i <= k < j :: IsSpace(s[k])
    {
      j := j + 1;
    }
    assert j == SkipSpaces(s, i);
    if j == |s| {
      return false, "", j;
    }
    var start := j;
    word := "";
    while j < |s| && !IsSpace(s[j])
      invariant start <= j <= |s|
      invariant forall k | start <= k < j :: !IsSpace(s[k])
      invariant word == s[start..j]
    {
      word := word + [s[j]];
      j := j + 1;
    }
    assert j == WordEnd(s, start);
    found, next := true, j;
  }

  /** `is >> n` when the next word is a well-formed decimal integer: skip
      whitespace, read an optional '-', then accumulate digits. */
  method ExtractInt(s: string, i: nat) returns (n: int, next: nat)
    requires i <= |s|
    requires NextWord(s, i).Some? && ParseDecimal(NextWord(s, i).value.0).Some?
    ensures n == ParseDecimal(NextWord(s, i).value.0).value
    ensures next == NextWord(s, i).value.1
  {
    ghost var e := WordEnd(s, SkipSpaces(s, i));
    ghost var w := NextWord(s, i).value.0;
    var j := i;
    while j < |s| && IsSpace(s[j])
      invariant i <= j <= |s|
      invariant forall k | i <= k < j :: IsSpace(s[k])
    {
      j := j + 1;
    }
    assert j == SkipSpaces(s, i) && w == s[j..e];
    var negative := s[j] == '-';
    if negative {
      assert w[1..] == s[j + 1..e];
      j := j + 1;
    }
    var acc;
    acc, next := AccumulateDigits(s, j, e);
    n := if negative then -(acc as int) else acc;
  }

  /** The digit loop of integer extraction, over a run of digits that ends
      at whitespace or at the end of the text. */
  method AccumulateDigits(s: string, start: nat, ghost e: nat) returns (acc: nat, j: nat)
    requires start <= e <= |s|
    requires AllDigits(s[start..e])
    requires e < |s| ==> IsSpace(s[e])
    ensures j == e && acc == DigitsValue(s[start..e])
  {
    j, acc := start, 0;
    assert e < |s| ==> !IsDigit(s[e]);
    forall k | start <= k < e
      ensures IsDigit(s[k])
    {
      assert s[start..e][k - start] == s[k];
    }
    while j < |s| && IsDigit(s[j])
      invariant start <= j <= e
      invariant AllDigits(s[start..j])
      invariant acc == DigitsValue(s[start..j])
    {
      assert j < e;
      ghost var w := s[start..j + 1];
      assert w[..|w| - 1] == s[start..j] && w[|w| - 1] == s[j];
      assert AllDigits(w);
      acc := acc * 10 + DigitValue(s[j]);
      j := j + 1;
    }
    assert j == e;
  }
}
