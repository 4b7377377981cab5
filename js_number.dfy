/** The few JavaScript number and string primitives the display code relies
    on, restricted to integer values: `Number.prototype.toString`,
    `String.prototype.padStart(width, "0")`, `Math.floor(a / b)` and the
    truncating remainder operator `%`. `DecodeField` reads a padded field
    back, so the formatting can be shown to lose nothing. */
module JsNumber {
  import opened Wrappers

  predicate IsDigit(c: char) {
    '0' <= c <= '9'
  }

  predicate AllDigits(s: string) {
    forall i :: 0 <= i < |s| ==> IsDigit(s[i])
  }

  function DigitChar(d: int): (c: char)
    requires 0 <= d < 10
    ensures IsDigit(c) && c as int - '0' as int == d
  {
    ('0' as int + d) as char
  }

  /** `n.toString()` for a non-negative integer: its decimal digits, with no
      leading zero unless `n` is 0. */
  function NatToString(n: nat): (s: string)
    ensures |s| >= 1 && AllDigits(s)
    ensures n > 0 ==> s[0] != '0'
    ensures n == 0 ==> s == "0"
    decreases n
  {
    if n < 10 then [DigitChar(n)] else NatToString(n / 10) + [DigitChar(n % 10)]
  }

  /** `x.toString()` for an integer: a minus sign in front of the digits of a
      negative value. */
  function IntToString(x: int): (s: string)
    ensures |s| >= 1
    ensures x < 0 ==> |s| >= 2 && s[0] == '-' && AllDigits(s[1..])
    ensures x >= 0 ==> AllDigits(s)
  {
    if x < 0 then "-" + NatToString(-x) else NatToString(x)
  }

  function Max(a: int, b: int): int {
    if a >= b then a else b
  }

  /** `s.padStart(width, "0")`: left-pads with '0' up to `width`
      characters; a longer string is returned unchanged. A leading '-' is not
      treated specially, so the zeros go in front of it. */
  function PadStart(s: string, width: nat): (r: string)
    ensures |r| == Max(width, |s|)
    ensures r[|r| - |s|..] == s
    ensures forall i :: 0 <= i < |r| - |s| ==> r[i] == '0'
  {
    if |s| >= width then s else seq(width - |s|, _ => '0') + s
  }

  /** `Math.floor(a / b)` for a positive divisor. */
  function FloorDiv(a: int, b: int): int
    requires b > 0
  {
    a / b
  }

  /** `FloorDiv` is the largest multiple of `b` not above `a`, counted in
      units of `b`: it rounds toward minus infinity. */
  lemma FloorDivIsFloor(a: int, b: int)
    requires b > 0
    ensures b * FloorDiv(a, b) <= a < b * FloorDiv(a, b) + b
  {
  }

  /** JavaScript's `a % b`: the remainder of division truncated toward zero,
      so it takes the sign of the dividend. */
  function JsRem(a: int, b: int): (r: int)
    requires b > 0
    ensures a >= 0 ==> 0 <= r < b
    ensures a < 0 ==> -b < r <= 0
  {
    if a >= 0 then a % b else -((-a) % b)
  }

  /** `Math.trunc(a / b)`: the quotient rounded toward zero. */
  function TruncDiv(a: int, b: int): int
    requires b > 0
  {
    if a >= 0 then a / b else -((-a) / b)
  }

  /** The truncating remainder is what is left after the truncating
      quotient: `a == b * trunc(a / b) + a % b`, as in JavaScript. */
  lemma JsRemIsRemainder(a: int, b: int)
    requires b > 0
    ensures a == b * TruncDiv(a, b) + JsRem(a, b)
  {
    if a < 0 {
      assert -a == b * ((-a) / b) + (-a) % b;
    }
  }

  /** The value of a string of decimal digits (the empty string reads as 0). */
  function ParseDigits(s: string): (n: nat)
    requires AllDigits(s)
  {
    if s == [] then 0
    else ParseDigits(s[..|s| - 1]) * 10 + (s[|s| - 1] as int - '0' as int)
  }

  function DropLeadingZeros(s: string): (r: string)
    ensures |r| <= |s| && r == s[|s| - |r|..]
    ensures r == [] || r[0] != '0'
  {
    if |s| > 0 && s[0] == '0' then DropLeadingZeros(s[1..]) else s
  }

  /** Reads a display field back to the integer it shows: padding zeros, then
      an optional '-', then decimal digits. `None` for anything else. */
  function DecodeField(s: string): Option<int> {
    var u := DropLeadingZeros(s);
    if |u| > 0 && u[0] == '-' then
      if AllDigits(u[1..]) then Some(0 - ParseDigits(u[1..])) else None
    else if AllDigits(u) then Some(ParseDigits(u))
    else None
  }

  lemma {:induction false} ParseNatToString(n: nat)
    ensures ParseDigits(NatToString(n)) == n
    decreases n
  {
    if n >= 10 {
      var s := NatToString(n);
      assert s[..|s| - 1] == NatToString(n / 10);
      ParseNatToString(n / 10);
    }
  }

  lemma {:induction false} DropZerosOfPadding(k: nat, s: string)
    requires s == [] || s[0] != '0'
    ensures DropLeadingZeros(seq(k, _ => '0') + s) == s
    decreases k
  {
    if k == 0 {
      assert seq(k, _ => '0') + s == s;
    } else {
      var t := seq(k, _ => '0') + s;
      assert t[1..] == seq(k - 1, _ => '0') + s;
      DropZerosOfPadding(k - 1, s);
    }
  }

  lemma DecodePaddedNat(k: nat, n: nat)
    ensures DecodeField(seq(k, _ => '0') + NatToString(n)) == Some(n)
  {
    var s := NatToString(n);
    if n == 0 {
      assert seq(k, _ => '0') + s == seq(k + 1, _ => '0') + [];
      DropZerosOfPadding(k + 1, []);
    } else {
      DropZerosOfPadding(k, s);
      ParseNatToString(n);
    }
  }

  lemma DecodePaddedNegative(k: nat, n: nat)
    requires n > 0
    ensures DecodeField(seq(k, _ => '0') + ("-" + NatToString(n))) == Some(0 - n)
  {
    var s := "-" + NatToString(n);
    DropZerosOfPadding(k, s);
    assert s[1..] == NatToString(n);
    ParseNatToString(n);
  }

  /** `padStart` is a run of zeros followed by the original string. */
  lemma PadIsZerosThenString(s: string, width: nat)
    ensures PadStart(s, width) == seq(Max(width, |s|) - |s|, _ => '0') + s
  {
    var p := PadStart(s, width);
    var k := Max(width, |s|) - |s|;
    assert p[..k] == seq(k, _ => '0');
    assert p == p[..k] + p[k..];
  }

  lemma PaddedNatRoundTrip(n: nat, width: nat)
    ensures DecodeField(PadStart(NatToString(n), width)) == Some(n)
  {
    var s := NatToString(n);
    PadIsZerosThenString(s, width);
    DecodePaddedNat(Max(width, |s|) - |s|, n);
  }

  lemma PaddedNegativeRoundTrip(n: nat, width: nat)
    requires n > 0
    ensures DecodeField(PadStart("-" + NatToString(n), width)) == Some(0 - n)
  {
    var s := "-" + NatToString(n);
    PadIsZerosThenString(s, width);
    DecodePaddedNegative(Max(width, |s|) - |s|, n);
  }

  /** A padded field decodes to the integer it was made from: padding and
      `toString` lose nothing, whatever the sign and the width. */
  lemma FieldRoundTrip(x: int, width: nat)
    ensures DecodeField(PadStart(IntToString(x), width)) == Some(x)
  {
    if x < 0 {
      var n: nat := -x;
      assert IntToString(x) == "-" + NatToString(n);
      PaddedNegativeRoundTrip(n, width);
      assert x == 0 - n;
    } else {
      assert IntToString(x) == NatToString(x);
      PaddedNatRoundTrip(x, width);
    }
  }
}
