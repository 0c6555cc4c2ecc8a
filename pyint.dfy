/**
 * Python's `int(text, base)` for the bases 10 and 16, and the two ways the
 * agent turns integers back into text: `str(n)` and `format(n, "0<w>X")`.
 *
 * `int` accepts surrounding whitespace, an optional sign, for base 16 an
 * optional `0x`/`0X` prefix (which may be followed by one underscore), and
 * digits of the base separated by single underscores.
 */
module PyInt {
  import opened Wrappers
  import opened Text

  type Radix = b: nat | b == 10 || b == 16 witness 10

  function Pow(b: nat, k: nat): (r: nat)
    ensures b > 0 ==> r > 0
  {
    if k == 0 then 1 else b * Pow(b, k - 1)
  }

  lemma {:induction false} PowMonotone(b: nat, j: nat, k: nat)
    requires b > 0 && j <= k
    ensures Pow(b, j) <= Pow(b, k)
  {
    if j < k {
      PowMonotone(b, j, k - 1);
      assert Pow(b, k) == b * Pow(b, k - 1);
    }
  }

  /** The characters of `"0123456789ABCDEFabcdef"`. */
  predicate IsHexDigit(c: char) {
    ('0' <= c <= '9') || ('a' <= c <= 'f') || ('A' <= c <= 'F')
  }

  predicate IsDigit(c: char, base: Radix) {
    if base == 10 then '0' <= c <= '9' else IsHexDigit(c)
  }

  function DigitValue(c: char): (v: nat)
    requires IsHexDigit(c)
    ensures v < 16
    ensures '0' <= c <= '9' <==> v < 10
  {
    if '0' <= c <= '9' then c as int - '0' as int
    else if 'a' <= c <= 'f' then c as int - 'a' as int + 10
    else c as int - 'A' as int + 10
  }

  predicate AllDigits(d: string, base: Radix) {
    forall i :: 0 <= i < |d| ==> IsDigit(d[i], base)
  }

  /** The big-endian value of a string of digits. */
  function Value(d: string, base: Radix): nat
    requires AllDigits(d, base)
  {
    if d == [] then 0 else Value(d[..|d| - 1], base) * base + DigitValue(d[|d| - 1])
  }

  /** `k` digits in base `b` denote less than `b^k`. */
  lemma {:induction false} ValueBound(d: string, base: Radix)
    requires AllDigits(d, base)
    ensures Value(d, base) < Pow(base, |d|)
  {
    if d != [] {
      var p := d[..|d| - 1];
      ValueBound(p, base);
      var v, q := Value(p, base), Pow(base, |p|);
      assert v <= q - 1;
      assert v * base <= (q - 1) * base;
      assert Pow(base, |d|) == base * q;
    }
  }

  /** Two digits denote the first times the base plus the second. */
  lemma TwoDigitValue(d: string, base: Radix)
    requires |d| == 2 && AllDigits(d, base)
    ensures Value(d, base) == DigitValue(d[0]) * base + DigitValue(d[1])
  {
    var p := d[..1];
    assert AllDigits(p, base) && p[0] == d[0];
    assert p[..0] == [];
    assert Value(p, base) == DigitValue(d[0]);
  }

  /** Leading zeros do not change a value. */
  lemma {:induction false} ValueLeadingZeros(z: string, d: string, base: Radix)
    requires forall i :: 0 <= i < |z| ==> z[i] == '0'
    requires AllDigits(d, base)
    ensures AllDigits(z + d, base)
    ensures Value(z + d, base) == Value(d, base)
    decreases |d|, |z|
  {
    if d == [] {
      assert z + d == z;
      if z != [] {
        ValueLeadingZeros(z[..|z| - 1], [], base);
        assert z[..|z| - 1] + [] == z[..|z| - 1];
      }
    } else {
      ValueLeadingZeros(z, d[..|d| - 1], base);
      assert (z + d)[..|z + d| - 1] == z + d[..|d| - 1];
    }
  }

  /** Digit text as `int` accepts it: digits of the base with single underscores between them. */
  predicate WellFormed(d: string, base: Radix) {
    && |d| > 0
    && IsDigit(d[0], base)
    && IsDigit(d[|d| - 1], base)
    && (forall i :: 0 <= i < |d| ==> IsDigit(d[i], base) || d[i] == '_')
    && (forall i :: 0 <= i < |d| - 1 && d[i] == '_' ==> d[i + 1] != '_')
  }

  function DropUnderscores(d: string): (r: string)
    ensures |r| <= |d|
    ensures (forall i :: 0 <= i < |d| ==> d[i] != '_') ==> r == d
  {
    if d == [] then []
    else if d[0] == '_' then DropUnderscores(d[1..])
    else [d[0]] + DropUnderscores(d[1..])
  }

  lemma {:induction false} DropUnderscoresDigits(d: string, base: Radix)
    requires forall i :: 0 <= i < |d| ==> IsDigit(d[i], base) || d[i] == '_'
    ensures AllDigits(DropUnderscores(d), base)
  {
    if d != [] {
      DropUnderscoresDigits(d[1..], base);
    }
  }

  predicate HasHexPrefix(u: string) {
    |u| >= 2 && u[0] == '0' && (u[1] == 'x' || u[1] == 'X')
  }

  /** The text left for the digits once whitespace, sign and (base 16) prefix are removed. */
  function DigitText(s: string, base: Radix): (d: string)
    ensures |d| <= |Strip(s)|
    ensures |Strip(s)| > 0 && Strip(s)[0] == '-' ==> |d| < |Strip(s)|
  {
    var t := Strip(s);
    var u := if |t| > 0 && (t[0] == '-' || t[0] == '+') then t[1..] else t;
    if base == 16 && HasHexPrefix(u) then
      (if |u| > 2 && u[2] == '_' then u[3..] else u[2..])
    else u
  }

  /** `int(s, base)`: `None` where Python raises `ValueError`. */
  function ParseInt(s: string, base: Radix): Option<int> {
    var t := Strip(s);
    var d := DigitText(s, base);
    if WellFormed(d, base) then
      DropUnderscoresDigits(d, base);
      var m: int := Value(DropUnderscores(d), base);
      Some(if |t| > 0 && t[0] == '-' then -m else m)
    else None
  }

  /** Plain digits left after the sign and prefix are read as their value, negated after a minus. */
  lemma ParseDigitText(s: string, base: Radix, d: string)
    requires DigitText(s, base) == d && d != [] && AllDigits(d, base)
    ensures var t := Strip(s);
      ParseInt(s, base) == Some(if |t| > 0 && t[0] == '-' then -(Value(d, base) as int) else Value(d, base))
  {
    assert forall i :: 0 <= i < |d| ==> d[i] != '_' by {
      forall i | 0 <= i < |d| ensures d[i] != '_' {
        assert IsDigit(d[i], base);
      }
    }
    assert WellFormed(d, base);
    assert DropUnderscores(d) == d;
  }

  /** A non-empty run of plain digits is read as their big-endian value. */
  lemma ParsePlainDigits(d: string, base: Radix)
    requires d != [] && AllDigits(d, base)
    ensures ParseInt(d, base) == Some(Value(d, base))
  {
    assert IsDigit(d[0], base) && IsDigit(d[|d| - 1], base);
    StripUnchanged(d);
    assert base == 16 ==> !HasHexPrefix(d) by {
      if base == 16 && |d| >= 2 { assert IsHexDigit(d[1]); }
    }
    assert DigitText(d, base) == d;
    ParseDigitText(d, base, d);
  }

  /**
   * Whatever `int(s, base)` returns lies strictly between `-base^(|s|-1)` and
   * `base^|s|`: a sign takes the place of one digit.
   */
  lemma ParseIntBound(s: string, base: Radix)
    requires ParseInt(s, base).Some?
    ensures var v := ParseInt(s, base).value;
      && |s| >= 1
      && v < Pow(base, |s|)
      && (v < 0 ==> |s| >= 2 && -v < Pow(base, |s| - 1))
  {
    var digits := ParseIntMagnitude(s, base);
    SignedBound(ParseInt(s, base).value, digits, base, |s|);
  }

  /** Plus or minus the value of `k` digits, `k` at most `n` (below `n` when negative). */
  lemma SignedBound(v: int, digits: string, base: Radix, n: nat)
    requires AllDigits(digits, base) && 1 <= |digits| <= n
    requires v == Value(digits, base) || v == -(Value(digits, base) as int)
    requires v < 0 ==> |digits| < n
    ensures v < Pow(base, n)
    ensures v < 0 ==> n >= 2 && -v < Pow(base, n - 1)
  {
    ValueBound(digits, base);
    PowMonotone(base, |digits|, n);
    if v < 0 {
      PowMonotone(base, |digits|, n - 1);
    }
  }

  /** What `int` reads is plus or minus the value of at most `|s|` digits, one fewer when negative. */
  lemma ParseIntMagnitude(s: string, base: Radix) returns (digits: string)
    requires ParseInt(s, base).Some?
    ensures AllDigits(digits, base) && 1 <= |digits| <= |s|
    ensures var v := ParseInt(s, base).value;
      && (v == Value(digits, base) || v == -(Value(digits, base) as int))
      && (v < 0 ==> |digits| < |s|)
  {
    var d := DigitText(s, base);
    DropUnderscoresDigits(d, base);
    digits := DropUnderscores(d);
    assert IsDigit(d[0], base);
    assert d[0] != '_';
  }

  // ---- integers to text ----

  /** The upper-case digit for `v`. */
  function Digit(v: nat): (c: char)
    requires v < 16
    ensures IsHexDigit(c) && DigitValue(c) == v
    ensures c != '_' && !IsSpace(c) && c != '-' && c != '+'
    ensures v < 10 ==> '0' <= c <= '9'
  {
    if v < 10 then ('0' as int + v) as char else ('A' as int + v - 10) as char
  }

  /** The digits of `n` in base `b`, most significant first, without leading zeros. */
  function NatDigits(n: nat, base: Radix): (r: string)
    ensures |r| >= 1 && AllDigits(r, base)
    ensures Value(r, base) == n
    decreases n
  {
    if n < base then [Digit(n)]
    else
      var r := NatDigits(n / base, base) + [Digit(n % base)];
      assert r[..|r| - 1] == NatDigits(n / base, base);
      r
  }

  lemma {:induction false} NatDigitsLength(n: nat, base: Radix, k: nat)
    requires k >= 1 && n < Pow(base, k)
    ensures |NatDigits(n, base)| <= k
    decreases k
  {
    if n >= base {
      assert Pow(base, k) == base * Pow(base, k - 1);
      assert Pow(base, 1) == base;
      assert n / base < Pow(base, k - 1);
      NatDigitsLength(n / base, base, k - 1);
    }
  }

  function Zeros(k: nat): (z: string)
    ensures |z| == k && forall i :: 0 <= i < k ==> z[i] == '0'
  {
    if k == 0 then [] else Zeros(k - 1) + ['0']
  }

  /** `format(n, "0<width>X")`: upper-case hexadecimal, zero-padded to at least `width`. */
  function FormatHex(n: nat, width: nat): (r: string)
    ensures AllDigits(r, 16) && |r| >= width
  {
    var d := NatDigits(n, 16);
    if |d| < width then Zeros(width - |d|) + d else d
  }

  /** The padded hexadecimal text reads back as `n`, and is exactly `width` long when `n` fits. */
  lemma FormatHexRoundTrip(n: nat, width: nat)
    ensures ParseInt(FormatHex(n, width), 16) == Some(n)
    ensures width >= 1 && n < Pow(16, width) ==> |FormatHex(n, width)| == width
  {
    var d := NatDigits(n, 16);
    if |d| < width {
      ValueLeadingZeros(Zeros(width - |d|), d, 16);
    }
    ParsePlainDigits(FormatHex(n, width), 16);
    if width >= 1 && n < Pow(16, width) {
      NatDigitsLength(n, 16, width);
    }
  }

  /** `str(n)`: decimal digits, with a leading `-` for negative `n`. */
  function Decimal(n: int): (r: string)
    ensures |r| >= 1 && r[0] != '-' ==> AllDigits(r, 10)
  {
    if n < 0 then "-" + NatDigits(-n, 10) else NatDigits(n, 10)
  }

  /** A minus sign before plain decimal digits negates their value. */
  lemma ParseNegative(d: string)
    requires d != [] && AllDigits(d, 10)
    ensures ParseInt("-" + d, 10) == Some(-(Value(d, 10) as int))
  {
    NegativeDigitText(d);
    ParseDigitText("-" + d, 10, d);
  }

  /** After a minus sign, the digit text is the digits. */
  lemma NegativeDigitText(d: string)
    requires d != [] && AllDigits(d, 10)
    ensures Strip("-" + d) == "-" + d && DigitText("-" + d, 10) == d
  {
    var s := "-" + d;
    assert s[0] == '-' && s[|s| - 1] == d[|d| - 1];
    assert IsDigit(d[|d| - 1], 10);
    StripUnchanged(s);
    assert s[1..] == d;
  }

  /** `int(str(n)) == n`. */
  lemma DecimalRoundTrip(n: int)
    ensures ParseInt(Decimal(n), 10) == Some(n)
    ensures NoSpace(Decimal(n)) && Decimal(n) != []
  {
    var d := NatDigits(if n < 0 then -n else n, 10);
    if n < 0 {
      assert Decimal(n) == "-" + d;
      ParseNegative(d);
    } else {
      assert Decimal(n) == d;
      ParsePlainDigits(d, 10);
    }
    DecimalChars(n);
  }

  /** `str(n)` is a minus sign and decimal digits, so it holds no whitespace. */
  lemma DecimalChars(n: int)
    ensures forall i :: 0 <= i < |Decimal(n)| ==> Decimal(n)[i] == '-' || '0' <= Decimal(n)[i] <= '9'
    ensures NoSpace(Decimal(n))
  {
    var d := NatDigits(if n < 0 then -n else n, 10);
    assert forall i :: 0 <= i < |d| ==> IsDigit(d[i], 10);
  }
}
