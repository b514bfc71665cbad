/** The pieces of `java.lang.String` and `java.util.Formatter` that the core
    relies on: decimal rendering of integers (`%0Nd`, `Integer.toString`),
    `trim()` and `toLowerCase()`. */
module Strings {

  function Pow10(k: nat): (p: nat)
    ensures p >= 1
  {
    if k == 0 then 1 else 10 * Pow10(k - 1)
  }

  predicate IsDigit(c: char) {
    '0' <= c <= '9'
  }

  predicate IsDigits(s: string) {
    forall i :: 0 <= i < |s| ==> IsDigit(s[i])
  }

  function DigitChar(d: nat): (c: char)
    requires d < 10
    ensures IsDigit(c) && c as int - '0' as int == d
  {
    ('0' as int + d) as char
  }

  /** The number a string of decimal digits denotes, most significant digit
      first; the reference reading for the renderings below. */
  function DecimalValue(s: string): nat
    requires IsDigits(s)
  {
    if s == [] then 0 else DecimalValue(s[..|s| - 1]) * 10 + (s[|s| - 1] as int - '0' as int)
  }

  /** `Integer.toString(n)` for a non-negative `n`: its shortest decimal form. */
  function NatToDecimal(n: nat): (s: string)
    ensures |s| >= 1 && IsDigits(s)
  {
    if n < 10 then [DigitChar(n)] else NatToDecimal(n / 10) + [DigitChar(n % 10)]
  }

  /** Reading back what `NatToDecimal` writes gives the number again. */
  lemma {:induction false} NatToDecimalRoundTrip(n: nat)
    ensures DecimalValue(NatToDecimal(n)) == n
  {
    var s := NatToDecimal(n);
    if n < 10 {
      assert s[..|s| - 1] == [];
    } else {
      NatToDecimalRoundTrip(n / 10);
      assert s[..|s| - 1] == NatToDecimal(n / 10);
    }
  }

  /** `NatToDecimal(n)` has exactly `w` digits when 10^(w-1) <= n < 10^w. */
  lemma {:induction false} NatToDecimalLength(n: nat, w: nat)
    requires w >= 1 && (w == 1 || Pow10(w - 1) <= n) && n < Pow10(w)
    ensures |NatToDecimal(n)| == w
  {
    if n >= 10 {
      assert w >= 2;
      assert n / 10 < Pow10(w - 1);
      if w > 2 {
        assert Pow10(w - 1) == 10 * Pow10(w - 2);
        assert Pow10(w - 2) <= n / 10;
      }
      NatToDecimalLength(n / 10, w - 1);
    }
  }

  /** `NatToDecimal(n)` is at most `w` digits long when n < 10^w. */
  lemma {:induction false} NatToDecimalAtMost(n: nat, w: nat)
    requires w >= 1 && n < Pow10(w)
    ensures |NatToDecimal(n)| <= w
  {
    if n >= 10 {
      assert w >= 2;
      assert n / 10 < Pow10(w - 1);
      NatToDecimalAtMost(n / 10, w - 1);
    }
  }

  function Zeros(k: nat): (s: string)
    ensures |s| == k && IsDigits(s)
  {
    if k == 0 then [] else Zeros(k - 1) + ['0']
  }

  /** Left-pads `s` with zeros up to width `w`, as the `0` flag of `%0Nd` does. */
  function ZeroPad(s: string, w: nat): (r: string)
    requires IsDigits(s)
    ensures IsDigits(r) && |r| == if |s| < w then w else |s|
  {
    if |s| < w then Zeros(w - |s|) + s else s
  }

  /** `String.format("%0" + w + "d", n)`: the width counts the minus sign of a
      negative number, and the zeros go between the sign and the digits. */
  function FormatZeroPadded(n: int, w: nat): string {
    if n >= 0 then ZeroPad(NatToDecimal(n), w)
    else "-" + ZeroPad(NatToDecimal(-n), if w > 0 then w - 1 else 0)
  }

  lemma DigitsAppend(a: string, b: string)
    requires IsDigits(a) && IsDigits(b)
    ensures IsDigits(a + b)
  {
    forall i | 0 <= i < |a + b| ensures IsDigit((a + b)[i]) {
      if i < |a| { assert (a + b)[i] == a[i]; } else { assert (a + b)[i] == b[i - |a|]; }
    }
  }

  /** Appending one digit d to a number written as x * p + v multiplies it by
      ten: (x * p + v) * 10 + d = x * (10 * p) + (v * 10 + d). */
  lemma ShiftDigit(x: int, p: int, v: int, d: int, total: int, shifted: int, tail: int)
    requires total == (x * p + v) * 10 + d && shifted == 10 * p && tail == v * 10 + d
    ensures total == x * shifted + tail
  {
  }

  /** The value of a concatenation of digit strings. */
  lemma {:induction false} DecimalValueAppend(a: string, b: string)
    requires IsDigits(a) && IsDigits(b)
    ensures IsDigits(a + b)
    ensures DecimalValue(a + b) == DecimalValue(a) * Pow10(|b|) + DecimalValue(b)
  {
    DigitsAppend(a, b);
    if b == [] {
      assert a + b == a;
    } else {
      var b' := b[..|b| - 1];
      assert IsDigits(b') by {
        forall i | 0 <= i < |b'| ensures IsDigit(b'[i]) { assert b'[i] == b[i]; }
      }
      DigitsAppend(a, b');
      assert (a + b)[..|a + b| - 1] == a + b';
      DecimalValueAppend(a, b');
      var d := b[|b| - 1] as int - '0' as int;
      assert (a + b)[|a + b| - 1] == b[|b| - 1];
      assert DecimalValue(a + b) == DecimalValue(a + b') * 10 + d;
      assert DecimalValue(b) == DecimalValue(b') * 10 + d;
      ShiftDigit(DecimalValue(a), Pow10(|b'|), DecimalValue(b'), d,
                 DecimalValue(a + b), Pow10(|b|), DecimalValue(b));
    }
  }

  lemma {:induction false} ZerosValue(k: nat)
    ensures DecimalValue(Zeros(k)) == 0
  {
    if k > 0 {
      ZerosValue(k - 1);
      assert Zeros(k)[..k - 1] == Zeros(k - 1);
    }
  }

  /** Padding with zeros does not change the number denoted. */
  lemma ZeroPadValue(s: string, w: nat)
    requires IsDigits(s)
    ensures DecimalValue(ZeroPad(s, w)) == DecimalValue(s)
  {
    if |s| < w {
      var z := Zeros(w - |s|);
      ZerosValue(w - |s|);
      DecimalValueAppend(z, s);
      assert ZeroPad(s, w) == z + s;
      assert DecimalValue(z + s) == 0 * Pow10(|s|) + DecimalValue(s);
    }
  }

  /** For 0 <= n < 10^w, `%0wd` writes exactly `w` digits that denote `n`. */
  lemma FormatZeroPaddedDigits(n: int, w: nat)
    requires w >= 1 && 0 <= n < Pow10(w)
    ensures var s := FormatZeroPadded(n, w); |s| == w && IsDigits(s) && DecimalValue(s) == n
  {
    NatToDecimalAtMost(n, w);
    NatToDecimalRoundTrip(n);
    ZeroPadValue(NatToDecimal(n), w);
  }

  // ----- String.trim() -----

  /** The characters `trim()` removes: every code unit up to U+0020. */
  predicate IsTrimmable(c: char) {
    c <= ' '
  }

  predicate IsBlank(s: string) {
    forall i :: 0 <= i < |s| ==> IsTrimmable(s[i])
  }

  function TrimStart(s: string): string {
    if |s| > 0 && IsTrimmable(s[0]) then TrimStart(s[1..]) else s
  }

  function TrimEnd(s: string): string {
    if |s| > 0 && IsTrimmable(s[|s| - 1]) then TrimEnd(s[..|s| - 1]) else s
  }

  /** `s.trim()`: drops leading, then trailing, characters up to U+0020. */
  function Trim(s: string): string {
    TrimEnd(TrimStart(s))
  }

  lemma {:induction false} TrimStartEmpty(s: string)
    ensures TrimStart(s) == [] <==> IsBlank(s)
    ensures TrimStart(s) != [] ==> !IsTrimmable(TrimStart(s)[0])
  {
    if |s| > 0 && IsTrimmable(s[0]) {
      TrimStartEmpty(s[1..]);
      assert IsBlank(s) <==> IsBlank(s[1..]) by {
        if IsBlank(s[1..]) {
          forall i | 0 <= i < |s| ensures IsTrimmable(s[i]) { if i > 0 { assert s[i] == s[1..][i - 1]; } }
        }
      }
    }
  }

  lemma {:induction false} TrimEndKeepsFirst(s: string)
    requires |s| > 0 && !IsTrimmable(s[0])
    ensures TrimEnd(s) != []
  {
    if |s| > 1 && IsTrimmable(s[|s| - 1]) {
      TrimEndKeepsFirst(s[..|s| - 1]);
    }
  }

  /** `s.trim().isEmpty()` holds exactly when every character of `s` is at
      most U+0020. */
  lemma TrimEmptyIffBlank(s: string)
    ensures Trim(s) == [] <==> IsBlank(s)
  {
    TrimStartEmpty(s);
    if TrimStart(s) != [] {
      TrimEndKeepsFirst(TrimStart(s));
    }
  }

  // ----- String.toLowerCase() -----

  /** The lower-case form of one character, for every character whose
      lower-case form is an ASCII letter: 'A'..'Z' and KELVIN SIGN (U+212A,
      which lower-cases to 'k'). Every other character is kept. */
  function LowerChar(c: char): char {
    if 'A' <= c <= 'Z' then (c as int + 32) as char
    else if c == '\U{212A}' then 'k'
    else c
  }

  function ToLowerCase(s: string): (r: string)
    ensures |r| == |s|
    ensures forall i :: 0 <= i < |s| ==> r[i] == LowerChar(s[i])
  {
    if s == [] then [] else [LowerChar(s[0])] + ToLowerCase(s[1..])
  }
}
