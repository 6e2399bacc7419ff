/** Money as a whole number of cents. The request layer accepts amounts that
    match ^\d+(\.\d{1,2})?$ (ParseAmount reads one into cents); a stored
    Decimal128 prints with the scale it was written with (FormatDecimal), and
    every balance leaves the balance arithmetic through toFixed(2)
    (FormatCents). Printing and parsing are inverse on non-negative amounts. */
module Money {
  import opened Common

  predicate IsDigit(c: char) { '0' <= c <= '9' }

  predicate AllDigits(s: string) {
    forall k :: 0 <= k < |s| ==> IsDigit(s[k])
  }

  function DigitValue(c: char): nat
    requires IsDigit(c)
  {
    c as int - '0' as int
  }

  function DigitChar(d: nat): (c: char)
    requires d < 10
    ensures IsDigit(c) && DigitValue(c) == d
  {
    ('0' as int + d) as char
  }

  /** The number a string of decimal digits denotes. */
  function DigitsValue(s: string): nat
    requires AllDigits(s)
  {
    if s == [] then 0 else DigitsValue(s[..|s| - 1]) * 10 + DigitValue(s[|s| - 1])
  }

  function Pow10(k: nat): (p: nat)
    ensures p >= 1
  {
    if k == 0 then 1 else 10 * Pow10(k - 1)
  }

  /** Number.prototype.toString() of a non-negative integer. */
  function NatToDecimal(n: nat): (s: string)
    ensures |s| >= 1 && AllDigits(s)
  {
    if n < 10 then [DigitChar(n)] else NatToDecimal(n / 10) + [DigitChar(n % 10)]
  }

  /** Reading back a rendered number gives the number. */
  lemma {:induction false} DecimalRoundTrip(n: nat)
    ensures DigitsValue(NatToDecimal(n)) == n
  {
    if n >= 10 {
      var s := NatToDecimal(n);
      assert s[..|s| - 1] == NatToDecimal(n / 10);
      DecimalRoundTrip(n / 10);
    }
  }

  /** A number below 10^k takes at most k digits. */
  lemma {:induction false} DecimalLength(n: nat, k: nat)
    requires 1 <= k && n < Pow10(k)
    ensures |NatToDecimal(n)| <= k
  {
    if n >= 10 {
      assert k >= 2;
      DecimalLength(n / 10, k - 1);
    }
  }

  /** The value of a concatenation of digit strings. */
  lemma {:induction false} DigitsValueAppend(a: string, b: string)
    requires AllDigits(a) && AllDigits(b)
    ensures AllDigits(a + b)
    ensures DigitsValue(a + b) == DigitsValue(a) * Pow10(|b|) + DigitsValue(b)
  {
    if b == [] {
      assert a + b == a;
    } else {
      var ab := a + b;
      var init := b[..|b| - 1];
      var d := DigitValue(b[|b| - 1]);
      assert ab[..|ab| - 1] == a + init;
      assert ab[|ab| - 1] == b[|b| - 1];
      DigitsValueAppend(a, init);
      assert Pow10(|b|) == Pow10(|init|) * 10;
      ShiftDigit(DigitsValue(a), Pow10(|init|), DigitsValue(init), d);
    }
  }

  /** The arithmetic step of DigitsValueAppend. */
  lemma ShiftDigit(x: int, p: int, y: int, d: int)
    ensures (x * p + y) * 10 + d == x * (p * 10) + (y * 10 + d)
  {
  }

  /** k copies of the character c. */
  function Repeat(c: char, k: nat): (r: string)
    ensures |r| == k && forall i :: 0 <= i < k ==> r[i] == c
  {
    if k == 0 then [] else [c] + Repeat(c, k - 1)
  }

  /** A run of zeros denotes zero. */
  lemma {:induction false} ZerosValue(k: nat)
    ensures AllDigits(Repeat('0', k)) && DigitsValue(Repeat('0', k)) == 0
  {
    if k > 0 {
      var z := Repeat('0', k);
      assert z[..k - 1] == Repeat('0', k - 1);
      ZerosValue(k - 1);
    }
  }

  /** String.prototype.padStart(width, c). */
  function PadStart(s: string, width: nat, c: char): (r: string)
    ensures |r| == if |s| >= width then |s| else width
  {
    if |s| >= width then s else Repeat(c, width - |s|) + s
  }

  /** Leading zeros do not change the number a digit string denotes. */
  lemma PadZerosValue(s: string, width: nat)
    requires AllDigits(s)
    ensures AllDigits(PadStart(s, width, '0'))
    ensures DigitsValue(PadStart(s, width, '0')) == DigitsValue(s)
  {
    if |s| < width {
      ZerosValue(width - |s|);
      DigitsValueAppend(Repeat('0', width - |s|), s);
    }
  }

  /** The position of the first c in s, or |s| when there is none. */
  function IndexOf(s: string, c: char): (k: nat)
    ensures k <= |s|
    ensures k < |s| ==> s[k] == c
    ensures forall j :: 0 <= j < k ==> s[j] != c
  {
    if s == [] then 0 else if s[0] == c then 0 else 1 + IndexOf(s[1..], c)
  }

  /** Reads an amount written as ^\d+(\.\d{1,2})?$ into cents; None for any
      other string. */
  function ParseAmount(s: string): (r: Option<int>)
    ensures r.Some? ==> r.value >= 0
    ensures r.Some? ==> |s| > 0 && IsDigit(s[0])
  {
    var k := IndexOf(s, '.');
    var whole := s[..k];
    if whole == [] || !AllDigits(whole) then None
    else if k == |s| then Some(DigitsValue(whole) * 100)
    else
      var fraction := s[k + 1..];
      if fraction == [] || |fraction| > 2 || !AllDigits(fraction) then None
      else if |fraction| == 1 then Some(DigitsValue(whole) * 100 + DigitValue(fraction[0]) * 10)
      else Some(DigitsValue(whole) * 100 + DigitsValue(fraction))
  }

  /** A request amount the controllers accept: well-formed and above zero. */
  function PositiveAmount(s: string): (r: Option<int>)
    ensures r.Some? <==> ParseAmount(s).Some? && ParseAmount(s).value > 0
    ensures r.Some? ==> r.value == ParseAmount(s).value
  {
    match ParseAmount(s)
    case None => None
    case Some(c) => if c > 0 then Some(c) else None
  }

  /** The number of fraction digits an amount is written with: none when
      it has no '.', otherwise everything after the first '.'. */
  function WrittenScale(s: string): nat {
    var k := IndexOf(s, '.');
    if k == |s| then 0 else |s| - k - 1
  }

  /** A non-negative amount of cents that `scale` fraction digits (0, 1 or 2)
      can hold exactly: the cents below that precision are zero. */
  predicate FitsScale(c: int, scale: nat) {
    c >= 0 && scale <= 2 && c % Pow10(2 - scale) == 0
  }

  /** Decimal128's toString() of a non-negative number of cents held with
      `scale` fraction digits: the whole part without leading zeros, then a
      '.' and as many fraction digits as the scale keeps. */
  function FormatScaled(n: nat, scale: nat): string {
    NatToDecimal(n / 100)
      + (if scale == 0 then ""
         else if scale == 1 then "." + [DigitChar(n % 100 / 10)]
         else "." + [DigitChar(n % 100 / 10), DigitChar(n % 10)])
  }

  /** Decimal128's toString() of a signed number of cents with a scale. */
  function FormatDecimal(c: int, scale: nat): string {
    if c < 0 then "-" + FormatScaled(-c, scale) else FormatScaled(c, scale)
  }

  /** (cents / 100).toFixed(2), as stored in a Decimal128 and printed back. */
  function FormatCents(c: int): string {
    FormatDecimal(c, 2)
  }

  /** The first '.' after a run of digits is the one that ends it. */
  lemma {:induction false} IndexOfAfterDigits(whole: string, rest: string)
    requires AllDigits(whole) && |rest| > 0 && rest[0] == '.'
    ensures IndexOf(whole + rest, '.') == |whole|
  {
    if whole != [] {
      assert (whole + rest)[1..] == whole[1..] + rest;
      IndexOfAfterDigits(whole[1..], rest);
    } else {
      assert whole + rest == rest;
    }
  }

  /** Two digits denote ten times the first plus the second. */
  lemma TwoDigitsValue(hi: nat, lo: nat)
    requires hi < 10 && lo < 10
    ensures DigitsValue([DigitChar(hi), DigitChar(lo)]) == hi * 10 + lo
  {
    var f := [DigitChar(hi), DigitChar(lo)];
    var g := [DigitChar(hi)];
    assert f[..|f| - 1] == g;
    assert g[..|g| - 1] == [];
    assert DigitsValue(g) == hi;
    assert DigitsValue(f) == DigitsValue(g) * 10 + DigitValue(f[1]);
  }

  /** The rendering of a non-negative amount parses back to the same amount. */
  lemma ParseFormatRoundTrip(c: int)
    requires c >= 0
    ensures ParseAmount(FormatCents(c)) == Some(c)
  {
    var whole := NatToDecimal(c / 100);
    var fraction := [DigitChar(c % 100 / 10), DigitChar(c % 10)];
    var s := FormatCents(c);
    assert s == whole + ("." + fraction);
    IndexOfAfterDigits(whole, "." + fraction);
    assert s[..|whole|] == whole;
    assert s[|whole| + 1..] == fraction;
    TwoDigitsValue(c % 100 / 10, c % 10);
    DecimalRoundTrip(c / 100);
  }

  /** deleteAccount's string test: the rendered balance is "0.00" exactly
      when the balance is zero. */
  lemma FormatIsZeroString(c: int)
    ensures FormatCents(c) == "0.00" <==> c == 0
  {
    if c == 0 {
      assert FormatCents(0) == "0.00";
    } else if c > 0 {
      ParseFormatRoundTrip(c);
      ParseFormatRoundTrip(0);
      assert FormatCents(0) == "0.00";
    } else {
      assert FormatCents(c)[0] == '-';
    }
  }

  /** The digit a digit character denotes is rendered as that character. */
  lemma DigitCharValue(c: char)
    requires IsDigit(c)
    ensures DigitChar(DigitValue(c)) == c
  {
  }

  /** A digit string that does not start with '0' denotes a positive number. */
  lemma {:induction false} PositiveDigits(w: string)
    requires AllDigits(w) && |w| >= 1 && w[0] != '0'
    ensures DigitsValue(w) > 0
  {
    if |w| > 1 {
      var p := w[..|w| - 1];
      assert p[0] == w[0];
      PositiveDigits(p);
    } else {
      assert w[..0] == [];
    }
  }

  /** A digit string without superfluous leading zeros: "0" or one that
      starts with 1-9. */
  predicate CanonicalDigits(w: string) {
    |w| == 1 || (|w| > 1 && w[0] != '0')
  }

  /** Rendering the number a canonical digit string denotes gives the string
      back. */
  lemma {:induction false} CanonicalDecimal(w: string)
    requires AllDigits(w) && CanonicalDigits(w)
    ensures NatToDecimal(DigitsValue(w)) == w
  {
    var d := DigitValue(w[|w| - 1]);
    var p := w[..|w| - 1];
    DigitCharValue(w[|w| - 1]);
    if |w| == 1 {
      assert p == [];
      assert w == [DigitChar(d)];
    } else {
      assert p[0] == w[0];
      CanonicalDecimal(p);
      PositiveDigits(p);
      var n := DigitsValue(w);
      assert n == DigitsValue(p) * 10 + d;
      assert n / 10 == DigitsValue(p) && n % 10 == d;
      assert w == p + [w[|w| - 1]];
    }
  }

  /** An amount written without leading zeros in its whole part. */
  predicate NoLeadingZeros(s: string) {
    CanonicalDigits(s[..IndexOf(s, '.')])
  }

  /** Every accepted amount fits the scale it was written with. */
  lemma ParsedScale(s: string)
    requires ParseAmount(s).Some?
    ensures FitsScale(ParseAmount(s).value, WrittenScale(s))
  {
    assert Pow10(1) == 10 && Pow10(2) == 100;
  }

  /** The whole part and the tenths of an amount of whole tenths. */
  lemma TenthsSplit(c: nat)
    requires c % 10 == 0
    ensures c == c / 100 * 100 + c % 100 / 10 * 10
  {
  }

  /** An amount printed with a scale it fits parses back to the same amount
      and shows that scale. */
  lemma ScaledRoundTrip(c: int, scale: nat)
    requires FitsScale(c, scale)
    ensures ParseAmount(FormatDecimal(c, scale)) == Some(c)
    ensures WrittenScale(FormatDecimal(c, scale)) == scale
  {
    DecimalRoundTrip(c / 100);
    if scale == 0 {
      WholeRoundTrip(c);
    } else if scale == 1 {
      TenthsRoundTrip(c);
    } else {
      HundredthsRoundTrip(c);
    }
  }

  /** ScaledRoundTrip for a whole amount printed without a fraction. */
  lemma WholeRoundTrip(c: int)
    requires FitsScale(c, 0) && DigitsValue(NatToDecimal(c / 100)) == c / 100
    ensures ParseAmount(FormatDecimal(c, 0)) == Some(c)
    ensures WrittenScale(FormatDecimal(c, 0)) == 0
  {
    var s := FormatDecimal(c, 0);
    assert s == NatToDecimal(c / 100);
    assert forall k :: 0 <= k < |s| ==> IsDigit(s[k]);
    assert s[..|s|] == s;
    assert Pow10(2) == 100;
  }

  /** ScaledRoundTrip for an amount printed with one fraction digit. */
  lemma TenthsRoundTrip(c: int)
    requires FitsScale(c, 1) && DigitsValue(NatToDecimal(c / 100)) == c / 100
    ensures ParseAmount(FormatDecimal(c, 1)) == Some(c)
    ensures WrittenScale(FormatDecimal(c, 1)) == 1
  {
    var whole := NatToDecimal(c / 100);
    var fraction := [DigitChar(c % 100 / 10)];
    var s := FormatDecimal(c, 1);
    assert s == whole + ("." + fraction);
    IndexOfAfterDigits(whole, "." + fraction);
    assert s[..|whole|] == whole;
    assert s[|whole| + 1..] == fraction;
    assert Pow10(1) == 10;
    TenthsSplit(c);
  }

  /** ScaledRoundTrip for an amount printed with two fraction digits. */
  lemma HundredthsRoundTrip(c: int)
    requires FitsScale(c, 2)
    ensures ParseAmount(FormatDecimal(c, 2)) == Some(c)
    ensures WrittenScale(FormatDecimal(c, 2)) == 2
  {
    ParseFormatRoundTrip(c);
    var whole := NatToDecimal(c / 100);
    var fraction := [DigitChar(c % 100 / 10), DigitChar(c % 10)];
    var s := FormatDecimal(c, 2);
    assert s == whole + ("." + fraction);
    IndexOfAfterDigits(whole, "." + fraction);
  }

  /** Printing an accepted amount written without leading zeros, with the
      scale it was written with, gives back the written string: "10" stays
      "10", "5.5" stays "5.5", "0.25" stays "0.25". */
  lemma WrittenRoundTrip(s: string)
    requires ParseAmount(s).Some? && NoLeadingZeros(s)
    ensures FormatDecimal(ParseAmount(s).value, WrittenScale(s)) == s
  {
    var k := IndexOf(s, '.');
    var w := s[..k];
    CanonicalDecimal(w);
    if k == |s| {
      assert s == w;
    } else if |s| - k - 1 == 1 {
      WrittenTenths(s, k, w, s[k + 1..]);
    } else {
      WrittenHundredths(s, k, w, s[k + 1..]);
    }
  }

  /** The whole part, tenths and hundredths of a number of cents. */
  lemma CentsDigits(whole: nat, tenths: nat, hundredths: nat)
    requires tenths < 10 && hundredths < 10
    ensures (whole * 100 + tenths * 10 + hundredths) / 100 == whole
    ensures (whole * 100 + tenths * 10 + hundredths) % 100 / 10 == tenths
    ensures (whole * 100 + tenths * 10 + hundredths) % 10 == hundredths
  {
  }

  /** WrittenRoundTrip for an amount written with one fraction digit. */
  lemma WrittenTenths(s: string, k: nat, w: string, f: string)
    requires ParseAmount(s).Some? && k == IndexOf(s, '.') && k < |s|
    requires w == s[..k] && f == s[k + 1..] && |f| == 1
    requires NatToDecimal(DigitsValue(w)) == w
    ensures FormatDecimal(ParseAmount(s).value, WrittenScale(s)) == s
  {
    var c := ParseAmount(s).value;
    assert s == w + ("." + f);
    DigitCharValue(f[0]);
    CentsDigits(DigitsValue(w), DigitValue(f[0]), 0);
    assert f == [DigitChar(c % 100 / 10)];
  }

  /** The number a two-digit string denotes. */
  lemma TwoDigitString(f: string)
    requires |f| == 2 && AllDigits(f)
    ensures DigitsValue(f) == DigitValue(f[0]) * 10 + DigitValue(f[1])
  {
    var g := f[..1];
    assert f[..|f| - 1] == g && g[..0] == [] && g[0] == f[0];
    assert DigitsValue(g) == DigitsValue(g[..0]) * 10 + DigitValue(g[0]);
  }

  /** An accepted amount written with a fraction is its whole part in cents
      plus its fraction digits. */
  lemma ParsedParts(s: string, k: nat, w: string, f: string)
    requires ParseAmount(s).Some? && k == IndexOf(s, '.') && k < |s|
    requires w == s[..k] && f == s[k + 1..]
    ensures AllDigits(w) && AllDigits(f) && 1 <= |f| <= 2
    ensures |f| == 2 ==> ParseAmount(s).value == DigitsValue(w) * 100 + DigitsValue(f)
  {
  }

  /** Printing whole * 100 + hi * 10 + lo cents with two fraction digits. */
  lemma FormatHundredths(w: string, hi: nat, lo: nat)
    requires hi < 10 && lo < 10 && AllDigits(w) && NatToDecimal(DigitsValue(w)) == w
    ensures FormatDecimal(DigitsValue(w) * 100 + hi * 10 + lo, 2) == w + ("." + [DigitChar(hi), DigitChar(lo)])
  {
    CentsDigits(DigitsValue(w), hi, lo);
  }

  /** WrittenRoundTrip for an amount written with two fraction digits. */
  lemma WrittenHundredths(s: string, k: nat, w: string, f: string)
    requires ParseAmount(s).Some? && k == IndexOf(s, '.') && k < |s|
    requires w == s[..k] && f == s[k + 1..] && |f| == 2
    requires NatToDecimal(DigitsValue(w)) == w
    ensures FormatDecimal(ParseAmount(s).value, WrittenScale(s)) == s
  {
    ParsedParts(s, k, w, f);
    var hi, lo := DigitValue(f[0]), DigitValue(f[1]);
    TwoDigitString(f);
    assert ParseAmount(s).value == DigitsValue(w) * 100 + hi * 10 + lo;
    FormatHundredths(w, hi, lo);
    DigitCharValue(f[0]);
    DigitCharValue(f[1]);
    assert f == [DigitChar(hi), DigitChar(lo)];
    assert s == w + ("." + f);
  }
}
