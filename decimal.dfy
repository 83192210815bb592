/**
 * Decimal rendering of natural numbers, with the zero padding that
 * printf-style formats such as `%06.3f` apply, and the reading back of
 * digit strings that shows the rendering loses nothing.
 */
module Decimal {

  predicate IsDigit(c: char)
  {
    '0' <= c <= '9'
  }

  predicate AllDigits(s: string)
  {
    forall i :: 0 <= i < |s| ==> IsDigit(s[i])
  }

  function DigitChar(d: nat): (c: char)
    requires d < 10
    ensures IsDigit(c) && (c as int) - ('0' as int) == d
  {
    "0123456789"[d]
  }

  /** The shortest decimal rendering of `n`, as Python's `str(n)`. */
  function NatToDecimal(n: nat): string
  {
    if n < 10 then [DigitChar(n)] else NatToDecimal(n / 10) + [DigitChar(n % 10)]
  }

  /** The number a string of digits denotes. */
  function DecimalValue(s: string): nat
    requires AllDigits(s)
  {
    if s == [] then 0
    else DecimalValue(s[..|s| - 1]) * 10 + ((s[|s| - 1] as int) - ('0' as int))
  }

  /** `s` widened to `width` characters with leading zeros. */
  function ZeroPad(s: string, width: nat): (r: string)
  {
    if |s| >= width then s else seq(width - |s|, _ => '0') + s
  }

  /** `n` rendered in exactly `width` digits, as a `%0<width>d` format does for small `n`. */
  function Fixed(n: nat, width: nat): string
  {
    ZeroPad(NatToDecimal(n), width)
  }

  /** A decimal numeral without superfluous leading zeros, as `str(n)` writes it. */
  predicate Canonical(s: string)
  {
    AllDigits(s) && |s| >= 1 && (|s| == 1 || s[0] != '0')
  }

  function Pow10(k: nat): nat
  {
    if k == 0 then 1 else 10 * Pow10(k - 1)
  }

  lemma {:induction false} NatToDecimalRoundTrip(n: nat)
    ensures AllDigits(NatToDecimal(n)) && |NatToDecimal(n)| >= 1
    ensures DecimalValue(NatToDecimal(n)) == n
  {
    if n >= 10 {
      NatToDecimalRoundTrip(n / 10);
      var s := NatToDecimal(n);
      assert s[..|s| - 1] == NatToDecimal(n / 10);
    }
  }

  lemma {:induction false} NatToDecimalLength(n: nat, k: nat)
    requires 1 <= k && n < Pow10(k)
    ensures |NatToDecimal(n)| <= k
  {
    if n >= 10 {
      NatToDecimalLength(n / 10, k - 1);
    }
  }

  lemma {:induction false} LeadingZeros(z: nat, s: string)
    requires AllDigits(s)
    ensures AllDigits(seq(z, _ => '0') + s)
    ensures DecimalValue(seq(z, _ => '0') + s) == DecimalValue(s)
  {
    var t := seq(z, _ => '0') + s;
    if s == [] {
      ZerosValue(z);
      assert t == seq(z, _ => '0');
    } else {
      LeadingZeros(z, s[..|s| - 1]);
      assert t[..|t| - 1] == seq(z, _ => '0') + s[..|s| - 1];
    }
  }

  lemma {:induction false} ZerosValue(z: nat)
    ensures AllDigits(seq(z, _ => '0'))
    ensures DecimalValue(seq(z, _ => '0')) == 0
  {
    if z > 0 {
      ZerosValue(z - 1);
      assert seq(z, _ => '0')[..z - 1] == seq(z - 1, _ => '0');
    }
  }

  /** A fixed-width field holds exactly `width` digits and reads back as `n`. */
  lemma FixedRoundTrip(n: nat, width: nat)
    requires 1 <= width && n < Pow10(width)
    ensures |Fixed(n, width)| == width && AllDigits(Fixed(n, width))
    ensures DecimalValue(Fixed(n, width)) == n
  {
    NatToDecimalRoundTrip(n);
    NatToDecimalLength(n, width);
    var s := NatToDecimal(n);
    LeadingZeros(width - |s|, s);
    var padded := seq(width - |s|, _ => '0') + s;
    if |s| == width {
      assert padded == s;
    }
    assert Fixed(n, width) == padded;
  }

  /** `str(n)` never has a leading zero. */
  lemma {:induction false} NatToDecimalCanonical(n: nat)
    ensures Canonical(NatToDecimal(n))
  {
    NatToDecimalRoundTrip(n);
    if n >= 10 {
      NatToDecimalCanonical(n / 10);
      var prefix := NatToDecimal(n / 10);
      assert NatToDecimal(n)[0] == prefix[0];
      if n / 10 < 10 {
        assert prefix == [DigitChar(n / 10)];
      } else {
        NatToDecimalRoundTrip(n / 100);
        assert prefix == NatToDecimal(n / 10 / 10) + [DigitChar(n / 10 % 10)];
      }
    }
  }

  /** `k` digits denote less than `10^k`. */
  lemma {:induction false} DecimalValueBound(s: string)
    requires AllDigits(s)
    ensures DecimalValue(s) < Pow10(|s|)
  {
    if s != [] {
      var init := s[..|s| - 1];
      DecimalValueBound(init);
      var d := (s[|s| - 1] as int) - ('0' as int);
      assert DecimalValue(s) == DecimalValue(init) * 10 + d;
      assert DecimalValue(init) * 10 <= (Pow10(|init|) - 1) * 10;
    }
  }

  /** Two digit strings of one length with one value are the same string. */
  lemma {:induction false} SameLengthSameValue(s: string, t: string)
    requires AllDigits(s) && AllDigits(t) && |s| == |t|
    requires DecimalValue(s) == DecimalValue(t)
    ensures s == t
  {
    if s != [] {
      var si, ti := s[..|s| - 1], t[..|t| - 1];
      var ds := (s[|s| - 1] as int) - ('0' as int);
      var dt := (t[|t| - 1] as int) - ('0' as int);
      assert DecimalValue(si) * 10 + ds == DecimalValue(ti) * 10 + dt;
      assert (DecimalValue(si) - DecimalValue(ti)) * 10 == dt - ds;
      assert DecimalValue(si) == DecimalValue(ti);
      SameLengthSameValue(si, ti);
      assert s[|s| - 1] == t[|t| - 1];
      assert s == si + [s[|s| - 1]] && t == ti + [t[|t| - 1]];
    }
  }

  /** A numeral that does not start with '0' denotes a positive number. */
  lemma {:induction false} LeadNonZero(s: string)
    requires AllDigits(s) && |s| >= 1 && s[0] != '0'
    ensures DecimalValue(s) >= 1
  {
    var init := s[..|s| - 1];
    if |s| > 1 {
      assert init[0] == s[0];
      LeadNonZero(init);
    } else {
      assert init == [];
    }
  }

  /** A canonical numeral is the rendering of the number it denotes. */
  lemma {:induction false} CanonicalIsNatToDecimal(s: string)
    requires Canonical(s)
    ensures NatToDecimal(DecimalValue(s)) == s
  {
    var init := s[..|s| - 1];
    var d := (s[|s| - 1] as int) - ('0' as int);
    var n := DecimalValue(s);
    if |s| == 1 {
      assert init == [];
      assert n == DecimalValue(init) * 10 + d;
      assert DigitChar(n) == s[0];
    } else {
      assert init[0] == s[0];
      LeadNonZero(init);
      CanonicalIsNatToDecimal(init);
      assert n == DecimalValue(init) * 10 + d;
      assert n / 10 == DecimalValue(init) && n % 10 == d;
      assert DigitChar(n % 10) == s[|s| - 1];
      assert s == init + [s[|s| - 1]];
    }
  }
}
