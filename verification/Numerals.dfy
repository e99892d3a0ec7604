/** Positional numerals: the digits of a number and the number digits stand for.
    Decimal numerals appear in `Content-Length` headers and injected ids,
    hexadecimal ones in socket names. */
module Numerals {
  import opened Prelude

  lemma DivShrinks(n: nat, base: nat)
    requires base >= 2
    ensures n >= base ==> n / base < n
  {
    var q := n / base;
    assert n == q * base + n % base;
    if n >= base {
      assert q * base >= q * 2;
    }
  }

  /** The digits of `n`, most significant first, without leading zeros. */
  function Digits(n: nat, base: nat): (digits: seq<nat>)
    requires base >= 2
    ensures |digits| >= 1
    ensures forall i :: 0 <= i < |digits| ==> digits[i] < base
    decreases n
  {
    DivShrinks(n, base);
    if n < base then [n] else Digits(n / base, base) + [n % base]
  }

  function Value(digits: seq<nat>, base: nat): nat {
    if digits == [] then 0
    else Value(digits[..|digits| - 1], base) * base + digits[|digits| - 1]
  }

  lemma DivMod(n: nat, base: nat)
    requires base >= 1
    ensures n / base * base + n % base == n
  {
  }

  /** The last digit carries the units, the others the rest. */
  lemma ValueOfSnoc(digits: seq<nat>, d: nat, base: nat)
    ensures Value([], base) == 0
    ensures Value(digits + [d], base) == Value(digits, base) * base + d
  {
    assert (digits + [d])[..|digits|] == digits;
  }

  lemma DigitsUnfold(n: nat, base: nat)
    requires base >= 2
    ensures n < base ==> Digits(n, base) == [] + [n]
    ensures n >= base ==> Digits(n, base) == Digits(n / base, base) + [n % base]
  {
  }

  /** Printing then reading gives the number back. */
  lemma {:induction false} ValueOfDigits(n: nat, base: nat)
    requires base >= 2
    ensures Value(Digits(n, base), base) == n
    decreases n
  {
    hide Digits, Value;
    DigitsUnfold(n, base);
    if n < base {
      ValueOfSnoc([], n, base);
    } else {
      ValueOfDigits(n / base, base);
      ValueOfSnoc(Digits(n / base, base), n % base, base);
      DivMod(n, base);
    }
  }

  /** A numeral padded with zeros on the left to a fixed width. */
  function Padded(n: nat, base: nat, width: nat): (digits: seq<nat>)
    requires base >= 2
    ensures |digits| >= width && forall i :: 0 <= i < |digits| ==> digits[i] < base
  {
    var digits := Digits(n, base);
    if |digits| >= width then digits else seq(width - |digits|, _ => 0) + digits
  }

  lemma {:induction false} ValueIgnoresLeadingZeros(k: nat, digits: seq<nat>, base: nat)
    ensures Value(seq(k, _ => 0) + digits, base) == Value(digits, base)
    decreases k + |digits|
  {
    var all := seq(k, _ => 0) + digits;
    if digits != [] {
      assert all[..|all| - 1] == seq(k, _ => 0) + digits[..|digits| - 1];
      ValueIgnoresLeadingZeros(k, digits[..|digits| - 1], base);
    } else if k > 0 {
      assert all[..|all| - 1] == seq(k - 1, _ => 0) + digits;
      ValueIgnoresLeadingZeros(k - 1, digits, base);
    }
  }

  lemma ValueOfPadded(n: nat, base: nat, width: nat)
    requires base >= 2
    ensures Value(Padded(n, base, width), base) == n
  {
    var digits := Digits(n, base);
    ValueOfDigits(n, base);
    if |digits| < width {
      ValueIgnoresLeadingZeros(width - |digits|, digits, base);
    }
  }

  /** The character a digit is printed as, for any base up to sixteen. */
  function DigitChar(d: nat): char
    requires d < 16
  {
    "0123456789abcdef"[d]
  }

  function Text(digits: seq<nat>): (s: string)
    requires forall i :: 0 <= i < |digits| ==> digits[i] < 16
    ensures |s| == |digits|
    ensures forall i :: 0 <= i < |digits| ==> s[i] == DigitChar(digits[i])
  {
    seq(|digits|, i requires 0 <= i < |digits| => DigitChar(digits[i]))
  }

  lemma TextInjective(a: seq<nat>, b: seq<nat>)
    requires forall i :: 0 <= i < |a| ==> a[i] < 16
    requires forall i :: 0 <= i < |b| ==> b[i] < 16
    requires Text(a) == Text(b)
    ensures a == b
  {
    assert forall d, e | 0 <= d < 16 && 0 <= e < 16 :: DigitChar(d) == DigitChar(e) ==> d == e;
    forall i | 0 <= i < |a| ensures a[i] == b[i] {
      assert Text(a)[i] == Text(b)[i];
    }
  }

  /** The decimal numeral of `n` as text. */
  function Decimal(n: nat): string {
    Text(Digits(n, 10))
  }

  lemma DecimalInjective(a: nat, b: nat)
    ensures Decimal(a) == Decimal(b) <==> a == b
  {
    if Decimal(a) == Decimal(b) {
      TextInjective(Digits(a, 10), Digits(b, 10));
      ValueOfDigits(a, 10);
      ValueOfDigits(b, 10);
    }
  }

  lemma {:induction false} NoLeadingZero(n: nat, base: nat)
    requires base >= 2
    ensures n > 0 ==> Digits(n, base)[0] != 0
    decreases n
  {
    DivShrinks(n, base);
    if n >= base {
      DivMod(n, base);
      NoLeadingZero(n / base, base);
    }
  }

  /** A decimal numeral is written with the ten digits, is worth its number, and has no
      leading zero. */
  lemma DecimalExactly(n: nat)
    ensures
      var s := Decimal(n);
      && |s| > 0 && (forall i :: 0 <= i < |s| ==> '0' <= s[i] <= '9')
      && Value(seq(|s|, i requires 0 <= i < |s| => (s[i] - '0') as nat), 10) == n
      && (s[0] == '0' ==> s == "0")
  {
    var digits, s := Digits(n, 10), Decimal(n);
    assert forall d | 0 <= d < 10 :: '0' <= DigitChar(d) <= '9' && (DigitChar(d) - '0') as nat == d;
    assert seq(|s|, i requires 0 <= i < |s| => (s[i] - '0') as nat) == digits;
    ValueOfDigits(n, 10);
    NoLeadingZero(n, 10);
  }
}
