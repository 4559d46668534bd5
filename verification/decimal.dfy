/**
 * Decimal rendering of non-negative integers, as Java's `Integer.toString`
 * and `String.format("%03d", n)` produce it, and its inverse. The inverse
 * exists only to prove that zero-padded ids never collide.
 */
module Decimal {

  function DigitChar(d: nat): (c: char)
    requires d < 10
    ensures '0' <= c <= '9'
  {
    (48 + d) as char
  }

  function DigitValue(c: char): nat {
    if '0' <= c <= '9' then c as int - 48 else 0
  }

  predicate IsDigits(s: string) {
    forall i | 0 <= i < |s| :: '0' <= s[i] <= '9'
  }

  /**
   * The shape of a number rendered at a minimum width: decimal digits, at
   * least `width` of them, and a leading zero only where the width needs it.
   */
  predicate IsPadded(s: string, width: nat) {
    IsDigits(s) && width <= |s| && (|s| > width ==> s[0] != '0')
  }

  /** `Integer.toString(n)` for n >= 0: no sign, no leading zero. */
  function Digits(n: nat): (s: string)
    ensures IsPadded(s, 1)
  {
    if n < 10 then [DigitChar(n)] else Digits(n / 10) + [DigitChar(n % 10)]
  }

  function Zeros(k: nat): (s: string)
    ensures |s| == k && IsDigits(s)
  {
    if k == 0 then [] else ['0'] + Zeros(k - 1)
  }

  /** `String.format("%03d", n)`: at least three digits, left-padded with zeros. */
  function Pad3(n: nat): (s: string)
    ensures IsPadded(s, 3)
  {
    var d := Digits(n);
    if |d| >= 3 then d else Zeros(3 - |d|) + d
  }

  /** A single digit is padded with two zeros. */
  lemma Pad3OneDigit(n: nat)
    requires n < 10
    ensures Pad3(n) == ['0', '0', DigitChar(n)]
  {
    assert Digits(n) == [DigitChar(n)];
    assert Zeros(2) == ['0'] + Zeros(1) && Zeros(1) == ['0'] + Zeros(0) && Zeros(0) == [];
  }

  /** The number a string of decimal digits denotes. */
  function Value(s: string): nat {
    if s == [] then 0 else Value(s[..|s| - 1]) * 10 + DigitValue(s[|s| - 1])
  }

  lemma {:induction false} ValueOfDigits(n: nat)
    ensures Value(Digits(n)) == n
  {
    var s := Digits(n);
    if n >= 10 {
      assert s[..|s| - 1] == Digits(n / 10);
      ValueOfDigits(n / 10);
    }
  }

  lemma {:induction false} ValueLeadingZero(s: string)
    ensures Value(['0'] + s) == Value(s)
    decreases |s|
  {
    if s != [] {
      var t := ['0'] + s;
      assert t[..|t| - 1] == ['0'] + s[..|s| - 1];
      assert t[|t| - 1] == s[|s| - 1];
      ValueLeadingZero(s[..|s| - 1]);
    }
  }

  lemma {:induction false} ValueLeadingZeros(k: nat, s: string)
    ensures Value(Zeros(k) + s) == Value(s)
  {
    if k > 0 {
      assert Zeros(k) + s == ['0'] + (Zeros(k - 1) + s);
      ValueLeadingZero(Zeros(k - 1) + s);
      ValueLeadingZeros(k - 1, s);
    } else {
      assert Zeros(k) + s == s;
    }
  }

  /** Reading a padded number back gives the number: padding loses nothing. */
  lemma Pad3Value(n: nat)
    ensures Value(Pad3(n)) == n
  {
    var d := Digits(n);
    ValueOfDigits(n);
    if |d| < 3 {
      ValueLeadingZeros(3 - |d|, d);
    }
  }

  function Pow10(k: nat): (p: nat)
    ensures p >= 1
  {
    if k == 0 then 1 else 10 * Pow10(k - 1)
  }

  lemma {:induction false} Pow10Monotone(j: nat, k: nat)
    requires j <= k
    ensures Pow10(j) <= Pow10(k)
    decreases k
  {
    if j < k {
      Pow10Monotone(j, k - 1);
    }
  }

  lemma {:induction false} ValueBelow(s: string)
    requires IsDigits(s)
    ensures Value(s) < Pow10(|s|)
    decreases |s|
  {
    if s != [] {
      var init := s[..|s| - 1];
      assert IsDigits(init) by {
        forall i | 0 <= i < |init| ensures '0' <= init[i] <= '9' {
          assert init[i] == s[i];
        }
      }
      ValueBelow(init);
      assert DigitValue(s[|s| - 1]) <= 9;
      assert Value(s) <= (Pow10(|init|) - 1) * 10 + 9;
    }
  }

  /** A digit string without a leading zero is at least 10^(length - 1). */
  lemma {:induction false} ValueAtLeast(s: string)
    requires IsDigits(s) && |s| >= 1 && s[0] != '0'
    ensures Value(s) >= Pow10(|s| - 1)
    decreases |s|
  {
    var init := s[..|s| - 1];
    if |s| == 1 {
      assert init == [];
      assert DigitValue(s[0]) >= 1;
    } else {
      assert IsDigits(init) by {
        forall i | 0 <= i < |init| ensures '0' <= init[i] <= '9' {
          assert init[i] == s[i];
        }
      }
      assert init[0] == s[0];
      ValueAtLeast(init);
      assert Value(s) >= Value(init) * 10;
    }
  }

  /** A number determines its last decimal digit and the number before it. */
  lemma LastDigitUnique(x: nat, a: nat, y: nat, b: nat)
    requires a < 10 && b < 10 && x * 10 + a == y * 10 + b
    ensures x == y && a == b
  {
  }

  /** Two digit strings of one length with one value are the same string. */
  lemma {:induction false} ValueInjectiveSameLength(s: string, t: string)
    requires IsDigits(s) && IsDigits(t) && |s| == |t| && Value(s) == Value(t)
    ensures s == t
    decreases |s|
  {
    if s != [] {
      var si, ti := s[..|s| - 1], t[..|t| - 1];
      var a, b := DigitValue(s[|s| - 1]), DigitValue(t[|t| - 1]);
      assert IsDigits(si) by {
        forall i | 0 <= i < |si| ensures '0' <= si[i] <= '9' {
          assert si[i] == s[i];
        }
      }
      assert IsDigits(ti) by {
        forall i | 0 <= i < |ti| ensures '0' <= ti[i] <= '9' {
          assert ti[i] == t[i];
        }
      }
      LastDigitUnique(Value(si), a, Value(ti), b);
      ValueInjectiveSameLength(si, ti);
      assert s == si + [s[|s| - 1]] && t == ti + [t[|t| - 1]];
    }
  }

  /**
   * At a fixed minimum width, a number has exactly one padded rendering:
   * a longer string without its leading zero is worth more than any
   * shorter one.
   */
  lemma {:induction false} PaddedUnique(width: nat, s: string, t: string)
    requires width >= 1 && IsPadded(s, width) && IsPadded(t, width) && Value(s) == Value(t)
    ensures s == t
  {
    if |s| < |t| {
      ValueBelow(s);
      ValueAtLeast(t);
      Pow10Monotone(|s|, |t| - 1);
    } else if |t| < |s| {
      ValueBelow(t);
      ValueAtLeast(s);
      Pow10Monotone(|t|, |s| - 1);
    } else {
      ValueInjectiveSameLength(s, t);
    }
  }

  /** `Integer.toString(n)` is the only digit string without a leading zero worth n. */
  lemma DigitsExact(n: nat, t: string)
    requires IsPadded(t, 1) && Value(t) == n
    ensures t == Digits(n)
  {
    ValueOfDigits(n);
    PaddedUnique(1, t, Digits(n));
  }

  /** `%03d` of n is the only three-or-more digit string, zero-led only at width three, worth n. */
  lemma Pad3Exact(n: nat, t: string)
    requires IsPadded(t, 3) && Value(t) == n
    ensures t == Pad3(n)
  {
    Pad3Value(n);
    PaddedUnique(3, t, Pad3(n));
  }

  /** Distinct numbers have distinct padded renderings. */
  lemma Pad3Injective(a: nat, b: nat)
    ensures Pad3(a) == Pad3(b) ==> a == b
  {
    Pad3Value(a);
    Pad3Value(b);
  }

  /** A fixed prefix followed by a padded number still determines the number. */
  lemma PrefixedPad3Injective(prefix: string, a: nat, b: nat)
    ensures prefix + Pad3(a) == prefix + Pad3(b) ==> a == b
  {
    if prefix + Pad3(a) == prefix + Pad3(b) {
      assert Pad3(a) == (prefix + Pad3(a))[|prefix|..];
      assert Pad3(b) == (prefix + Pad3(b))[|prefix|..];
      Pad3Injective(a, b);
    }
  }
}
