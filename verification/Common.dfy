/** The conventional optional value, used where the source has null or undefined. */
module Options {
  datatype Option<+T> = None | Some(value: T)
}

/** Values the program only stores and compares. */
module Names {
  /** A generated identifier: the 128-bit number that a ULID text encodes. */
  type Id = nat

  /** A customer, account, idempotency key, request hash or code: opaque text. */
  type Token(==, !new)

  datatype Currency = USD | Other(code: Token)
}

/** Identifiers that are fresh for a finite set: what a ULID generator or a clock supplies. */
module FreshNames {
  lemma {:induction false} FreshNat(used: set<nat>) returns (n: nat)
    ensures forall x | x in used :: x < n
    decreases used
  {
    if used == {} {
      n := 0;
    } else {
      var u :| u in used;
      var m := FreshNat(used - {u});
      n := if m > u then m else u + 1;
      assert forall x | x in used :: x == u || x in used - {u};
    }
  }
}

/** Decimal numerals: what `Number(text)` reads and what `String(n)` writes for a natural number. */
module Decimals {
  predicate IsDigit(c: char) {
    '0' <= c <= '9'
  }

  predicate AllDigits(s: string) {
    forall i | 0 <= i < |s| :: IsDigit(s[i])
  }

  function DigitValue(c: char): (d: nat)
    requires IsDigit(c)
    ensures d < 10
  {
    (c as int) - ('0' as int)
  }

  function Digit(d: nat): (c: char)
    requires d < 10
    ensures IsDigit(c) && DigitValue(c) == d
  {
    (('0' as int) + d) as char
  }

  function Value(s: string): nat
    requires AllDigits(s)
  {
    if s == "" then 0 else 10 * Value(s[..|s| - 1]) + DigitValue(s[|s| - 1])
  }

  function Decimal(n: nat): (s: string)
    ensures s != "" && AllDigits(s)
    ensures |s| > 1 ==> s[0] != '0'
    ensures n != 0 ==> s[0] != '0'
  {
    if n < 10 then [Digit(n)] else Decimal(n / 10) + [Digit(n % 10)]
  }

  /** Drops leading zeros but keeps at least one digit. */
  function StripZeros(s: string): string {
    if |s| > 1 && s[0] == '0' then StripZeros(s[1..]) else s
  }

  lemma {:induction false} ValueOfDecimal(n: nat)
    ensures Value(Decimal(n)) == n
  {
    if n >= 10 {
      ValueOfDecimal(n / 10);
      assert Decimal(n)[..|Decimal(n)| - 1] == Decimal(n / 10);
    } else {
      assert Decimal(n)[..0] == "";
    }
  }

  lemma {:induction false} DecimalInjective(m: nat, n: nat)
    requires Decimal(m) == Decimal(n)
    ensures m == n
  {
    ValueOfDecimal(m);
    ValueOfDecimal(n);
  }

  /** A numeral without superfluous zeros is the one printed for its value. */
  lemma {:induction false} DecimalOfValue(s: string)
    requires s != "" && AllDigits(s) && (|s| > 1 ==> s[0] != '0')
    ensures Decimal(Value(s)) == s
  {
    var init := s[..|s| - 1];
    if |s| == 1 {
      assert Value(init) == 0;
    } else {
      DecimalOfValue(init);
      ValueOfDecimal(Value(init));
      assert Value(init) != 0;
      assert s == init + [s[|s| - 1]];
    }
  }

  lemma {:induction false} ValueIgnoresLeadingZero(s: string)
    requires s != "" && AllDigits(s) && s[0] == '0'
    ensures Value(s) == Value(s[1..])
  {
    if |s| > 1 {
      var init := s[..|s| - 1];
      ValueIgnoresLeadingZero(init);
      assert s[1..][..|s| - 2] == init[1..];
    } else {
      assert s[..0] == "";
    }
  }

  lemma {:induction false} StripZerosKeepsValue(s: string)
    requires s != "" && AllDigits(s)
    ensures StripZeros(s) != "" && AllDigits(StripZeros(s))
    ensures |StripZeros(s)| > 1 ==> StripZeros(s)[0] != '0'
    ensures Value(StripZeros(s)) == Value(s)
    decreases |s|
  {
    if |s| > 1 && s[0] == '0' {
      ValueIgnoresLeadingZero(s);
      StripZerosKeepsValue(s[1..]);
    }
  }

  /** Reading a numeral and printing it again removes exactly the superfluous zeros. */
  lemma {:induction false} DecimalOfValueIsStripped(s: string)
    requires s != "" && AllDigits(s)
    ensures Decimal(Value(s)) == StripZeros(s)
  {
    StripZerosKeepsValue(s);
    DecimalOfValue(StripZeros(s));
  }

  function Pow10(k: nat): (p: nat)
    ensures p >= 1
  {
    if k == 0 then 1 else 10 * Pow10(k - 1)
  }

  lemma {:induction false} DecimalLength(n: nat, k: nat)
    requires k >= 1 && n < Pow10(k)
    ensures |Decimal(n)| <= k
  {
    if n >= 10 {
      assert Pow10(1) == 10;
      DecimalLength(n / 10, k - 1);
    }
  }
}

module Sequences {
  ghost predicate Distinct<T>(xs: seq<T>) {
    forall i, j | 0 <= i < j < |xs| :: xs[i] != xs[j]
  }
}
