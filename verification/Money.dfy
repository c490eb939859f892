/** Amounts: `convAmountToUnits` and `convUnitsToAmount` of packages/shared/src/index.ts. */
module Money {
  import opened Options
  import opened Decimals

  datatype MoneyError = TooLong | BadFormat | UnsafeInteger | NotAnInteger
  datatype Result<+T> = Ok(value: T) | Err(error: MoneyError)

  const MAX_LENGTH: nat := 20
  const TWO_TO_53: nat := 0x20_0000_0000_0000
  const MAX_SAFE_INTEGER: nat := TWO_TO_53 - 1

  // ---------------------------------------------------------------- format

  /** Number of leading digits. */
  function DigitSpan(s: string): (k: nat)
    ensures k <= |s|
    ensures AllDigits(s[..k])
    ensures k < |s| ==> !IsDigit(s[k])
  {
    if s == "" || !IsDigit(s[0]) then 0 else
    var k := DigitSpan(s[1..]);
    assert s[..k + 1] == [s[0]] + s[1..][..k];
    k + 1
  }

  /** The two capture groups of the amount pattern; the second is empty when there is no fraction. */
  function MatchAmount(s: string): (m: Option<(string, string)>)
    ensures m.Some? ==> AllDigits(m.value.0) && AllDigits(m.value.1) && m.value.0 != "" && |m.value.1| <= 2
  {
    var k := DigitSpan(s);
    if k == 0 then None
    else if k == |s| then Some((s[..k], ""))
    else if s[k] == '.' && 1 <= |s| - k - 1 <= 2 && AllDigits(s[k + 1..]) then Some((s[..k], s[k + 1..]))
    else None
  }

  /** The pattern itself: digits, then optionally a dot and one or two digits. */
  ghost predicate IsAmount(s: string, dollars: string, cents: string) {
    && dollars != "" && AllDigits(dollars) && AllDigits(cents) && |cents| <= 2
    && s == (if cents == "" then dollars else dollars + "." + cents)
  }

  lemma {:induction false} DigitSpanOfPrefix(digits: string, rest: string)
    requires AllDigits(digits) && (rest != "" ==> !IsDigit(rest[0]))
    ensures DigitSpan(digits + rest) == |digits|
  {
    if digits == "" {
      assert digits + rest == rest;
    } else {
      assert (digits + rest)[1..] == digits[1..] + rest;
      DigitSpanOfPrefix(digits[1..], rest);
    }
  }

  lemma {:induction false} MatchedHasForm(s: string)
    requires MatchAmount(s).Some?
    ensures IsAmount(s, MatchAmount(s).value.0, MatchAmount(s).value.1)
  {
    var k := DigitSpan(s);
    if k < |s| {
      assert s == s[..k] + [s[k]] + s[k + 1..];
    } else {
      assert s[..k] == s;
    }
  }

  lemma {:induction false} MatchIsExact(s: string, dollars: string, cents: string)
    ensures MatchAmount(s) == Some((dollars, cents)) <==> IsAmount(s, dollars, cents)
  {
    if IsAmount(s, dollars, cents) {
      if cents == "" {
        DigitSpanOfPrefix(dollars, "");
        assert s == dollars + "";
      } else {
        DigitSpanOfPrefix(dollars, "." + cents);
        assert s == dollars + ("." + cents);
      }
    }
    if MatchAmount(s) == Some((dollars, cents)) {
      MatchedHasForm(s);
    }
  }

  // --------------------------------------------------------------- parsing

  function PadCents(c: string): (p: string)
    requires |c| <= 2
    ensures |p| == 2 && p[..|c|] == c
    ensures AllDigits(c) ==> AllDigits(p)
  {
    if |c| == 0 then "00" else if |c| == 1 then c + "0" else c
  }

  /** The amount a well-formed text denotes, in cents, over the integers. */
  function TrueCents(dollars: string, cents: string): nat
    requires AllDigits(dollars) && AllDigits(cents) && |cents| <= 2
  {
    100 * Value(dollars) + Value(PadCents(cents))
  }

  /** The specification: exact arithmetic, rejecting what a safe integer cannot hold. */
  function ParseAmount(s: string): Result<nat> {
    if |s| > MAX_LENGTH then Err(TooLong) else
    match MatchAmount(s)
    case None => Err(BadFormat)
    case Some((d, c)) => if TrueCents(d, c) <= MAX_SAFE_INTEGER then Ok(TrueCents(d, c)) else Err(UnsafeInteger)
  }

  /** What a fraction of at most two digits is worth in cents. */
  function FractionValue(c: string): nat
    requires AllDigits(c) && |c| <= 2
  {
    if |c| == 0 then 0 else if |c| == 1 then 10 * DigitValue(c[0]) else Value(c)
  }

  lemma {:induction false} PaddingKeepsValue(c: string)
    requires AllDigits(c) && |c| <= 2
    ensures Value(PadCents(c)) == FractionValue(c)
  {
    TwoDigits(PadCents(c));
    if |c| == 2 { TwoDigits(c); }
  }

  /** Which texts are amounts, and of how many cents: those of at most 20 characters that have the pattern's
      form and denote at most 2^53 - 1 cents, where a single fraction digit stands for tenths. */
  lemma {:induction false} ParsesExactly(s: string)
    ensures forall d, c | IsAmount(s, d, c) && |s| <= 20 ::
              ParseAmount(s) == Safe(100 * Value(d) + FractionValue(c))
    ensures |s| > 20 <==> ParseAmount(s) == Err(TooLong)
    ensures |s| <= 20 ==> (ParseAmount(s) == Err(BadFormat) <==> forall d, c :: !IsAmount(s, d, c))
  {
    forall d, c | IsAmount(s, d, c)
      ensures MatchAmount(s) == Some((d, c)) && TrueCents(d, c) == 100 * Value(d) + FractionValue(c)
    {
      MatchIsExact(s, d, c);
      PaddingKeepsValue(c);
    }
    if MatchAmount(s).Some? { MatchedHasForm(s); }
  }

  /** The outcome for an amount of this many cents. */
  function Safe(cents: nat): Result<nat> {
    if cents <= 9007199254740991 then Ok(cents) else Err(UnsafeInteger)
  }

  lemma {:induction false} ParsesAs(s: string, d: string, c: string)
    requires IsAmount(s, d, c) && |s| <= 20
    ensures ParseAmount(s) == Safe(100 * Value(d) + FractionValue(c))
  {
    hide ParseAmount, Value, FractionValue;
    ParsesExactly(s);
  }

  /** Texts of one whole part whose fractions are worth the same denote one amount. */
  lemma {:induction false} SameFractionSameAmount(s: string, t: string, d: string, c: string, c': string)
    requires IsAmount(s, d, c) && IsAmount(t, d, c') && |s| <= 20 && |t| <= 20
    requires FractionValue(c) == FractionValue(c')
    ensures ParseAmount(s) == ParseAmount(t)
  {
    hide ParseAmount, Value, FractionValue;
    ParsesAs(s, d, c);
    ParsesAs(t, d, c');
  }

  lemma FormsAmount(d: string, c: string)
    requires d != "" && AllDigits(d) && AllDigits(c) && 1 <= |c| <= 2
    ensures IsAmount(d + "." + c, d, c) && |d + "." + c| == |d| + 1 + |c|
  {
  }

  lemma ZeroFractions()
    ensures FractionValue("") == FractionValue("0") == FractionValue("00") == 0
  {
    TwoDigits("00");
  }

  /** Trailing zeros of the fraction make no difference. */
  lemma {:induction false} TrailingZerosDoNotCount(d: string, x: char)
    requires d != "" && AllDigits(d) && IsDigit(x) && |d| <= 17
    ensures ParseAmount(d + "." + "0") == ParseAmount(d) == ParseAmount(d + "." + "00")
    ensures ParseAmount(d + "." + [x]) == ParseAmount(d + "." + [x, '0'])
  {
    ZeroFractions();
    TwoDigits([x, '0']);
    assert FractionValue([x]) == FractionValue([x, '0']);
    assert IsAmount(d, d, "");
    FormsAmount(d, "0");
    FormsAmount(d, "00");
    FormsAmount(d, [x]);
    FormsAmount(d, [x, '0']);
    hide ParseAmount, Value, FractionValue, IsAmount, AllDigits, IsDigit;
    SameFractionSameAmount(d + "." + "0", d, d, "0", "");
    SameFractionSameAmount(d, d + "." + "00", d, "", "00");
    SameFractionSameAmount(d + "." + [x], d + "." + [x, '0'], d, [x], [x, '0']);
  }

  /** Rounding of an integer result to a double: monotone, and exact up to 2^53
      (any rounding attribute of section 4.3 of IEEE 754-2019 is one). */
  ghost predicate IsRounding(round: nat -> nat) {
    && (forall x: nat, y: nat :: x <= y ==> round(x) <= round(y))
    && (forall x: nat :: x <= TWO_TO_53 ==> round(x) == x)
  }

  /** The source's computation, every intermediate number rounded to a double. */
  function ConvAmountToUnits(round: nat -> nat, s: string): Result<nat> {
    if |s| > MAX_LENGTH then Err(TooLong) else
    match MatchAmount(s)
    case None => Err(BadFormat)
    case Some((d, c)) =>
      var hundreds := round(round(Value(d)) * 100);
      var res := round(hundreds + round(Value(PadCents(c))));
      if res <= MAX_SAFE_INTEGER then Ok(res) else Err(UnsafeInteger)
  }

  lemma {:induction false} TwoDigits(p: string)
    requires |p| == 2 && AllDigits(p)
    ensures Value(p) == 10 * DigitValue(p[0]) + DigitValue(p[1]) < 100
  {
    assert p[..1][..0] == "";
    assert Value(p[..1]) == DigitValue(p[0]);
  }

  /** The guard on the rounded result accepts exactly the amounts whose true value is a safe
      integer, and then no rounding happened: the double computation is the exact one. */
  lemma {:induction false} DoublesParseExactly(round: nat -> nat, s: string)
    requires IsRounding(round)
    ensures ConvAmountToUnits(round, s) == ParseAmount(s)
  {
    if |s| <= MAX_LENGTH && MatchAmount(s).Some? {
      var (d, c) := MatchAmount(s).value;
      var v, w := Value(d), Value(PadCents(c));
      TwoDigits(PadCents(c));
      assert round(w) == w;
      if 100 * v + w > MAX_SAFE_INTEGER {
        var hundreds := round(round(v) * 100);
        if v > TWO_TO_53 {
          assert round(v) >= round(TWO_TO_53);
        }
        if round(v) * 100 >= TWO_TO_53 {
          assert hundreds >= round(TWO_TO_53);
        }
        assert hundreds + w >= TWO_TO_53;
        assert round(hundreds + w) >= round(TWO_TO_53);
      }
    }
  }

  // -------------------------------------------------------------- printing

  function Abs(n: int): nat {
    if n < 0 then -n else n
  }

  /** Two digits, padded on the left. */
  function PadStart2(n: nat): (s: string)
    requires n < 100
    ensures |s| == 2 && AllDigits(s)
  {
    DecimalLengthOfTwo(n);
    if n < 10 then "0" + Decimal(n) else Decimal(n)
  }

  lemma DecimalLengthOfTwo(n: nat)
    requires n < 100
    ensures |Decimal(n)| == (if n < 10 then 1 else 2)
  {
  }

  function PrintCents(cents: int): string {
    Decimal(Abs(cents) / 100) + "." + PadStart2(Abs(cents) % 100)
  }

  function ConvUnitsToAmount(cents: real): Result<string> {
    if cents.Floor as real != cents then Err(NotAnInteger) else Ok(PrintCents(cents.Floor))
  }

  lemma {:induction false} ValueOfPadStart2(n: nat)
    requires n < 100
    ensures Value(PadStart2(n)) == n
  {
    ValueOfDecimal(n);
    TwoDigits(PadStart2(n));
    if n < 10 { assert Decimal(n)[..0] == ""; }
  }

  lemma PowersOfTen()
    ensures Pow10(14) == 100_000_000_000_000
  {
    assert Pow10(7) == 10_000_000;
    assert Pow10(8) == 100_000_000;
    assert Pow10(12) == 1_000_000_000_000;
  }

  /** A printed amount is well formed, denotes its own magnitude and is short if it is safe. */
  lemma PrintedIsAmount(n: int)
    ensures var (d, c) := (Decimal(Abs(n) / 100), PadStart2(Abs(n) % 100));
            && IsAmount(PrintCents(n), d, c)
            && TrueCents(d, c) == Abs(n)
            && (Abs(n) <= MAX_SAFE_INTEGER ==> |PrintCents(n)| <= MAX_LENGTH)
  {
    hide Decimal, Value, Pow10;
    var q, r := Abs(n) / 100, Abs(n) % 100;
    var d, c := Decimal(q), PadStart2(r);
    assert PrintCents(n) == d + "." + c;
    ValueOfDecimal(q);
    ValueOfPadStart2(r);
    assert PadCents(c) == c;
    if Abs(n) <= MAX_SAFE_INTEGER {
      PowersOfTen();
      DecimalLength(q, 14);
    }
  }

  /** Parsing what was printed gives the amount back, for every safe amount; a negative amount
      loses its sign, so the round trip holds exactly for the non-negative ones. */
  lemma {:induction false} ParseAfterPrint(n: int)
    requires Abs(n) <= MAX_SAFE_INTEGER
    ensures ParseAmount(PrintCents(n)) == Ok(Abs(n))
    ensures ParseAmount(PrintCents(n)) == Ok(n) <==> n >= 0
  {
    hide Decimal, PadStart2, PrintCents, TrueCents, MatchAmount;
    PrintedIsAmount(n);
    MatchIsExact(PrintCents(n), Decimal(Abs(n) / 100), PadStart2(Abs(n) % 100));
  }

  ghost predicate IsWhole(x: real, n: int) {
    x == n as real
  }

  /** The number is printed, and its text parsed to the same number. */
  ghost predicate ReadsBack(round: nat -> nat, x: real) {
    && ConvUnitsToAmount(x).Ok?
    && var back := ConvAmountToUnits(round, ConvUnitsToAmount(x).value);
       back.Ok? && back.value as real == x
  }

  lemma FloorOfWhole(x: real, n: int)
    requires IsWhole(x, n)
    ensures x.Floor == n
  {
  }

  /** The two conversions as the code computes them, one after the other: a number is printed exactly
      if it is whole, and read back as itself exactly if it is whole and not negative. */
  lemma {:induction false} ConversionsRoundTrip(round: nat -> nat, x: real)
    requires IsRounding(round) && -(MAX_SAFE_INTEGER as real) <= x <= MAX_SAFE_INTEGER as real
    ensures ConvUnitsToAmount(x).Ok? <==> exists n: int :: IsWhole(x, n)
    ensures ConvUnitsToAmount(x).Err? ==> ConvUnitsToAmount(x).error == NotAnInteger
    ensures ReadsBack(round, x) <==> x >= 0.0 && exists n: int :: IsWhole(x, n)
  {
    hide PrintCents, ParseAmount, ConvAmountToUnits, IsRounding;
    forall n: int | IsWhole(x, n) ensures ConvUnitsToAmount(x) == Ok(PrintCents(n)) { FloorOfWhole(x, n); }
    if ConvUnitsToAmount(x).Ok? {
      var n := x.Floor;
      assert IsWhole(x, n);
      ParseAfterPrint(n);
      DoublesParseExactly(round, PrintCents(n));
    }
  }

  /** The canonical text of an amount: no superfluous leading zeros, always two decimals. */
  function Canonical(dollars: string, cents: string): string
    requires |cents| <= 2
  {
    StripZeros(dollars) + "." + PadCents(cents)
  }

  lemma {:induction false} PaddedIsPrinted(p: string)
    requires |p| == 2 && AllDigits(p)
    ensures Value(p) < 100 && PadStart2(Value(p)) == p
  {
    TwoDigits(p);
    ValueOfPadStart2(Value(p));
    var q := PadStart2(Value(p));
    hide PadStart2;
    TwoDigits(q);
    assert DigitValue(q[0]) == DigitValue(p[0]) && DigitValue(q[1]) == DigitValue(p[1]);
  }

  lemma SplitsAtHundred(v: nat, w: nat)
    requires w < 100
    ensures (100 * v + w) / 100 == v && (100 * v + w) % 100 == w
  {
  }

  /** Printing what was parsed gives the canonical text of the same amount. */
  lemma {:induction false} PrintAfterParse(s: string, dollars: string, cents: string)
    requires IsAmount(s, dollars, cents) && ParseAmount(s).Ok?
    ensures PrintCents(ParseAmount(s).value) == Canonical(dollars, cents)
  {
    MatchIsExact(s, dollars, cents);
    hide Value, Decimal, StripZeros, PadStart2, MatchAmount;
    PaddedIsPrinted(PadCents(cents));
    SplitsAtHundred(Value(dollars), Value(PadCents(cents)));
    DecimalOfValueIsStripped(dollars);
  }

  lemma ParsedIsSafe(s: string)
    ensures ParseAmount(s).Ok? ==> ParseAmount(s).value <= MAX_SAFE_INTEGER
  {
  }

  /** Two well-formed texts denote the same amount exactly when their canonical forms agree. */
  lemma {:induction false} SameAmountIffSameCanonical(s: string, t: string, d: string, c: string, d': string,
      c': string)
    requires IsAmount(s, d, c) && IsAmount(t, d', c') && ParseAmount(s).Ok? && ParseAmount(t).Ok?
    ensures ParseAmount(s) == ParseAmount(t) <==> Canonical(d, c) == Canonical(d', c')
  {
    hide PrintCents, Canonical, MatchAmount;
    PrintAfterParse(s, d, c);
    PrintAfterParse(t, d', c');
    ParsedIsSafe(s);
    ParsedIsSafe(t);
    hide ParseAmount, IsAmount;
    var m, n := ParseAmount(s).value, ParseAmount(t).value;
    ParseAfterPrint(m);
    ParseAfterPrint(n);
  }
}
