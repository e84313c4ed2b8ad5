/**
  Decimal money to integer minor units (`majorDecimalToMinor` in services/connectors-ads/src/meta/mapper.ts).
 */
module Decimal {
  import opened Wrappers
  import opened Digits
  import opened Reals

  /** The characters JavaScript's `trim` strips. */
  predicate IsSpace(c: char) {
    || c in {' ', '\t', '\n', '\r', '\U{b}', '\U{c}', '\U{a0}', '\U{1680}', '\U{2028}', '\U{2029}', '\U{202f}',
             '\U{205f}', '\U{3000}', '\U{feff}'}
    || '\U{2000}' <= c <= '\U{200a}'
  }

  /** Character by character: the five controls, the space, and the Unicode spaces and line ends. */
  lemma SpacesAre(c: char)
    ensures IsSpace(c)
       <==> c as int in {9, 10, 11, 12, 13, 32, 160, 5760, 8192, 8193, 8194, 8195, 8196, 8197, 8198, 8199, 8200, 8201,
                         8202, 8232, 8233, 8239, 8287, 12288, 65279}
  {
  }

  predicate AllSpace(s: string) { forall i :: 0 <= i < |s| ==> IsSpace(s[i]) }

  function TrimStart(s: string): string { if s != [] && IsSpace(s[0]) then TrimStart(s[1..]) else s }

  function TrimEnd(s: string): string {
    if s != [] && IsSpace(s[|s| - 1]) then TrimEnd(s[..|s| - 1]) else s
  }

  function Trim(s: string): string { TrimEnd(TrimStart(s)) }

  /** The piece before the first dot. */
  function BeforeDot(s: string): string { if s == [] || s[0] == '.' then "" else [s[0]] + BeforeDot(s[1..]) }

  /** What follows the first dot. */
  function AfterDot(s: string): string { if s == [] then "" else if s[0] == '.' then s[1..] else AfterDot(s[1..]) }

  /** `Number` on a digit string, the empty one included; other texts are not part of this model. */
  function Number(s: string): Option<nat> { if AllDigits(s) then Some(DigitsValue(s)) else None }

  /** The minor units of a decimal without a sign: what follows a second dot is ignored. */
  function Unsigned(rest: string, minorUnits: nat): Option<nat> {
    var frac := (BeforeDot(AfterDot(rest)) + Zeros(minorUnits))[..minorUnits];
    match (Number(BeforeDot(rest)), Number(frac))
    case (Some(whole), Some(part)) => Some(whole * Pow10(minorUnits) + part)
    case _ => None
  }

  function Signed(neg: bool, n: nat): int { if neg then 0 - n else n }

  function MajorDecimalToMinor(value: Option<string>, minorUnits: nat): Option<int> {
    if value.None? || Trim(value.value) == "" then Some(0)
    else
      var trimmed := Trim(value.value);
      var neg := trimmed[0] == '-';
      match Unsigned(if neg then trimmed[1..] else trimmed, minorUnits)
      case Some(minor) => Some(Signed(neg, minor))
      case None => None
  }

  // ---- The decimals and their values ----

  /** A sign, digits and, if there is a dot, the digits after it. */
  datatype Decimal = Decimal(neg: bool, whole: string, frac: Option<string>)

  predicate WellFormed(d: Decimal) { AllDigits(d.whole) && (d.frac.Some? ==> AllDigits(d.frac.value)) }

  function Fraction(d: Decimal): string { if d.frac.Some? then d.frac.value else "" }

  function Body(d: Decimal): string { d.whole + if d.frac.Some? then "." + d.frac.value else "" }

  function Text(d: Decimal): string { (if d.neg then "-" else "") + Body(d) }

  /** The digits without the dot, as one number: the magnitude times a power of ten. */
  function Scaled(d: Decimal): nat
    requires WellFormed(d)
  {
    DigitsValue(d.whole + Fraction(d))
  }

  function Size(d: Decimal): real
    requires WellFormed(d)
  {
    Ratio(Scaled(d), Pow10(|Fraction(d)|))
  }

  function Ratio(n: nat, p: nat): real
    requires p > 0
  {
    n as real / p as real
  }

  function Times(x: real, p: nat): real { x * p as real }

  function Value(d: Decimal): real
    requires WellFormed(d)
  {
    if d.neg then -Size(d) else Size(d)
  }

  /** The value in minor units, not yet rounded. */
  function InMinorUnits(value: real, m: nat): real { Times(value, Pow10(m)) }

  /** Rounding toward zero. */
  function Truncate(x: real): int { if x < 0.0 then -((-x).Floor) else x.Floor }

  // ---- Reading a well-formed decimal ----

  lemma {:induction false} TrimStartOf(lead: string, s: string)
    requires AllSpace(lead) && (s != [] ==> !IsSpace(s[0]))
    ensures TrimStart(lead + s) == s
  {
    if lead == [] {
      assert lead + s == s;
    } else {
      assert (lead + s)[1..] == lead[1..] + s;
      TrimStartOf(lead[1..], s);
    }
  }

  lemma {:induction false} TrimEndOf(s: string, trail: string)
    requires AllSpace(trail) && (s != [] ==> !IsSpace(s[|s| - 1]))
    ensures TrimEnd(s + trail) == s
  {
    if trail == [] {
      assert s + trail == s;
    } else {
      assert (s + trail)[..|s + trail| - 1] == s + trail[..|trail| - 1];
      TrimEndOf(s, trail[..|trail| - 1]);
    }
  }

  lemma {:induction false} AllSpaceTrims(s: string)
    requires AllSpace(s)
    ensures TrimStart(s) == ""
  {
    if s != [] { AllSpaceTrims(s[1..]); }
  }

  lemma TrimOf(lead: string, s: string, trail: string)
    requires AllSpace(lead) && AllSpace(trail) && forall i :: 0 <= i < |s| ==> !IsSpace(s[i])
    ensures Trim(lead + s + trail) == s
  {
    if s == [] {
      AllSpaceTrims(lead + s + trail);
    } else {
      assert lead + s + trail == lead + (s + trail);
      TrimStartOf(lead, s + trail);
      TrimEndOf(s, trail);
    }
  }

  lemma {:induction false} DotSplits(whole: string, rest: string)
    requires AllDigits(whole)
    ensures BeforeDot(whole) == whole && AfterDot(whole) == ""
    ensures BeforeDot(whole + "." + rest) == whole && AfterDot(whole + "." + rest) == rest
  {
    if whole != [] {
      assert (whole + "." + rest)[1..] == whole[1..] + "." + rest;
      DotSplits(whole[1..], rest);
    }
  }

  lemma PartsOf(d: Decimal)
    requires WellFormed(d)
    ensures BeforeDot(Body(d)) == d.whole && BeforeDot(AfterDot(Body(d))) == Fraction(d)
  {
    DotSplits(d.whole, Fraction(d));
    DotSplits(Fraction(d), "");
    if d.frac.None? {
      assert Body(d) == d.whole;
    } else {
      assert Body(d) == d.whole + "." + d.frac.value;
    }
  }

  /** The fraction digits kept, and those cut off, as numbers. */
  function Kept(frac: string, m: nat): nat
    requires AllDigits(frac)
  {
    DigitsValue((frac + Zeros(m))[..m])
  }

  function CutOff(frac: string, m: nat): nat
    requires AllDigits(frac)
  {
    DigitsValue((frac + Zeros(m))[m..])
  }

  lemma KeptAndCutOff(frac: string, m: nat)
    requires AllDigits(frac)
    ensures DigitsValue(frac) * Pow10(m) == Kept(frac, m) * Pow10(|frac|) + CutOff(frac, m)
    ensures CutOff(frac, m) < Pow10(|frac|)
  {
    var padded := frac + Zeros(m);
    assert padded == padded[..m] + padded[m..];
    DigitsValueAppend(frac, Zeros(m));
    ZerosValue(m);
    DigitsValueAppend(padded[..m], padded[m..]);
    DigitsValueBound(padded[m..]);
    hide *;
  }

  function Amount(d: Decimal, m: nat): nat
    requires WellFormed(d)
  {
    DigitsValue(d.whole) * Pow10(m) + Kept(Fraction(d), m)
  }

  /** Padding and cutting the fraction to `m` digits divides and leaves a remainder. */
  lemma AmountDivides(d: Decimal, m: nat)
    requires WellFormed(d)
    ensures Amount(d, m) * Pow10(|Fraction(d)|) <= Scaled(d) * Pow10(m) < (Amount(d, m) + 1) * Pow10(|Fraction(d)|)
  {
    var frac := Fraction(d);
    KeptAndCutOff(frac, m);
    DigitsValueAppend(d.whole, frac);
    hide Pow10, DigitsValue, Kept, CutOff;
    Rearrange(DigitsValue(d.whole), DigitsValue(frac), Kept(frac, m), CutOff(frac, m), Pow10(m), Pow10(|frac|));
  }

  lemma Rearrange(w: nat, f: nat, front: nat, back: nat, pm: nat, pk: nat)
    requires f * pm == front * pk + back && back < pk
    ensures (w * pm + front) * pk <= (w * pk + f) * pm < (w * pm + front + 1) * pk
  {
    assert (w * pk + f) * pm == (w * pk) * pm + f * pm;
    assert (w * pk) * pm == (w * pm) * pk;
    assert (w * pm + front) * pk == (w * pm) * pk + front * pk;
    assert (w * pm + front + 1) * pk == (w * pm + front) * pk + pk;
  }

  lemma UnsignedIs(d: Decimal, m: nat)
    requires WellFormed(d)
    ensures Unsigned(Body(d), m) == Some(Amount(d, m))
  {
    PartsOf(d);
    hide BeforeDot, AfterDot, Body, DigitsValue, Fraction, Pow10, Zeros;
  }

  lemma EmptyIsZero(d: Decimal, m: nat)
    requires WellFormed(d) && Text(d) == ""
    ensures !d.neg && Amount(d, m) == 0
  {
    assert !d.neg && d.whole == "" && d.frac.None?;
    ZerosValue(m);
    assert ("" + Zeros(m))[..m] == Zeros(m);
  }

  lemma ReadsAmount(d: Decimal, m: nat, lead: string, trail: string)
    requires WellFormed(d) && AllSpace(lead) && AllSpace(trail)
    ensures MajorDecimalToMinor(Some(lead + Text(d) + trail), m)
         == Some(Signed(d.neg, Amount(d, m)))
  {
    NoSpaceInside(d);
    TrimOf(lead, Text(d), trail);
    UnsignedIs(d, m);
    SignOf(d);
    if Text(d) == "" { EmptyIsZero(d, m); }
    hide Trim, Amount, Unsigned, Body, WellFormed, AllSpace;
  }

  lemma NoSpaceInside(d: Decimal)
    requires WellFormed(d)
    ensures forall i :: 0 <= i < |Text(d)| ==> !IsSpace(Text(d)[i])
  {
  }

  lemma SignOf(d: Decimal)
    requires WellFormed(d)
    ensures d.neg ==> Text(d) != "" && Text(d)[0] == '-' && Text(d)[1..] == Body(d)
    ensures !d.neg ==> Text(d) == Body(d) && (Text(d) != "" ==> Text(d)[0] != '-')
  {
    if !d.neg && Body(d) != "" { FirstIsNotSign(d); }
  }

  lemma FirstIsNotSign(d: Decimal)
    requires WellFormed(d) && Body(d) != ""
    ensures Body(d)[0] != '-'
  {
    assert d.whole != "" ==> Body(d)[0] == d.whole[0];
  }

  lemma FloorOfQuotient(n: nat, k: nat, scaled: nat, p: nat)
    requires p > 0 && k * p <= n * scaled < (k + 1) * p
    ensures Times(Ratio(n, p), scaled).Floor == k
  {
    var x := Times(Ratio(n, p), scaled);
    Cancel(n, p, scaled);
    TimesOfNat(k, p);
    TimesOfNat(k + 1, p);
    hide *;
    Between(k as real, x, p);
    Between((k + 1) as real, x, p);
  }

  lemma TimesOfNat(n: nat, p: nat)
    ensures Times(n as real, p) == (n * p) as real
  {
  }

  lemma Cancel(n: nat, p: nat, scaled: nat)
    requires p > 0
    ensures Times(Times(Ratio(n, p), scaled), p) == (n * scaled) as real
  {
    var q := Ratio(n, p);
    assert q * p as real == n as real;
    assert (q * scaled as real) * p as real == (q * p as real) * scaled as real;
    assert n as real * scaled as real == (n * scaled) as real;
  }

  lemma Between(x: real, y: real, p: nat)
    requires p > 0
    ensures Times(x, p) <= Times(y, p) <==> x <= y
  {
    OrderKept(x, y, p as real);
  }

  lemma AmountIsFloor(d: Decimal, m: nat)
    requires WellFormed(d)
    ensures InMinorUnits(Size(d), m).Floor == Amount(d, m)
  {
    AmountDivides(d, m);
    hide Scaled, Amount, Pow10, Fraction;
    FloorOfQuotient(Scaled(d), Amount(d, m), Pow10(m), Pow10(|Fraction(d)|));
  }

  /** On every well-formed decimal, in spaces or not, the result is the value times 10^m truncated toward zero. */
  lemma TruncatesTowardZero(d: Decimal, m: nat, lead: string, trail: string)
    requires WellFormed(d) && AllSpace(lead) && AllSpace(trail)
    ensures MajorDecimalToMinor(Some(lead + Text(d) + trail), m) == Some(Truncate(InMinorUnits(Value(d), m)))
  {
    ReadsAmount(d, m, lead, trail);
    AmountIsFloor(d, m);
    NegatedUnits(Size(d), m);
    hide MajorDecimalToMinor, InMinorUnits, Amount, Size, Text, WellFormed, AllSpace;
  }

  lemma NegatedUnits(x: real, m: nat)
    ensures InMinorUnits(-x, m) == -InMinorUnits(x, m)
  {
    hide Pow10;
    assert (-x) * Pow10(m) as real == -(x * Pow10(m) as real);
  }

  lemma TruncateIsMonotone(x: real, y: real)
    requires x <= y
    ensures Truncate(x) <= Truncate(y)
  {
  }

  lemma UnitsAreMonotone(x: real, y: real, m: nat)
    requires x <= y
    ensures InMinorUnits(x, m) <= InMinorUnits(y, m)
  {
    hide Pow10;
    Between(x, y, Pow10(m));
  }

  /** Hence a larger decimal never gives a smaller amount. */
  lemma ReadingIsMonotone(d: Decimal, e: Decimal, m: nat)
    requires WellFormed(d) && WellFormed(e) && Value(d) <= Value(e)
    ensures MajorDecimalToMinor(Some(Text(d)), m).Some? && MajorDecimalToMinor(Some(Text(e)), m).Some?
    ensures MajorDecimalToMinor(Some(Text(d)), m).value <= MajorDecimalToMinor(Some(Text(e)), m).value
  {
    TruncatesTowardZero(d, m, "", "");
    TruncatesTowardZero(e, m, "", "");
    hide *;
    assert "" + Text(d) + "" == Text(d) && "" + Text(e) + "" == Text(e);
    UnitsAreMonotone(Value(d), Value(e), m);
    TruncateIsMonotone(InMinorUnits(Value(d), m), InMinorUnits(Value(e), m));
  }

  // ---- Round trip ----

  function Magnitude(n: int): nat { if n < 0 then -n else n }

  /** The last `m` decimal digits of `k`, with leading zeros. */
  function Padded(k: nat, m: nat): (s: string)
    ensures |s| == m && AllDigits(s)
  {
    if m == 0 then "" else Padded(k / 10, m - 1) + [DigitChar(k % 10)]
  }

  lemma {:induction false} PaddedValue(k: nat, m: nat)
    requires k < Pow10(m)
    ensures DigitsValue(Padded(k, m)) == k
  {
    if m > 0 {
      PaddedValue(k / 10, m - 1);
      assert Padded(k, m)[..m - 1] == Padded(k / 10, m - 1);
    }
  }

  function Major(a: nat, m: nat): nat { Quotient(a, Pow10(m)) }

  function Minor(a: nat, m: nat): nat { Remainder(a, Pow10(m)) }

  function Quotient(a: nat, p: nat): nat
    requires p > 0
  {
    a / p
  }

  function Remainder(a: nat, p: nat): nat
    requires p > 0
  {
    a % p
  }

  /** An amount of minor units as a major-unit decimal with `m` fraction digits. */
  function Printed(n: int, m: nat): Decimal {
    var a := Magnitude(n);
    Decimal(n < 0, NatText(Major(a, m)), if m == 0 then None else Some(Padded(Minor(a, m), m)))
  }

  lemma DividesBack(a: nat, p: nat)
    requires p > 0
    ensures Quotient(a, p) * p + Remainder(a, p) == a && Remainder(a, p) < p
  {
  }

  lemma PrintedAmount(n: int, m: nat)
    ensures WellFormed(Printed(n, m)) && Amount(Printed(n, m), m) == Magnitude(n)
  {
    var d, a := Printed(n, m), Magnitude(n);
    DividesBack(a, Pow10(m));
    PaddedValue(Minor(a, m), m);
    assert m == 0 ==> Pow10(m) == 1;
    hide Pow10, DigitsValue, Quotient, Remainder, Zeros;
    assert (Fraction(d) + Zeros(m))[..m] == Padded(Minor(a, m), m);
  }

  /** Printing an amount and reading it back returns it, for every integer and every number of fraction digits. */
  lemma PrintedReadsBack(n: int, m: nat)
    ensures MajorDecimalToMinor(Some(Text(Printed(n, m))), m) == Some(n)
  {
    PrintedAmount(n, m);
    ReadsAmount(Printed(n, m), m, "", "");
    assert "" + Text(Printed(n, m)) + "" == Text(Printed(n, m));
    hide MajorDecimalToMinor, Amount, Text, WellFormed;
  }
}
