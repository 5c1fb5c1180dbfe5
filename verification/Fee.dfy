/** The relayer fee: integer division, parts per billion, a saturating sum and a cap. */
module Fee {
  import opened Base
  import opened Division

  const BILLION: nat := 1_000_000_000

  /** Fractions of one are counted in parts per billion: rounded down, and a sum stops at one. */
  function FromRational(p: nat, q: nat): nat
    requires 0 < q
  {
    (if p < q then p else q) * BILLION / q
  }

  function MulPerbill(a: nat, b: nat): nat {
    a * b / BILLION
  }

  function AddPerbill(a: nat, b: nat): nat {
    if a + b <= BILLION then a + b else BILLION
  }

  function Min(a: int, b: int): int { if a <= b then a else b }

  /** The price ratio in billionths, rounded down once. */
  function ScaledRatio(near: nat, native: nat): nat
    requires 0 < native
  {
    near * BILLION / native
  }

  /** The cap, the step at which the saturating sum stops, and the unsaturated value: the least wins. */
  function CappedForm(whole: int, exact: int, threshold: int): int {
    Min(threshold * BILLION, Min((whole + 1) * BILLION, exact))
  }

  /** How many billionths of a native token a transfer costs: one rounded ratio, scaled by coef percent. */
  function Quantity(near: nat, native: nat, coef: nat, threshold: nat): (q: int)
    requires 0 < native
    ensures 0 <= q <= threshold * BILLION
  {
    var f := ScaledRatio(near, native);
    CappedForm(f / BILLION * coef / 100, f * coef / 100, threshold)
  }

  function FeeOf(near: nat, native: nat, coef: nat, threshold: nat, decimals: nat): (fee: nat)
    requires 0 < native
  {
    decimals * Quantity(near, native, coef, threshold) / BILLION
  }

  // ---------------------------------------------------------------- the rounded ratio

  lemma FractionBelowOne(r: nat, native: nat)
    requires r < native
    ensures 0 <= r * BILLION / native < BILLION
  {}

  /** Rounding the ratio down splits into the integer part and the fraction of the remainder. */
  lemma ScaledRatioSplit(near: nat, native: nat)
    requires 0 < native
    ensures ScaledRatio(near, native) == near / native * BILLION + near % native * BILLION / native
  {
    var k, r := near / native, near % native;
    assert near * BILLION == k * BILLION * native + r * BILLION by {
      assert near == k * native + r;
    }
    DivAddMultiple(k * BILLION, r * BILLION, native);
  }

  /** A greater ratio, compared without division, is never rounded to less. */
  lemma ScaledRatioMonotone(near1: nat, native1: nat, near2: nat, native2: nat)
    requires 0 < native1 && 0 < native2 && near1 * native2 <= near2 * native1
    ensures ScaledRatio(near1, native1) <= ScaledRatio(near2, native2)
  {
    // f1*native1 <= near1*B and near2*B < (f2+1)*native2; multiply crosswise.
    var f1, f2 := ScaledRatio(near1, native1), ScaledRatio(near2, native2);
    MulMono(f1 * native1, near1 * BILLION, native2);
    MulMono(near1 * native2, near2 * native1, BILLION);
    assert f1 * (native1 * native2) < (f2 + 1) * (native1 * native2) by {
      assert f1 * (native1 * native2) == f1 * native1 * native2;
      assert (f2 + 1) * (native1 * native2) == (f2 + 1) * native2 * native1;
      assert near1 * BILLION * native2 == near1 * native2 * BILLION;
      assert near2 * BILLION * native1 == near2 * native1 * BILLION;
      MulStrict(near2 * BILLION, (f2 + 1) * native2, native1);
    }
    if f2 + 1 <= f1 {
      MulMono(f2 + 1, f1, native1 * native2);
    }
  }

  /** Scaling the rounded ratio is the same as scaling its integer part and its fraction. */
  lemma Rejoin(k: nat, rest: nat, coef: nat)
    requires rest < BILLION
    ensures var f := k * BILLION + rest;
            f / BILLION == k && f * coef / 100 == k * coef * 10_000_000 + rest * coef / 100
  {
    var f := k * BILLION + rest;
    DivIs(f, BILLION, k);
    assert f * coef == k * coef * 10_000_000 * 100 + rest * coef;
    DivAddMultiple(k * coef * 10_000_000, rest * coef, 100);
  }

  // ---------------------------------------------------------------- what the pallet computes

  lemma IntendedForm(near: nat, native: nat, coef: nat, threshold: nat)
    requires 0 < native
    ensures var k, r := near / native, near % native;
            Quantity(near, native, coef, threshold)
              == CappedForm(k * coef / 100, k * coef * 10_000_000 + r * BILLION / native * coef / 100, threshold)
  {
    var k, rest := near / native, near % native * BILLION / native;
    ScaledRatioSplit(near, native);
    FractionBelowOne(near % native, native);
    Rejoin(k, rest, coef);
  }

  lemma HundredthsToParts(x: nat)
    requires x <= 100
    ensures FromRational(x, 100) == x * 10_000_000
  {}

  lemma ProductOfFractions(f: nat, coef: nat)
    requires coef <= 100
    ensures MulPerbill(f, FromRational(coef, 100)) == f * coef / 100
  {
    HundredthsToParts(coef);
    assert f * (coef * 10_000_000) == f * coef * 10_000_000;
    DivIs(f * coef * 10_000_000, BILLION, f * coef / 100);
  }

  /** Integer part, hundredths and product of fractions, summed with saturation and capped. */
  lemma Assemble(v: nat, fraction2: nat, threshold: nat)
    ensures (if v / 100 >= threshold then threshold * BILLION
             else v / 100 * BILLION + AddPerbill(FromRational(v % 100, 100), fraction2))
              == CappedForm(v / 100, v * 10_000_000 + fraction2, threshold)
  {}

  /** The fraction of the price ratio scaled by coef percent, in billionths. */
  function ScaledRest(near: nat, native: nat, coef: nat): nat
    requires 0 < native
  {
    Scale(near % native * BILLION / native, coef)
  }

  function Scale(part: nat, coef: nat): nat { part * coef / 100 }

  /** From the scaled integer part and the scaled fraction. */
  function FromParts(scaled: nat, rest: nat, threshold: nat): (q: int)
    ensures 0 <= q <= threshold * BILLION
  {
    CappedForm(scaled / 100, scaled * 10_000_000 + rest, threshold)
  }

  /**
   * The quantity with the product of integer part and coefficient kept in 64 bits, as the pallet does; unless that
   * wraps it is the quantity above.
   */
  function ChargedQuantity(near: nat, native: nat, coef: nat, threshold: nat): (q: int)
    requires 0 < native
    ensures 0 <= q <= threshold * BILLION
  {
    FromParts(WrapU64(near / native * coef), ScaledRest(near, native, coef), threshold)
  }

  function ChargedFee(near: nat, native: nat, coef: nat, threshold: nat, decimals: nat): (fee: nat)
    requires 0 < native
  {
    decimals * ChargedQuantity(near, native, coef, threshold) / BILLION
  }

  /** The pallet's computation. */
  method CalculateQuantity(near: nat, native: nat, coef: nat, threshold: nat)
    returns (integer: nat, fraction: nat)
    requires 0 < native && coef <= 100
    ensures fraction <= BILLION
    ensures integer * BILLION + fraction == ChargedQuantity(near, native, coef, threshold)
  {
    var whole: nat := 0;
    if near >= native {
      whole := near / native;
    } else {
      DivIs(near, native, 0);
    }
    var remain := near % native;
    fraction := FromRational(remain, native);

    var value1: nat := WrapU64(whole * coef);
    integer := 0;
    if value1 >= 100 {
      integer := value1 / 100;
    }
    Assemble(value1, MulPerbill(fraction, FromRational(coef, 100)), threshold);
    ProductOfFractions(fraction, coef);
    if integer >= threshold {
      return threshold, 0;
    }

    var remain1 := value1 % 100;
    var fraction1 := FromRational(remain1, 100);
    var fraction2 := MulPerbill(fraction, FromRational(coef, 100));
    fraction := AddPerbill(fraction1, fraction2);
  }

  /** Integer and fractional fee parts add up to one rounded-down product. */
  method CalculateFee(near: nat, native: nat, coef: nat, threshold: nat, decimals: nat) returns (fee: nat)
    requires 0 < native && coef <= 100
    ensures fee == ChargedFee(near, native, coef, threshold, decimals)
  {
    var integer, fraction := CalculateQuantity(near, native, coef, threshold);
    PartsOfFee(decimals, integer, fraction);
    var feeInteger: nat := decimals * integer;
    var feeFraction: nat := decimals * fraction / BILLION;
    fee := feeInteger + feeFraction;
  }

  lemma WrapsBelow(x: nat)
    ensures x <= U64_MAX ==> WrapU64(x) == x
    ensures U64_MAX < x ==> WrapU64(x) + 100 <= x
  {}

  lemma RestBelowOne(near: nat, native: nat, coef: nat)
    requires 0 < native && coef <= 100
    ensures ScaledRest(near, native, coef) < BILLION
  {
    var part: nat := near % native * BILLION / native;
    FractionBelowOne(near % native, native);
    MulMono(coef, 100, part);
    DivAtMostOf(part * coef, part);
  }

  lemma DivAtMostOf(x: nat, part: nat)
    requires x <= 100 * part
    ensures x / 100 <= part
  {}

  lemma QuantityFromParts(near: nat, native: nat, coef: nat, threshold: nat)
    requires 0 < native
    ensures Quantity(near, native, coef, threshold)
         == FromParts(near / native * coef, ScaledRest(near, native, coef), threshold)
  {
    IntendedForm(near, native, coef, threshold);
  }

  /** What is left of the scaled price ratio, wrapped or not, reaches the cap. */
  predicate AtCap(scaled: nat, rest: nat, threshold: nat) {
    threshold * BILLION <= scaled * 10_000_000 + rest
  }

  lemma AtCapIff(scaled: nat, rest: nat, threshold: nat)
    requires rest < BILLION
    ensures FromParts(scaled, rest, threshold) == threshold * BILLION <==> AtCap(scaled, rest, threshold)
  {}

  /** The product of integer price ratio and coefficient fits 64 bits, or what wraps still reaches the cap. */
  predicate Exact(near: nat, native: nat, coef: nat, threshold: nat)
    requires 0 < native
  {
    || near / native * coef <= U64_MAX
    || AtCap(WrapU64(near / native * coef), ScaledRest(near, native, coef), threshold)
  }

  /** The pallet charges the intended quantity exactly under that condition on the prices, and otherwise less. */
  lemma ChargedIff(near: nat, native: nat, coef: nat, threshold: nat)
    requires 0 < native && coef <= 100
    ensures ChargedQuantity(near, native, coef, threshold) == Quantity(near, native, coef, threshold) <==>
              Exact(near, native, coef, threshold)
    ensures ChargedQuantity(near, native, coef, threshold) <= Quantity(near, native, coef, threshold)
  {
    var product: nat := near / native * coef;
    var rest := ScaledRest(near, native, coef);
    QuantityFromParts(near, native, coef, threshold);
    WrapsBelow(product);
    RestBelowOne(near, native, coef);
    if U64_MAX < product {
      CappedStrict(WrapU64(product), product, rest, threshold);
      AtCapIff(WrapU64(product), rest, threshold);
    }
  }

  /** A lower product gives a lower quantity, unless the lower one is at the cap already. */
  lemma CappedStrict(v: nat, w: nat, rest: nat, threshold: nat)
    requires v + 100 <= w && rest < BILLION
    ensures FromParts(v, rest, threshold) <= FromParts(w, rest, threshold)
    ensures FromParts(v, rest, threshold) == FromParts(w, rest, threshold) <==>
              FromParts(v, rest, threshold) == threshold * BILLION
  {}

  lemma CapScales(q: int, threshold: nat, decimals: nat)
    requires q <= threshold * BILLION
    ensures decimals * q / BILLION <= threshold * decimals
  {
    FeeScales(q, threshold * BILLION, decimals);
    assert decimals * (threshold * BILLION) == threshold * decimals * BILLION;
    DivIs(threshold * decimals * BILLION, BILLION, threshold * decimals);
  }

  /** Without wrapping the pallet charges the fee above. */
  lemma ChargedIsFee(near: nat, native: nat, coef: nat, threshold: nat, decimals: nat)
    requires 0 < native && near / native * coef <= U64_MAX
    ensures ChargedFee(near, native, coef, threshold, decimals) == FeeOf(near, native, coef, threshold, decimals)
  {
    ChargedIsQuantity(near, native, coef, threshold);
    SameFee(ChargedQuantity(near, native, coef, threshold), Quantity(near, native, coef, threshold), decimals);
  }

  lemma ChargedIsQuantity(near: nat, native: nat, coef: nat, threshold: nat)
    requires 0 < native && near / native * coef <= U64_MAX
    ensures ChargedQuantity(near, native, coef, threshold) == Quantity(near, native, coef, threshold)
  {
    var product: nat := near / native * coef;
    WrapsBelow(product);
    QuantityFromParts(near, native, coef, threshold);
  }

  lemma SameFee(q1: int, q2: int, decimals: nat)
    requires q1 == q2
    ensures decimals * q1 / BILLION == decimals * q2 / BILLION
  {}

  /** The charged quantity over the quotient and the remainder of the two prices, as long as nothing wraps. */
  lemma ClosedForm(near: nat, native: nat, coef: nat, threshold: nat)
    requires 0 < native && near / native * coef <= U64_MAX
    ensures var k, r := near / native, near % native;
            ChargedQuantity(near, native, coef, threshold)
              == CappedForm(k * coef / 100, k * coef * 10_000_000 + r * BILLION / native * coef / 100, threshold)
  {
    ChargedIsQuantity(near, native, coef, threshold);
    IntendedForm(near, native, coef, threshold);
  }

  /** At 64 percent a price ratio of 2^57 costs the cap; one of 2^58 should, and transfers are free instead. */
  lemma FeeWrapsToNothing(threshold: nat, decimals: nat)
    requires threshold <= 0x400_0000_0000_0000 / 100
    ensures ChargedFee(0x200_0000_0000_0000, 1, 64, threshold, decimals) == threshold * decimals
    ensures ChargedFee(0x400_0000_0000_0000, 1, 64, threshold, decimals) == 0
    ensures FeeOf(0x400_0000_0000_0000, 1, 64, threshold, decimals) == threshold * decimals
  {
    QuantitiesAt(threshold);
    FeeAtCap(Quantity(0x400_0000_0000_0000, 1, 64, threshold), threshold, decimals);
    FeeAtCap(ChargedQuantity(0x200_0000_0000_0000, 1, 64, threshold), threshold, decimals);
  }

  lemma QuantitiesAt(threshold: nat)
    requires threshold <= 0x400_0000_0000_0000 / 100
    ensures ChargedQuantity(0x200_0000_0000_0000, 1, 64, threshold) == threshold * BILLION
    ensures ChargedQuantity(0x400_0000_0000_0000, 1, 64, threshold) == 0
    ensures Quantity(0x400_0000_0000_0000, 1, 64, threshold) == threshold * BILLION
  {
    var near := 0x400_0000_0000_0000;
    assert near / 1 == near && near % 1 == 0 && near * 64 == U64_MAX + 1;
    assert near / 2 / 1 == near / 2 && near / 2 % 1 == 0 && WrapU64(near / 2 * 64) == near / 2 * 64;
    IntendedForm(near, 1, 64, threshold);
  }

  lemma FeeAtCap(q: int, threshold: nat, decimals: nat)
    requires q == threshold * BILLION
    ensures decimals * q / BILLION == threshold * decimals
  {
    assert decimals * (threshold * BILLION) == threshold * decimals * BILLION;
    DivIs(threshold * decimals * BILLION, BILLION, threshold * decimals);
  }

  lemma PartsOfFee(decimals: nat, integer: nat, fraction: nat)
    ensures 0 <= decimals * integer && 0 <= decimals * fraction / BILLION
    ensures decimals * integer + decimals * fraction / BILLION
              == decimals * (integer * BILLION + fraction) / BILLION
  {}

  // ---------------------------------------------------------------- what oracle and payer rely on

  lemma CappedMonotone(f1: nat, f2: nat, coef1: nat, coef2: nat, threshold: nat)
    requires f1 <= f2 && coef1 <= coef2
    ensures CappedForm(f1 / BILLION * coef1 / 100, f1 * coef1 / 100, threshold)
              <= CappedForm(f2 / BILLION * coef2 / 100, f2 * coef2 / 100, threshold)
  {
    ScaleMono(f1, f2, coef1, coef2);
    DivMono(f1, f2, BILLION);
    ScaleMono(f1 / BILLION, f2 / BILLION, coef1, coef2);
  }

  lemma ScaleMono(a: nat, b: nat, c: nat, d: nat)
    requires a <= b && c <= d
    ensures a * c / 100 <= b * d / 100
  {
    MulMono(a, b, c);
    MulMono(c, d, b);
    DivMono(a * c, b * d, 100);
  }

  lemma IntendedMonotone(near1: nat, native1: nat, near2: nat, native2: nat, coef1: nat, coef2: nat, threshold: nat)
    requires 0 < native1 && 0 < native2 && coef1 <= coef2
    requires near1 * native2 <= near2 * native1
    ensures Quantity(near1, native1, coef1, threshold) <= Quantity(near2, native2, coef2, threshold)
  {
    ScaledRatioMonotone(near1, native1, near2, native2);
    CappedMonotone(ScaledRatio(near1, native1), ScaledRatio(near2, native2), coef1, coef2, threshold);
  }

  /**
   * A price ratio that does not fall, and a coefficient that does not fall, never lower the charged fee: through the
   * integer steps, the saturating sum and the cap. Only the higher fee must be exact; the lower one may wrap.
   */
  lemma FeeMonotone(near1: nat, native1: nat, near2: nat, native2: nat, coef1: nat, coef2: nat,
                    threshold: nat, decimals: nat)
    requires 0 < native1 && 0 < native2 && coef1 <= coef2 <= 100
    requires near1 * native2 <= near2 * native1
    requires Exact(near2, native2, coef2, threshold)
    ensures ChargedQuantity(near1, native1, coef1, threshold) <= ChargedQuantity(near2, native2, coef2, threshold)
    ensures ChargedFee(near1, native1, coef1, threshold, decimals)
              <= ChargedFee(near2, native2, coef2, threshold, decimals)
  {
    IntendedMonotone(near1, native1, near2, native2, coef1, coef2, threshold);
    ChargedIff(near1, native1, coef1, threshold);
    ChargedIff(near2, native2, coef2, threshold);
    FeeScales(ChargedQuantity(near1, native1, coef1, threshold), ChargedQuantity(near2, native2, coef2, threshold),
              decimals);
  }

  lemma FeeScales(q1: int, q2: int, decimals: nat)
    requires q1 <= q2
    ensures decimals * q1 / BILLION <= decimals * q2 / BILLION
  {}

  /** Quotient and rounded fraction of two prices are those of their ratio. */
  lemma RatioParts(near: nat, native: nat)
    requires 0 < native
    ensures var f := ScaledRatio(near, native);
            near / native == f / BILLION && near % native * BILLION / native == f - f / BILLION * BILLION
  {
    ScaledRatioSplit(near, native);
    FractionBelowOne(near % native, native);
    DivIs(ScaledRatio(near, native), BILLION, near / native);
  }

  /** Equal ratios, whatever unit the two prices are quoted in, give equal charged fees, even where they wrap. */
  lemma FeeDependsOnRatioOnly(near1: nat, native1: nat, near2: nat, native2: nat, coef: nat,
                              threshold: nat, decimals: nat)
    requires 0 < native1 && 0 < native2
    requires near1 * native2 == near2 * native1
    ensures ChargedFee(near1, native1, coef, threshold, decimals)
         == ChargedFee(near2, native2, coef, threshold, decimals)
  {
    ScaledRatioMonotone(near1, native1, near2, native2);
    ScaledRatioMonotone(near2, native2, near1, native1);
    RatioParts(near1, native1);
    RatioParts(near2, native2);
    SameParts(near1, native1, near2, native2, coef, threshold);
    SameFee(ChargedQuantity(near1, native1, coef, threshold), ChargedQuantity(near2, native2, coef, threshold),
            decimals);
  }

  lemma SameParts(near1: nat, native1: nat, near2: nat, native2: nat, coef: nat, threshold: nat)
    requires 0 < native1 && 0 < native2
    requires near1 / native1 == near2 / native2
    requires near1 % native1 * BILLION / native1 == near2 % native2 * BILLION / native2
    ensures ChargedQuantity(near1, native1, coef, threshold) == ChargedQuantity(near2, native2, coef, threshold)
  {}

  /**
   * Below the cap and below the saturation point, and unless it wraps, the charged quantity never exceeds the exact
   * ratio coef*near/(100*native) and misses it by less than two billionths; cross-multiplied.
   */
  lemma WithinTwoBillionths(near: nat, native: nat, coef: nat, threshold: nat)
    requires 0 < native && coef <= 100 && near / native * coef <= U64_MAX
    requires var q := ChargedQuantity(near, native, coef, threshold);
             q < threshold * BILLION && q < (near / native * coef / 100 + 1) * BILLION
    ensures var q := ChargedQuantity(near, native, coef, threshold);
            q * 100 * native <= coef * near * BILLION < (q + 2) * 100 * native
  {
    ChargedIsQuantity(near, native, coef, threshold);
    IntendedWithin(near, native, coef, threshold);
  }

  lemma IntendedWithin(near: nat, native: nat, coef: nat, threshold: nat)
    requires 0 < native && coef <= 100
    requires var q := Quantity(near, native, coef, threshold);
             q < threshold * BILLION && q < (near / native * coef / 100 + 1) * BILLION
    ensures var q := Quantity(near, native, coef, threshold);
            q * 100 * native <= coef * near * BILLION < (q + 2) * 100 * native
  {
    var f := ScaledRatio(near, native);
    ScaledRatioSplit(near, native);
    FractionBelowOne(near % native, native);
    Rejoin(near / native, near % native * BILLION / native, coef);
    Unsaturated(near / native * coef / 100, f, coef, threshold);
    Sandwich(near * BILLION, native, coef, f, f * coef / 100);
    assert near * BILLION * coef == coef * near * BILLION;
  }

  lemma Unsaturated(whole: int, f: nat, coef: nat, threshold: nat)
    requires var q := CappedForm(whole, f * coef / 100, threshold);
             q < threshold * BILLION && q < (whole + 1) * BILLION
    ensures CappedForm(whole, f * coef / 100, threshold) == f * coef / 100
  {}

  /** Two roundings down, the second after scaling by at most one, lose less than two units. */
  lemma Sandwich(scaled: nat, native: nat, coef: nat, f: nat, q: nat)
    requires 0 < native && coef <= 100
    requires f * native <= scaled < (f + 1) * native
    requires q * 100 <= f * coef < (q + 1) * 100
    ensures q * 100 * native <= scaled * coef < (q + 2) * 100 * native
  {
    MulMono(q * 100, f * coef, native);
    MulMono(f * native, scaled, coef);
    assert f * coef * native == f * native * coef;
    MulMono(scaled, (f + 1) * native, coef);
    assert (f + 1) * native * coef == (f + 1) * coef * native;
    assert (f + 1) * coef == f * coef + coef;
    MulStrict((f + 1) * coef, (q + 2) * 100, native);
  }

  /** Neither the charged fee, whatever wraps, nor the intended one exceeds the cap. */
  lemma FeeNeverAboveCap(near: nat, native: nat, coef: nat, threshold: nat, decimals: nat)
    requires 0 < native
    ensures ChargedFee(near, native, coef, threshold, decimals) <= threshold * decimals
    ensures FeeOf(near, native, coef, threshold, decimals) <= threshold * decimals
  {
    CapScales(ChargedQuantity(near, native, coef, threshold), threshold, decimals);
    CapScales(Quantity(near, native, coef, threshold), threshold, decimals);
  }

  // ---------------------------------------------------------------- the fee in terms of the prices

  /** The fractions of integer part and remainder add up to one or more, and the sum stops there. */
  predicate Saturates(scaled: nat, rest: nat) {
    (scaled / 100 + 1) * BILLION <= scaled * 10_000_000 + rest
  }

  /**
   * A fee stands for two prices: the cap where the scaled ratio reaches it, the next whole token where fractions
   * saturate, and else decimals*coef*near/(100*native) rounded down, with an error of less than one unit and two
   * billionths of a token; cross-multiplied.
   */
  predicate InPrices(near: nat, native: nat, coef: nat, threshold: nat, decimals: nat, fee: nat)
    requires 0 < native
  {
    var scaled, rest := near / native * coef, ScaledRest(near, native, coef);
    if AtCap(scaled, rest, threshold) then fee == threshold * decimals
    else if Saturates(scaled, rest) then fee == decimals * (scaled / 100 + 1)
    else
      && fee * 100 * native <= decimals * coef * near
      && decimals * coef * near * BILLION < ((fee + 1) * BILLION + 2 * decimals) * 100 * native
  }

  lemma ChargedFeeInPrices(near: nat, native: nat, coef: nat, threshold: nat, decimals: nat)
    requires 0 < native && coef <= 100 && near / native * coef <= U64_MAX
    ensures InPrices(near, native, coef, threshold, decimals, ChargedFee(near, native, coef, threshold, decimals))
  {
    var scaled: nat, rest := near / native * coef, ScaledRest(near, native, coef);
    var q := ChargedQuantity(near, native, coef, threshold);
    WrapsBelow(scaled);
    RestBelowOne(near, native, coef);
    PartsIs(scaled, rest, threshold);
    if AtCap(scaled, rest, threshold) {
      FeeAtCap(q, threshold, decimals);
    } else if Saturates(scaled, rest) {
      FeeAtCap(q, scaled / 100 + 1, decimals);
      assert (scaled / 100 + 1) * decimals == decimals * (scaled / 100 + 1);
    } else {
      WithinTwoBillionths(near, native, coef, threshold);
      FeeWithin(near, native, coef, q, decimals);
    }
  }

  /** Which of the three values is the least. */
  lemma PartsIs(scaled: nat, rest: nat, threshold: nat)
    requires rest < BILLION
    ensures var q := FromParts(scaled, rest, threshold);
            if AtCap(scaled, rest, threshold) then q == threshold * BILLION
            else if Saturates(scaled, rest) then q == (scaled / 100 + 1) * BILLION
            else q < threshold * BILLION && q < (scaled / 100 + 1) * BILLION
  {}

  /** Rounding the fee down on top of the quantity loses less than one more unit. */
  lemma FeeWithin(near: nat, native: nat, coef: nat, q: nat, decimals: nat)
    requires 0 < native && q * 100 * native <= coef * near * BILLION < (q + 2) * 100 * native
    ensures var fee := decimals * q / BILLION;
            && 0 <= fee && fee * 100 * native <= decimals * coef * near
            && decimals * coef * near * BILLION < ((fee + 1) * BILLION + 2 * decimals) * 100 * native
  {
    var fee: nat := decimals * q / BILLION;
    var ratio := coef * near;
    assert fee * BILLION <= decimals * q < (fee + 1) * BILLION;
    LowerBound(fee, decimals, q, native, ratio);
    UpperBound(fee, decimals, q, native, ratio);
    assert decimals * coef * near == decimals * ratio;
  }

  lemma LowerBound(fee: nat, decimals: nat, q: nat, native: nat, ratio: nat)
    requires fee * BILLION <= decimals * q && q * 100 * native <= ratio * BILLION
    ensures fee * 100 * native <= decimals * ratio
  {
    MulMono(fee * BILLION, decimals * q, 100 * native);
    MulMono(q * 100 * native, ratio * BILLION, decimals);
    assert fee * BILLION * (100 * native) == fee * 100 * native * BILLION;
    assert decimals * q * (100 * native) == q * 100 * native * decimals;
    assert ratio * BILLION * decimals == decimals * ratio * BILLION;
  }

  lemma UpperBound(fee: nat, decimals: nat, q: nat, native: nat, ratio: nat)
    requires 0 < native && decimals * q < (fee + 1) * BILLION && ratio * BILLION < (q + 2) * 100 * native
    ensures decimals * ratio * BILLION < ((fee + 1) * BILLION + 2 * decimals) * 100 * native
  {
    MulMono(ratio * BILLION, (q + 2) * 100 * native, decimals);
    assert ratio * BILLION * decimals == decimals * ratio * BILLION;
    assert (q + 2) * 100 * native * decimals == (decimals * q + 2 * decimals) * (100 * native);
    MulStrict(decimals * q + 2 * decimals, (fee + 1) * BILLION + 2 * decimals, 100 * native);
    assert ((fee + 1) * BILLION + 2 * decimals) * (100 * native)
        == ((fee + 1) * BILLION + 2 * decimals) * 100 * native;
  }
}
