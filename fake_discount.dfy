/**
 A fake-discount detection record. `FakeDiscountHistory.create` derives two
 rates from three prices: the rate the merchant advertises, taken off the
 raised price, and the real rate, taken off the price before the raise.
 */
module FakeDiscounts {
  import opened Types

  /** The pattern classification of a detection; the code names none of its constants. */
  datatype FakeDiscountPattern = FakeDiscountPattern(name: string)

  /** A stored detection. Every field is set once, by `Create`. */
  datatype FakeDiscountHistory = FakeDiscountHistory(
    product: ProductId,
    holiday: Option<HolidayId>,
    detectedAt: DateTime,
    priceBeforeRaise: int,
    raisedPrice: int,
    discountedPrice: int,
    fakeDiscountRate: int,
    realDiscountRate: int,
    confidenceScore: int,
    patternType: FakeDiscountPattern,
    createdAt: DateTime)

  /** The bounds of Java's 32-bit `int`. */
  const MinInt: int := -0x8000_0000
  const MaxInt: int := 0x7fff_ffff

  /** `q` is the exact quotient `a / b` rounded toward zero. */
  ghost predicate IsTruncatedQuotient(q: int, a: int, b: int)
    requires b > 0
  {
    && (0 <= a ==> 0 <= q && q * b <= a < q * b + b)
    && (a < 0 ==> q <= 0 && q * b - b < a <= q * b)
  }

  /**
   `r` is what Java's `(int)` cast makes of the exact quotient `a / b`: the
   quotient rounded toward zero while that fits in an `int`, and the nearest
   bound of the `int` range when it does not.
   */
  ghost predicate IsIntCastOfQuotient(r: int, a: int, b: int)
    requires b > 0
  {
    && MinInt <= r <= MaxInt
    && (MinInt < r < MaxInt ==> IsTruncatedQuotient(r, a, b))
    && (r == MaxInt ==> MaxInt * b <= a)
    && (r == MinInt ==> a <= MinInt * b)
  }

  /** Division rounding toward zero (Dafny's own `/` rounds toward negative infinity here). */
  function TruncDiv(a: int, b: int): (q: int)
    requires b > 0
    ensures IsTruncatedQuotient(q, a, b)
  {
    if a >= 0 then a / b else -((-a) / b)
  }

  /** Java's `(int)` cast of a value beyond the `int` range gives the nearest bound. */
  function SaturateToInt(x: int): (r: int)
    ensures MinInt <= r <= MaxInt
  {
    if x < MinInt then MinInt else if MaxInt < x then MaxInt else x
  }

  /** The truncated quotient is unique, so `TruncDiv` is the only function meeting its contract. */
  lemma TruncatedQuotientUnique(q1: int, q2: int, a: int, b: int)
    requires b > 0 && IsTruncatedQuotient(q1, a, b) && IsTruncatedQuotient(q2, a, b)
    ensures q1 == q2
  {
    if q1 < q2 {
      MulMonotone(q1 + 1, q2, b);
    } else if q2 < q1 {
      MulMonotone(q2 + 1, q1, b);
    }
  }

  lemma MulMonotone(x: int, y: int, b: int)
    requires x <= y && b > 0
    ensures x * b <= y * b
  {
  }

  /** Saturating a truncated quotient is the `int` cast of the quotient. */
  lemma CastOfTruncatedQuotient(q: int, a: int, b: int)
    requires b > 0 && IsTruncatedQuotient(q, a, b)
    ensures IsIntCastOfQuotient(SaturateToInt(q), a, b)
  {
    if q >= MaxInt {
      MulMonotone(MaxInt, q, b);
    } else if q <= MinInt {
      MulMonotone(q, MinInt, b);
    }
  }

  /** A quotient that truncates to a value strictly inside the `int` range is never cast to a bound. */
  lemma InteriorQuotientNotSaturated(q: int, r: int, a: int, b: int)
    requires b > 0 && MinInt < q < MaxInt && IsTruncatedQuotient(q, a, b)
    requires IsIntCastOfQuotient(r, a, b)
    ensures MinInt < r < MaxInt
  {
    if a >= 0 {
      MulMonotone(q + 1, MaxInt, b);
    } else {
      MulMonotone(MinInt, q - 1, b);
    }
  }

  /** The `int` cast of a quotient is unique, so `DiscountRate` is fixed by its contract. */
  lemma IntCastOfQuotientUnique(r1: int, r2: int, a: int, b: int)
    requires b > 0 && IsIntCastOfQuotient(r1, a, b) && IsIntCastOfQuotient(r2, a, b)
    ensures r1 == r2
  {
    if MinInt < r1 < MaxInt {
      InteriorQuotientNotSaturated(r1, r2, a, b);
      TruncatedQuotientUnique(r1, r2, a, b);
    } else if MinInt < r2 < MaxInt {
      InteriorQuotientNotSaturated(r2, r1, a, b);
    }
  }

  /** A larger numerator never gives a smaller truncated quotient. */
  lemma TruncDivMonotone(a1: int, a2: int, b: int)
    requires b > 0 && a1 <= a2
    ensures TruncDiv(a1, b) <= TruncDiv(a2, b)
  {
    var q1, q2 := TruncDiv(a1, b), TruncDiv(a2, b);
    if q2 < q1 {
      MulMonotone(q2 + 1, q1, b);
      assert false;
    }
  }

  /**
   The percentage taken off `basePrice` by selling at `salePrice`:
   `(int) ((basePrice - salePrice) * 100.0 / basePrice)`, or 0 when the base
   price is not positive. The advertised rate uses the raised price as base,
   the real rate the price before the raise.
   */
  function DiscountRate(basePrice: int, salePrice: int): (rate: int)
    ensures basePrice <= 0 ==> rate == 0
    ensures basePrice > 0 ==> IsIntCastOfQuotient(rate, (basePrice - salePrice) * 100, basePrice)
  {
    if basePrice > 0 then
      var a := (basePrice - salePrice) * 100;
      CastOfTruncatedQuotient(TruncDiv(a, basePrice), a, basePrice);
      SaturateToInt(TruncDiv(a, basePrice))
    else 0
  }

  /** A sale price between zero and the raised price gives an advertised rate between 0 and 100 percent. */
  lemma AdvertisedRateIsPercentage(raisedPrice: int, discountedPrice: int)
    requires 0 < raisedPrice && 0 <= discountedPrice <= raisedPrice
    ensures 0 <= DiscountRate(raisedPrice, discountedPrice) <= 100
  {
    var a := (raisedPrice - discountedPrice) * 100;
    var q := TruncDiv(a, raisedPrice);
    assert q * raisedPrice <= a <= raisedPrice * 100;
    if q > 100 {
      MulMonotone(101, q, raisedPrice);
      assert false;
    }
    assert DiscountRate(raisedPrice, discountedPrice) == q;
  }

  /** For a fixed raised price, a deeper sale (a lower price) never advertises a smaller rate. */
  lemma AdvertisedRateNonIncreasing(raisedPrice: int, lower: int, higher: int)
    requires 0 < raisedPrice && lower <= higher
    ensures DiscountRate(raisedPrice, higher) <= DiscountRate(raisedPrice, lower)
  {
    TruncDivMonotone((raisedPrice - higher) * 100, (raisedPrice - lower) * 100, raisedPrice);
  }

  /**
   A sale price above the baseline gives a real rate of at most zero, and a
   negative one exactly when the excess is at least one percent of the baseline.
   */
  lemma RealRateNegativeAboveBaseline(priceBeforeRaise: int, discountedPrice: int)
    requires 0 < priceBeforeRaise < discountedPrice
    ensures DiscountRate(priceBeforeRaise, discountedPrice) <= 0
    ensures DiscountRate(priceBeforeRaise, discountedPrice) < 0
        <==> (discountedPrice - priceBeforeRaise) * 100 >= priceBeforeRaise
  {
    var q := TruncDiv((priceBeforeRaise - discountedPrice) * 100, priceBeforeRaise);
    if q < 0 {
      MulMonotone(q, -1, priceBeforeRaise);
    }
  }

  /**
   A sale price far above a tiny baseline gives a quotient below the `int`
   range, and the cast saturates: baseline 1 and sale price 30000000 give
   `Integer.MIN_VALUE`, not -2999999900.
   */
  lemma RealRateSaturates()
    ensures DiscountRate(1, 30000000) == MinInt
  {
  }

  /**
   Builds a detection from the three prices: stores every input unchanged,
   stamps both timestamps from the clock and derives the two rates.
   */
  function Create(
    product: ProductId,
    holiday: Option<HolidayId>,
    priceBeforeRaise: int,
    raisedPrice: int,
    discountedPrice: int,
    confidenceScore: int,
    patternType: FakeDiscountPattern,
    now: DateTime): (h: FakeDiscountHistory)
    ensures h.product == product && h.holiday == holiday
    ensures h.priceBeforeRaise == priceBeforeRaise && h.raisedPrice == raisedPrice
    ensures h.discountedPrice == discountedPrice
    ensures h.confidenceScore == confidenceScore && h.patternType == patternType
    ensures h.detectedAt == now && h.createdAt == now
    ensures h.fakeDiscountRate == DiscountRate(raisedPrice, discountedPrice)
    ensures h.realDiscountRate == DiscountRate(priceBeforeRaise, discountedPrice)
  {
    FakeDiscountHistory(
      product, holiday, now, priceBeforeRaise, raisedPrice, discountedPrice,
      DiscountRate(raisedPrice, discountedPrice),
      DiscountRate(priceBeforeRaise, discountedPrice),
      confidenceScore, patternType, now)
  }

  /**
   The classic signature: a 50000 baseline raised to 100000 and sold at 80000
   advertises 20 percent off while the price is really 60 percent above the baseline.
   */
  lemma CreateClassicSignature(product: ProductId, holiday: Option<HolidayId>, score: int,
                               pattern: FakeDiscountPattern, now: DateTime)
    ensures var h := Create(product, holiday, 50000, 100000, 80000, score, pattern, now);
      h.fakeDiscountRate == 20 && h.realDiscountRate == -60
  {
  }

  /** A zero raised price or baseline yields a zero rate instead of a division by zero. */
  lemma CreateGuardsZeroPrices(product: ProductId, holiday: Option<HolidayId>, discountedPrice: int,
                               score: int, pattern: FakeDiscountPattern, now: DateTime)
    ensures var h := Create(product, holiday, 0, 0, discountedPrice, score, pattern, now);
      h.fakeDiscountRate == 0 && h.realDiscountRate == 0
  {
  }
}
