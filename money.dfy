/**
 * VAT and gross-amount arithmetic of the closing-entry engine. Amounts are
 * integer cents; a VAT rate is in tenths of a percent (20% is 200, 5.5% is 55).
 * `Math.round` rounds to the nearest integer with halves going up (towards
 * plus infinity), which is what `RoundToCent` does on exact fractions.
 */
module Money {

  /** Cents in one euro; tenths of a percent in a whole. */
  const CentsPerEuro := 100
  const RateScale := 1000

  /** `Math.round(x)` for the exact amount `num / den` cents: the nearest
      whole cent, a half going up. */
  function RoundToCent(num: int, den: int): (r: int)
    requires den > 0
    ensures 2 * den * r - den <= 2 * num < 2 * den * r + den
  {
    var q := (2 * num + den) / (2 * den);
    assert 2 * num + den == 2 * den * q + (2 * num + den) % (2 * den);
    q
  }

  /** Dividing out a positive factor: `k * x < k * y + k` leaves `x <= y`. */
  lemma ScaledLe(k: int, x: int, y: int)
    requires k > 0 && k * x < k * y + k
    ensures x <= y
  {
    var m := x - y - 1;
    assert k * m == k * x - k * y - k;
    assert m < 0 by {
      assert k * m < 0;
    }
  }

  /** The half-up rule pins the result down: any whole number of cents within
      half a cent of `num / den` (a half counting up) is `RoundToCent`. */
  lemma RoundToCentUnique(num: int, den: int, c: int)
    requires den > 0
    requires 2 * den * c - den <= 2 * num < 2 * den * c + den
    ensures RoundToCent(num, den) == c
  {
    var r := RoundToCent(num, den);
    ScaledLe(2 * den, r, c);
    ScaledLe(2 * den, c, r);
  }

  /** A whole number of cents, taken as hundredths, rounds to itself. */
  lemma RoundWholeCents(c: int)
    ensures RoundToCent(100 * c, 100) == c
  {
    RoundToCentUnique(100 * c, 100, c);
  }

  /** `round2` on an amount that is already a whole number of cents leaves
      it as it is. */
  function Round2(c: int): (r: int)
    ensures r == c
  {
    RoundToCent(c, 1)
  }

  /** `computeTVA`: HT times the rate, rounded half-up to the cent. */
  function ComputeTva(amountHT: int, tvaRate: int): (r: int)
    ensures 2 * RateScale * r - RateScale <= 2 * amountHT * tvaRate < 2 * RateScale * r + RateScale
    ensures amountHT >= 0 && tvaRate >= 0 ==> r >= 0
    ensures tvaRate == 0 ==> r == 0
  {
    RoundToCent(amountHT * tvaRate, RateScale)
  }

  /** `TTC`: HT plus VAT rounded to the cent, which is exact on cents. */
  function Ttc(amountHT: int, tva: int): (r: int)
    ensures r - amountHT == tva
  {
    Round2(amountHT + tva)
  }

  /** Worked example: 1000.00 at 20% gives 200.00 of VAT and 1200.00 TTC. */
  lemma VatExample()
    ensures ComputeTva(100000, 200) == 20000
    ensures Ttc(100000, ComputeTva(100000, 200)) == 120000
  {
    RoundToCentUnique(100000 * 200, RateScale, 20000);
  }

  /** VAT is monotonic in the HT amount at a fixed non-negative rate. */
  lemma {:induction false} ComputeTvaMonotonic(a: int, b: int, tvaRate: int)
    requires a <= b && tvaRate >= 0
    ensures ComputeTva(a, tvaRate) <= ComputeTva(b, tvaRate)
  {
    var ra, rb := ComputeTva(a, tvaRate), ComputeTva(b, tvaRate);
    assert a * tvaRate <= b * tvaRate by {
      assert (b - a) * tvaRate >= 0;
    }
    ScaledLe(2 * RateScale, ra, rb);
  }
}
