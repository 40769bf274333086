/**
 * VAT rates written out in a statement, the way JavaScript writes a number
 * of tenths of a percent, and read back by `parseFloat`.
 */
module Rates {
  import opened Numbers

  /** A rate in tenths of a percent as JavaScript writes the number: "20",
      "10", "5.5", "0". */
  function RateText(rate: nat): string {
    if rate % 10 == 0 then NatText(rate / 10) else TenthsText(rate)
  }

  /** The text of a rate reads back as the rate, has a point only when the
      rate is not a whole percent, and starts with a zero only below 1 %. */
  lemma RateTextReadsBack(rate: nat)
    ensures var v := ParseFloat(RateText(rate)); v.Finite? && v.num * 10 == rate * v.den
    ensures '.' in RateText(rate) <==> rate % 10 != 0
    ensures RateText(rate)[0] == '0' <==> rate < 10
  {
    if rate % 10 == 0 {
      WholeRateText(rate);
      assert rate / 10 * 10 == rate;
    } else {
      TenthsRateText(rate);
    }
  }

  /** `RateText` of a whole percent. */
  lemma WholeRateText(rate: nat)
    requires rate % 10 == 0
    ensures RateText(rate) == NatText(rate / 10)
    ensures ParseFloat(NatText(rate / 10)) == Finite(rate / 10, 1)
    ensures '.' !in NatText(rate / 10)
  {
    ParseWhole(NatText(rate / 10));
  }

  /** `RateText` of a rate with tenths. */
  lemma TenthsRateText(rate: nat)
    requires rate % 10 != 0
    ensures RateText(rate) == TenthsText(rate)
    ensures ParseFloat(TenthsText(rate)) == Finite(rate, 10)
    ensures '.' in TenthsText(rate) && TenthsText(rate)[0] == NatText(rate / 10)[0]
  {
    ParseTenths(rate);
    TenthsTextShape(rate);
  }
}
