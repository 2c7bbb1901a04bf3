/**
 * The compact price label of the listings page
 * (src/components/HomePage.tsx): a price of at least one crore is shown in
 * crores, one of at least one lakh in lakhs, anything smaller in rupees.
 *
 * The digit rendering itself (`toFixed(1)` and `toLocaleString('en-IN')`)
 * is passed in as two functions, so the model fixes the unit, the scaled
 * value handed to the renderer and the text around it, not the digits.
 */
module PriceFormat {

  const Crore: real := 10000000.0
  const Lakh: real := 100000.0
  const RupeeSign: char := '₹'

  /** The unit a label is written in. */
  datatype Unit = Cr | Lac | Rupees

  /** The branch `formatPrice` takes: exactly one unit for every price. */
  function UnitFor(price: real): (u: Unit)
    ensures u == Cr <==> price >= Crore
    ensures u == Lac <==> Lakh <= price < Crore
    ensures u == Rupees <==> price < Lakh
  {
    if price >= 10000000.0 then Cr
    else if price >= 100000.0 then Lac
    else Rupees
  }

  function UnitSize(u: Unit): real
  {
    match u
    case Cr => Crore
    case Lac => Lakh
    case Rupees => 1.0
  }

  /** The number handed to the digit renderer. Multiplied back by the size
      of its unit it gives the price again; in crores it is at least 1, in
      lakhs it lies in [1, 100). */
  function ScaledValue(price: real): (x: real)
    ensures x * UnitSize(UnitFor(price)) == price
    ensures UnitFor(price) == Cr ==> x >= 1.0
    ensures UnitFor(price) == Lac ==> 1.0 <= x < 100.0
    ensures UnitFor(price) == Rupees ==> x == price
  {
    match UnitFor(price)
    case Cr => price / 10000000.0
    case Lac => price / 100000.0
    case Rupees => price
  }

  /** `formatPrice`, given the renderers for `toFixed(1)` and for the
      Indian-grouped integer. */
  function FormatPrice(price: real, fixed1: real -> string, grouped: real -> string): (s: string)
    ensures |s| > 0 && s[0] == RupeeSign
    ensures UnitFor(price) == Cr ==> s == [RupeeSign] + fixed1(ScaledValue(price)) + " Cr"
    ensures UnitFor(price) == Lac ==> s == [RupeeSign] + fixed1(ScaledValue(price)) + " Lac"
    ensures UnitFor(price) == Rupees ==> s == [RupeeSign] + grouped(price)
  {
    if price >= 10000000.0 then
      "₹" + fixed1(price / 10000000.0) + " Cr"
    else if price >= 100000.0 then
      "₹" + fixed1(price / 100000.0) + " Lac"
    else
      "₹" + grouped(price)
  }

  predicate EndsWith(s: string, suffix: string)
  {
    |suffix| <= |s| && s[|s| - |suffix|..] == suffix
  }

  /** Characters a numeral may contain: digits, the decimal point, the
      grouping comma and a minus sign. */
  predicate IsNumeral(t: string)
  {
    forall k :: 0 <= k < |t| ==> t[k] in "0123456789.,-"
  }

  /** A string ending in a non-empty suffix ends in its last character. */
  lemma EndsWithLastChar(s: string, suffix: string)
    ensures EndsWith(s, suffix) && |suffix| > 0 ==> s[|s| - 1] == suffix[|suffix| - 1]
  {
    if EndsWith(s, suffix) && |suffix| > 0 {
      assert s[|s| - 1] == s[|s| - |suffix|..][|suffix| - 1];
    }
  }

  /** As long as the grouped rendering is a numeral, the unit can be read back
      from the label: it ends in " Cr" exactly for crore prices and in " Lac"
      exactly for lakh prices. */
  lemma UnitReadBack(price: real, fixed1: real -> string, grouped: real -> string)
    requires IsNumeral(grouped(price))
    ensures EndsWith(FormatPrice(price, fixed1, grouped), " Cr") <==> price >= Crore
    ensures EndsWith(FormatPrice(price, fixed1, grouped), " Lac") <==> Lakh <= price < Crore
  {
    var s := FormatPrice(price, fixed1, grouped);
    var n := |s|;
    EndsWithLastChar(s, " Cr");
    EndsWithLastChar(s, " Lac");
    match UnitFor(price)
    case Cr =>
      assert s[n - 3..] == " Cr";
    case Lac =>
      assert s[n - 4..] == " Lac";
    case Rupees =>
      var g := grouped(price);
      assert s == [RupeeSign] + g;
      if n > 1 {
        assert s[n - 1] == g[|g| - 1];
      }
  }

  /** The asking prices of the five sample listings. */
  const SamplePrices: seq<real> := [25000000.0, 18000000.0, 32000000.0, 28000000.0, 22000000.0]

  /** Every sample listing is labelled in crores, with one significant
      decimal: 2.5, 1.8, 3.2, 2.8 and 2.2. */
  lemma SampleLabels(fixed1: real -> string, grouped: real -> string)
    ensures forall k :: 0 <= k < |SamplePrices| ==> UnitFor(SamplePrices[k]) == Cr
    ensures FormatPrice(SamplePrices[0], fixed1, grouped) == "₹" + fixed1(2.5) + " Cr"
    ensures FormatPrice(SamplePrices[1], fixed1, grouped) == "₹" + fixed1(1.8) + " Cr"
    ensures FormatPrice(SamplePrices[2], fixed1, grouped) == "₹" + fixed1(3.2) + " Cr"
    ensures FormatPrice(SamplePrices[3], fixed1, grouped) == "₹" + fixed1(2.8) + " Cr"
    ensures FormatPrice(SamplePrices[4], fixed1, grouped) == "₹" + fixed1(2.2) + " Cr"
  {
  }
}
