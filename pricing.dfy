/**
 * The price estimator of the project page (src/App.tsx): the form record,
 * the three clamps applied by the change handlers, the city multiplier table
 * and the linear price formula with its compounded projection.
 *
 * Numbers are exact: the form fields are integers and every price is a
 * `real`, so the model says nothing about floating-point rounding or NaN.
 */
module Pricing {

  /** The form record `PredictionInputs`. */
  datatype Inputs = Inputs(
    bedrooms: int,
    bathrooms: int,
    floors: int,
    yearBuilt: int,
    location: string,
    squareFeet: int,
    projectionYears: int)

  /** The record the form starts with. */
  const DefaultInputs: Inputs := Inputs(3, 2, 1, 2000, "Mumbai", 1200, 5)

  // Bounds of the three clamped fields.
  const MinSquareFeet: int := 200
  const MaxSquareFeet: int := 20000
  const MinFloors: int := 1
  const MaxFloors: int := 30
  const MinYearBuilt: int := 1900
  const MaxYearBuilt: int := 2025

  // Coefficients of the linear formula, in rupees.
  const BasePrice: int := 2500000
  const PerBedroom: int := 1000000
  const PerBathroom: int := 500000
  const PerFloor: int := 1500000
  const AgeReferenceYear: int := 2024
  const PerYearOfAge: int := -20000
  const PerSquareFoot: int := 3000

  /** Neither estimate is ever shown below ten lakh rupees. */
  const FloorPrice: real := 1000000.0

  /** Yearly appreciation factor of the projection (8 %). */
  const Appreciation: real := 1.08

  function Min(a: int, b: int): int { if a <= b then a else b }
  function Max(a: int, b: int): int { if a >= b then a else b }
  function MaxReal(a: real, b: real): real { if a >= b then a else b }

  // ---------------------------------------------------------------------
  // Input normaliser
  // ---------------------------------------------------------------------

  /** `Math.min(Math.max(v, lo), hi)`: the nearest point of [lo, hi] to v. */
  function Clamp(v: int, lo: int, hi: int): (r: int)
    requires lo <= hi
    ensures lo <= r <= hi
    ensures lo <= v <= hi ==> r == v
    ensures v < lo ==> r == lo
    ensures hi < v ==> r == hi
  {
    Min(Max(v, lo), hi)
  }

  function ClampSquareFeet(v: int): (r: int)
    ensures MinSquareFeet <= r <= MaxSquareFeet
    ensures MinSquareFeet <= v <= MaxSquareFeet ==> r == v
  {
    Clamp(v, MinSquareFeet, MaxSquareFeet)
  }

  function ClampFloors(v: int): (r: int)
    ensures MinFloors <= r <= MaxFloors
    ensures MinFloors <= v <= MaxFloors ==> r == v
  {
    Clamp(v, MinFloors, MaxFloors)
  }

  function ClampYearBuilt(v: int): (r: int)
    ensures MinYearBuilt <= r <= MaxYearBuilt
    ensures MinYearBuilt <= v <= MaxYearBuilt ==> r == v
  {
    Clamp(v, MinYearBuilt, MaxYearBuilt)
  }

  /** Clamping twice is clamping once. */
  lemma ClampIdempotent(v: int, lo: int, hi: int)
    requires lo <= hi
    ensures Clamp(Clamp(v, lo, hi), lo, hi) == Clamp(v, lo, hi)
  {
  }

  /** A value is left alone exactly when it already lies in the interval. */
  lemma ClampFixesExactlyTheInterval(v: int, lo: int, hi: int)
    requires lo <= hi
    ensures Clamp(v, lo, hi) == v <==> lo <= v <= hi
  {
  }

  /** The boundary cases of the square-feet field. */
  lemma SquareFeetBoundaries()
    ensures ClampSquareFeet(50) == 200
    ensures ClampSquareFeet(50000) == 20000
    ensures ClampSquareFeet(1200) == 1200
  {
  }

  /** The values offered by the floors select: 0 ("Ground Floor") to 30. */
  const FloorOptions: seq<int> := seq(31, k => k)

  /** Every option is stored as itself, except "Ground Floor", stored as 1. */
  lemma FloorOptionsStored()
    ensures |FloorOptions| == 31
    ensures forall k :: 0 < k < |FloorOptions| ==> ClampFloors(FloorOptions[k]) == k
    ensures ClampFloors(FloorOptions[0]) == 1 == ClampFloors(FloorOptions[1])
  {
  }

  /** The three clamped fields lie within their bounds. */
  ghost predicate ClampedFieldsInRange(i: Inputs)
  {
    && MinSquareFeet <= i.squareFeet <= MaxSquareFeet
    && MinFloors <= i.floors <= MaxFloors
    && MinYearBuilt <= i.yearBuilt <= MaxYearBuilt
  }

  // ---------------------------------------------------------------------
  // City multipliers
  // ---------------------------------------------------------------------

  /** `LOCATION_MULTIPLIERS`: exact, case-sensitive keys. */
  const CityMultipliers: map<string, real> := map[
    "Mumbai" := 2.5,
    "Delhi" := 2.2,
    "Bangalore" := 2.0,
    "Hyderabad" := 1.8,
    "Chennai" := 1.7,
    "Kolkata" := 1.5,
    "Pune" := 1.6,
    "Ahmedabad" := 1.4,
    "Jaipur" := 1.3,
    "Lucknow" := 1.2,
    "Nagpur" := 1.3,
    "Bhopal" := 1.2,
    "Chandigarh" := 1.5,
    "Thiruvananthapuram" := 1.4,
    "Patna" := 1.1,
    "Raipur" := 1.1,
    "Gandhinagar" := 1.3,
    "Ranchi" := 1.1,
    "Bhubaneswar" := 1.2,
    "Dehradun" := 1.3,
    "Shimla" := 1.4,
    "Panaji" := 1.5,
    "Shillong" := 1.2,
    "Imphal" := 1.1,
    "Aizawl" := 1.1,
    "Kohima" := 1.1,
    "Agartala" := 1.1,
    "Itanagar" := 1.1,
    "Dispur" := 1.2
  ]

  /** `LOCATIONS`: the cities offered by the location select. */
  const Locations: seq<string> := [
    "Mumbai", "Delhi", "Bangalore", "Hyderabad", "Chennai",
    "Kolkata", "Pune", "Ahmedabad", "Jaipur", "Lucknow",
    "Nagpur", "Bhopal", "Chandigarh", "Thiruvananthapuram",
    "Patna", "Raipur", "Gandhinagar", "Ranchi", "Bhubaneswar",
    "Dehradun", "Shimla", "Panaji", "Shillong", "Imphal",
    "Aizawl", "Kohima", "Agartala", "Itanagar", "Dispur"
  ]

  /** `LOCATION_MULTIPLIERS[city] || 1`. */
  function LocationMultiplier(city: string): (m: real)
    ensures 1.0 <= m <= 2.5
    ensures city in CityMultipliers ==> m == CityMultipliers[city]
    ensures city !in CityMultipliers ==> m == 1.0
  {
    if city in CityMultipliers then CityMultipliers[city] else 1.0
  }

  /** Every table value lies in [1.1, 2.5], so a listed city always raises
      the estimate, and the select offers exactly the listed cities. */
  lemma MultiplierTable()
    ensures forall c :: c in CityMultipliers ==> 1.1 <= CityMultipliers[c] <= 2.5
    ensures |Locations| == 29
    ensures forall c :: c in Locations <==> c in CityMultipliers
  {
  }

  /** Lookup is case-sensitive: a differently cased or unlisted city gets
      the neutral multiplier. */
  lemma MultiplierFallback()
    ensures LocationMultiplier("Mumbai") == 2.5
    ensures LocationMultiplier("mumbai") == 1.0
    ensures LocationMultiplier("Atlantis") == 1.0
  {
  }

  // ---------------------------------------------------------------------
  // Price estimator
  // ---------------------------------------------------------------------

  /** The bracketed sum of `predictPrice`, before the city multiplier. */
  function LinearValue(i: Inputs): int
  {
    BasePrice
    + i.bedrooms * PerBedroom
    + i.bathrooms * PerBathroom
    + i.floors * PerFloor
    + (AgeReferenceYear - i.yearBuilt) * PerYearOfAge
    + i.squareFeet * PerSquareFoot
  }

  /** `predicted`: the linear sum scaled by the city multiplier. It keeps
      the sign of the sum and stays within 1 to 2.5 times it. */
  function RawPrice(i: Inputs): (r: real)
    ensures LinearValue(i) >= 0 ==> LinearValue(i) as real <= r <= 2.5 * LinearValue(i) as real
    ensures LinearValue(i) <= 0 ==> 2.5 * LinearValue(i) as real <= r <= LinearValue(i) as real
    ensures r > 0.0 <==> LinearValue(i) > 0
  {
    var m := LocationMultiplier(i.location);
    ScaleBounds(LinearValue(i) as real, m);
    LinearValue(i) as real * m
  }

  lemma ScaleBounds(x: real, m: real)
    requires 1.0 <= m <= 2.5
    ensures x >= 0.0 ==> x <= x * m <= 2.5 * x
    ensures x <= 0.0 ==> 2.5 * x <= x * m <= x
    ensures x * m > 0.0 <==> x > 0.0
  {
    if x >= 0.0 {
      assert x * m - x == x * (m - 1.0);
      assert 2.5 * x - x * m == x * (2.5 - m);
    } else {
      assert x - x * m == -x * (m - 1.0);
      assert x * m - 2.5 * x == -x * (2.5 - m);
    }
  }

  /** `Math.pow(b, n)` for a natural exponent. */
  function Pow(b: real, n: nat): (r: real)
    ensures b > 0.0 ==> r > 0.0
    ensures b >= 1.0 ==> r >= 1.0
    decreases n
  {
    if n == 0 then 1.0
    else
      var p := Pow(b, n - 1);
      AtLeastOneProduct(b, p);
      b * p
  }

  lemma AtLeastOneProduct(a: real, b: real)
    ensures a > 0.0 && b > 0.0 ==> a * b > 0.0
    ensures a >= 1.0 && b >= 1.0 ==> a * b >= 1.0
  {
    if a >= 1.0 && b >= 1.0 {
      assert a * b - 1.0 == (a - 1.0) * b + (b - 1.0);
    }
  }

  /** `Math.pow(1.08, years)`. The slider keeps the horizon in 1 to 100,
      but its handler does not clamp; for generality a negative exponent
      gives the reciprocal of the positive power. */
  function GrowthFactor(years: int): (g: real)
    ensures g > 0.0
    ensures years >= 0 ==> g >= 1.0
    ensures years <= 0 ==> g <= 1.0
  {
    if years >= 0 then Pow(Appreciation, years)
    else
      var p := Pow(Appreciation, -years);
      assert 1.0 / p <= 1.0 by { assert p * (1.0 / p) == 1.0; }
      1.0 / p
  }

  /** The current estimate: the raw price floored at ten lakh. */
  function CurrentPrice(i: Inputs): (p: real)
    ensures p >= FloorPrice && p >= RawPrice(i)
    ensures p == RawPrice(i) || p == FloorPrice
  {
    MaxReal(RawPrice(i), FloorPrice)
  }

  /** `predicted * Math.pow(1.08, years)`: the raw price carried forward. */
  function Projected(raw: real, years: int): real
  {
    raw * GrowthFactor(years)
  }

  /** The projected estimate: the UNFLOORED raw price compounded over the
      projection years, then floored on its own. */
  function FuturePrice(i: Inputs): (p: real)
    ensures p >= FloorPrice && p >= Projected(RawPrice(i), i.projectionYears)
    ensures p == Projected(RawPrice(i), i.projectionYears) || p == FloorPrice
  {
    MaxReal(Projected(RawPrice(i), i.projectionYears), FloorPrice)
  }

  // ---------------------------------------------------------------------
  // Properties of the estimator
  // ---------------------------------------------------------------------

  /** Default form: 11,120,000 before the multiplier; Mumbai's 2.5 makes it
      27,800,000, an unlisted city leaves it as is. */
  lemma DefaultScenario()
    ensures LinearValue(DefaultInputs) == 11120000
    ensures RawPrice(DefaultInputs) == 27800000.0
    ensures CurrentPrice(DefaultInputs) == 27800000.0
    ensures RawPrice(DefaultInputs.(location := "Atlantis")) == 11120000.0
    ensures CurrentPrice(DefaultInputs.(location := "Atlantis")) == 11120000.0
  {
  }

  /** Five years at 8 % on the default Mumbai estimate, in exact arithmetic. */
  lemma DefaultProjection()
    ensures GrowthFactor(5) == 1.4693280768
    ensures FuturePrice(DefaultInputs) == 40847320.53504
  {
    DefaultScenario();
    assert Pow(Appreciation, 5) == 1.4693280768;
  }

  /** With a non-negative horizon the projection never falls below the
      current estimate: for a positive raw price by compounding, otherwise
      because both show the floor. */
  lemma FutureAtLeastCurrent(i: Inputs)
    requires i.projectionYears >= 0
    ensures FuturePrice(i) >= CurrentPrice(i)
  {
    var r, g := RawPrice(i), GrowthFactor(i.projectionYears);
    if r <= 0.0 {
      NonPositiveRawShowsFloor(i);
    } else {
      assert r * g - r == r * (g - 1.0);
      MulNonNeg(r, g - 1.0);
    }
  }

  /** A raw price that is not positive shows as the floor on both sides. */
  lemma NonPositiveRawShowsFloor(i: Inputs)
    requires RawPrice(i) <= 0.0
    ensures CurrentPrice(i) == FloorPrice == FuturePrice(i)
  {
    var r, g := RawPrice(i), GrowthFactor(i.projectionYears);
    assert r * g <= 0.0 by { assert -(r * g) == (-r) * g; }
  }

  /** The two floors are applied independently: here the current estimate
      is floored while the projection, compounded from the raw 620,000 and
      not from the floored 1,000,000, is not. */
  lemma FloorsAreIndependent()
    ensures
      var i := Inputs(-1, -1, 1, 1900, "Atlantis", 200, 10);
      && RawPrice(i) == 620000.0
      && CurrentPrice(i) == FloorPrice
      && FuturePrice(i) == 620000.0 * Pow(Appreciation, 10)
      && FuturePrice(i) < FloorPrice * Pow(Appreciation, 10)
  {
    var i := Inputs(-1, -1, 1, 1900, "Atlantis", 200, 10);
    assert Pow(Appreciation, 10) > 1.7 by {
      assert Pow(Appreciation, 10) == 2.15892499727278669824;
    }
  }

  /** Within the ranges the form enforces or suggests (the three clamps and
      at least one bedroom and bathroom) the raw price is at least
      3,620,000, so the floor never decides the current estimate there. */
  lemma RawAboveFloorInsideRanges(i: Inputs)
    requires ClampedFieldsInRange(i) && i.bedrooms >= 1 && i.bathrooms >= 1
    ensures RawPrice(i) >= 3620000.0
    ensures CurrentPrice(i) == RawPrice(i)
  {
    assert LinearValue(i) >= 3620000;
  }

  /** `j` has at least as many bedrooms, bathrooms, floors and square feet,
      is no older, and is in the same city with the same horizon. */
  ghost predicate Dominates(j: Inputs, i: Inputs)
  {
    && j.bedrooms >= i.bedrooms
    && j.bathrooms >= i.bathrooms
    && j.floors >= i.floors
    && j.yearBuilt >= i.yearBuilt
    && j.squareFeet >= i.squareFeet
    && j.location == i.location
    && j.projectionYears == i.projectionYears
  }

  /** Every linear term has a non-negative effective coefficient, so
      increasing any of the five numeric fields never lowers an estimate. */
  lemma EstimatesMonotone(i: Inputs, j: Inputs)
    requires Dominates(j, i)
    ensures RawPrice(i) <= RawPrice(j)
    ensures CurrentPrice(i) <= CurrentPrice(j)
    ensures FuturePrice(i) <= FuturePrice(j)
  {
    RawMonotone(i, j);
    MaxMonotone(RawPrice(i), RawPrice(j), FloorPrice);
    ProjectedMonotoneInRaw(RawPrice(i), RawPrice(j), i.projectionYears);
    MaxMonotone(Projected(RawPrice(i), i.projectionYears), Projected(RawPrice(j), i.projectionYears), FloorPrice);
  }

  lemma RawMonotone(i: Inputs, j: Inputs)
    requires Dominates(j, i)
    ensures RawPrice(i) <= RawPrice(j)
  {
    assert LinearValue(i) <= LinearValue(j);
    var m := LocationMultiplier(i.location);
    var a, b := LinearValue(i) as real, LinearValue(j) as real;
    MulNonNeg(b - a, m);
    assert b * m - a * m == (b - a) * m;
  }

  lemma ProjectedMonotoneInRaw(r1: real, r2: real, years: int)
    requires r1 <= r2
    ensures Projected(r1, years) <= Projected(r2, years)
  {
    var g := GrowthFactor(years);
    MulNonNeg(r2 - r1, g);
    assert r2 * g - r1 * g == (r2 - r1) * g;
  }

  lemma MulNonNeg(x: real, y: real)
    requires x >= 0.0 && y >= 0.0
    ensures x * y >= 0.0
  {
  }

  lemma MaxMonotone(a: real, b: real, c: real)
    requires a <= b
    ensures MaxReal(a, c) <= MaxReal(b, c)
  {
  }

  /** Raising the exponent never lowers a power of a base of at least 1. */
  lemma {:induction false} PowMonotone(b: real, n: nat, k: nat)
    requires b >= 1.0 && n <= k
    ensures Pow(b, n) <= Pow(b, k)
    decreases k
  {
    if n < k {
      PowMonotone(b, n, k - 1);
      var p := Pow(b, k - 1);
      assert b * p - p == (b - 1.0) * p;
    }
  }

  /** The growth factor never decreases with the horizon, negative
      horizons included. */
  lemma GrowthMonotone(y1: int, y2: int)
    requires y1 <= y2
    ensures GrowthFactor(y1) <= GrowthFactor(y2)
  {
    if 0 <= y1 {
      PowMonotone(Appreciation, y1, y2);
    } else if y2 < 0 {
      PowMonotone(Appreciation, -y2, -y1);
      ReciprocalAntitone(Pow(Appreciation, -y1), Pow(Appreciation, -y2));
    }
  }

  lemma ReciprocalAntitone(p1: real, p2: real)
    requires 0.0 < p2 <= p1
    ensures 1.0 / p1 <= 1.0 / p2
  {
    var q1, q2 := 1.0 / p1, 1.0 / p2;
    assert q1 * p1 == 1.0 && q2 * p2 == 1.0;
    assert q2 - q1 == (q1 * q2) * (p1 - p2);
    MulNonNeg(q1 * q2, p1 - p2);
  }

  lemma ProjectedMonotoneInYears(r: real, y1: int, y2: int)
    requires r >= 0.0 && y1 <= y2
    ensures Projected(r, y1) <= Projected(r, y2)
  {
    GrowthMonotone(y1, y2);
    var g1, g2 := GrowthFactor(y1), GrowthFactor(y2);
    MulNonNeg(r, g2 - g1);
    assert r * g2 - r * g1 == r * (g2 - g1);
  }

  /** A longer horizon never lowers the projection. */
  lemma FutureMonotoneInYears(i: Inputs, years: int)
    requires i.projectionYears <= years
    ensures FuturePrice(i) <= FuturePrice(i.(projectionYears := years))
  {
    var r := RawPrice(i);
    var j := i.(projectionYears := years);
    assert RawPrice(j) == r;
    if r <= 0.0 {
      NonPositiveRawShowsFloor(i);
      NonPositiveRawShowsFloor(j);
    } else {
      ProjectedMonotoneInYears(r, i.projectionYears, years);
      MaxMonotone(Projected(r, i.projectionYears), Projected(r, years), FloorPrice);
    }
  }
}
