# Indian house price predictor: the estimator and the price label

This project models, in Dafny, the two pieces of deterministic logic of a
small React page that estimates house prices in Indian cities.

- **The project page** (`src/App.tsx`). The form keeps a `PredictionInputs`
  record that starts at bedrooms 3, bathrooms 2, floors 1, year built 2000,
  location "Mumbai", 1200 square feet and a 5-year horizon. Three change
  handlers clamp what the user types: square feet to [200, 20000], floors to
  [1, 30] and year built to [1900, 2025]. The other four fields are stored as
  given. "Calculate Prediction" computes a fixed linear sum: a base of 25 lakh,
  10 lakh per bedroom, 5 lakh per bathroom, 15 lakh per floor, minus 20,000
  per year of age counted from 2024, and 3,000 per square foot. The sum is
  scaled by the city's multiplier from a 29-entry table, or by 1 for a city
  not in the table. The current estimate is that raw price floored at
  1,000,000. The projection compounds the raw price at 8 % a year over the
  horizon and floors the result separately.
- **The listings page** (`src/components/HomePage.tsx`). `formatPrice` writes
  a price of at least one crore (10^7) in crores and one of at least one
  lakh (10^5) in lakhs, each scaled to one decimal. Anything smaller is
  written as a grouped rupee amount.

Files:

- `pricing.dfy` (module `Pricing`): the form record, the clamps, the
  multiplier table and the estimator, all as functions, with the lemmas
  about them.
- `project_page.dfy` (module `ProjectPage`): the page state as a class
  `PredictorForm`. Its fields are `inputs` and the two nullable prices. Each
  change handler is a method that replaces exactly one field of `inputs`.
  `PredictPrice` is a method that writes both prices.
- `price_format.dfy` (module `PriceFormat`): the unit choice, the scaled
  value and the label text of `formatPrice`.

Numbers are exact. Form fields are `int`, and prices, multipliers and the
growth factor are `real`. `Math.pow(1.08, n)` is a recursive power. The
horizon comes from a range input, which the browser keeps within 1 to 100,
so a zero or negative horizon cannot come from the slider. The handler itself
does not clamp, and the model admits any integer horizon: for a negative one
it uses the reciprocal of the positive power.

The number inputs carry HTML `min`/`max` attributes: bedrooms and bathrooms
1 to 10, year built 1900 to 2025. These are hints that do not stop typing
other values. The code clamps only square feet, floors and year built, so
bedrooms, bathrooms and the location are stored as given.
`RawAboveFloorInsideRanges` shows that within the clamped ranges, with at
least one bedroom and one bathroom, the raw price is at least 3,620,000. The
1,000,000 floor therefore matters only for values the form stores unchecked,
such as a negative bedroom count. Five years at 8 % on the default Mumbai
estimate come to exactly 40,847,320.53504 (`DefaultProjection`).

## Model

| member | source | states |
|---|---|---|
| `Pricing.Clamp` | src/App.tsx:124 | `Math.min(Math.max(v, lo), hi)` lies in [lo, hi], returns v when v is inside, lo below it and hi above it |
| `Pricing.ClampSquareFeet` | src/App.tsx:123-126 | the stored square feet lie in [200, 20000], and a value already inside is kept |
| `Pricing.ClampFloors` | src/App.tsx:128-131 | the stored floor count lies in [1, 30], and a value already inside is kept |
| `Pricing.ClampYearBuilt` | src/App.tsx:300-304 | the stored year lies in [1900, 2025], and a value already inside is kept |
| `Pricing.ClampIdempotent` | src/App.tsx:124 | clamping an already clamped value changes nothing |
| `Pricing.ClampFixesExactlyTheInterval` | src/App.tsx:129 | a clamp leaves a value unchanged if and only if it lies in the interval |
| `Pricing.SquareFeetBoundaries` | src/App.tsx:123-126 | 50 is stored as 200, 50000 as 20000, and 1200 as itself |
| `Pricing.FloorOptionsStored` | src/App.tsx:26-289 | of the 31 select options, k is stored as k for k ≥ 1, and "Ground Floor" (0) is stored as 1, the same as "1 Floor" |
| `Pricing.LocationMultiplier` | src/App.tsx:141 | the multiplier is the table value for an exact, case-sensitive key and 1 otherwise, and always lies in [1, 2.5] |
| `Pricing.MultiplierTable` | src/App.tsx:17-58 | every table value lies in [1.1, 2.5], and the 29 cities offered by the select are exactly the table's keys |
| `Pricing.MultiplierFallback` | src/App.tsx:141 | "Mumbai" gets 2.5, while "mumbai" and an unlisted "Atlantis" get 1 |
| `Pricing.LinearValue` | src/App.tsx:135-140 | the bracketed six-term sum of `predictPrice`; it has no contract of its own, and `DefaultScenario` and `RawAboveFloorInsideRanges` pin it down |
| `Pricing.RawPrice` | src/App.tsx:133-143 | the raw price has the sign of the linear sum and lies between 1 and 2.5 times it |
| `Pricing.Pow` | src/App.tsx:147 | a power of a positive base is positive, and a power of a base of at least 1 is at least 1 |
| `Pricing.GrowthFactor` | src/App.tsx:147 | `1.08^years` is positive, at least 1 for a horizon ≥ 0, and at most 1 for a horizon ≤ 0 |
| `Pricing.Projected` | src/App.tsx:147 | `predicted * Math.pow(1.08, years)`; it has no contract of its own, and `ProjectedMonotoneInRaw` and `ProjectedMonotoneInYears` bound it |
| `Pricing.ProjectedMonotoneInRaw` | src/App.tsx:147 | a larger raw price, compounded over the same horizon, is never smaller |
| `Pricing.CurrentPrice` | src/App.tsx:143-144 | the current estimate is `max(raw, 1,000,000)`: at least both, and equal to one of them |
| `Pricing.FuturePrice` | src/App.tsx:146-148 | the projection is `max(raw × 1.08^years, 1,000,000)`, compounded from the unfloored raw price |
| `Pricing.DefaultScenario` | src/App.tsx:69-77 | the default record gives a linear sum of 11,120,000, a raw and current price of 27,800,000 for Mumbai, and 11,120,000 for an unlisted city |
| `Pricing.DefaultProjection` | src/App.tsx:146-148 | `1.08^5` is 1.4693280768, and the default projection is 40,847,320.53504 |
| `Pricing.FutureAtLeastCurrent` | src/App.tsx:143-148 | with a horizon ≥ 0 the projection is never below the current estimate, whatever the raw price |
| `Pricing.NonPositiveRawShowsFloor` | src/App.tsx:143-148 | a raw price ≤ 0 shows as 1,000,000 on both sides |
| `Pricing.FloorsAreIndependent` | src/App.tsx:143-148 | for a raw price of 620,000 over 10 years, the current estimate is floored, but the projection is compounded from 620,000, not from the floor |
| `Pricing.RawAboveFloorInsideRanges` | src/App.tsx:133-144 | within the clamped ranges, with at least one bedroom and bathroom, the raw price is ≥ 3,620,000 and the floor does not apply |
| `Pricing.EstimatesMonotone` | src/App.tsx:135-148 | more bedrooms, bathrooms, floors or square feet, or a later year built, never lower the raw, current or projected price |
| `Pricing.RawMonotone` | src/App.tsx:136-143 | each linear term has a non-negative effective coefficient, so the raw price never decreases as those fields increase |
| `Pricing.PowMonotone` | src/App.tsx:147 | for a base of at least 1, a larger exponent never gives a smaller power |
| `Pricing.GrowthMonotone` | src/App.tsx:147 | the growth factor never decreases with the horizon, negative horizons included |
| `Pricing.ProjectedMonotoneInYears` | src/App.tsx:147 | a non-negative raw price compounded over a longer horizon is never smaller |
| `Pricing.FutureMonotoneInYears` | src/App.tsx:146-148 | moving the horizon slider up never lowers the projection, whatever the raw price |
| `ProjectPage.PredictorForm.constructor` | src/App.tsx:69-79 | the form starts with the default record and no prices |
| `ProjectPage.PredictorForm.HandleSquareFeetChange` | src/App.tsx:123-126 | only `squareFeet` changes, and it becomes the clamped value |
| `ProjectPage.PredictorForm.HandleFloorsChange` | src/App.tsx:128-131 | only `floors` changes, and it becomes the clamped value |
| `ProjectPage.PredictorForm.HandleYearBuiltChange` | src/App.tsx:300-304 | only `yearBuilt` changes, and it becomes the clamped value |
| `ProjectPage.PredictorForm.HandleLocationChange` | src/App.tsx:214-216 | only `location` changes, and it takes the given string |
| `ProjectPage.PredictorForm.HandleBedroomsChange` | src/App.tsx:247-250 | only `bedrooms` changes, and it takes the value unclamped |
| `ProjectPage.PredictorForm.HandleBathroomsChange` | src/App.tsx:262-265 | only `bathrooms` changes, and it takes the value unclamped |
| `ProjectPage.PredictorForm.HandleProjectionYearsChange` | src/App.tsx:316-319 | only `projectionYears` changes, and it takes the value unclamped |
| `ProjectPage.PredictorForm.PredictPrice` | src/App.tsx:133-149 | both prices are set to the estimates of the current inputs, both are at least 1,000,000, and the inputs are left as they were |
| `PriceFormat.UnitFor` | src/components/HomePage.tsx:108-115 | crore if and only if price ≥ 10^7, lakh if and only if 10^5 ≤ price < 10^7, and plain rupees if and only if price < 10^5, so exactly one branch applies |
| `PriceFormat.ScaledValue` | src/components/HomePage.tsx:109-112 | the value passed to `toFixed(1)` times its unit gives back the price: ≥ 1 in crores, in [1, 100) in lakhs |
| `PriceFormat.FormatPrice` | src/components/HomePage.tsx:108-115 | the label always begins with "₹". It is "₹" + fixed(price/10^7) + " Cr", "₹" + fixed(price/10^5) + " Lac", or "₹" + grouped(price), by branch |
| `PriceFormat.UnitReadBack` | src/components/HomePage.tsx:108-115 | when the grouped rendering is a numeral, a label ends in " Cr" exactly for crore prices and in " Lac" exactly for lakh prices |
| `PriceFormat.SampleLabels` | src/components/HomePage.tsx:28-110 | the five sample listings are labelled in crores as 2.5, 1.8, 3.2, 2.8 and 2.2 Cr |

## Left out

- Authentication: session fetch, auth-state subscription, sign-in and sign-out. These are calls to a hosted service whose client is not part of this model.
- Dark-mode persistence in `localStorage` and on the document element. This is browser I/O.
- All rendering, and switching between the home and project screens. These are UI with no logic to state.
- `formatIndianPrice`, and the digits produced by `toFixed(1)` and `toLocaleString('en-IN')`. These depend on locale formatting libraries. `FormatPrice` takes the two renderings as function parameters and fixes only the unit, the scaled value and the surrounding text.
- The row types in `src/types/database.types.ts`. They declare types and hold no logic.
- IEEE-754 doubles. `Number("abc")` is NaN and passes through `Math.min(Math.max(NaN, lo), hi)` unchanged, and fractional input such as "1200.5" is kept. The model takes every field as an integer and computes exactly, so NaN, fractions and rounding are not modelled.
- The `min`/`max` attributes of the number inputs for bedrooms, bathrooms and year built. These are browser hints, so no clamp is modelled for those fields beyond what the handlers do. The range input for the horizon is kept within 1 to 100 by the browser, but `HandleProjectionYearsChange` accepts any integer, which covers more than the slider can produce.
- Lookup of inherited object keys: `LOCATION_MULTIPLIERS["toString"]` would give a function rather than a number. The model treats the table as a plain map, so such keys fall back to 1.
- The alphabetical `.sort()` of the city list. It affects only the order of the select's options, so `Locations` keeps the source order.
- React's state snapshots: each handler spreads the `inputs` of the render it was created in. Two updates batched within one render are not modelled. Each handler call is applied to the latest state.
