/**
 * The state of the project page (src/App.tsx): the `inputs` record that
 * the change handlers replace field by field, and the two nullable prices
 * that the "Calculate Prediction" button writes.
 */
module ProjectPage {
  import opened Pricing

  /** A nullable number: `number | null`. */
  datatype Option<T> = None | Some(value: T)

  class PredictorForm {
    var inputs: Inputs
    var currentPrice: Option<real>
    var futurePrice: Option<real>

    /** The clamped fields stay in range, and the two prices are written
        together and never below the floor. */
    ghost predicate Valid()
      reads this
    {
      && ClampedFieldsInRange(inputs)
      && currentPrice.Some? == futurePrice.Some?
      && (currentPrice.Some? ==> currentPrice.value >= FloorPrice)
      && (futurePrice.Some? ==> futurePrice.value >= FloorPrice)
    }

    /** `useState` with the default record and no prices yet. */
    constructor ()
      ensures Valid()
      ensures inputs == DefaultInputs
      ensures currentPrice == None && futurePrice == None
    {
      inputs := DefaultInputs;
      currentPrice := None;
      futurePrice := None;
    }

    /** `handleSquareFeetChange`: stores the value clamped to [200, 20000]. */
    method HandleSquareFeetChange(value: int)
      requires Valid()
      modifies this`inputs
      ensures Valid()
      ensures inputs == old(inputs).(squareFeet := ClampSquareFeet(value))
    {
      var clampedValue := Min(Max(value, 200), 20000);
      inputs := inputs.(squareFeet := clampedValue);
    }

    /** `handleFloorsChange`: stores the value clamped to [1, 30]. */
    method HandleFloorsChange(value: int)
      requires Valid()
      modifies this`inputs
      ensures Valid()
      ensures inputs == old(inputs).(floors := ClampFloors(value))
    {
      var clampedValue := Min(Max(value, 1), 30);
      inputs := inputs.(floors := clampedValue);
    }

    /** The year-built input's change handler: clamps to [1900, 2025]. */
    method HandleYearBuiltChange(year: int)
      requires Valid()
      modifies this`inputs
      ensures Valid()
      ensures inputs == old(inputs).(yearBuilt := ClampYearBuilt(year))
    {
      var clampedYear := Min(Max(year, 1900), 2025);
      inputs := inputs.(yearBuilt := clampedYear);
    }

    /** The location select stores any string as given. */
    method HandleLocationChange(location: string)
      requires Valid()
      modifies this`inputs
      ensures Valid()
      ensures inputs == old(inputs).(location := location)
    {
      inputs := inputs.(location := location);
    }

    /** The bedrooms input stores the number as given, without a clamp. */
    method HandleBedroomsChange(value: int)
      requires Valid()
      modifies this`inputs
      ensures Valid()
      ensures inputs == old(inputs).(bedrooms := value)
    {
      inputs := inputs.(bedrooms := value);
    }

    /** The bathrooms input stores the number as given, without a clamp. */
    method HandleBathroomsChange(value: int)
      requires Valid()
      modifies this`inputs
      ensures Valid()
      ensures inputs == old(inputs).(bathrooms := value)
    {
      inputs := inputs.(bathrooms := value);
    }

    /** The projection slider stores the number as given, without a clamp. */
    method HandleProjectionYearsChange(value: int)
      requires Valid()
      modifies this`inputs
      ensures Valid()
      ensures inputs == old(inputs).(projectionYears := value)
    {
      inputs := inputs.(projectionYears := value);
    }

    /** `predictPrice`: computes both estimates from the current inputs and
        stores them; the inputs are left as they are. */
    method PredictPrice()
      requires Valid()
      modifies this`currentPrice, this`futurePrice
      ensures Valid()
      ensures currentPrice == Some(CurrentPrice(inputs))
      ensures futurePrice == Some(FuturePrice(inputs))
    {
      var basePrice := 2500000;
      var bedroomValue := inputs.bedrooms * 1000000;
      var bathroomValue := inputs.bathrooms * 500000;
      var floorValue := inputs.floors * 1500000;
      var ageValue := (2024 - inputs.yearBuilt) * -20000;
      var squareFeetValue := inputs.squareFeet * 3000;
      var locationMultiplier := LocationMultiplier(inputs.location);

      var sum := basePrice + bedroomValue + bathroomValue + floorValue + ageValue + squareFeetValue;
      assert sum == LinearValue(inputs);
      var predicted := sum as real * locationMultiplier;
      assert predicted == RawPrice(inputs);
      currentPrice := Some(MaxReal(predicted, 1000000.0));

      // predicted * Math.pow(1.08, inputs.projectionYears)
      var projected := Projected(predicted, inputs.projectionYears);
      futurePrice := Some(MaxReal(projected, 1000000.0));
    }
  }
}
