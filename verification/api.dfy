/** The session's vehicle state (AssistantFnc in backend/api.py) over the mock
    record store that file defines. */
module Api {
  import opened Values

  /** A vehicle record.  The dataclass's annotations (str, str, str, int) are
      not enforced by Python, so a field holds whatever decoded value the
      caller passed. */
  datatype Car = Car(vin: Value, make: Value, model: Value, year: Value)

  /** The one record the mock store knows. */
  const STORED_CAR: Car := Car(Str("ABC123"), Str("Toyota"), Str("Camry"), Int(2022))

  const NO_CAR_FOUND: string := "No car found with that VIN"
  const PLATE_RESULT: string := "Vehicle found: 2020 Honda Accord (VIN: XYZ789)"
  const NO_PROFILE: string := "No car profile loaded"

  /** The mock `DatabaseDriver.get_car_by_vin`: a hit only for the string "ABC123". */
  function GetCarByVin(vin: Value): (r: Option<Car>)
    ensures r.Some? <==> vin == Str("ABC123")
    ensures r.Some? ==> r.value == STORED_CAR && r.value.vin == vin
  {
    if vin == Str("ABC123") then Some(STORED_CAR) else None
  }

  /** The mock `DatabaseDriver.create_car`: it stores nothing and echoes its inputs. */
  function CreateCar(vin: Value, make: Value, model: Value, year: Value): Car {
    Car(vin, make, model, year)
  }

  /** `AssistantFnc`: at most one current car per session. */
  datatype Assistant = Assistant(currentCar: Option<Car>)

  /** A result string together with the state the action leaves behind. */
  datatype Reply = Reply(after: Assistant, text: string)

  /** A freshly constructed `AssistantFnc` holds no car. */
  function NewAssistant(): (a: Assistant)
    ensures !HasCar(a)
  {
    Assistant(None)
  }

  predicate HasCar(a: Assistant) {
    a.currentCar.Some?
  }

  function FoundText(car: Car): string {
    "Found: " + Render(car.year) + " " + Render(car.make) + " " + Render(car.model)
    + " (VIN: " + Render(car.vin) + ")"
  }

  /** The texts the stored record formats to. */
  lemma FoundLiteral()
    ensures "Found: " + "2022" + " " + "Toyota" + " " + "Camry" + " (VIN: " + "ABC123" + ")"
      == "Found: 2022 Toyota Camry (VIN: ABC123)"
  {
    assert "Found: " + "2022" == "Found: 2022";
    assert "Found: 2022" + " " == "Found: 2022 ";
    assert "Found: 2022 " + "Toyota" == "Found: 2022 Toyota";
    assert "Found: 2022 Toyota" + " " == "Found: 2022 Toyota ";
    assert "Found: 2022 Toyota " + "Camry" == "Found: 2022 Toyota Camry";
    assert "Found: 2022 Toyota Camry" + " (VIN: " == "Found: 2022 Toyota Camry (VIN: ";
    assert "Found: 2022 Toyota Camry (VIN: " + "ABC123" == "Found: 2022 Toyota Camry (VIN: ABC123";
  }

  lemma InfoLiteral()
    ensures "VIN: " + "ABC123" + ", Make: " + "Toyota" + ", Model: " + "Camry" + ", Year: " + "2022"
      == "VIN: ABC123, Make: Toyota, Model: Camry, Year: 2022"
  {
    assert "VIN: " + "ABC123" == "VIN: ABC123";
    assert "VIN: ABC123" + ", Make: " == "VIN: ABC123, Make: ";
    assert "VIN: ABC123, Make: " + "Toyota" == "VIN: ABC123, Make: Toyota";
    assert "VIN: ABC123, Make: Toyota" + ", Model: " == "VIN: ABC123, Make: Toyota, Model: ";
    assert "VIN: ABC123, Make: Toyota, Model: " + "Camry" == "VIN: ABC123, Make: Toyota, Model: Camry";
    assert "VIN: ABC123, Make: Toyota, Model: Camry" + ", Year: " == "VIN: ABC123, Make: Toyota, Model: Camry, Year: ";
  }

  /** What the stored record formats to in a lookup answer. */
  lemma StoredCarFound()
    ensures FoundText(STORED_CAR) == "Found: 2022 Toyota Camry (VIN: ABC123)"
  {
    RenderYear2022();
    FoundLiteral();
  }

  /** `lookup_car`: a miss changes nothing; a hit makes the stored car current. */
  function LookupCar(a: Assistant, vin: Value): (r: Reply)
    ensures vin != Str("ABC123") ==> r.after == a && r.text == NO_CAR_FOUND
    ensures vin == Str("ABC123") ==>
      && r.after == Assistant(Some(STORED_CAR))
      && r.text == "Found: 2022 Toyota Camry (VIN: ABC123)"
    ensures HasCar(a) ==> HasCar(r.after)
  {
    match GetCarByVin(vin)
    case None => Reply(a, NO_CAR_FOUND)
    case Some(car) =>
      StoredCarFound();
      Reply(Assistant(Some(car)), FoundText(car))
  }

  /** `create_car_profile`: the current car becomes exactly the given fields. */
  function CreateCarProfile(a: Assistant, vin: Value, make: Value, model: Value, year: Value): (r: Reply)
    ensures r.after.currentCar == Some(Car(vin, make, model, year))
    ensures r.text == "Created profile for " + Render(year) + " " + Render(make) + " " + Render(model)
    ensures HasCar(r.after)
  {
    var car := CreateCar(vin, make, model, year);
    Reply(Assistant(Some(car)), "Created profile for " + Render(year) + " " + Render(make) + " " + Render(model))
  }

  /** `lookup_car_by_license_plate`: a fixed answer, whatever the plate and state. */
  function LookupCarByLicensePlate(a: Assistant, plate: Value, state: Value): (r: Reply)
    ensures r.after == a
    ensures r.text == PLATE_RESULT
  {
    Reply(a, PLATE_RESULT)
  }

  /** `get_car_info`: the fixed notice exactly when no car is loaded. */
  function GetCarInfo(a: Assistant): (r: string)
    ensures r == NO_PROFILE <==> !HasCar(a)
    ensures HasCar(a) ==> |r| >= 5 && r[..5] == "VIN: "
  {
    match a.currentCar
    case None => NO_PROFILE
    case Some(car) =>
      var r := "VIN: " + Render(car.vin) + ", Make: " + Render(car.make)
        + ", Model: " + Render(car.model) + ", Year: " + Render(car.year);
      assert r[0] != NO_PROFILE[0];
      r
  }

  /** After creating a profile, the info string reports exactly the given fields. */
  lemma CreatedProfileIsReported(a: Assistant, vin: Value, make: Value, model: Value, year: Value)
    ensures GetCarInfo(CreateCarProfile(a, vin, make, model, year).after)
      == "VIN: " + Render(vin) + ", Make: " + Render(make) + ", Model: " + Render(model)
         + ", Year: " + Render(year)
  {
  }

  /** After a successful VIN lookup, the info string reports the stored record. */
  lemma LookedUpCarIsReported(a: Assistant)
    ensures GetCarInfo(LookupCar(a, Str("ABC123")).after)
      == "VIN: ABC123, Make: Toyota, Model: Camry, Year: 2022"
  {
    RenderYear2022();
    InfoLiteral();
  }
}
