/** Request sequences after the repository's test suite, and the two quirks
    of the update paths, replayed on a fresh store. Each result follows from
    the handlers' contracts alone. (Short names from the schema examples keep
    the literal computations small.) */
module Scenarios {
  import opened Wrappers
  import opened Text
  import opened Schemas
  import opened Models
  import opened Database
  import opened CarsRouter
  import opened ManufacturersRouter

  // The request bodies of each scenario pass validation and lower-case as
  // shown; one small lemma per scenario keeps the literal computations apart.

  lemma SharedFacts()
    ensures ValidCarCreate(CarCreate("camry", "red", Some(300_000), "volvo"))
    ensures ValidCarCreate(CarCreate("rx-7", "blue", None, "VOLVO"))
  {
  }

  lemma UppercaseFacts()
    ensures ValidCarCreate(CarCreate("RX-7", "RED", Some(3_500_000), "MAZDA"))
  {
  }

  lemma LowerUppercase()
    ensures Lower("RX-7") == "rx-7" && Lower("RED") == "red"
  {
  }

  lemma DeleteFacts()
    ensures ValidCarCreate(CarCreate("camry", "red", Some(300_000), "mazda"))
  {
  }

  lemma PartialUpdateFacts()
    ensures ValidCarCreate(CarCreate("camry", "red", Some(300_000), "volvo"))
    ensures ValidCarUpdate(CarUpdate(None, Some("black"), None, None))
    ensures Lower("black") == "black"
  {
  }

  lemma ManufacturerBodiesValid()
    ensures ValidManufacturerCreate(ManufacturerCreate("volvo")) && ValidManufacturerCreate(ManufacturerCreate("mazda"))
    ensures ValidManufacturerCreate(ManufacturerCreate("VOLVO"))
    ensures ValidManufacturerUpdate(ManufacturerUpdate(Some("VOLVO"))) && ValidManufacturerUpdate(ManufacturerUpdate(Some("MAZDA")))
  {
  }

  lemma UpdateBodiesValid()
    ensures ValidCarCreate(CarCreate("camry", "red", Some(300_000), "mazda"))
    ensures ValidCarUpdate(CarUpdate(None, None, None, Some("MAZDA")))
  {
  }

  lemma LowerVolvo()
    ensures Lower("volvo") == "volvo" == Lower("VOLVO")
  {
  }

  /** "Volvo" is an admissible manufacturer name that is not lower-case. */
  lemma LowerMixedVolvo()
    ensures ValidField(ManufacturerName, "Volvo")
    ensures Lower("Volvo") == "volvo" && Lower("Volvo") != "Volvo"
  {
  }

  lemma LowerMazda()
    ensures Lower("mazda") == "mazda" == Lower("MAZDA")
  {
  }

  /** Upper-case input is stored and echoed lower-cased, and reads back the same. */
  method UppercaseConversion() returns (created: Outcome<CarView>, read: Outcome<CarView>)
    ensures created.Ok? && created.view.name == "rx-7" && created.view.color == "red"
    ensures created.view.manufacturerName == "mazda" && created.view.price == 3_500_000
    ensures read == created
  {
    var db := new Store();
    UppercaseFacts();
    LowerUppercase();
    LowerMazda();
    created := CreateCar(db, CarCreate("RX-7", "RED", Some(3_500_000), "MAZDA"));
    read := ReadCar(db, created.view.id);
  }

  /** Two cars naming the same manufacturer in different case share one
      manufacturer row; an omitted price defaults to 0. */
  method SharedManufacturer() returns (first: Outcome<CarView>, second: Outcome<CarView>, all: set<ManufacturerView>)
    ensures first.Ok? && second.Ok?
    ensures first.view.manufacturerId == second.view.manufacturerId
    ensures second.view.price == 0
    ensures ManufacturerView(first.view.manufacturerId, "volvo") in all
    ensures forall v :: v in all ==> v == ManufacturerView(first.view.manufacturerId, "volvo")
  {
    var db := new Store();
    SharedFacts();
    LowerVolvo();
    first := CreateCar(db, CarCreate("camry", "red", Some(300_000), "volvo"));
    assert db.manufacturers == map[first.view.manufacturerId := "volvo"];
    assert NameTaken(db.manufacturers, Lower("VOLVO"));
    second := CreateCar(db, CarCreate("rx-7", "blue", None, "VOLVO"));
    assert db.manufacturers == map[first.view.manufacturerId := "volvo"];
    all := ReadManufacturers(db);
  }

  /** Creating a manufacturer twice, the second time upper-cased, is refused the second time. */
  method DuplicateManufacturer() returns (first: Outcome<ManufacturerView>, second: Outcome<ManufacturerView>)
    ensures first.Ok? && first.view.name == "volvo"
    ensures second == Conflict
  {
    var db := new Store();
    ManufacturerBodiesValid();
    LowerVolvo();
    first := CreateManufacturer(db, ManufacturerCreate("volvo"));
    second := CreateManufacturer(db, ManufacturerCreate("VOLVO"));
  }

  /** A manufacturer cannot be deleted while a car references it, and can once the car is gone. */
  method DeleteGuard() returns (blocked: Outcome<()>, removed: Outcome<()>, after: Outcome<ManufacturerView>)
    ensures blocked == Conflict
    ensures removed.Ok?
    ensures after == NotFound
  {
    var db := new Store();
    DeleteFacts();
    var car := CreateCar(db, CarCreate("camry", "red", Some(300_000), "mazda"));
    assert db.cars == map[car.view.id := db.cars[car.view.id]];
    assert HasDependentCar(db.cars, car.view.manufacturerId);
    blocked := DeleteManufacturer(db, car.view.manufacturerId);
    var gone := DeleteCar(db, car.view.id);
    assert car.view.manufacturerId in db.manufacturers;
    assert forall id :: id !in db.cars;
    assert !HasDependentCar(db.cars, car.view.manufacturerId);
    removed := DeleteManufacturer(db, car.view.manufacturerId);
    after := ReadManufacturer(db, car.view.manufacturerId);
  }

  /** Updating only the colour leaves name and price as they were. */
  method PartialUpdate() returns (created: Outcome<CarView>, updated: Outcome<CarView>)
    ensures created.Ok? && updated.Ok?
    ensures updated.view.color == "black"
    ensures updated.view.name == created.view.name && updated.view.price == created.view.price
    ensures updated.view.manufacturerName == created.view.manufacturerName
  {
    var db := new Store();
    PartialUpdateFacts();
    created := CreateCar(db, CarCreate("camry", "red", Some(300_000), "volvo"));
    updated := UpdateCar(db, created.view.id, CarUpdate(None, Some("black"), None, None));
  }

  /** The car update looks the manufacturer up by the name as given: an
      upper-cased spelling of an existing manufacturer is inserted anew and
      collides with the unique constraint. */
  method UpdateCarCaseCollision() returns (collision: Outcome<CarView>)
    ensures collision == Conflict
  {
    var db := new Store();
    UpdateBodiesValid();
    LowerMazda();
    var car := CreateCar(db, CarCreate("camry", "red", Some(300_000), "mazda"));
    assert car.Ok?;
    assert db.manufacturers == map[car.view.manufacturerId := Lower("mazda")];
    assert !NameTaken(db.manufacturers, "MAZDA") && NameTaken(db.manufacturers, Lower("MAZDA"));
    collision := UpdateCar(db, car.view.id, CarUpdate(None, None, None, Some("MAZDA")));
  }

  /** A new manufacturer name in a car update is stored lower-cased but
      echoed as given, so the answer and a later read of the car disagree
      whenever the name is not already lower-case (for "Volvo", see
      LowerMixedVolvo). */
  method UpdateCarEchoesName(input: CarCreate, name: string) returns (renamed: Outcome<CarView>, read: Outcome<CarView>)
    requires ValidCarCreate(input) && ValidField(ManufacturerName, name)
    requires Lower(name) != Lower(input.manufacturerName)
    ensures renamed.Ok? && renamed.view.manufacturerName == name
    ensures read.Ok? && read.view.manufacturerName == Lower(name)
    ensures Lower(name) != name ==> renamed.view.manufacturerName != read.view.manufacturerName
  {
    var db := new Store();
    var car := CreateCar(db, input);
    LowerIdempotent(input.manufacturerName);
    assert db.manufacturers == map[car.view.manufacturerId := Lower(input.manufacturerName)];
    assert !NameTaken(db.manufacturers, name) && !NameTaken(db.manufacturers, Lower(name));
    renamed := UpdateCar(db, car.view.id, CarUpdate(None, None, None, Some(name)));
    read := ReadCar(db, car.view.id);
  }

  /** The corrected car update, given the upper-cased spelling of an existing
      manufacturer, reuses that manufacturer and answers with its stored name. */
  method UpdateCarLoweredReuses() returns (created: Outcome<CarView>, updated: Outcome<CarView>)
    ensures created.Ok? && updated.Ok?
    ensures updated.view.manufacturerId == created.view.manufacturerId
    ensures updated.view.manufacturerName == "mazda"
  {
    var db := new Store();
    UpdateBodiesValid();
    LowerMazda();
    created := CreateCar(db, CarCreate("camry", "red", Some(300_000), "mazda"));
    assert db.manufacturers == map[created.view.manufacturerId := Lower("mazda")];
    assert NameTaken(db.manufacturers, Lower("MAZDA"));
    updated := UpdateCarLowered(db, created.view.id, CarUpdate(None, None, None, Some("MAZDA")));
  }

  /** Renaming a manufacturer onto another's name is refused by the unique
      constraint; renaming it onto its own name in another case is not. */
  method RenameManufacturerCollision() returns (collision: Outcome<ManufacturerView>, same: Outcome<ManufacturerView>)
    ensures collision == Conflict
    ensures same.Ok? && same.view.name == "mazda"
  {
    var db := new Store();
    ManufacturerBodiesValid();
    LowerVolvo();
    LowerMazda();
    var volvo := CreateManufacturer(db, ManufacturerCreate("volvo"));
    assert db.manufacturers == map[volvo.view.id := "volvo"];
    assert !NameTaken(db.manufacturers, "mazda");
    var mazda := CreateManufacturer(db, ManufacturerCreate("mazda"));
    assert db.manufacturers == map[volvo.view.id := "volvo", mazda.view.id := "mazda"];
    assert volvo.view.id != mazda.view.id && db.manufacturers[volvo.view.id] == Lower("VOLVO");
    assert NameTakenByOther(db.manufacturers, mazda.view.id, Lower("VOLVO"));
    collision := UpdateManufacturer(db, mazda.view.id, ManufacturerUpdate(Some("VOLVO")));
    assert !NameTakenByOther(db.manufacturers, mazda.view.id, Lower("MAZDA"));
    same := UpdateManufacturer(db, mazda.view.id, ManufacturerUpdate(Some("MAZDA")));
  }
}
