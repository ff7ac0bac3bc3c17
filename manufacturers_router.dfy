/** The handlers of the `/manufacturers` routes. Each handler is one atomic
    step on the store: a handler that ends in an error leaves the store as it was. */
module ManufacturersRouter {
  import opened Wrappers
  import opened Text
  import opened Models
  import opened Database

  /** `create_manufacturer`: validate the body, reject a name whose lower-cased
      form is taken ("Manufacturer with that name already exists"), otherwise
      insert the row, whose hook lower-cases the name. */
  method CreateManufacturer(db: Store, input: ManufacturerCreate) returns (r: Outcome<ManufacturerView>)
    requires db.Valid()
    modifies db
    ensures db.Valid()
    ensures r.Ok? || r.Conflict? || r.Invalid?
    ensures r.Invalid? <==> !ValidManufacturerCreate(input)
    ensures r.Conflict? <==> ValidManufacturerCreate(input) && NameTaken(old(db.manufacturers), Lower(input.name))
    ensures !r.Ok? ==> unchanged(db)
    ensures r.Ok? ==>
      && r.view == ManufacturerView(old(db.nextManufacturerId), Lower(input.name))
      && r.view.id !in old(db.manufacturers)
      && db.manufacturers == old(db.manufacturers)[r.view.id := r.view.name]
      && db.nextManufacturerId == old(db.nextManufacturerId) + 1
      && db.cars == old(db.cars) && db.nextCarId == old(db.nextCarId)
      && ReadManufacturer(db, r.view.id) == r
  {
    if !ValidManufacturerCreate(input) {
      return Invalid;
    }
    var existing := db.FindManufacturerByName(Lower(input.name));
    if existing.Some? {
      return Conflict;
    }
    var inserted := db.InsertManufacturer(input.name);
    r := Ok(ManufacturerView(inserted.value, db.manufacturers[inserted.value]));
  }

  /** `read_manufacturer`: the row, or "Manufacturer not found". */
  function ReadManufacturer(db: Store, id: int): (r: Outcome<ManufacturerView>)
    reads db
    ensures r.Ok? || r.NotFound?
    ensures r.NotFound? <==> id !in db.manufacturers
    ensures r.Ok? ==> r.view.id == id && r.view.name == db.manufacturers[id]
  {
    if id in db.manufacturers then Ok(ManufacturerView(id, db.manufacturers[id])) else NotFound
  }

  /** `read_manufacturers`: every row, unfiltered. */
  function ReadManufacturers(db: Store): (r: set<ManufacturerView>)
    reads db
    ensures forall v :: v in r <==> v.id in db.manufacturers && db.manufacturers[v.id] == v.name
  {
    set id | id in db.manufacturers :: ManufacturerView(id, db.manufacturers[id])
  }

  /** `update_manufacturer`: validate the body; "Manufacturer not found" for
      an absent id; with no name supplied nothing changes; otherwise the name
      is replaced (the hook lower-cases it), which the unique constraint
      rejects when another manufacturer has that lower-cased name. */
  method UpdateManufacturer(db: Store, id: int, u: ManufacturerUpdate) returns (r: Outcome<ManufacturerView>)
    requires db.Valid()
    modifies db
    ensures db.Valid()
    ensures r.Invalid? <==> !ValidManufacturerUpdate(u)
    ensures r.NotFound? <==> ValidManufacturerUpdate(u) && id !in old(db.manufacturers)
    ensures r.Conflict? <==>
      && ValidManufacturerUpdate(u) && id in old(db.manufacturers) && u.name.Some?
      && NameTakenByOther(old(db.manufacturers), id, Lower(u.name.value))
    ensures !r.Ok? ==> unchanged(db)
    ensures r.Ok? && u.name.None? ==> unchanged(db) && r == ReadManufacturer(db, id)
    ensures r.Ok? && u.name.Some? ==>
      && r.view == ManufacturerView(id, Lower(u.name.value))
      && db.manufacturers == old(db.manufacturers)[id := r.view.name]
      && db.cars == old(db.cars)
      && db.nextCarId == old(db.nextCarId) && db.nextManufacturerId == old(db.nextManufacturerId)
      && ReadManufacturer(db, id) == r
  {
    if !ValidManufacturerUpdate(u) {
      return Invalid;
    }
    if id !in db.manufacturers {
      return NotFound;
    }
    if u.name.Some? {
      var ok := db.RenameManufacturer(id, u.name.value);
      if !ok {
        return Conflict;
      }
    }
    r := Ok(ManufacturerView(id, db.manufacturers[id]));
  }

  /** `delete_manufacturer`: "Manufacturer not found" for an absent id; refused
      while a car references it; otherwise the row is removed. The source tests
      the first referencing `manufacturer_id` for truthiness, so an id of 0
      would pass the guard; ids start at 1, so the guard is exactly "some car
      references it". */
  method DeleteManufacturer(db: Store, id: int) returns (r: Outcome<()>)
    requires db.Valid()
    modifies db
    ensures db.Valid()
    ensures r.Ok? || r.NotFound? || r.Conflict?
    ensures r.NotFound? <==> id !in old(db.manufacturers)
    ensures r.Conflict? <==> id in old(db.manufacturers) && HasDependentCar(old(db.cars), id)
    ensures !r.Ok? ==> unchanged(db)
    ensures r.Ok? ==>
      && db.manufacturers == old(db.manufacturers) - {id}
      && db.cars == old(db.cars)
      && db.nextCarId == old(db.nextCarId) && db.nextManufacturerId == old(db.nextManufacturerId)
      && ReadManufacturer(db, id) == NotFound
  {
    if id !in db.manufacturers {
      return NotFound;
    }
    if id != 0 && HasDependentCar(db.cars, id) {
      return Conflict;
    }
    db.DeleteManufacturerRow(id);
    r := Ok(());
  }
}
