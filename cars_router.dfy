/** The handlers of the `/cars` routes. Each handler is one atomic step on
    the store: a handler that ends in an error leaves the store as it was. */
module CarsRouter {
  import opened Wrappers
  import opened Text
  import opened Schemas
  import opened Models
  import opened Database

  /** The join of a car row with its manufacturer's name, as the responses show it. */
  function ViewOf(db: Store, id: int): (v: CarView)
    reads db
    requires id in db.cars && db.cars[id].manufacturerId in db.manufacturers
  {
    var c := db.cars[id];
    CarView(id, c.name, c.color, c.price, c.manufacturerId, db.manufacturers[c.manufacturerId])
  }

  /** Find-or-create of a manufacturer by the name as given: an exact match
      reuses that row; otherwise a new row is inserted, whose hook lower-cases
      the name, and the unique constraint rejects it when the lower-cased name
      is already taken. */
  method ResolveManufacturer(db: Store, name: string) returns (r: Option<int>)
    requires db.Valid()
    requires ValidField(ManufacturerName, name)
    modifies db
    ensures db.Valid()
    ensures db.cars == old(db.cars) && db.nextCarId == old(db.nextCarId)
    ensures NameTaken(old(db.manufacturers), name) ==>
      r.Some? && unchanged(db) && r.value in db.manufacturers && db.manufacturers[r.value] == name
    ensures !NameTaken(old(db.manufacturers), name) && NameTaken(old(db.manufacturers), Lower(name)) ==>
      r.None? && unchanged(db)
    ensures !NameTaken(old(db.manufacturers), name) && !NameTaken(old(db.manufacturers), Lower(name)) ==>
      && r == Some(old(db.nextManufacturerId))
      && r.value !in old(db.manufacturers)
      && db.manufacturers == old(db.manufacturers)[r.value := Lower(name)]
      && db.nextManufacturerId == old(db.nextManufacturerId) + 1
  {
    r := db.FindManufacturerByName(name);
    if r.None? {
      r := db.InsertManufacturer(name);
    }
  }

  /** `create_car`: validate the body, find or create the manufacturer by the
      lower-cased name, insert the car (whose hook lower-cases name and colour)
      and answer with the new row and the lower-cased manufacturer name. */
  method CreateCar(db: Store, input: CarCreate) returns (r: Outcome<CarView>)
    requires db.Valid()
    modifies db
    ensures db.Valid()
    ensures r.Ok? || r.Invalid?
    ensures r.Invalid? <==> !ValidCarCreate(input)
    ensures r.Invalid? ==> unchanged(db)
    ensures r.Ok? ==>
      && r.view.id == old(db.nextCarId) && r.view.id !in old(db.cars)
      && r.view.name == Lower(input.name)
      && r.view.color == Lower(input.color)
      && r.view.price == input.price.GetOr(0)
      && r.view.manufacturerName == Lower(input.manufacturerName)
      && r.view.manufacturerId in db.manufacturers
      && db.manufacturers[r.view.manufacturerId] == Lower(input.manufacturerName)
      && db.cars == old(db.cars)[r.view.id := Car(r.view.name, r.view.color, r.view.price, r.view.manufacturerId)]
      && db.nextCarId == old(db.nextCarId) + 1
      && ReadCar(db, r.view.id) == r
    ensures r.Ok? && NameTaken(old(db.manufacturers), Lower(input.manufacturerName)) ==>
      && db.manufacturers == old(db.manufacturers)
      && db.nextManufacturerId == old(db.nextManufacturerId)
    ensures r.Ok? && !NameTaken(old(db.manufacturers), Lower(input.manufacturerName)) ==>
      && r.view.manufacturerId == old(db.nextManufacturerId)
      && db.manufacturers == old(db.manufacturers)[r.view.manufacturerId := Lower(input.manufacturerName)]
      && db.nextManufacturerId == old(db.nextManufacturerId) + 1
  {
    if !ValidCarCreate(input) {
      return Invalid;
    }
    var manufacturerName := Lower(input.manufacturerName);
    LowerKeepsValidField(ManufacturerName, input.manufacturerName);
    LowerIdempotent(input.manufacturerName);
    var resolved := ResolveManufacturer(db, manufacturerName);
    var car := Car(input.name, input.color, input.price.GetOr(0), resolved.value);
    var id := db.InsertCar(car);
    var stored := db.cars[id];
    r := Ok(CarView(id, stored.name, stored.color, stored.price, stored.manufacturerId, manufacturerName));
  }

  /** `read_car`: the car joined with its manufacturer's name, or "Car not found". */
  function ReadCar(db: Store, id: int): (r: Outcome<CarView>)
    reads db
    ensures r.Ok? || r.NotFound?
    ensures db.Valid() ==> (r.NotFound? <==> id !in db.cars)
    ensures r.Ok? ==> id in db.cars && db.cars[id].manufacturerId in db.manufacturers && r.view == ViewOf(db, id)
  {
    if id in db.cars && db.cars[id].manufacturerId in db.manufacturers then Ok(ViewOf(db, id)) else NotFound
  }

  /** The query parameters of `read_cars` pass their patterns and length bound. */
  predicate ValidFilters(name: Option<string>, color: Option<string>, manufacturer: Option<string>) {
    && (name.Some? ==> ValidField(CarName, name.value))
    && (color.Some? ==> ValidField(CarColor, color.value))
    && (manufacturer.Some? ==> ValidField(ManufacturerName, manufacturer.value))
  }

  /** A joined row passes the filters of `read_cars`: each supplied filter,
      lower-cased, equals the field exactly; an absent filter passes every row. */
  predicate PassesFilters(v: CarView, name: Option<string>, color: Option<string>, manufacturer: Option<string>) {
    && (name.None? || v.name == Lower(name.value))
    && (color.None? || v.color == Lower(color.value))
    && (manufacturer.None? || v.manufacturerName == Lower(manufacturer.value))
  }

  /** `read_cars`: every car joined with its manufacturer that passes the filters. */
  function ReadCars(db: Store, name: Option<string>, color: Option<string>, manufacturer: Option<string>): (r: Outcome<set<CarView>>)
    reads db
    ensures r.Ok? || r.Invalid?
    ensures r.Invalid? <==> !ValidFilters(name, color, manufacturer)
    ensures r.Ok? ==> forall v :: v in r.view ==>
      v.id in db.cars && db.cars[v.id].manufacturerId in db.manufacturers &&
      v == ViewOf(db, v.id) && PassesFilters(v, name, color, manufacturer)
    ensures r.Ok? && db.Valid() ==> forall id :: id in db.cars ==>
      (ViewOf(db, id) in r.view <==> PassesFilters(ViewOf(db, id), name, color, manufacturer))
  {
    if !ValidFilters(name, color, manufacturer) then Invalid
    else Ok(set id | id in db.cars && db.cars[id].manufacturerId in db.manufacturers
                     && PassesFilters(ViewOf(db, id), name, color, manufacturer) :: ViewOf(db, id))
  }

  /** With no filters `read_cars` answers with every car. */
  lemma ReadCarsUnfilteredIsAll(db: Store)
    requires db.Valid()
    ensures ReadCars(db, None, None, None).Ok?
    ensures forall id :: id in db.cars ==> ViewOf(db, id) in ReadCars(db, None, None, None).view
    ensures forall v :: v in ReadCars(db, None, None, None).view ==> v.id in db.cars
  {
  }

  /** The filters are ANDed: filtering by several is the intersection of filtering by each. */
  lemma ReadCarsFiltersAreAnded(db: Store, name: Option<string>, color: Option<string>, manufacturer: Option<string>)
    requires ValidFilters(name, color, manufacturer)
    ensures ReadCars(db, name, color, manufacturer).view ==
      ReadCars(db, name, None, None).view * ReadCars(db, None, color, None).view * ReadCars(db, None, None, manufacturer).view
  {
  }

  /** `update_car`: validate the body; "Car not found" for an absent id;
      if a manufacturer name is supplied, find it by the name exactly as given
      (not lower-cased) or insert it, which the unique constraint rejects when
      its lower-cased form is already taken; apply the supplied fields (the
      hook lower-cases name and colour) and answer with the row and the
      supplied manufacturer name as given, or the stored one when none was supplied. */
  method UpdateCar(db: Store, id: int, u: CarUpdate) returns (r: Outcome<CarView>)
    requires db.Valid()
    modifies db
    ensures db.Valid()
    ensures r.Invalid? <==> !ValidCarUpdate(u)
    ensures r.NotFound? <==> ValidCarUpdate(u) && id !in old(db.cars)
    ensures r.Conflict? <==>
      && ValidCarUpdate(u) && id in old(db.cars) && u.manufacturerName.Some?
      && !NameTaken(old(db.manufacturers), u.manufacturerName.value)
      && NameTaken(old(db.manufacturers), Lower(u.manufacturerName.value))
    ensures !r.Ok? ==> unchanged(db)
    ensures r.Ok? ==> id in old(db.cars)
    ensures r.Ok? ==>
      && r.view.id == id
      && r.view.name == (if u.name.Some? then Lower(u.name.value) else old(db.cars[id].name))
      && r.view.color == (if u.color.Some? then Lower(u.color.value) else old(db.cars[id].color))
      && r.view.price == u.price.GetOr(old(db.cars[id].price))
      && db.cars == old(db.cars)[id := Car(r.view.name, r.view.color, r.view.price, r.view.manufacturerId)]
      && db.nextCarId == old(db.nextCarId)
    ensures r.Ok? && u.manufacturerName.None? ==>
      && r.view.manufacturerId == old(db.cars[id].manufacturerId)
      && db.manufacturers == old(db.manufacturers)
      && db.nextManufacturerId == old(db.nextManufacturerId)
      && ReadCar(db, id) == r
    ensures r.Ok? && u.manufacturerName.Some? ==>
      && r.view.manufacturerName == u.manufacturerName.value
      && r.view.manufacturerId in db.manufacturers
      && db.manufacturers[r.view.manufacturerId] == Lower(u.manufacturerName.value)
    ensures r.Ok? && u.manufacturerName.Some? && NameTaken(old(db.manufacturers), u.manufacturerName.value) ==>
      && db.manufacturers == old(db.manufacturers)
      && db.nextManufacturerId == old(db.nextManufacturerId)
      && ReadCar(db, id) == r
    ensures r.Ok? && u.manufacturerName.Some? && !NameTaken(old(db.manufacturers), u.manufacturerName.value) ==>
      && r.view.manufacturerId == old(db.nextManufacturerId)
      && db.manufacturers == old(db.manufacturers)[r.view.manufacturerId := Lower(u.manufacturerName.value)]
      && db.nextManufacturerId == old(db.nextManufacturerId) + 1
    ensures u == CarUpdate(None, None, None, None) && id in old(db.cars) ==>
      && r.Ok?
      && db.cars == old(db.cars) && db.manufacturers == old(db.manufacturers)
      && db.nextCarId == old(db.nextCarId) && db.nextManufacturerId == old(db.nextManufacturerId)
  {
    if !ValidCarUpdate(u) {
      return Invalid;
    }
    if id !in db.cars {
      return NotFound;
    }
    var manufacturerId := db.cars[id].manufacturerId;
    if u.manufacturerName.Some? {
      var resolved := ResolveManufacturer(db, u.manufacturerName.value);
      if resolved.None? {
        return Conflict;
      }
      manufacturerId := resolved.value;
    }
    var v := WriteCarUpdate(db, id, u, manufacturerId);
    if u.manufacturerName.Some? {
      v := v.(manufacturerName := u.manufacturerName.value);
    }
    r := Ok(v);
  }

  /** `update_car` as evidently intended: the manufacturer is found or created
      by its lower-cased name, as `create_car` does, so a supplied name never
      collides with the unique constraint and the answer agrees with a later
      read of the car. */
  method UpdateCarLowered(db: Store, id: int, u: CarUpdate) returns (r: Outcome<CarView>)
    requires db.Valid()
    modifies db
    ensures db.Valid()
    ensures r.Ok? || r.NotFound? || r.Invalid?
    ensures r.Invalid? <==> !ValidCarUpdate(u)
    ensures r.NotFound? <==> ValidCarUpdate(u) && id !in old(db.cars)
    ensures !r.Ok? ==> unchanged(db)
    ensures r.Ok? ==>
      && r.view.id == id
      && r.view.name == (if u.name.Some? then Lower(u.name.value) else old(db.cars[id].name))
      && r.view.color == (if u.color.Some? then Lower(u.color.value) else old(db.cars[id].color))
      && r.view.price == u.price.GetOr(old(db.cars[id].price))
      && db.cars == old(db.cars)[id := Car(r.view.name, r.view.color, r.view.price, r.view.manufacturerId)]
      && db.nextCarId == old(db.nextCarId)
      && ReadCar(db, id) == r
    ensures r.Ok? && u.manufacturerName.None? ==>
      && r.view.manufacturerId == old(db.cars[id].manufacturerId)
      && db.manufacturers == old(db.manufacturers)
      && db.nextManufacturerId == old(db.nextManufacturerId)
    ensures r.Ok? && u.manufacturerName.Some? ==>
      r.view.manufacturerName == Lower(u.manufacturerName.value)
    ensures r.Ok? && u.manufacturerName.Some? && NameTaken(old(db.manufacturers), Lower(u.manufacturerName.value)) ==>
      && r.view.manufacturerId in old(db.manufacturers)
      && old(db.manufacturers)[r.view.manufacturerId] == Lower(u.manufacturerName.value)
      && db.manufacturers == old(db.manufacturers)
      && db.nextManufacturerId == old(db.nextManufacturerId)
    ensures r.Ok? && u.manufacturerName.Some? && !NameTaken(old(db.manufacturers), Lower(u.manufacturerName.value)) ==>
      && r.view.manufacturerId == old(db.nextManufacturerId)
      && db.manufacturers == old(db.manufacturers)[r.view.manufacturerId := Lower(u.manufacturerName.value)]
      && db.nextManufacturerId == old(db.nextManufacturerId) + 1
  {
    if !ValidCarUpdate(u) {
      return Invalid;
    }
    if id !in db.cars {
      return NotFound;
    }
    var manufacturerId := db.cars[id].manufacturerId;
    if u.manufacturerName.Some? {
      var name := Lower(u.manufacturerName.value);
      LowerKeepsValidField(ManufacturerName, u.manufacturerName.value);
      LowerIdempotent(u.manufacturerName.value);
      var resolved := ResolveManufacturer(db, name);
      manufacturerId := resolved.value;
    }
    var v := WriteCarUpdate(db, id, u, manufacturerId);
    r := Ok(v);
  }

  /** The write half of `update_car`: assign the resolved manufacturer id,
      apply the supplied fields, let the update hook normalise, and read the
      row back joined with its manufacturer. */
  method WriteCarUpdate(db: Store, id: int, u: CarUpdate, manufacturerId: int) returns (v: CarView)
    requires db.Valid()
    requires ValidCarUpdate(u)
    requires id in db.cars && manufacturerId in db.manufacturers
    modifies db
    ensures db.Valid()
    ensures v.id == id && v.manufacturerId == manufacturerId
    ensures v.name == (if u.name.Some? then Lower(u.name.value) else old(db.cars[id].name))
    ensures v.color == (if u.color.Some? then Lower(u.color.value) else old(db.cars[id].color))
    ensures v.price == u.price.GetOr(old(db.cars[id].price))
    ensures db.cars == old(db.cars)[id := Car(v.name, v.color, v.price, manufacturerId)]
    ensures db.manufacturers == old(db.manufacturers)
    ensures db.nextCarId == old(db.nextCarId) && db.nextManufacturerId == old(db.nextManufacturerId)
    ensures ReadCar(db, id) == Ok(v)
    ensures u.name.None? && u.color.None? && u.price.None? && manufacturerId == old(db.cars[id].manufacturerId) ==>
      db.cars == old(db.cars)
  {
    var current := db.cars[id];
    assert StoredCar(current);
    var car := ApplyCarUpdate(current.(manufacturerId := manufacturerId), u);
    assert ValidField(CarName, car.name) && ValidField(CarColor, car.color) && ValidPrice(car.price);
    db.UpdateCarRow(id, car);
    ghost var stored := NormalizeCarFields(car);
    assert stored.name == (if u.name.Some? then Lower(u.name.value) else current.name);
    assert stored.color == (if u.color.Some? then Lower(u.color.value) else current.color);
    v := ViewOf(db, id);
  }

  /** `delete_car`: remove the row, or "Car not found". */
  method DeleteCar(db: Store, id: int) returns (r: Outcome<()>)
    requires db.Valid()
    modifies db
    ensures db.Valid()
    ensures r.Ok? || r.NotFound?
    ensures r.NotFound? <==> id !in old(db.cars)
    ensures r.NotFound? ==> unchanged(db)
    ensures db.cars == old(db.cars) - {id}
    ensures db.manufacturers == old(db.manufacturers)
    ensures db.nextCarId == old(db.nextCarId) && db.nextManufacturerId == old(db.nextManufacturerId)
    ensures ReadCar(db, id) == NotFound
  {
    if id !in db.cars {
      return NotFound;
    }
    db.cars := db.cars - {id};
    r := Ok(());
  }
}
