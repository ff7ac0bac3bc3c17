/** The two tables as an in-memory store. Each table is a map from id to row;
    each has its own id counter, as an auto-incremented primary key does.
    `Valid` collects the table constraints (unique manufacturer name, the
    foreign key from cars to manufacturers, the price check) together with
    the facts the request validation and the hooks make true of every row
    written (patterns, length bound, lower-case and trimmed values). */
module Database {
  import opened Wrappers
  import opened Text
  import opened Schemas
  import opened Models

  /** The unique constraint `check_manufacturer_unique_name`. */
  ghost predicate UniqueNames(manufacturers: map<int, string>) {
    forall a, b :: a in manufacturers && b in manufacturers && a != b ==> manufacturers[a] != manufacturers[b]
  }

  /** Some manufacturer row carries exactly this name. */
  predicate NameTaken(manufacturers: map<int, string>, name: string) {
    exists id :: id in manufacturers && manufacturers[id] == name
  }

  /** A manufacturer other than `id` carries exactly this name. */
  predicate NameTakenByOther(manufacturers: map<int, string>, id: int, name: string) {
    exists other :: other in manufacturers && other != id && manufacturers[other] == name
  }

  /** Some car row references this manufacturer id. */
  predicate HasDependentCar(cars: map<int, Car>, manufacturerId: int) {
    exists id :: id in cars && cars[id].manufacturerId == manufacturerId
  }

  class Store {
    var manufacturers: map<int, string>
    var cars: map<int, Car>
    var nextManufacturerId: int
    var nextCarId: int

    ghost predicate Valid()
      reads this
    {
      && 1 <= nextManufacturerId && 1 <= nextCarId
      && (forall id :: id in manufacturers ==> 1 <= id < nextManufacturerId)
      && (forall id :: id in cars ==> 1 <= id < nextCarId)
      && UniqueNames(manufacturers)
      && (forall id :: id in manufacturers ==> StoredManufacturerName(manufacturers[id]))
      && (forall id :: id in cars ==> StoredCar(cars[id]))
      && (forall id :: id in cars ==> cars[id].manufacturerId in manufacturers)
    }

    /** Empty tables; both counters start at 1. */
    constructor ()
      ensures Valid()
      ensures manufacturers == map[] && cars == map[]
      ensures nextManufacturerId == 1 && nextCarId == 1
    {
      manufacturers := map[];
      cars := map[];
      nextManufacturerId := 1;
      nextCarId := 1;
    }

    /** `select(Manufacturer).where(Manufacturer.name == name)`, first row. */
    method FindManufacturerByName(name: string) returns (r: Option<int>)
      ensures r.None? <==> !NameTaken(manufacturers, name)
      ensures r.Some? ==> r.value in manufacturers && manufacturers[r.value] == name
    {
      if NameTaken(manufacturers, name) {
        var id :| id in manufacturers && manufacturers[id] == name;
        r := Some(id);
      } else {
        r := None;
      }
    }

    /** `session.add(Manufacturer(name=name))` and a flush: the insert hook
        normalises the name, the table assigns the next id, and the unique
        constraint rejects a normalised name that is already taken, leaving
        the store as it was. */
    method InsertManufacturer(name: string) returns (r: Option<int>)
      requires Valid()
      requires ValidField(ManufacturerName, name)
      modifies this
      ensures Valid()
      ensures r.None? <==> NameTaken(old(manufacturers), Lower(name))
      ensures r.None? ==> unchanged(this)
      ensures r.Some? ==> r.value == old(nextManufacturerId) && r.value !in old(manufacturers)
      ensures r.Some? ==> manufacturers == old(manufacturers)[r.value := Lower(name)]
      ensures r.Some? ==> nextManufacturerId == old(nextManufacturerId) + 1
      ensures cars == old(cars) && nextCarId == old(nextCarId)
    {
      var stored := NormalizeManufacturerName(name);
      if NameTaken(manufacturers, stored) {
        r := None;
        return;
      }
      r := Some(nextManufacturerId);
      manufacturers := manufacturers[nextManufacturerId := stored];
      nextManufacturerId := nextManufacturerId + 1;
    }

    /** `session.add(car)` of a new row: the insert hook lower-cases name and
        colour, and the table assigns the next id. */
    method InsertCar(car: Car) returns (id: int)
      requires Valid()
      requires ValidField(CarName, car.name) && ValidField(CarColor, car.color) && ValidPrice(car.price)
      requires car.manufacturerId in manufacturers
      modifies this
      ensures Valid()
      ensures id == old(nextCarId) && id !in old(cars)
      ensures cars == old(cars)[id := NormalizeCarFields(car)]
      ensures nextCarId == old(nextCarId) + 1
      ensures manufacturers == old(manufacturers) && nextManufacturerId == old(nextManufacturerId)
    {
      id := nextCarId;
      var stored := NormalizeCarFields(car);
      cars := cars[id := stored];
      nextCarId := nextCarId + 1;
    }

    /** Writing back an existing car row: the update hook lower-cases name and colour. */
    method UpdateCarRow(id: int, car: Car)
      requires Valid()
      requires id in cars
      requires ValidField(CarName, car.name) && ValidField(CarColor, car.color) && ValidPrice(car.price)
      requires car.manufacturerId in manufacturers
      modifies this
      ensures Valid()
      ensures cars == old(cars)[id := NormalizeCarFields(car)]
      ensures car == old(cars[id]) ==> cars == old(cars)
      ensures manufacturers == old(manufacturers)
      ensures nextCarId == old(nextCarId) && nextManufacturerId == old(nextManufacturerId)
    {
      var stored := NormalizeCarFields(car);
      if car == cars[id] {
        assert cars[id := stored] == cars;
      }
      cars := cars[id := stored];
    }

    /** `sqlmodel_update` of a manufacturer's name and the flush: the update
        hook normalises the name, and the unique constraint rejects a name
        another manufacturer already has, leaving the store as it was. */
    method RenameManufacturer(id: int, name: string) returns (ok: bool)
      requires Valid()
      requires id in manufacturers
      requires ValidField(ManufacturerName, name)
      modifies this
      ensures Valid()
      ensures ok <==> !NameTakenByOther(old(manufacturers), id, Lower(name))
      ensures !ok ==> unchanged(this)
      ensures ok ==> manufacturers == old(manufacturers)[id := Lower(name)]
      ensures cars == old(cars)
      ensures nextCarId == old(nextCarId) && nextManufacturerId == old(nextManufacturerId)
    {
      var stored := NormalizeManufacturerName(name);
      if NameTakenByOther(manufacturers, id, stored) {
        return false;
      }
      assert StoredManufacturerName(stored);
      manufacturers := manufacturers[id := stored];
      ok := true;
    }

    /** `session.delete(manufacturer)` of a row that no car references, so
        the foreign key from cars stays satisfied. */
    method DeleteManufacturerRow(id: int)
      requires Valid()
      requires !HasDependentCar(cars, id)
      modifies this
      ensures Valid()
      ensures manufacturers == old(manufacturers) - {id}
      ensures cars == old(cars)
      ensures nextCarId == old(nextCarId) && nextManufacturerId == old(nextManufacturerId)
    {
      manufacturers := manufacturers - {id};
    }
  }
}
