/** The record shapes of the two tables and of the request bodies, the
    column constraints, and the two normalisation hooks that run before every
    insert and update. Prices are integer cents. */
module Models {
  import opened Wrappers
  import opened Text
  import opened Schemas

  /** `max_length=50` on every name, colour and manufacturer name. */
  const MaxNameLength := 50

  /** `max_digits=11, decimal_places=2`: at most 999 999 999.99, that is fewer than 10^11 cents. */
  const PriceLimit := 100_000_000_000

  /** A row of the `cars` table (without its id, which is the key of the table). */
  datatype Car = Car(name: string, color: string, price: int, manufacturerId: int)

  /** Request body of car creation (CarCreate); `price` has the default 0. */
  datatype CarCreate = CarCreate(name: string, color: string, price: Option<int>, manufacturerName: string)

  /** Request body of a car update (CarUpdate): every field optional, absence means "leave unchanged". */
  datatype CarUpdate = CarUpdate(name: Option<string>, color: Option<string>, price: Option<int>, manufacturerName: Option<string>)

  /** Request body of manufacturer creation (ManufacturerCreate). */
  datatype ManufacturerCreate = ManufacturerCreate(name: string)

  /** Request body of a manufacturer update (ManufacturerUpdate). */
  datatype ManufacturerUpdate = ManufacturerUpdate(name: Option<string>)

  /** The response shape of a car (CarPublic): the row joined with its manufacturer's name. */
  datatype CarView = CarView(id: int, name: string, color: string, price: int, manufacturerId: int, manufacturerName: string)

  /** The response shape of a manufacturer (ManufacturerPublic). */
  datatype ManufacturerView = ManufacturerView(id: int, name: string)

  /** `ge=0`, `max_digits=11`, `decimal_places=2`, and the check constraint `price >= 0`. */
  predicate ValidPrice(cents: int) {
    0 <= cents < PriceLimit
  }

  /** A field value the request validation admits: its pattern and the length bound. */
  predicate ValidField(f: Field, s: string) {
    |s| <= MaxNameLength && PatternAccepts(f, s)
  }

  predicate ValidCarCreate(c: CarCreate) {
    && ValidField(CarName, c.name)
    && ValidField(CarColor, c.color)
    && (c.price.Some? ==> ValidPrice(c.price.value))
    && ValidField(ManufacturerName, c.manufacturerName)
  }

  predicate ValidCarUpdate(u: CarUpdate) {
    && (u.name.Some? ==> ValidField(CarName, u.name.value))
    && (u.color.Some? ==> ValidField(CarColor, u.color.value))
    && (u.price.Some? ==> ValidPrice(u.price.value))
    && (u.manufacturerName.Some? ==> ValidField(ManufacturerName, u.manufacturerName.value))
  }

  predicate ValidManufacturerCreate(m: ManufacturerCreate) {
    ValidField(ManufacturerName, m.name)
  }

  predicate ValidManufacturerUpdate(u: ManufacturerUpdate) {
    u.name.Some? ==> ValidField(ManufacturerName, u.name.value)
  }

  /** Validation keeps a value valid through lower-casing. */
  lemma LowerKeepsValidField(f: Field, s: string)
    requires ValidField(f, s)
    ensures ValidField(f, Lower(s))
  {
    match f
    case CarName => LowerKeepsNameWithDigits(s);
    case CarColor => LowerKeepsNameWithoutDigits(s);
    case ManufacturerName => LowerKeepsNameWithoutDigits(s);
  }

  /** What the normalisation does to a field value: it always yields a normalised
      string, leaves a normalised one alone, and on a valid value is plain
      lower-casing, which keeps it valid. */
  lemma NormalizeFacts(f: Field, s: string)
    ensures IsNormalized(Normalize(s))
    ensures IsNormalized(s) ==> Normalize(s) == s
    ensures ValidField(f, s) ==> Normalize(s) == Lower(s) && ValidField(f, Lower(s))
  {
    NormalizeIsNormalized(s);
    if IsNormalized(s) {
      NormalizeFixesNormalized(s);
    }
    if ValidField(f, s) {
      AcceptedNormalizesToLower(s);
      LowerKeepsValidField(f, s);
    }
  }

  /** The hook on manufacturers: a non-empty name becomes `name.lower().strip()`. */
  function NormalizeManufacturerName(name: string): (r: string)
    ensures IsNormalized(r)
    ensures IsNormalized(name) ==> r == name
    ensures ValidField(ManufacturerName, name) ==> r == Lower(name) && ValidField(ManufacturerName, r)
  {
    NormalizeFacts(ManufacturerName, name);
    if name != "" then Normalize(name) else name
  }

  /** The hook on cars: name and colour each become `lower().strip()` when non-empty;
      price and manufacturer id are not touched. */
  function NormalizeCarFields(c: Car): (r: Car)
    ensures r.price == c.price && r.manufacturerId == c.manufacturerId
    ensures IsNormalized(r.name) && IsNormalized(r.color)
    ensures IsNormalized(c.name) ==> r.name == c.name
    ensures IsNormalized(c.color) ==> r.color == c.color
    ensures IsNormalized(c.name) && IsNormalized(c.color) ==> r == c
    ensures ValidField(CarName, c.name) && ValidField(CarColor, c.color) && ValidPrice(c.price) ==> StoredCar(r)
    ensures StoredCar(c) ==> r == c
    ensures ValidField(CarName, c.name) ==> r.name == Lower(c.name) && ValidField(CarName, r.name)
    ensures ValidField(CarColor, c.color) ==> r.color == Lower(c.color) && ValidField(CarColor, r.color)
  {
    NormalizeFacts(CarName, c.name);
    NormalizeFacts(CarColor, c.color);
    var name := if c.name != "" then Normalize(c.name) else c.name;
    var color := if c.color != "" then Normalize(c.color) else c.color;
    c.(name := name, color := color)
  }

  /** Running a hook twice is running it once. */
  lemma HooksIdempotent(name: string, c: Car)
    ensures NormalizeManufacturerName(NormalizeManufacturerName(name)) == NormalizeManufacturerName(name)
    ensures NormalizeCarFields(NormalizeCarFields(c)) == NormalizeCarFields(c)
  {
  }

  /** `sqlmodel_update` with the fields the client set: name, colour and price
      change only when supplied; the manufacturer name is handled by the router. */
  function ApplyCarUpdate(c: Car, u: CarUpdate): Car {
    Car(u.name.GetOr(c.name), u.color.GetOr(c.color), u.price.GetOr(c.price), c.manufacturerId)
  }

  /** A row as the store keeps it: every value valid and normalised. */
  predicate StoredCar(c: Car) {
    && ValidField(CarName, c.name) && IsNormalized(c.name)
    && ValidField(CarColor, c.color) && IsNormalized(c.color)
    && ValidPrice(c.price)
  }

  predicate StoredManufacturerName(name: string) {
    ValidField(ManufacturerName, name) && IsNormalized(name)
  }
}
