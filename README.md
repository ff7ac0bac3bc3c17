# Cars: a verified model of the manufacturers-and-cars service

The service keeps two tables: manufacturers and cars. Every car belongs to one
manufacturer. Ten route handlers create, read, update and delete the rows:
five under `/cars` and five under `/manufacturers`. Request bodies and
query parameters are validated before a handler runs. Names and colours must
match one of two patterns (`NAME_WITHOUT_DIGITS`, `NAME_WITH_DIGITS`), are at
most 50 characters long, and prices are non-negative decimals of at most 11
digits, 2 of them after the point. Two database hooks lower-case and trim every name and
colour before each insert and update. The tables enforce a unique
manufacturer name, a foreign key from cars to manufacturers and a
non-negative price.

The model is an in-memory store, `Database.Store`. It is a class holding the
two tables as maps from id to row, plus one id counter per table, as an
auto-incremented key would have. Its invariant `Store.Valid` contains:

- names are unique;
- every car references an existing manufacturer;
- every stored value passes validation and is lower-cased and trimmed;
- every id is below its table's counter.

Each writing handler is a method that takes the store, changes it as one
atomic step and preserves `Valid`. It answers
`Ok(view) | NotFound | Conflict | Invalid`, as defined in `Wrappers.Outcome`.
An error answer leaves the store unchanged. The reading handlers are
functions of the store.

Files:

- `wrappers.dfy`: `Option` and the handler outcome `Outcome`.
- `text.dfy`: `str.lower` on the letters of the model (ASCII and Cyrillic
  А–я with Ё/ё), and `str.strip` on every character `str.isspace` accepts.

  It also proves that they commute and are idempotent, and characterises the
  normalised strings.
- `schemas.dfy`: the two patterns as character-class predicates, and which
  field uses which.
- `models.dfy`: the row and request shapes, the column constraints, the two
  normalisation hooks and the partial-update merge.
- `database.dfy`: the store, its invariant and its row-level operations. This
  is where the hooks and the unique constraint act.
- `cars_router.dfy` and `manufacturers_router.dfy`: the handlers.
- `scenarios.dfy`: request sequences from the repository's tests and the
  quirks of the update paths, derived from the handlers' contracts.

Prices are integer cents. The hooks are functions applied to the row at the
moment it is written.

On these points the code behaves as follows:

- The patterns admit Cyrillic letters, and their first character must be a
  letter (`src/schemas.py:3-4`). The validation message the manufacturer
  test expects (`src/tests/test_manufacturer.py:48`) quotes an older,
  ASCII-only pattern; the model follows the current one.
- Validation checks the value as supplied, before any normalisation.
  Surrounding whitespace is therefore rejected rather than trimmed.
- Neither find-or-create of a manufacturer retries after a unique-constraint
  violation.
- `update_car` looks the manufacturer up by the name exactly as supplied, not
  lower-cased (see Findings).
- There is no check constraint on the patterns in the database. The only
  check constraint is `price >= 0`.

## Model

| member | source | states |
|---|---|---|
| Text.LowerChar | src/models.py:128 | lower-casing a character leaves no upper-case letter, changes exactly the upper-case letters, and keeps whitespace whitespace |
| Text.Lower | src/models.py:128 | `str.lower` keeps the length and lower-cases each character in place |
| Text.StripLeft | src/models.py:128 | drops exactly the leading whitespace: the result starts with non-whitespace and everything dropped was whitespace |
| Text.StripRight | src/models.py:128 | drops exactly the trailing whitespace |
| Text.Strip | src/models.py:128 | `str.strip()`: the leading whitespace dropped, then the trailing whitespace |
| Text.Normalize | src/models.py:128 | `lower().strip()`, the normalisation both hooks apply |
| Text.IsSpace | src/models.py:128 | the characters `str.strip()` removes: exactly those `str.isspace` accepts |
| Text.LowerIdempotent | src/models.py:128 | lower-casing twice equals lower-casing once |
| Text.StripIdempotent | src/models.py:128 | trimming twice equals trimming once |
| Text.LowerStripLeftCommute | src/models.py:128 | lower-casing and trimming on the left commute |
| Text.LowerStripRightCommute | src/models.py:128 | lower-casing and trimming on the right commute |
| Text.LowerStripCommute | src/models.py:128 | `lower().strip()` equals `strip().lower()` |
| Text.NormalizedIffFixed | src/models.py:125-128 | a string is normalised (no upper-case letter, no surrounding whitespace) exactly when both lower-casing and trimming leave it unchanged |
| Text.NormalizeIsNormalized | src/models.py:125-128 | `lower().strip()` always yields a normalised string |
| Text.NormalizeIdempotent | src/models.py:125-128 | normalising twice equals normalising once |
| Text.NormalizeFixesNormalized | src/models.py:125-128 | normalisation leaves an already normalised string unchanged |
| Schemas.NameWithoutDigits | src/schemas.py:3 | NAME_WITHOUT_DIGITS: one Latin or Cyrillic letter, then letters and hyphens |
| Schemas.NameWithDigits | src/schemas.py:4 | NAME_WITH_DIGITS: one Latin or Cyrillic letter, then letters, hyphens and digits |
| Schemas.PatternAccepts | src/schemas.py:6-17 | the car name uses the with-digits pattern; the colour and manufacturer name use the no-digits pattern, so they are non-empty and digit-free |
| Schemas.WithoutDigitsIsWithDigits | src/schemas.py:3-4 | every name the no-digits pattern accepts, the with-digits pattern accepts too |
| Schemas.WithDigitsStartsWithLetter | src/schemas.py:4 | digits and hyphens are allowed, but never as the first character |
| Schemas.LowerCharKeepsClass | src/schemas.py:3-4 | lower-casing maps letters to letters and non-letters to non-letters, and keeps hyphens and digits |
| Schemas.LowerKeepsNameWithoutDigits | src/schemas.py:3 | lower-casing a name the no-digits pattern accepts yields a name it still accepts |
| Schemas.LowerKeepsNameWithDigits | src/schemas.py:4 | lower-casing a name the with-digits pattern accepts yields a name it still accepts |
| Schemas.AcceptedNormalizesToLower | src/schemas.py:3-4 | an accepted name has no surrounding whitespace, so the hooks' `lower().strip()` on it is `lower()`, and the result is normalised |
| Schemas.ColorRejectsDigits | src/tests/test_car.py:114-122 | "red123" is not an admissible colour |
| Schemas.CarNameRejectsAt | src/tests/test_car.py:103-111 | "test@car" is not an admissible car name |
| Schemas.ManufacturerNameRejectsDigits | src/tests/test_manufacturer.py:44-47 | "123456789" is not an admissible manufacturer name |
| Schemas.SchemaExamplesAccepted | src/schemas.py:6-17 | the schema examples (camry, rx-7, red, blue, volvo, mazda) and a Cyrillic name are accepted by their fields' patterns |
| Models.ValidPrice | src/models.py:60-64 | a price in cents is admitted exactly when it is non-negative and has at most 11 digits, 2 of them after the point (below 10^11 cents) |
| Models.ValidField | src/models.py:12-16 | a name, colour or manufacturer name is admitted exactly when it is at most 50 characters long and its field's pattern accepts it (also lines 50-59, 95-98 and 103-120) |
| Models.ValidCarCreate | src/models.py:48-64 | a car-creation body is admitted exactly when name, colour and manufacturer name pass their fields, and a supplied price is admitted (also lines 93-98) |
| Models.ValidCarUpdate | src/models.py:101-120 | a car-update body is admitted exactly when every supplied field passes its field's validation |
| Models.ValidManufacturerCreate | src/models.py:10-16 | a manufacturer-creation body is admitted exactly when its name passes the manufacturer-name field (also lines 36-37) |
| Models.ValidManufacturerUpdate | src/models.py:40-45 | a manufacturer-update body is admitted exactly when a supplied name passes the manufacturer-name field |
| Models.LowerKeepsValidField | src/schemas.py:3-4 | a field value that passes validation still passes after lower-casing, including the length bound |
| Models.NormalizeFacts | src/models.py:125-128 | normalising always yields a normalised string and leaves a normalised one alone; on a valid value it is plain lower-casing and keeps the value valid |
| Models.NormalizeManufacturerName | src/models.py:123-128 | the manufacturer hook yields a normalised name, leaves a normalised or empty name unchanged, and turns a valid name into its lower-cased form, which is still valid |
| Models.NormalizeCarFields | src/models.py:131-139 | the car hook normalises name and colour independently, leaves price and manufacturer id unchanged, turns a valid row into a stored row, and leaves a stored row unchanged |
| Models.HooksIdempotent | src/models.py:123-139 | running either hook twice equals running it once |
| Models.ApplyCarUpdate | src/routers/cars.py:121-122 | the partial-update merge (`model_dump(exclude_unset=True)` here, then `sqlmodel_update` at lines 140-141, with the `CarUpdate` shape of src/models.py:101-120): name, colour and price take the supplied value where there is one and keep the old value otherwise; the manufacturer id is left to the handler |
| Database.Store.Valid | src/models.py:26-28 | the store invariant: manufacturer names unique (this constraint), every car's manufacturer id present (lines 75-78), every price non-negative (line 82), every stored value admitted by validation and normalised by the hooks, and every id below its table's counter |
| Database.NameTakenByOther | src/models.py:26-28 | the unique constraint as a rename meets it: a manufacturer other than the renamed one already has the name (the rename is src/routers/manufacturers.py:112-117) |
| Database.HasDependentCar | src/routers/manufacturers.py:143-147 | some car references the manufacturer id |
| Database.Store.constructor | src/models.py:19-28 | the store starts with empty tables, both counters at 1, and satisfies the invariant |
| Database.Store.FindManufacturerByName | src/routers/cars.py:21-25 | finds a manufacturer carrying exactly the name, and finds nothing exactly when none does |
| Database.Store.InsertManufacturer | src/models.py:26-28 | inserting a manufacturer fails, with the store unchanged, exactly when its lower-cased name is taken; otherwise it adds one row under the next id holding the lower-cased name |
| Database.Store.InsertCar | src/models.py:131-139 | inserting a car adds exactly one row, under the next id, holding the hook's normalisation of the car; the invariant is preserved |
| Database.Store.UpdateCarRow | src/models.py:131-139 | writing a car row back stores the hook's normalisation of it, changes no other row, and writing back the stored row itself changes nothing |
| Database.Store.RenameManufacturer | src/routers/manufacturers.py:112-117 | renaming succeeds exactly when no other manufacturer has the lower-cased name, and then replaces only that row's name; otherwise the store is unchanged |
| Database.Store.DeleteManufacturerRow | src/routers/manufacturers.py:153-154 | deleting an unreferenced manufacturer removes exactly that row and keeps every car's reference valid |
| CarsRouter.ViewOf | src/routers/cars.py:52-56 | the joined view of a car: its id, its row and its manufacturer's name |
| CarsRouter.ResolveManufacturer | src/routers/cars.py:124-138 | an exact match is reused with the store unchanged. A name whose lower-cased form alone is taken fails, with the store unchanged. Otherwise exactly one manufacturer is added, under the next id, with the lower-cased name |
| CarsRouter.CreateCar | src/routers/cars.py:16-41 | An invalid body is Invalid; otherwise the answer is Ok. The new car is added under the next id with name and colour lower-cased and the price defaulting to 0. It is linked to the manufacturer with the lower-cased name, which is reused if present and added otherwise. The answer equals a later read of the car |
| CarsRouter.ReadCar | src/routers/cars.py:48-67 | NotFound exactly when no car has the id; otherwise the car joined with its manufacturer's name |
| CarsRouter.ValidFilters | src/routers/cars.py:76-78 | the query parameters are admitted exactly when each supplied one is at most 50 characters long and matches its pattern |
| CarsRouter.PassesFilters | src/routers/cars.py:82-89 | a joined row passes exactly when each supplied filter, lower-cased, equals its field; an absent filter passes every row |
| CarsRouter.ReadCars | src/routers/cars.py:74-99 | Invalid exactly when a filter fails validation. Otherwise the answer holds exactly the joined cars whose name, colour and manufacturer name equal every supplied filter, each filter lower-cased |
| CarsRouter.ReadCarsUnfilteredIsAll | src/routers/cars.py:80-99 | with no filters every car is in the answer |
| CarsRouter.ReadCarsFiltersAreAnded | src/routers/cars.py:82-89 | filtering by several fields is the intersection of filtering by each |
| CarsRouter.UpdateCar | src/routers/cars.py:106-155 | Invalid, then NotFound for an absent id, then Conflict exactly when the supplied manufacturer name is not taken but its lower-cased form is; every error leaves the store unchanged. On Ok, only the supplied fields of that car change (lower-cased), no other car changes, the manufacturer is reused or added as in find-or-create, the answer echoes the supplied manufacturer name, and an empty update changes nothing |
| CarsRouter.WriteCarUpdate | src/routers/cars.py:133-141 | merging the supplied fields into the car and writing it back changes only that car; the answer equals a later read of it |
| CarsRouter.UpdateCarLowered | src/routers/cars.py:106-155 | the corrected update never yields Conflict, reuses the manufacturer with the lower-cased name when there is one, and answers exactly what a later read returns |
| CarsRouter.DeleteCar | src/routers/cars.py:161-181 | NotFound, with the store unchanged, exactly when the id is absent; otherwise exactly that car is removed, the manufacturers are untouched and the car no longer reads back |
| ManufacturersRouter.CreateManufacturer | src/routers/manufacturers.py:21-41 | Invalid for an invalid body; Conflict, with the store unchanged, exactly when the lower-cased name is taken; otherwise exactly one manufacturer is added under the next id with the lower-cased name, and it reads back as answered |
| ManufacturersRouter.ReadManufacturer | src/routers/manufacturers.py:49-67 | NotFound exactly when the id is absent; otherwise the row |
| ManufacturersRouter.ReadManufacturers | src/routers/manufacturers.py:75-85 | the answer holds exactly the manufacturer rows |
| ManufacturersRouter.UpdateManufacturer | src/routers/manufacturers.py:93-119 | Invalid, then NotFound for an absent id, then Conflict exactly when another manufacturer has the lower-cased new name; errors leave the store unchanged. With no name nothing changes; otherwise only that row's name changes, to the lower-cased name, and the id is kept |
| ManufacturersRouter.DeleteManufacturer | src/routers/manufacturers.py:126-156 | NotFound for an absent id; Conflict, with the store unchanged, exactly when some car references it; otherwise exactly that manufacturer is removed and every remaining car still references an existing manufacturer |
| Scenarios.UppercaseConversion | src/tests/test_car.py:50-70 | upper-case car input is answered and read back lower-cased |
| Scenarios.SharedManufacturer | src/tests/test_car.py:84-99 | two cars naming one manufacturer in different case share one manufacturer row; an omitted price is 0 |
| Scenarios.DuplicateManufacturer | src/tests/test_manufacturer.py:50-63 | creating an existing manufacturer again in upper case is a Conflict |
| Scenarios.DeleteGuard | src/routers/manufacturers.py:143-154 | a referenced manufacturer cannot be deleted; after its car is deleted it can, and it then reads as NotFound |
| Scenarios.PartialUpdate | src/tests/test_car.py:259-270 | updating only the colour keeps name, price and manufacturer |
| Scenarios.UpdateCarCaseCollision | src/routers/cars.py:124-138 | the as-written car update, given "MAZDA" while "mazda" exists, is a Conflict |
| Scenarios.UpdateCarEchoesName | src/routers/cars.py:153-155 | take any valid car body and a valid new manufacturer name whose lower-cased form is not yet taken. The as-written update answers with the name as supplied, while a later read shows it lower-cased. The two differ whenever the name is not lower-case, as "Volvo" is not |
| Scenarios.UpdateCarLoweredReuses | src/routers/cars.py:20-29 | the corrected car update, given "MAZDA" while "mazda" exists, reuses that manufacturer and answers "mazda" |
| Scenarios.RenameManufacturerCollision | src/routers/manufacturers.py:112-117 | renaming onto another manufacturer's name in another case is a Conflict; renaming onto its own name in upper case succeeds |

## Left out

- HTTP routing, status codes and JSON bodies are left out. Outcomes are the four tags of `Outcome`: Invalid maps to 422, NotFound to 404, and Conflict to 400 except for the two unique-constraint collisions named below, which the source answers with a 500. The delete handlers' `{'message': 'deleted'}` body becomes `Ok(())`.
- Session mechanics are left out: async execute, flush, commit and rollback. Each handler is one atomic step on the store. A handler that fails leaves the store as it was, as the rolled-back transaction does.
- Concurrency between requests is not modelled, because the model has no second client.
- The engine, settings, migrations and test fixtures are configuration or I/O and are not part of this model.
- `ON DELETE CASCADE` on the foreign key is not modelled. The delete guard refuses to delete a referenced manufacturer, so the cascade is never reached.
- Decimal prices are integer cents. Decimal-to-string formatting of prices in answers is left out. So is the rejection of input with more than two decimal places, which cents cannot express.
- The patterns are exact languages. Regex-engine details such as a trailing newline before the end anchor are left out.
- Explicit JSON `null` for a field of an update body is left out. Update fields are present or absent (`Option`).
- Text.Lower: Unicode lower-casing outside ASCII and Cyrillic А–я with Ё/ё is not modelled. Every value that passes validation lies within those letters, hyphens and digits.
- The hooks are not modelled as in-place mutation of the ORM object. They are functions applied to the row as it is written. The answers then carry the hook's values, because the session keeps objects after commit.
- CarsRouter.UpdateCar: when the supplied manufacturer name is not taken but its lower-cased form is, the flush of the new manufacturer raises an unhandled unique-constraint error, which the client sees as a server error (500). The model answers Conflict with the store unchanged.
- ManufacturersRouter.UpdateManufacturer: a rename onto a taken name makes the source raise an unhandled unique-constraint error, which is a server error. The model answers Conflict with the store unchanged.
- ResolveManufacturer and InsertManufacturer: a failed insert may still advance the database's id sequence. The model leaves its counter as it was, so ids stay distinct but need not match the database's.
- Ids are unbounded integers. The 32-bit id columns are not modelled: a path id outside their range may raise an unhandled driver error where the model answers NotFound, and the id sequences never run out.
- ReadCars and ReadManufacturers: answers are sets. The row order of the SQL results is not stated, and the number of rows is not stated separately from the membership property.
- Scenarios: the request sequences use the short names from the schema examples (volvo, mazda, camry, rx-7) instead of the tests' longer names.

## Findings

| source | as written | input that shows it | evidently intended | confidence | as-written member | corrected member |
|---|---|---|---|---|---|---|
| src/routers/cars.py:124-138 | `update_car` looks the manufacturer up by the name exactly as supplied. On a miss it inserts a row whose hook lower-cases the name. | A manufacturer "mazda" exists, and a car update supplies manufacturer_name "MAZDA". The insert violates the unique constraint, which nothing handles, so the client gets a server error (500). | Look up the lower-cased name, as `create_car` does at src/routers/cars.py:20, and reuse "mazda". | high; not executed | Scenarios.UpdateCarCaseCollision | CarsRouter.UpdateCarLowered |
| src/routers/cars.py:153-155 | The update answer carries the manufacturer name as supplied, while the stored name is lower-cased. | A car update supplies manufacturer_name "Volvo". The answer says "Volvo" and a later read says "volvo". | The answer shows the stored name, as `create_car` and `read_car` do. | medium; not executed | Scenarios.UpdateCarEchoesName | CarsRouter.UpdateCarLowered |
