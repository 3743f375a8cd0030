# Soil tracker store, in Dafny

The soil tracker is a small HTTP service that keeps two in-memory collections:
soil types (`id`, `name`, `description`) and soil movements (`id`, `type`,
`soilTypeId`, `quantity`, `sourceLocation`, `destinationLocation`, `date`).
Each collection has list, create, update and delete routes. A movement may only
be created or updated when its `soilTypeId` is the id of an existing soil type,
a foreign-key check made at write time only.

This project models that store and proves what its routes do:

- `records.dfy` (module `Records`): the two record kinds, the movement request
  body, and the reply a route sends (a record, no content, or a 404 with its
  reason).
- `lookup.dfy` (module `Lookup`): the three array operations the routes use,
  stated over a sequence and a key: `find` (`FindIndex`, the first match),
  `some` (`HasKey`) and `filter` (`Without`), with the filter's laws.
- `soil_db.dfy` (module `SoilDb`): both collections as one value `Db`, the seed
  data, one function per write route giving the next collections and the reply,
  a `Request` type with `Handle` and `Run` for runs of requests, and the
  properties of the routes.
- `store.dfy` (module `SoilStore`): the class `Store`, whose two `seq` fields
  are the service's two module-level arrays. Each route handler is a method
  that updates the fields in place the way the handler does (append, replace
  the first match, or reassign to the filtered collection) and is proved to
  leave exactly the collections and reply the `SoilDb` function gives.

Behaviour kept as the code has it:

- A new record's id is the collection's length plus one. From the seed data and
  with no delete, the ids of each collection stay `1..length` in order, so they
  are unique. Ids are not guaranteed unique in general: once a delete has
  happened, a create can repeat an id still in use
  (`CreateAfterDeleteDuplicatesId`).
- Update changes only the first record with the id; delete removes every record
  with the id.
- Deleting a soil type does not touch the movements, so a movement may keep a
  `soilTypeId` that names no soil type.
- Updating a movement looks the movement up before checking `soilTypeId`, so an
  absent movement answers "not found" whatever the body holds.
- The record field `type` is called `typeName` here, because `type` is a Dafny
  keyword.

## Model

| member | source | states |
|---|---|---|
| Lookup.FindIndex | index.js:95 | `find`: a result exists exactly when some record has the id; it is a position holding that id and no earlier position holds it |
| Lookup.HasKeyMeansKeyIn | index.js:130 | `some` (`HasKey`) holds exactly when the id is in the set of the collection's ids |
| Lookup.Without | index.js:107 | `filter`: the result is no longer than the input |
| Lookup.WithoutMembers | index.js:107 | `filter`: the result holds exactly the records whose id differs, so no record with the id is left |
| Lookup.WithoutAppend | index.js:107 | filtering a concatenation is the concatenation of the filtered parts, so the kept records stay in their original order |
| Lookup.WithoutIdempotent | index.js:105-109 | filtering twice with one id equals filtering once |
| Lookup.WithoutAbsent | index.js:105-109 | filtering out an id no record has returns the collection unchanged |
| Lookup.IdsFromOneLocate | index.js:86 | when ids are `1..length` in order they are pairwise distinct and `find` of id k is position k - 1 (none when k is out of range) |
| SoilDb.SoilTypeExistsMeansRecord | index.js:167 | the foreign-key check `SoilTypeExists` holds exactly when some soil type record in the collection has the id |
| Records.Movement | index.js:136-144 | the movement record built from an id and a request body has that id, and its other fields give back exactly that body |
| SoilDb.CreateSoilType | index.js:84-89 | appends one soil type with id old length + 1 and the given name and description, returns it, earlier records and the movements unchanged |
| SoilDb.UpdateSoilType | index.js:92-102 | 404 exactly when no soil type has the id, and then nothing changes; a record reply exactly when one has it, and then only the first match gets the new name and description, keeps its id, the length and every other record stay |
| SoilDb.DeleteSoilType | index.js:105-109 | no soil type with the id remains, every other soil type does, the reply is empty, the movements are untouched (no cascade) |
| SoilDb.CreateSoilMovement | index.js:119-147 | 404 exactly when `soilTypeId` names no soil type, and then nothing changes; otherwise appends one movement with id old length + 1 whose `soilTypeId` names an existing soil type, earlier movements and the soil types unchanged |
| SoilDb.UpdateSoilMovement | index.js:150-180 | absent movement gives "movement not found" whatever the body; present movement with unknown `soilTypeId` gives "soil type does not exist" and changes nothing; success exactly when both checks pass, and then only the first match is overwritten, keeps its id, and refers to an existing soil type |
| SoilDb.DeleteSoilMovement | index.js:183-187 | no movement with the id remains, every other movement does, the reply is empty, the soil types are untouched |
| SoilDb.SeedSoilTypes | index.js:15-39 | six seeded soil types, with ids 1..6 in order |
| SoilDb.SeedSoilMovements | index.js:40-69 | three seeded movements, with ids 1..3 in order, each with a `soilTypeId` within the seeded soil-type ids |
| SoilDb.Seed | index.js:15-69 | the start-up collections: each collection's ids are `1..length`, and every movement's `soilTypeId` names an existing soil type |
| SoilDb.HandleKeepsIdsFollowLength | index.js:84-180 | any create or update keeps each collection's ids equal to `1..length` |
| SoilDb.RunKeepsIdsFollowLength | index.js:84-180 | any run of requests with no delete keeps each collection's ids equal to `1..length` |
| SoilDb.IdsFollowLengthUnique | index.js:86 | when each collection's ids are `1..length`, ids are unique in each collection and the next create's id is held by no record |
| SoilDb.NoDeleteRunFromSeedKeepsIdsUnique | index.js:15-180 | from the seed data and with no delete, ids stay unique in both collections and the next create's id is used by no record |
| SoilDb.DeleteSoilTypeIdempotent | index.js:105-109 | deleting a soil type twice gives the same collections and reply as deleting it once |
| SoilDb.DeleteAbsentSoilTypeIsNoOp | index.js:105-109 | deleting an id no soil type has changes nothing and answers no content |
| SoilDb.DeleteSoilMovementIdempotent | index.js:183-187 | deleting a movement twice gives the same collections and reply as deleting it once |
| SoilDb.DeleteAbsentSoilMovementIsNoOp | index.js:183-187 | deleting an id no movement has changes nothing and answers no content |
| SoilDb.FirstMovementFromSeed | index.js:129-146 | from the seed data, a movement create referring to soil types 1..6 returns id 4, any other `soilTypeId` is refused with nothing changed |
| SoilDb.DeleteSoilTypeLeavesDanglingReference | index.js:105-109 | after deleting seeded soil type 2, movement 2 still has `soilTypeId` 2, which no soil type has |
| SoilDb.CreateAfterDeleteDuplicatesId | index.js:86 | deleting seeded soil type 1 and creating one yields two soil types with id 6 |
| SoilStore.Store.constructor | index.js:15-69 | a new store holds exactly the seeded collections, whose ids are `1..length` |
| SoilStore.Store.ListSoilTypes | index.js:79-81 | returns every soil type in order |
| SoilStore.Store.CreateSoilType | index.js:84-89 | pushes the new soil type; the new state and reply are those of `SoilDb.CreateSoilType` |
| SoilStore.Store.UpdateSoilType | index.js:92-102 | finds the first match and replaces it; the new state and reply are those of `SoilDb.UpdateSoilType`; on 404 nothing changes |
| SoilStore.Store.DeleteSoilType | index.js:105-109 | reassigns the soil types to the filtered collection; movements untouched |
| SoilStore.Store.ListSoilMovements | index.js:114-116 | returns every movement in order |
| SoilStore.Store.CreateSoilMovement | index.js:119-147 | checks the soil type, then pushes; the new state and reply are those of `SoilDb.CreateSoilMovement`; on 404 nothing changes |
| SoilStore.Store.UpdateSoilMovement | index.js:150-180 | looks the movement up, then checks the soil type, then replaces the first match; the new state and reply are those of `SoilDb.UpdateSoilMovement` |
| SoilStore.Store.DeleteSoilMovement | index.js:183-187 | reassigns the movements to the filtered collection; soil types untouched |
| SoilStore.SeedScenario | index.js:119-147 | on a fresh store, a movement create referring to a seeded soil type returns id 4, a following one referring to soil type 99 is refused, and 4 movements remain |

## Left out

- The Express app, the `cors` and JSON middleware, the port lookup, `app.listen`
  and console logging: transport and I/O with no store logic.
- The welcome route `GET /`, which returns a fixed string.
- HTTP status codes, the 404 message strings and JSON serialisation: a reply is
  a `Reply` value whose `Error` names which of the three 404 messages was sent.
- The text-to-number coercion of path ids and of `soilTypeId` (`parseInt`,
  `Number`, NaN, partial parses): ids and `soilTypeId` are taken as integers.
  The create route stores `soilTypeId` as it arrived and the update route
  stores its parsed value; with integers both store the same value.
- Request-body fields are modelled as present strings (and `soilTypeId` as an
  integer). In the service a field may be missing or hold any JSON value, and
  it is stored as given; no property here depends on the field values.
- Object identity: records are values, so the JavaScript object that `find`
  returns, is changed in place and is also sent as the reply is modelled as
  replacing the record at its position and returning the new value.
- Concurrency: the service handles one request at a time, and so does the model.
