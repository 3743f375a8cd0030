/** The soil tracker's data as a value: the two collections, the seed data the
    process starts with, one function per route giving the next collections and
    the reply, and the properties of those routes over any run of requests. */
module SoilDb {
  import opened Records
  import opened Lookup

  /** Both collections, in listing order. */
  datatype Db = Db(soilTypes: seq<SoilType>, soilMovements: seq<SoilMovement>)

  /** The collections after a route ran, and what it sent back. */
  datatype Outcome = Outcome(next: Db, reply: Reply)

  /** The six soil types the process starts with. */
  function SeedSoilTypes(): (r: seq<SoilType>)
    ensures |r| == 6 && IdsFromOne(r, TypeKey)
  {
    [ SoilType(1, "Loam", "Rich, well-drained soil"),
      SoilType(2, "Clay", "Heavy, sticky soil that holds moisture well"),
      SoilType(3, "Sandy", "Light, well-aerated soil that drains quickly"),
      SoilType(4, "Silt", "Smooth, moisture-retentive soil with fine particles"),
      SoilType(5, "Peat", "Dark, nutrient-rich, and acidic soil"),
      SoilType(6, "Chalky", "Alkaline soil with large particles and poor moisture retention") ]
  }

  /** The three soil movements the process starts with. */
  function SeedSoilMovements(): (r: seq<SoilMovement>)
    ensures |r| == 3 && IdsFromOne(r, MovementKey)
    ensures forall m :: m in r ==> 1 <= m.soilTypeId <= |SeedSoilTypes()|
  {
    [ SoilMovement(1, "Loam", 1, "10 tons", "Farm A", "Site X", "2023-01-15"),
      SoilMovement(2, "Clay", 2, "5 tons", "Quarry B", "Site Y", "2023-02-20"),
      SoilMovement(3, "Sandy", 3, "8 tons", "Beach C", "Garden Z", "2023-03-05") ]
  }

  /** The collections at start-up: ids follow the length, and every seeded
      movement refers to a seeded soil type. */
  function Seed(): (db: Db)
    ensures IdsFollowLength(db)
    ensures forall m :: m in db.soilMovements ==> SoilTypeExists(db, m.soilTypeId)
  {
    var types := SeedSoilTypes();
    assert forall k :: 1 <= k <= |types| ==> HasKey(types, TypeKey, k) by {
      forall k | 1 <= k <= |types| ensures HasKey(types, TypeKey, k) {
        assert TypeKey(types[k - 1]) == k;
      }
    }
    Db(types, SeedSoilMovements())
  }

  /** Some soil type has id `id`: the foreign-key check of the movement routes. */
  predicate SoilTypeExists(db: Db, id: int)
  {
    HasKey(db.soilTypes, TypeKey, id)
  }

  /** The foreign-key check holds exactly when some soil type record has the id. */
  lemma SoilTypeExistsMeansRecord(db: Db, id: int)
    ensures SoilTypeExists(db, id) <==> exists t :: t in db.soilTypes && t.id == id
  {
    if SoilTypeExists(db, id) {
      var i :| 0 <= i < |db.soilTypes| && TypeKey(db.soilTypes[i]) == id;
      assert db.soilTypes[i] in db.soilTypes;
    }
  }

  /** POST /soil_types: appends one record whose id is the old length plus one. */
  function CreateSoilType(db: Db, name: string, description: string): (o: Outcome)
    ensures o.reply.TypeRecord?
    ensures var n := |db.soilTypes|;
      |o.next.soilTypes| == n + 1 && o.next.soilTypes[..n] == db.soilTypes &&
      o.next.soilTypes[n] == o.reply.soilType == SoilType(n + 1, name, description)
    ensures o.next.soilMovements == db.soilMovements
  {
    var created := SoilType(|db.soilTypes| + 1, name, description);
    Outcome(db.(soilTypes := db.soilTypes + [created]), TypeRecord(created))
  }

  /** PUT /soil_types/:id: renames and redescribes the first soil type with
      that id, or answers 404 and changes nothing. */
  function UpdateSoilType(db: Db, id: int, name: string, description: string): (o: Outcome)
    ensures o.reply.NotFound? <==> !SoilTypeExists(db, id)
    ensures o.reply.TypeRecord? <==> SoilTypeExists(db, id)
    ensures o.reply.NotFound? ==> o == Outcome(db, NotFound(SoilTypeNotFound))
    ensures o.reply.TypeRecord? ==>
      var i := FindIndex(db.soilTypes, TypeKey, id).value;
      o.reply.soilType == SoilType(id, name, description) &&
      |o.next.soilTypes| == |db.soilTypes| &&
      db.soilTypes[i].id == id && o.next.soilTypes[i] == o.reply.soilType &&
      (forall j :: 0 <= j < i ==> db.soilTypes[j].id != id) &&
      (forall j :: 0 <= j < |db.soilTypes| && j != i ==> o.next.soilTypes[j] == db.soilTypes[j])
    ensures o.next.soilMovements == db.soilMovements
  {
    match FindIndex(db.soilTypes, TypeKey, id)
    case None => Outcome(db, NotFound(SoilTypeNotFound))
    case Some(i) =>
      var updated := db.soilTypes[i].(name := name, description := description);
      Outcome(db.(soilTypes := db.soilTypes[i := updated]), TypeRecord(updated))
  }

  /** DELETE /soil_types/:id: drops every soil type with that id. Movements
      that refer to it are kept as they are. */
  function DeleteSoilType(db: Db, id: int): (o: Outcome)
    ensures o.reply == NoContent
    ensures !SoilTypeExists(o.next, id)
    ensures forall t :: t in o.next.soilTypes <==> t in db.soilTypes && t.id != id
    ensures o.next.soilMovements == db.soilMovements
  {
    WithoutMembers(db.soilTypes, TypeKey, id);
    Outcome(db.(soilTypes := Without(db.soilTypes, TypeKey, id)), NoContent)
  }

  /** POST /soil_movements: when `body.soilTypeId` names a soil type, appends
      one movement whose id is the old length plus one; otherwise answers 404
      and changes nothing. */
  function CreateSoilMovement(db: Db, body: MovementBody): (o: Outcome)
    ensures o.reply.NotFound? <==> !SoilTypeExists(db, body.soilTypeId)
    ensures o.reply.NotFound? ==> o == Outcome(db, NotFound(SoilTypeDoesNotExist))
    ensures o.reply.MovementRecord? ==>
      var n := |db.soilMovements|;
      |o.next.soilMovements| == n + 1 && o.next.soilMovements[..n] == db.soilMovements &&
      o.next.soilMovements[n] == o.reply.movement == Movement(n + 1, body) &&
      SoilTypeExists(db, o.reply.movement.soilTypeId)
    ensures o.reply.NotFound? || o.reply.MovementRecord?
    ensures o.next.soilTypes == db.soilTypes
  {
    if !SoilTypeExists(db, body.soilTypeId) then
      Outcome(db, NotFound(SoilTypeDoesNotExist))
    else
      var created := Movement(|db.soilMovements| + 1, body);
      Outcome(db.(soilMovements := db.soilMovements + [created]), MovementRecord(created))
  }

  /** PUT /soil_movements/:id: first looks the movement up (404 when absent,
      whatever the body), then checks `body.soilTypeId` (404 when it names no
      soil type), and only then overwrites every field of the first movement
      with that id except the id itself. */
  function UpdateSoilMovement(db: Db, id: int, body: MovementBody): (o: Outcome)
    ensures !HasKey(db.soilMovements, MovementKey, id) ==>
      o == Outcome(db, NotFound(SoilMovementNotFound))
    ensures HasKey(db.soilMovements, MovementKey, id) && !SoilTypeExists(db, body.soilTypeId) ==>
      o == Outcome(db, NotFound(SoilTypeDoesNotExist))
    ensures o.reply.MovementRecord? <==>
      HasKey(db.soilMovements, MovementKey, id) && SoilTypeExists(db, body.soilTypeId)
    ensures o.reply.MovementRecord? ==>
      var i := FindIndex(db.soilMovements, MovementKey, id).value;
      o.reply.movement == Movement(id, body) &&
      SoilTypeExists(db, o.reply.movement.soilTypeId) &&
      |o.next.soilMovements| == |db.soilMovements| &&
      db.soilMovements[i].id == id && o.next.soilMovements[i] == o.reply.movement &&
      (forall j :: 0 <= j < i ==> db.soilMovements[j].id != id) &&
      (forall j :: 0 <= j < |db.soilMovements| && j != i ==> o.next.soilMovements[j] == db.soilMovements[j])
    ensures o.next.soilTypes == db.soilTypes
  {
    match FindIndex(db.soilMovements, MovementKey, id)
    case None => Outcome(db, NotFound(SoilMovementNotFound))
    case Some(i) =>
      if !SoilTypeExists(db, body.soilTypeId) then
        Outcome(db, NotFound(SoilTypeDoesNotExist))
      else
        var updated := Movement(db.soilMovements[i].id, body);
        Outcome(db.(soilMovements := db.soilMovements[i := updated]), MovementRecord(updated))
  }

  /** DELETE /soil_movements/:id: drops every movement with that id. */
  function DeleteSoilMovement(db: Db, id: int): (o: Outcome)
    ensures o.reply == NoContent
    ensures !HasKey(o.next.soilMovements, MovementKey, id)
    ensures forall m :: m in o.next.soilMovements <==> m in db.soilMovements && m.id != id
    ensures o.next.soilTypes == db.soilTypes
  {
    WithoutMembers(db.soilMovements, MovementKey, id);
    Outcome(db.(soilMovements := Without(db.soilMovements, MovementKey, id)), NoContent)
  }

  /** A request to one of the write routes, with its path id and body. */
  datatype Request =
    | PostSoilType(name: string, description: string)
    | PutSoilType(id: int, name: string, description: string)
    | DeleteSoilTypeRequest(id: int)
    | PostSoilMovement(body: MovementBody)
    | PutSoilMovement(id: int, body: MovementBody)
    | DeleteSoilMovementRequest(id: int)
  {
    predicate IsDelete() { DeleteSoilTypeRequest? || DeleteSoilMovementRequest? }
  }

  /** Dispatches one request to its route. */
  function Handle(db: Db, req: Request): Outcome
  {
    match req
    case PostSoilType(name, description) => CreateSoilType(db, name, description)
    case PutSoilType(id, name, description) => UpdateSoilType(db, id, name, description)
    case DeleteSoilTypeRequest(id) => DeleteSoilType(db, id)
    case PostSoilMovement(body) => CreateSoilMovement(db, body)
    case PutSoilMovement(id, body) => UpdateSoilMovement(db, id, body)
    case DeleteSoilMovementRequest(id) => DeleteSoilMovement(db, id)
  }

  /** The collections after serving `reqs` one after the other. */
  function Run(db: Db, reqs: seq<Request>): Db
    decreases |reqs|
  {
    if reqs == [] then db else Run(Handle(db, reqs[0]).next, reqs[1..])
  }

  /** Each collection's ids are 1, 2, ..., its length, in order. */
  predicate IdsFollowLength(db: Db)
  {
    IdsFromOne(db.soilTypes, TypeKey) && IdsFromOne(db.soilMovements, MovementKey)
  }

  /** Creates and updates keep the ids equal to the positions plus one:
      a create uses length + 1 and an update keeps the id it found. */
  lemma HandleKeepsIdsFollowLength(db: Db, req: Request)
    requires IdsFollowLength(db) && !req.IsDelete()
    ensures IdsFollowLength(Handle(db, req).next)
  {
  }

  /** The invariant over any run of requests without a delete. */
  lemma {:induction false} RunKeepsIdsFollowLength(db: Db, reqs: seq<Request>)
    requires IdsFollowLength(db)
    requires forall k :: 0 <= k < |reqs| ==> !reqs[k].IsDelete()
    ensures IdsFollowLength(Run(db, reqs))
    decreases |reqs|
  {
    if reqs != [] {
      HandleKeepsIdsFollowLength(db, reqs[0]);
      RunKeepsIdsFollowLength(Handle(db, reqs[0]).next, reqs[1..]);
    }
  }

  /** When ids follow the length they are unique in each collection, and the
      next create of either kind gets an id no record has. */
  lemma IdsFollowLengthUnique(db: Db)
    requires IdsFollowLength(db)
    ensures forall i, j :: 0 <= i < j < |db.soilTypes| ==> db.soilTypes[i].id != db.soilTypes[j].id
    ensures forall i, j :: 0 <= i < j < |db.soilMovements| ==> db.soilMovements[i].id != db.soilMovements[j].id
    ensures !SoilTypeExists(db, |db.soilTypes| + 1)
    ensures !HasKey(db.soilMovements, MovementKey, |db.soilMovements| + 1)
  {
    IdsFromOneLocate(db.soilTypes, TypeKey, |db.soilTypes| + 1);
    IdsFromOneLocate(db.soilMovements, MovementKey, |db.soilMovements| + 1);
  }

  /** From the seed data, without deletes, ids stay unique in each collection
      and the next create of either kind gets an id no record has. */
  lemma NoDeleteRunFromSeedKeepsIdsUnique(reqs: seq<Request>)
    requires forall k :: 0 <= k < |reqs| ==> !reqs[k].IsDelete()
    ensures var db := Run(Seed(), reqs);
      (forall i, j :: 0 <= i < j < |db.soilTypes| ==> db.soilTypes[i].id != db.soilTypes[j].id) &&
      (forall i, j :: 0 <= i < j < |db.soilMovements| ==> db.soilMovements[i].id != db.soilMovements[j].id) &&
      !SoilTypeExists(db, |db.soilTypes| + 1) &&
      !HasKey(db.soilMovements, MovementKey, |db.soilMovements| + 1)
  {
    RunKeepsIdsFollowLength(Seed(), reqs);
    IdsFollowLengthUnique(Run(Seed(), reqs));
  }

  /** Deleting a soil type twice is the same as deleting it once. */
  lemma DeleteSoilTypeIdempotent(db: Db, id: int)
    ensures var once := DeleteSoilType(db, id);
      DeleteSoilType(once.next, id) == once
  {
    WithoutIdempotent(db.soilTypes, TypeKey, id);
  }

  /** Deleting an id no soil type has changes nothing. */
  lemma DeleteAbsentSoilTypeIsNoOp(db: Db, id: int)
    requires !SoilTypeExists(db, id)
    ensures DeleteSoilType(db, id) == Outcome(db, NoContent)
  {
    WithoutAbsent(db.soilTypes, TypeKey, id);
  }

  /** Deleting a movement twice is the same as deleting it once. */
  lemma DeleteSoilMovementIdempotent(db: Db, id: int)
    ensures var once := DeleteSoilMovement(db, id);
      DeleteSoilMovement(once.next, id) == once
  {
    WithoutIdempotent(db.soilMovements, MovementKey, id);
  }

  /** Deleting an id no movement has changes nothing. */
  lemma DeleteAbsentSoilMovementIsNoOp(db: Db, id: int)
    requires !HasKey(db.soilMovements, MovementKey, id)
    ensures DeleteSoilMovement(db, id) == Outcome(db, NoContent)
  {
    WithoutAbsent(db.soilMovements, MovementKey, id);
  }

  /** The first movement created after start-up gets id 4 when its soil type
      is one of the six seeded ones, and is refused otherwise. */
  lemma FirstMovementFromSeed(body: MovementBody)
    ensures 1 <= body.soilTypeId <= 6 ==>
      CreateSoilMovement(Seed(), body).reply == MovementRecord(Movement(4, body))
    ensures !(1 <= body.soilTypeId <= 6) ==>
      CreateSoilMovement(Seed(), body) == Outcome(Seed(), NotFound(SoilTypeDoesNotExist))
  {
    IdsFromOneLocate(SeedSoilTypes(), TypeKey, body.soilTypeId);
  }

  /** Deleting a soil type does not cascade: a movement that refers to it keeps
      its soilTypeId, which then names no soil type. */
  lemma DeleteSoilTypeLeavesDanglingReference()
    ensures var after := DeleteSoilType(Seed(), 2).next;
      after.soilMovements[1].soilTypeId == 2 && !SoilTypeExists(after, 2)
  {
  }

  /** Ids are the length plus one, so after a delete a create can hand out an
      id that another record still has: deleting soil type 1 and creating one
      gives a second record with id 6. */
  lemma CreateAfterDeleteDuplicatesId(name: string, description: string)
    ensures var after := CreateSoilType(DeleteSoilType(Seed(), 1).next, name, description).next;
      |after.soilTypes| == 6 && after.soilTypes[4].id == 6 && after.soilTypes[5].id == 6
  {
    var seeded := SeedSoilTypes();
    var tail := seeded[1..];
    assert forall j :: 0 <= j < |tail| ==> tail[j].id == j + 2;
    WithoutAbsent(tail, TypeKey, 1);
    assert Without(seeded, TypeKey, 1) == tail;
  }
}
