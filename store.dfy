/** The soil tracker's in-memory store: the two module-level arrays of the
    service become the two fields of one object, and each route handler
    becomes a method that updates them in place and returns the reply. */
module SoilStore {
  import opened Records
  import opened Lookup
  import SoilDb

  class Store {
    var soilTypes: seq<SoilType>
    var soilMovements: seq<SoilMovement>

    /** The collections as a value, for stating what a method did. */
    function State(): SoilDb.Db
      reads this
    {
      SoilDb.Db(soilTypes, soilMovements)
    }

    /** A fresh process: the seeded collections. */
    constructor ()
      ensures State() == SoilDb.Seed()
      ensures SoilDb.IdsFollowLength(State())
    {
      soilTypes := SoilDb.SeedSoilTypes();
      soilMovements := SoilDb.SeedSoilMovements();
    }

    /** GET /soil_types: every soil type, in order. */
    method ListSoilTypes() returns (all: seq<SoilType>)
      ensures all == soilTypes
    {
      all := soilTypes;
    }

    /** POST /soil_types. */
    method CreateSoilType(name: string, description: string) returns (reply: Reply)
      modifies this
      ensures SoilDb.Outcome(State(), reply) == SoilDb.CreateSoilType(old(State()), name, description)
      ensures soilTypes == old(soilTypes) + [SoilType(|old(soilTypes)| + 1, name, description)]
      ensures soilMovements == old(soilMovements)
    {
      var created := SoilType(|soilTypes| + 1, name, description);
      soilTypes := soilTypes + [created];
      reply := TypeRecord(created);
    }

    /** PUT /soil_types/:id. */
    method UpdateSoilType(id: int, name: string, description: string) returns (reply: Reply)
      modifies this
      ensures SoilDb.Outcome(State(), reply) == SoilDb.UpdateSoilType(old(State()), id, name, description)
      ensures reply.NotFound? ==> soilTypes == old(soilTypes)
      ensures soilMovements == old(soilMovements)
    {
      var found := FindIndex(soilTypes, TypeKey, id);
      if found.None? {
        return NotFound(SoilTypeNotFound);
      }
      var i := found.value;
      var updated := soilTypes[i].(name := name, description := description);
      soilTypes := soilTypes[i := updated];
      reply := TypeRecord(updated);
    }

    /** DELETE /soil_types/:id. The movements are not touched. */
    method DeleteSoilType(id: int) returns (reply: Reply)
      modifies this
      ensures SoilDb.Outcome(State(), reply) == SoilDb.DeleteSoilType(old(State()), id)
      ensures soilTypes == Without(old(soilTypes), TypeKey, id)
      ensures soilMovements == old(soilMovements)
    {
      soilTypes := Without(soilTypes, TypeKey, id);
      reply := NoContent;
    }

    /** GET /soil_movements: every movement, in order. */
    method ListSoilMovements() returns (all: seq<SoilMovement>)
      ensures all == soilMovements
    {
      all := soilMovements;
    }

    /** POST /soil_movements. */
    method CreateSoilMovement(body: MovementBody) returns (reply: Reply)
      modifies this
      ensures SoilDb.Outcome(State(), reply) == SoilDb.CreateSoilMovement(old(State()), body)
      ensures reply.NotFound? ==> soilMovements == old(soilMovements)
      ensures soilTypes == old(soilTypes)
    {
      if !HasKey(soilTypes, TypeKey, body.soilTypeId) {
        return NotFound(SoilTypeDoesNotExist);
      }
      var created := Movement(|soilMovements| + 1, body);
      soilMovements := soilMovements + [created];
      reply := MovementRecord(created);
    }

    /** PUT /soil_movements/:id. */
    method UpdateSoilMovement(id: int, body: MovementBody) returns (reply: Reply)
      modifies this
      ensures SoilDb.Outcome(State(), reply) == SoilDb.UpdateSoilMovement(old(State()), id, body)
      ensures reply.NotFound? ==> soilMovements == old(soilMovements)
      ensures soilTypes == old(soilTypes)
    {
      var found := FindIndex(soilMovements, MovementKey, id);
      if found.None? {
        return NotFound(SoilMovementNotFound);
      }
      if !HasKey(soilTypes, TypeKey, body.soilTypeId) {
        return NotFound(SoilTypeDoesNotExist);
      }
      var i := found.value;
      var updated := Movement(soilMovements[i].id, body);
      soilMovements := soilMovements[i := updated];
      reply := MovementRecord(updated);
    }

    /** DELETE /soil_movements/:id. */
    method DeleteSoilMovement(id: int) returns (reply: Reply)
      modifies this
      ensures SoilDb.Outcome(State(), reply) == SoilDb.DeleteSoilMovement(old(State()), id)
      ensures soilMovements == Without(old(soilMovements), MovementKey, id)
      ensures soilTypes == old(soilTypes)
    {
      soilMovements := Without(soilMovements, MovementKey, id);
      reply := NoContent;
    }
  }

  /** A caller's view of a fresh store: what the method contracts alone let it
      conclude about the first requests after start-up. */
  method SeedScenario(body: MovementBody) returns (first: Reply, refused: Reply, count: nat)
    requires 1 <= body.soilTypeId <= 6
    ensures first == MovementRecord(Movement(4, body))
    ensures refused == NotFound(SoilTypeDoesNotExist)
    ensures count == 4
  {
    var store := new Store();
    first := store.CreateSoilMovement(body);
    SoilDb.FirstMovementFromSeed(body);
    refused := store.CreateSoilMovement(body.(soilTypeId := 99));
    SoilDb.FirstMovementFromSeed(body.(soilTypeId := 99));
    count := |store.soilMovements|;
  }
}
