/** The two record kinds held by the soil tracker, the request bodies the
    routes accept, and the replies they send back. */
module Records {

  /** A named category of soil. */
  datatype SoilType = SoilType(id: int, name: string, description: string)

  /** A logged transfer of soil. `typeName` is the record's `type` field (a
      Dafny keyword): a free label, never checked against the name of the soil
      type that `soilTypeId` refers to. `quantity` and `date` are free text. */
  datatype SoilMovement = SoilMovement(
    id: int,
    typeName: string,
    soilTypeId: int,
    quantity: string,
    sourceLocation: string,
    destinationLocation: string,
    date: string)

  /** The body of a create or update request for a soil movement: every field
      of the record except its id. The create route stores `soilTypeId` as it
      arrives and the update route stores it after parsing it to an integer;
      with the id taken as an `int` both store the same value. */
  datatype MovementBody = MovementBody(
    typeName: string,
    soilTypeId: int,
    quantity: string,
    sourceLocation: string,
    destinationLocation: string,
    date: string)

  /** The movement record with the given id and every other field from `body`. */
  function Movement(id: int, body: MovementBody): (m: SoilMovement)
    ensures m.id == id && BodyOf(m) == body
  {
    SoilMovement(id, body.typeName, body.soilTypeId, body.quantity,
                 body.sourceLocation, body.destinationLocation, body.date)
  }

  /** The fields of `m` that an update overwrites: all of them but the id. */
  function BodyOf(m: SoilMovement): MovementBody
  {
    MovementBody(m.typeName, m.soilTypeId, m.quantity,
                 m.sourceLocation, m.destinationLocation, m.date)
  }

  /** The key the routes look records up by. */
  function TypeKey(t: SoilType): int { t.id }
  function MovementKey(m: SoilMovement): int { m.id }

  /** Why a route answered 404; each carries its own message in the source. */
  datatype Error =
    | SoilTypeNotFound      // update of a soil type whose id is absent
    | SoilMovementNotFound  // update of a movement whose id is absent
    | SoilTypeDoesNotExist  // a movement's soilTypeId names no soil type

  /** What a route sends back, without the HTTP status code and serialisation. */
  datatype Reply =
    | TypeRecord(soilType: SoilType)         // 201 on create, 200 on update
    | MovementRecord(movement: SoilMovement) // 201 on create, 200 on update
    | NoContent                              // 204 on delete
    | NotFound(error: Error)                 // 404
}
