/** The entities of the hotel API (Models/Room.cs, Models/Reservation.cs), the
    request body of a booking, and the shapes of the controllers' answers. */
module Models {

  /** A .NET DateTime is its tick count (100 ns since 0001-01-01). */
  const MAX_TICKS: int := 3155378975999999999
  type DateTime = t: int | 0 <= t <= MAX_TICKS

  /** Price is stored as decimal(18,2); it is kept as whole cents and never computed on. */
  datatype Room = Room(id: int, number: string, roomType: string, price: int)

  /** Navigation properties (Room, User) are dropped; the foreign keys stay. */
  datatype Reservation = Reservation(
    id: int,
    roomId: int,
    userId: string,
    startDate: DateTime,
    endDate: DateTime)

  /** Body of POST api/reservations: the fields the controller reads from it. */
  datatype ReservationRequest = ReservationRequest(roomId: int, startDate: DateTime, endDate: DateTime)

  datatype Option<T> = None | Some(value: T)

  /** The ASP.NET results the controllers produce. */
  datatype ActionResult<T> =
    | Ok(value: T)
    | Created(value: T)
    | BadRequest
    | Unauthorized
    | NotFound
    | NoContent

  /** Primary keys, as function values for the keyed lookups. */
  function RoomId(r: Room): int { r.id }
  function ReservationId(r: Reservation): int { r.id }
}
