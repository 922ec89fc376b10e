/** The persistence substrate both controllers share (Context/HotelDBContext.cs):
    the Rooms and Reservations tables and the database's key generators. */
module Context {
  import opened Models
  import opened Keyed

  class HotelDbContext {
    var rooms: seq<Room>
    var reservations: seq<Reservation>
    /** Largest key handed out so far in each table; generated keys are never
        reused, as with an AUTOINCREMENT primary key. */
    var lastRoomId: int
    var lastReservationId: int

    /** Primary keys are unique and no larger than the table's generator. */
    ghost predicate Valid()
      reads this
    {
      && KeysUnique(rooms, RoomId)
      && KeysUnique(reservations, ReservationId)
      && lastRoomId >= 0 && lastReservationId >= 0
      && (forall r :: r in rooms ==> r.id <= lastRoomId)
      && (forall r :: r in reservations ==> r.id <= lastReservationId)
    }

    constructor ()
      ensures Valid()
      ensures rooms == [] && reservations == []
      ensures lastRoomId == 0 && lastReservationId == 0
    {
      rooms, reservations := [], [];
      lastRoomId, lastReservationId := 0, 0;
    }
  }
}
