/** ReservationsController (Controllers/ReservationController.cs): room
    availability for a date range, and making, reading and cancelling bookings. */
module Reservations {
  import opened Models
  import opened Keyed
  import opened Dates
  import opened Context

  /** Half-open overlap of a booking with the queried range [startDate, endDate). */
  predicate Overlaps(res: Reservation, startDate: int, endDate: int)
  {
    res.startDate < endDate && res.endDate > startDate
  }

  /** The room ids of all bookings that overlap the range. */
  function BookedRoomIds(reservations: seq<Reservation>, startDate: int, endDate: int): set<int>
  {
    set res | res in reservations && Overlaps(res, startDate, endDate) :: res.roomId
  }

  /** The rooms whose id is not booked, in their original order. */
  function FreeRooms(rooms: seq<Room>, booked: set<int>): (free: seq<Room>)
    ensures forall room :: room in free <==> room in rooms && room.id !in booked
    ensures multiset(free) <= multiset(rooms)
  {
    if rooms == [] then []
    else
      assert rooms == [rooms[0]] + rooms[1..];
      (if rooms[0].id in booked then [] else [rooms[0]]) + FreeRooms(rooms[1..], booked)
  }

  /** The result of the availability query on a valid range. */
  function AvailableRooms(rooms: seq<Room>, reservations: seq<Reservation>, startDate: int, endDate: int): seq<Room>
  {
    FreeRooms(rooms, BookedRoomIds(reservations, startDate, endDate))
  }

  /** No booking of room `roomId` overlaps the range. */
  ghost predicate RoomFree(roomId: int, reservations: seq<Reservation>, startDate: int, endDate: int)
  {
    forall res :: res in reservations && res.roomId == roomId ==> !Overlaps(res, startDate, endDate)
  }

  /** A room is offered exactly when it exists and none of its bookings overlaps. */
  lemma AvailableRoomsIff(rooms: seq<Room>, reservations: seq<Reservation>, startDate: int, endDate: int, room: Room)
    ensures room in AvailableRooms(rooms, reservations, startDate, endDate)
        <==> room in rooms && RoomFree(room.id, reservations, startDate, endDate)
  {
  }

  /** A booking that ends where the range starts, or starts where it ends, does
      not change which rooms are offered for the range. */
  lemma AdjacentBookingsDoNotBlock(rooms: seq<Room>, reservations: seq<Reservation>, res: Reservation, startDate: int, endDate: int, room: Room)
    requires res.endDate == startDate || res.startDate == endDate
    ensures room in AvailableRooms(rooms, reservations + [res], startDate, endDate)
        <==> room in AvailableRooms(rooms, reservations, startDate, endDate)
  {
  }

  /** After a booking for a room that overlaps the range, that room is no
      longer offered for the range. */
  lemma BookingBlocksRoom(rooms: seq<Room>, reservations: seq<Reservation>, res: Reservation, room: Room, startDate: int, endDate: int)
    requires res.roomId == room.id && Overlaps(res, startDate, endDate)
    ensures room !in AvailableRooms(rooms, reservations + [res], startDate, endDate)
  {
  }

  /** A booking for one room leaves every other room's availability as it was. */
  lemma BookingLeavesOtherRooms(rooms: seq<Room>, reservations: seq<Reservation>, res: Reservation, room: Room, startDate: int, endDate: int)
    requires res.roomId != room.id
    ensures room in AvailableRooms(rooms, reservations + [res], startDate, endDate)
        <==> room in AvailableRooms(rooms, reservations, startDate, endDate)
  {
  }

  /** Cancelling a booking never takes a room off the list. */
  lemma CancelKeepsAvailable(rooms: seq<Room>, reservations: seq<Reservation>, i: nat, room: Room, startDate: int, endDate: int)
    requires i < |reservations|
    requires room in AvailableRooms(rooms, reservations, startDate, endDate)
    ensures room in AvailableRooms(rooms, RemoveAt(reservations, i), startDate, endDate)
  {
  }

  /** Cancelling the only booking of a room that overlaps the range puts the
      room back on the list for that range. */
  lemma CancelFreesRoom(rooms: seq<Room>, reservations: seq<Reservation>, i: nat, room: Room, startDate: int, endDate: int)
    requires KeysUnique(reservations, ReservationId) && i < |reservations|
    requires room in rooms
    requires forall res :: res in reservations && res.roomId == room.id && Overlaps(res, startDate, endDate) ==>
               res == reservations[i]
    ensures room in AvailableRooms(rooms, RemoveAt(reservations, i), startDate, endDate)
  {
  }

  class ReservationsController {
    const context: HotelDbContext

    constructor (context: HotelDbContext)
      ensures this.context == context
    {
      this.context := context;
    }

    /** GET api/reservations/available. `now` stands for DateTime.Now. */
    method GetAvailableRooms(now: DateTime, startDate: DateTime, endDate: DateTime) returns (r: ActionResult<seq<Room>>)
      ensures r.BadRequest? <==> DateRangeRejected(now, startDate, endDate)
      ensures r.Ok? || r.BadRequest?
      ensures r.Ok? ==> forall room :: room in r.value <==>
                room in context.rooms && RoomFree(room.id, context.reservations, startDate, endDate)
      ensures r.Ok? ==> multiset(r.value) <= multiset(context.rooms)
    {
      if startDate < now || Days(endDate - startDate) > 30 {
        return BadRequest;
      }
      var available := AvailableRooms(context.rooms, context.reservations, startDate, endDate);
      forall room ensures room in available <==>
          room in context.rooms && RoomFree(room.id, context.reservations, startDate, endDate) {
        AvailableRoomsIff(context.rooms, context.reservations, startDate, endDate, room);
      }
      return Ok(available);
    }

    /** POST api/reservations. `userId` is the caller's NameIdentifier claim,
        `now` stands for DateTime.Now. No conflict, room or start < end check
        is made. Saving a booking whose room is not stored breaks the foreign
        key on RoomId and throws in the database layer, so callers book stored
        rooms. */
    method MakeReservation(userId: Option<string>, request: ReservationRequest, now: DateTime)
      returns (r: ActionResult<Reservation>)
      requires context.Valid()
      requires userId.Some? && !DateRangeRejected(now, request.startDate, request.endDate) ==>
                 exists x :: x in context.rooms && x.id == request.roomId
      modifies context
      ensures context.Valid()
      ensures userId.None? ==> r == Unauthorized && unchanged(context)
      ensures userId.Some? && DateRangeRejected(now, request.startDate, request.endDate) ==>
                r == BadRequest && unchanged(context)
      ensures userId.Some? && !DateRangeRejected(now, request.startDate, request.endDate) ==>
                && r.Created?
                && r.value == Reservation(context.lastReservationId, request.roomId, userId.value,
                                          request.startDate, request.endDate)
                && r.value.id == old(context.lastReservationId) + 1
                && (forall res :: res in old(context.reservations) ==> res.id != r.value.id)
                && context.reservations == old(context.reservations) + [r.value]
                && context.rooms == old(context.rooms)
                && context.lastRoomId == old(context.lastRoomId)
    {
      if userId.None? {
        return Unauthorized;
      }
      var reservation := Reservation(0, request.roomId, userId.value, request.startDate, request.endDate);
      if reservation.startDate < now || Days(reservation.endDate - reservation.startDate) > 30 {
        return BadRequest;
      }
      var id := context.lastReservationId + 1;
      reservation := reservation.(id := id);
      AppendFreshKey(context.reservations, ReservationId, reservation);
      context.reservations := context.reservations + [reservation];
      context.lastReservationId := id;
      return Created(reservation);
    }

    /** GET api/reservations/{id}. */
    method GetReservation(id: int) returns (r: ActionResult<Reservation>)
      ensures r.Ok? || r.NotFound?
      ensures r.NotFound? <==> forall res :: res in context.reservations ==> res.id != id
      ensures r.Ok? ==> r.value in context.reservations && r.value.id == id
    {
      var found := FindIndex(context.reservations, ReservationId, id);
      if found.None? {
        return NotFound;
      }
      return Ok(context.reservations[found.value]);
    }

    /** DELETE api/reservations/{id}. */
    method CancelReservation(id: int) returns (r: ActionResult<()>)
      requires context.Valid()
      modifies context
      ensures context.Valid()
      ensures r == NotFound || r == NoContent
      ensures r == NotFound <==> forall res :: res in old(context.reservations) ==> res.id != id
      ensures r == NotFound ==> unchanged(context)
      ensures r == NoContent ==>
                && context.reservations == RemoveAt(old(context.reservations),
                                                    FindIndex(old(context.reservations), ReservationId, id).value)
                && (forall res :: res in context.reservations <==> res in old(context.reservations) && res.id != id)
                && FindIndex(context.reservations, ReservationId, id).None?
                && context.rooms == old(context.rooms)
                && context.lastRoomId == old(context.lastRoomId)
                && context.lastReservationId == old(context.lastReservationId)
    {
      var found := FindIndex(context.reservations, ReservationId, id);
      if found.None? {
        return NotFound;
      }
      RemoveAtByKey(context.reservations, ReservationId, found.value);
      context.reservations := RemoveAt(context.reservations, found.value);
      return NoContent;
    }
  }
}
