/** Clients of both controllers that rely only on the controllers' contracts.
    Dates are day numbers since 0001-01-01 converted to ticks. */
module Scenarios {
  import opened Models
  import opened Dates
  import opened Context
  import opened Reservations
  import opened Rooms

  function Day(n: nat): DateTime
    requires n <= 3_000_000
  {
    n * TICKS_PER_DAY
  }

  /** A collection that holds `room` and nothing else besides copies of it is [room]. */
  lemma OnlyRoom(s: seq<Room>, room: Room)
    requires room in s && multiset(s) <= multiset([room])
    ensures s == [room]
  {
    var rest := s[1..];
    assert s == [s[0]] + rest;
    assert s[0] == room by { assert s[0] in multiset(s); }
    assert multiset(s) == multiset{room} + multiset(rest);
    assert multiset(rest) == multiset{};
  }

  /** Availability before and after one booking, around the booked range. */
  method BookingExample()
  {
    var now := Day(739371);                        // 2025-05-01
    var jun1, jun2, jun3, jun4, jun5 := Day(739402), Day(739403), Day(739404), Day(739405), Day(739406);
    var context := new HotelDbContext();
    var roomController := new RoomController(context);
    var reservationsController := new ReservationsController(context);

    var added := roomController.AddRoom(Room(0, "101", "Double", 8000));
    var room := added.value;

    // Room 101 with no reservations is offered for June 1 to 3.
    var a1 := reservationsController.GetAvailableRooms(now, jun1, jun3);
    OnlyRoom(a1.value, room);

    var made := reservationsController.MakeReservation(Some("U1"), ReservationRequest(room.id, jun1, jun3), now);
    assert made.Created?;

    // June 2 to 4 overlaps the booking on day 2: nothing is offered.
    var a2 := reservationsController.GetAvailableRooms(now, jun2, jun4);
    assert made.value in context.reservations;
    assert a2 == Ok([]);

    // June 3 to 5 only touches it: the room is offered.
    var a3 := reservationsController.GetAvailableRooms(now, jun3, jun5);
    OnlyRoom(a3.value, room);
  }

  /** Ranges that start in the past or last 31 days are refused, whoever asks. */
  method WindowExample()
  {
    var now := Day(739371);
    var context := new HotelDbContext();
    var reservationsController := new ReservationsController(context);
    var past := reservationsController.GetAvailableRooms(now, Day(739370), Day(739372));
    assert past == BadRequest;
    var long := reservationsController.MakeReservation(Some("U1"), ReservationRequest(1, Day(739402), Day(739433)), now);
    assert long == BadRequest && context.reservations == [];
    var anonymous := reservationsController.MakeReservation(None, ReservationRequest(1, Day(739402), Day(739403)), now);
    assert anonymous == Unauthorized && context.reservations == [];
  }

  /** The controller makes no conflict check: a second, overlapping booking of
      the same room is stored too. */
  method DoubleBookingExample()
  {
    var now := Day(739371);
    var context := new HotelDbContext();
    var roomController := new RoomController(context);
    var reservationsController := new ReservationsController(context);
    var added := roomController.AddRoom(Room(101, "101", "Double", 8000));
    assert added.value in context.rooms;
    var first := reservationsController.MakeReservation(Some("U1"), ReservationRequest(101, Day(739402), Day(739404)), now);
    assert added.value in context.rooms;
    var second := reservationsController.MakeReservation(Some("U2"), ReservationRequest(101, Day(739403), Day(739405)), now);
    assert first.Created? && second.Created?;
    assert context.reservations == [first.value, second.value];
    assert first.value.roomId == second.value.roomId;
    assert Overlaps(second.value, first.value.startDate, first.value.endDate);
  }

  /** Cancelling the one booking of a room puts it back on the list and makes
      the booking unreadable. */
  method CancelExample()
  {
    var now := Day(739371);
    var jun1, jun3 := Day(739402), Day(739404);
    var context := new HotelDbContext();
    var roomController := new RoomController(context);
    var reservationsController := new ReservationsController(context);
    var added := roomController.AddRoom(Room(0, "101", "Double", 8000));
    var room := added.value;
    var made := reservationsController.MakeReservation(Some("U1"), ReservationRequest(room.id, jun1, jun3), now);
    var booking := made.value;
    var cancelled := reservationsController.CancelReservation(booking.id);
    assert cancelled == NoContent && context.reservations == [];
    var gone := reservationsController.GetReservation(booking.id);
    assert gone == NotFound;
    var free := reservationsController.GetAvailableRooms(now, jun1, jun3);
    OnlyRoom(free.value, room);
  }

  /** A deleted room's key is not handed out again, even after an insert with
      an explicit, smaller Id. */
  method KeyReuseExample()
  {
    var context := new HotelDbContext();
    var roomController := new RoomController(context);
    var first := roomController.AddRoom(Room(0, "101", "Double", 8000));
    assert first.value.id == 1;
    var deleted := roomController.DeleteRoom(1);
    assert deleted == NoContent;
    var explicit := roomController.AddRoom(Room(-3, "102", "Single", 5000));
    var generated := roomController.AddRoom(Room(0, "103", "Suite", 20000));
    assert generated.value.id != 1;
  }
}
