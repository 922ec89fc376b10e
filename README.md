# Hotel reservation API: availability and booking model

A Dafny model of the two controllers of HotelReservationAPI, an ASP.NET Core
service for a small hotel:

- `ReservationsController` lists the rooms that are free for a date range,
  makes a booking for the authenticated customer, reads one booking and
  cancels one.
- `RoomController` lists, adds, updates and deletes rooms.

Both controllers work on one Entity Framework context. It holds the `Rooms`
and `Reservations` tables.

Files:

- `models.dfy` (module `Models`): `Room` and `Reservation` as datatypes with
  their keys, foreign keys and dates. Also the booking request body, an
  `Option`, and `ActionResult` (Ok, Created, BadRequest, Unauthorized,
  NotFound, NoContent). A `DateTime` is its tick count.
- `keyed.dfy` (module `Keyed`): lookup by primary key (`FindAsync`), plus
  removal, append and in-place replacement of one row. Each comes with lemmas
  that keys stay unique and that lookups see the change.
- `dates.dfy` (module `Dates`): `TimeSpan.Days` as division truncated toward
  zero, and the booking-window test both reservation endpoints share.
- `context.dfy` (module `Context`): class `HotelDbContext`. Its fields are the
  two tables and the two key generators. `Valid()` says that keys are unique
  and that every key is within its generator.
- `reservations.dfy` (module `Reservations`): the availability filter as
  functions, with lemmas about it. Class `ReservationsController` holds the
  four endpoints.
- `rooms.dfy` (module `Rooms`): class `RoomController` with its four endpoints.
- `scenarios.dfy` (module `Scenarios`): clients that use only the
  controllers' contracts:
  - one room with a booking for June 1–3, queried for an overlapping range
    and for an adjacent range;
  - refused date windows;
  - a second overlapping booking of the same room, which the controller
    accepts;
  - a cancellation that puts the room back on the list;
  - a deleted room's key that is not generated again.

How the model represents the source:

- `DateTime.Now` is the parameter `now`.
- The caller's `NameIdentifier` claim is the parameter `userId: Option<string>`.
- The database's key generation is a counter per table whose keys are never
  reused (as with an AUTOINCREMENT key).
- Dafny's `/` rounds down, but `TimeSpan.Days` truncates toward zero, so
  `Dates.Days` writes the truncation out.

A booking system would be expected to refuse overlapping bookings and ranges
that end before they start. This code does neither, and the model follows the
code:

- Booking makes no conflict check. Two overlapping bookings of one room are
  both stored (`Scenarios.DoubleBookingExample`). No no-double-booking
  invariant is claimed.
- `start < end` is not enforced. A range whose end is before its start passes
  the window test (`Dates.NegativeSpanAccepted`).
- Adding a room validates no field.
- Reading or cancelling a booking has no ownership check.

## Model

| member | source | states |
|---|---|---|
| Keyed.FindIndex | HotelReservationAPI/Controllers/ReservationController.cs:80 | lookup by key: if it finds an index, that row has the key and no earlier row does; it finds None exactly when no row has the key |
| Keyed.FindOwnKey | HotelReservationAPI/Controllers/ReservationController.cs:80-84 | with unique keys, every stored row is found by its own key at its own index |
| Keyed.RemoveAt | HotelReservationAPI/Controllers/RoomController.cs:61 | removing one row keeps every other row, in order, with the length one less |
| Keyed.RemoveAtByKey | HotelReservationAPI/Controllers/ReservationController.cs:96 | removing the row found for a key keeps keys unique; what is left is exactly the rows with another key; a later lookup of that key finds nothing |
| Keyed.AppendFreshKey | HotelReservationAPI/Controllers/ReservationController.cs:70 | appending a row with an unused key keeps keys unique, and a lookup of that key then finds the new row |
| Keyed.AppendOtherKey | HotelReservationAPI/Controllers/ReservationController.cs:70 | appending a row changes no lookup of any other key |
| Keyed.ReplaceSameKey | HotelReservationAPI/Controllers/RoomController.cs:47 | overwriting a row with one of the same key keeps keys unique and changes no lookup |
| Dates.Days | HotelReservationAPI/Controllers/ReservationController.cs:27 | TimeSpan.Days: the whole days in a tick span, truncated toward zero on both sides of zero |
| Dates.DateRangeRejectedIff | HotelReservationAPI/Controllers/ReservationController.cs:27-28 | the window test refuses a range exactly when it starts before now or spans at least 31 full days |
| Dates.ThirtyDaysAndHoursAccepted | HotelReservationAPI/Controllers/ReservationController.cs:27 | a span of 30 days plus part of a day is accepted |
| Dates.NegativeSpanAccepted | HotelReservationAPI/Controllers/ReservationController.cs:64-67 | an end before the start is not refused by the booking's window test |
| Reservations.FreeRooms | HotelReservationAPI/Controllers/ReservationController.cs:30-35 | the filtered rooms are exactly the rooms whose id is not booked, and they are a sub-multiset of the rooms |
| Reservations.AvailableRoomsIff | HotelReservationAPI/Controllers/ReservationController.cs:30-37 | a room is offered for a range iff it is a stored room and none of its bookings overlaps the range under the half-open test |
| Reservations.AdjacentBookingsDoNotBlock | HotelReservationAPI/Controllers/ReservationController.cs:32 | adding a booking that ends at the range's start or begins at its end changes no room's place on the list for that range |
| Reservations.BookingBlocksRoom | HotelReservationAPI/Controllers/ReservationController.cs:30-35 | after a booking of a room that overlaps a range, that room is not offered for the range |
| Reservations.BookingLeavesOtherRooms | HotelReservationAPI/Controllers/ReservationController.cs:31-34 | a booking for one room does not change whether any other room is offered |
| Reservations.CancelKeepsAvailable | HotelReservationAPI/Controllers/ReservationController.cs:96 | cancelling a booking never takes a room off the list for any range |
| Reservations.CancelFreesRoom | HotelReservationAPI/Controllers/ReservationController.cs:92-98 | cancelling the only booking of a room that overlaps a range puts the room back on the list for that range |
| Reservations.ReservationsController.GetAvailableRooms | HotelReservationAPI/Controllers/ReservationController.cs:25-38 | BadRequest exactly when the window test refuses the range; otherwise Ok with exactly the stored rooms that have no overlapping booking, as a sub-collection of the rooms; nothing changes |
| Reservations.ReservationsController.MakeReservation | HotelReservationAPI/Controllers/ReservationController.cs:43-74 | no user gives Unauthorized, a refused window gives BadRequest, and both leave the state unchanged; otherwise Created with the request's room and dates, the caller's id and a key no stored booking has; the new booking is appended, every other booking and every room is unchanged, and keys stay unique; the booked room must be stored, as the RoomId foreign key demands when saving (:71) |
| Reservations.ReservationsController.GetReservation | HotelReservationAPI/Controllers/ReservationController.cs:78-85 | Ok with a stored booking that has the id, or NotFound exactly when no booking has it; nothing changes |
| Reservations.ReservationsController.CancelReservation | HotelReservationAPI/Controllers/ReservationController.cs:90-99 | NotFound exactly when no booking has the id, with nothing changed; otherwise NoContent, that booking removed and every other kept, the id no longer found, rooms unchanged |
| Rooms.InsertedRoomId | HotelReservationAPI/Controllers/RoomController.cs:34-35 | an inserted room keeps an explicit Id; a zero Id gets a key above every key handed out so far |
| Rooms.RoomController.GetRooms | HotelReservationAPI/Controllers/RoomController.cs:24-27 | Ok with the whole room collection; nothing changes |
| Rooms.RoomController.AddRoom | HotelReservationAPI/Controllers/RoomController.cs:32-37 | Created with the given room under a key no stored room has, appended to the rooms with every other room and all bookings unchanged; the room key generator only grows, so a deleted room's key is never generated again; no field is validated |
| Rooms.RoomController.UpdateRoom | HotelReservationAPI/Controllers/RoomController.cs:42-50 | a path id that differs from the body's Id gives BadRequest with nothing changed; otherwise NoContent, the stored room with that key is replaced by the body and every other room and all bookings are unchanged |
| Rooms.RoomController.DeleteRoom | HotelReservationAPI/Controllers/RoomController.cs:55-64 | NotFound exactly when no room has the id, with nothing changed; otherwise NoContent, that room removed, every other room kept, and the id no longer found; no reservation is added and every reservation of another room is kept |

## Left out

- Authentication and authorization: JWT validation, the role attributes
  (`[Authorize(Roles = ...)]`, `[AllowAnonymous]`) and user seeding are
  framework configuration in Program.cs, which is not part of this model.
  Only the explicit missing-user check of booking is modelled.
- `async`/`await` and concurrent requests. The controllers take no locks and
  open no transactions, and booking has no conflict check for a race to break.
- Entity Framework change tracking, model binding and its automatic 400 for
  malformed bodies, the `decimal(18,2)` column, and the navigation properties
  `Reservation.Room` and `Reservation.User`.
- `DateTime.Kind` and time zones. Dates compare by ticks, as `DateTime`'s
  operators do.
- Price arithmetic. Price is an integer number of cents, and nothing computes
  with it.
- LoginModel.cs, RegisterModel.cs and ReservationResponseDto.cs. They hold no
  logic that these controllers use.
- Reservations.ReservationsController.MakeReservation: requires, on the
  path that saves, that the requested room is stored, because saving a
  booking for a missing room breaks the RoomId foreign key and throws in the
  database layer; the request then ends in a 500 and nothing is stored. It
  also assumes, without stating it, that the caller's `NameIdentifier` claim
  is the key of a stored user: `Reservation.UserId` is a foreign key to the
  Identity users table, and a claim naming no stored user fails the same way.
  The users table is not part of this model, so the contract promises
  Created for any caller id.
- Rooms.RoomController.UpdateRoom: requires that a room with the matching
  id is stored, because saving an update to a missing row throws in the
  database layer; the request then ends in a 500 and nothing is stored.
- Rooms.RoomController.AddRoom: requires that an explicit non-zero Id is not
  already in use, because the database refuses a duplicate key. Keys are
  unbounded integers, not C#'s 32-bit `int`, so the contract also promises
  Created for a generated key above 2147483647 (after an explicit Id of
  2147483647), which the source cannot read back into a `Room`; generation
  past `int.MaxValue` is not modelled.
- Rooms.RoomController.DeleteRoom: assumes the delete is never refused,
  since Entity Framework's convention for the required `Reservation.RoomId`
  is a cascading delete and no shown code changes it; it says nothing about
  whether the deleted room's own bookings are removed, because the cascade
  itself is carried out by the database schema, which is not part of this
  model.
- Key generation: the database's key generator is modelled as a counter that
  only grows and takes in explicit keys above it, as an AUTOINCREMENT key
  does; its storage in the database is not modelled. Keys, foreign keys and
  route ids are unbounded integers rather than 32-bit `int`.
- Rooms.RoomController.GetRooms: lists the rooms in insertion order. The
  source's `ToListAsync()` has no `OrderBy` and so promises no order; SQLite
  returns a table scan in key order, which differs from insertion order once
  a room is added with an explicit Id smaller than an existing key. Table
  order is modelled as insertion order throughout.
