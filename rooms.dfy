/** RoomController (Controllers/RoomController.cs): the room inventory. */
module Rooms {
  import opened Models
  import opened Keyed
  import opened Context

  /** The key the database gives an inserted room: a zero Id (the CLR default)
      asks the generator for the next key, any other Id is stored as given. */
  function InsertedRoomId(requested: int, lastRoomId: int): (id: int)
    ensures requested != 0 ==> id == requested
    ensures requested == 0 ==> id > lastRoomId
  {
    if requested == 0 then lastRoomId + 1 else requested
  }

  class RoomController {
    const context: HotelDbContext

    constructor (context: HotelDbContext)
      ensures this.context == context
    {
      this.context := context;
    }

    /** GET api/room: every room, nothing changed. */
    method GetRooms() returns (r: ActionResult<seq<Room>>)
      ensures r.Ok? && r.value == context.rooms
    {
      return Ok(context.rooms);
    }

    /** POST api/room. No field is validated. An explicit Id already in use
        makes the database refuse the insert, so callers do not send one. */
    method AddRoom(room: Room) returns (r: ActionResult<Room>)
      requires context.Valid()
      requires room.id != 0 ==> forall x :: x in context.rooms ==> x.id != room.id
      modifies context
      ensures context.Valid()
      ensures r.Created?
      ensures r.value == room.(id := InsertedRoomId(room.id, old(context.lastRoomId)))
      ensures forall x :: x in old(context.rooms) ==> x.id != r.value.id
      ensures context.rooms == old(context.rooms) + [r.value]
      ensures context.lastRoomId ==
                if r.value.id > old(context.lastRoomId) then r.value.id else old(context.lastRoomId)
      ensures context.reservations == old(context.reservations)
      ensures context.lastReservationId == old(context.lastReservationId)
    {
      var id := InsertedRoomId(room.id, context.lastRoomId);
      var inserted := room.(id := id);
      AppendFreshKey(context.rooms, RoomId, inserted);
      context.rooms := context.rooms + [inserted];
      if id > context.lastRoomId {
        context.lastRoomId := id;
      }
      return Created(inserted);
    }

    /** PUT api/room/{id}: the stored row with that key takes the body's
        Number, Type and Price. Saving a key that is not stored throws in the
        database layer, so callers only update stored rooms. */
    method UpdateRoom(id: int, room: Room) returns (r: ActionResult<()>)
      requires context.Valid()
      requires id == room.id ==> exists x :: x in context.rooms && x.id == id
      modifies context
      ensures context.Valid()
      ensures id != room.id ==> r == BadRequest && unchanged(context)
      ensures id == room.id ==>
                var i := FindIndex(old(context.rooms), RoomId, id).value;
                && r == NoContent
                && i < |old(context.rooms)| && old(context.rooms)[i].id == id
                && context.rooms == old(context.rooms)[i := room]
                && context.reservations == old(context.reservations)
                && context.lastRoomId == old(context.lastRoomId)
                && context.lastReservationId == old(context.lastReservationId)
    {
      if id != room.id {
        return BadRequest;
      }
      var found := FindIndex(context.rooms, RoomId, id);
      var i := found.value;
      ReplaceSameKey(context.rooms, RoomId, i, room);
      context.rooms := context.rooms[i := room];
      return NoContent;
    }

    /** DELETE api/room/{id}. Whether the deleted room's own reservations go
        with it is the database's foreign-key rule and is not stated here;
        no reservation is added and those of every other room are kept. */
    method DeleteRoom(id: int) returns (r: ActionResult<()>)
      requires context.Valid()
      modifies context
      ensures context.Valid()
      ensures r == NotFound || r == NoContent
      ensures r == NotFound <==> forall x :: x in old(context.rooms) ==> x.id != id
      ensures r == NotFound ==> unchanged(context)
      ensures r == NoContent ==>
                && context.rooms == RemoveAt(old(context.rooms), FindIndex(old(context.rooms), RoomId, id).value)
                && (forall x :: x in context.rooms <==> x in old(context.rooms) && x.id != id)
                && FindIndex(context.rooms, RoomId, id).None?
                && (forall res :: res in context.reservations ==> res in old(context.reservations))
                && (forall res :: res in old(context.reservations) && res.roomId != id ==> res in context.reservations)
                && context.lastRoomId == old(context.lastRoomId)
                && context.lastReservationId == old(context.lastReservationId)
    {
      var found := FindIndex(context.rooms, RoomId, id);
      if found.None? {
        return NotFound;
      }
      RemoveAtByKey(context.rooms, RoomId, found.value);
      context.rooms := RemoveAt(context.rooms, found.value);
      return NoContent;
    }
  }
}
