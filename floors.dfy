/** A floor of a building: its dimensions, its rooms and its maintenance
    schedule. The acceptance rules for new rooms and for maintenance orders
    are stated on plain values, so that the Floor class and the building
    file loader apply the same rules. */
module Floors {
  import opened Wrappers
  import opened Collections
  import opened Rooms
  import opened Maintenance

  /** Smallest width and length a floor may be given. */
  const MinWidth: real := 5.0
  const MinLength: real := 5.0

  /** calculateArea: a floor's width times its length. */
  function FloorArea(width: real, length: real): (a: real)
    ensures width >= 0.0 && length >= 0.0 ==> a >= 0.0
  {
    width * length
  }

  /** Why addRoom rejects a room: IllegalArgumentException,
      DuplicateRoomException and InsufficientSpaceException. */
  datatype RoomRejection = AreaBelowMinimum | DuplicateRoom | InsufficientSpace

  /** Why changeDimensions rejects new dimensions: IllegalArgumentException
      and FloorTooSmallException. */
  datatype DimensionRejection = DimensionBelowMinimum | FloorTooSmall

  /** The checks addRoom makes, in its order, for a room with `number` and
      `area` on a floor of area `floorArea` whose rooms have `numbers` and
      `areas`. */
  function AddRoomRejection(numbers: seq<int>, areas: seq<real>, floorArea: real, number: int, area: real)
    : (e: Option<RoomRejection>)
    ensures e.None? <==> area >= MinArea && number !in numbers && SumReal(areas) + area <= floorArea
    ensures e == Some(AreaBelowMinimum) <==> area < MinArea
  {
    if area < MinArea then Some(AreaBelowMinimum)
    else if number in numbers then Some(DuplicateRoom)
    else if SumReal(areas) + area > floorArea then Some(InsufficientSpace)
    else None
  }

  /** What a floor's rooms satisfy once they have been added through addRoom:
      distinct room numbers, no room below the minimum area, and together no
      more area than the floor has. */
  predicate RoomsFit(numbers: seq<int>, areas: seq<real>, floorArea: real)
  {
    && Distinct(numbers)
    && (forall i :: 0 <= i < |areas| ==> areas[i] >= MinArea)
    && SumReal(areas) <= floorArea
  }

  /** An accepted room keeps the rooms fitting the floor, whatever the rooms
      were before as far as the area goes. */
  lemma AddRoomKeepsRoomsFit(numbers: seq<int>, areas: seq<real>, floorArea: real, number: int, area: real)
    requires AddRoomRejection(numbers, areas, floorArea, number, area).None?
    ensures SumReal(areas + [area]) <= floorArea
    ensures RoomsFit(numbers, areas, floorArea) ==> RoomsFit(numbers + [number], areas + [area], floorArea)
  {
    assert (areas + [area])[..|areas|] == areas;
  }

  /** An empty floor of non-negative area has room for nothing yet. */
  lemma EmptyFloorFits(floorArea: real)
    requires floorArea >= 0.0
    ensures RoomsFit([], [], floorArea)
  {
  }

  predicate InteriorFirstOccurrenceOk<T(==)>(order: seq<T>, i: nat)
    requires i < |order|
  {
    0 < i < |order| - 1 ==> order[i + 1] != order[i] && order[i - 1] != order[i]
  }

  /** The orders createMaintenanceSchedule accepts for a floor with `rooms`:
      at least one room, every room on the floor, first and last room
      different (so no one-room order), and no interior first occurrence of a
      room next to the same room. Later occurrences are not checked. */
  predicate ScheduleAccepted<T(==)>(order: seq<T>, rooms: seq<T>)
  {
    && |order| >= 1
    && (forall k :: 0 <= k < |order| ==> order[k] in rooms)
    && order[0] != order[|order| - 1]
    && (|order| > 1 ==>
          forall i :: 0 <= i < |order| && order[i] !in order[..i] ==> InteriorFirstOccurrenceOk(order, i))
  }

  /** The validation of createMaintenanceSchedule; false where it throws
      IllegalArgumentException. */
  method CheckMaintenanceOrder<T(==)>(order: seq<T>, rooms: seq<T>) returns (ok: bool)
    ensures ok == ScheduleAccepted(order, rooms)
  {
    if !(|order| >= 1 && forall k :: 0 <= k < |order| ==> order[k] in rooms) {
      return false;
    }
    if order[0] == order[|order| - 1] {
      return false;
    }
    if |order| > 1 {
      for k := 0 to |order|
        invariant FirstOccurrencesOk(order, k)
      {
        var idx := IndexOf(order, order[k]).value;
        if idx != 0 && idx != |order| - 1 {
          if order[k] == order[idx + 1] || order[k] == order[idx - 1] {
            assert !InteriorFirstOccurrenceOk(order, idx);
            return false;
          }
        }
        if order[k] !in order[..k] {
          FirstOccurrenceIndex(order, k);
        }
        FirstOccurrencesOkStep(order, k);
      }
    }
    return true;
  }

  /** The first occurrences among the first `k` rooms of an order pass the
      neighbour check. */
  predicate FirstOccurrencesOk<T(==)>(order: seq<T>, k: nat)
    requires k <= |order|
  {
    forall i :: 0 <= i < k && order[i] !in order[..i] ==> InteriorFirstOccurrenceOk(order, i)
  }

  lemma FirstOccurrencesOkStep<T>(order: seq<T>, k: nat)
    requires k < |order| && FirstOccurrencesOk(order, k)
    requires order[k] !in order[..k] ==> InteriorFirstOccurrenceOk(order, k)
    ensures FirstOccurrencesOk(order, k + 1)
  {
  }

  /** The position of a first occurrence is where IndexOf finds it. */
  lemma FirstOccurrenceIndex<T>(order: seq<T>, k: nat)
    requires k < |order| && order[k] !in order[..k]
    ensures IndexOf(order, order[k]) == Some(k)
  {
  }

  /** A one-room order is always rejected, since its first and last rooms
      coincide. */
  lemma OneRoomOrderRejected<T>(r: T, rooms: seq<T>)
    ensures !ScheduleAccepted([r], rooms)
  {
  }

  /** A room repeated at the start is not caught: only first occurrences
      away from both ends are checked against their neighbours. */
  lemma RepeatAtStartAccepted(a: int, b: int)
    requires a != b
    ensures ScheduleAccepted([a, a, b], [a, b])
  {
    var order := [a, a, b];
    assert order[..1] == [a];
  }

  /** An order of distinct rooms is accepted exactly when it has at least two
      rooms, all on the floor. */
  lemma DistinctOrderAccepted<T>(order: seq<T>, rooms: seq<T>)
    requires Distinct(order) && |order| >= 2
    requires forall k :: 0 <= k < |order| ==> order[k] in rooms
    ensures ScheduleAccepted(order, rooms)
  {
    assert order[0] != order[|order| - 1];
  }

  function Areas(rooms: seq<Room>): (as_: seq<real>)
    ensures |as_| == |rooms|
  {
    seq(|rooms|, i requires 0 <= i < |rooms| => rooms[i].area)
  }

  class Floor {
    const number: int
    var width: real
    var length: real
    var rooms: seq<Room>
    var schedule: MaintenanceSchedule?

    /** A schedule only ever holds rooms of its floor. */
    ghost predicate Valid()
      reads this
    {
      schedule != null ==> schedule.Valid() && forall k :: 0 <= k < |schedule.order| ==> schedule.order[k] in rooms
    }

    constructor (number: int, width: real, length: real)
      ensures this.number == number && this.width == width && this.length == length
      ensures rooms == [] && schedule == null
      ensures Valid()
    {
      this.number := number;
      this.width := width;
      this.length := length;
      rooms := [];
      schedule := null;
    }

    /** calculateArea. */
    function Area(): real
      reads this
    {
      FloorArea(width, length)
    }

    /** occupiedArea: the rooms' areas added up. */
    function Occupied(): real
      reads this
    {
      SumReal(Areas(rooms))
    }

    ghost predicate RoomsValid()
      reads this
    {
      RoomsFit(RoomNumbers(rooms), Areas(rooms), Area())
    }

    /** getRoomByNumber: the first room with that number, or null. */
    method GetRoomByNumber(roomNumber: int) returns (room: Room?)
      ensures room == null <==> roomNumber !in RoomNumbers(rooms)
      ensures room != null ==> room == rooms[IndexOf(RoomNumbers(rooms), roomNumber).value]
    {
      for i := 0 to |rooms|
        invariant roomNumber !in RoomNumbers(rooms)[..i]
      {
        if rooms[i].number == roomNumber {
          assert RoomNumbers(rooms)[i] == roomNumber;
          return rooms[i];
        }
        assert RoomNumbers(rooms)[..i + 1] == RoomNumbers(rooms)[..i] + [rooms[i].number];
      }
      assert RoomNumbers(rooms)[..|rooms|] == RoomNumbers(rooms);
      return null;
    }

    /** occupiedArea, summed room by room. */
    method OccupiedArea() returns (area: real)
      ensures area == Occupied()
    {
      area := 0.0;
      for i := 0 to |rooms|
        invariant area == SumReal(Areas(rooms)[..i])
      {
        SumRealStep(Areas(rooms), i);
        area := area + rooms[i].area;
      }
      assert Areas(rooms)[..|rooms|] == Areas(rooms);
    }

    /** addRoom: the room is appended unless addRoomRejection names a reason,
        in which case nothing changes. */
    method AddRoom(newRoom: Room) returns (e: Option<RoomRejection>)
      modifies this
      ensures e == AddRoomRejection(RoomNumbers(old(rooms)), Areas(old(rooms)), old(Area()), newRoom.number, newRoom.area)
      ensures rooms == if e.None? then old(rooms) + [newRoom] else old(rooms)
      ensures width == old(width) && length == old(length) && schedule == old(schedule)
      ensures e.None? ==> Occupied() <= Area()
      ensures old(RoomsValid()) ==> RoomsValid()
      ensures old(Valid()) ==> Valid()
    {
      if newRoom.area < MinArea {
        return Some(AreaBelowMinimum);
      }
      var existing := GetRoomByNumber(newRoom.number);
      if existing != null {
        return Some(DuplicateRoom);
      }
      var occupied := OccupiedArea();
      if occupied + newRoom.area > Area() {
        return Some(InsufficientSpace);
      }
      AddRoomKeepsRoomsFit(RoomNumbers(rooms), Areas(rooms), Area(), newRoom.number, newRoom.area);
      assert Areas(rooms + [newRoom]) == Areas(rooms) + [newRoom.area];
      assert RoomNumbers(rooms + [newRoom]) == RoomNumbers(rooms) + [newRoom.number];
      rooms := rooms + [newRoom];
      return None;
    }

    /** changeDimensions: both dimensions must be at least the minimum and
        the new area at least the occupied area; otherwise nothing changes. */
    method ChangeDimensions(newWidth: real, newLength: real) returns (e: Option<DimensionRejection>)
      modifies this
      ensures e == Some(DimensionBelowMinimum) <==> newWidth < MinWidth || newLength < MinLength
      ensures e == Some(FloorTooSmall) <==>
        newWidth >= MinWidth && newLength >= MinLength && newWidth * newLength < old(Occupied())
      ensures e.None? ==> width == newWidth && length == newLength && Occupied() <= Area()
      ensures e.Some? ==> width == old(width) && length == old(length)
      ensures rooms == old(rooms) && schedule == old(schedule)
      ensures old(RoomsValid()) ==> RoomsValid()
    {
      if newWidth < MinWidth || newLength < MinLength {
        return Some(DimensionBelowMinimum);
      }
      var occupied := OccupiedArea();
      if newWidth * newLength < occupied {
        return Some(FloorTooSmall);
      }
      width := newWidth;
      length := newLength;
      return None;
    }

    /** fireDrill: every room of the given type, or every room when no type
        is given, is put into fire-drill mode. */
    method FireDrill(roomType: Option<RoomType>)
      modifies rooms
      ensures forall k :: 0 <= k < |rooms| ==>
        rooms[k].fireDrill == (old(rooms[k].fireDrill) || roomType.None? || roomType.value == rooms[k].kind)
      ensures forall k :: 0 <= k < |rooms| ==> rooms[k].maintenance == old(rooms[k].maintenance)
    {
      for i := 0 to |rooms|
        invariant forall k :: 0 <= k < |rooms| ==>
          rooms[k].fireDrill == (old(rooms[k].fireDrill) ||
            ((roomType.None? || roomType.value == rooms[k].kind) && rooms[k] in rooms[..i]))
        invariant forall k :: 0 <= k < |rooms| ==> rooms[k].maintenance == old(rooms[k].maintenance)
      {
        if roomType.None? || roomType.value == rooms[i].kind {
          rooms[i].fireDrill := true;
        }
        assert rooms[..i + 1] == rooms[..i] + [rooms[i]];
      }
      assert rooms[..|rooms|] == rooms;
    }

    /** cancelFireDrill: no room of the floor is in fire-drill mode. */
    method CancelFireDrill()
      modifies rooms
      ensures forall k :: 0 <= k < |rooms| ==> !rooms[k].fireDrill
      ensures forall k :: 0 <= k < |rooms| ==> rooms[k].maintenance == old(rooms[k].maintenance)
    {
      for i := 0 to |rooms|
        invariant forall k :: 0 <= k < |rooms| && rooms[k] in rooms[..i] ==> !rooms[k].fireDrill
        invariant forall k :: 0 <= k < |rooms| ==> rooms[k].maintenance == old(rooms[k].maintenance)
      {
        rooms[i].fireDrill := false;
        assert rooms[..i + 1] == rooms[..i] + [rooms[i]];
      }
      assert rooms[..|rooms|] == rooms;
    }

    /** The room the installed schedule is maintaining, if there is one. */
    function ScheduledRoom(): (r: Room?)
      requires Valid()
      reads this, rooms
      ensures r != null ==> r in rooms
    {
      if schedule == null then null else schedule.order[schedule.CurrentIndex()]
    }

    /** createMaintenanceSchedule: an accepted order replaces the schedule;
        the old schedule's current room leaves maintenance and the new
        order's first room enters it. A rejected order changes nothing. */
    method CreateMaintenanceSchedule(roomOrder: seq<Room>) returns (ok: bool)
      requires Valid()
      modifies this, rooms
      ensures ok == ScheduleAccepted(roomOrder, old(rooms))
      ensures rooms == old(rooms) && width == old(width) && length == old(length)
      ensures !ok ==> schedule == old(schedule)
      ensures !ok ==> forall k :: 0 <= k < |rooms| ==> rooms[k].maintenance == old(rooms[k].maintenance)
      ensures ok ==> fresh(schedule) && schedule.order == roomOrder && schedule.timeElapsed == 0
      ensures ok ==> forall k :: 0 <= k < |rooms| ==>
        rooms[k].maintenance == (rooms[k] == roomOrder[0] || (old(rooms[k].maintenance) && rooms[k] != old(ScheduledRoom())))
      ensures forall k :: 0 <= k < |rooms| ==> rooms[k].fireDrill == old(rooms[k].fireDrill)
      ensures Valid()
    {
      ok := CheckMaintenanceOrder(roomOrder, rooms);
      if !ok {
        return;
      }
      if schedule != null {
        var current := schedule.GetCurrentRoom();
        current.maintenance := false;
      }
      assert roomOrder[0] in rooms;
      schedule := new MaintenanceSchedule(roomOrder);
    }
  }
}
