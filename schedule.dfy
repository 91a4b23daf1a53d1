/** A floor's maintenance schedule: rooms are maintained one at a time, in a
    fixed cyclic order. The current room is the one whose maintenance flag
    is set; the flags live on the rooms, which the schedule shares with its
    floor. */
module Maintenance {
  import opened Wrappers
  import opened Collections
  import opened Text
  import opened Rooms

  /** Maintenance minutes before the area multiplier: 5, plus 0.2 per unit of
      area above the room minimum. */
  function BaseTime(area: real): (b: real)
    ensures b >= 5.0
  {
    if area > MinArea then 5.0 + (area - MinArea) * 0.2 else 5.0
  }

  function Multiplier(kind: RoomType): (m: real)
    ensures m >= 1.0
  {
    match kind
    case Study => 1.0
    case Office => 1.5
    case Laboratory => 2.0
  }

  /** getMaintenanceTime: the base time times the type multiplier, rounded
      half up to whole minutes; never less than 5. */
  function MaintenanceTime(room: Room): (t: int)
    ensures t as real <= BaseTime(room.area) * Multiplier(room.kind) + 0.5 < t as real + 1.0
    ensures t >= 5
  {
    var roomArea := if room.area > MinArea then 5.0 + (room.area - MinArea) * 0.2 else 5.0;
    var scaled := match room.kind
      case Study => roomArea * 1.0
      case Office => roomArea * 1.5
      case Laboratory => roomArea * 2.0;
    assert scaled >= 5.0 by {
      assert scaled == BaseTime(room.area) * Multiplier(room.kind);
    }
    (scaled + 0.5).Floor
  }

  /** The maintenance times of the schedule's documentation and tests, for
      rooms at the minimum area and 5 units above it. */
  lemma MaintenanceTimeExamples(a: Room, b: Room, c: Room, d: Room, e: Room, f: Room)
    requires a.kind == Study && b.kind == Office && c.kind == Laboratory
    requires a.area == MinArea && b.area == MinArea && c.area == MinArea
    requires d.kind == Study && e.kind == Office && f.kind == Laboratory
    requires d.area == MinArea + 5.0 && e.area == MinArea + 5.0 && f.area == MinArea + 5.0
    ensures MaintenanceTime(a) == 5 && MaintenanceTime(b) == 8 && MaintenanceTime(c) == 10
    ensures MaintenanceTime(d) == 6 && MaintenanceTime(e) == 9 && MaintenanceTime(f) == 12
  {
  }

  /** A larger room of the same type never takes less time. */
  lemma MaintenanceTimeMonotone(a: Room, b: Room)
    requires a.kind == b.kind && a.area <= b.area
    ensures MaintenanceTime(a) <= MaintenanceTime(b)
  {
    assert BaseTime(a.area) <= BaseTime(b.area);
    assert BaseTime(a.area) * Multiplier(a.kind) <= BaseTime(b.area) * Multiplier(b.kind);
  }

  /** Position after the first occurrence of the entry at `i`, wrapping from
      the last position to the first. */
  function Successor<T(==)>(order: seq<T>, i: nat): (j: nat)
    requires i < |order|
    ensures j < |order|
  {
    var p := IndexOf(order, order[i]).value;
    if p == |order| - 1 then 0 else p + 1
  }

  /** In an order without repeated rooms the schedule visits every room in
      turn and then starts again. */
  lemma SuccessorOfDistinct<T>(order: seq<T>, i: nat)
    requires i < |order| && Distinct(order)
    ensures Successor(order, i) == if i == |order| - 1 then 0 else i + 1
  {
    var p := IndexOf(order, order[i]).value;
    assert p == i;
  }

  function RoomNumbers(rooms: seq<Room>): (ns: seq<int>)
    ensures |ns| == |rooms|
  {
    seq(|rooms|, i requires 0 <= i < |rooms| => rooms[i].number)
  }

  function NumberStrings(numbers: seq<int>): (ss: seq<string>)
    ensures |ss| == |numbers|
  {
    seq(|numbers|, i requires 0 <= i < |numbers| => IntToString(numbers[i]))
  }

  /** Position of the first room whose maintenance flag is set. */
  function FirstInMaintenance(rooms: seq<Room>): (r: Option<nat>)
    reads rooms
    ensures r.Some? ==> r.value < |rooms| && rooms[r.value].maintenance
    ensures r.Some? ==> forall k :: 0 <= k < r.value ==> !rooms[k].maintenance
    ensures r.None? ==> forall k :: 0 <= k < |rooms| ==> !rooms[k].maintenance
  {
    if rooms == [] then None
    else if rooms[0].maintenance then Some(0)
    else match FirstInMaintenance(rooms[1..])
      case None => None
      case Some(i) => Some(i + 1)
  }

  class MaintenanceSchedule {
    const order: seq<Room>
    var timeElapsed: int

    /** The order is never empty: the constructor reads its first room. */
    ghost predicate Valid()
    {
      |order| > 0
    }

    constructor (roomOrder: seq<Room>)
      requires |roomOrder| > 0
      modifies roomOrder[0]
      ensures Valid() && order == roomOrder && timeElapsed == 0
      ensures roomOrder[0].maintenance
      ensures roomOrder[0].fireDrill == old(roomOrder[0].fireDrill)
    {
      order := roomOrder;
      timeElapsed := 0;
      new;
      roomOrder[0].maintenance := true;
    }

    /** Position of the room getCurrentRoom returns: the first room in the
        order whose maintenance flag is set, or else the first room. */
    function CurrentIndex(): (i: nat)
      requires Valid()
      reads order
      ensures i < |order|
      ensures forall k :: 0 <= k < i ==> !order[k].maintenance
      ensures order[i].maintenance || (i == 0 && forall k :: 0 <= k < |order| ==> !order[k].maintenance)
    {
      match FirstInMaintenance(order)
      case None => 0
      case Some(i) => i
    }

    /** The position after the current room's first occurrence, where the
        flag moves to. */
    function NextIndex(): (j: nat)
      requires Valid()
      reads order
      ensures j < |order|
    {
      Successor(order, CurrentIndex())
    }

    /** The first occurrence of the current room is the current position, so
        indexOf(getCurrentRoom()) finds the position getCurrentRoom stopped
        at. */
    lemma CurrentIsFirstOccurrence()
      requires Valid()
      ensures IndexOf(order, order[CurrentIndex()]) == Some(CurrentIndex())
    {
    }

    /** Only the current room is flagged, wherever it occurs in the order. */
    predicate OnlyCurrentFlagged()
      requires Valid()
      reads order
    {
      forall k :: 0 <= k < |order| ==> (order[k].maintenance <==> order[k] == order[CurrentIndex()])
    }

    method GetCurrentRoom() returns (room: Room)
      requires Valid()
      ensures room == order[CurrentIndex()]
    {
      for i := 0 to |order|
        invariant forall k :: 0 <= k < i ==> !order[k].maintenance
      {
        if order[i].maintenance {
          return order[i];
        }
      }
      return order[0];
    }

    method GetTimeElapsedCurrentRoom() returns (t: int)
      ensures t == timeElapsed
    {
      return timeElapsed;
    }

    /** Clears the current room's flag and sets the flag of the room after
        its first occurrence, the first room after the last. */
    method MoveToNextRoom(room: Room)
      requires Valid() && room == order[CurrentIndex()]
      modifies order
      ensures var next := old(order[NextIndex()]);
        forall k :: 0 <= k < |order| ==> (order[k].maintenance ==
          (order[k] == next || (order[k] != room && old(order[k].maintenance))))
      ensures forall k :: 0 <= k < |order| ==> order[k].fireDrill == old(order[k].fireDrill)
    {
      CurrentIsFirstOccurrence();
      var currentPointer := IndexOf(order, room).value;
      room.maintenance := false;
      if currentPointer == |order| - 1 {
        order[0].maintenance := true;
      } else {
        order[currentPointer + 1].maintenance := true;
      }
    }

    /** elapseOneMinute, given the state the current room reports. Nothing
        changes while it is evacuating; otherwise one minute is counted, and
        once the minutes reach the room's maintenance time the count starts
        again from 0 and the flag moves on. */
    method ElapseOneMinute(currentState: RoomState)
      requires Valid()
      modifies this, order
      ensures currentState == Evacuate ==>
        timeElapsed == old(timeElapsed) &&
        forall k :: 0 <= k < |order| ==> order[k].maintenance == old(order[k].maintenance)
      ensures currentState != Evacuate ==>
        var room := old(order[CurrentIndex()]);
        var next := old(order[NextIndex()]);
        if MaintenanceTime(room) == old(timeElapsed) + 1 then
          timeElapsed == 0 &&
          forall k :: 0 <= k < |order| ==> (order[k].maintenance ==
            (order[k] == next || (order[k] != room && old(order[k].maintenance))))
        else
          timeElapsed == old(timeElapsed) + 1 &&
          forall k :: 0 <= k < |order| ==> order[k].maintenance == old(order[k].maintenance)
      ensures old(OnlyCurrentFlagged()) ==> OnlyCurrentFlagged()
      ensures forall k :: 0 <= k < |order| ==> order[k].fireDrill == old(order[k].fireDrill)
    {
      var room := GetCurrentRoom();
      if currentState != Evacuate {
        timeElapsed := timeElapsed + 1;
        if MaintenanceTime(room) == timeElapsed {
          timeElapsed := 0;
          MoveToNextRoom(room);
          FlagMovedKeepsOnlyCurrent(room, old(order[NextIndex()]), old(OnlyCurrentFlagged()));
        }
      }
    }

    /** skipCurrentMaintenance: the flag moves on at once, whatever the
        current room's state; the minute count is left as it is. */
    method SkipCurrentMaintenance()
      requires Valid()
      modifies order
      ensures timeElapsed == old(timeElapsed)
      ensures var room := old(order[CurrentIndex()]);
        var next := old(order[NextIndex()]);
        forall k :: 0 <= k < |order| ==> (order[k].maintenance ==
          (order[k] == next || (order[k] != room && old(order[k].maintenance))))
      ensures old(OnlyCurrentFlagged()) ==> OnlyCurrentFlagged()
      ensures forall k :: 0 <= k < |order| ==> order[k].fireDrill == old(order[k].fireDrill)
    {
      var room := GetCurrentRoom();
      MoveToNextRoom(room);
      FlagMovedKeepsOnlyCurrent(room, old(order[NextIndex()]), old(OnlyCurrentFlagged()));
    }

    /** When only the old current room was flagged and the flag moved to
        `next`, only `next` is flagged, and it is the new current room. */
    lemma FlagMovedKeepsOnlyCurrent(room: Room, next: Room, wasOnly: bool)
      requires Valid() && next in order
      requires wasOnly ==> forall k :: 0 <= k < |order| ==>
        order[k].maintenance == (order[k] == next)
      ensures wasOnly ==> OnlyCurrentFlagged() && order[CurrentIndex()] == next
    {
      if wasOnly {
        var c := CurrentIndex();
        var j :| 0 <= j < |order| && order[j] == next;
        assert order[j].maintenance;
        assert order[c].maintenance;
      }
    }

    /** encode: the room numbers in order, separated by commas. */
    method Encode() returns (s: string)
      requires Valid()
      ensures s == Join(NumberStrings(RoomNumbers(order)), ',')
    {
      ghost var parts := NumberStrings(RoomNumbers(order));
      var outputString := "";
      for i := 0 to |order|
        invariant outputString == JoinTerminated(parts[..i], ',')
      {
        JoinTerminatedStep(parts, i, ',');
        outputString := outputString + IntToString(order[i].number) + ",";
      }
      assert parts[..|order|] == parts;
      JoinTerminatedTrim(parts, ',');
      return outputString[..|outputString| - 1];
    }
  }
}
