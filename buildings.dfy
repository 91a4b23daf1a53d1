/** A building: a named stack of floors. addFloor keeps the stack sound;
    that rule is stated on footprints (number, width, length) so that the
    Building class and the building file loader share it. */
module Buildings {
  import opened Wrappers
  import opened Collections
  import opened Rooms
  import Floors

  /** The part of a floor addFloor looks at. */
  datatype Footprint = Footprint(number: int, width: real, length: real)

  /** Why addFloor rejects a floor: IllegalArgumentException,
      DuplicateFloorException, NoFloorBelowException and
      FloorTooSmallException. */
  datatype FloorRejection = InvalidFloor | DuplicateFloor | NoFloorBelow | FloorTooSmall

  /** Why fireDrill throws FireDrillException. */
  datatype FireDrillRejection = NoFloors | NoRooms

  function Numbers(fps: seq<Footprint>): (ns: seq<int>)
    ensures |ns| == |fps|
    ensures forall i :: 0 <= i < |fps| ==> ns[i] == fps[i].number
  {
    seq(|fps|, i requires 0 <= i < |fps| => fps[i].number)
  }

  /** The checks addFloor makes, in its order, for a floor with footprint
      `f` on a building whose floors have footprints `fps`. The floor below
      is the first one numbered one less. */
  function AddFloorRejection(fps: seq<Footprint>, f: Footprint): (e: Option<FloorRejection>)
    ensures e == Some(InvalidFloor) <==> f.number < 1 || f.width < Floors.MinWidth || f.length < Floors.MinLength
    ensures e == Some(DuplicateFloor) ==> f.number in Numbers(fps)
    ensures e == Some(NoFloorBelow) ==> f.number >= 2 && f.number - 1 !in Numbers(fps)
    ensures e.None? ==> f.number !in Numbers(fps) && (f.number >= 2 ==> f.number - 1 in Numbers(fps))
  {
    if f.number < 1 || f.width < Floors.MinWidth || f.length < Floors.MinLength then Some(InvalidFloor)
    else if f.number in Numbers(fps) then Some(DuplicateFloor)
    else if f.number >= 2 && f.number - 1 !in Numbers(fps) then Some(NoFloorBelow)
    else if f.number >= 2 &&
      (var below := fps[IndexOf(Numbers(fps), f.number - 1).value];
       f.width > below.width || f.length > below.length)
    then Some(FloorTooSmall)
    else None
  }

  /** The shape addFloor alone keeps: floors numbered 1, 2, ... in list
      order, each at least the minimum size and no wider or longer than the
      floor below. */
  predicate Stacked(fps: seq<Footprint>)
  {
    forall i :: 0 <= i < |fps| ==>
      && fps[i].number == i + 1
      && fps[i].width >= Floors.MinWidth && fps[i].length >= Floors.MinLength
      && (i > 0 ==> fps[i].width <= fps[i - 1].width && fps[i].length <= fps[i - 1].length)
  }

  /** In a stacked building, floor k is at position k - 1. */
  lemma StackedFloorPosition(fps: seq<Footprint>, k: int)
    requires Stacked(fps)
    ensures k in Numbers(fps) <==> 1 <= k <= |fps|
    ensures 1 <= k <= |fps| ==> IndexOf(Numbers(fps), k) == Some(k - 1)
  {
    if k in Numbers(fps) {
      var i :| 0 <= i < |fps| && Numbers(fps)[i] == k;
    }
    if 1 <= k <= |fps| {
      assert Numbers(fps)[k - 1] == k;
    }
  }

  /** On a stacked building addFloor accepts exactly the next floor up,
      of at least the minimum size and no larger than the top floor. */
  lemma StackedAddFloorAccepts(fps: seq<Footprint>, f: Footprint)
    requires Stacked(fps)
    ensures AddFloorRejection(fps, f).None? <==>
      && f.number == |fps| + 1
      && f.width >= Floors.MinWidth && f.length >= Floors.MinLength
      && (|fps| > 0 ==> f.width <= fps[|fps| - 1].width && f.length <= fps[|fps| - 1].length)
  {
    StackedFloorPosition(fps, f.number);
    StackedFloorPosition(fps, f.number - 1);
  }

  /** addFloor keeps a building stacked. */
  lemma AddFloorKeepsStacked(fps: seq<Footprint>, f: Footprint)
    requires Stacked(fps)
    requires AddFloorRejection(fps, f).None?
    ensures Stacked(fps + [f])
  {
    StackedAddFloorAccepts(fps, f);
  }

  function FootprintOf(f: Floors.Floor): Footprint
    reads f
  {
    Footprint(f.number, f.width, f.length)
  }

  function FootprintsOf(fl: seq<Floors.Floor>): (fps: seq<Footprint>)
    reads set f | f in fl
    ensures |fps| == |fl|
    ensures forall i :: 0 <= i < |fl| ==> fps[i] == FootprintOf(fl[i])
  {
    if fl == [] then [] else FootprintsOf(fl[..|fl| - 1]) + [FootprintOf(fl[|fl| - 1])]
  }

  /** The rooms of the given floors. */
  ghost function RoomsOf(fl: seq<Floors.Floor>): set<Room>
    reads set f | f in fl
  {
    set i, k | 0 <= i < |fl| && 0 <= k < |fl[i].rooms| :: fl[i].rooms[k]
  }

  /** The rooms of one floor. */
  ghost function FloorRooms(f: Floors.Floor): set<Room>
    reads f
  {
    set k | 0 <= k < |f.rooms| :: f.rooms[k]
  }

  /** The rooms of the first i+1 floors are those of the first i and those
      of floor i. */
  lemma RoomsOfSnoc(fl: seq<Floors.Floor>, i: nat)
    requires i < |fl|
    ensures RoomsOf(fl[..i + 1]) == RoomsOf(fl[..i]) + FloorRooms(fl[i])
  {
    assert fl[..i + 1][i] == fl[i];
  }

  /** Whether `r` is a room the drill for `roomType` reaches. */
  predicate DrillTarget(r: Room, roomType: Option<RoomType>)
  {
    roomType.None? || roomType.value == r.kind
  }

  class Building {
    const name: string
    var floors: seq<Floors.Floor>

    constructor (name: string)
      ensures this.name == name && floors == []
    {
      this.name := name;
      floors := [];
    }

    function Footprints(): seq<Footprint>
      reads this, set f | f in floors
    {
      FootprintsOf(floors)
    }

    ghost function AllRooms(): set<Room>
      reads this, set f | f in floors
    {
      RoomsOf(floors)
    }

    /** getFloorByNumber: the first floor with that number, or null. */
    method GetFloorByNumber(floorNumber: int) returns (floor: Floors.Floor?)
      ensures floor == null <==> floorNumber !in Numbers(Footprints())
      ensures floor != null ==> floor == floors[IndexOf(Numbers(Footprints()), floorNumber).value]
    {
      ghost var ns := Numbers(Footprints());
      for i := 0 to |floors|
        invariant floorNumber !in ns[..i]
      {
        if floors[i].number == floorNumber {
          return floors[i];
        }
        assert ns[..i + 1] == ns[..i] + [ns[i]];
      }
      assert ns[..|floors|] == ns;
      return null;
    }

    /** The checks of addFloor, in its order. */
    method FloorRejection(newFloor: Floors.Floor) returns (e: Option<FloorRejection>)
      ensures e == AddFloorRejection(Footprints(), FootprintOf(newFloor))
    {
      var n := newFloor.number;
      if n < 1 || newFloor.width < Floors.MinWidth || newFloor.length < Floors.MinLength {
        return Some(InvalidFloor);
      }
      var same := GetFloorByNumber(n);
      if same != null {
        return Some(DuplicateFloor);
      }
      var below := GetFloorByNumber(n - 1);
      if n >= 2 && below == null {
        return Some(NoFloorBelow);
      }
      if n >= 2 && (newFloor.width > below.width || newFloor.length > below.length) {
        return Some(FloorTooSmall);
      }
      return None;
    }

    /** addFloor: the floor is appended unless addFloorRejection names a
        reason, in which case nothing changes. */
    method AddFloor(newFloor: Floors.Floor) returns (e: Option<FloorRejection>)
      modifies this
      ensures e == AddFloorRejection(old(Footprints()), FootprintOf(newFloor))
      ensures floors == if e.None? then old(floors) + [newFloor] else old(floors)
      ensures Footprints() == if e.None? then old(Footprints()) + [FootprintOf(newFloor)] else old(Footprints())
      ensures old(Stacked(Footprints())) ==> Stacked(Footprints())
    {
      e := FloorRejection(newFloor);
      if e.None? {
        AppendFloor(newFloor);
      }
    }

    /** The floor list after addFloor accepts a floor. */
    method AppendFloor(newFloor: Floors.Floor)
      requires AddFloorRejection(Footprints(), FootprintOf(newFloor)).None?
      modifies this
      ensures floors == old(floors) + [newFloor]
      ensures Footprints() == old(Footprints()) + [FootprintOf(newFloor)]
      ensures old(Stacked(Footprints())) ==> Stacked(Footprints())
    {
      ghost var fps := Footprints();
      floors := floors + [newFloor];
      assert Footprints() == fps + [FootprintOf(newFloor)];
      if Stacked(fps) {
        AddFloorKeepsStacked(fps, FootprintOf(newFloor));
      }
    }

    /** The scan of fireDrill for a floor with at least one room. */
    method HasRooms() returns (hasRooms: bool)
      ensures hasRooms <==> AllRooms() != {}
    {
      hasRooms := false;
      for i := 0 to |floors|
        invariant hasRooms <==> RoomsOf(floors[..i]) != {}
      {
        RoomsOfSnoc(floors, i);
        if |floors[i].rooms| != 0 {
          assert floors[i].rooms[0] in RoomsOf(floors[..i + 1]);
          hasRooms := true;
        }
      }
      assert floors[..|floors|] == floors;
    }

    /** The delegation of fireDrill to every floor. */
    method DrillEveryFloor(roomType: Option<RoomType>)
      modifies AllRooms()
      ensures forall r :: r in AllRooms() ==> r.fireDrill == (old(r.fireDrill) || DrillTarget(r, roomType))
      ensures forall r :: r in AllRooms() ==> r.maintenance == old(r.maintenance)
    {
      for i := 0 to |floors|
        invariant forall r :: r in AllRooms() ==>
          r.fireDrill == (old(r.fireDrill) || (DrillTarget(r, roomType) && r in RoomsOf(floors[..i])))
        invariant forall r :: r in AllRooms() ==> r.maintenance == old(r.maintenance)
      {
        RoomsOfSnoc(floors, i);
        floors[i].FireDrill(roomType);
      }
      assert floors[..|floors|] == floors;
    }

    /** fireDrill: rejected when there are no floors or no rooms; otherwise
        every room the drill reaches, on every floor, is put into fire-drill
        mode and nothing else changes. */
    method FireDrill(roomType: Option<RoomType>) returns (e: Option<FireDrillRejection>)
      modifies AllRooms()
      ensures e == Some(NoFloors) <==> |floors| == 0
      ensures e == Some(NoRooms) <==> |floors| > 0 && AllRooms() == {}
      ensures forall r :: r in AllRooms() ==>
        r.fireDrill == (old(r.fireDrill) || (e.None? && DrillTarget(r, roomType)))
      ensures forall r :: r in AllRooms() ==> r.maintenance == old(r.maintenance)
    {
      if |floors| < 1 {
        return Some(NoFloors);
      }
      var hasRooms := HasRooms();
      if !hasRooms {
        return Some(NoRooms);
      }
      DrillEveryFloor(roomType);
      return None;
    }

    /** cancelFireDrill: no room of the building is in fire-drill mode. */
    method CancelFireDrill()
      modifies AllRooms()
      ensures forall r :: r in AllRooms() ==> !r.fireDrill
      ensures forall r :: r in AllRooms() ==> r.maintenance == old(r.maintenance)
    {
      for i := 0 to |floors|
        invariant forall r :: r in RoomsOf(floors[..i]) ==> !r.fireDrill
        invariant forall r :: r in AllRooms() ==> r.maintenance == old(r.maintenance)
      {
        RoomsOfSnoc(floors, i);
        floors[i].CancelFireDrill();
      }
      assert floors[..|floors|] == floors;
    }
  }
}
