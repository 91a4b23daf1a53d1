/** The study-room recommender: a climb from the first floor upwards that
    keeps the best open study room found so far and only moves up for a
    strictly more comfortable one.

    A building is given by its floors in floor-number order: position k
    holds the rooms of floor k + 1, which is where getFloorByNumber(k + 1)
    finds them in a building whose floors were added through addFloor
    (Buildings.StackedFloorPosition). A room is given by what the
    recommender reads of it: its type, the state it evaluates to, and the
    comfort reading of each of its sensors. */
module StudyRooms {
  import opened Wrappers
  import opened Collections
  import opened Rooms

  /** A sensor as averageComfort sees it: a comfort sensor with its current
      comfort level, or a sensor that does not implement ComfortSensor
      (CarbonDioxideSensor does not), on which the cast fails. */
  datatype SensorView = ComfortReading(level: int) | NonComfortSensor

  datatype RoomView = RoomView(kind: RoomType, state: RoomState, sensors: seq<SensorView>)

  /** The exceptions the recommender can raise: averageComfort of a null
      recommendation (NullPointerException) and the failed cast
      (ClassCastException). */
  datatype Fault = NullRoom | NotComfortSensor

  /** A room findStudyRoom keeps: a study room that is open. */
  predicate IsCandidate(r: RoomView)
  {
    r.kind == Study && r.state == Open
  }

  /** The open study rooms of a floor, in floor order; the empty sequence
      stands for the null findStudyRoom returns. */
  function Candidates(rooms: seq<RoomView>): (c: seq<RoomView>)
    ensures |c| <= |rooms|
  {
    if rooms == [] then []
    else
      var init := rooms[..|rooms| - 1];
      var last := rooms[|rooms| - 1];
      if IsCandidate(last) then Candidates(init) + [last] else Candidates(init)
  }

  /** The candidates are exactly the open study rooms of the floor. */
  lemma {:induction false} CandidatesMembers(rooms: seq<RoomView>)
    ensures forall x :: x in Candidates(rooms) <==> x in rooms && IsCandidate(x)
  {
    if rooms != [] {
      var init := rooms[..|rooms| - 1];
      assert rooms == init + [rooms[|rooms| - 1]];
      CandidatesMembers(init);
    }
  }

  /** The candidates of consecutive stretches of rooms follow each other:
      the filter keeps the floor's order. */
  lemma {:induction false} CandidatesOfConcat(a: seq<RoomView>, b: seq<RoomView>)
    ensures Candidates(a + b) == Candidates(a) + Candidates(b)
    decreases |b|
  {
    if b != [] {
      var init := b[..|b| - 1];
      assert (a + b)[..|a + b| - 1] == a + init;
      assert (a + b)[|a + b| - 1] == b[|b| - 1];
      CandidatesOfConcat(a, init);
    } else {
      assert a + b == a;
    }
  }

  /** findStudyRoom. */
  method FindStudyRoom(rooms: seq<RoomView>) returns (roomList: seq<RoomView>)
    ensures roomList == Candidates(rooms)
  {
    roomList := [];
    for i := 0 to |rooms|
      invariant roomList == Candidates(rooms[..i])
    {
      assert rooms[..i + 1][..i] == rooms[..i];
      if IsCandidate(rooms[i]) {
        roomList := roomList + [rooms[i]];
      }
    }
    assert rooms[..|rooms|] == rooms;
  }

  /** The comfort levels of the sensors, or None when one of them is not a
      comfort sensor. */
  function Levels(sensors: seq<SensorView>): (r: Option<seq<int>>)
    ensures r.Some? ==> |r.value| == |sensors|
  {
    if sensors == [] then Some([])
    else
      var init := sensors[..|sensors| - 1];
      match Levels(init)
      case None => None
      case Some(ls) =>
        match sensors[|sensors| - 1]
        case NonComfortSensor => None
        case ComfortReading(level) => Some(ls + [level])
  }

  /** The levels are read off the sensors, and exist exactly when every
      sensor is a comfort sensor. */
  lemma {:induction false} LevelsOfSensors(sensors: seq<SensorView>)
    ensures Levels(sensors).None? <==> NonComfortSensor in sensors
    ensures Levels(sensors).Some? ==>
      forall i :: 0 <= i < |sensors| ==> sensors[i] == ComfortReading(Levels(sensors).value[i])
  {
    if sensors != [] {
      var init := sensors[..|sensors| - 1];
      assert sensors == init + [sensors[|sensors| - 1]];
      LevelsOfSensors(init);
    }
  }

  /** averageComfort: 0 for a room without sensors, otherwise the mean
      comfort level of its sensors; the cast fails on a sensor that is not a
      comfort sensor. */
  function AverageComfort(r: RoomView): (res: Result<real, Fault>)
    ensures res.Failure? ==> res.error == NotComfortSensor
    ensures r.sensors == [] ==> res == Success(0.0)
  {
    if |r.sensors| == 0 then Success(0.0)
    else
      match Levels(r.sensors)
      case None => Failure(NotComfortSensor)
      case Some(ls) => Success(Mean(ls))
  }

  /** A room all of whose sensors are comfort sensors reporting a level in
      [0, 100], as ComfortSensor promises. */
  predicate ComfortRoom(r: RoomView)
  {
    forall i :: 0 <= i < |r.sensors| ==> r.sensors[i].ComfortReading? && 0 <= r.sensors[i].level <= 100
  }

  /** Rooms all of whose sensors are such comfort sensors. */
  predicate ComfortRooms(rooms: seq<RoomView>)
  {
    forall r :: r in rooms ==> ComfortRoom(r)
  }

  /** The level a sensor reports; 0 for one that is not a comfort sensor. */
  function Reading(s: SensorView): int
  {
    if s.ComfortReading? then s.level else 0
  }

  /** The comfort of a room: the mean of its sensors' levels, which for a
      room of comfort sensors is what averageComfort computes. */
  function Comfort(r: RoomView): real
  {
    Mean(Readings(r.sensors))
  }

  /** The levels the sensors report, in order. */
  function Readings(sensors: seq<SensorView>): (ls: seq<int>)
    ensures |ls| == |sensors|
  {
    if sensors == [] then [] else Readings(sensors[..|sensors| - 1]) + [Reading(sensors[|sensors| - 1])]
  }

  lemma {:induction false} ReadingsAt(sensors: seq<SensorView>)
    ensures forall i :: 0 <= i < |sensors| ==> Readings(sensors)[i] == Reading(sensors[i])
  {
    if sensors != [] {
      var init := sensors[..|sensors| - 1];
      ReadingsAt(init);
      assert forall i :: 0 <= i < |init| ==> sensors[i] == init[i];
    }
  }

  /** On a room of comfort sensors averageComfort succeeds with the mean
      level, which lies in [0, 100]. */
  lemma AverageComfortOfComfortRoom(r: RoomView)
    requires ComfortRoom(r)
    ensures AverageComfort(r) == Success(Comfort(r))
    ensures 0.0 <= Comfort(r) <= 100.0
  {
    var ls := Readings(r.sensors);
    ReadingsAt(r.sensors);
    LevelsOfSensors(r.sensors);
    assert forall i :: 0 <= i < |r.sensors| ==> r.sensors[i] != NonComfortSensor;
    assert Levels(r.sensors).value == ls;
    if ls != [] {
      MeanBounds(ls, 0, 100);
    }
  }

  /** averageComfort, summed sensor by sensor. */
  method AverageComfortOf(room: RoomView) returns (r: Result<real, Fault>)
    ensures r == AverageComfort(room)
  {
    var numSensors := |room.sensors|;
    var totalComfort := 0.0;
    if numSensors == 0 {
      return Success(0.0);
    }
    for i := 0 to numSensors
      invariant Levels(room.sensors[..i]).Some?
      invariant totalComfort == Sum(Levels(room.sensors[..i]).value) as real
    {
      assert room.sensors[..i + 1][..i] == room.sensors[..i];
      match room.sensors[i]
      case NonComfortSensor =>
        LevelsOfSensors(room.sensors);
        assert NonComfortSensor in room.sensors;
        return Failure(NotComfortSensor);
      case ComfortReading(level) =>
        ghost var ls := Levels(room.sensors[..i]).value;
        assert Levels(room.sensors[..i + 1]).value == ls + [level];
        assert (ls + [level])[..|ls|] == ls;
        totalComfort := totalComfort + level as real;
    }
    assert room.sensors[..numSensors] == room.sensors;
    return Success(totalComfort / numSensors as real);
  }

  /** The comfort list bestComfort builds: each room's average comfort, in
      list order; the fault of the first room whose average fails. */
  function Comforts(list: seq<RoomView>): (r: Result<seq<real>, Fault>)
    ensures r.Success? ==> |r.value| == |list|
    ensures r.Failure? ==> r.error == NotComfortSensor
  {
    if list == [] then Success([])
    else
      var init := list[..|list| - 1];
      var cs :- Comforts(init);
      var c :- AverageComfort(list[|list| - 1]);
      Success(cs + [c])
  }

  /** The comfort list holds each room's average comfort, and fails exactly
      when some room's average fails. */
  lemma {:induction false} ComfortsOfRooms(list: seq<RoomView>)
    ensures Comforts(list).Success? ==>
      forall i :: 0 <= i < |list| ==> AverageComfort(list[i]) == Success(Comforts(list).value[i])
    ensures Comforts(list).Failure? <==> exists i :: 0 <= i < |list| && AverageComfort(list[i]).Failure?
  {
    if list != [] {
      var init := list[..|list| - 1];
      ComfortsOfRooms(init);
      assert forall i :: 0 <= i < |init| ==> list[i] == init[i];
    }
  }

  /** averageComfort fails exactly on a room with a sensor that is not a
      comfort sensor. */
  lemma AverageComfortFailure(r: RoomView)
    ensures AverageComfort(r).Failure? <==> NonComfortSensor in r.sensors
  {
    LevelsOfSensors(r.sensors);
  }

  /** Collections.max of a non-empty list. */
  function Max(xs: seq<real>): (m: real)
    requires |xs| > 0
    ensures m in xs
    ensures forall j :: 0 <= j < |xs| ==> xs[j] <= m
  {
    if |xs| == 1 then xs[0]
    else
      var m := Max(xs[..|xs| - 1]);
      assert xs == xs[..|xs| - 1] + [xs[|xs| - 1]];
      if xs[|xs| - 1] > m then xs[|xs| - 1] else m
  }

  /** The first position of a greatest element, scanning left to right and
      moving only to a strictly greater element. */
  function FirstMax(xs: seq<real>): (i: nat)
    requires |xs| > 0
    ensures i < |xs|
  {
    if |xs| == 1 then 0
    else
      var k := FirstMax(xs[..|xs| - 1]);
      if xs[k] < xs[|xs| - 1] then |xs| - 1 else k
  }

  /** FirstMax is a greatest element, and every element before it is
      strictly smaller. */
  lemma {:induction false} FirstMaxIsFirstGreatest(xs: seq<real>)
    requires |xs| > 0
    ensures forall j :: 0 <= j < |xs| ==> xs[j] <= xs[FirstMax(xs)]
    ensures forall j :: 0 <= j < FirstMax(xs) ==> xs[j] < xs[FirstMax(xs)]
  {
    if |xs| > 1 {
      var init := xs[..|xs| - 1];
      FirstMaxIsFirstGreatest(init);
      assert forall j :: 0 <= j < |init| ==> xs[j] == init[j];
    }
  }

  /** A first position of a greatest element is FirstMax. */
  lemma FirstMaxUnique(xs: seq<real>, i: nat)
    requires i < |xs|
    requires forall j :: 0 <= j < |xs| ==> xs[j] <= xs[i]
    requires forall j :: 0 <= j < i ==> xs[j] < xs[i]
    ensures FirstMax(xs) == i
  {
    FirstMaxIsFirstGreatest(xs);
  }

  /** comfortLevel.indexOf(Collections.max(comfortLevel)) is FirstMax. */
  lemma IndexOfMax(xs: seq<real>)
    requires |xs| > 0
    ensures IndexOf(xs, Max(xs)) == Some(FirstMax(xs))
  {
    var m := Max(xs);
    var i := IndexOf(xs, m).value;
    assert xs[i] == m && m !in xs[..i];
    forall j | 0 <= j < i ensures xs[j] < m {
      assert xs[..i][j] == xs[j];
      assert xs[j] != m && xs[j] <= m;
    }
    FirstMaxUnique(xs, i);
  }

  /** Appending an element moves the first maximum to it exactly when it is
      strictly greater. */
  lemma FirstMaxSnoc(xs: seq<real>, x: real)
    requires |xs| > 0
    ensures FirstMax(xs + [x]) == if xs[FirstMax(xs)] < x then |xs| else FirstMax(xs)
  {
    assert (xs + [x])[..|xs|] == xs;
  }

  /** The position bestComfort picks in a non-empty list: the first when the
      list has one room or the comforts add up to 0, otherwise the first
      maximum of the comfort list. */
  function BestIndex(list: seq<RoomView>): (r: Result<nat, Fault>)
    requires |list| > 0
    ensures r.Success? ==> r.value < |list|
    ensures |list| == 1 ==> r == Success(0)
  {
    if |list| == 1 then Success(0)
    else
      var cs :- Comforts(list);
      if SumReal(cs) == 0.0 then Success(0) else Success(FirstMax(cs))
  }

  /** bestComfort. */
  function BestOf(list: seq<RoomView>): Result<RoomView, Fault>
    requires |list| > 0
  {
    var i :- BestIndex(list);
    Success(list[i])
  }

  /** A sum of non-negative reals is 0 only when every one of them is. */
  lemma {:induction false} SumRealZero(xs: seq<real>)
    requires forall i :: 0 <= i < |xs| ==> xs[i] >= 0.0
    requires SumReal(xs) == 0.0
    ensures forall i :: 0 <= i < |xs| ==> xs[i] == 0.0
  {
    if xs != [] {
      var init := xs[..|xs| - 1];
      assert SumReal(init) >= 0.0 by { SumRealNonNegative(init); }
      SumRealZero(init);
      forall i | 0 <= i < |xs| ensures xs[i] == 0.0 {
        if i < |xs| - 1 { assert xs[i] == init[i]; }
      }
    }
  }

  lemma {:induction false} SumRealNonNegative(xs: seq<real>)
    requires forall i :: 0 <= i < |xs| ==> xs[i] >= 0.0
    ensures SumReal(xs) >= 0.0
  {
    if xs != [] {
      SumRealNonNegative(xs[..|xs| - 1]);
    }
  }

  /** The comforts of the rooms, in list order. */
  function ComfortsOf(list: seq<RoomView>): (cs: seq<real>)
    ensures |cs| == |list|
  {
    if list == [] then [] else ComfortsOf(list[..|list| - 1]) + [Comfort(list[|list| - 1])]
  }

  lemma {:induction false} ComfortsOfAt(list: seq<RoomView>)
    ensures forall i :: 0 <= i < |list| ==> ComfortsOf(list)[i] == Comfort(list[i])
  {
    if list != [] {
      var init := list[..|list| - 1];
      ComfortsOfAt(init);
      assert forall i :: 0 <= i < |init| ==> list[i] == init[i];
    }
  }

  /** On rooms of comfort sensors bestComfort is the first room of greatest
      comfort: the one-room and zero-total shortcuts agree with it. */
  lemma BestIsFirstMax(list: seq<RoomView>)
    requires |list| > 0
    requires ComfortRooms(list)
    ensures Comforts(list) == Success(ComfortsOf(list))
    ensures BestIndex(list) == Success(FirstMax(ComfortsOf(list)))
  {
    var cs := ComfortsOf(list);
    ComfortsOfAt(list);
    ComfortsOfRooms(list);
    forall i | 0 <= i < |list|
      ensures AverageComfort(list[i]) == Success(cs[i]) && 0.0 <= cs[i]
    {
      AverageComfortOfComfortRoom(list[i]);
    }
    assert Comforts(list).value == cs;
    if |list| == 1 {
      FirstMaxUnique(cs, 0);
    } else if SumReal(cs) == 0.0 {
      SumRealZero(cs);
      FirstMaxUnique(cs, 0);
    }
  }

  /** bestComfort, with the comfort list and its total built by loops. */
  method BestComfort(roomList: seq<RoomView>) returns (r: Result<RoomView, Fault>)
    requires |roomList| > 0
    ensures r == BestOf(roomList)
  {
    if |roomList| == 1 {
      return Success(roomList[0]);
    }
    var comfortLevel := ComfortLevels(roomList);
    if comfortLevel.Failure? {
      return Failure(comfortLevel.error);
    }
    var totalComfort := Total(comfortLevel.value);
    if totalComfort == 0.0 {
      return Success(roomList[0]);
    }
    var maxPos := IndexOf(comfortLevel.value, Max(comfortLevel.value)).value;
    IndexOfMax(comfortLevel.value);
    return Success(roomList[maxPos]);
  }

  /** The first loop of bestComfort: the average comfort of each room. */
  method ComfortLevels(roomList: seq<RoomView>) returns (r: Result<seq<real>, Fault>)
    ensures r == Comforts(roomList)
  {
    var comfortLevel := [];
    for i := 0 to |roomList|
      invariant Comforts(roomList[..i]) == Success(comfortLevel)
    {
      assert roomList[..i + 1][..i] == roomList[..i];
      var c := AverageComfortOf(roomList[i]);
      if c.Failure? {
        ComfortsOfRooms(roomList);
        assert AverageComfort(roomList[i]).Failure?;
        return Failure(NotComfortSensor);
      }
      comfortLevel := comfortLevel + [c.value];
    }
    assert roomList[..|roomList|] == roomList;
    return Success(comfortLevel);
  }

  /** The second loop of bestComfort: the comforts added up. */
  method Total(comfortLevel: seq<real>) returns (total: real)
    ensures total == SumReal(comfortLevel)
  {
    total := 0.0;
    for i := 0 to |comfortLevel|
      invariant total == SumReal(comfortLevel[..i])
    {
      SumRealStep(comfortLevel, i);
      total := total + comfortLevel[i];
    }
    assert comfortLevel[..|comfortLevel|] == comfortLevel;
  }

  /** What checkTotalNumRoom answers: some floor has a room. */
  predicate HasRooms(floors: seq<seq<RoomView>>)
  {
    exists k :: 0 <= k < |floors| && floors[k] != []
  }

  /** checkTotalNumRoom: the room counts of the floors added up, compared
      with 0. */
  method CheckTotalNumRoom(floors: seq<seq<RoomView>>) returns (found: bool)
    ensures found == HasRooms(floors)
  {
    var numRoom := 0;
    for i := 0 to |floors|
      invariant numRoom >= 0
      invariant numRoom == 0 <==> forall k :: 0 <= k < i ==> floors[k] == []
    {
      numRoom := numRoom + |floors[i]|;
    }
    return numRoom != 0;
  }

  /** The climb of recommendStudyRoom from the floor at position `k`
      (floor number k + 1) with recommendation `rec` so far: it stops at the
      top or at a floor without candidates, it needs a recommendation to
      compare with, and it moves to a floor's best room only when that is
      strictly more comfortable. */
  function Climb(floors: seq<seq<RoomView>>, k: nat, rec: Option<RoomView>): Result<Option<RoomView>, Fault>
    requires 1 <= k <= |floors|
    decreases |floors| - k, 1
  {
    if k == |floors| then Success(rec) else FloorStep(floors, k, rec)
  }

  /** The climb at floor position `k`: a floor without candidates ends it
      with `rec`; otherwise there must be a recommendation to compare the
      floor's best candidate with, and the winner goes on up. */
  function FloorStep(floors: seq<seq<RoomView>>, k: nat, rec: Option<RoomView>): Result<Option<RoomView>, Fault>
    requires 1 <= k < |floors|
    decreases |floors| - k, 0
  {
    var c := Candidates(floors[k]);
    if c == [] then Success(rec)
    else if rec.None? then Failure(NullRoom)
    else
      var next :- Compare(rec.value, c);
      Climb(floors, k + 1, Some(next))
  }

  /** The comparison of the climb: the recommendation so far against the
      best candidate of the floor, in the order Java evaluates them; the
      floor's room wins only when strictly more comfortable. */
  function Compare(rec: RoomView, c: seq<RoomView>): Result<RoomView, Fault>
    requires c != []
  {
    var a :- AverageComfort(rec);
    var b :- BestOf(c);
    var bc :- AverageComfort(b);
    Success(if a < bc then b else rec)
  }

  /** The comparison, as recommendStudyRoom computes it. */
  method CompareRooms(rec: RoomView, c: seq<RoomView>) returns (r: Result<RoomView, Fault>)
    requires c != []
    ensures r == Compare(rec, c)
  {
    var a := AverageComfortOf(rec);
    if a.Failure? {
      return Failure(a.error);
    }
    var b := BestComfort(c);
    if b.Failure? {
      return Failure(b.error);
    }
    var bc := AverageComfortOf(b.value);
    if bc.Failure? {
      return Failure(bc.error);
    }
    return Success(if a.value < bc.value then b.value else rec);
  }

  /** recommendStudyRoom: no room at all gives null; a second floor without
      candidates over a first floor with some gives the first floor's best
      room; otherwise the climb starts with the first floor's best room, or
      with null when the first floor has no candidate. */
  function Recommendation(floors: seq<seq<RoomView>>): Result<Option<RoomView>, Fault>
  {
    if !HasRooms(floors) then Success(None)
    else
      var first := Candidates(floors[0]);
      if |floors| > 1 && Candidates(floors[1]) == [] && first != [] then
        var b :- BestOf(first);
        Success(Some(b))
      else if first == [] then Climb(floors, 1, None)
      else
        var b :- BestOf(first);
        Climb(floors, 1, Some(b))
  }

  /** One floor of the climb: either the climb stops with `out`, or it goes
      on to the next floor with `next`. */
  method ClimbFloor(floors: seq<seq<RoomView>>, k: nat, rec: Option<RoomView>)
    returns (stop: bool, out: Result<Option<RoomView>, Fault>, next: Option<RoomView>)
    requires 1 <= k < |floors|
    ensures stop ==> out == Climb(floors, k, rec)
    ensures !stop ==> next.Some? && Climb(floors, k + 1, next) == Climb(floors, k, rec)
  {
    var c := FindStudyRoom(floors[k]);
    if c == [] {
      return true, Success(rec), rec;
    }
    if rec.None? {
      return true, Failure(NullRoom), rec;
    }
    var better := CompareRooms(rec.value, c);
    if better.Failure? {
      return true, Failure(better.error), rec;
    }
    return false, Success(None), Some(better.value);
  }

  /** recommendStudyRoom. */
  method RecommendStudyRoom(floors: seq<seq<RoomView>>) returns (r: Result<Option<RoomView>, Fault>)
    ensures r == Recommendation(floors)
  {
    var recommendedRoom: Option<RoomView> := None;
    var numFloors := |floors|;
    var found := CheckTotalNumRoom(floors);
    if !found {
      return Success(None);
    }
    var first := FindStudyRoom(floors[0]);
    if numFloors > 1 {
      var second := FindStudyRoom(floors[1]);
      if second == [] && first != [] {
        var b := BestComfort(first);
        if b.Failure? {
          return Failure(b.error);
        }
        return Success(Some(b.value));
      }
    }
    if first != [] {
      var b := BestComfort(first);
      if b.Failure? {
        return Failure(b.error);
      }
      recommendedRoom := Some(b.value);
    }
    for k := 1 to numFloors
      invariant Climb(floors, k, recommendedRoom) == Recommendation(floors)
    {
      var stop, out, next := ClimbFloor(floors, k, recommendedRoom);
      if stop {
        return out;
      }
      recommendedRoom := next;
    }
    return Success(recommendedRoom);
  }

  // The climb described floor by floor, for buildings whose sensors are all
  // comfort sensors.

  /** How many floors, from the first one up, have a candidate: the climb
      never looks past them. */
  function CandidateRun(floors: seq<seq<RoomView>>): (m: nat)
    ensures m <= |floors|
    ensures forall k {:trigger Candidates(floors[k])} :: 0 <= k < m ==> Candidates(floors[k]) != []
    ensures m < |floors| ==> Candidates(floors[m]) == []
  {
    CandidateRunFrom(floors, 0)
  }

  /** The first floor position from i up without a candidate, or the top. */
  function CandidateRunFrom(floors: seq<seq<RoomView>>, i: nat): (m: nat)
    requires i <= |floors|
    ensures i <= m <= |floors|
    ensures forall k {:trigger Candidates(floors[k])} :: i <= k < m ==> Candidates(floors[k]) != []
    ensures m < |floors| ==> Candidates(floors[m]) == []
    decreases |floors| - i
  {
    if i == |floors| || Candidates(floors[i]) == [] then i else CandidateRunFrom(floors, i + 1)
  }

  /** Every sensor of every room is a comfort sensor. */
  predicate ComfortBuilding(floors: seq<seq<RoomView>>)
  {
    forall k {:trigger ComfortRooms(floors[k])} :: 0 <= k < |floors| ==> ComfortRooms(floors[k])
  }

  /** The best candidate of a floor: its first candidate of greatest
      comfort. */
  function Pick(rooms: seq<RoomView>): (r: RoomView)
    requires Candidates(rooms) != []
  {
    var c := Candidates(rooms);
    c[FirstMax(ComfortsOf(c))]
  }

  /** The best candidate is an open study room of the floor, and no
      candidate is more comfortable. */
  lemma PickIsBest(rooms: seq<RoomView>)
    requires Candidates(rooms) != []
    ensures Pick(rooms) in rooms && IsCandidate(Pick(rooms))
    ensures forall x :: x in rooms && IsCandidate(x) ==> Comfort(x) <= Comfort(Pick(rooms))
  {
    CandidatesMembers(rooms);
    var c := Candidates(rooms);
    var cs := ComfortsOf(c);
    ComfortsOfAt(c);
    FirstMaxIsFirstGreatest(cs);
    forall x | x in rooms && IsCandidate(x) ensures Comfort(x) <= Comfort(Pick(rooms)) {
      assert x in c;
      var j :| 0 <= j < |c| && c[j] == x;
      assert cs[j] == Comfort(x);
    }
  }

  /** The comfort of each of the first k floors' best candidate. */
  function BestComforts(floors: seq<seq<RoomView>>, k: nat): (fc: seq<real>)
    requires k <= CandidateRun(floors)
    ensures |fc| == k
  {
    if k == 0 then [] else BestComforts(floors, k - 1) + [Comfort(Pick(floors[k - 1]))]
  }

  lemma {:induction false} BestComfortsAt(floors: seq<seq<RoomView>>, k: nat)
    requires k <= CandidateRun(floors)
    ensures forall i :: 0 <= i < k ==> BestComforts(floors, k)[i] == Comfort(Pick(floors[i]))
  {
    if k > 0 {
      BestComfortsAt(floors, k - 1);
    }
  }

  /** The comfort of each floor's best candidate, over the floors the climb
      can reach. */
  function RunComforts(floors: seq<seq<RoomView>>): (fc: seq<real>)
    ensures |fc| == CandidateRun(floors)
  {
    BestComforts(floors, CandidateRun(floors))
  }

  /** The floor the climb settles on: the lowest of the reachable floors
      whose best candidate is most comfortable. */
  function ChosenFloor(floors: seq<seq<RoomView>>): (j: nat)
    requires |floors| > 0 && Candidates(floors[0]) != []
    ensures j < CandidateRun(floors)
  {
    FirstMax(RunComforts(floors))
  }

  /** Every floor below the chosen one has a strictly less comfortable best
      candidate, and no reachable floor a more comfortable one. */
  lemma ChosenFloorIsFirstGreatest(floors: seq<seq<RoomView>>)
    requires |floors| > 0 && Candidates(floors[0]) != []
    ensures forall k :: 0 <= k < ChosenFloor(floors) ==>
      Comfort(Pick(floors[k])) < Comfort(Pick(floors[ChosenFloor(floors)]))
    ensures forall k :: 0 <= k < CandidateRun(floors) ==>
      Comfort(Pick(floors[k])) <= Comfort(Pick(floors[ChosenFloor(floors)]))
  {
    FirstMaxIsFirstGreatest(RunComforts(floors));
    BestComfortsAt(floors, CandidateRun(floors));
  }

  /** On comfort sensors, the comparison of the climb moves to the floor's
      best candidate exactly when that is strictly more comfortable. */
  lemma CompareByComfort(rec: RoomView, rooms: seq<RoomView>)
    requires ComfortRoom(rec) && ComfortRooms(rooms) && Candidates(rooms) != []
    ensures Compare(rec, Candidates(rooms)) ==
      Success(if Comfort(rec) < Comfort(Pick(rooms)) then Pick(rooms) else rec)
  {
    AverageComfortOfComfortRoom(rec);
    CandidatesMembers(rooms);
    PickIsBest(rooms);
    BestIsFirstMax(Candidates(rooms));
    AverageComfortOfComfortRoom(Pick(rooms));
  }

  /** The best candidate of each of the first n floors. */
  function Bests(floors: seq<seq<RoomView>>, n: nat): (bs: seq<RoomView>)
    requires n <= CandidateRun(floors)
    ensures |bs| == n
  {
    if n == 0 then [] else Bests(floors, n - 1) + [Pick(floors[n - 1])]
  }

  lemma {:induction false} BestsAt(floors: seq<seq<RoomView>>, n: nat)
    requires n <= CandidateRun(floors)
    ensures forall i :: 0 <= i < n ==> Bests(floors, n)[i] == Pick(floors[i])
  {
    if n > 0 {
      BestsAt(floors, n - 1);
    }
  }

  /** The position the climb holds at the top when it holds position j on
      reaching position k: position k takes over exactly when its comfort
      is strictly greater. */
  function CarryAt(cs: seq<real>, k: nat, j: nat): (i: nat)
    requires j < k <= |cs|
    ensures i < |cs|
    decreases |cs| - k
  {
    if k == |cs| then j else CarryAt(cs, k + 1, if cs[j] < cs[k] then k else j)
  }

  /** Holding the first maximum of the first k comforts and carrying on to
      the top gives the first maximum of all of them. */
  lemma {:induction false} CarryFirstMax(cs: seq<real>, k: nat)
    requires 1 <= k <= |cs|
    ensures CarryAt(cs, k, FirstMax(cs[..k])) == FirstMax(cs)
    decreases |cs| - k
  {
    var j := FirstMax(cs[..k]);
    if k < |cs| {
      assert cs[..k + 1] == cs[..k] + [cs[k]];
      FirstMaxSnoc(cs[..k], cs[k]);
      assert cs[..k][j] == cs[j];
      CarryFirstMax(cs, k + 1);
    } else {
      assert cs[..k] == cs;
    }
  }

  /** Each comparison the climb makes within the run, a floor's best
      candidate held against the candidates of a higher floor, keeps the
      strictly more comfortable of the two best candidates. */
  predicate ComparesByComfort(floors: seq<seq<RoomView>>, bs: seq<RoomView>, cs: seq<real>)
  {
    && |bs| == |cs| == CandidateRun(floors)
    && forall j, k {:trigger Compare(bs[j], Candidates(floors[k]))} :: 0 <= j < k < |bs| ==>
      Compare(bs[j], Candidates(floors[k])) == Success(if cs[j] < cs[k] then bs[k] else bs[j])
  }

  /** On comfort sensors the comparisons go by comfort. */
  lemma ComfortBuildingCompares(floors: seq<seq<RoomView>>)
    requires ComfortBuilding(floors)
    ensures ComparesByComfort(floors, Bests(floors, CandidateRun(floors)), RunComforts(floors))
  {
    var m := CandidateRun(floors);
    var bs := Bests(floors, m);
    var cs := RunComforts(floors);
    BestsAt(floors, m);
    BestComfortsAt(floors, m);
    forall j, k | 0 <= j < k < m
      ensures Compare(bs[j], Candidates(floors[k])) == Success(if cs[j] < cs[k] then bs[k] else bs[j])
    {
      assert ComfortRooms(floors[j]) && ComfortRooms(floors[k]);
      assert Candidates(floors[j]) != [] && Candidates(floors[k]) != [];
      PickIsBest(floors[j]);
      CompareByComfort(Pick(floors[j]), floors[k]);
    }
  }

  /** The climb from position k within the run, holding the best candidate
      of floor j below it, ends with the best candidate of the floor Carry
      reaches. */
  lemma ClimbCarries(floors: seq<seq<RoomView>>, bs: seq<RoomView>, cs: seq<real>, k: nat, j: nat)
    requires ComparesByComfort(floors, bs, cs)
    requires j < k <= |bs|
    ensures Climb(floors, k, Some(bs[j])) == Success(Some(bs[CarryAt(cs, k, j)]))
  {
    var step := (k': nat, j': nat) =>
      if 1 <= k' <= |floors| && j' < |bs| then Climb(floors, k', Some(bs[j'])) else Failure(NullRoom);
    var top := (j': nat) => if j' < |bs| then Success(Some(bs[j'])) else Failure(NullRoom);
    forall j', k' | 0 <= j' < k' < |cs|
      ensures step(k', j') == step(k' + 1, if cs[j'] < cs[k'] then k' else j')
    {
      ClimbStepInRun(floors, bs, cs, k', j');
    }
    forall j' | 0 <= j' < |cs|
      ensures step(|cs|, j') == top(j')
    {
      ClimbEnd(floors, |cs|, Some(bs[j']));
    }
    CarryChain(step, top, cs, k, j);
  }

  /** Any climb that from position k holding j hands on what CarryAt
      selects, and stops at the top with what it holds, ends with the
      position CarryAt reaches. */
  lemma {:induction false} CarryChain<R>(step: (nat, nat) -> R, top: nat -> R, cs: seq<real>, k: nat, j: nat)
    requires forall j', k' :: 0 <= j' < k' < |cs| ==> step(k', j') == step(k' + 1, if cs[j'] < cs[k'] then k' else j')
    requires forall j' :: 0 <= j' < |cs| ==> step(|cs|, j') == top(j')
    requires j < k <= |cs|
    ensures step(k, j) == top(CarryAt(cs, k, j))
    decreases |cs| - k
  {
    if k < |cs| {
      CarryChain(step, top, cs, k + 1, if cs[j] < cs[k] then k else j);
    }
  }

  /** One step of the climb inside the run: floor k hands on the more
      comfortable of its best candidate and the one held. */
  lemma ClimbStepInRun(floors: seq<seq<RoomView>>, bs: seq<RoomView>, cs: seq<real>, k: nat, j: nat)
    requires ComparesByComfort(floors, bs, cs)
    requires j < k < |bs|
    ensures Climb(floors, k, Some(bs[j])) == Climb(floors, k + 1, Some(bs[if cs[j] < cs[k] then k else j]))
  {
    assert Candidates(floors[k]) != [];
    ClimbOnce(floors, k, bs[j], bs[if cs[j] < cs[k] then k else j]);
  }

  /** A floor with candidates passes the climb on with the comparison's
      winner. */
  lemma ClimbOnce(floors: seq<seq<RoomView>>, k: nat, rec: RoomView, next: RoomView)
    requires 1 <= k < |floors| && Candidates(floors[k]) != []
    requires Compare(rec, Candidates(floors[k])) == Success(next)
    ensures Climb(floors, k, Some(rec)) == Climb(floors, k + 1, Some(next))
  {
  }

  /** recommendStudyRoom on a building of comfort sensors whose first floor
      has a candidate: the best candidate of the chosen floor. */
  lemma RecommendationOfComfortBuilding(floors: seq<seq<RoomView>>)
    requires ComfortBuilding(floors)
    requires |floors| > 0 && Candidates(floors[0]) != []
    ensures Recommendation(floors) == Success(Some(Pick(floors[ChosenFloor(floors)])))
  {
    assert HasRooms(floors);
    assert ComfortRooms(floors[0]);
    CandidatesMembers(floors[0]);
    BestIsFirstMax(Candidates(floors[0]));
    var m := CandidateRun(floors);
    var bs := Bests(floors, m);
    var cs := RunComforts(floors);
    BestsAt(floors, m);
    RecommendationStart(floors, bs[0]);
    ComfortBuildingCompares(floors);
    ClimbCarries(floors, bs, cs, 1, 0);
    assert FirstMax(cs[..1]) == 0;
    CarryFirstMax(cs, 1);
  }

  /** Once the first floor's best candidate b is known, the answer is the
      climb from the second floor holding b. */
  lemma RecommendationStart(floors: seq<seq<RoomView>>, b: RoomView)
    requires HasRooms(floors) && Candidates(floors[0]) != []
    requires BestOf(Candidates(floors[0])) == Success(b)
    ensures Recommendation(floors) == Climb(floors, 1, Some(b))
  {
    if |floors| == 1 || Candidates(floors[1]) == [] {
      ClimbEnd(floors, 1, Some(b));
    }
  }

  /** The climb ends, with what it holds, at the top or at a floor without
      candidates. */
  lemma ClimbEnd(floors: seq<seq<RoomView>>, k: nat, rec: Option<RoomView>)
    requires 1 <= k <= |floors|
    requires k == |floors| || Candidates(floors[k]) == []
    ensures Climb(floors, k, rec) == Success(rec)
  {
  }

  /** Below the top the climb is the step at that floor. */
  lemma ClimbUnfold(floors: seq<seq<RoomView>>, k: nat, rec: Option<RoomView>)
    requires 1 <= k < |floors|
    ensures Climb(floors, k, rec) == FloorStep(floors, k, rec)
  {
  }

  /** The room a comparison keeps is the one held or one of the floor's. */
  lemma CompareWinner(rec: RoomView, c: seq<RoomView>)
    requires c != []
    ensures Compare(rec, c).Success? ==> Compare(rec, c).value == rec || Compare(rec, c).value in c
  {
    var b := BestOf(c);
    if b.Success? {
      var i := BestIndex(c).value;
      assert b.value == c[i];
    }
  }

  /** Without a candidate on the first floor the building is avoided: the
      answer is null, unless the second floor has a candidate, on which the
      comparison with the null recommendation fails. */
  lemma FirstFloorWithoutCandidates(floors: seq<seq<RoomView>>)
    requires |floors| == 0 || Candidates(floors[0]) == []
    ensures Recommendation(floors) ==
      if |floors| >= 2 && Candidates(floors[1]) != [] then Failure(NullRoom) else Success(None)
  {
    if |floors| >= 2 {
      if Candidates(floors[1]) != [] {
        assert HasRooms(floors) by { assert floors[1] != []; }
        ClimbUnfold(floors, 1, None);
      } else {
        ClimbEnd(floors, 1, None);
      }
    }
  }

  /** The recommendation so far is a candidate of a floor below k within
      the reachable run. */
  predicate HeldBelow(floors: seq<seq<RoomView>>, k: nat, r: RoomView)
  {
    k <= CandidateRun(floors) && exists j :: 0 <= j < k && j < |floors| && r in Candidates(floors[j])
  }

  lemma {:induction false} ClimbKeepsCandidate(floors: seq<seq<RoomView>>, k: nat, rec: Option<RoomView>)
    requires 1 <= k <= |floors|
    requires rec.Some? ==> HeldBelow(floors, k, rec.value)
    ensures Climb(floors, k, rec).Success? && Climb(floors, k, rec).value.Some? ==>
      HeldBelow(floors, CandidateRun(floors), Climb(floors, k, rec).value.value)
    decreases |floors| - k
  {
    if k == |floors| || Candidates(floors[k]) == [] {
      ClimbEnd(floors, k, rec);
      if rec.Some? {
        assert k == CandidateRun(floors);
      }
    } else if rec.None? {
      ClimbUnfold(floors, k, rec);
    } else {
      ClimbUnfold(floors, k, rec);
      var next := Compare(rec.value, Candidates(floors[k]));
      if next.Success? {
        CandidateStep(floors, k, rec.value, next.value);
        ClimbOnce(floors, k, rec.value, next.value);
        ClimbKeepsCandidate(floors, k + 1, Some(next.value));
      }
    }
  }

  /** A floor that passes the climb on hands over a candidate held below the
      next floor. */
  lemma CandidateStep(floors: seq<seq<RoomView>>, k: nat, rec: RoomView, next: RoomView)
    requires 1 <= k < |floors|
    requires HeldBelow(floors, k, rec)
    requires Candidates(floors[k]) != []
    requires Compare(rec, Candidates(floors[k])) == Success(next)
    ensures HeldBelow(floors, k + 1, next)
  {
    var c := Candidates(floors[k]);
    CompareWinner(rec, c);
    var j :| 0 <= j < k && j < |floors| && rec in Candidates(floors[j]);
    if next in c {
      assert 0 <= k < k + 1 && next in Candidates(floors[k]);
    } else {
      assert 0 <= j < k + 1 && next in Candidates(floors[j]);
    }
  }

  /** A room recommendStudyRoom returns is an open study room on one of the
      floors the climb reaches. */
  lemma RecommendationIsCandidate(floors: seq<seq<RoomView>>)
    ensures Recommendation(floors).Success? && Recommendation(floors).value.Some? ==>
      HeldBelow(floors, CandidateRun(floors), Recommendation(floors).value.value)
  {
    if HasRooms(floors) {
      var first := Candidates(floors[0]);
      if first == [] {
        ClimbKeepsCandidate(floors, 1, None);
      } else {
        var b := BestOf(first);
        if b.Success? {
          assert HeldBelow(floors, 1, b.value);
          if |floors| > 1 && Candidates(floors[1]) == [] {
          } else {
            ClimbKeepsCandidate(floors, 1, Some(b.value));
          }
        }
      }
    }
  }

  /** The climb only sees the floors below k when floor position k stops it. */
  lemma {:induction false} ClimbPrefix(floors: seq<seq<RoomView>>, k: nat, j: nat, rec: Option<RoomView>)
    requires 1 <= j <= k < |floors| && Candidates(floors[k]) == []
    ensures Climb(floors, j, rec) == Climb(floors[..k], j, rec)
    decreases k - j
  {
    if j == k {
      ClimbEnd(floors, k, rec);
      ClimbEnd(floors[..k], k, rec);
    } else {
      assert floors[..k][j] == floors[j];
      var c := Candidates(floors[j]);
      if c != [] && rec.Some? {
        var next := Compare(rec.value, c);
        if next.Success? {
          ClimbOnce(floors, j, rec.value, next.value);
          ClimbOnce(floors[..k], j, rec.value, next.value);
          ClimbPrefix(floors, k, j + 1, Some(next.value));
        }
      }
    }
  }

  /** Climbing stops at the first floor above the first without candidates:
      the floors from there up never change the answer. */
  lemma StopsAtFloorWithoutCandidates(floors: seq<seq<RoomView>>, k: nat)
    requires 1 <= k < |floors| && Candidates(floors[k]) == []
    ensures Recommendation(floors) == Recommendation(floors[..k])
  {
    var low := floors[..k];
    assert low[0] == floors[0];
    if k > 1 {
      assert low[1] == floors[1];
    }
    if HasRooms(low) {
      var i :| 0 <= i < |low| && low[i] != [];
      assert floors[i] != [];
      ClimbPrefix(floors, k, 1, None);
      var first := Candidates(floors[0]);
      if first != [] && BestOf(first).Success? {
        ClimbPrefix(floors, k, 1, Some(BestOf(first).value));
      }
    } else {
      assert low[0] == [];
      if k > 1 {
        assert low[1] == [];
      }
      ClimbEnd(floors, 1, None);
    }
  }
}
