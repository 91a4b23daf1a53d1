/** What a file that loads is known to satisfy: every room, floor and
    building the loader builds keeps the invariants Room.addSensor,
    Floor.addRoom, Floor.createMaintenanceSchedule and Building.addFloor
    enforce one call at a time; and the ways a file is rejected. */
module LoaderFacts {
  import opened Wrappers
  import opened Collections
  import opened Text
  import opened Rooms
  import opened Sensors
  import opened Loader
  import HazardEvaluation
  import Floors
  import Buildings
  import Steps
  import Maintenance

  // ---------------------------------------------------------------------
  // Rooms

  /** The sensor lines read so far in a room of evaluator `mode`: no sensor
      kind twice, every sensor accepted by its constructor, and a weight
      exactly in a weighting-based room. */
  predicate EntriesFit(mode: EvaluatorMode, es: seq<SensorEntry>)
  {
    && Distinct(Kinds(es))
    && forall i :: 0 <= i < |es| ==> Constructed(es[i].sensor) && (es[i].weight.Some? <==> mode == WeightingBasedMode)
  }

  /** A room as loaded: a number and an area the header checks allow, no
      two sensors of one kind, every sensor accepted by its constructor, and
      weights, if any, that the WeightingBasedHazardEvaluator constructor
      accepts, one per sensor. */
  predicate RoomWellFormed(r: RoomRecord)
  {
    && r.number >= 0 && r.area >= MinArea
    && Distinct(SensorKindsOf(r.sensors))
    && (forall i :: 0 <= i < |r.sensors| ==> Constructed(r.sensors[i]))
    && (r.evaluator.Some? && r.evaluator.value.WeightingBased? ==>
          |r.evaluator.value.weights| == |r.sensors| && HazardEvaluation.ValidWeights(r.evaluator.value.weights))
  }

  /** A sensor line the room takes keeps its sensor lines fitting. */
  lemma SensorStepKeeps(lines: seq<string>, mode: EvaluatorMode, st: SensorProgress)
    requires EntriesFit(mode, st.0)
    requires NextSensor(lines, mode, st).Success?
    ensures EntriesFit(mode, NextSensor(lines, mode, st).value.0)
  {
    var e := SensorLine(lines[st.1], mode);
    var es := st.0 + [e.value];
    assert Kinds(es) == Kinds(st.0) + [e.value.sensor.Kind()];
    DistinctSnoc(Kinds(st.0), e.value.sensor.Kind());
  }

  /** The sensor lines of a room that has read them all fit. */
  lemma SensorsFromFit(lines: seq<string>, pos: nat, k: nat, mode: EvaluatorMode)
    ensures SensorsFrom(lines, pos, k, mode).Success? ==> EntriesFit(mode, SensorsFrom(lines, pos, k, mode).value.0)
  {
    var step := SensorStep(lines, mode);
    var inv := (st: SensorProgress) => EntriesFit(mode, st.0);
    forall st | inv(st) && step(st).Success?
      ensures inv(step(st).value)
    {
      SensorStepKeeps(lines, mode, st);
    }
    Steps.RepeatKeeps(step, ([], pos), k, inv);
  }

  /** A room takes its next sensor line exactly when there is one, it
      starts with one of the four sensor names, its fields read, and the
      room has no sensor of that kind yet. */
  lemma SensorLineAccepts(lines: seq<string>, mode: EvaluatorMode, st: SensorProgress)
    ensures NextSensor(lines, mode, st).Success? <==>
      && st.1 < |lines|
      && SensorLine(lines[st.1], mode).Some?
      && SensorLine(lines[st.1], mode).value.sensor.Kind() !in Kinds(st.0)
    ensures st.1 < |lines| ==>
      var f := Split(lines[st.1], Separators(mode));
      (|f| == 0 || f[0] !in {"OccupancySensor", "NoiseSensor", "TemperatureSensor", "CarbonDioxideSensor"}) ==>
        NextSensor(lines, mode, st) == Failure(FileFormat)
  {
  }

  /** The sensor kinds of the sensors of some lines are those lines' kinds. */
  lemma SensorKindsOfEntries(es: seq<SensorEntry>)
    ensures SensorKindsOf(SensorsOf(es)) == Kinds(es)
  {
  }

  /** A room block that reads is a well-formed room and takes its header
      line and one line per sensor. */
  lemma RoomAtWellFormed(lines: seq<string>, pos: nat)
    ensures RoomAt(lines, pos).Success? ==>
      RoomWellFormed(RoomAt(lines, pos).value.0) && RoomAt(lines, pos).value.1 == pos + 1 + |RoomAt(lines, pos).value.0.sensors|
  {
    if RoomAt(lines, pos).Success? {
      var h := RoomHeaderOf(lines[pos]).value;
      var read := SensorsFrom(lines, pos + 1, h.sensorCount, h.mode);
      SensorsFromShape(lines, pos + 1, h.sensorCount, h.mode);
      SensorsFromFit(lines, pos + 1, h.sensorCount, h.mode);
      SensorKindsOfEntries(read.value.0);
    }
  }

  // ---------------------------------------------------------------------
  // Floors

  /** The rooms read so far on a floor of area `area`, from line `pos`:
      they fit the floor as addRoom keeps them, each is well formed, and
      each took at least one line. */
  predicate RoomsRead(area: real, pos: nat, st: RoomProgress)
  {
    && Floors.RoomsFit(RecordNumbers(st.0), RecordAreas(st.0), area)
    && (forall i :: 0 <= i < |st.0| ==> RoomWellFormed(st.0[i]))
    && pos + |st.0| <= st.1
  }

  /** A floor as loaded: its rooms fit it as addRoom keeps them, each room
      is well formed, and a schedule, if any, is one
      createMaintenanceSchedule accepts for those rooms. */
  predicate FloorWellFormed(f: FloorRecord)
  {
    FloorFits(f, Floors.FloorArea(f.width, f.length))
  }

  /** The same, for a floor that allots `area` to its rooms. */
  predicate FloorFits(f: FloorRecord, area: real)
  {
    && Floors.RoomsFit(RecordNumbers(f.rooms), RecordAreas(f.rooms), area)
    && (forall i :: 0 <= i < |f.rooms| ==> RoomWellFormed(f.rooms[i]))
    && (f.schedule.Some? ==> Floors.ScheduleAccepted(f.schedule.value, RecordNumbers(f.rooms)))
  }

  /** A room the floor takes keeps the rooms read fitting it. */
  lemma RoomStepKeeps(lines: seq<string>, area: real, pos: nat, st: RoomProgress)
    requires RoomsRead(area, pos, st)
    requires NextRoom(lines, area, st).Success?
    ensures RoomsRead(area, pos, NextRoom(lines, area, st).value)
  {
    var room := RoomAt(lines, st.1).value;
    RoomAtWellFormed(lines, st.1);
    RoomsReadSnoc(area, pos, st, room.0, room.1);
  }

  /** A well-formed room addRoom accepts, read up to a later line, keeps the
      rooms read fitting the floor. */
  lemma RoomsReadSnoc(area: real, pos: nat, st: RoomProgress, room: RoomRecord, next: nat)
    requires RoomsRead(area, pos, st) && RoomWellFormed(room) && st.1 < next
    requires Floors.AddRoomRejection(RecordNumbers(st.0), RecordAreas(st.0), area, room.number, room.area).None?
    ensures RoomsRead(area, pos, (st.0 + [room], next))
  {
    Floors.AddRoomKeepsRoomsFit(RecordNumbers(st.0), RecordAreas(st.0), area, room.number, room.area);
    assert RecordNumbers(st.0 + [room]) == RecordNumbers(st.0) + [room.number];
    assert RecordAreas(st.0 + [room]) == RecordAreas(st.0) + [room.area];
  }

  /** The rooms of a floor that has read them all fit it. */
  lemma RoomsFromFit(lines: seq<string>, pos: nat, k: nat, area: real)
    requires area >= 0.0
    ensures RoomsFrom(lines, pos, k, area).Success? ==> RoomsRead(area, pos, RoomsFrom(lines, pos, k, area).value)
  {
    var step := RoomStep(lines, area);
    var inv := (st: RoomProgress) => RoomsRead(area, pos, st);
    forall st | inv(st) && step(st).Success?
      ensures inv(step(st).value)
    {
      RoomStepKeeps(lines, area, pos, st);
    }
    Floors.EmptyFloorFits(area);
    Steps.RepeatKeeps(step, ([], pos), k, inv);
  }

  /** A floor block that reads is a well-formed floor with a floor number
      above 0, and takes its header line and at least one line per room. */
  lemma FloorAtWellFormed(lines: seq<string>, pos: nat)
    ensures FloorAt(lines, pos).Success? ==>
      && FloorWellFormed(FloorAt(lines, pos).value.0)
      && FloorAt(lines, pos).value.0.number > 0
      && pos + 1 + |FloorAt(lines, pos).value.0.rooms| <= FloorAt(lines, pos).value.1
  {
    if FloorAt(lines, pos).Success? {
      var h := FloorHeaderOf(lines[pos]).value;
      FloorBodyWellFormed(lines, pos + 1, h);
    }
  }

  /** The rooms and schedule after a floor header make a floor of that
      header's number and dimensions whose rooms fit the header's area. */
  lemma FloorBodyWellFormed(lines: seq<string>, pos: nat, h: FloorHeader)
    requires pos <= |lines|
    requires h.area >= 0.0
    ensures FloorBody(lines, pos, h).Success? ==>
      && FloorFits(FloorBody(lines, pos, h).value.0, h.area)
      && FloorBody(lines, pos, h).value.0.number == h.number
      && FloorBody(lines, pos, h).value.0.width == h.width
      && FloorBody(lines, pos, h).value.0.length == h.length
      && pos + |FloorBody(lines, pos, h).value.0.rooms| <= FloorBody(lines, pos, h).value.1
  {
    RoomsFromFit(lines, pos, h.roomCount, h.area);
  }

  // ---------------------------------------------------------------------
  // Buildings

  /** The floors read so far: stacked as addFloor keeps them, and each well
      formed. */
  predicate FloorsRead(floors: seq<FloorRecord>)
  {
    && Buildings.Stacked(RecordFootprints(floors))
    && forall i :: 0 <= i < |floors| ==> FloorWellFormed(floors[i])
  }

  /** A building as loaded: a name without ':', floors stacked as addFloor
      keeps them (numbered 1, 2, ... and each no larger than the one below),
      and every floor well formed. */
  predicate BuildingWellFormed(b: BuildingRecord)
  {
    ':' !in b.name && FloorsRead(b.floors)
  }

  /** A floor the building takes keeps its floors stacked. */
  lemma FloorStepKeeps(lines: seq<string>, st: FloorProgress)
    requires FloorsRead(st.0)
    requires NextFloor(lines, st).Success?
    ensures FloorsRead(NextFloor(lines, st).value.0)
  {
    var floor := FloorAt(lines, st.1).value;
    FloorAtWellFormed(lines, st.1);
    Buildings.AddFloorKeepsStacked(RecordFootprints(st.0), RecordFootprint(floor.0));
    assert RecordFootprints(st.0 + [floor.0]) == RecordFootprints(st.0) + [RecordFootprint(floor.0)];
  }

  /** The floors of a building that has read them all are stacked. */
  lemma FloorsFromFit(lines: seq<string>, pos: nat, k: nat)
    ensures FloorsFrom(lines, pos, k).Success? ==> FloorsRead(FloorsFrom(lines, pos, k).value.0)
  {
    var step := FloorStep(lines);
    var inv := (st: FloorProgress) => FloorsRead(st.0);
    forall st | inv(st) && step(st).Success?
      ensures inv(step(st).value)
    {
      FloorStepKeeps(lines, st);
    }
    Steps.RepeatKeeps(step, ([], pos), k, inv);
  }

  /** A building block that reads is a well-formed building. */
  lemma BuildingAtWellFormed(lines: seq<string>, pos: nat)
    requires pos < |lines|
    ensures BuildingAt(lines, pos).Success? ==> BuildingWellFormed(BuildingAt(lines, pos).value.0)
  {
    if BuildingAt(lines, pos).Success? {
      var count := FloorCountAt(lines, pos).value;
      FloorsFromFit(lines, pos + 2, count);
    }
  }

  /** The buildings read from `pos` on are well formed, if those read before
      are. */
  lemma {:induction false} BuildingsFromWellFormed(lines: seq<string>, pos: nat, acc: seq<BuildingRecord>)
    requires pos <= |lines|
    requires forall i :: 0 <= i < |acc| ==> BuildingWellFormed(acc[i])
    ensures BuildingsFrom(lines, pos, acc).Success? ==>
      forall i :: 0 <= i < |BuildingsFrom(lines, pos, acc).value| ==> BuildingWellFormed(BuildingsFrom(lines, pos, acc).value[i])
    decreases |lines| - pos
  {
    if pos < |lines| && BuildingAt(lines, pos).Success? {
      var b := BuildingAt(lines, pos).value;
      BuildingAtWellFormed(lines, pos);
      BuildingsFromWellFormed(lines, b.1, acc + [b.0]);
    }
  }

  /** Every building of a file that loads is well formed: the loader upholds
      what Building.addFloor, Floor.addRoom, Room.addSensor and
      createMaintenanceSchedule enforce. */
  lemma LoadedBuildingsWellFormed(lines: seq<string>)
    ensures Load(lines).Success? ==> forall i :: 0 <= i < |Load(lines).value| ==> BuildingWellFormed(Load(lines).value[i])
  {
    BuildingsFromWellFormed(lines, 0, []);
  }

  // ---------------------------------------------------------------------
  // Rejections

  /** The first two lines of a building block are accepted exactly when the
      name has no ':' and the next line is a non-negative number, which is
      then the number of floors. */
  lemma FloorCountAccepts(lines: seq<string>, pos: nat)
    requires pos < |lines|
    ensures FloorCountAt(lines, pos).Success? <==>
      && ':' !in lines[pos] && pos + 1 < |lines|
      && ParseInt(lines[pos + 1]).Some? && ParseInt(lines[pos + 1]).value >= 0
    ensures FloorCountAt(lines, pos).Success? ==> Some(FloorCountAt(lines, pos).value as int) == ParseInt(lines[pos + 1])
    ensures FloorCountAt(lines, pos).Failure? ==> FloorCountAt(lines, pos).error == FileFormat
  {
  }

  /** An empty file holds no buildings. */
  lemma LoadEmptyFile()
    ensures Load([]) == Success([])
  {
  }

  /** A file whose first building name has a ':' is rejected. */
  lemma LoadNameWithColon(lines: seq<string>)
    requires |lines| > 0 && ':' in lines[0]
    ensures Load(lines) == Failure(FileFormat)
  {
    FloorCountAccepts(lines, 0);
  }

  /** A file that ends after a building name is rejected. */
  lemma LoadMissingFloorCount(name: string)
    ensures Load([name]) == Failure(FileFormat)
  {
    FloorCountAccepts([name], 0);
  }

  /** A file whose first floor count is not a non-negative number is
      rejected. */
  lemma LoadBadFloorCount(lines: seq<string>)
    requires |lines| >= 2
    requires ParseInt(lines[1]).None? || ParseInt(lines[1]).value < 0
    ensures Load(lines) == Failure(FileFormat)
  {
    FloorCountAccepts(lines, 0);
  }

  /** The buildings of a file come in file order, each the one its block
      describes; when a block does not read, its error is the load's. */
  lemma {:induction false} BuildingsInOrder(lines: seq<string>, pos: nat, acc: seq<BuildingRecord>)
    requires pos < |lines|
    ensures BuildingAt(lines, pos).Failure? ==> BuildingsFrom(lines, pos, acc) == Failure(BuildingAt(lines, pos).error)
    ensures BuildingsFrom(lines, pos, acc).Success? ==>
      && BuildingAt(lines, pos).Success?
      && |BuildingsFrom(lines, pos, acc).value| > |acc|
      && BuildingsFrom(lines, pos, acc).value[..|acc| + 1] == acc + [BuildingAt(lines, pos).value.0]
  {
    if BuildingAt(lines, pos).Success? {
      var b := BuildingAt(lines, pos).value;
      BuildingsExtend(lines, b.1, acc + [b.0]);
    }
  }

  /** The buildings read from `pos` on come after those read before. */
  lemma {:induction false} BuildingsExtend(lines: seq<string>, pos: nat, acc: seq<BuildingRecord>)
    requires pos <= |lines|
    ensures BuildingsFrom(lines, pos, acc).Success? ==>
      |BuildingsFrom(lines, pos, acc).value| >= |acc| && BuildingsFrom(lines, pos, acc).value[..|acc|] == acc
    decreases |lines| - pos
  {
    if pos < |lines| && BuildingAt(lines, pos).Success? {
      var b := BuildingAt(lines, pos).value;
      BuildingsExtend(lines, b.1, acc + [b.0]);
      assert (acc + [b.0])[..|acc|] == acc;
    }
  }

  /** A floor header line is accepted exactly when it has three or four
      colons, at least four fields, and numbers in range in the first four:
      a floor number above 0, a non-negative width and length, and a
      non-negative room count. The header holds those numbers, and a fifth
      field, if any, as the maintenance list. */
  lemma FloorHeaderAccepts(line: string)
    ensures var parts := Split(line, {':'});
      FloorHeaderOf(line).Success? <==>
        && 3 <= Count(line, ':') <= 4 && |parts| >= 4
        && ParseInt(parts[0]).Some? && ParseInt(parts[0]).value > 0
        && ParseDecimal(parts[1]).Some? && ParseDecimal(parts[1]).value >= 0.0
        && ParseDecimal(parts[2]).Some? && ParseDecimal(parts[2]).value >= 0.0
        && ParseInt(parts[3]).Some? && ParseInt(parts[3]).value >= 0
    ensures var parts := Split(line, {':'});
      FloorHeaderOf(line).Success? ==>
        var h := FloorHeaderOf(line).value;
        && ParseInt(parts[0]) == Some(h.number)
        && ParseDecimal(parts[1]) == Some(h.width) && ParseDecimal(parts[2]) == Some(h.length)
        && ParseInt(parts[3]) == Some(h.roomCount as int)
        && h.scheduleField == if |parts| == 5 then Some(parts[4]) else None
  {
  }

  /** A room header line is accepted exactly when it has three or four
      colons, at least four fields, a fifth field (if any) naming an
      evaluator, and in the first four a non-negative room number, a room
      type, an area of at least the minimum and a non-negative sensor
      count; the header holds those values. */
  lemma RoomHeaderAccepts(line: string)
    ensures var parts := Split(line, {':'});
      RoomHeaderOf(line).Some? <==>
        && 3 <= Count(line, ':') <= 4 && |parts| >= 4 && ModeOf(parts).Some?
        && ParseInt(parts[0]).Some? && ParseInt(parts[0]).value >= 0
        && RoomTypeNamed(parts[1]).Some?
        && ParseDecimal(parts[2]).Some? && ParseDecimal(parts[2]).value >= MinArea
        && ParseInt(parts[3]).Some? && ParseInt(parts[3]).value >= 0
    ensures var parts := Split(line, {':'});
      RoomHeaderOf(line).Some? ==>
        var h := RoomHeaderOf(line).value;
        && ParseInt(parts[0]) == Some(h.number) && RoomTypeNamed(parts[1]) == Some(h.kind)
        && ParseDecimal(parts[2]) == Some(h.area) && ParseInt(parts[3]) == Some(h.sensorCount as int)
        && ModeOf(parts) == Some(h.mode)
  {
  }

  /** String.split drops trailing empty fields, so "1:10:10:" has three
      colons but only three fields, and reading its room count throws
      ArrayIndexOutOfBoundsException. */
  lemma FloorHeaderMissingRoomCount()
    ensures FloorHeaderOf("1:10:10:") == Failure(IndexOutOfBounds)
  {
    SplitMissingRoomCount();
    DecimalTen();
  }

  /** "1:10:10:2:" has four colons but only four fields: a floor with two
      rooms and no maintenance list. */
  lemma FloorHeaderTrailingColon()
    ensures FloorHeaderOf("1:10:10:2:") == Success(FloorHeader(1, 10.0, 10.0, 100.0, 2, None))
  {
    SplitTrailingColon();
    DecimalTen();
    FloorHeaderAccepts("1:10:10:2:");
    assert Floors.FloorArea(10.0, 10.0) == 100.0;
  }

  lemma SplitMissingRoomCount()
    ensures Count("1:10:10:", ':') == 3
    ensures Split("1:10:10:", {':'}) == ["1", "10", "10"]
  {
    var parts := ["1", "10", "10", ""];
    assert Join(parts[3..], ':') == "";
    assert Join(parts[2..], ':') == "10:";
    assert Join(parts[1..], ':') == "10:10:";
    assert Join(parts, ':') == "1:10:10:";
    FieldsOfJoin(parts, ':');
  }

  lemma SplitTrailingColon()
    ensures Count("1:10:10:2:", ':') == 4
    ensures Split("1:10:10:2:", {':'}) == ["1", "10", "10", "2"]
  {
    var parts := ["1", "10", "10", "2", ""];
    assert Join(parts[4..], ':') == "";
    assert Join(parts[3..], ':') == "2:";
    assert Join(parts[2..], ':') == "10:2:";
    assert Join(parts[1..], ':') == "10:10:2:";
    assert Join(parts, ':') == "1:10:10:2:";
    FieldsOfJoin(parts, ':');
  }

  lemma DecimalTen()
    ensures ParseInt("1") == Some(1)
    ensures ParseDecimal("10") == Some(10.0)
    ensures ParseInt("2") == Some(2)
  {
    assert DotIndex("10") == 2;
    assert DigitsValue("10") == 10;
  }

  /** The first `k` tokens of a maintenance list read exactly when each of
      them parses and names a room of the floor; the list read is then those
      numbers, in token order. */
  lemma {:induction false} OrderFromReads(tokens: seq<string>, numbers: seq<int>, k: nat)
    requires k <= |tokens|
    ensures OrderReadsPrefix(tokens, numbers, k, OrderFrom(tokens, numbers, k))
  {
    if k > 0 {
      OrderFromReads(tokens, numbers, k - 1);
      OrderFromNext(tokens, numbers, k - 1);
      OrderStepReads(tokens, numbers, k - 1, OrderFrom(tokens, numbers, k - 1), OrderFrom(tokens, numbers, k));
    }
  }

  /** What reading the first `k` tokens gives: success exactly when each of
      them parses and names a room, and then the numbers they parse to. */
  predicate OrderReadsPrefix(tokens: seq<string>, numbers: seq<int>, k: nat, r: Result<seq<int>, LoadError>)
    requires k <= |tokens|
  {
    && (r.Success? <==> forall i :: 0 <= i < k ==> ParseInt(tokens[i]).Some? && ParseInt(tokens[i]).value in numbers)
    && (r.Success? ==> |r.value| == k && forall i :: 0 <= i < k ==> ParseInt(tokens[i]) == Some(r.value[i]))
  }

  /** Reading one more token keeps OrderReadsPrefix. */
  lemma OrderStepReads(tokens: seq<string>, numbers: seq<int>, k: nat, prev: Result<seq<int>, LoadError>, cur: Result<seq<int>, LoadError>)
    requires k < |tokens|
    requires OrderReadsPrefix(tokens, numbers, k, prev)
    requires cur == if prev.Failure? then prev else NextOrderEntry(tokens, numbers, prev.value)
    ensures OrderReadsPrefix(tokens, numbers, k + 1, cur)
  {
    if prev.Success? {
      NextOrderEntryReads(tokens, numbers, prev.value);
    }
  }

  /** The next token is read when it parses and names a room. */
  lemma NextOrderEntryReads(tokens: seq<string>, numbers: seq<int>, order: seq<int>)
    requires |order| < |tokens|
    ensures var n := ParseInt(tokens[|order|]);
      NextOrderEntry(tokens, numbers, order) ==
        if n.Some? && n.value in numbers then Success(order + [n.value]) else Failure(FileFormat)
  {
  }

  /** One more token of a maintenance list. */
  lemma OrderFromNext(tokens: seq<string>, numbers: seq<int>, k: nat)
    ensures OrderFrom(tokens, numbers, k + 1) ==
      if OrderFrom(tokens, numbers, k).Failure? then OrderFrom(tokens, numbers, k)
      else NextOrderEntry(tokens, numbers, OrderFrom(tokens, numbers, k).value)
  {
    var prev := OrderFrom(tokens, numbers, k);
    if prev.Success? {
      Steps.RepeatStep(OrderStep(tokens, numbers), [], k, prev.value);
    }
  }

  /** The numbers a list of tokens that all parse stands for. */
  function ParsedNumbers(tokens: seq<string>): (ns: seq<int>)
    requires forall i :: 0 <= i < |tokens| ==> ParseInt(tokens[i]).Some?
    ensures |ns| == |tokens|
    ensures forall i :: 0 <= i < |tokens| ==> ParseInt(tokens[i]) == Some(ns[i])
  {
    seq(|tokens|, i requires 0 <= i < |tokens| => ParseInt(tokens[i]).value)
  }

  /** A floor header's maintenance field is read exactly when it has no more
      commas than pieces, every piece names a room of the floor and
      createMaintenanceSchedule accepts the order; the schedule is then the
      rooms the pieces name, in order. */
  lemma ScheduleFieldAccepts(field: string, numbers: seq<int>)
    ensures var tokens := Split(field, {','});
      ScheduleOf(Some(field), numbers).Success? <==>
        && Count(field, ',') <= |tokens|
        && (forall i :: 0 <= i < |tokens| ==> ParseInt(tokens[i]).Some? && ParseInt(tokens[i]).value in numbers)
        && Floors.ScheduleAccepted(ParsedNumbers(tokens), numbers)
    ensures var tokens := Split(field, {','});
      ScheduleOf(Some(field), numbers).Success? ==>
        ScheduleOf(Some(field), numbers).value == Some(ParsedNumbers(tokens))
    ensures ScheduleOf(Some(field), numbers).Failure? ==> ScheduleOf(Some(field), numbers).error == FileFormat
  {
    var tokens := Split(field, {','});
    OrderFromReads(tokens, numbers, |tokens|);
    Steps.RepeatFails(OrderStep(tokens, numbers), [], |tokens|, FileFormat);
    var order := OrderFrom(tokens, numbers, |tokens|);
    if order.Success? {
      assert order.value == ParsedNumbers(tokens);
    }
  }

  /** What encode writes for a maintenance schedule, readFloor reads back:
      the room numbers joined by commas give the same order again, accepted
      exactly when createMaintenanceSchedule accepts that order. */
  lemma ScheduleFieldOfEncoding(order: seq<int>, numbers: seq<int>)
    requires |order| >= 1
    requires forall i :: 0 <= i < |order| ==> IntMin <= order[i] <= IntMax
    ensures ScheduleOf(Some(Join(Maintenance.NumberStrings(order), ',')), numbers) ==
      if Floors.ScheduleAccepted(order, numbers) then Success(Some(order)) else Failure(FileFormat)
  {
    var parts := Maintenance.NumberStrings(order);
    forall i | 0 <= i < |parts|
      ensures FreeOf(parts[i], {','}) && parts[i] != ""
      ensures ParseInt(parts[i]) == Some(order[i])
    {
      IntToStringFreeOf(order[i], ',');
      ParseIntToString(order[i]);
    }
    SplitOfJoin(parts, ',');
    CountJoin(parts, ',');
    ScheduleFieldAccepts(Join(parts, ','), numbers);
    assert ParsedNumbers(parts) == order;
  }
}
