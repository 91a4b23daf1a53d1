/** The building file loader. A file is a sequence of lines; reading a line
    past the end yields nothing, as readLine yields null. Each block of the
    file (a building, a floor, a room, a sensor line) is specified by a
    function from the lines and a cursor to the value read and the cursor
    after it, and the loader's loops are proved to compute those functions.
    The loader builds records of the buildings, floors and rooms it reads,
    applying the same acceptance rules as Building.addFloor, Floor.addRoom
    and Floor.createMaintenanceSchedule. */
module Loader {
  import opened Wrappers
  import opened Collections
  import opened Text
  import opened Rooms
  import opened Sensors
  import Maintenance
  import HazardEvaluation
  import Floors
  import Buildings
  import Steps

  /** How loadBuildings fails: FileFormatException, or the
      ArrayIndexOutOfBoundsException a floor header with too few fields
      throws, which nothing in the loader catches. */
  datatype LoadError = FileFormat | IndexOutOfBounds

  /** The evaluator a room's optional fifth header field asks for. */
  datatype EvaluatorMode = NoEvaluator | RuleBasedMode | WeightingBasedMode

  /** The hazard evaluator given to a room; a weighting-based one keeps one
      weight per sensor of the room, in sensor order. */
  datatype Evaluator = RuleBased | WeightingBased(weights: seq<int>)

  /** A sensor line: the sensor and, in a weighting-based room, its weight. */
  datatype SensorEntry = SensorEntry(sensor: Sensor, weight: Option<int>)

  datatype RoomRecord = RoomRecord(number: int, kind: RoomType, area: real, sensors: seq<Sensor>, evaluator: Option<Evaluator>)

  datatype FloorRecord = FloorRecord(number: int, width: real, length: real, rooms: seq<RoomRecord>, schedule: Option<seq<int>>)

  datatype BuildingRecord = BuildingRecord(name: string, floors: seq<FloorRecord>)

  datatype RoomHeader = RoomHeader(number: int, kind: RoomType, area: real, sensorCount: nat, mode: EvaluatorMode)

  /** A floor header line; `area` is the floor's width times its length,
      the space Floor.addRoom allots to rooms. */
  datatype FloorHeader = FloorHeader(number: int, width: real, length: real, area: real, roomCount: nat, scheduleField: Option<string>)

  // ---------------------------------------------------------------------
  // Sensors

  /** Integer.parseInt applied to every part; None when any part fails. */
  function ParseInts(parts: seq<string>): (r: Option<seq<int>>)
    ensures r.Some? <==> forall i :: 0 <= i < |parts| ==> ParseInt(parts[i]).Some?
    ensures r.Some? ==> |r.value| == |parts| && forall i :: 0 <= i < |parts| ==> ParseInt(parts[i]) == Some(r.value[i])
  {
    if parts == [] then Some([])
    else
      var init := ParseInts(parts[..|parts| - 1]);
      var last := ParseInt(parts[|parts| - 1]);
      if init.None? || last.None? then None else Some(init.value + [last.value])
  }

  /** A comma-separated list of readings. */
  function Readings(s: string): Option<seq<int>>
  {
    ParseInts(Split(s, {','}))
  }

  /** readTemperature: None where it throws FileFormatException. */
  function ReadTemperature(readings: string): (r: Option<Sensor>)
    ensures r.Some? ==> r.value.Kind() == Temperature && Constructed(r.value)
    ensures r.Some? ==> Readings(readings) == Some(r.value.readings)
  {
    var rs :- Readings(readings);
    NewTemperatureSensor(rs)
  }

  /** readNoise. */
  function ReadNoise(readings: string, frequency: string): (r: Option<Sensor>)
    ensures r.Some? ==> r.value.Kind() == Noise && Constructed(r.value)
    ensures r.Some? ==> Readings(readings) == Some(r.value.readings) && ParseInt(frequency) == Some(r.value.frequency)
  {
    var rs :- Readings(readings);
    var f :- ParseInt(frequency);
    NewNoiseSensor(rs, f)
  }

  /** readOccupant. */
  function ReadOccupant(readings: string, frequency: string, capacity: string): (r: Option<Sensor>)
    ensures r.Some? ==> r.value.Kind() == Occupancy && Constructed(r.value)
    ensures r.Some? ==> Readings(readings) == Some(r.value.readings) && ParseInt(frequency) == Some(r.value.frequency)
    ensures r.Some? ==> ParseInt(capacity) == Some(r.value.capacity)
  {
    var rs :- Readings(readings);
    var f :- ParseInt(frequency);
    var cap :- ParseInt(capacity);
    NewOccupancySensor(rs, f, cap)
  }

  /** readCarbon. */
  function ReadCarbon(readings: string, frequency: string, ideal: string, limit: string): (r: Option<Sensor>)
    ensures r.Some? ==> r.value.Kind() == CarbonDioxide && Constructed(r.value)
    ensures r.Some? ==> Readings(readings) == Some(r.value.readings) && ParseInt(frequency) == Some(r.value.frequency)
    ensures r.Some? ==> ParseInt(ideal) == Some(r.value.idealValue) && ParseInt(limit) == Some(r.value.variationLimit)
  {
    var rs :- Readings(readings);
    var f :- ParseInt(frequency);
    var i :- ParseInt(ideal);
    var l :- ParseInt(limit);
    NewCarbonDioxideSensor(rs, f, i, l)
  }

  /** The comma-separated form of a list of integers. */
  function IntList(ns: seq<int>): string
  {
    Join(Maintenance.NumberStrings(ns), ',')
  }

  predicate Int32(n: int) { IntMin <= n <= IntMax }

  /** A non-empty list of Java ints reads back from its comma-separated
      form. */
  lemma ReadingsOfIntList(ns: seq<int>)
    requires |ns| > 0 && forall i :: 0 <= i < |ns| ==> Int32(ns[i])
    ensures Readings(IntList(ns)) == Some(ns)
  {
    var parts := Maintenance.NumberStrings(ns);
    forall i | 0 <= i < |parts|
      ensures FreeOf(parts[i], {','}) && parts[i] != ""
    {
      IntToStringFreeOf(ns[i], ',');
    }
    SplitOfJoin(parts, ',');
    assert Split(IntList(ns), {','}) == parts;
    forall i | 0 <= i < |parts|
      ensures ParseInt(parts[i]) == Some(ns[i])
    {
      ParseIntToString(ns[i]);
    }
    var r := ParseInts(parts);
    assert r.Some?;
    assert r.value == ns;
  }

  /** Each sensor reader rebuilds any sensor its constructor accepts from
      the decimal forms of its fields. */
  lemma ReadersRebuildSensor(s: Sensor)
    requires Constructed(s)
    requires forall i :: 0 <= i < |s.readings| ==> s.readings[i] <= IntMax
    requires s.OccupancySensor? ==> s.capacity <= IntMax
    requires s.CarbonDioxideSensor? ==> s.idealValue <= IntMax && s.variationLimit <= IntMax
    ensures match s
      case TemperatureSensor(rs) => ReadTemperature(IntList(rs)) == Some(s)
      case NoiseSensor(rs, f) => ReadNoise(IntList(rs), IntToString(f)) == Some(s)
      case OccupancySensor(rs, f, cap) => ReadOccupant(IntList(rs), IntToString(f), IntToString(cap)) == Some(s)
      case CarbonDioxideSensor(rs, f, i, l) =>
        ReadCarbon(IntList(rs), IntToString(f), IntToString(i), IntToString(l)) == Some(s)
  {
    ReadingsOfIntList(s.readings);
    match s
    case TemperatureSensor(rs) =>
    case NoiseSensor(rs, f) =>
      ParseIntToString(f);
    case OccupancySensor(rs, f, cap) =>
      ParseIntToString(f);
      ParseIntToString(cap);
    case CarbonDioxideSensor(rs, f, i, l) =>
      ParseIntToString(f);
      ParseIntToString(i);
      ParseIntToString(l);
  }

  /** The first field of a sensor line that names a sensor of `kind`. */
  function SensorName(kind: SensorKind): string
  {
    match kind
    case Occupancy => "OccupancySensor"
    case Noise => "NoiseSensor"
    case Temperature => "TemperatureSensor"
    case CarbonDioxide => "CarbonDioxideSensor"
  }

  /** A weighting-based room splits its sensor lines at '@' as well. */
  function Separators(mode: EvaluatorMode): set<char>
  {
    if mode == WeightingBasedMode then {':', '@'} else {':'}
  }

  /** The weight at field `k` of a sensor line of a weighting-based room;
      other rooms read no weight. The outer None is a failure. */
  function WeightAt(fields: seq<string>, k: nat, mode: EvaluatorMode): (r: Option<Option<int>>)
    ensures r.Some? ==> (r.value.Some? <==> mode == WeightingBasedMode)
  {
    if mode != WeightingBasedMode then Some(None)
    else if k < |fields| && ParseInt(fields[k]).Some? then Some(Some(ParseInt(fields[k]).value))
    else None
  }

  /** The sensor kind a sensor line's first field names, if any. */
  function KindNamed(name: string): (r: Option<SensorKind>)
    ensures r.Some? <==> name in {"OccupancySensor", "NoiseSensor", "TemperatureSensor", "CarbonDioxideSensor"}
    ensures r.Some? ==> SensorName(r.value) == name
  {
    if name == "OccupancySensor" then Some(Occupancy)
    else if name == "NoiseSensor" then Some(Noise)
    else if name == "TemperatureSensor" then Some(Temperature)
    else if name == "CarbonDioxideSensor" then Some(CarbonDioxide)
    else None
  }

  /** How many fields, the name included, a sensor line of `kind` reads
      before its weight. */
  function FieldCount(kind: SensorKind): nat
  {
    match kind
    case Occupancy => 4
    case Noise => 3
    case Temperature => 2
    case CarbonDioxide => 5
  }

  /** The sensor the fields after the name describe. */
  function ReadSensor(kind: SensorKind, f: seq<string>): (r: Option<Sensor>)
    requires |f| >= FieldCount(kind)
    ensures r.Some? ==> r.value.Kind() == kind && Constructed(r.value)
  {
    match kind
    case Occupancy => ReadOccupant(f[1], f[2], f[3])
    case Noise => ReadNoise(f[1], f[2])
    case Temperature => ReadTemperature(f[1])
    case CarbonDioxide => ReadCarbon(f[1], f[2], f[3], f[4])
  }

  /** One sensor line of a room; None where readRoom fails. The line must
      start with a known sensor name; fields beyond the ones read are
      ignored. */
  function SensorLine(line: string, mode: EvaluatorMode): (r: Option<SensorEntry>)
    ensures r.Some? ==> Constructed(r.value.sensor) && (r.value.weight.Some? <==> mode == WeightingBasedMode)
    ensures r.Some? ==> |Split(line, Separators(mode))| > 0 && Split(line, Separators(mode))[0] == SensorName(r.value.sensor.Kind())
  {
    var f := Split(line, Separators(mode));
    if |f| == 0 then None
    else
      var kind :- KindNamed(f[0]);
      if |f| < FieldCount(kind) then None
      else
        var s :- ReadSensor(kind, f);
        var w :- WeightAt(f, FieldCount(kind), mode);
        Some(SensorEntry(s, w))
  }

  function Kinds(entries: seq<SensorEntry>): (ks: seq<SensorKind>)
    ensures |ks| == |entries|
    ensures forall i :: 0 <= i < |entries| ==> ks[i] == entries[i].sensor.Kind()
  {
    seq(|entries|, i requires 0 <= i < |entries| => entries[i].sensor.Kind())
  }

  function SensorsOf(entries: seq<SensorEntry>): (ss: seq<Sensor>)
    ensures |ss| == |entries|
    ensures forall i :: 0 <= i < |entries| ==> ss[i] == entries[i].sensor
  {
    seq(|entries|, i requires 0 <= i < |entries| => entries[i].sensor)
  }

  function WeightsOf(entries: seq<SensorEntry>): (ws: seq<int>)
    ensures |ws| == |entries|
  {
    seq(|entries|, i requires 0 <= i < |entries| => if entries[i].weight.Some? then entries[i].weight.value else 0)
  }

  function SensorKindsOf(sensors: seq<Sensor>): (ks: seq<SensorKind>)
    ensures |ks| == |sensors|
  {
    seq(|sensors|, i requires 0 <= i < |sensors| => sensors[i].Kind())
  }

  /** What readRoom's sensor loop has read so far: the sensor lines, and
      the index of the next line. */
  type SensorProgress = (seq<SensorEntry>, nat)

  /** One pass of readRoom's sensor loop: the next line must exist and be
      a sensor line the room can take. */
  function NextSensor(lines: seq<string>, mode: EvaluatorMode, st: SensorProgress): (r: Result<SensorProgress, LoadError>)
    ensures r.Success? ==> st.1 < |lines| && r.value.1 == st.1 + 1 && |r.value.0| == |st.0| + 1
    ensures r.Failure? ==> r.error == FileFormat
  {
    if st.1 >= |lines| then Failure(FileFormat) else AddSensor(st, SensorLine(lines[st.1], mode))
  }

  /** The sensor line read, unless it did not parse or brings a sensor kind
      the room already has, as Room.addSensor rejects a second one. */
  function AddSensor(st: SensorProgress, e: Option<SensorEntry>): (r: Result<SensorProgress, LoadError>)
    ensures r.Success? ==> e.Some? && r.value == (st.0 + [e.value], st.1 + 1)
    ensures r.Failure? ==> r.error == FileFormat
  {
    if e.None? || e.value.sensor.Kind() in Kinds(st.0) then Failure(FileFormat) else Success((st.0 + [e.value], st.1 + 1))
  }

  function SensorStep(lines: seq<string>, mode: EvaluatorMode): SensorProgress -> Result<SensorProgress, LoadError>
  {
    st => NextSensor(lines, mode, st)
  }

  /** The first `k` sensor lines from `pos`, and the line after them. */
  function SensorsFrom(lines: seq<string>, pos: nat, k: nat, mode: EvaluatorMode): Result<SensorProgress, LoadError>
  {
    Steps.Repeat(SensorStep(lines, mode), ([], pos), k)
  }

  /** `k` sensor lines read are the `k` lines from `pos`. */
  lemma SensorsFromShape(lines: seq<string>, pos: nat, k: nat, mode: EvaluatorMode)
    requires pos <= |lines|
    ensures SensorsFrom(lines, pos, k, mode).Success? ==>
      |SensorsFrom(lines, pos, k, mode).value.0| == k && SensorsFrom(lines, pos, k, mode).value.1 == pos + k <= |lines|
  {
    var step := SensorStep(lines, mode);
    Steps.RepeatCounts(step, ([], pos), k, (st: SensorProgress) => |st.0|);
    Steps.RepeatCounts(step, ([], pos), k, (st: SensorProgress) => st.1);
    Steps.RepeatKeeps(step, ([], pos), k, (st: SensorProgress) => st.1 <= |lines|);
  }

  /** The evaluator of a room with the given sensor lines; the outer None is
      a failure, where the WeightingBasedHazardEvaluator constructor rejects
      the weights. */
  function EvaluatorOf(mode: EvaluatorMode, entries: seq<SensorEntry>): (r: Option<Option<Evaluator>>)
    ensures r.Some? && r.value.Some? && r.value.value.WeightingBased? ==> HazardEvaluation.ValidWeights(r.value.value.weights)
  {
    match mode
    case NoEvaluator => Some(None)
    case RuleBasedMode => Some(Some(RuleBased))
    case WeightingBasedMode =>
      var ws := WeightsOf(entries);
      if HazardEvaluation.ValidWeights(ws) then Some(Some(WeightingBased(ws))) else None
  }

  // ---------------------------------------------------------------------
  // Rooms

  /** The fifth field of a room header names the evaluator. */
  function ModeOf(parts: seq<string>): (r: Option<EvaluatorMode>)
    ensures |parts| != 5 ==> r == Some(NoEvaluator)
    ensures |parts| == 5 ==> (r.Some? <==> parts[4] == "WeightingBased" || parts[4] == "RuleBased")
  {
    if |parts| != 5 then Some(NoEvaluator)
    else if parts[4] == "WeightingBased" then Some(WeightingBasedMode)
    else if parts[4] == "RuleBased" then Some(RuleBasedMode)
    else None
  }

  /** A room header line; None where readRoom fails. */
  function RoomHeaderOf(line: string): (r: Option<RoomHeader>)
    ensures r.Some? ==> 3 <= Count(line, ':') <= 4
    ensures r.Some? ==> r.value.number >= 0 && r.value.area >= MinArea
    ensures r.Some? ==> ModeOf(Split(line, {':'})) == Some(r.value.mode)
  {
    var colons := Count(line, ':');
    if colons > 4 || colons < 3 then None
    else
      var parts := Split(line, {':'});
      var mode :- ModeOf(parts);
      if |parts| < 4 then None
      else
        var number :- ParseInt(parts[0]);
        var kind :- RoomTypeNamed(parts[1]);
        var area :- ParseDecimal(parts[2]);
        var count :- ParseInt(parts[3]);
        if number < 0 || area < 0.0 || count < 0 then None
        // The Room constructor rejects an area below the minimum.
        else if area < MinArea then None
        else Some(RoomHeader(number, kind, area, count, mode))
  }

  /** A room block: its header line and its sensor lines, and the line
      after them; every failure is a FileFormatException. */
  function RoomAt(lines: seq<string>, pos: nat): (r: Result<(RoomRecord, nat), LoadError>)
    ensures r.Success? ==> pos < r.value.1 <= |lines|
    ensures r.Failure? ==> r.error == FileFormat
  {
    if pos >= |lines| then Failure(FileFormat)
    else
      var h :- Required(RoomHeaderOf(lines[pos]));
      RoomBody(lines, pos + 1, h)
  }

  /** The sensor lines from `pos` of a room with header `h`, and the room
      they complete. */
  function RoomBody(lines: seq<string>, pos: nat, h: RoomHeader): (r: Result<(RoomRecord, nat), LoadError>)
    requires pos <= |lines|
    ensures r.Success? ==> r.value.1 == pos + h.sensorCount <= |lines| && |r.value.0.sensors| == h.sensorCount
    ensures r.Failure? ==> r.error == FileFormat
  {
    SensorsFromShape(lines, pos, h.sensorCount, h.mode);
    SensorsFailure(lines, pos, h.sensorCount, h.mode);
    var read :- SensorsFrom(lines, pos, h.sensorCount, h.mode);
    var ev :- Required(EvaluatorOf(h.mode, read.0));
    Success((RoomRecord(h.number, h.kind, h.area, SensorsOf(read.0), ev), read.1))
  }

  /** A sensor line fails as a FileFormatException. */
  lemma SensorsFailure(lines: seq<string>, pos: nat, k: nat, mode: EvaluatorMode)
    ensures SensorsFrom(lines, pos, k, mode).Failure? ==> SensorsFrom(lines, pos, k, mode).error == FileFormat
  {
    Steps.RepeatFails(SensorStep(lines, mode), ([], pos), k, FileFormat);
  }

  /** One pass of readRoom's sensor loop. */
  method ReadSensorLine(lines: seq<string>, mode: EvaluatorMode, entries: seq<SensorEntry>, next: nat)
    returns (r: Result<SensorProgress, LoadError>)
    ensures r == NextSensor(lines, mode, (entries, next))
  {
    // readLine yields null past the end of the file.
    if next >= |lines| {
      return Failure(FileFormat);
    }
    var e := SensorLine(lines[next], mode);
    r := AddSensor((entries, next), e);
  }

  /** The sensor loop of readRoom. */
  method ReadSensors(lines: seq<string>, pos: nat, count: nat, mode: EvaluatorMode)
    returns (r: Result<SensorProgress, LoadError>)
    ensures r == SensorsFrom(lines, pos, count, mode)
  {
    var entries: seq<SensorEntry> := [];
    var next := pos;
    for i := 0 to count
      invariant SensorsFrom(lines, pos, i, mode) == Success((entries, next))
    {
      var e := ReadSensorLine(lines, mode, entries, next);
      Steps.RepeatStep(SensorStep(lines, mode), ([], pos), i, (entries, next));
      if e.Failure? {
        Steps.RepeatFailureSticks(SensorStep(lines, mode), ([], pos), i + 1, count);
        return e;
      }
      entries, next := e.value.0, e.value.1;
    }
    return Success((entries, next));
  }

  /** The evaluator readRoom gives a room with the sensor lines read: the
      WeightingBasedHazardEvaluator constructor checks the weights. */
  method MakeEvaluator(mode: EvaluatorMode, entries: seq<SensorEntry>) returns (r: Option<Option<Evaluator>>)
    ensures r == EvaluatorOf(mode, entries)
  {
    if mode == WeightingBasedMode {
      var ok := HazardEvaluation.CheckWeightings(WeightsOf(entries));
      if !ok {
        return None;
      }
      return Some(Some(WeightingBased(WeightsOf(entries))));
    } else if mode == RuleBasedMode {
      return Some(Some(RuleBased));
    }
    return Some(None);
  }

  /** readRoom, past the header line: the sensor lines and the evaluator. */
  method ReadRoomBody(lines: seq<string>, pos: nat, h: RoomHeader) returns (r: Result<(RoomRecord, nat), LoadError>)
    requires pos <= |lines|
    ensures r == RoomBody(lines, pos, h)
  {
    var sensors := ReadSensors(lines, pos, h.sensorCount, h.mode);
    if sensors.Failure? {
      return Failure(sensors.error);
    }
    var evaluator := MakeEvaluator(h.mode, sensors.value.0);
    if evaluator.None? {
      return Failure(FileFormat);
    }
    return Success((RoomRecord(h.number, h.kind, h.area, SensorsOf(sensors.value.0), evaluator.value), sensors.value.1));
  }

  /** readRoom. */
  method ReadRoom(lines: seq<string>, pos: nat) returns (r: Result<(RoomRecord, nat), LoadError>)
    ensures r == RoomAt(lines, pos)
  {
    // readLine yields null past the end of the file.
    if pos >= |lines| {
      return Failure(FileFormat);
    }
    var header := RoomHeaderOf(lines[pos]);
    if header.None? {
      return Failure(FileFormat);
    }
    r := ReadRoomBody(lines, pos + 1, header.value);
  }

  // The room records' numbers, as Buildings.Numbers projects floor footprints.
  function RecordNumbers(rooms: seq<RoomRecord>): (ns: seq<int>)
    ensures |ns| == |rooms|
    ensures forall i :: 0 <= i < |rooms| ==> ns[i] == rooms[i].number
  {
    seq(|rooms|, i requires 0 <= i < |rooms| => rooms[i].number)
  }

  function RecordAreas(rooms: seq<RoomRecord>): (as_: seq<real>)
    ensures |as_| == |rooms|
    ensures forall i :: 0 <= i < |rooms| ==> as_[i] == rooms[i].area
  {
    seq(|rooms|, i requires 0 <= i < |rooms| => rooms[i].area)
  }

  // ---------------------------------------------------------------------
  // Floors

  function Field(parts: seq<string>, k: nat): (r: Result<string, LoadError>)
    ensures r.Success? <==> k < |parts|
    ensures r.Failure? ==> r.error == IndexOutOfBounds
  {
    if k < |parts| then Success(parts[k]) else Failure(IndexOutOfBounds)
  }

  function Required<T>(o: Option<T>): (r: Result<T, LoadError>)
    ensures r.Success? <==> o.Some?
    ensures r.Failure? ==> r.error == FileFormat
  {
    if o.Some? then Success(o.value) else Failure(FileFormat)
  }

  /** A floor header line. The fields are read one after another, so a
      missing field throws ArrayIndexOutOfBoundsException only once the
      fields before it have parsed. */
  function FloorHeaderOf(line: string): (r: Result<FloorHeader, LoadError>)
    ensures r.Success? ==> 3 <= Count(line, ':') <= 4
    ensures r.Success? ==> r.value.number > 0 && r.value.width >= 0.0 && r.value.length >= 0.0
    ensures r.Success? ==> r.value.area == Floors.FloorArea(r.value.width, r.value.length) && r.value.area >= 0.0
    ensures r.Success? ==> (r.value.scheduleField.Some? <==> |Split(line, {':'})| == 5)
    ensures r == Failure(IndexOutOfBounds) ==> |Split(line, {':'})| < 4
  {
    var colons := Count(line, ':');
    if colons > 4 || colons < 3 then Failure(FileFormat)
    else
      var parts := Split(line, {':'});
      var f0 :- Field(parts, 0);
      var number :- Required(ParseInt(f0));
      var f1 :- Field(parts, 1);
      var width :- Required(ParseDecimal(f1));
      var f2 :- Field(parts, 2);
      var length :- Required(ParseDecimal(f2));
      var f3 :- Field(parts, 3);
      var count :- Required(ParseInt(f3));
      if number <= 0 || width < 0.0 || length < 0.0 || count < 0 then Failure(FileFormat)
      else Success(FloorHeader(number, width, length, Floors.FloorArea(width, length), count, if |parts| == 5 then Some(parts[4]) else None))
  }

  /** What readFloor's room loop has read so far: the rooms, and the index
      of the next line. */
  type RoomProgress = (seq<RoomRecord>, nat)

  /** One pass of readFloor's room loop: the next room block, which
      Floor.addRoom must accept after the rooms before it. */
  function NextRoom(lines: seq<string>, floorArea: real, st: RoomProgress): (r: Result<RoomProgress, LoadError>)
    ensures r.Success? ==> st.1 < r.value.1 <= |lines| && |r.value.0| == |st.0| + 1
  {
    var room :- RoomAt(lines, st.1);
    if Floors.AddRoomRejection(RecordNumbers(st.0), RecordAreas(st.0), floorArea, room.0.number, room.0.area).Some? then
      Failure(FileFormat)
    else Success((st.0 + [room.0], room.1))
  }

  function RoomStep(lines: seq<string>, floorArea: real): RoomProgress -> Result<RoomProgress, LoadError>
  {
    st => NextRoom(lines, floorArea, st)
  }

  /** The first `k` room blocks from `pos`, and the line after them. */
  function RoomsFrom(lines: seq<string>, pos: nat, k: nat, floorArea: real): Result<RoomProgress, LoadError>
  {
    Steps.Repeat(RoomStep(lines, floorArea), ([], pos), k)
  }

  /** `k` rooms read take lines from `pos` up to the end of the file. */
  lemma RoomsFromShape(lines: seq<string>, pos: nat, k: nat, floorArea: real)
    requires pos <= |lines|
    ensures RoomsFrom(lines, pos, k, floorArea).Success? ==>
      |RoomsFrom(lines, pos, k, floorArea).value.0| == k && pos <= RoomsFrom(lines, pos, k, floorArea).value.1 <= |lines|
  {
    var step := RoomStep(lines, floorArea);
    Steps.RepeatCounts(step, ([], pos), k, (st: RoomProgress) => |st.0|);
    Steps.RepeatKeeps(step, ([], pos), k, (st: RoomProgress) => pos <= st.1 <= |lines|);
  }

  /** One pass of readFloor's room loop. */
  method ReadRoomOfFloor(lines: seq<string>, floorArea: real, rooms: seq<RoomRecord>, next: nat)
    returns (r: Result<RoomProgress, LoadError>)
    ensures r == NextRoom(lines, floorArea, (rooms, next))
  {
    var room := ReadRoom(lines, next);
    if room.Failure? {
      return Failure(room.error);
    }
    // Floor.addRoom throws DuplicateRoomException or
    // InsufficientSpaceException.
    var rejection := Floors.AddRoomRejection(RecordNumbers(rooms), RecordAreas(rooms), floorArea, room.value.0.number, room.value.0.area);
    if rejection.Some? {
      return Failure(FileFormat);
    }
    return Success((rooms + [room.value.0], room.value.1));
  }

  /** The room loop of readFloor. */
  method ReadRooms(lines: seq<string>, pos: nat, count: nat, floorArea: real) returns (r: Result<RoomProgress, LoadError>)
    ensures r == RoomsFrom(lines, pos, count, floorArea)
  {
    var rooms: seq<RoomRecord> := [];
    var next := pos;
    for i := 0 to count
      invariant RoomsFrom(lines, pos, i, floorArea) == Success((rooms, next))
    {
      var room := ReadRoomOfFloor(lines, floorArea, rooms, next);
      Steps.RepeatStep(RoomStep(lines, floorArea), ([], pos), i, (rooms, next));
      if room.Failure? {
        Steps.RepeatFailureSticks(RoomStep(lines, floorArea), ([], pos), i + 1, count);
        return room;
      }
      rooms, next := room.value.0, room.value.1;
    }
    return Success((rooms, next));
  }

  /** One entry of the maintenance list in a floor header: the next token
      must parse and name a room of the floor, as getRoomByNumber must find
      one. */
  function NextOrderEntry(tokens: seq<string>, numbers: seq<int>, order: seq<int>): (r: Result<seq<int>, LoadError>)
    ensures r.Success? ==> |order| < |tokens| && |r.value| == |order| + 1
  {
    if |order| >= |tokens| then Failure(FileFormat)
    else
      var n :- Required(ParseInt(tokens[|order|]));
      if n in numbers then Success(order + [n]) else Failure(FileFormat)
  }

  function OrderStep(tokens: seq<string>, numbers: seq<int>): seq<int> -> Result<seq<int>, LoadError>
  {
    order => NextOrderEntry(tokens, numbers, order)
  }

  /** The room numbers the first `k` tokens list. */
  function OrderFrom(tokens: seq<string>, numbers: seq<int>, k: nat): Result<seq<int>, LoadError>
  {
    Steps.Repeat(OrderStep(tokens, numbers), [], k)
  }

  /** The schedule a floor header's fifth field describes. A field with more
      commas than the pieces it splits into is rejected, and so is an order
      createMaintenanceSchedule refuses. */
  function ScheduleOf(field: Option<string>, numbers: seq<int>): (r: Result<Option<seq<int>>, LoadError>)
    ensures r.Success? && r.value.Some? ==> Floors.ScheduleAccepted(r.value.value, numbers)
    ensures field.None? ==> r == Success(None)
  {
    if field.None? then Success(None)
    else
      var tokens := Split(field.value, {','});
      if Count(field.value, ',') > |tokens| then Failure(FileFormat)
      else
        var order :- OrderFrom(tokens, numbers, |tokens|);
        if Floors.ScheduleAccepted(order, numbers) then Success(Some(order)) else Failure(FileFormat)
  }

  /** One pass of readFloor's maintenance-list loop. */
  method ReadOrderEntry(tokens: seq<string>, numbers: seq<int>, order: seq<int>) returns (r: Result<seq<int>, LoadError>)
    ensures r == NextOrderEntry(tokens, numbers, order)
  {
    if |order| >= |tokens| {
      return Failure(FileFormat);
    }
    var n := ParseInt(tokens[|order|]);
    // getRoomByNumber finds no room with that number.
    if n.None? || n.value !in numbers {
      return Failure(FileFormat);
    }
    return Success(order + [n.value]);
  }

  /** The maintenance-list loop of readFloor. */
  method ReadOrder(tokens: seq<string>, numbers: seq<int>) returns (r: Result<seq<int>, LoadError>)
    ensures r == OrderFrom(tokens, numbers, |tokens|)
  {
    var order: seq<int> := [];
    for i := 0 to |tokens|
      invariant OrderFrom(tokens, numbers, i) == Success(order)
    {
      var next := ReadOrderEntry(tokens, numbers, order);
      Steps.RepeatStep(OrderStep(tokens, numbers), [], i, order);
      if next.Failure? {
        Steps.RepeatFailureSticks(OrderStep(tokens, numbers), [], i + 1, |tokens|);
        return next;
      }
      order := next.value;
    }
    return Success(order);
  }

  /** The maintenance-schedule part of readFloor. */
  method ReadSchedule(field: Option<string>, numbers: seq<int>) returns (r: Result<Option<seq<int>>, LoadError>)
    ensures r == ScheduleOf(field, numbers)
  {
    if field.None? {
      return Success(None);
    }
    var tokens := Split(field.value, {','});
    if Count(field.value, ',') > |tokens| {
      return Failure(FileFormat);
    }
    var order := ReadOrder(tokens, numbers);
    if order.Failure? {
      return Failure(order.error);
    }
    var ok := Floors.CheckMaintenanceOrder(order.value, numbers);
    if !ok {
      return Failure(FileFormat);
    }
    return Success(Some(order.value));
  }

  /** A floor block: its header line, its room blocks, and the line after
      them. */
  function FloorAt(lines: seq<string>, pos: nat): (r: Result<(FloorRecord, nat), LoadError>)
    ensures r.Success? ==> pos < r.value.1 <= |lines|
  {
    if pos >= |lines| then Failure(FileFormat)
    else
      var h :- FloorHeaderOf(lines[pos]);
      FloorBody(lines, pos + 1, h)
  }

  /** The room blocks from `pos` of a floor with header `h`, and the floor
      they and its schedule complete. */
  function FloorBody(lines: seq<string>, pos: nat, h: FloorHeader): (r: Result<(FloorRecord, nat), LoadError>)
    requires pos <= |lines|
    ensures r.Success? ==> pos <= r.value.1 <= |lines| && |r.value.0.rooms| == h.roomCount
  {
    RoomsFromShape(lines, pos, h.roomCount, h.area);
    var read :- RoomsFrom(lines, pos, h.roomCount, h.area);
    FloorOf(h, read)
  }

  /** The floor of header `h` with the rooms read, and the line after them;
      the header's schedule must name rooms of the floor. */
  function FloorOf(h: FloorHeader, read: RoomProgress): (r: Result<(FloorRecord, nat), LoadError>)
    ensures r.Success? ==> r.value.0.rooms == read.0 && r.value.1 == read.1
  {
    var schedule :- ScheduleOf(h.scheduleField, RecordNumbers(read.0));
    Success((FloorRecord(h.number, h.width, h.length, read.0, schedule), read.1))
  }

  /** readFloor, past the header line. */
  method ReadFloorBody(lines: seq<string>, pos: nat, h: FloorHeader) returns (r: Result<(FloorRecord, nat), LoadError>)
    requires pos <= |lines|
    ensures r == FloorBody(lines, pos, h)
  {
    var rooms := ReadRooms(lines, pos, h.roomCount, h.area);
    if rooms.Failure? {
      return Failure(rooms.error);
    }
    r := MakeFloor(h, rooms.value);
  }

  /** The end of readFloor: the maintenance schedule of the rooms read. */
  method MakeFloor(h: FloorHeader, read: RoomProgress) returns (r: Result<(FloorRecord, nat), LoadError>)
    ensures r == FloorOf(h, read)
  {
    var schedule := ReadSchedule(h.scheduleField, RecordNumbers(read.0));
    if schedule.Failure? {
      return Failure(schedule.error);
    }
    return Success((FloorRecord(h.number, h.width, h.length, read.0, schedule.value), read.1));
  }

  /** readFloor. */
  method ReadFloor(lines: seq<string>, pos: nat) returns (r: Result<(FloorRecord, nat), LoadError>)
    ensures r == FloorAt(lines, pos)
  {
    // readLine yields null past the end of the file.
    if pos >= |lines| {
      return Failure(FileFormat);
    }
    var header := FloorHeaderOf(lines[pos]);
    if header.Failure? {
      return Failure(header.error);
    }
    r := ReadFloorBody(lines, pos + 1, header.value);
  }

  function RecordFootprint(f: FloorRecord): Buildings.Footprint
  {
    Buildings.Footprint(f.number, f.width, f.length)
  }

  function RecordFootprints(floors: seq<FloorRecord>): (fps: seq<Buildings.Footprint>)
    ensures |fps| == |floors|
    ensures forall i :: 0 <= i < |floors| ==> fps[i] == RecordFootprint(floors[i])
  {
    seq(|floors|, i requires 0 <= i < |floors| => RecordFootprint(floors[i]))
  }

  // ---------------------------------------------------------------------
  // Buildings

  /** What loadBuildings' floor loop has read so far: the floors, and the
      index of the next line. */
  type FloorProgress = (seq<FloorRecord>, nat)

  /** One pass of loadBuildings' floor loop: the next floor block, which
      Building.addFloor must accept after the floors before it. */
  function NextFloor(lines: seq<string>, st: FloorProgress): (r: Result<FloorProgress, LoadError>)
    ensures r.Success? ==> st.1 < r.value.1 <= |lines| && |r.value.0| == |st.0| + 1
  {
    var floor :- FloorAt(lines, st.1);
    if Buildings.AddFloorRejection(RecordFootprints(st.0), RecordFootprint(floor.0)).Some? then Failure(FileFormat)
    else Success((st.0 + [floor.0], floor.1))
  }

  function FloorStep(lines: seq<string>): FloorProgress -> Result<FloorProgress, LoadError>
  {
    st => NextFloor(lines, st)
  }

  /** The first `k` floor blocks from `pos`, and the line after them. */
  function FloorsFrom(lines: seq<string>, pos: nat, k: nat): Result<FloorProgress, LoadError>
  {
    Steps.Repeat(FloorStep(lines), ([], pos), k)
  }

  /** `k` floors read take lines from `pos` up to the end of the file. */
  lemma FloorsFromShape(lines: seq<string>, pos: nat, k: nat)
    requires pos <= |lines|
    ensures FloorsFrom(lines, pos, k).Success? ==>
      |FloorsFrom(lines, pos, k).value.0| == k && pos <= FloorsFrom(lines, pos, k).value.1 <= |lines|
  {
    var step := FloorStep(lines);
    Steps.RepeatCounts(step, ([], pos), k, (st: FloorProgress) => |st.0|);
    Steps.RepeatKeeps(step, ([], pos), k, (st: FloorProgress) => pos <= st.1 <= |lines|);
  }

  /** The number of floors of the building whose name is at `pos`: the
      name must have no ':', and the next line must be a non-negative
      number. */
  function FloorCountAt(lines: seq<string>, pos: nat): (r: Result<nat, LoadError>)
    requires pos < |lines|
    ensures r.Success? ==> pos + 2 <= |lines|
  {
    if ':' in lines[pos] then Failure(FileFormat)
    // Integer.parseInt(null) throws NumberFormatException.
    else if pos + 1 == |lines| then Failure(FileFormat)
    else
      var count :- Required(ParseInt(lines[pos + 1]));
      if count < 0 then Failure(FileFormat) else Success(count)
  }

  /** A building block: a name line, a line with its number of floors, and
      that many floor blocks. */
  function BuildingAt(lines: seq<string>, pos: nat): (r: Result<(BuildingRecord, nat), LoadError>)
    requires pos < |lines|
    ensures r.Success? ==> pos < r.value.1 <= |lines| && r.value.0.name == lines[pos]
  {
    var count :- FloorCountAt(lines, pos);
    FloorsFromShape(lines, pos + 2, count);
    var read :- FloorsFrom(lines, pos + 2, count);
    Success((BuildingRecord(lines[pos], read.0), read.1))
  }

  /** The buildings from `pos` to the end of the file, appended to `acc`. */
  function BuildingsFrom(lines: seq<string>, pos: nat, acc: seq<BuildingRecord>): (r: Result<seq<BuildingRecord>, LoadError>)
    requires pos <= |lines|
    decreases |lines| - pos
  {
    if pos == |lines| then Success(acc)
    else
      var b :- BuildingAt(lines, pos);
      BuildingsFrom(lines, b.1, acc + [b.0])
  }

  /** loadBuildings on the lines of a file. */
  function Load(lines: seq<string>): Result<seq<BuildingRecord>, LoadError>
  {
    BuildingsFrom(lines, 0, [])
  }

  /** One pass of the floor loop of loadBuildings. */
  method ReadFloorOfBuilding(lines: seq<string>, floors: seq<FloorRecord>, next: nat) returns (r: Result<FloorProgress, LoadError>)
    ensures r == NextFloor(lines, (floors, next))
  {
    var floor := ReadFloor(lines, next);
    if floor.Failure? {
      return Failure(floor.error);
    }
    // Building.addFloor throws DuplicateFloorException,
    // NoFloorBelowException or FloorTooSmallException.
    if Buildings.AddFloorRejection(RecordFootprints(floors), RecordFootprint(floor.value.0)).Some? {
      return Failure(FileFormat);
    }
    return Success((floors + [floor.value.0], floor.value.1));
  }

  /** The floor loop of loadBuildings. */
  method ReadFloors(lines: seq<string>, pos: nat, count: nat) returns (r: Result<FloorProgress, LoadError>)
    ensures r == FloorsFrom(lines, pos, count)
  {
    var floors: seq<FloorRecord> := [];
    var next := pos;
    for i := 0 to count
      invariant FloorsFrom(lines, pos, i) == Success((floors, next))
    {
      var floor := ReadFloorOfBuilding(lines, floors, next);
      Steps.RepeatStep(FloorStep(lines), ([], pos), i, (floors, next));
      if floor.Failure? {
        Steps.RepeatFailureSticks(FloorStep(lines), ([], pos), i + 1, count);
        return floor;
      }
      floors, next := floor.value.0, floor.value.1;
    }
    return Success((floors, next));
  }

  /** The first two lines of a building block. */
  method ReadFloorCount(lines: seq<string>, pos: nat) returns (r: Result<nat, LoadError>)
    requires pos < |lines|
    ensures r == FloorCountAt(lines, pos)
  {
    if ':' in lines[pos] {
      return Failure(FileFormat);
    }
    if pos + 1 == |lines| {
      return Failure(FileFormat);
    }
    var count := ParseInt(lines[pos + 1]);
    if count.None? || count.value < 0 {
      return Failure(FileFormat);
    }
    return Success(count.value);
  }

  /** One pass of the building loop of loadBuildings. */
  method ReadBuilding(lines: seq<string>, pos: nat) returns (r: Result<(BuildingRecord, nat), LoadError>)
    requires pos < |lines|
    ensures r == BuildingAt(lines, pos)
  {
    var count := ReadFloorCount(lines, pos);
    if count.Failure? {
      return Failure(count.error);
    }
    var floors := ReadFloors(lines, pos + 2, count.value);
    if floors.Failure? {
      return Failure(floors.error);
    }
    return Success((BuildingRecord(lines[pos], floors.value.0), floors.value.1));
  }

  /** loadBuildings: reads buildings until the end of the file. */
  method LoadBuildings(lines: seq<string>) returns (r: Result<seq<BuildingRecord>, LoadError>)
    ensures r == Load(lines)
  {
    var buildings: seq<BuildingRecord> := [];
    var pos := 0;
    while pos < |lines|
      invariant pos <= |lines|
      invariant Load(lines) == BuildingsFrom(lines, pos, buildings)
      decreases |lines| - pos
    {
      var b := ReadBuilding(lines, pos);
      if b.Failure? {
        return Failure(b.error);
      }
      buildings := buildings + [b.value.0];
      pos := b.value.1;
    }
    return Success(buildings);
  }
}
