# Building Management System: a verified model of its core

This project is a Dafny model of the core of a Java building management
system (package `bms`). It covers:

- The building file loader (`BuildingInitialiser`). It reads a text file of
  buildings, floors, rooms and sensor lines. Every malformed block makes the
  whole load fail.
- `Building` and `Floor`, and the checks they make before a floor or room is
  added. Also the floor's dimension change and its maintenance-schedule
  installation, and the fire drills that walk every room.
- `MaintenanceSchedule`: a rotation over a floor's rooms. The current room's
  maintenance flag moves on when its maintenance time has elapsed or when it
  is skipped.
- The rule-based and weighting-based hazard evaluators of a room.
- The carbon dioxide sensor: its constructor checks, hazard table, comfort
  formula and equality.
- `StudyRoomRecommender`: a climb from the first floor upwards that keeps the
  most comfortable open study room.

Modules follow the Java structure:

| module | file | models |
|---|---|---|
| `Rooms` | rooms.dfy | room types, room states, the minimum area, the `Room` class (number, type, area, maintenance and fire-drill flags) |
| `Sensors` | sensors.dfy | sensor configurations, the timed-sensor constructor check, `CarbonDioxideSensor` |
| `HazardEvaluation` | hazard.dfy | `RuleBasedHazardEvaluator`, `WeightingBasedHazardEvaluator` |
| `Maintenance` | schedule.dfy | `MaintenanceSchedule` as a class over shared `Room` objects |
| `Floors` | floors.dfy | `Floor` as a class, and the `addRoom` and `createMaintenanceSchedule` rules as functions |
| `Buildings` | buildings.dfy | `Building` as a class, and the `addFloor` rule on floor footprints |
| `Loader` | loader.dfy | `BuildingInitialiser` over a sequence of lines |
| `LoaderFacts` | loader_facts.dfy | what every loaded file satisfies, and the loader's rejection rules |
| `StudyRooms` | recommender.dfy | `StudyRoomRecommender` |
| `Text`, `Collections`, `Steps`, `Wrappers` | text.dfy, collections.dfy, steps.dfy, wrappers.dfy | Java's `String.split`, `Integer.parseInt` and `List.indexOf`; sums and means; a step repeated a counted number of times; `Option` and `Result` |

Approach:

- Imperative Java code is imperative Dafny: classes with fields, `modifies`
  frames and loops with invariants. Each loop method is proved equal to a
  specification function, or states its new state in full. The properties
  the source promises are proved about those functions as lemmas.
- The loader reads an in-memory sequence of lines with a cursor, as the Java
  reader advances line by line. It builds value records of the buildings,
  floors and rooms it reads. It applies the same rules (`AddFloorRejection`,
  `AddRoomRejection`, `ScheduleAccepted`) that the `Building` and `Floor`
  classes apply.
- Java doubles are exact reals. `Math.round(x)` is `(x + 0.5).Floor`, and a
  cast of a non-negative double to `int` is `.Floor`.

Where the Javadoc and the code part ways, or the Javadoc is silent, the
model follows the code:

- `skipCurrentMaintenance` is documented to take the steps of the
  dot-point list of `elapseOneMinute` (MaintenanceSchedule.java:122-140,
  158-163). That list moves the maintenance flag and says nothing of the
  elapsed time. `elapseOneMinute` resets the elapsed time in its code; the
  skip leaves it as it is (MaintenanceSchedule.java:166-174).
- `loadBuildings` documents that more or fewer colons than expected are a
  format error (BuildingInitialiser.java:109). Sensor fields are read by
  index, so extra trailing fields on a sensor line are ignored
  (BuildingInitialiser.java:353-378).
- The `Floor` constructor does no validation (Floor.java:73-80). Minimum
  width and length are checked by `Building.addFloor` (Building.java:110-139)
  and by `Floor.changeDimensions` (Floor.java:193-202), never at
  construction.
- `createMaintenanceSchedule` is documented to reject an order of two or
  more entries with the same room twice in a row, wrap-around included
  (Floor.java:318-335). The code rejects an order whose first and last
  entries are the same room, so every one-room order is rejected. It also
  rejects an order where a room's first occurrence is interior and has the
  same room beside it. So `[A, A, B]` is accepted (Floor.java:339-356).
- `String.split` drops trailing empty fields. So a floor header
  `1:10:10:2:` has four colons but four fields, and carries no maintenance
  list; `1:10:10:` throws an uncaught `ArrayIndexOutOfBoundsException`
  (BuildingInitialiser.java:189-207).

## Model

| member | source | states |
|---|---|---|
| Rooms.RoomTypeNamed | ass2/src/bms/building/BuildingInitialiser.java:321 | `RoomType.valueOf` gives the type whose name is exactly the text, and nothing when no type has that name |
| Rooms.Room.constructor | ass2/src/bms/building/BuildingInitialiser.java:333 | a new room has the given number, type and area, and is neither in maintenance nor in a fire drill |
| Sensors.NewTemperatureSensor | ass2/src/bms/building/BuildingInitialiser.java:474-482 | a temperature sensor is built exactly when the timed-sensor check accepts its readings with frequency 1 |
| Sensors.NewNoiseSensor | ass2/src/bms/sensors/NoiseSensor.java:25-27 | a noise sensor is built exactly when the timed-sensor check accepts its readings and frequency |
| Sensors.NewOccupancySensor | ass2/src/bms/building/BuildingInitialiser.java:450-461 | an occupancy sensor is built exactly when the timed-sensor check passes and the capacity is not negative |
| Sensors.NewCarbonDioxideSensor | ass2/src/bms/sensors/CarbonDioxideSensor.java:45-65 | the sensor is built exactly when the timed-sensor check passes, ideal > 0, limit > 0 and ideal - limit >= 0 |
| Sensors.CarbonDioxideHazard | ass2/src/bms/sensors/CarbonDioxideSensor.java:110-122 | the whole table: 0 exactly below 1000 ppm, 25 exactly for 1000-1999, 50 exactly for 2000-4999 and 100 exactly from 5000 ppm |
| Sensors.CarbonDioxideHazardMonotone | ass2/src/bms/sensors/CarbonDioxideSensor.java:110-122 | more carbon dioxide never gives a lower hazard level |
| Sensors.CarbonDioxideComfort | ass2/src/bms/sensors/CarbonDioxideSensor.java:157-165 | comfort lies in [0, 100]; it is 0 once the distance from the ideal reaches the limit, and otherwise 100 - distance/limit*100 rounded to nearest |
| Sensors.CarbonDioxideComfortExamples | ass2/src/bms/sensors/CarbonDioxideSensor.java:136-149 | the documented examples: 600/200 at 640 gives 80, 500/100 at 420 gives 20, and a reading beyond the limit gives 0 |
| Sensors.CarbonDioxideComfortAtIdeal | ass2/src/bms/sensors/CarbonDioxideSensor.java:157-165 | a reading at the ideal value is fully comfortable (100) |
| Sensors.CarbonDioxideEqualsIsConfiguration | ass2/src/bms/sensors/CarbonDioxideSensor.java:183-194 | two carbon dioxide sensors are equal exactly when readings, frequency, ideal value and limit all agree |
| HazardEvaluation.EvaluateRuleBased | ass2/src/bms/hazardevaluation/RuleBasedHazardEvaluator.java:62-95 | the loop with early return computes the rule-based level of the sensor list |
| HazardEvaluation.ScanSensors | ass2/src/bms/hazardevaluation/RuleBasedHazardEvaluator.java:75-88 | the sensor loop stops exactly at a saturating non-occupancy sensor; otherwise it yields the sum and count of the non-occupancy levels and the last occupancy level |
| HazardEvaluation.AverageAndScale | ass2/src/bms/hazardevaluation/RuleBasedHazardEvaluator.java:89-94 | the mean, scaled by occupancy/100 when there is an occupancy sensor, floored and capped at 100; 0 when no sensor counts |
| HazardEvaluation.RuleBasedNoSensors | ass2/src/bms/hazardevaluation/RuleBasedHazardEvaluator.java:65-66 | no sensors give level 0 |
| HazardEvaluation.RuleBasedOneSensor | ass2/src/bms/hazardevaluation/RuleBasedHazardEvaluator.java:67-68 | one sensor gives that sensor's level |
| HazardEvaluation.RuleBasedSaturates | ass2/src/bms/hazardevaluation/RuleBasedHazardEvaluator.java:76-78 | with two or more sensors, a non-occupancy sensor at 100 or more gives 100 |
| HazardEvaluation.RuleBasedMean | ass2/src/bms/hazardevaluation/RuleBasedHazardEvaluator.java:84-94 | without occupancy sensors, the level is the mean of the levels rounded down and capped at 100 |
| HazardEvaluation.RuleBasedScaledByOccupancy | ass2/src/bms/hazardevaluation/RuleBasedHazardEvaluator.java:80-94 | with one occupancy sensor, the mean of the other levels is scaled by the occupancy level over 100, then floored and capped |
| HazardEvaluation.RuleBasedRange | ass2/src/bms/hazardevaluation/RuleBasedHazardEvaluator.java:94 | for sensor levels in [0, 100] the evaluated level is in [0, 100] |
| HazardEvaluation.NonOccupancyLevelsAll | ass2/src/bms/hazardevaluation/RuleBasedHazardEvaluator.java:84-87 | without occupancy sensors every level counts towards the mean, in list order |
| HazardEvaluation.OneOccupancy | ass2/src/bms/hazardevaluation/RuleBasedHazardEvaluator.java:80-87 | with a single occupancy sensor, the others count towards the mean and its level is the one that scales |
| HazardEvaluation.CheckWeightings | ass2/src/bms/hazardevaluation/WeightingBasedHazardEvaluator.java:38-51 | the constructor accepts exactly weights that are each in [0, 100] and sum to 100 |
| HazardEvaluation.ValidWeightsNonEmpty | ass2/src/bms/hazardevaluation/WeightingBasedHazardEvaluator.java:47-49 | an empty weighting map is rejected |
| HazardEvaluation.EvaluateWeightingBased | ass2/src/bms/hazardevaluation/WeightingBasedHazardEvaluator.java:67-76 | the loop computes the weighted total over 100, divided by the number of sensors, floored and capped at 100 |
| HazardEvaluation.GetWeightings | ass2/src/bms/hazardevaluation/WeightingBasedHazardEvaluator.java:85-92 | the weights, one per entry, in entry order |
| HazardEvaluation.WeightedTotalBounds | ass2/src/bms/hazardevaluation/WeightingBasedHazardEvaluator.java:69-73 | for levels in [0, 100] the weighted total lies between 0 and the sum of the weights |
| HazardEvaluation.WeightedLevelRange | ass2/src/bms/hazardevaluation/WeightingBasedHazardEvaluator.java:74-75 | for levels in [0, 100] and accepted weights the level is in [0, 100], and at most 100 over the number of sensors |
| Maintenance.BaseTime | ass2/src/bms/floor/MaintenanceSchedule.java:79-84 | the time before the type multiplier is at least 5 minutes |
| Maintenance.Multiplier | ass2/src/bms/floor/MaintenanceSchedule.java:86-92 | the type multiplier is at least 1 |
| Maintenance.MaintenanceTime | ass2/src/bms/floor/MaintenanceSchedule.java:78-94 | the base time times the type multiplier, rounded to nearest; never less than 5 |
| Maintenance.MaintenanceTimeExamples | ass2/test/bms/floor/MaintenanceScheduleTest.java:55-75 | 5, 8 and 10 minutes for minimum-area study, office and laboratory rooms; 6, 9 and 12 for rooms 5 units larger |
| Maintenance.MaintenanceTimeMonotone | ass2/src/bms/floor/MaintenanceSchedule.java:78-94 | a larger room of the same type never takes less time |
| Maintenance.Successor | ass2/src/bms/floor/MaintenanceSchedule.java:145-153 | the next position lies within the order: after the current room's first occurrence, wrapping from last to first |
| Maintenance.SuccessorOfDistinct | ass2/src/bms/floor/MaintenanceSchedule.java:149-153 | in an order without repeated rooms, the rotation visits the rooms in order and wraps at the end |
| Maintenance.FirstInMaintenance | ass2/src/bms/floor/MaintenanceSchedule.java:103-107 | the position of the first flagged room, and nothing exactly when no room is flagged |
| Maintenance.MaintenanceSchedule.constructor | ass2/src/bms/floor/MaintenanceSchedule.java:45-50 | the schedule keeps the order, flags its first room and starts at 0 minutes; that room's fire-drill flag is unchanged |
| Maintenance.MaintenanceSchedule.CurrentIndex | ass2/src/bms/floor/MaintenanceSchedule.java:102-109 | the current room is the first flagged room, or the first room when none is flagged |
| Maintenance.MaintenanceSchedule.CurrentIsFirstOccurrence | ass2/src/bms/floor/MaintenanceSchedule.java:145 | `indexOf` of the current room finds the current position |
| Maintenance.MaintenanceSchedule.GetCurrentRoom | ass2/src/bms/floor/MaintenanceSchedule.java:102-109 | the search loop returns the room at the current position |
| Maintenance.MaintenanceSchedule.GetTimeElapsedCurrentRoom | ass2/src/bms/floor/MaintenanceSchedule.java:118-120 | the minutes elapsed on the current room |
| Maintenance.MaintenanceSchedule.MoveToNextRoom | ass2/src/bms/floor/MaintenanceSchedule.java:167-173 | clears the current room's flag and flags the room after its first occurrence; no other maintenance flag and no fire-drill flag changes |
| Maintenance.MaintenanceSchedule.ElapseOneMinute | ass2/src/bms/floor/MaintenanceSchedule.java:142-156 | nothing changes while the current room evacuates; otherwise the minute counts; on reaching the maintenance time the counter resets and the flag moves on; only one room stays flagged; no fire-drill flag changes |
| Maintenance.MaintenanceSchedule.SkipCurrentMaintenance | ass2/src/bms/floor/MaintenanceSchedule.java:166-174 | the flag moves to the next room whatever the room's state, and the elapsed time is unchanged; only one room stays flagged; no fire-drill flag changes |
| Maintenance.MaintenanceSchedule.FlagMovedKeepsOnlyCurrent | ass2/src/bms/floor/MaintenanceSchedule.java:148-153 | moving the flag from the only flagged room makes the next room the only flagged one and the current one |
| Maintenance.MaintenanceSchedule.Encode | ass2/src/bms/floor/MaintenanceSchedule.java:217-223 | the room numbers in order, joined by commas, with no trailing comma |
| Floors.FloorArea | ass2/src/bms/floor/Floor.java:216-218 | the area of non-negative dimensions is not negative |
| Floors.AddRoomRejection | ass2/src/bms/floor/Floor.java:250-268 | a room is accepted exactly when its area is at least the minimum, its number is new and it fits the free area; an area below the minimum is the first reason given |
| Floors.AddRoomKeepsRoomsFit | ass2/src/bms/floor/Floor.java:263-271 | an accepted room keeps the occupied area within the floor area, and keeps room numbers distinct |
| Floors.EmptyFloorFits | ass2/src/bms/floor/Floor.java:73-80 | a new floor of non-negative area satisfies the room invariant |
| Floors.CheckMaintenanceOrder | ass2/src/bms/floor/Floor.java:339-356 | the validation loop answers exactly the acceptance rule for maintenance orders |
| Floors.FirstOccurrenceIndex | ass2/src/bms/floor/Floor.java:348-351 | `indexOf` of a room at its first occurrence finds that occurrence |
| Floors.OneRoomOrderRejected | ass2/src/bms/floor/Floor.java:342-344 | every one-room order is rejected, since its first and last entries are the same room |
| Floors.RepeatAtStartAccepted | ass2/src/bms/floor/Floor.java:346-356 | `[a, a, b]` is accepted: only interior first occurrences are checked for a neighbour that is the same room |
| Floors.DistinctOrderAccepted | ass2/src/bms/floor/Floor.java:339-356 | an order of two or more distinct rooms of the floor is accepted |
| Floors.Floor.constructor | ass2/src/bms/floor/Floor.java:73-80 | a new floor has the given number and dimensions, no rooms and no schedule, unchecked |
| Floors.Floor.GetRoomByNumber | ass2/src/bms/floor/Floor.java:166-173 | the first room with that number, and null exactly when there is none |
| Floors.Floor.OccupiedArea | ass2/src/bms/floor/Floor.java:227-233 | the rooms' areas added up |
| Floors.Floor.AddRoom | ass2/src/bms/floor/Floor.java:250-272 | the reason of the addRoom rule is returned; on acceptance the room is appended, otherwise nothing changes; occupied area stays within the floor area |
| Floors.Floor.ChangeDimensions | ass2/src/bms/floor/Floor.java:193-202 | rejects a dimension below 5, then a new area below the occupied area; otherwise sets both dimensions; rejection changes nothing |
| Floors.Floor.FireDrill | ass2/src/bms/floor/Floor.java:287-293 | every room of the given type, or every room when no type is given, enters fire-drill mode; no other flag changes |
| Floors.Floor.CancelFireDrill | ass2/src/bms/floor/Floor.java:302-306 | no room of the floor is left in fire-drill mode; maintenance flags are unchanged |
| Floors.Floor.ScheduledRoom | ass2/src/bms/floor/Floor.java:357-359 | the room the installed schedule maintains is a room of the floor |
| Floors.Floor.CreateMaintenanceSchedule | ass2/src/bms/floor/Floor.java:337-364 | an accepted order clears the old schedule's current flag and installs a new schedule flagging the order's first room; a rejected order changes nothing; no room's fire-drill flag changes |
| Buildings.AddFloorRejection | ass2/src/bms/building/Building.java:110-139 | the addFloor checks in order: number below 1 or a dimension below 5, a duplicate number, no floor below, a floor wider or longer than the one below; accepted exactly when none applies |
| Buildings.StackedFloorPosition | ass2/src/bms/building/Building.java:81-88 | in a stacked building floor k is found at position k - 1 |
| Buildings.StackedAddFloorAccepts | ass2/src/bms/building/Building.java:114-142 | on a stacked building addFloor accepts exactly the next floor up, at least 5 by 5 and no larger than the top floor |
| Buildings.AddFloorKeepsStacked | ass2/src/bms/building/Building.java:125-142 | addFloor keeps floors numbered 1..n in list order, each no wider or longer than the one below |
| Buildings.Building.constructor | ass2/src/bms/building/Building.java:43-46 | a new building has the name and no floors |
| Buildings.Building.GetFloorByNumber | ass2/src/bms/building/Building.java:81-88 | the first floor with that number, and null exactly when there is none |
| Buildings.Building.FloorRejection | ass2/src/bms/building/Building.java:114-139 | the guard checks of addFloor compute the addFloor rule |
| Buildings.Building.AddFloor | ass2/src/bms/building/Building.java:110-143 | on rejection the floor list is unchanged; on acceptance the floor is appended at the end; stacking is preserved |
| Buildings.Building.HasRooms | ass2/src/bms/building/Building.java:219-224 | true exactly when some floor has a room |
| Buildings.Building.FireDrill | ass2/src/bms/building/Building.java:214-233 | rejected exactly when there are no floors or no rooms; otherwise every room the drill reaches, on every floor, enters fire-drill mode and nothing else changes |
| Buildings.Building.CancelFireDrill | ass2/src/bms/building/Building.java:242-246 | no room of the building is left in fire-drill mode; maintenance flags are unchanged |
| Loader.ParseInts | ass2/src/bms/building/BuildingInitialiser.java:426 | a list of integers is read exactly when every part parses, part by part |
| Loader.ReadTemperature | ass2/src/bms/building/BuildingInitialiser.java:474-482 | a temperature sensor built from the readings listed, or a format failure |
| Loader.ReadNoise | ass2/src/bms/building/BuildingInitialiser.java:497-506 | a constructed noise sensor with the readings and frequency given |
| Loader.ReadOccupant | ass2/src/bms/building/BuildingInitialiser.java:450-461 | a constructed occupancy sensor with the readings, frequency and capacity given |
| Loader.ReadCarbon | ass2/src/bms/building/BuildingInitialiser.java:421-434 | a constructed carbon dioxide sensor with the readings, frequency, ideal value and limit given |
| Loader.ReadingsOfIntList | ass2/src/bms/building/BuildingInitialiser.java:426 | a non-empty list of Java ints written with commas reads back as the same list |
| Loader.ReadersRebuildSensor | ass2/src/bms/building/BuildingInitialiser.java:421-506 | each reader rebuilds any sensor its constructor accepts from that sensor's fields in decimal |
| Loader.KindNamed | ass2/src/bms/building/BuildingInitialiser.java:353-383 | the first field names a sensor kind exactly when it is one of the four sensor class names; any other name is rejected |
| Loader.WeightAt | ass2/src/bms/building/BuildingInitialiser.java:355-377 | a weight is read exactly in a weighting-based room |
| Loader.ReadSensor | ass2/src/bms/building/BuildingInitialiser.java:353-380 | the sensor read is of the kind named and passed its constructor |
| Loader.SensorLine | ass2/src/bms/building/BuildingInitialiser.java:343-386 | an accepted sensor line starts with its sensor's name, its sensor passed its constructor, and it has a weight exactly in a weighting-based room |
| Loader.NextSensor | ass2/src/bms/building/BuildingInitialiser.java:339-391 | a sensor line is taken only when the file has one more line; the room gains one sensor; every failure is a format error |
| Loader.AddSensor | ass2/src/bms/building/BuildingInitialiser.java:387-391 | the room takes the line's sensor, appended; every failure is a format error |
| Loader.SensorsFromShape | ass2/src/bms/building/BuildingInitialiser.java:338-392 | k sensor lines read are the k lines after the header |
| Loader.SensorsFailure | ass2/src/bms/building/BuildingInitialiser.java:338-392 | a failing sensor loop fails with a format error |
| Loader.EvaluatorOf | ass2/src/bms/building/BuildingInitialiser.java:394-398 | a weighting-based evaluator is given only weights its constructor accepts |
| Loader.ModeOf | ass2/src/bms/building/BuildingInitialiser.java:309-317 | a fifth header field is accepted exactly when it is `WeightingBased` or `RuleBased`; without one the room gets no evaluator |
| Loader.RoomHeaderOf | ass2/src/bms/building/BuildingInitialiser.java:287-336 | an accepted room header has 3 or 4 colons, a number of at least 0, an area of at least the room minimum, and the evaluator its fifth field names |
| Loader.RoomAt | ass2/src/bms/building/BuildingInitialiser.java:280-403 | a room block is read only when its header line exists; it takes at least one line; every failure is a format error |
| Loader.RoomBody | ass2/src/bms/building/BuildingInitialiser.java:338-399 | the room reads exactly as many sensor lines as its header declares; every failure is a format error |
| Loader.ReadSensorLine | ass2/src/bms/building/BuildingInitialiser.java:339-391 | one pass of the sensor loop computes the next-sensor rule |
| Loader.ReadSensors | ass2/src/bms/building/BuildingInitialiser.java:338-392 | the sensor loop computes the first k sensor lines |
| Loader.MakeEvaluator | ass2/src/bms/building/BuildingInitialiser.java:394-398 | the evaluator the room is given |
| Loader.ReadRoomBody | ass2/src/bms/building/BuildingInitialiser.java:338-399 | the room from its sensor lines and evaluator |
| Loader.ReadRoom | ass2/src/bms/building/BuildingInitialiser.java:280-403 | readRoom computes the room block at the cursor |
| Loader.Field | ass2/src/bms/building/BuildingInitialiser.java:204-207 | a missing header field is an index-out-of-bounds failure |
| Loader.Required | ass2/src/bms/building/BuildingInitialiser.java:208-210 | an unparsable field is a format error |
| Loader.FloorHeaderOf | ass2/src/bms/building/BuildingInitialiser.java:185-214 | an accepted floor header has 3 or 4 colons, a positive number and non-negative dimensions; it carries a maintenance list exactly when it splits into 5 fields; an index error needs fewer than 4 fields |
| Loader.NextRoom | ass2/src/bms/building/BuildingInitialiser.java:222-231 | one room block is read and addRoom must accept it; the floor gains one room |
| Loader.RoomsFromShape | ass2/src/bms/building/BuildingInitialiser.java:222-231 | k rooms read take lines from the cursor onwards, within the file |
| Loader.ReadRoomOfFloor | ass2/src/bms/building/BuildingInitialiser.java:223-230 | one pass of the room loop computes the next-room rule |
| Loader.ReadRooms | ass2/src/bms/building/BuildingInitialiser.java:222-231 | the room loop computes the first k room blocks |
| Loader.NextOrderEntry | ass2/src/bms/building/BuildingInitialiser.java:242-252 | a maintenance token is taken only while tokens remain; the order gains one room number |
| Loader.ScheduleOf | ass2/src/bms/building/BuildingInitialiser.java:235-259 | no fifth field gives no schedule; a schedule read is one createMaintenanceSchedule accepts |
| Loader.ReadOrderEntry | ass2/src/bms/building/BuildingInitialiser.java:243-251 | one pass of the maintenance-list loop computes the next-entry rule |
| Loader.ReadOrder | ass2/src/bms/building/BuildingInitialiser.java:242-252 | the maintenance-list loop computes the room numbers of all tokens |
| Loader.ReadSchedule | ass2/src/bms/building/BuildingInitialiser.java:235-259 | the schedule part of readFloor computes the schedule rule |
| Loader.FloorAt | ass2/src/bms/building/BuildingInitialiser.java:183-266 | a floor block is read only when its header line exists, and takes at least one line |
| Loader.FloorBody | ass2/src/bms/building/BuildingInitialiser.java:222-261 | the floor reads exactly as many rooms as its header declares |
| Loader.FloorOf | ass2/src/bms/building/BuildingInitialiser.java:235-265 | the floor keeps the rooms read and the cursor after them |
| Loader.ReadFloorBody | ass2/src/bms/building/BuildingInitialiser.java:222-265 | the rest of readFloor computes the floor body |
| Loader.MakeFloor | ass2/src/bms/building/BuildingInitialiser.java:235-265 | the end of readFloor computes the floor with its schedule |
| Loader.ReadFloor | ass2/src/bms/building/BuildingInitialiser.java:183-266 | readFloor computes the floor block at the cursor |
| Loader.NextFloor | ass2/src/bms/building/BuildingInitialiser.java:152-161 | one floor block is read and addFloor must accept it; the building gains one floor |
| Loader.FloorsFromShape | ass2/src/bms/building/BuildingInitialiser.java:152-161 | k floors read take lines from the cursor onwards, within the file |
| Loader.FloorCountAt | ass2/src/bms/building/BuildingInitialiser.java:135-145 | the floor count is read only when its line exists |
| Loader.BuildingAt | ass2/src/bms/building/BuildingInitialiser.java:134-162 | a building block takes at least its name line and keeps that name |
| Loader.ReadFloorOfBuilding | ass2/src/bms/building/BuildingInitialiser.java:153-160 | one pass of the floor loop computes the next-floor rule |
| Loader.ReadFloors | ass2/src/bms/building/BuildingInitialiser.java:152-161 | the floor loop computes the first k floor blocks |
| Loader.ReadFloorCount | ass2/src/bms/building/BuildingInitialiser.java:135-145 | the first two lines of a building block compute the floor count rule |
| Loader.ReadBuilding | ass2/src/bms/building/BuildingInitialiser.java:134-162 | one pass of the building loop computes the building block at the cursor |
| Loader.LoadBuildings | ass2/src/bms/building/BuildingInitialiser.java:122-169 | loadBuildings computes the load of the whole file |
| LoaderFacts.SensorLineAccepts | ass2/src/bms/building/BuildingInitialiser.java:339-391 | a sensor line is taken exactly when the line exists, reads, and brings a kind the room lacks; an unknown sensor name is a format error |
| LoaderFacts.SensorStepKeeps | ass2/src/bms/building/BuildingInitialiser.java:387-391 | a taken sensor line keeps the room's sensor kinds distinct and its weights matching its evaluator |
| LoaderFacts.SensorsFromFit | ass2/src/bms/building/BuildingInitialiser.java:338-392 | all sensor lines of a room that reads them fit the room |
| LoaderFacts.RoomAtWellFormed | ass2/src/bms/building/BuildingInitialiser.java:280-403 | a room that reads is well formed and takes its header line plus one line per sensor |
| LoaderFacts.RoomStepKeeps | ass2/src/bms/building/BuildingInitialiser.java:222-231 | a room the floor takes keeps the rooms fitting the floor |
| LoaderFacts.RoomsReadSnoc | ass2/src/bms/floor/Floor.java:250-271 | a well-formed room addRoom accepts keeps the rooms read fitting |
| LoaderFacts.RoomsFromFit | ass2/src/bms/building/BuildingInitialiser.java:222-231 | the rooms of a floor that reads them all fit it |
| LoaderFacts.FloorAtWellFormed | ass2/src/bms/building/BuildingInitialiser.java:183-266 | a floor that reads is well formed: rooms fit, rooms are well formed, a schedule is accepted, and the number is positive |
| LoaderFacts.FloorBodyWellFormed | ass2/src/bms/building/BuildingInitialiser.java:222-265 | rooms and schedule after a header make a well-formed floor of that header |
| LoaderFacts.FloorStepKeeps | ass2/src/bms/building/BuildingInitialiser.java:152-161 | a floor the building takes keeps its floors stacked and well formed |
| LoaderFacts.FloorsFromFit | ass2/src/bms/building/BuildingInitialiser.java:152-161 | the floors of a building that reads them all are stacked and well formed |
| LoaderFacts.BuildingAtWellFormed | ass2/src/bms/building/BuildingInitialiser.java:134-162 | a building that reads is well formed |
| LoaderFacts.BuildingsFromWellFormed | ass2/src/bms/building/BuildingInitialiser.java:134-163 | the buildings read from a cursor on are well formed when those before them are |
| LoaderFacts.LoadedBuildingsWellFormed | ass2/src/bms/building/BuildingInitialiser.java:122-169 | every building of a file that loads is well formed: a name without ':', stacked floors, fitting rooms, accepted schedules |
| LoaderFacts.FloorCountAccepts | ass2/src/bms/building/BuildingInitialiser.java:135-145 | a building's first two lines are accepted exactly when the name has no ':' and the next line exists and parses to a non-negative number |
| LoaderFacts.LoadEmptyFile | ass2/src/bms/building/BuildingInitialiser.java:134 | an empty file loads as no buildings |
| LoaderFacts.LoadNameWithColon | ass2/src/bms/building/BuildingInitialiser.java:135-137 | a building name containing ':' is rejected |
| LoaderFacts.LoadMissingFloorCount | ass2/src/bms/building/BuildingInitialiser.java:138-145 | a file that ends after a building name is rejected |
| LoaderFacts.LoadBadFloorCount | ass2/src/bms/building/BuildingInitialiser.java:138-145 | an unparsable or negative floor count is rejected |
| LoaderFacts.BuildingsInOrder | ass2/src/bms/building/BuildingInitialiser.java:134-163 | the first failing building fails the whole load; otherwise buildings come in file order, each the one its block describes |
| LoaderFacts.BuildingsExtend | ass2/src/bms/building/BuildingInitialiser.java:162 | the buildings read later come after those read before |
| LoaderFacts.FloorHeaderAccepts | ass2/src/bms/building/BuildingInitialiser.java:189-214 | a floor header is accepted exactly when it has 3 or 4 colons, four fields that parse, a positive number and non-negative dimensions and room count |
| LoaderFacts.RoomHeaderAccepts | ass2/src/bms/building/BuildingInitialiser.java:287-336 | a room header is accepted exactly when it has 3 or 4 colons, a known evaluator field, fields that parse, and number, area and sensor count in range |
| LoaderFacts.FloorHeaderMissingRoomCount | ass2/src/bms/building/BuildingInitialiser.java:194-207 | `1:10:10:` has three colons but three fields, so reading the room count throws an index error |
| LoaderFacts.FloorHeaderTrailingColon | ass2/src/bms/building/BuildingInitialiser.java:194-235 | `1:10:10:2:` has four colons but four fields: a floor with two rooms and no maintenance list |
| LoaderFacts.OrderFromReads | ass2/src/bms/building/BuildingInitialiser.java:242-252 | the first k maintenance tokens read exactly when each parses and names a room of the floor, giving their numbers in order |
| LoaderFacts.ScheduleFieldAccepts | ass2/src/bms/building/BuildingInitialiser.java:235-259 | a maintenance field is read exactly when it has no more commas than tokens, every token names a room, and the order is accepted; failures are format errors |
| LoaderFacts.ScheduleFieldOfEncoding | ass2/src/bms/floor/MaintenanceSchedule.java:217-223 | what encode writes for a schedule reads back as the same order, whenever createMaintenanceSchedule accepts it |
| Text.ParseIntToString | ass2/src/bms/floor/MaintenanceSchedule.java:220 | `Integer.parseInt` reads back the decimal form of any Java int |
| Text.SplitOfJoin | ass2/src/bms/building/BuildingInitialiser.java:237 | splitting a join of non-empty separator-free parts gives the parts back |
| Text.CountJoin | ass2/src/bms/building/BuildingInitialiser.java:238 | a join of n separator-free parts has n - 1 separators |
| StudyRooms.Candidates | ass2/src/bms/util/StudyRoomRecommender.java:206-219 | the candidate list is no longer than the floor's rooms |
| StudyRooms.CandidatesMembers | ass2/src/bms/util/StudyRoomRecommender.java:208-213 | the candidates are exactly the open study rooms of the floor |
| StudyRooms.CandidatesOfConcat | ass2/src/bms/util/StudyRoomRecommender.java:208-213 | candidates keep floor order |
| StudyRooms.FindStudyRoom | ass2/src/bms/util/StudyRoomRecommender.java:206-219 | the loop builds the open study rooms in floor order; the empty list stands for null |
| StudyRooms.LevelsOfSensors | ass2/src/bms/util/StudyRoomRecommender.java:160-162 | the comfort levels exist exactly when every sensor is a comfort sensor, and are read off the sensors in order |
| StudyRooms.AverageComfort | ass2/src/bms/util/StudyRoomRecommender.java:154-164 | 0 for a room without sensors; the only failure is a sensor that is not a comfort sensor |
| StudyRooms.AverageComfortOfComfortRoom | ass2/src/bms/util/StudyRoomRecommender.java:154-164 | on comfort sensors the average is the mean of their levels, and lies in [0, 100] |
| StudyRooms.AverageComfortFailure | ass2/src/bms/util/StudyRoomRecommender.java:161 | averageComfort fails exactly on a room with a sensor that is not a comfort sensor |
| StudyRooms.AverageComfortOf | ass2/src/bms/util/StudyRoomRecommender.java:154-164 | the accumulator loop computes averageComfort |
| StudyRooms.ComfortsOfRooms | ass2/src/bms/util/StudyRoomRecommender.java:179-181 | the comfort list holds each room's average, and fails exactly when some room's average fails |
| StudyRooms.IndexOfMax | ass2/src/bms/util/StudyRoomRecommender.java:193 | `indexOf(Collections.max(...))` is the first position of a greatest comfort |
| StudyRooms.FirstMaxIsFirstGreatest | ass2/src/bms/util/StudyRoomRecommender.java:193 | the chosen position holds a greatest value, and every value before it is strictly smaller |
| StudyRooms.BestIndex | ass2/src/bms/util/StudyRoomRecommender.java:174-197 | bestComfort picks a position of the list, and the first of a one-room list |
| StudyRooms.BestIsFirstMax | ass2/src/bms/util/StudyRoomRecommender.java:174-197 | on comfort sensors bestComfort picks the first room of greatest comfort (the first room when all are 0) |
| StudyRooms.BestComfort | ass2/src/bms/util/StudyRoomRecommender.java:174-197 | the loops of bestComfort compute its choice |
| StudyRooms.ComfortLevels | ass2/src/bms/util/StudyRoomRecommender.java:179-181 | the first loop builds the comfort list |
| StudyRooms.Total | ass2/src/bms/util/StudyRoomRecommender.java:183-186 | the second loop adds the comforts up |
| StudyRooms.CheckTotalNumRoom | ass2/src/bms/util/StudyRoomRecommender.java:134-143 | true exactly when some floor has a room |
| StudyRooms.CompareRooms | ass2/src/bms/util/StudyRoomRecommender.java:110-116 | the comparison of the climb |
| StudyRooms.CompareWinner | ass2/src/bms/util/StudyRoomRecommender.java:110-116 | the comparison keeps the room held or takes one of the floor's candidates |
| StudyRooms.ClimbFloor | ass2/src/bms/util/StudyRoomRecommender.java:106-117 | one floor either ends the climb with its answer or passes it on unchanged |
| StudyRooms.RecommendStudyRoom | ass2/src/bms/util/StudyRoomRecommender.java:87-122 | the method computes the recommendation of the building |
| StudyRooms.FirstFloorWithoutCandidates | ass2/src/bms/util/StudyRoomRecommender.java:91-117 | without a candidate on floor 1 the answer is null, unless floor 2 has a candidate, where averageComfort(null) fails |
| StudyRooms.RecommendationIsCandidate | ass2/src/bms/util/StudyRoomRecommender.java:100-116 | a room returned is an open study room of one of the floors |
| StudyRooms.StopsAtFloorWithoutCandidates | ass2/src/bms/util/StudyRoomRecommender.java:106-108 | the climb stops at the first floor above 1 without candidates: the floors above it do not matter |
| StudyRooms.ClimbPrefix | ass2/src/bms/util/StudyRoomRecommender.java:106-108 | a floor without candidates hides the floors above it from the climb |
| StudyRooms.ClimbEnd | ass2/src/bms/util/StudyRoomRecommender.java:102-121 | the climb returns the room held at the top or at a floor without candidates |
| StudyRooms.ClimbOnce | ass2/src/bms/util/StudyRoomRecommender.java:110-116 | a floor with candidates passes on the comparison's winner |
| StudyRooms.RecommendationStart | ass2/src/bms/util/StudyRoomRecommender.java:97-104 | once floor 1 has candidates, the answer is the climb from floor 2 holding floor 1's best room |
| StudyRooms.CandidateRun | ass2/src/bms/util/StudyRoomRecommender.java:106-108 | the floors from the first up that have a candidate, up to the first that has none |
| StudyRooms.PickIsBest | ass2/src/bms/util/StudyRoomRecommender.java:174-197 | a floor's best candidate is an open study room of it, and none is more comfortable |
| StudyRooms.ChosenFloor | ass2/src/bms/util/StudyRoomRecommender.java:102-121 | the floor the climb settles on is one the climb reaches |
| StudyRooms.ChosenFloorIsFirstGreatest | ass2/src/bms/util/StudyRoomRecommender.java:110-116 | floors below the chosen one have strictly less comfortable best rooms; no reachable floor has a more comfortable one |
| StudyRooms.CompareByComfort | ass2/src/bms/util/StudyRoomRecommender.java:110-116 | on comfort sensors the held room is replaced only by a strictly more comfortable one |
| StudyRooms.ClimbCarries | ass2/src/bms/util/StudyRoomRecommender.java:102-121 | climbing while holding floor j's best room ends with the first most comfortable room of the floors reached |
| StudyRooms.CarryFirstMax | ass2/src/bms/util/StudyRoomRecommender.java:110-116 | keeping the first maximum so far and replacing it only on a strict increase ends at the first maximum |
| StudyRooms.RecommendationOfComfortBuilding | ass2/src/bms/util/StudyRoomRecommender.java:87-122 | on comfort sensors with a candidate on floor 1, the answer is the best room of the lowest floor whose best room is most comfortable among the floors the climb reaches |
| StudyRooms.ClimbKeepsCandidate | ass2/src/bms/util/StudyRoomRecommender.java:102-121 | the room the climb holds is always a candidate of a floor it has passed |

## Left out

- File input: `BufferedReader` and `FileReader`, and the rethrown
  `IOException`. The loader reads an in-memory sequence of lines; reading
  past its end stands for `readLine` returning null.
- The noise sensor's levels, computed with `Math.pow`. The evaluators and
  the recommender take sensor hazard and comfort levels as integer inputs.
  `TemperatureSensor` and `OccupancySensor` are not part of this model.
  Neither is `TimedSensor`: its constructor check is assumed to require at
  least one reading, no negative reading, and a frequency from 1 to 5. The
  current reading of a carbon dioxide sensor is an input.
- `Room` is not part of this model beyond what the modelled code reads and
  writes. The minimum room area is taken as 5.0. The `Room` constructor is
  assumed to reject a smaller area. `addSensor` is assumed to reject a second
  sensor of a kind the room already has. A room's state is an input, both to
  `elapseOneMinute` and to the recommender.
- `Room.equals` is taken to be object identity. `Room.java` is not part of
  this model. `createMaintenanceSchedule` compares rooms with `equals`,
  `containsAll` and `indexOf` (Floor.java:340, 348-351; the first-and-last
  test at Floor.java:342 uses `==`), and so do
  `elapseOneMinute` and `skipCurrentMaintenance` (MaintenanceSchedule.java:145,
  167). The model compares them with `==` on `Room` references, in
  Floors.ScheduleAccepted, Floors.CheckMaintenanceOrder,
  Floors.Floor.CreateMaintenanceSchedule, Maintenance.Successor,
  Maintenance.MaintenanceSchedule.MoveToNextRoom, ElapseOneMinute and
  SkipCurrentMaintenance. The loader resolves a schedule token with
  `getRoomByNumber`, and room numbers on a floor are distinct, so
  Loader.NextOrderEntry and Loader.ScheduleOf compare room numbers. Both
  readings agree only if two rooms on one floor are equal exactly when
  they are the same room.
- Encoding and re-reading a whole building, floor, room or sensor. Only the
  maintenance schedule's round trip is modelled (`ScheduleFieldOfEncoding`).
  `NoiseSensor.encode` writes spaces that its reader cannot parse. Floor and
  building encodings depend on `DecimalFormat` and on room and sensor
  encoders this model omits.
- `Building.renovateFloor`. It dereferences a missing neighbour floor on the
  ground and top floors, and its occupied-area test is inverted against its
  documentation. `Floor.changeDimensions` is modelled instead.
- HazardEvaluation.GetWeightings: the weights come in the order of the
  model's entry sequence, which stands for the unspecified iteration order
  of the `HashMap` behind `values()` (WeightingBasedHazardEvaluator.java:85-92).
  Nothing proved depends on that order; the weighted sum ignores it.
- Registration of the schedule with the `TimedItemManager` singleton.
- `equals`, `hashCode` and `toString` of `Building` and `Floor`. Also the
  `hashCode`, `toString` and `encode` of the carbon dioxide sensor.
- Floating point: doubles are exact reals. So are the float sum of
  `occupiedArea` and the `Math.round`/`Math.floor` results; cases exactly on
  a rounding boundary may differ from the JVM. A rule-based evaluation
  whose sensors are all occupancy sensors divides 0 by 0. In Java that
  gives NaN, which casts to 0; the model gives 0 directly.
- Number syntax: `Integer.parseInt` is an optional sign and decimal
  digits, within the Java int range. `Double.parseDouble` is plain decimal
  notation, without exponents, `NaN` or surrounding whitespace.
- StudyRooms.CheckTotalNumRoom: it does not model the `int` overflow of the
  running room count. It also looks floors up by position rather than with
  `getFloorByNumber`; the two agree on buildings that `addFloor` built.
- StudyRooms.RecommendStudyRoom: rooms are values (type, state, sensors), not
  shared objects. Two Java failures become error results:
  - floor 1 has no candidate but floor 2 has one, so `averageComfort(null)`
    throws; the model returns `NullRoom`;
  - a carbon dioxide sensor is cast to `ComfortSensor`; the model returns
    `NotComfortSensor`.
  The `i == 1` pass of the floor loop is its own step (`RecommendationStart`).
- Loader.FloorHeaderOf: the `ArrayIndexOutOfBoundsException` of a floor
  header with too few fields escapes the loader uncaught. It is modelled as
  the error `IndexOutOfBounds` of the whole load, not as `FileFormat`.
- Loop bodies that Java writes inline are separate helper methods, each
  proved equal to one step of the loop's specification function. Examples:
  `ReadSensorLine`, `ReadRoomOfFloor`, `ScanSensor`, `ClimbFloor`.
