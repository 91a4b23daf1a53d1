/** Sensor configurations as the building file records them, the checks
    their constructors make, and the carbon dioxide sensor's hazard and
    comfort levels. A sensor's current reading depends on the timed-sensor
    clock, which is not part of this model, so it is an input here. */
module Sensors {
  import opened Wrappers

  datatype SensorKind = Temperature | Noise | Occupancy | CarbonDioxide

  datatype Sensor =
    | TemperatureSensor(readings: seq<int>)
    | NoiseSensor(readings: seq<int>, frequency: int)
    | OccupancySensor(readings: seq<int>, frequency: int, capacity: int)
    | CarbonDioxideSensor(readings: seq<int>, frequency: int, idealValue: int, variationLimit: int)
  {
    function Kind(): SensorKind
    {
      match this
      case TemperatureSensor(_) => Temperature
      case NoiseSensor(_, _) => Noise
      case OccupancySensor(_, _, _) => Occupancy
      case CarbonDioxideSensor(_, _, _, _) => CarbonDioxide
    }
  }

  /** Largest update frequency, in minutes, a timed sensor accepts. */
  const MaxUpdateFrequency: int := 5

  /** Update frequency a temperature sensor is created with. */
  const TemperatureFrequency: int := 1

  /** The check every timed sensor's constructor makes: at least one
      reading, no negative reading, and an update frequency from 1 to
      MaxUpdateFrequency minutes. */
  predicate TimedSensorAccepts(readings: seq<int>, frequency: int)
  {
    && |readings| > 0
    && (forall i :: 0 <= i < |readings| ==> readings[i] >= 0)
    && 1 <= frequency <= MaxUpdateFrequency
  }

  /** The constructor checks that every sensor built through the functions
      below satisfies. */
  predicate Constructed(s: Sensor)
  {
    match s
    case TemperatureSensor(rs) => TimedSensorAccepts(rs, TemperatureFrequency)
    case NoiseSensor(rs, f) => TimedSensorAccepts(rs, f)
    case OccupancySensor(rs, f, cap) => TimedSensorAccepts(rs, f) && cap >= 0
    case CarbonDioxideSensor(rs, f, ideal, limit) =>
      TimedSensorAccepts(rs, f) && ideal > 0 && limit > 0 && ideal - limit >= 0
  }

  function NewTemperatureSensor(readings: seq<int>): (r: Option<Sensor>)
    ensures r.Some? <==> TimedSensorAccepts(readings, TemperatureFrequency)
    ensures r.Some? ==> r.value == TemperatureSensor(readings) && Constructed(r.value)
  {
    if TimedSensorAccepts(readings, TemperatureFrequency) then Some(TemperatureSensor(readings)) else None
  }

  function NewNoiseSensor(readings: seq<int>, frequency: int): (r: Option<Sensor>)
    ensures r.Some? <==> TimedSensorAccepts(readings, frequency)
    ensures r.Some? ==> r.value == NoiseSensor(readings, frequency) && Constructed(r.value)
  {
    if TimedSensorAccepts(readings, frequency) then Some(NoiseSensor(readings, frequency)) else None
  }

  function NewOccupancySensor(readings: seq<int>, frequency: int, capacity: int): (r: Option<Sensor>)
    ensures r.Some? <==> TimedSensorAccepts(readings, frequency) && capacity >= 0
    ensures r.Some? ==> r.value == OccupancySensor(readings, frequency, capacity) && Constructed(r.value)
  {
    if !TimedSensorAccepts(readings, frequency) then None
    else if capacity < 0 then None
    else Some(OccupancySensor(readings, frequency, capacity))
  }

  /** The carbon dioxide sensor's constructor: after the timed-sensor check it
      rejects an ideal value or a variation limit that is not positive, and a
      limit larger than the ideal value. */
  function NewCarbonDioxideSensor(readings: seq<int>, frequency: int, ideal: int, limit: int): (r: Option<Sensor>)
    ensures r.Some? <==> TimedSensorAccepts(readings, frequency) && ideal > 0 && limit > 0 && ideal >= limit
    ensures r.Some? ==> r.value == CarbonDioxideSensor(readings, frequency, ideal, limit) && Constructed(r.value)
  {
    if !TimedSensorAccepts(readings, frequency) then None
    else if ideal <= 0 then None
    else if limit <= 0 then None
    else if ideal - limit < 0 then None
    else Some(CarbonDioxideSensor(readings, frequency, ideal, limit))
  }

  /** Hazard level of a carbon dioxide reading in ppm: 0 below 1000, 25 below
      2000, 50 below 5000, and 100 from 5000 on. */
  function CarbonDioxideHazard(reading: int): (h: int)
    ensures h == 0 || h == 25 || h == 50 || h == 100
    ensures h == 0 <==> reading < 1000
    ensures h == 25 <==> 1000 <= reading < 2000
    ensures h == 50 <==> 2000 <= reading < 5000
    ensures h == 100 <==> reading >= 5000
  {
    if reading < 1000 then 0
    else if reading < 2000 then 25
    else if reading < 5000 then 50
    else 100
  }

  /** More carbon dioxide is never less hazardous. */
  lemma CarbonDioxideHazardMonotone(a: int, b: int)
    requires a <= b
    ensures CarbonDioxideHazard(a) <= CarbonDioxideHazard(b)
  {
  }

  function Abs(x: int): nat { if x < 0 then -x else x }

  /** Comfort level of a carbon dioxide sensor for the current reading: 0 once
      the reading is the variation limit or further from the ideal value,
      otherwise 100 less the distance as a percentage of the limit, rounded
      half up. */
  function CarbonDioxideComfort(ideal: int, limit: int, reading: int): (c: int)
    ensures 0 <= c <= 100
    ensures Abs(ideal - reading) >= limit ==> c == 0
    ensures Abs(ideal - reading) < limit ==>
      var exact := 100.0 - (Abs(ideal - reading) as real / limit as real) * 100.0;
      c as real <= exact + 0.5 < c as real + 1.0
  {
    var diff := Abs(ideal - reading) as real;
    var varLimit := limit as real;
    if diff >= varLimit then 0
    else
      var pct := (diff / varLimit) * 100.0;
      ComfortBounds(diff, varLimit);
      (100.0 - pct + 0.5).Floor
  }

  lemma ComfortBounds(diff: real, limit: real)
    requires 0.0 <= diff < limit
    ensures 0.5 < 100.0 - (diff / limit) * 100.0 + 0.5 <= 100.5
  {
    assert diff / limit < 1.0 by {
      assert diff / limit * limit == diff;
    }
    assert diff / limit >= 0.0;
  }

  /** The worked examples of the comfort level's documentation. */
  lemma CarbonDioxideComfortExamples()
    ensures CarbonDioxideComfort(600, 200, 640) == 80
    ensures CarbonDioxideComfort(500, 100, 420) == 20
    ensures CarbonDioxideComfort(800, 100, 1000) == 0
  {
    assert 100.0 - (40.0 / 200.0) * 100.0 + 0.5 == 80.5;
    assert 100.0 - (80.0 / 100.0) * 100.0 + 0.5 == 20.5;
  }

  /** A reading at the ideal value is fully comfortable. */
  lemma CarbonDioxideComfortAtIdeal(ideal: int, limit: int)
    requires limit > 0
    ensures CarbonDioxideComfort(ideal, limit, ideal) == 100
  {
  }

  /** CarbonDioxideSensor.equals: another carbon dioxide sensor with the same
      update frequency and readings (the timed-sensor part) and the same
      ideal value and variation limit. */
  predicate CarbonDioxideEquals(a: Sensor, b: Sensor)
    requires a.CarbonDioxideSensor?
  {
    && b.CarbonDioxideSensor?
    && a.frequency == b.frequency && a.readings == b.readings
    && a.idealValue == b.idealValue && a.variationLimit == b.variationLimit
  }

  /** Equality of carbon dioxide sensors is equality of their configuration. */
  lemma CarbonDioxideEqualsIsConfiguration(a: Sensor, b: Sensor)
    requires a.CarbonDioxideSensor?
    ensures CarbonDioxideEquals(a, b) <==> a == b
  {
  }
}
