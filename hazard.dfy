/** The two hazard evaluators of a room. Sensor hazard levels depend on the
    sensors' current readings and enter as inputs, one per sensor, in the
    order the evaluator holds its sensors. */
module HazardEvaluation {
  import opened Wrappers
  import opened Collections
  import opened Sensors

  /** A sensor held by an evaluator, with its current hazard level. */
  datatype HazardReading = HazardReading(kind: SensorKind, level: int)

  function Min(a: int, b: int): int { if a <= b then a else b }

  predicate LevelsWithin(s: seq<HazardReading>, lo: int, hi: int)
  {
    forall i :: 0 <= i < |s| ==> lo <= s[i].level <= hi
  }

  /** Levels of the sensors that are not occupancy sensors, in order. */
  function NonOccupancyLevels(s: seq<HazardReading>): (r: seq<int>)
    ensures |r| <= |s|
  {
    if s == [] then []
    else if s[|s| - 1].kind == Occupancy then NonOccupancyLevels(s[..|s| - 1])
    else NonOccupancyLevels(s[..|s| - 1]) + [s[|s| - 1].level]
  }

  /** Level of the last occupancy sensor in the list, if there is one. */
  function LastOccupancy(s: seq<HazardReading>): Option<int>
  {
    if s == [] then None
    else if s[|s| - 1].kind == Occupancy then Some(s[|s| - 1].level)
    else LastOccupancy(s[..|s| - 1])
  }

  predicate Saturated(s: seq<HazardReading>)
  {
    exists i :: 0 <= i < |s| && s[i].kind != Occupancy && s[i].level >= 100
  }

  /** The rule-based hazard level: 0 without sensors, the only sensor's level
      for one sensor, and otherwise 100 if a non-occupancy sensor is at 100 or
      more, else the mean non-occupancy level scaled by the occupancy level
      over 100 (when there is an occupancy sensor), rounded down and capped at
      100. With no non-occupancy sensor the mean is 0/0, which the final int
      cast turns into 0. */
  function RuleBasedLevel(s: seq<HazardReading>): int
  {
    if |s| == 0 then 0
    else if |s| == 1 then s[0].level
    else if Saturated(s) then 100
    else
      var levels := NonOccupancyLevels(s);
      if |levels| == 0 then 0
      else
        Min(Scale(Mean(levels), LastOccupancy(s)).Floor, 100)
  }

  /** The mean scaled by the occupancy level over 100, if there is one. */
  function Scale(mean: real, occupancy: Option<int>): real
  {
    match occupancy
    case None => mean
    case Some(o) => mean * (o as real / 100.0)
  }

  lemma NonOccupancyStep(s: seq<HazardReading>, i: nat)
    requires i < |s|
    ensures NonOccupancyLevels(s[..i + 1]) ==
      if s[i].kind == Occupancy then NonOccupancyLevels(s[..i])
      else NonOccupancyLevels(s[..i]) + [s[i].level]
    ensures LastOccupancy(s[..i + 1]) ==
      if s[i].kind == Occupancy then Some(s[i].level) else LastOccupancy(s[..i])
    ensures Sum(NonOccupancyLevels(s[..i + 1])) ==
      Sum(NonOccupancyLevels(s[..i])) + if s[i].kind == Occupancy then 0 else s[i].level
  {
    assert s[..i + 1][..i] == s[..i];
    var xs := NonOccupancyLevels(s[..i]);
    if s[i].kind != Occupancy {
      assert (xs + [s[i].level])[..|xs|] == xs;
    }
  }

  /** RuleBasedHazardEvaluator.evaluateHazardLevel. */
  method EvaluateRuleBased(sensors: seq<HazardReading>) returns (level: int)
    ensures level == RuleBasedLevel(sensors)
  {
    if |sensors| == 0 {
      return 0;
    } else if |sensors| == 1 {
      return sensors[0].level;
    }
    var saturated, total, numSensor, occupancy := ScanSensors(sensors);
    if saturated {
      return 100;
    }
    level := AverageAndScale(total, numSensor, occupancy);
  }

  /** What the sensor loop of evaluateHazardLevel knows after the first i
      sensors: the total and count of their non-occupancy levels, where the
      last occupancy sensor among them is found, and that none of them
      saturates. */
  predicate Scanned(sensors: seq<HazardReading>, i: nat, total: real, numSensor: nat, occSensor: bool, sensorPos: nat)
    requires i <= |sensors|
  {
    && total == Sum(NonOccupancyLevels(sensors[..i])) as real
    && numSensor == |NonOccupancyLevels(sensors[..i])|
    && (occSensor <==> LastOccupancy(sensors[..i]).Some?)
    && (occSensor ==> sensorPos < |sensors| && sensors[sensorPos].level == LastOccupancy(sensors[..i]).value)
    && forall k :: 0 <= k < i ==> sensors[k].kind == Occupancy || sensors[k].level < 100
  }

  /** The sensor loop of evaluateHazardLevel: it stops at the first
      non-occupancy sensor at 100 or more; otherwise it totals and counts the
      non-occupancy levels and finds the level of the last occupancy sensor
      (through indexOf, which finds an equal reading). */
  method ScanSensors(sensors: seq<HazardReading>) returns (saturated: bool, total: real, numSensor: nat, occupancy: Option<int>)
    ensures saturated <==> Saturated(sensors)
    ensures !saturated ==> total == Sum(NonOccupancyLevels(sensors)) as real && numSensor == |NonOccupancyLevels(sensors)|
    ensures !saturated ==> occupancy == LastOccupancy(sensors)
  {
    total := 0.0;
    numSensor := 0;
    var sensorPos: nat := 0;
    var occSensor := false;
    for i := 0 to |sensors|
      invariant Scanned(sensors, i, total, numSensor, occSensor, sensorPos)
    {
      if sensors[i].level >= 100 && sensors[i].kind != Occupancy {
        return true, total, numSensor, None;
      }
      total, numSensor, occSensor, sensorPos := ScanSensor(sensors, i, total, numSensor, occSensor, sensorPos);
    }
    assert sensors[..|sensors|] == sensors;
    occupancy := if occSensor then Some(sensors[sensorPos].level) else None;
    return false, total, numSensor, occupancy;
  }

  /** One pass of that loop over a sensor that does not saturate. */
  method ScanSensor(sensors: seq<HazardReading>, i: nat, total: real, numSensor: nat, occSensor: bool, sensorPos: nat)
    returns (total': real, numSensor': nat, occSensor': bool, sensorPos': nat)
    requires i < |sensors| && Scanned(sensors, i, total, numSensor, occSensor, sensorPos)
    requires sensors[i].kind == Occupancy || sensors[i].level < 100
    ensures Scanned(sensors, i + 1, total', numSensor', occSensor', sensorPos')
  {
    NonOccupancyStep(sensors, i);
    total', numSensor', occSensor', sensorPos' := total, numSensor, occSensor, sensorPos;
    if sensors[i].kind == Occupancy {
      occSensor' := true;
      sensorPos' := IndexOf(sensors, sensors[i]).value;
    } else {
      total' := total + sensors[i].level as real;
      numSensor' := numSensor + 1;
    }
  }

  /** The tail of evaluateHazardLevel: the total over the number of
      non-occupancy sensors, scaled by the occupancy level, rounded down and
      capped at 100. */
  method AverageAndScale(total: real, numSensor: nat, occupancy: Option<int>) returns (level: int)
    ensures numSensor == 0 ==> level == 0
    ensures numSensor > 0 ==> level == Min(Scale(total / numSensor as real, occupancy).Floor, 100)
  {
    if numSensor == 0 {
      // 0.0 / 0 is NaN in Java, and (int) NaN is 0.
      return 0;
    }
    var average := total / numSensor as real;
    if occupancy.Some? {
      average := average * (occupancy.value as real / 100.0);
    }
    return Min(average.Floor, 100);
  }

  /** Every non-occupancy level is one of the list's levels. */
  lemma {:induction false} NonOccupancyLevelsWithin(s: seq<HazardReading>, lo: int, hi: int)
    requires LevelsWithin(s, lo, hi)
    ensures forall k :: 0 <= k < |NonOccupancyLevels(s)| ==> lo <= NonOccupancyLevels(s)[k] <= hi
    ensures LastOccupancy(s).Some? ==> lo <= LastOccupancy(s).value <= hi
  {
    if s != [] {
      NonOccupancyLevelsWithin(s[..|s| - 1], lo, hi);
    }
  }

  /** Without an occupancy sensor every level counts towards the mean. */
  lemma {:induction false} NonOccupancyLevelsAll(s: seq<HazardReading>)
    requires forall i :: 0 <= i < |s| ==> s[i].kind != Occupancy
    ensures NonOccupancyLevels(s) == seq(|s|, i requires 0 <= i < |s| => s[i].level)
    ensures LastOccupancy(s).None?
  {
    if s != [] {
      NonOccupancyLevelsAll(s[..|s| - 1]);
    }
  }

  /** The levels other than the one at position p, in order. */
  function LevelsWithout(s: seq<HazardReading>, p: nat): seq<int>
    requires p < |s|
  {
    seq(|s| - 1, i requires 0 <= i < |s| - 1 => if i < p then s[i].level else s[i + 1].level)
  }

  /** With the occupancy sensor at position p the only one, the other
      sensors' levels form the mean and p gives the scale. */
  lemma {:induction false} OneOccupancy(s: seq<HazardReading>, p: nat)
    requires p < |s| && s[p].kind == Occupancy
    requires forall i :: 0 <= i < |s| && i != p ==> s[i].kind != Occupancy
    ensures NonOccupancyLevels(s) == LevelsWithout(s, p)
    ensures LastOccupancy(s) == Some(s[p].level)
  {
    if p == |s| - 1 {
      NonOccupancyLevelsAll(s[..p]);
    } else {
      var init := s[..|s| - 1];
      assert init[p] == s[p];
      OneOccupancy(init, p);
    }
  }

  lemma RuleBasedNoSensors()
    ensures RuleBasedLevel([]) == 0
  {
  }

  lemma RuleBasedOneSensor(r: HazardReading)
    ensures RuleBasedLevel([r]) == r.level
  {
  }

  /** With two or more sensors, one non-occupancy sensor at 100 or more
      decides the level. */
  lemma RuleBasedSaturates(s: seq<HazardReading>, i: nat)
    requires |s| >= 2 && i < |s| && s[i].kind != Occupancy && s[i].level >= 100
    ensures RuleBasedLevel(s) == 100
  {
  }

  /** Without occupancy sensors the level is the mean level rounded down. */
  lemma RuleBasedMean(s: seq<HazardReading>)
    requires |s| >= 2 && !Saturated(s)
    requires forall i :: 0 <= i < |s| ==> s[i].kind != Occupancy
    ensures RuleBasedLevel(s) ==
      Min(Mean(seq(|s|, i requires 0 <= i < |s| => s[i].level)).Floor, 100)
  {
    NonOccupancyLevelsAll(s);
  }

  /** With one occupancy sensor, at p, the mean of the other levels is scaled
      by the occupancy level divided by 100 before rounding down. */
  lemma RuleBasedScaledByOccupancy(s: seq<HazardReading>, p: nat)
    requires |s| >= 2 && !Saturated(s)
    requires p < |s| && s[p].kind == Occupancy
    requires forall i :: 0 <= i < |s| && i != p ==> s[i].kind != Occupancy
    ensures RuleBasedLevel(s) ==
      Min(Scale(Mean(LevelsWithout(s, p)), Some(s[p].level)).Floor, 100)
  {
    OneOccupancy(s, p);
  }

  /** For sensor levels between 0 and 100 the evaluated level is between 0
      and 100, as every hazard evaluator promises. */
  lemma RuleBasedRange(s: seq<HazardReading>)
    requires LevelsWithin(s, 0, 100)
    ensures 0 <= RuleBasedLevel(s) <= 100
  {
    if |s| >= 2 && !Saturated(s) {
      var levels := NonOccupancyLevels(s);
      if |levels| > 0 {
        NonOccupancyLevelsWithin(s, 0, 100);
        MeanBounds(levels, 0, 100);
        var o := match LastOccupancy(s) case None => 100 case Some(o) => o;
        ScaledMeanNonNegative(Mean(levels), o);
      }
    }
  }

  lemma ScaledMeanNonNegative(mean: real, o: int)
    requires mean >= 0.0 && o >= 0
    ensures mean.Floor >= 0
    ensures (mean * (o as real / 100.0)).Floor >= 0
  {
    var scale := o as real / 100.0;
    assert scale >= 0.0;
    assert mean * scale >= 0.0;
  }

  /** An entry of the weighting map: a sensor's current level and its
      weight. */
  datatype WeightedReading = WeightedReading(level: int, weight: int)

  function Weights(entries: seq<WeightedReading>): (ws: seq<int>)
    ensures |ws| == |entries|
  {
    seq(|entries|, i requires 0 <= i < |entries| => entries[i].weight)
  }

  /** The weightings a weighting-based evaluator accepts: each from 0 to 100
      and together exactly 100. */
  predicate ValidWeights(weights: seq<int>)
  {
    (forall i :: 0 <= i < |weights| ==> 0 <= weights[i] <= 100) && Sum(weights) == 100
  }

  /** The check of the WeightingBasedHazardEvaluator constructor; false
      where it throws IllegalArgumentException. */
  method CheckWeightings(weights: seq<int>) returns (ok: bool)
    ensures ok <==> ValidWeights(weights)
  {
    var totalWeight := 0;
    for i := 0 to |weights|
      invariant totalWeight == Sum(weights[..i])
      invariant forall k :: 0 <= k < i ==> 0 <= weights[k] <= 100
    {
      if weights[i] < 0 || weights[i] > 100 {
        return false;
      }
      SumStep(weights, i);
      totalWeight := totalWeight + weights[i];
    }
    assert weights[..|weights|] == weights;
    if totalWeight > 100 || totalWeight < 100 {
      return false;
    }
    return true;
  }

  /** An empty weighting map is rejected. */
  lemma ValidWeightsNonEmpty(weights: seq<int>)
    requires ValidWeights(weights)
    ensures |weights| > 0
  {
  }

  /** Sum of level times weight over 100, accumulated from the front. */
  function WeightedTotal(entries: seq<WeightedReading>): real
  {
    if entries == [] then 0.0
    else
      var e := entries[|entries| - 1];
      WeightedTotal(entries[..|entries| - 1]) + (e.level * e.weight) as real / 100.0
  }

  /** The weighting-based hazard level: the weighted total divided by the
      number of sensors, rounded down and capped at 100 (an empty map gives
      0/0, cast to 0). */
  function WeightedLevel(entries: seq<WeightedReading>): int
  {
    if |entries| == 0 then 0
    else Min((WeightedTotal(entries) / |entries| as real).Floor, 100)
  }

  /** WeightingBasedHazardEvaluator.evaluateHazardLevel. */
  method EvaluateWeightingBased(entries: seq<WeightedReading>) returns (level: int)
    ensures level == WeightedLevel(entries)
  {
    var totalWeight: real := 0.0;
    for i := 0 to |entries|
      invariant totalWeight == WeightedTotal(entries[..i])
    {
      assert entries[..i + 1][..i] == entries[..i];
      totalWeight := totalWeight + (entries[i].level * entries[i].weight) as real / 100.0;
    }
    assert entries[..|entries|] == entries;
    if |entries| == 0 {
      // 0.0 / 0 is NaN in Java, and (int) NaN is 0.
      return 0;
    }
    return Min((totalWeight / |entries| as real).Floor, 100);
  }

  /** WeightingBasedHazardEvaluator.getWeightings: the weights in entry
      order. */
  method GetWeightings(entries: seq<WeightedReading>) returns (weightList: seq<int>)
    ensures |weightList| == |entries|
    ensures forall i :: 0 <= i < |entries| ==> weightList[i] == entries[i].weight
  {
    weightList := [];
    for i := 0 to |entries|
      invariant |weightList| == i
      invariant forall k :: 0 <= k < i ==> weightList[k] == entries[k].weight
    {
      weightList := weightList + [entries[i].weight];
    }
  }

  /** For levels from 0 to 100 and valid weights, the weighted total is
      between 0 and 100. */
  lemma {:induction false} WeightedTotalBounds(entries: seq<WeightedReading>)
    requires forall i :: 0 <= i < |entries| ==> 0 <= entries[i].level <= 100 && entries[i].weight >= 0
    ensures 0.0 <= WeightedTotal(entries) <= Sum(Weights(entries)) as real
  {
    if entries != [] {
      var init := entries[..|entries| - 1];
      var e := entries[|entries| - 1];
      WeightedTotalBounds(init);
      assert Weights(entries)[..|entries| - 1] == Weights(init);
      assert 0 <= e.level * e.weight <= 100 * e.weight;
    }
  }

  /** For levels from 0 to 100 and valid weights the level is between 0 and
      100; since the weighted total is divided by the number of sensors a
      second time, it never exceeds 100 divided by that number. */
  lemma WeightedLevelRange(entries: seq<WeightedReading>)
    requires forall i :: 0 <= i < |entries| ==> 0 <= entries[i].level <= 100
    requires ValidWeights(Weights(entries))
    ensures 0 <= WeightedLevel(entries) <= 100
    ensures WeightedLevel(entries) as real <= 100.0 / |entries| as real
  {
    assert forall i :: 0 <= i < |entries| ==> entries[i].weight == Weights(entries)[i];
    WeightedTotalBounds(entries);
    var n := |entries| as real;
    assert n >= 1.0;
    DivideBounds(WeightedTotal(entries), n, Sum(Weights(entries)) as real);
    assert 100.0 / n <= 100.0;
  }

  /** Dividing by a positive number keeps the order of 0, t and hi. */
  lemma DivideBounds(t: real, n: real, hi: real)
    requires n > 0.0 && 0.0 <= t <= hi
    ensures 0.0 <= t / n <= hi / n
  {
    assert t / n * n == t;
    assert hi / n * n == hi;
  }
}
