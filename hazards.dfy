/**
  The multi-hazard threat classifier of the situation-report page
  (`predictThreats` in frontend/src/pages/SitReps.tsx): each hazard counts
  how many of its threshold conditions hold over a telemetry record, is
  flagged when the count reaches the hazard's threshold, and gets a
  saturating linear confidence; the number of flagged hazards gives the
  overall severity.
*/
module Hazards {
  import opened Optional
  import JsNumber

  /** A property value of a telemetry object: a number (None is NaN) or a string. */
  datatype Value = Num(n: Option<real>) | Str(s: string)

  /**
    A telemetry object: its entries in the object's own-property order
    (integer-like keys first, ascending, then the others as inserted). A
    JavaScript object has distinct keys; `Lookup` takes the first entry with a key.
  */
  type Record = seq<(string, Value)>

  /** `data[key]`: the value of the first entry with that key; None when the key is absent. */
  function Lookup(data: Record, key: string): (r: Option<Value>)
    ensures r.None? <==> forall i :: 0 <= i < |data| ==> data[i].0 != key
    ensures r.Some? ==> (key, r.value) in data
  {
    if data == [] then None
    else if data[0].0 == key then Some(data[0].1)
    else Lookup(data[1..], key)
  }

  /** `parseFloat(data[key])`; None stands for NaN, which every comparison rejects. */
  function Reading(data: Record, key: string): Option<real>
  {
    match Lookup(data, key)
    case None => None
    case Some(Num(n)) => n
    case Some(Str(s)) => JsNumber.ParseFloat(s)
  }

  datatype Comparison = Above | Below

  /** One named threshold condition: `parseFloat(data[field]) > limit` (or `<`). */
  datatype Condition = Condition(name: string, field: string, cmp: Comparison, limit: real)

  predicate Holds(c: Condition, data: Record)
  {
    match Reading(data, c.field)
    case None => false
    case Some(x) => if c.cmp == Above then x > c.limit else x < c.limit
  }

  datatype HazardKind = Cyclone | SeaLevel | Climate

  /**
    A hazard's policy: flagged when at least `threshold` conditions hold;
    confidence `min(n * weight + base, cap)` for `n` conditions holding.
  */
  datatype Policy = Policy(threshold: nat, weight: real, base: real, cap: real)

  function PolicyOf(h: HazardKind): Policy
  {
    match h
    case Cyclone => Policy(3, 0.2, 0.3, 0.95)
    case SeaLevel => Policy(2, 0.25, 0.4, 0.9)
    case Climate => Policy(2, 0.25, 0.35, 0.92)
  }

  function ConditionsOf(h: HazardKind): seq<Condition>
  {
    match h
    case Cyclone => [
      Condition("highWindSpeed", "wind_speed_100m", Above, 100.0),
      Condition("lowPressure", "surface_pressure", Below, 995.0),
      Condition("highHumidity", "relative_humidity_2m", Above, 80.0),
      Condition("highWaveHeight", "wave_height", Above, 8.0),
      Condition("highTemp", "sea_surface_temperature", Above, 28.0)
    ]
    case SeaLevel => [
      Condition("highSeaLevel", "sea_level", Above, 0.5),
      Condition("negativeBalance", "annual_balance", Below, -1.0),
      Condition("highTemp", "temperature", Above, 30.0),
      Condition("longCoastline", "coastal_length", Above, 1000.0)
    ]
    case Climate => [
      Condition("highGHG", "ghg_emission", Above, 10.0),
      Condition("highWarming", "warming_from_fossil", Above, 1.0),
      Condition("highCO2", "co2_emission", Above, 8.0),
      Condition("highConsumption", "fossil_consumption", Above, 50.0)
    ]
  }

  /** The conditions object: each condition's name with whether it holds. */
  function Evaluate(cs: seq<Condition>, data: Record): (r: seq<(string, bool)>)
    ensures |r| == |cs|
    ensures forall i :: 0 <= i < |cs| ==> r[i] == (cs[i].name, Holds(cs[i], data))
  {
    seq(|cs|, i requires 0 <= i < |cs| => (cs[i].name, Holds(cs[i], data)))
  }

  /** `Object.values(conditions).filter(Boolean).length`. */
  function CountTrue(conditions: seq<(string, bool)>): (n: nat)
    ensures n <= |conditions|
  {
    if conditions == [] then 0
    else (if conditions[0].1 then 1 else 0) + CountTrue(conditions[1..])
  }

  /** The flags of a conditions object. */
  function Flags(conditions: seq<(string, bool)>): (r: seq<bool>)
    ensures |r| == |conditions|
  {
    seq(|conditions|, i requires 0 <= i < |conditions| => conditions[i].1)
  }

  function Min(a: real, b: real): real
  {
    if a <= b then a else b
  }

  /** `Math.min(n * weight + base, cap)`. */
  function Confidence(p: Policy, n: nat): real
  {
    Min(n as real * p.weight + p.base, p.cap)
  }

  /** One hazard's prediction: the flag (0 or 1), the confidence, the count and the conditions. */
  datatype Prediction = Prediction(prediction: nat, confidence: real, riskFactors: nat, conditions: seq<(string, bool)>)

  function Classify(h: HazardKind, data: Record): (r: Prediction)
    ensures r.prediction <= 1
    ensures r.prediction == 1 <==> r.riskFactors >= PolicyOf(h).threshold
    ensures r.riskFactors <= |ConditionsOf(h)|
    ensures r.confidence <= PolicyOf(h).cap
  {
    var conditions := Evaluate(ConditionsOf(h), data);
    var n := CountTrue(conditions);
    var p := PolicyOf(h);
    Prediction(if n >= p.threshold then 1 else 0, Confidence(p, n), n, conditions)
  }

  datatype Severity = Low | Medium | High
  {
    function Name(): string
    {
      match this
      case Low => "low"
      case Medium => "medium"
      case High => "high"
    }
  }

  /** `totalThreats >= 2 ? 'high' : totalThreats === 1 ? 'medium' : 'low'`. */
  function SeverityOf(totalThreats: nat): Severity
  {
    if totalThreats >= 2 then High else if totalThreats == 1 then Medium else Low
  }

  /** The result of `predictThreats`: the three predictions and their aggregate. */
  datatype Assessment = Assessment(
    cyclone: Prediction,
    seaLevel: Prediction,
    climate: Prediction,
    overallSeverity: Severity,
    totalThreats: nat)
  {
    /** The predictions in declaration order. */
    function Predictions(): seq<Prediction>
    {
      [cyclone, seaLevel, climate]
    }
  }

  /** How many of the predictions equal 1. */
  function CountFlagged(ps: seq<Prediction>): (n: nat)
    ensures n <= |ps|
  {
    if ps == [] then 0
    else (if ps[0].prediction == 1 then 1 else 0) + CountFlagged(ps[1..])
  }

  function PredictThreats(data: Record): (r: Assessment)
    ensures r.totalThreats == CountFlagged(r.Predictions()) && r.totalThreats <= 3
    ensures forall i :: 0 <= i < 3 ==> r.Predictions()[i].prediction <= 1
    ensures r.overallSeverity == SeverityOf(r.totalThreats)
  {
    var cyclone := Classify(Cyclone, data);
    var seaLevel := Classify(SeaLevel, data);
    var climate := Classify(Climate, data);
    var total := CountFlagged([cyclone, seaLevel, climate]);
    Assessment(cyclone, seaLevel, climate, SeverityOf(total), total)
  }

  // -----------------------------------------------------------------------
  // Properties
  // -----------------------------------------------------------------------

  /** The risk-factor count is the number of conditions whose flag is true. */
  lemma {:induction false} CountTrueIsNumberOfTrueFlags(conditions: seq<(string, bool)>)
    ensures CountTrue(conditions) == multiset(Flags(conditions))[true]
  {
    if conditions != [] {
      CountTrueIsNumberOfTrueFlags(conditions[1..]);
      assert Flags(conditions) == [conditions[0].1] + Flags(conditions[1..]);
    }
  }

  /** A hazard's risk factors are exactly its conditions that hold on the record. */
  lemma RiskFactorsCountHoldingConditions(h: HazardKind, data: Record)
    ensures Classify(h, data).riskFactors
         == multiset(seq(|ConditionsOf(h)|, i requires 0 <= i < |ConditionsOf(h)| => Holds(ConditionsOf(h)[i], data)))[true]
  {
    var conditions := Evaluate(ConditionsOf(h), data);
    CountTrueIsNumberOfTrueFlags(conditions);
    assert Flags(conditions) == seq(|ConditionsOf(h)|, i requires 0 <= i < |ConditionsOf(h)| => Holds(ConditionsOf(h)[i], data));
  }

  /** No condition holding gives a count of zero. */
  lemma {:induction false} CountTrueNone(conditions: seq<(string, bool)>)
    requires forall i :: 0 <= i < |conditions| ==> !conditions[i].1
    ensures CountTrue(conditions) == 0
  {
    if conditions != [] {
      CountTrueNone(conditions[1..]);
    }
  }

  /** Every condition holding gives the full count. */
  lemma {:induction false} CountTrueAll(conditions: seq<(string, bool)>)
    requires forall i :: 0 <= i < |conditions| ==> conditions[i].1
    ensures CountTrue(conditions) == |conditions|
  {
    if conditions != [] {
      CountTrueAll(conditions[1..]);
    }
  }

  /** Confidence never exceeds the cap and never falls below the smaller of base and cap. */
  lemma ConfidenceBounds(p: Policy, n: nat)
    requires p.weight >= 0.0
    ensures Min(p.base, p.cap) <= Confidence(p, n) <= p.cap
  {
  }

  /** Confidence does not decrease as more conditions hold. */
  lemma ConfidenceMonotone(p: Policy, m: nat, n: nat)
    requires p.weight >= 0.0 && m <= n
    ensures Confidence(p, m) <= Confidence(p, n)
  {
    assert m as real * p.weight <= n as real * p.weight;
  }

  /** Each hazard's confidence lies between its base and its cap. */
  lemma HazardConfidenceRange(h: HazardKind, data: Record)
    ensures PolicyOf(h).base <= Classify(h, data).confidence <= PolicyOf(h).cap
  {
    ConfidenceBounds(PolicyOf(h), Classify(h, data).riskFactors);
  }

  /** A hazard whose readings are all missing or non-numeric (NaN) is not flagged and has the base confidence. */
  lemma MissingFieldsGiveBaseConfidence(h: HazardKind, data: Record)
    requires forall c :: c in ConditionsOf(h) ==> Reading(data, c.field).None?
    ensures Classify(h, data).prediction == 0
    ensures Classify(h, data).riskFactors == 0
    ensures Classify(h, data).confidence == PolicyOf(h).base
  {
    var cs := ConditionsOf(h);
    var conditions := Evaluate(cs, data);
    assert forall i :: 0 <= i < |cs| ==> Reading(data, cs[i].field).None?;
    CountTrueNone(conditions);
  }

  /** The flag values of a list of predictions. */
  function FlagValues(ps: seq<Prediction>): (r: seq<nat>)
    ensures |r| == |ps|
  {
    seq(|ps|, i requires 0 <= i < |ps| => ps[i].prediction)
  }

  /** The aggregate counts the predictions equal to 1. */
  lemma {:induction false} CountFlaggedIsNumberOfOnes(ps: seq<Prediction>)
    ensures CountFlagged(ps) == multiset(FlagValues(ps))[1]
  {
    if ps != [] {
      CountFlaggedIsNumberOfOnes(ps[1..]);
      assert FlagValues(ps) == [ps[0].prediction] + FlagValues(ps[1..]);
    }
  }

  /** Severity is high exactly for two or more threats, medium for one, low for none. */
  lemma SeverityIff(data: Record)
    ensures PredictThreats(data).overallSeverity == High <==> PredictThreats(data).totalThreats >= 2
    ensures PredictThreats(data).overallSeverity == Medium <==> PredictThreats(data).totalThreats == 1
    ensures PredictThreats(data).overallSeverity == Low <==> PredictThreats(data).totalThreats == 0
  {
  }

  function Rank(s: Severity): nat
  {
    match s
    case Low => 0
    case Medium => 1
    case High => 2
  }

  /** More flagged hazards never give a lower severity. */
  lemma SeverityMonotone(m: nat, n: nat)
    requires m <= n
    ensures Rank(SeverityOf(m)) <= Rank(SeverityOf(n))
  {
  }

  /** The record of a severe cyclone: all five cyclone conditions hold. */
  function SevereCycloneRecord(): Record
  {
    [("wind_speed_100m", Num(Some(120.0))), ("surface_pressure", Num(Some(990.0))),
     ("relative_humidity_2m", Num(Some(85.0))), ("wave_height", Num(Some(9.0))),
     ("sea_surface_temperature", Num(Some(30.0)))]
  }

  /** Every cyclone condition holds on the severe record. */
  lemma SevereCycloneConditionsHold()
    ensures forall i :: 0 <= i < 5 ==> Evaluate(ConditionsOf(Cyclone), SevereCycloneRecord())[i].1
  {
  }

  /** Five of five cyclone factors: flagged, with confidence capped at 0.95. */
  lemma SevereCycloneScenario()
    ensures Classify(Cyclone, SevereCycloneRecord()).riskFactors == 5
    ensures Classify(Cyclone, SevereCycloneRecord()).prediction == 1
    ensures Classify(Cyclone, SevereCycloneRecord()).confidence == 0.95
  {
    SevereCycloneConditionsHold();
    CountTrueAll(Evaluate(ConditionsOf(Cyclone), SevereCycloneRecord()));
  }

  /** The empty record: every hazard unflagged at its base confidence, severity low. */
  lemma EmptyRecordScenario()
    ensures PredictThreats([]).totalThreats == 0
    ensures PredictThreats([]).overallSeverity == Low
    ensures PredictThreats([]).cyclone.confidence == 0.3
  {
    MissingFieldsGiveBaseConfidence(Cyclone, []);
    MissingFieldsGiveBaseConfidence(SeaLevel, []);
    MissingFieldsGiveBaseConfidence(Climate, []);
  }
}
