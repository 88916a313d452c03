/**
  The situation-report page: the summary sentence and the chart series
  derived from a threat assessment, the creation of a user report from
  the entry form (validation, sequential id, prepend, form reset), and
  the search / severity filter over the report list.
*/
module SitReps {
  import opened Optional
  import opened Text
  import opened JsNumber
  import opened Sequences
  import opened Hazards

  // ----- summary -----

  /** The phrase for each hazard, in the order `predictions` lists them. */
  const ThreatNames: seq<string> := ["cyclone formation", "sea level rise", "climate deterioration"]

  /** The names of the flagged predictions, in order. */
  function Flagged(ps: seq<Prediction>, names: seq<string>): seq<string>
    requires |ps| == |names|
  {
    if ps == [] then []
    else (if ps[0].prediction == 1 then [names[0]] else []) + Flagged(ps[1..], names[1..])
  }

  /** One name per flagged prediction. */
  lemma {:induction false} FlaggedCount(ps: seq<Prediction>, names: seq<string>)
    requires |ps| == |names|
    ensures |Flagged(ps, names)| == CountFlagged(ps)
  {
    if ps != [] {
      FlaggedCount(ps[1..], names[1..]);
    }
  }

  /** The flagged names appear in the order of the full list. */
  lemma {:induction false} FlaggedInOrder(ps: seq<Prediction>, names: seq<string>)
    requires |ps| == |names|
    ensures IsSubsequence(Flagged(ps, names), names)
  {
    if ps != [] {
      FlaggedInOrder(ps[1..], names[1..]);
      if ps[0].prediction == 1 {
        assert Flagged(ps, names)[1..] == Flagged(ps[1..], names[1..]);
      } else {
        assert Flagged(ps, names) == Flagged(ps[1..], names[1..]);
        SubsequenceOfTail(Flagged(ps[1..], names[1..]), names[0], names[1..]);
        assert [names[0]] + names[1..] == names;
      }
    }
  }

  /** With distinct names, a name is listed exactly when its prediction is flagged. */
  lemma {:induction false} FlaggedMembership(ps: seq<Prediction>, names: seq<string>, k: nat)
    requires |ps| == |names| && k < |ps|
    requires forall i, j :: 0 <= i < j < |names| ==> names[i] != names[j]
    ensures names[k] in Flagged(ps, names) <==> ps[k].prediction == 1
  {
    if k > 0 {
      FlaggedMembership(ps[1..], names[1..], k - 1);
      assert names[0] != names[k];
    } else if ps[0].prediction != 1 {
      FlaggedNamesFrom(ps[1..], names[1..]);
      assert names[0] !in names[1..];
    }
  }

  /** Every listed name comes from the list. */
  lemma {:induction false} FlaggedNamesFrom(ps: seq<Prediction>, names: seq<string>)
    requires |ps| == |names|
    ensures forall x :: x in Flagged(ps, names) ==> x in names
  {
    if ps != [] {
      FlaggedNamesFrom(ps[1..], names[1..]);
    }
  }

  /** The flagged phrases of an assessment, hazard by hazard. */
  lemma FlaggedOfThree(p: Assessment)
    ensures Flagged(p.Predictions(), ThreatNames) ==
      (if p.cyclone.prediction == 1 then ["cyclone formation"] else [])
      + (if p.seaLevel.prediction == 1 then ["sea level rise"] else [])
      + (if p.climate.prediction == 1 then ["climate deterioration"] else [])
  {
    var ps, names := p.Predictions(), ThreatNames;
    assert ps[1..][1..][1..] == [] && names[1..][1..][1..] == [];
    assert Flagged(ps[1..][1..], names[1..][1..]) ==
      (if p.climate.prediction == 1 then ["climate deterioration"] else []);
  }

  function NormalSummary(location: string): string
  {
    "Environmental monitoring for " + location
      + " shows normal conditions across all threat categories. Continued surveillance recommended with regular data updates."
  }

  function Closing(severity: Severity): string
  {
    if severity == High then "Immediate response protocols activated."
    else "Enhanced monitoring and preparedness measures recommended."
  }

  /**
    The summary sentence: the normal-conditions sentence when nothing is
    flagged; otherwise the number of flagged hazards, the location, their
    phrases in cyclone, sea level, climate order, and a closing sentence
    that depends on the overall severity.
  */
  function SummaryText(p: Assessment, location: string): string
  {
    var names := Flagged(p.Predictions(), ThreatNames);
    if names == [] then NormalSummary(location)
    else
      "AI analysis detected " + NatToString(|names|) + " active threat(s) in " + location
        + ": " + Join(names, ", ") + ". " + Closing(p.overallSeverity)
  }

  /** `generateSummary`: the phrases are pushed one flag at a time, then joined into the summary sentence. */
  method GenerateSummary(p: Assessment, location: string) returns (summary: string)
    ensures summary == SummaryText(p, location)
  {
    var activeThreats: seq<string> := [];
    if p.cyclone.prediction == 1 {
      activeThreats := activeThreats + ["cyclone formation"];
    }
    if p.seaLevel.prediction == 1 {
      activeThreats := activeThreats + ["sea level rise"];
    }
    if p.climate.prediction == 1 {
      activeThreats := activeThreats + ["climate deterioration"];
    }
    FlaggedOfThree(p);
    assert activeThreats == Flagged(p.Predictions(), ThreatNames);
    if |activeThreats| == 0 {
      return NormalSummary(location);
    }
    summary := "AI analysis detected " + NatToString(|activeThreats|) + " active threat(s) in " + location
      + ": " + Join(activeThreats, ", ") + ". " + Closing(p.overallSeverity);
  }

  /**
    For an assessment by `predictThreats`, the summary lists as many
    hazards as `totalThreats`, each hazard exactly when it is flagged, in
    the fixed order.
  */
  lemma SummaryThreats(data: Record)
    ensures var p := PredictThreats(data);
      var names := Flagged(p.Predictions(), ThreatNames);
      && |names| == p.totalThreats
      && (names == [] <==> p.overallSeverity == Low)
      && IsSubsequence(names, ThreatNames)
      && ("cyclone formation" in names <==> p.cyclone.prediction == 1)
      && ("sea level rise" in names <==> p.seaLevel.prediction == 1)
      && ("climate deterioration" in names <==> p.climate.prediction == 1)
  {
    var p := PredictThreats(data);
    FlaggedCount(p.Predictions(), ThreatNames);
    FlaggedInOrder(p.Predictions(), ThreatNames);
    FlaggedMembership(p.Predictions(), ThreatNames, 0);
    FlaggedMembership(p.Predictions(), ThreatNames, 1);
    FlaggedMembership(p.Predictions(), ThreatNames, 2);
  }

  // ----- charts -----

  /** An entry of `dataRanges`: the plausible range of a field and its unit. */
  datatype Range = Range(min: real, max: real, unit: string)

  /** `dataRanges`: the 19 fields of the entry form. */
  const DataRanges: map<string, Range> := map[
    "wave_direction" := Range(0.0, 360.0, "\U{00B0}"),
    "wave_height" := Range(0.5, 15.0, "m"),
    "sea_surface_temperature" := Range(20.0, 32.0, "\U{00B0}C"),
    "ocean_current_velocity" := Range(0.1, 2.5, "m/s"),
    "temperature_2m" := Range(18.0, 45.0, "\U{00B0}C"),
    "relative_humidity_2m" := Range(30.0, 95.0, "%"),
    "surface_pressure" := Range(980.0, 1030.0, "hPa"),
    "cloud_cover" := Range(0.0, 100.0, "%"),
    "wind_speed_100m" := Range(2.0, 180.0, "km/h"),
    "wind_direction_100m" := Range(0.0, 360.0, "\U{00B0}"),
    "land_area" := Range(100.0, 50000.0, "km\U{00B2}"),
    "coastal_length" := Range(50.0, 5000.0, "km"),
    "temperature" := Range(15.0, 40.0, "\U{00B0}C"),
    "annual_balance" := Range(-5.0, 5.0, "m"),
    "sea_level" := Range(-2.0, 2.0, "m"),
    "ghg_emission" := Range(0.1, 50.0, "Gt"),
    "warming_from_fossil" := Range(0.1, 2.5, "\U{00B0}C"),
    "co2_emission" := Range(0.1, 40.0, "Gt"),
    "fossil_consumption" := Range(1.0, 100.0, "EJ")
  ]

  /** One bar of the environmental chart; a missing `value` is NaN. */
  datatype EnvPoint = EnvPoint(parameter: string, value: Option<real>, normal: real, unit: string)

  /** One slice of the risk chart. */
  datatype RiskSlice = RiskSlice(name: string, value: int, color: string)

  /** One bar of the confidence chart; the value is the text `toFixed(0)` produces. */
  datatype ConfidencePoint = ConfidencePoint(threat: string, confidence: string)

  datatype ChartData = ChartData(environmentalChart: seq<EnvPoint>, riskData: seq<RiskSlice>, confidenceData: seq<ConfidencePoint>)

  /** The bar for one entry of the data object. */
  function EnvPointOf(key: string, value: Value): EnvPoint
  {
    EnvPoint(
      ReplaceAll(key, '_', ' '),
      match value
      case Num(None) => None
      case Num(Some(x)) => Some(ToFixed(x, 1))
      case Str(_) => Some(0.0),
      if key in DataRanges then DataRanges[key].max * 0.5 else 50.0,
      if key in DataRanges then DataRanges[key].unit else "")
  }

  /** `(c * 100).toFixed(0)` for a confidence `c` between 0 and 1. */
  function PercentText(c: real): string
  {
    IntToString(ToFixed(c * 100.0, 0).Floor)
  }

  /** The bars for the first ten entries of the data object. */
  function EnvironmentalChart(data: Record): seq<EnvPoint>
  {
    var first := Take(data, 10);
    seq(|first|, i requires 0 <= i < |first| => EnvPointOf(first[i].0, first[i].1))
  }

  /** The risk chart: the three flags and the remainder `3 - totalThreats`. */
  function RiskData(p: Assessment): seq<RiskSlice>
  {
    [ RiskSlice("Cyclone Risk", p.cyclone.prediction, "#ef4444"),
      RiskSlice("Sea Level Risk", p.seaLevel.prediction, "#3b82f6"),
      RiskSlice("Climate Risk", p.climate.prediction, "#f59e0b"),
      RiskSlice("Low Risk Areas", 3 - p.totalThreats, "#10b981") ]
  }

  function ConfidenceData(p: Assessment): seq<ConfidencePoint>
  {
    [ ConfidencePoint("Cyclone", PercentText(p.cyclone.confidence)),
      ConfidencePoint("Sea Level", PercentText(p.seaLevel.confidence)),
      ConfidencePoint("Climate", PercentText(p.climate.confidence)) ]
  }

  /** `generateChartData`. */
  function GenerateChartData(data: Record, p: Assessment): ChartData
  {
    ChartData(EnvironmentalChart(data), RiskData(p), ConfidenceData(p))
  }

  /**
    The environmental chart shows the first ten entries of the data, each
    with its key's underscores turned to spaces and its number rounded to
    one decimal: a NaN reading stays NaN, a non-number value shows as 0, and
    every other value lies within 0.05 of its reading.
  */
  lemma EnvironmentalChartShape(data: Record)
    ensures var env := EnvironmentalChart(data);
      && |env| == (if |data| < 10 then |data| else 10)
      && (forall i :: 0 <= i < |env| ==> '_' !in env[i].parameter && |env[i].parameter| == |data[i].0|)
      && (forall i :: 0 <= i < |env| ==> (data[i].1 == Num(None) <==> env[i].value == None))
      && (forall i :: 0 <= i < |env| && data[i].1.Str? ==> env[i].value == Some(0.0))
      && (forall i, x :: 0 <= i < |env| && data[i].1 == Num(Some(x)) ==>
            -0.05 <= env[i].value.value - x <= 0.05)
  {
    var env := EnvironmentalChart(data);
    forall i, x | 0 <= i < |env| && data[i].1 == Num(Some(x))
      ensures -0.05 <= env[i].value.value - x <= 0.05
    {
      assert env[i] == EnvPointOf(data[i].0, data[i].1);
      assert Pow10(1) == 10;
    }
  }

  /**
    For an assessment by `predictThreats` the risk chart's four values are
    never negative and always add up to 3: the three flags plus the
    "Low Risk Areas" remainder.
  */
  lemma RiskChartBalanced(data: Record)
    ensures var slices := RiskData(PredictThreats(data));
      && (forall i :: 0 <= i < 4 ==> slices[i].value >= 0)
      && slices[0].value + slices[1].value + slices[2].value + slices[3].value == 3
  {
    var p := PredictThreats(data);
    CountOfThree(p.Predictions());
  }

  /** Three predictions are counted flag by flag. */
  lemma CountOfThree(ps: seq<Prediction>)
    requires |ps| == 3
    ensures CountFlagged(ps) == (if ps[0].prediction == 1 then 1 else 0)
      + (if ps[1].prediction == 1 then 1 else 0) + (if ps[2].prediction == 1 then 1 else 0)
  {
    assert ps[1..][0] == ps[1] && ps[1..][1..][0] == ps[2] && ps[1..][1..][1..] == [];
    assert CountFlagged(ps[1..][1..]) == (if ps[2].prediction == 1 then 1 else 0);
    assert CountFlagged(ps[1..]) == (if ps[1].prediction == 1 then 1 else 0) + CountFlagged(ps[1..][1..]);
  }

  // ----- reports -----

  /** Map coordinates as the form keeps them; `None` is `null`. */
  datatype Coordinates = Coordinates(lat: Option<real>, lng: Option<real>)

  /** A situation report. */
  datatype SitRep = SitRep(
    id: string,
    title: string,
    generatedAt: string,
    location: string,
    coordinates: Coordinates,
    severity: Severity,
    icon: string,
    summary: string,
    environmentalData: Record,
    aiPredictions: Assessment,
    tags: seq<string>,
    lastUpdated: int,
    chartData: ChartData)

  /** The fields `createNewReport` requires, in its order. */
  const RequiredFields: seq<string> := [
    "wave_direction", "wave_height", "sea_surface_temperature", "ocean_current_velocity",
    "temperature_2m", "relative_humidity_2m", "surface_pressure", "cloud_cover",
    "wind_speed_100m", "wind_direction_100m", "land_area", "coastal_length",
    "temperature", "annual_balance", "sea_level", "ghg_emission",
    "warming_from_fossil", "co2_emission", "fossil_consumption"]

  /**
    The entry form. The numeric inputs hold the text typed into them
    (a field never typed into is absent, which reads as ""); a coordinate
    input that does not parse to a non-zero number holds `null`.
  */
  datatype ReportForm = ReportForm(
    location: string,
    coordinates: Coordinates,
    values: map<string, string>,
    year: int,
    continent: string)

  function FieldValue(form: ReportForm, key: string): string
  {
    if key in form.values then form.values[key] else ""
  }

  /** The form after a reset: everything empty, the year set to the current one. */
  function EmptyForm(currentYear: int): ReportForm
  {
    ReportForm("", Coordinates(None, None), map[], currentYear, "")
  }

  /** `!x` for a coordinate: null, 0 and NaN are falsy. */
  predicate Falsy(x: Option<real>)
  {
    x == None || x == Some(0.0)
  }

  /** The test `!newReportData[field] && newReportData[field] !== 0`: an empty text. */
  function IsMissing(form: ReportForm): string -> bool
  {
    field => FieldValue(form, field) == ""
  }

  /** The required fields left empty, in their order. */
  function MissingFields(form: ReportForm): seq<string>
  {
    Filter(RequiredFields, IsMissing(form))
  }

  /** The data object built from the form: every required field parsed, then the year and continent. */
  function EnvironmentalData(form: ReportForm): (r: Record)
    ensures |r| == |RequiredFields| + 2
  {
    seq(|RequiredFields|, i requires 0 <= i < |RequiredFields| =>
      (RequiredFields[i], Num(ParseFloat(FieldValue(form, RequiredFields[i])))))
    + [("year", Num(Some(form.year as real))), ("continent", Str(form.continent))]
  }

  /** `SITREP-2024-` and `n` padded to three digits. */
  function SitRepId(n: nat): string
  {
    "SITREP-2024-" + PadStart(NatToString(n), 3, '0')
  }

  /** Distinct numbers give distinct ids. */
  lemma SitRepIdInjective(m: nat, n: nat)
    requires SitRepId(m) == SitRepId(n)
    ensures m == n
  {
    var prefix := "SITREP-2024-";
    assert SitRepId(m)[|prefix|..] == PadStart(NatToString(m), 3, '0');
    assert SitRepId(n)[|prefix|..] == PadStart(NatToString(n), 3, '0');
    PaddedNumberInjective(m, n, 3);
  }

  function IconFor(totalThreats: nat): string
  {
    if totalThreats >= 2 then "\U{26A0}\U{FE0F}"
    else if totalThreats == 1 then "\U{1F50D}"
    else "\U{2705}"
  }

  /** What `createNewReport` reports back. */
  datatype CreateOutcome =
    | MissingLocation
    | MissingRequired(fields: seq<string>)
    | Created

  /** The text shown for a form with required fields left empty. */
  function MissingFieldsMessage(fields: seq<string>): string
  {
    "Please fill in all required fields: " + Join(fields, ", ")
  }

  /** The check `createNewReport` makes before building a report. */
  function Validate(form: ReportForm): CreateOutcome
  {
    if form.location == "" || Falsy(form.coordinates.lat) || Falsy(form.coordinates.lng) then MissingLocation
    else if MissingFields(form) != [] then MissingRequired(MissingFields(form))
    else Created
  }

  /**
    A form is rejected for its location exactly when the location is empty
    or a coordinate is falsy; otherwise for its fields exactly when one of
    them is empty, and the rejection lists precisely the empty ones.
  */
  lemma ValidateCases(form: ReportForm)
    ensures Validate(form) == MissingLocation <==>
      form.location == "" || Falsy(form.coordinates.lat) || Falsy(form.coordinates.lng)
    ensures Validate(form).MissingRequired? ==>
      forall f :: f in Validate(form).fields <==> f in RequiredFields && FieldValue(form, f) == ""
    ensures Validate(form) == Created <==>
      && form.location != "" && !Falsy(form.coordinates.lat) && !Falsy(form.coordinates.lng)
      && forall f :: f in RequiredFields ==> FieldValue(form, f) != ""
  {
    if forall f :: f in RequiredFields ==> FieldValue(form, f) != "" {
      FilterKeepsNone(RequiredFields, IsMissing(form));
    }
  }

  /** Report ids numbered by distinct numbers from 1 to the report count. */
  ghost predicate Numbered(reports: seq<SitRep>, numbers: seq<nat>)
  {
    && |numbers| == |reports|
    && (forall i :: 0 <= i < |reports| ==> reports[i].id == SitRepId(numbers[i]))
    && (forall i :: 0 <= i < |numbers| ==> 1 <= numbers[i] <= |reports|)
    && (forall i, j :: 0 <= i < j < |numbers| ==> numbers[i] != numbers[j])
  }

  /** Putting in front a report numbered one past the count keeps the numbering. */
  lemma PrependNumbered(reports: seq<SitRep>, numbers: seq<nat>, r: SitRep)
    requires Numbered(reports, numbers) && r.id == SitRepId(|reports| + 1)
    ensures Numbered([r] + reports, [|reports| + 1] + numbers)
  {
    var rs, ns := [r] + reports, [|reports| + 1] + numbers;
    assert forall i :: 1 <= i < |rs| ==> rs[i] == reports[i - 1] && ns[i] == numbers[i - 1];
  }

  /** The page's state: its reports and the entry form. */
  class SitRepsPage {
    var reports: seq<SitRep>
    var form: ReportForm
    var showNewReportModal: bool
    /** The number in each report's id. */
    ghost var idNumbers: seq<nat>

    /** Every report's id is `SitRepId` of a distinct number between 1 and the report count. */
    ghost predicate Valid()
      reads this`reports, this`idNumbers
    {
      Numbered(reports, idNumbers)
    }

    constructor (currentYear: int)
      ensures Valid()
      ensures reports == [] && form == EmptyForm(currentYear) && !showNewReportModal
    {
      reports := [];
      form := EmptyForm(currentYear);
      showNewReportModal := false;
      idNumbers := [];
    }

    /** Installs the reports the page loads at start, numbered 1, 2, … in list order. */
    method LoadReports(loaded: seq<SitRep>)
      requires forall i :: 0 <= i < |loaded| ==> loaded[i].id == SitRepId(i + 1)
      modifies this
      ensures Valid()
      ensures reports == loaded && form == old(form) && showNewReportModal == old(showNewReportModal)
    {
      reports := loaded;
      idNumbers := seq(|loaded|, i requires 0 <= i < |loaded| => i + 1);
    }

    /**
      Puts a report numbered one past the count at the head of the list,
      resets the form and closes the modal.
    */
    method Commit(report: SitRep, currentYear: int)
      requires Valid() && report.id == SitRepId(|reports| + 1)
      modifies this`reports, this`idNumbers, this`showNewReportModal, this`form
      ensures Valid()
      ensures reports == [report] + old(reports)
      ensures form == EmptyForm(currentYear) && !showNewReportModal
    {
      var n := |reports| + 1;
      PrependNumbered(reports, idNumbers, report);
      reports, idNumbers := [report] + reports, [n] + idNumbers;
      showNewReportModal := false;
      form := EmptyForm(currentYear);
    }

    /**
      `createNewReport`: rejects a form without a location or with a falsy
      coordinate, then one with empty required fields (listing them);
      otherwise puts the new report in front, closes the dialog and resets
      the form.
    */
    method CreateNewReport(generatedAt: string, currentYear: int) returns (outcome: CreateOutcome)
      requires Valid()
      modifies this
      ensures Valid()
      ensures outcome == Validate(old(form))
      ensures outcome != Created ==>
        reports == old(reports) && form == old(form) && showNewReportModal == old(showNewReportModal)
      ensures outcome == Created ==>
        && reports == [NewReport(old(form), |old(reports)| + 1, generatedAt)] + old(reports)
        && form == EmptyForm(currentYear)
        && !showNewReportModal
    {
      if form.location == "" || Falsy(form.coordinates.lat) || Falsy(form.coordinates.lng) {
        return MissingLocation;
      }
      var missing := MissingFields(form);
      if |missing| > 0 {
        return MissingRequired(missing);
      }
      var report := BuildReport(form, |reports| + 1, generatedAt);
      Commit(report, currentYear);
      outcome := Created;
    }
  }

  /** Assembles the new report from a valid form, numbered `n`. */
  method BuildReport(form: ReportForm, n: nat, generatedAt: string) returns (report: SitRep)
    ensures report == NewReport(form, n, generatedAt)
  {
    var data := EnvironmentalData(form);
    var p := PredictThreats(data);
    var summary := GenerateSummary(p, form.location);
    report := AssessedReport(form, data, p, summary, GenerateChartData(data, p), n, generatedAt);
  }

  /** The report a valid form produces, numbered `n`. */
  function NewReport(form: ReportForm, n: nat, generatedAt: string): SitRep
  {
    var data := EnvironmentalData(form);
    var p := PredictThreats(data);
    AssessedReport(form, data, p, SummaryText(p, form.location), GenerateChartData(data, p), n, generatedAt)
  }

  /** The report for a form, its data, the assessment of that data, its summary and its charts. */
  function AssessedReport(form: ReportForm, data: Record, p: Assessment, summary: string, charts: ChartData,
                          n: nat, generatedAt: string): SitRep
  {
    SitRep(
      SitRepId(n),
      "Multi-Threat Assessment - " + form.location,
      generatedAt,
      form.location,
      form.coordinates,
      p.overallSeverity,
      IconFor(p.totalThreats),
      summary,
      data,
      p,
      ["User Generated", if p.overallSeverity == High then "Emergency" else "Assessment", "Multi-Threat"],
      0,
      charts)
  }

  /** The icon shows the severity: the warning sign exactly for high, the check mark exactly for low. */
  lemma IconShowsSeverity(p: Assessment)
    requires p.overallSeverity == SeverityOf(p.totalThreats)
    ensures IconFor(p.totalThreats) == "\U{26A0}\U{FE0F}" <==> p.overallSeverity == High
    ensures IconFor(p.totalThreats) == "\U{2705}" <==> p.overallSeverity == Low
  {
    assert "\U{26A0}\U{FE0F}"[0] != "\U{1F50D}"[0] && "\U{26A0}\U{FE0F}"[0] != "\U{2705}"[0];
    assert "\U{2705}"[0] != "\U{1F50D}"[0];
  }

  /**
    A report built from an assessment whose severity follows its threat
    count, as every result of `PredictThreats` does, carries the numbered id
    and that severity, the warning icon exactly for high severity, the check
    mark exactly for low, and the `Emergency` tag exactly for high.
  */
  lemma NewReportConsistent(form: ReportForm, data: Record, p: Assessment, summary: string, charts: ChartData,
                            n: nat, generatedAt: string)
    requires p.overallSeverity == SeverityOf(p.totalThreats)
    ensures var r := AssessedReport(form, data, p, summary, charts, n, generatedAt);
      && r.id == SitRepId(n)
      && r.severity == p.overallSeverity && r.aiPredictions == p
      && (r.icon == "\U{26A0}\U{FE0F}" <==> r.severity == High)
      && (r.icon == "\U{2705}" <==> r.severity == Low)
      && (r.tags[1] == "Emergency" <==> r.severity == High)
  {
    IconShowsSeverity(p);
    assert "Emergency"[0] != "Assessment"[0];
  }

  /** Report ids on a valid page are pairwise distinct. */
  lemma DistinctIds(page: SitRepsPage)
    requires page.Valid()
    ensures forall i, j :: 0 <= i < j < |page.reports| ==> page.reports[i].id != page.reports[j].id
  {
    forall i, j | 0 <= i < j < |page.reports|
      ensures page.reports[i].id != page.reports[j].id
    {
      if page.reports[i].id == page.reports[j].id {
        SitRepIdInjective(page.idNumbers[i], page.idNumbers[j]);
      }
    }
  }

  /** A field typed as "0" is present; only the empty text is missing. */
  lemma ZeroIsPresent(form: ReportForm, field: string)
    requires field in RequiredFields && FieldValue(form, field) == "0"
    ensures field !in MissingFields(form)
  {
  }

  /** A form with every required field filled has nothing missing. */
  lemma FilledFormHasNothingMissing(form: ReportForm)
    requires forall f :: f in RequiredFields ==> FieldValue(form, f) != ""
    ensures MissingFields(form) == []
  {
    FilterKeepsNone(RequiredFields, IsMissing(form));
  }

  // ----- filter -----

  /** `filteredReports`: the search text in the title or location (ignoring case), and the chosen severity or 'all'. */
  function Matches(searchTerm: string, selectedSeverity: string): SitRep -> bool
  {
    (r: SitRep) =>
      && (Contains(ToLower(r.title), ToLower(searchTerm)) || Contains(ToLower(r.location), ToLower(searchTerm)))
      && (selectedSeverity == "all" || r.severity.Name() == selectedSeverity)
  }

  function FilteredReports(reports: seq<SitRep>, searchTerm: string, selectedSeverity: string): seq<SitRep>
  {
    Filter(reports, Matches(searchTerm, selectedSeverity))
  }

  /**
    The shown reports keep their order; a report is shown exactly when the
    search text occurs in its title or location (ignoring case) and its
    severity is the chosen one; an empty search with 'all' shows everything.
  */
  lemma FilteredReportsSpec(reports: seq<SitRep>, searchTerm: string, selectedSeverity: string)
    ensures IsSubsequence(FilteredReports(reports, searchTerm, selectedSeverity), reports)
    ensures forall r :: r in FilteredReports(reports, searchTerm, selectedSeverity) <==>
      && r in reports
      && (Contains(ToLower(r.title), ToLower(searchTerm)) || Contains(ToLower(r.location), ToLower(searchTerm)))
      && (selectedSeverity == "all" || r.severity.Name() == selectedSeverity)
    ensures searchTerm == "" && selectedSeverity == "all" ==> FilteredReports(reports, searchTerm, selectedSeverity) == reports
  {
    FilterIsSubsequence(reports, Matches(searchTerm, selectedSeverity));
    if searchTerm == "" && selectedSeverity == "all" {
      forall r | r in reports
        ensures Matches(searchTerm, selectedSeverity)(r)
      {
        ContainsEmpty(ToLower(r.title));
      }
      FilterKeepsAll(reports, Matches(searchTerm, selectedSeverity));
    }
  }
}
