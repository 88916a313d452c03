/**
  The dashboard's cyclone monitor: the risk rule applied to the prediction
  service's answer, the choice of alert, the failure fallback, the
  five-minute countdown, and the dashboard's copy of the alert feed.

  The prediction service is reached over the network; here its answer (or
  the failure it raised) is a parameter, as are the random draw behind the
  wind-speed jitter, the current time and the alert id.
*/
module CycloneMonitor {
  import opened Optional
  import opened Text
  import opened Sequences
  import opened Alerts

  /** The part of a JSON answer the monitor compares: a number, or anything else. */
  datatype Json = JNum(n: real) | JOther

  datatype RiskLevel = Success | Safe | Warning | Danger

  /** What `calculateRisk` returns. */
  datatype Risk = Risk(score: int, level: RiskLevel, status: string)

  /** The wind speed the monitor reports to the service (`wind_speed_100m`); it never changes. */
  const SensorWindSpeed: int := 200

  /** Seconds between automatic updates. */
  const UpdatePeriod: int := 300

  /** `data.prediction`, else `data.result`, else 0; `None` stands for an undefined field. */
  function PredictionOf(prediction: Option<Json>, result: Option<Json>): (p: Json)
    ensures prediction.Some? ==> p == prediction.value
    ensures prediction == None && result.Some? ==> p == result.value
    ensures prediction == None && result == None ==> p == JNum(0.0)
  {
    match prediction
    case Some(v) => v
    case None => result.GetOr(JNum(0.0))
  }

  /** The wind speed after the random jitter of up to 10 km/h either way; `random` is `Math.random()`. */
  function Jitter(windSpeed: real, random: real): real
  {
    windSpeed + (random - 0.5) * 20.0
  }

  /** `calculateRisk`, given the already jittered wind speed. */
  function CalculateRisk(prediction: Json, wind: real): Risk
  {
    if prediction == JNum(0.0) && wind < 60.0 then Risk(10, Success, "No Cyclone Detected")
    else if wind > 100.0 then Risk(90, RiskLevel.Danger, "High Alert - Severe Cyclone")
    else if wind > 85.0 then Risk(70, RiskLevel.Warning, "Moderate Alert - Strong Winds")
    else if wind > 60.0 then Risk(50, Safe, "Low Alert - Monitor Conditions")
    else Risk(30, Safe, "Low Risk - Stable Conditions")
  }

  predicate IsRiskScore(score: int)
  {
    score == 10 || score == 30 || score == 50 || score == 70 || score == 90
  }

  /**
    The score is one of five values; each level is reached exactly on its
    band of wind speeds, and `success` only on a zero prediction with calm wind.
  */
  lemma RiskBands(prediction: Json, wind: real)
    ensures IsRiskScore(CalculateRisk(prediction, wind).score)
    ensures CalculateRisk(prediction, wind).level == Success <==> prediction == JNum(0.0) && wind < 60.0
    ensures CalculateRisk(prediction, wind).level == RiskLevel.Danger <==> wind > 100.0
    ensures CalculateRisk(prediction, wind).level == RiskLevel.Warning <==> 85.0 < wind <= 100.0
    ensures wind > 100.0 ==> CalculateRisk(prediction, wind) == Risk(90, RiskLevel.Danger, "High Alert - Severe Cyclone")
  {
  }

  /** For a fixed prediction, a stronger wind never lowers the score. */
  lemma RiskMonotone(prediction: Json, w1: real, w2: real)
    requires w1 <= w2
    ensures CalculateRisk(prediction, w1).score <= CalculateRisk(prediction, w2).score
  {
  }

  /** With the monitor's own sensor reading every draw of `Math.random()` gives a severe cyclone. */
  lemma SensorReadingAlwaysSevere(prediction: Json, random: real)
    requires 0.0 <= random < 1.0
    ensures CalculateRisk(prediction, Jitter(SensorWindSpeed as real, random)).level == RiskLevel.Danger
  {
  }

  datatype AlertChoice = NoAlert | RaiseDanger | RaiseWarning

  /** The alert decision after a successful update. */
  function SelectAlert(prediction: Json, risk: Risk): AlertChoice
  {
    if prediction == JNum(1.0) && risk.level == RiskLevel.Danger && risk.score > 80 then RaiseDanger
    else if prediction == JNum(1.0) && risk.level == RiskLevel.Warning && risk.score > 60 then RaiseWarning
    else NoAlert
  }

  /**
    Under `calculateRisk` the score tests never decide anything: a danger
    alert is raised exactly for prediction 1 above 100 km/h, a warning
    exactly for prediction 1 between 85 and 100 km/h.
  */
  lemma AlertSelection(prediction: Json, wind: real)
    ensures SelectAlert(prediction, CalculateRisk(prediction, wind)) == RaiseDanger <==>
      prediction == JNum(1.0) && wind > 100.0
    ensures SelectAlert(prediction, CalculateRisk(prediction, wind)) == RaiseWarning <==>
      prediction == JNum(1.0) && 85.0 < wind <= 100.0
    ensures prediction != JNum(1.0) ==> SelectAlert(prediction, CalculateRisk(prediction, wind)) == NoAlert
  {
    RiskBands(prediction, wind);
  }

  function DangerText(windSpeed: int): string
  {
    "\U{1F6A8} CYCLONE DETECTED: API confirms high cyclone risk! Wind speeds: " + IntToString(windSpeed)
      + "km/h. Immediate evacuation recommended."
  }

  function WarningText(windSpeed: int): string
  {
    "\U{26A0}\U{FE0F} CYCLONE WARNING: API detected moderate cyclone formation. Wind speeds: " + IntToString(windSpeed)
      + "km/h. Stay alert and monitor updates."
  }

  /** What the monitor knows of a thrown error: its `name`, whether it is a `TypeError`, and its `message`. */
  datatype Failure = Failure(name: string, isTypeError: bool, message: string)

  /** The text of the failure alert. */
  function ErrorMessage(f: Failure): string
  {
    if f.name == "AbortError" then "API request timed out"
    else if f.isTypeError && Contains(f.message, "fetch") then "Cannot connect to API server"
    else "API connection failed"
  }

  /** Each of the three failure texts is given for exactly its kind of error. */
  lemma ErrorMessageCases(f: Failure)
    ensures ErrorMessage(f) == "API request timed out" <==> f.name == "AbortError"
    ensures ErrorMessage(f) == "Cannot connect to API server" <==>
      f.name != "AbortError" && f.isTypeError && exists i :: OccursAt(f.message, "fetch", i)
    ensures ErrorMessage(f) == "API connection failed" <==>
      f.name != "AbortError" && !(f.isTypeError && Contains(f.message, "fetch"))
  {
    ContainsIffOccurs(f.message, "fetch");
  }

  /** How a call to the service ended: an answer with its two possible fields, or a thrown error. */
  datatype Outcome = Answered(prediction: Option<Json>, result: Option<Json>) | Failed(failure: Failure)

  /** What the monitor passes to `onRiskUpdate` after an answer. */
  datatype RiskReport = RiskReport(riskScore: int, level: RiskLevel, status: string, prediction: Json, windSpeed: int)

  /**
    `m:ss`: whole minutes, a colon, then the seconds padded to two digits.
  */
  function FormatTime(seconds: nat): string
  {
    NatToString(seconds / 60) + ":" + PadStart(NatToString(seconds % 60), 2, '0')
  }

  lemma {:induction false} ShortNumber(n: nat)
    requires n < 100
    ensures |NatToString(n)| <= 2
  {
    if n >= 10 {
      assert NatToString(n) == NatToString(n / 10) + [DigitChar(n % 10)];
    }
  }

  /**
    The countdown text splits at its one colon into the minutes and a
    two-digit seconds field, and reading them back gives the seconds again.
  */
  lemma FormatTimeRoundTrip(seconds: nat)
    ensures var parts := Split(FormatTime(seconds), ':');
      && |parts| == 2
      && |parts[1]| == 2
      && AllDigits(parts[0]) && AllDigits(parts[1])
      && DigitsValue(parts[0]) * 60 + DigitsValue(parts[1]) == seconds
  {
    var m := NatToString(seconds / 60);
    var s := PadStart(NatToString(seconds % 60), 2, '0');
    PaddedNumberRoundTrip(seconds % 60, 2);
    NatToStringRoundTrip(seconds / 60);
    ShortNumber(seconds % 60);
    assert ':' !in m && ':' !in s by {
      assert forall i :: 0 <= i < |m| ==> IsDigit(m[i]);
      assert forall i :: 0 <= i < |s| ==> IsDigit(s[i]);
    }
    SplitJoinRoundTrip([m, s], ':');
    assert Join([m, s], [':']) == FormatTime(seconds);
  }

  /** Different counts of seconds are shown differently. */
  lemma FormatTimeInjective(s1: nat, s2: nat)
    requires FormatTime(s1) == FormatTime(s2)
    ensures s1 == s2
  {
    FormatTimeRoundTrip(s1);
    FormatTimeRoundTrip(s2);
  }

  /** The alert an answer raises under the given choice, if any. */
  function AnswerAlert(choice: AlertChoice, id: string, now: int): (r: Option<Alert>)
    ensures r.Some? <==> choice != NoAlert
    ensures r.Some? ==> r.value.id == id && r.value.timestamp == now
  {
    match choice
    case NoAlert => None
    case RaiseDanger => Some(Alert(id, AlertKind.Danger, DangerText(SensorWindSpeed), Some("Bay of Bengal"), now))
    case RaiseWarning => Some(Alert(id, AlertKind.Warning, WarningText(SensorWindSpeed), Some("Coastal Areas"), now))
  }

  /** The warning a failed update raises. */
  function FailureAlert(f: Failure, id: string, now: int): Alert
  {
    Alert(id, AlertKind.Warning, "\U{1F527} " + ErrorMessage(f), Some("System"), now)
  }

  /** The monitor's state; the sensor readings it sends never change and are not kept. */
  class Monitor {
    var riskScore: int
    var riskLevel: RiskLevel
    var status: string
    var lastUpdated: int
    var nextUpdate: int
    var alerts: seq<Alert>
    var isActive: bool

    /** The countdown stays within one period, the feed is valid, the score is a known one. */
    predicate Valid()
      reads this
    {
      && 1 <= nextUpdate <= UpdatePeriod
      && ValidFeed(alerts)
      && (riskScore == 0 || IsRiskScore(riskScore))
    }

    constructor (now: int)
      ensures Valid()
      ensures riskScore == 10 && riskLevel == Success && status == "System Initializing..."
      ensures lastUpdated == now && nextUpdate == UpdatePeriod && alerts == [] && isActive
    {
      riskScore := 10;
      riskLevel := Success;
      status := "System Initializing...";
      lastUpdated := now;
      nextUpdate := UpdatePeriod;
      alerts := [];
      isActive := true;
    }

    /** `addAlert`; `added` tells whether the feed was replaced. */
    method AddAlert(kind: AlertKind, message: string, location: Option<string>, id: string, timestamp: int)
      returns (added: bool)
      requires Valid()
      modifies this
      ensures Valid()
      ensures alerts == Added(old(alerts), Alert(id, kind, message, location, timestamp))
      ensures added <==> !(kind == AlertKind.Danger && HasDanger(old(alerts), message))
      ensures riskScore == old(riskScore) && riskLevel == old(riskLevel) && status == old(status)
      ensures lastUpdated == old(lastUpdated) && nextUpdate == old(nextUpdate) && isActive == old(isActive)
    {
      var a := Alert(id, kind, message, location, timestamp);
      AddedKeepsValid(alerts, a);
      if kind == AlertKind.Danger && HasDanger(alerts, message) {
        added := false;
        return;
      }
      alerts := Take([a] + alerts, FeedLimit);
      added := true;
    }

    /**
      `handleUpdate` after an answer: the risk comes from the prediction
      and the jittered wind, the countdown restarts, and at most one alert
      is raised.
    */
    method HandleAnswer(prediction: Option<Json>, result: Option<Json>, random: real, now: int, alertId: string)
      returns (report: RiskReport, added: bool)
      requires Valid()
      modifies this
      ensures Valid()
      ensures var p := PredictionOf(prediction, result);
        var risk := CalculateRisk(p, Jitter(SensorWindSpeed as real, random));
        && riskScore == risk.score && riskLevel == risk.level && status == risk.status
        && report == RiskReport(risk.score, risk.level, risk.status, p, SensorWindSpeed)
        && alerts == match AnswerAlert(SelectAlert(p, risk), alertId, now)
           case None => old(alerts)
           case Some(a) => Added(old(alerts), a)
      ensures var p := PredictionOf(prediction, result);
        var raised := AnswerAlert(SelectAlert(p, CalculateRisk(p, Jitter(SensorWindSpeed as real, random))), alertId, now);
        added <==> raised.Some? && !(raised.value.kind == AlertKind.Danger && HasDanger(old(alerts), raised.value.message))
      ensures !added ==> alerts == old(alerts)
      ensures lastUpdated == now && nextUpdate == UpdatePeriod && isActive == old(isActive)
    {
      var p := PredictionOf(prediction, result);
      var risk := CalculateRisk(p, Jitter(SensorWindSpeed as real, random));
      RiskBands(p, Jitter(SensorWindSpeed as real, random));
      riskScore, riskLevel, status := risk.score, risk.level, risk.status;
      lastUpdated := now;
      report := RiskReport(risk.score, risk.level, risk.status, p, SensorWindSpeed);
      added := false;
      var alert := AnswerAlert(SelectAlert(p, risk), alertId, now);
      if alert.Some? {
        var a := alert.value;
        assert a == Alert(alertId, a.kind, a.message, a.location, now);
        added := AddAlert(a.kind, a.message, a.location, alertId, now);
      }
      nextUpdate := UpdatePeriod;
    }

    /**
      `handleUpdate` after a thrown error: the score drops to 0 with level
      `success`, and one warning naming the error is raised.
    */
    method HandleFailure(failure: Failure, now: int, alertId: string) returns (added: bool)
      requires Valid()
      modifies this
      ensures Valid()
      ensures riskScore == 0 && riskLevel == Success && status == "API Connection Error"
      ensures alerts == Added(old(alerts), FailureAlert(failure, alertId, now))
      ensures added
      ensures lastUpdated == old(lastUpdated) && nextUpdate == old(nextUpdate) && isActive == old(isActive)
    {
      riskScore, riskLevel, status := 0, Success, "API Connection Error";
      var a := FailureAlert(failure, alertId, now);
      added := AddAlert(a.kind, a.message, a.location, alertId, now);
    }

    /**
      One second of the countdown: nothing while paused; otherwise a value
      of at most 1 fires an update and restarts at 300, any other value
      goes down by one.
    */
    method Tick() returns (fire: bool)
      requires Valid()
      modifies this
      ensures Valid()
      ensures !old(isActive) ==> !fire && nextUpdate == old(nextUpdate)
      ensures old(isActive) && old(nextUpdate) <= 1 ==> fire && nextUpdate == UpdatePeriod
      ensures old(isActive) && old(nextUpdate) > 1 ==> !fire && nextUpdate == old(nextUpdate) - 1
      ensures riskScore == old(riskScore) && riskLevel == old(riskLevel) && status == old(status)
      ensures lastUpdated == old(lastUpdated) && alerts == old(alerts) && isActive == old(isActive)
    {
      fire := false;
      if !isActive {
        return;
      }
      if nextUpdate <= 1 {
        fire := true;
        nextUpdate := UpdatePeriod;
      } else {
        nextUpdate := nextUpdate - 1;
      }
    }

    /** Drops every alert carrying `id` from the feed. */
    method Dismiss(id: string)
      requires Valid()
      modifies this
      ensures Valid()
      ensures alerts == WithoutId(old(alerts), AlertId, id)
      ensures riskScore == old(riskScore) && riskLevel == old(riskLevel) && status == old(status)
      ensures lastUpdated == old(lastUpdated) && nextUpdate == old(nextUpdate) && isActive == old(isActive)
    {
      WithoutIdKeepsValid(alerts, id);
      alerts := WithoutId(alerts, AlertId, id);
    }

    /** The pause / resume switch. */
    method SetActive(active: bool)
      requires Valid()
      modifies this
      ensures Valid()
      ensures isActive == active
      ensures riskScore == old(riskScore) && riskLevel == old(riskLevel) && status == old(status)
      ensures lastUpdated == old(lastUpdated) && nextUpdate == old(nextUpdate) && alerts == old(alerts)
    {
      isActive := active;
    }
  }

  /** The countdown value after `n` ticks while active, starting from `start`. */
  function Countdown(start: int, n: nat): int
  {
    if n == 0 then start
    else
      var prev := Countdown(start, n - 1);
      if prev <= 1 then UpdatePeriod else prev - 1
  }

  /** While active, an update fires every `UpdatePeriod` ticks: from a fresh start the count is back at 300 after 300 ticks. */
  lemma {:induction false} CountdownCycle(n: nat)
    requires n < UpdatePeriod
    ensures Countdown(UpdatePeriod, n) == UpdatePeriod - n
  {
    if n > 0 {
      CountdownCycle(n - 1);
    }
  }

  lemma CountdownFiresAfterPeriod()
    ensures Countdown(UpdatePeriod, UpdatePeriod) == UpdatePeriod
  {
    CountdownCycle(UpdatePeriod - 1);
  }

  // ----- the dashboard's copy of the feed -----

  /** The monitor's feed and the copy the dashboard shows. */
  datatype Feeds = Feeds(monitor: seq<Alert>, shown: seq<Alert>)

  /**
    The monitor adds an alert; when it replaces its feed the dashboard's
    effect copies the new feed over the shown one.
  */
  function MonitorAdds(f: Feeds, a: Alert): (g: Feeds)
    ensures a.kind == AlertKind.Danger && HasDanger(f.monitor, a.message) ==> g == f
    ensures !(a.kind == AlertKind.Danger && HasDanger(f.monitor, a.message)) ==>
      g.shown == g.monitor && |g.monitor| > 0 && g.monitor[0] == a && g.monitor[1..] == Take(f.monitor, FeedLimit - 1)
  {
    if a.kind == AlertKind.Danger && HasDanger(f.monitor, a.message) then f
    else
      var next := Added(f.monitor, a);
      NewAlertInFront(f.monitor, a);
      Feeds(next, next)
  }

  /** The monitor adds the alerts one after another, the first one first. */
  function MonitorAddsAll(f: Feeds, later: seq<Alert>): Feeds
    decreases |later|
  {
    if |later| == 0 then f else MonitorAddsAll(MonitorAdds(f, later[0]), later[1..])
  }

  /** `Dashboard.removeAlert` as written: only the shown copy is filtered; the monitor's feed stays. */
  function DismissAsWritten(f: Feeds, id: string): (g: Feeds)
    ensures g.monitor == f.monitor
    ensures forall a :: a in g.shown <==> a in f.shown && a.id != id
  {
    WithoutIdSpec(f.shown, AlertId, id);
    Feeds(f.monitor, WithoutId(f.shown, AlertId, id))
  }

  /** Dismissal that also removes the alert from the monitor's feed. */
  function Dismiss(f: Feeds, id: string): Feeds
  {
    Feeds(WithoutId(f.monitor, AlertId, id), WithoutId(f.shown, AlertId, id))
  }

  predicate Absent(feed: seq<Alert>, id: string)
  {
    forall i :: 0 <= i < |feed| ==> feed[i].id != id
  }

  /**
    As written, a dismissed alert comes back: with one warning shown,
    dismissing it and then receiving any other alert shows it again.
  */
  lemma DismissedAlertReappears()
    ensures var w := Alert("1", AlertKind.Warning, "\U{1F527} API connection failed", Some("System"), 0);
      var next := Alert("2", AlertKind.Warning, "\U{1F527} API connection failed", Some("System"), 1);
      var f := DismissAsWritten(Feeds([w], [w]), "1");
      && Absent(f.shown, "1")
      && !Absent(MonitorAdds(f, next).shown, "1")
  {
    var w := Alert("1", AlertKind.Warning, "\U{1F527} API connection failed", Some("System"), 0);
    var next := Alert("2", AlertKind.Warning, "\U{1F527} API connection failed", Some("System"), 1);
    var keep := Other<Alert>(AlertId, "1");
    assert AlertId(w) == "1";
    assert !keep(w);
    assert Filter([w], keep) == Filter([w][1..], keep);
    assert [w][1..] == [];
    var g := MonitorAdds(Feeds([w], []), next);
    assert g.shown == [next, w];
    assert g.shown[1].id == "1";
  }

  /** One alert with another id keeps an absent id absent from both feeds. */
  lemma MonitorAddsKeepsAbsent(f: Feeds, id: string, a: Alert)
    requires Absent(f.monitor, id) && Absent(f.shown, id)
    requires a.id != id
    ensures Absent(MonitorAdds(f, a).monitor, id) && Absent(MonitorAdds(f, a).shown, id)
  {
    var r := Added(f.monitor, a);
    if !(a.kind == AlertKind.Danger && HasDanger(f.monitor, a.message)) {
      assert r == ([a] + f.monitor)[..|r|];
      assert forall i :: 0 < i < |r| ==> r[i] == f.monitor[i - 1];
    }
  }

  /** Any run of alerts with other ids keeps an absent id absent from both feeds. */
  lemma {:induction false} MonitorAddsAllKeepsAbsent(f: Feeds, id: string, later: seq<Alert>)
    requires Absent(f.monitor, id) && Absent(f.shown, id)
    requires forall i :: 0 <= i < |later| ==> later[i].id != id
    ensures Absent(MonitorAddsAll(f, later).monitor, id) && Absent(MonitorAddsAll(f, later).shown, id)
    decreases |later|
  {
    if |later| > 0 {
      MonitorAddsKeepsAbsent(f, id, later[0]);
      MonitorAddsAllKeepsAbsent(MonitorAdds(f, later[0]), id, later[1..]);
    }
  }

  /**
    With dismissal applied to both feeds, a dismissed id stays out of both
    feeds whatever run of alerts the monitor adds next, unless one of them
    reuses the id.
  */
  lemma DismissedStaysGone(f: Feeds, id: string, later: seq<Alert>)
    requires forall i :: 0 <= i < |later| ==> later[i].id != id
    ensures var g := MonitorAddsAll(Dismiss(f, id), later);
      Absent(g.monitor, id) && Absent(g.shown, id)
  {
    DismissRemoves(f, id);
    MonitorAddsAllKeepsAbsent(Dismiss(f, id), id, later);
  }

  lemma DismissRemoves(f: Feeds, id: string)
    ensures Absent(Dismiss(f, id).monitor, id) && Absent(Dismiss(f, id).shown, id)
  {
    WithoutIdSpec(f.monitor, AlertId, id);
    WithoutIdSpec(f.shown, AlertId, id);
    var d := Dismiss(f, id);
    assert forall i :: 0 <= i < |d.monitor| ==> d.monitor[i] in d.monitor;
    assert forall i :: 0 <= i < |d.shown| ==> d.shown[i] in d.shown;
  }

  /** The dashboard: the monitor and its own copy of the feed, plus the last risk report. */
  class Dashboard {
    const monitor: Monitor
    var alerts: seq<Alert>
    var cycloneData: RiskReport

    predicate Valid()
      reads this, monitor
    {
      monitor.Valid()
    }

    constructor (now: int)
      ensures Valid() && fresh(monitor)
      ensures alerts == [] && monitor.alerts == []
      ensures cycloneData == RiskReport(10, Success, "Initializing...", JNum(0.0), 85)
      ensures monitor.riskScore == 10 && monitor.riskLevel == Success && monitor.status == "System Initializing..."
      ensures monitor.lastUpdated == now && monitor.nextUpdate == UpdatePeriod && monitor.isActive
    {
      monitor := new Monitor(now);
      alerts := [];
      cycloneData := RiskReport(10, Success, "Initializing...", JNum(0.0), 85);
    }

    /** `removeAlert` as written: the shown copy loses the alert; the monitor's feed keeps it. */
    method RemoveAlert(id: string)
      requires Valid()
      modifies this`alerts
      ensures Valid()
      ensures Feeds(monitor.alerts, alerts) == DismissAsWritten(old(Feeds(monitor.alerts, alerts)), id)
      ensures cycloneData == old(cycloneData)
    {
      alerts := WithoutId(alerts, AlertId, id);
    }

    /** The corrected dismissal: the alert leaves the shown copy and the monitor's feed alike. */
    method DismissEverywhere(id: string)
      requires Valid()
      modifies this`alerts, monitor
      ensures Valid()
      ensures Feeds(monitor.alerts, alerts) == Dismiss(old(Feeds(monitor.alerts, alerts)), id)
      ensures cycloneData == old(cycloneData)
      ensures monitor.riskScore == old(monitor.riskScore) && monitor.riskLevel == old(monitor.riskLevel)
      ensures monitor.status == old(monitor.status) && monitor.lastUpdated == old(monitor.lastUpdated)
      ensures monitor.nextUpdate == old(monitor.nextUpdate) && monitor.isActive == old(monitor.isActive)
    {
      alerts := WithoutId(alerts, AlertId, id);
      monitor.Dismiss(id);
    }

    /**
      A completed update of the monitor, with the dashboard's two effects:
      an answer's report replaces the shown one, and a replaced monitor
      feed is copied over the shown feed (`MonitorAdds`).
    */
    method Update(outcome: Outcome, random: real, now: int, alertId: string)
      requires Valid()
      modifies this, monitor
      ensures Valid()
      ensures outcome.Answered? ==>
        var p := PredictionOf(outcome.prediction, outcome.result);
        var risk := CalculateRisk(p, Jitter(SensorWindSpeed as real, random));
        && monitor.riskScore == risk.score && monitor.riskLevel == risk.level && monitor.status == risk.status
        && cycloneData == RiskReport(risk.score, risk.level, risk.status, p, SensorWindSpeed)
        && monitor.lastUpdated == now && monitor.nextUpdate == UpdatePeriod
        && Feeds(monitor.alerts, alerts) ==
          match AnswerAlert(SelectAlert(p, risk), alertId, now)
          case None => old(Feeds(monitor.alerts, alerts))
          case Some(a) => MonitorAdds(old(Feeds(monitor.alerts, alerts)), a)
      ensures outcome.Failed? ==>
        && monitor.riskScore == 0 && monitor.riskLevel == Success && monitor.status == "API Connection Error"
        && cycloneData == old(cycloneData)
        && monitor.lastUpdated == old(monitor.lastUpdated) && monitor.nextUpdate == old(monitor.nextUpdate)
        && Feeds(monitor.alerts, alerts) ==
          MonitorAdds(old(Feeds(monitor.alerts, alerts)), FailureAlert(outcome.failure, alertId, now))
      ensures alerts == old(alerts) || alerts == monitor.alerts
      ensures monitor.isActive == old(monitor.isActive)
    {
      var added := false;
      match outcome {
        case Answered(prediction, result) =>
          var report;
          report, added := monitor.HandleAnswer(prediction, result, random, now, alertId);
          cycloneData := report;
        case Failed(failure) =>
          added := monitor.HandleFailure(failure, now, alertId);
      }
      if added {
        alerts := monitor.alerts;
      }
    }
  }
}
