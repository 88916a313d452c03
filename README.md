# CoastGuard-AI front-end decision logic in Dafny

This project models the decision logic of the CoastGuard-AI web front end, a
coastal-safety dashboard, and proves properties of it. It covers:

- **Cyclone monitor** (`CycloneMonitor`):
  - how a risk score and level come from the model's prediction and the wind speed;
  - which alert, if any, an update raises;
  - the five-entry alert feed that ignores duplicate danger alerts;
  - the error message of a failed update;
  - the five-minute countdown and the `m:ss` display;
  - how the dashboard copies and dismisses alerts.
- **Alert banner** (`Alerts`): its two built-in notices, dismissal by id, the icon and colours per alert type, and the rule that an empty banner renders nothing.
- **Situation reports** (`Hazards`, `SitReps`):
  - the three rule-based threat classifiers (cyclone, sea level, climate) and the overall severity;
  - the summary sentence and the chart series;
  - creating a report from the entry form: validation, a sequential `SITREP-2024-nnn` id, prepending;
  - the search and severity filter.
- **Community reports** (`CommunityReports`):
  - the live statistics: totals, pending, verified, verification rate, distinct contributors;
  - the type / status / text filter;
  - filing a complaint: validation, a `CR-nnn` id, a reporter id from a random number, a timestamp from an ISO date, prepending, resetting the form.
- **Climate data export** (`ClimateProjections`): the CSV text built from a list of records.
- **Climate timeline** (`Timeline`): clamped piecewise-linear interpolation over a year-keyed table, the four projection periods, and the marker highlighting rule.
- **Chat widget** (`Chat`): the numbered message log, the quick-question answers, sending a typed message (ignored when blank) and asking a quick question.

`Text`, `JsNumber`, `Sequences` and `Optional` model the JavaScript built-ins the pages rely on:

- `padStart`, `split`, `join`, `includes`, ASCII `toLowerCase` and `trim`;
- `replace` of the first occurrence;
- number-to-text, `parseFloat` (decimal notation), `Math.round` and `toFixed`;
- `Array.prototype.filter` and `slice`.

Randomness, the clock and the network are parameters:

- the jittered wind speed, the `Math.random` value behind a reporter id, the ISO time string, the generated-at text and the alert ids are passed in;
- the prediction service's answer or failure is an `Outcome` value.

Object state that the components keep in React state becomes classes:

- `CycloneMonitor.Monitor` and `CycloneMonitor.Dashboard`;
- `Alerts.AlertBanner`;
- `SitReps.SitRepsPage` and `CommunityReports.CommunityReportsPage`;
- `Chat.ChatWidget`.

Their fields are updated by methods whose contracts state the whole new state, the monitor's fields included where a dashboard method changes them. Pure computations are functions, specified by lemmas.

## Model

| member | source | states |
|---|---|---|
| CycloneMonitor.PredictionOf | frontend/src/pages/Dashboard.tsx:152-157 | the prediction is `data.prediction` when defined, else `data.result` when defined, else 0 |
| CycloneMonitor.RiskBands | frontend/src/pages/Dashboard.tsx:81-105 | the score is one of 10, 30, 50, 70, 90; level `success` exactly for prediction 0 with wind below 60; `danger` exactly for wind above 100, and then score 90 whatever the prediction; `warning` exactly for wind in (85, 100] |
| CycloneMonitor.RiskMonotone | frontend/src/pages/Dashboard.tsx:84-104 | for a fixed prediction, a stronger wind never gives a lower score |
| CycloneMonitor.SensorReadingAlwaysSevere | frontend/src/pages/Dashboard.tsx:82-86 | with the fixed sensor wind speed of 200 and any jitter in [-10, 10), the level is always `danger` |
| CycloneMonitor.AlertSelection | frontend/src/pages/Dashboard.tsx:179-191 | a danger alert is raised exactly when the prediction is 1 and the wind is above 100, a warning exactly when the prediction is 1 and the wind is in (85, 100]; no alert otherwise |
| CycloneMonitor.ErrorMessageCases | frontend/src/pages/Dashboard.tsx:196-202 | "API request timed out" exactly for an `AbortError`; "Cannot connect to API server" exactly for another `TypeError` whose message contains "fetch"; "API connection failed" exactly otherwise |
| CycloneMonitor.FormatTimeRoundTrip | frontend/src/pages/Dashboard.tsx:234-238 | `formatTime` gives minutes, a colon and exactly two second digits, and reading the two numbers back gives the seconds again |
| CycloneMonitor.FormatTimeInjective | frontend/src/pages/Dashboard.tsx:234-238 | distinct second counts are displayed differently |
| CycloneMonitor.ShortNumber | frontend/src/pages/Dashboard.tsx:237 | a second count below 100 has at most two digits, so padding to two never loses a digit |
| CycloneMonitor.AnswerAlert | frontend/src/pages/Dashboard.tsx:179-191 | an alert is built exactly when one is selected, and it carries the given id and time |
| CycloneMonitor.Monitor.constructor | frontend/src/pages/Dashboard.tsx:46-53 | initial score 10, level `success`, status "System Initializing...", countdown 300, no alerts, active |
| CycloneMonitor.Monitor.AddAlert | frontend/src/pages/Dashboard.tsx:107-120 | the feed becomes `Added(old feed, alert)`, the alert is added exactly unless it is a danger alert whose message is already shown as danger, and nothing else changes |
| CycloneMonitor.Monitor.HandleAnswer | frontend/src/pages/Dashboard.tsx:152-193 | score, level and status come from the prediction fallback and the jittered wind; the report passed to the dashboard carries them; the feed gains the selected alert, and is replaced exactly when an alert is selected and it is not a duplicate danger alert; the countdown restarts at 300 |
| CycloneMonitor.Monitor.HandleFailure | frontend/src/pages/Dashboard.tsx:194-207 | score 0, level `success`, status "API Connection Error", and one warning with the error message is added |
| CycloneMonitor.Monitor.Tick | frontend/src/pages/Dashboard.tsx:213-228 | paused: nothing happens; a value of at most 1 fires an update and restarts at 300; otherwise the countdown goes down by one |
| CycloneMonitor.Monitor.Dismiss | frontend/src/pages/Dashboard.tsx:357-359 | the monitor's feed loses every alert with the id and nothing else changes (used by the corrected dismissal, see Findings) |
| CycloneMonitor.Monitor.SetActive | frontend/src/pages/Dashboard.tsx:53 | pausing or resuming changes only the active flag |
| CycloneMonitor.CountdownCycle | frontend/src/pages/Dashboard.tsx:217-224 | starting from 300, after n < 300 ticks the countdown shows 300 - n |
| CycloneMonitor.CountdownFiresAfterPeriod | frontend/src/pages/Dashboard.tsx:217-224 | after 300 ticks the update has fired and the countdown is back at 300 |
| CycloneMonitor.DismissedAlertReappears | frontend/src/pages/Dashboard.tsx:357-369 | as written, with warning "1" in both feeds, dismissing it hides it on the dashboard, and the monitor's next alert (id "2") brings it back into the shown feed |
| CycloneMonitor.MonitorAdds | frontend/src/pages/Dashboard.tsx:107-120 | a duplicate danger alert leaves both feeds as they were; any other alert goes in front of the monitor's feed cut to five, and the shown copy becomes that new feed (the effect at Dashboard.tsx:366-369) |
| CycloneMonitor.DismissAsWritten | frontend/src/pages/Dashboard.tsx:357-359 | as written, dismissal keeps the monitor's feed and leaves the shown copy holding exactly the alerts without the id |
| CycloneMonitor.DismissedStaysGone | frontend/src/pages/Dashboard.tsx:357-369 | when the dismissal also removes the alert from the monitor's feed, the id stays absent from both feeds whatever run of alerts with other ids the monitor adds afterwards (induction over the run) |
| CycloneMonitor.DismissRemoves | frontend/src/pages/Dashboard.tsx:357-359 | the corrected dismissal leaves no alert with the id in either feed |
| CycloneMonitor.Dashboard.constructor | frontend/src/pages/Dashboard.tsx:343-351 | the dashboard starts with no alerts and the report (10, `success`, "Initializing...", 0, 85); its fresh monitor starts at score 10, `success`, "System Initializing...", the given time, countdown 300, an empty feed and active |
| CycloneMonitor.Dashboard.RemoveAlert | frontend/src/pages/Dashboard.tsx:357-359 | as written: the shown copy is filtered by id (`DismissAsWritten`), the monitor's feed and the risk report are unchanged |
| CycloneMonitor.Dashboard.DismissEverywhere | frontend/src/pages/Dashboard.tsx:357-359 | the corrected dismissal (see Findings): both feeds become `Dismiss` of the old ones, the risk report and the monitor's other fields are unchanged |
| CycloneMonitor.Dashboard.Update | frontend/src/pages/Dashboard.tsx:353-369 | an answer sets the monitor's score, level and status from the prediction fallback and the jittered wind, replaces the shown report with them, sets the update time and restarts the countdown; a failure sets 0, `success` and "API Connection Error" and keeps the report, time and countdown; the two feeds become `MonitorAdds` of the raised alert, and stay as they were when none is raised; the shown copy either stays or becomes the monitor's feed |
| Alerts.DuplicateDangerIgnored | frontend/src/pages/Dashboard.tsx:109-111 | adding a danger alert whose message is already shown as danger leaves the feed unchanged |
| Alerts.NewAlertInFront | frontend/src/pages/Dashboard.tsx:112-119 | otherwise the new alert is first, followed by the old feed cut so that at most five remain |
| Alerts.NonDangerNeverDeduplicated | frontend/src/pages/Dashboard.tsx:107-119 | warning and info alerts are always added in front, even when their message repeats |
| Alerts.AddedKeepsValid | frontend/src/pages/Dashboard.tsx:107-120 | the feed never exceeds five alerts and never holds two danger alerts with the same message |
| Alerts.DangerAddIdempotent | frontend/src/pages/Dashboard.tsx:109-111 | adding the same danger message twice has the effect of adding it once |
| Alerts.AddedAllNonDanger | frontend/src/pages/Dashboard.tsx:119 | a run of non-danger alerts leaves the newest first, followed by the old feed, cut to five |
| Alerts.FeedHoldsFiveNewest | frontend/src/pages/Dashboard.tsx:119 | after five or more non-danger alerts the feed holds exactly the five newest, newest first |
| Alerts.WithoutIdSpec | frontend/src/components/AlertBanner.tsx:17 | removal keeps exactly the alerts with another id, in their order, and changes nothing when the id is absent |
| Alerts.WithoutIdKeepsValid | frontend/src/pages/Dashboard.tsx:358 | removing alerts by id keeps the feed's invariant |
| Alerts.FilterKeepsValid | frontend/src/pages/Dashboard.tsx:358 | any filtering of the feed keeps its invariant |
| Alerts.InitialNotices | frontend/src/components/AlertBanner.tsx:12-15 | the banner starts with a danger notice and a warning notice with different ids |
| Alerts.StyleMapping | frontend/src/components/AlertBanner.tsx:19-33 | the triangle icon exactly for `danger`, the circle exactly for `warning`, any other type styled as `info`, and the three colour classes distinct |
| Alerts.Rendered | frontend/src/components/AlertBanner.tsx:35-57 | nothing is rendered exactly when there are no alerts; otherwise one row per alert, in order, with its id, its message, and the icon and classes of its type |
| Alerts.AlertBanner.constructor | frontend/src/components/AlertBanner.tsx:12-15 | the banner starts with the two built-in notices |
| Alerts.AlertBanner.RemoveAlert | frontend/src/components/AlertBanner.tsx:17 | the notices become those of the old list with another id |
| Alerts.DismissBuiltIns | frontend/src/components/AlertBanner.tsx:12-35 | dismissing notice "1" leaves only the warning; dismissing both makes the banner render nothing |
| Hazards.Lookup | frontend/src/pages/SitReps.tsx:75-109 | reading a field gives a value stored under that key, and nothing exactly when no entry has the key |
| Hazards.Evaluate | frontend/src/pages/SitReps.tsx:74-110 | one named condition per rule, in order, each true exactly when its threshold test holds |
| Hazards.Classify | frontend/src/pages/SitReps.tsx:81-117 | the prediction is 0 or 1, and 1 exactly when the risk factors reach the threshold; the factors are at most the number of conditions; the confidence is at most the cap |
| Hazards.PredictThreats | frontend/src/pages/SitReps.tsx:70-124 | the total counts the positive predictions (at most 3), every prediction is 0 or 1, and the severity follows from the total |
| Hazards.CountTrueIsNumberOfTrueFlags | frontend/src/pages/SitReps.tsx:81 | `filter(Boolean).length` counts exactly the true conditions |
| Hazards.RiskFactorsCountHoldingConditions | frontend/src/pages/SitReps.tsx:81-111 | a hazard's risk factors are the number of its conditions that hold for the data |
| Hazards.CountTrueNone | frontend/src/pages/SitReps.tsx:81 | no true condition gives 0 risk factors |
| Hazards.CountTrueAll | frontend/src/pages/SitReps.tsx:81 | all true conditions give as many risk factors as conditions |
| Hazards.ConfidenceBounds | frontend/src/pages/SitReps.tsx:84-114 | `min(n * weight + base, cap)` lies between `min(base, cap)` and the cap |
| Hazards.ConfidenceMonotone | frontend/src/pages/SitReps.tsx:84-114 | more risk factors never lower the confidence |
| Hazards.HazardConfidenceRange | frontend/src/pages/SitReps.tsx:84-114 | each hazard's confidence lies between its base (0.3, 0.4, 0.35) and its cap (0.95, 0.9, 0.92) |
| Hazards.MissingFieldsGiveBaseConfidence | frontend/src/pages/SitReps.tsx:75-117 | when every reading of a hazard's fields is missing or non-numeric (absent, NaN, or a string `parseFloat` turns into NaN, so every comparison fails) the prediction is 0, no factor counts and the confidence is the base |
| Hazards.CountFlaggedIsNumberOfOnes | frontend/src/pages/SitReps.tsx:120 | the total is the number of predictions equal to 1 |
| Hazards.SeverityIff | frontend/src/pages/SitReps.tsx:121 | severity `high` exactly for two or more threats, `medium` exactly for one, `low` exactly for none |
| Hazards.SeverityMonotone | frontend/src/pages/SitReps.tsx:121 | more threats never give a lower severity |
| Hazards.SevereCycloneConditionsHold | frontend/src/pages/SitReps.tsx:74-80 | a record above every cyclone threshold satisfies all five cyclone conditions |
| Hazards.SevereCycloneScenario | frontend/src/pages/SitReps.tsx:81-87 | such a record gives 5 risk factors, prediction 1 and the capped confidence 0.95 |
| Hazards.EmptyRecordScenario | frontend/src/pages/SitReps.tsx:70-124 | an empty record gives no threats, severity `low` and cyclone confidence 0.3 |
| SitReps.FlaggedCount | frontend/src/pages/SitReps.tsx:246-249 | the active-threat list has one name per positive prediction |
| SitReps.FlaggedInOrder | frontend/src/pages/SitReps.tsx:246-249 | the active threats appear in the fixed order cyclone, sea level, climate |
| SitReps.FlaggedMembership | frontend/src/pages/SitReps.tsx:247-249 | a threat's name is listed exactly when its prediction is 1 |
| SitReps.FlaggedNamesFrom | frontend/src/pages/SitReps.tsx:247-249 | only the three threat names are ever listed |
| SitReps.FlaggedOfThree | frontend/src/pages/SitReps.tsx:246-249 | the list is the three conditional pushes, in order |
| SitReps.GenerateSummary | frontend/src/pages/SitReps.tsx:245-256 | the phrases pushed flag by flag give `SummaryText`: the normal-conditions sentence when no threat is active; otherwise the count, the location, the comma-joined names and the closing that depends on `high` severity |
| SitReps.SummaryThreats | frontend/src/pages/SitReps.tsx:245-256 | for the classifiers' assessment the summary names exactly the positive threats, as many as the total, in order, and names none exactly when the severity is `low` |
| SitReps.EnvironmentalChartShape | frontend/src/pages/SitReps.tsx:260-265 | at most the first ten entries, underscores replaced by spaces (same length), a NaN reading stays NaN (`None`) and only then, a non-number value is shown as 0, each numeric value within 0.05 of its reading |
| SitReps.RiskChartBalanced | frontend/src/pages/SitReps.tsx:268-273 | the four pie slices are non-negative and add up to 3 |
| SitReps.EnvironmentalData | frontend/src/pages/SitReps.tsx:311-316 | the report's data holds the nineteen parsed fields plus year and continent |
| SitReps.SitRepIdInjective | frontend/src/pages/SitReps.tsx:321 | distinct report numbers give distinct `SITREP-2024-nnn` ids |
| SitReps.ValidateCases | frontend/src/pages/SitReps.tsx:286-305 | rejected for location exactly when the location is empty or a coordinate is falsy; otherwise rejected for fields exactly when one is empty (`0` counts as present), listing precisely the empty ones; created exactly when neither holds |
| SitReps.PrependNumbered | frontend/src/pages/SitReps.tsx:321-336 | prepending the report numbered one past the list keeps ids and numbers in step |
| SitReps.SitRepsPage.constructor | frontend/src/pages/SitReps.tsx:8-41 | no reports, the empty form, the modal closed |
| SitReps.SitRepsPage.LoadReports | frontend/src/pages/SitReps.tsx:180-185 | the list becomes the loaded reports, numbered `SITREP-2024-001` onward |
| SitReps.SitRepsPage.Commit | frontend/src/pages/SitReps.tsx:336-346 | the report goes in front of the list, the modal closes and the form is emptied |
| SitReps.SitRepsPage.CreateNewReport | frontend/src/pages/SitReps.tsx:285-352 | the outcome is the validation's; a rejection changes nothing; a creation prepends the report built from the old form with the next number, closes the modal and empties the form |
| SitReps.BuildReport | frontend/src/pages/SitReps.tsx:311-334 | the report built step by step is `NewReport` of the form |
| SitReps.IconShowsSeverity | frontend/src/pages/SitReps.tsx:327 | the warning icon exactly for `high` severity, the check mark exactly for `low` |
| SitReps.NewReportConsistent | frontend/src/pages/SitReps.tsx:320-334 | a report assembled from an assessment whose severity follows its threat count (as every `PredictThreats` result does) has the numbered id, that assessment and severity, the warning icon exactly for `high`, the check mark exactly for `low`, and the `Emergency` tag exactly for `high` |
| SitReps.DistinctIds | frontend/src/pages/SitReps.tsx:321-336 | the page's reports never share an id |
| SitReps.ZeroIsPresent | frontend/src/pages/SitReps.tsx:300 | a field holding `0` is not reported missing |
| SitReps.FilledFormHasNothingMissing | frontend/src/pages/SitReps.tsx:300-302 | a form with every required field filled has no missing field |
| SitReps.FilteredReportsSpec | frontend/src/pages/SitReps.tsx:511-516 | the filter keeps reports in order, and a report is kept exactly when its lower-cased title or location contains the lower-cased search and the severity matches or is `all`; no filter keeps everything |
| CommunityReports.DisjointCounts | frontend/src/pages/CommunityReports.tsx:142-143 | pending and verified reports together are at most all reports |
| CommunityReports.ContributorsBound | frontend/src/pages/CommunityReports.tsx:145 | distinct contributors are at most the reports, and at least one when there is a report |
| CommunityReports.VerificationRate | frontend/src/pages/CommunityReports.tsx:144 | the rate is a percentage in [0, 100], 0 with nothing verified or no reports, 100 when all are verified |
| CommunityReports.ShareAtMostOne | frontend/src/pages/CommunityReports.tsx:144 | the verified share lies in [0, 1] and is 1 when all are verified |
| CommunityReports.ShareShrinks | frontend/src/pages/CommunityReports.tsx:144 | the same verified count over more reports gives no larger share |
| CommunityReports.Statistics | frontend/src/pages/CommunityReports.tsx:141-145 | total is the list's length, pending plus verified at most total, rate in [0, 100] and 0 for no reports, contributors between 1 and total when there are reports |
| CommunityReports.FilteredReportsSpec | frontend/src/pages/CommunityReports.tsx:147-155 | kept in order, and a report is kept exactly when its lower-cased type equals the type filter or that is `all`, its status equals the status filter or that is `all`, and the search is empty or found in the lower-cased title, location or description |
| CommunityReports.ClearedFiltersShowAll | frontend/src/pages/CommunityReports.tsx:147-155 | the initial filters show every report |
| CommunityReports.StatusFilterMatchesCount | frontend/src/pages/CommunityReports.tsx:142-155 | filtering by a status alone shows as many reports as that status's statistic |
| CommunityReports.ReportIdInjective | frontend/src/pages/CommunityReports.tsx:166 | distinct numbers give distinct `CR-nnn` ids |
| CommunityReports.FirstIds | frontend/src/pages/CommunityReports.tsx:166 | the first five numbers give `CR-001` to `CR-005` |
| CommunityReports.ReporterNumber | frontend/src/pages/CommunityReports.tsx:174 | `Math.floor(Math.random() * 1000)` is below 1000 |
| CommunityReports.TimestampOfIso | frontend/src/pages/CommunityReports.tsx:175 | for an ISO date-time the timestamp is the date, a space, and the hours and minutes |
| CommunityReports.FilingEffect | frontend/src/pages/CommunityReports.tsx:141-183 | a filed complaint adds one pending report, no verified one, never raises the verification rate and adds at most one contributor |
| CommunityReports.PrependNumbered | frontend/src/pages/CommunityReports.tsx:166-183 | prepending the report numbered one past the list keeps ids and numbers in step |
| CommunityReports.InOrderNumbered | frontend/src/pages/CommunityReports.tsx:17-78 | a list numbered `CR-001` onward in order is well numbered |
| CommunityReports.CommunityReportsPage.constructor | frontend/src/pages/CommunityReports.tsx:81-88 | the given in-order reports, the blank form with priority `medium`, the form closed |
| CommunityReports.CommunityReportsPage.OpenForm | frontend/src/pages/CommunityReports.tsx:224 | the form opens |
| CommunityReports.CommunityReportsPage.Edit | frontend/src/pages/CommunityReports.tsx:250-331 | the form holds what was entered |
| CommunityReports.CommunityReportsPage.ResetForm | frontend/src/pages/CommunityReports.tsx:202-212 | the blank form with priority `medium`, and the form closed |
| CommunityReports.CommunityReportsPage.SubmitComplaint | frontend/src/pages/CommunityReports.tsx:157-200 | an incomplete form gives the required-fields notice and changes nothing; otherwise the pending report with the next id, the reporter id and the timestamp goes in front, the form is reset and closed, and the success notice is given |
| CommunityReports.CommunityReportsPage.File | frontend/src/pages/CommunityReports.tsx:182-196 | the filed report goes in front of the list, the form becomes blank and closes |
| CommunityReports.DistinctIds | frontend/src/pages/CommunityReports.tsx:166-183 | the page's reports never share an id |
| ClimateProjections.Keys | frontend/src/pages/ClimateProjections.tsx:106 | `Object.keys` lists a record's keys in its own-property order |
| ClimateProjections.Get | frontend/src/pages/ClimateProjections.tsx:111 | a looked-up value is stored under that key; `undefined` exactly when no key matches |
| ClimateProjections.Cells | frontend/src/pages/ClimateProjections.tsx:110-113 | one cell per header |
| ClimateProjections.Lines | frontend/src/pages/ClimateProjections.tsx:109-114 | one line per record |
| ClimateProjections.ConvertToCsv | frontend/src/pages/ClimateProjections.tsx:103-116 | the text is empty exactly when the data is missing or empty |
| ClimateProjections.ExportLines | frontend/src/pages/ClimateProjections.tsx:106-116 | the export is the header line then one line per record, joined by newlines |
| ClimateProjections.CellAvoids | frontend/src/pages/ClimateProjections.tsx:112 | quoting adds only double quotes to a cell |
| ClimateProjections.CellsAvoid | frontend/src/pages/ClimateProjections.tsx:110-113 | a character no value holds appears in no cell (quotes apart) |
| ClimateProjections.HeaderLine | frontend/src/pages/ClimateProjections.tsx:107 | keys without commas or newlines give a header line that splits back into the keys |
| ClimateProjections.DataLine | frontend/src/pages/ClimateProjections.tsx:109-114 | values without commas or newlines give a line that splits back into its cells |
| ClimateProjections.LinesSplit | frontend/src/pages/ClimateProjections.tsx:106-116 | every line of such an export is free of newlines and splits back at commas |
| ClimateProjections.SplitRoundTrip | frontend/src/pages/ClimateProjections.tsx:103-116 | reading the export back by lines and commas gives the keys, then each record's cells in order, one line per record |
| ClimateProjections.CellRoundTrip | frontend/src/pages/ClimateProjections.tsx:112 | a quoted string cell reads back as that string exactly; an empty cell reads back as missing |
| Timeline.Least | frontend/src/components/TimelineSlider.tsx:25 | the least year of a non-empty set |
| Timeline.SortedYears | frontend/src/components/TimelineSlider.tsx:25 | the table's years, strictly ascending, each once |
| Timeline.LerpEndpoints | frontend/src/components/TimelineSlider.tsx:33 | the line passes through both neighbouring entries |
| Timeline.LerpBetween | frontend/src/components/TimelineSlider.tsx:33 | between two years the line stays between their values |
| Timeline.Interpolate | frontend/src/components/TimelineSlider.tsx:24-37 | clamps at the smallest and largest year, otherwise the line through the two neighbouring years around the year; the result lies between the table's least and greatest values, equals the entry at a year of the table, and is `undefined` exactly for an empty table |
| Timeline.ClampLow | frontend/src/components/TimelineSlider.tsx:26 | at or below the first year the value is the first entry |
| Timeline.ClampHigh | frontend/src/components/TimelineSlider.tsx:27 | at or above the last year the value is the last entry |
| Timeline.Ends | frontend/src/components/TimelineSlider.tsx:25-27 | the first sorted year is the smallest and the last the largest |
| Timeline.Bracket | frontend/src/components/TimelineSlider.tsx:29-34 | the first enclosing pair found by the scan gives the interpolated value |
| Timeline.TablesWithin | frontend/src/components/TimelineSlider.tsx:16-21 | storm-risk values lie in [15, 75], sea level in [10, 70], pH in [7.3, 8.1] and temperature rise in [2.0, 4.1], and every table has a 2024 entry |
| Timeline.ReadingsFor | frontend/src/components/TimelineSlider.tsx:62-68 | each shown reading is its own table's interpolation at the year; each lies within its table's range; at 2024 and at 2100 the readings are the tables' entries |
| Timeline.Reading | frontend/src/components/TimelineSlider.tsx:65-68 | a reading from a non-empty table is the table's interpolation at the year, lies within the table's range and equals the entry at a table year |
| Timeline.PeriodBands | frontend/src/components/TimelineSlider.tsx:39-60 | current exactly up to 2025, short term exactly in 2026-2035, medium term exactly in 2036-2055, long term exactly after 2055 |
| Timeline.PeriodMonotone | frontend/src/components/TimelineSlider.tsx:39-60 | a later year never falls in an earlier period |
| Timeline.MarkersOverlap | frontend/src/components/TimelineSlider.tsx:102 | two markers are highlighted together exactly for the 2024 and 2030 markers in 2025-2029 |
| Timeline.HighlightedBand | frontend/src/components/TimelineSlider.tsx:102 | a marker is highlighted exactly within five years of it |
| Chat.QuickQuestionsAnswered | frontend/src/components/ChatWidget.tsx:19-40 | each quick question gets its own answer and a question gets a specific answer exactly when it is one of the four |
| Chat.ExchangeKeepsNumbering | frontend/src/components/ChatWidget.tsx:45-63 | appending a question and answer numbered after the log keeps ids one by one and adds two messages |
| Chat.NumberedIdsDistinct | frontend/src/components/ChatWidget.tsx:46-57 | the messages never share an id |
| Chat.ChatWidget.constructor | frontend/src/components/ChatWidget.tsx:8-17 | closed, empty input, the greeting as message 1 |
| Chat.ChatWidget.Toggle | frontend/src/components/ChatWidget.tsx:92 | the button flips the panel open or closed |
| Chat.ChatWidget.Type | frontend/src/components/ChatWidget.tsx:150 | the input holds the typed text |
| Chat.ChatWidget.SendMessage | frontend/src/components/ChatWidget.tsx:42-64 | a message of only white space changes nothing; otherwise the user message and the bot's answer are appended with ids length + 1 and length + 2 and the input is cleared |
| Chat.ChatWidget.QuickQuestion | frontend/src/components/ChatWidget.tsx:66-86 | with no blank check the question and its answer are appended with the next two ids, and the input is set to the question |
| Text.NatToString | frontend/src/pages/Dashboard.tsx:237 | decimal digits with no leading zero |
| Text.NatToStringRoundTrip | frontend/src/pages/Dashboard.tsx:237 | the digits read back give the number |
| Text.NatToStringInjective | frontend/src/pages/SitReps.tsx:321 | distinct numbers are written differently |
| Text.PadStart | frontend/src/pages/Dashboard.tsx:237 | `padStart`: the text right-aligned in the width, filled on the left |
| Text.PaddedNumberRoundTrip | frontend/src/pages/CommunityReports.tsx:166 | a zero-padded number reads back as the number |
| Text.PaddedNumberInjective | frontend/src/pages/CommunityReports.tsx:166 | distinct numbers pad to distinct texts |
| Text.SplitJoinRoundTrip | frontend/src/pages/ClimateProjections.tsx:107-116 | joining parts free of the separator and splitting at it gives the parts back |
| Text.JoinWithoutChar | frontend/src/pages/ClimateProjections.tsx:113 | joining never introduces a character absent from the parts and the separator |
| Text.ContainsIffOccurs | frontend/src/pages/SitReps.tsx:512-513 | `includes` holds exactly when the text occurs at some position |
| Text.ToLower | frontend/src/pages/SitReps.tsx:512 | `toLowerCase`, character by character |
| Text.ToLowerIdempotent | frontend/src/pages/CommunityReports.tsx:148 | lower-casing twice is lower-casing once |
| Text.TrimEmptyIffAllWhitespace | frontend/src/components/ChatWidget.tsx:43 | `trim` gives the empty text exactly when every character is white space |
| Text.ReplaceFirst | frontend/src/pages/CommunityReports.tsx:175 | `replace` with a one-character pattern changes only the first occurrence |
| JsNumber.ParseFloatOfInteger | frontend/src/pages/SitReps.tsx:313 | `parseFloat` of an integer's text is that integer |
| JsNumber.ParseFloatOfNonNumeric | frontend/src/pages/SitReps.tsx:75 | `parseFloat` of a text not starting a number is NaN |
| JsNumber.DigitsParse | frontend/src/pages/SitReps.tsx:313 | a run of digits parses to its value |
| JsNumber.MathRound | frontend/src/pages/CommunityReports.tsx:144 | `Math.round` is within one half of its argument |
| JsNumber.ToFixed | frontend/src/pages/SitReps.tsx:262 | `toFixed(d)` is within half a unit of the last kept digit |
| Sequences.Filter | frontend/src/pages/CommunityReports.tsx:147 | `filter` keeps exactly the elements passing the test |
| Sequences.FilterIsSubsequence | frontend/src/pages/SitReps.tsx:511 | `filter` keeps the order |
| Sequences.Take | frontend/src/pages/Dashboard.tsx:119 | `slice(0, n)` is the first n elements, or all of them |

## Left out

- The network calls (`/predict_cyclone` with its ten-second abort), the prediction service and the backend. The service's answer or failure is an input of `CycloneMonitor.Dashboard.Update`.
- `Math.random`, `Date`, `toLocaleString`, `toISOString`, `Date.now` and timers are not modelled. Their values are parameters: the jittered wind speed, the random number behind a reporter id, the ISO time, the generated-at text and the alert ids. The one-second interval is one call of `Tick`. The mount effect at `Dashboard.tsx:230-232`, which runs `handleUpdate()` once after the first render, is one call of `CycloneMonitor.Dashboard.Update` right after the constructor.
- Browser geolocation in `CommunityReports.tsx:90-120` and `SitReps.tsx:127-148`: the coordinates are plain form fields.
- The five sample reports of `CommunityReports.tsx:17-78` are not written out. The page's constructor accepts any list numbered `CR-001` onward, which those five are.
- `generateEnvironmentalData` and `generateMockReports` (random sample data) are not modelled. `SitReps.SitRepsPage.LoadReports` takes any list numbered `SITREP-2024-001` onward, as the generated list is.
- The two-second artificial delay in `createNewReport` and its `catch` branch are not modelled: nothing in the modelled body can throw.
- Downloads (`Blob`, links), the `alert()` pop-ups and the rest of the rendering are not modelled. Rejections and notices are results.
- Numbers are exact reals and integers, not IEEE doubles:
  - `Math.round`, `toFixed` and `parseFloat` are exact;
  - double rounding, `Infinity` and exponent overflow are left out;
  - `parseFloat` accepts decimal notation only.
- `Text.ToLower`: maps only ASCII letters; full Unicode case mapping is left out.
- `Timeline.Interpolate`: the slider's year is an integer (step 1). JavaScript object keys come back as strings and are turned into numbers; the model keys the table by integers directly.
- `Timeline.ReadingsFor`: returns the interpolated numbers; the `toFixed` text with its unit is not built.
- `ClimateProjections.ConvertToCsv`: modelled as written, with embedded double quotes not doubled. A string holding a comma, a quote or a newline therefore does not read back as one field. `ClimateProjections.SplitRoundTrip` requires values without commas or newlines for that reason.
- `Chat.ChatWidget.SendMessage`: message timestamps are not modelled.
- The `Heatmaps`, `Erosion` and other pages and the charts' rendering are not modelled.

## Findings

| source | as written | input that shows it | evidently intended | confidence | as-written member | corrected member |
|---|---|---|---|---|---|---|
| frontend/src/pages/Dashboard.tsx:357-369 | `removeAlert` filters only the dashboard's own copy of the alerts, and the effect copies the monitor's feed over that copy whenever the monitor's feed changes | a warning with id "1" is shown; it is dismissed; the monitor then adds any alert with another id, and the copied feed holds "1" again | a dismissed alert stays dismissed: dismissal also removes it from the monitor's feed, after which the id stays out of both feeds whatever alerts follow (`CycloneMonitor.DismissedStaysGone`) | not executed | CycloneMonitor.DismissedAlertReappears | CycloneMonitor.Dashboard.DismissEverywhere |
