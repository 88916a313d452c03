/**
  The community report page: the store of citizen reports, the complaint
  form and its submission (validation, sequential `CR-` id, prepend, form
  reset), the statistics shown above the list, and the three-way filter.
*/
module CommunityReports {
  import opened Text
  import opened JsNumber
  import opened Sequences

  /** A citizen report; `kind` is the report's `type`. */
  datatype Report = Report(
    id: string,
    kind: string,
    title: string,
    location: string,
    reporterId: string,
    timestamp: string,
    status: string,
    priority: string,
    description: string,
    coordinates: string)

  /** The complaint form (`newComplaint`). */
  datatype Complaint = Complaint(
    kind: string,
    title: string,
    location: string,
    description: string,
    coordinates: string,
    priority: string)

  /** The empty form: every text empty, priority `medium`. */
  function BlankComplaint(): Complaint
  {
    Complaint("", "", "", "", "", "medium")
  }

  // ----- statistics -----

  function HasStatus(status: string): Report -> bool
  {
    (r: Report) => r.status == status
  }

  /** `reports.filter(r => r.status === status).length`. */
  function CountStatus(reports: seq<Report>, status: string): nat
  {
    |Filter(reports, HasStatus(status))|
  }

  /** Reports with two different statuses are never more than all the reports. */
  lemma {:induction false} DisjointCounts(reports: seq<Report>, a: string, b: string)
    requires a != b
    ensures CountStatus(reports, a) + CountStatus(reports, b) <= |reports|
  {
    if reports != [] {
      DisjointCounts(reports[1..], a, b);
    }
  }

  /** The distinct reporter ids: `new Set(reports.map(r => r.reporterId))`. */
  function Contributors(reports: seq<Report>): set<string>
  {
    set r | r in reports :: r.reporterId
  }

  /** There are never more contributors than reports, and at least one when there are reports. */
  lemma {:induction false} ContributorsBound(reports: seq<Report>)
    ensures |Contributors(reports)| <= |reports|
    ensures reports != [] ==> |Contributors(reports)| >= 1
  {
    if reports != [] {
      ContributorsBound(reports[1..]);
      assert Contributors(reports) == {reports[0].reporterId} + Contributors(reports[1..]);
    }
  }

  /** `Math.round((verified / total) * 100)`, and 0 when there are no reports. */
  function VerificationRate(total: nat, verified: nat): (rate: int)
    requires verified <= total
    ensures 0 <= rate <= 100
    ensures verified == 0 ==> rate == 0
    ensures 0 < verified == total ==> rate == 100
  {
    if total > 0 then
      var share := verified as real / total as real;
      ShareAtMostOne(verified, total);
      MathRound(share * 100.0)
    else 0
  }

  lemma ShareAtMostOne(verified: nat, total: nat)
    requires verified <= total && total > 0
    ensures 0.0 <= verified as real / total as real <= 1.0
    ensures verified == total ==> verified as real / total as real == 1.0
  {
    var share, t := verified as real / total as real, total as real;
    assert share * t == verified as real;
  }

  /** A share of a larger total is no larger. */
  lemma ShareShrinks(v: nat, m: nat, n: nat)
    requires 0 < m <= n
    ensures v as real / n as real <= v as real / m as real
  {
    var a, b := v as real / m as real, v as real / n as real;
    assert a * m as real == v as real && b * n as real == v as real;
    assert a * n as real >= a * m as real;
  }

  datatype Stats = Stats(total: nat, pending: nat, verified: nat, verificationRate: int, uniqueContributors: nat)

  /**
    The figures above the list: the pending and verified reports together
    are at most all of them, the rate is a percentage, and there are never
    more contributors than reports.
  */
  function Statistics(reports: seq<Report>): (s: Stats)
    ensures s.total == |reports|
    ensures s.pending + s.verified <= s.total
    ensures 0 <= s.verificationRate <= 100
    ensures s.total == 0 ==> s.verificationRate == 0
    ensures s.uniqueContributors <= s.total
    ensures s.total > 0 ==> s.uniqueContributors >= 1
  {
    DisjointCounts(reports, "pending", "verified");
    ContributorsBound(reports);
    var verified := CountStatus(reports, "verified");
    Stats(|reports|, CountStatus(reports, "pending"), verified,
      VerificationRate(|reports|, verified), |Contributors(reports)|)
  }

  // ----- filter -----

  /** One report passes the type, status and search filters. */
  function Shows(filterType: string, filterStatus: string, searchTerm: string): Report -> bool
  {
    (r: Report) =>
      && (filterType == "all" || ToLower(r.kind) == filterType)
      && (filterStatus == "all" || r.status == filterStatus)
      && (searchTerm == ""
          || Contains(ToLower(r.title), ToLower(searchTerm))
          || Contains(ToLower(r.location), ToLower(searchTerm))
          || Contains(ToLower(r.description), ToLower(searchTerm)))
  }

  function FilteredReports(reports: seq<Report>, filterType: string, filterStatus: string, searchTerm: string): seq<Report>
  {
    Filter(reports, Shows(filterType, filterStatus, searchTerm))
  }

  /**
    The list shows the reports in their order, and a report exactly when its
    lower-cased type is the chosen one (or 'all'), its status is the chosen
    one (or 'all'), and the search is empty or occurs, ignoring case, in its
    title, location or description.
  */
  lemma FilteredReportsSpec(reports: seq<Report>, filterType: string, filterStatus: string, searchTerm: string)
    ensures IsSubsequence(FilteredReports(reports, filterType, filterStatus, searchTerm), reports)
    ensures forall r :: r in FilteredReports(reports, filterType, filterStatus, searchTerm) <==>
      && r in reports
      && (filterType == "all" || ToLower(r.kind) == filterType)
      && (filterStatus == "all" || r.status == filterStatus)
      && (searchTerm == ""
          || Contains(ToLower(r.title), ToLower(searchTerm))
          || Contains(ToLower(r.location), ToLower(searchTerm))
          || Contains(ToLower(r.description), ToLower(searchTerm)))
  {
    FilterIsSubsequence(reports, Shows(filterType, filterStatus, searchTerm));
  }

  /** Clearing the filters shows every report. */
  lemma ClearedFiltersShowAll(reports: seq<Report>)
    ensures FilteredReports(reports, "all", "all", "") == reports
  {
    FilterKeepsAll(reports, Shows("all", "all", ""));
  }

  /** Filtering by status alone shows as many reports as the statistics count for it. */
  lemma StatusFilterMatchesCount(reports: seq<Report>, status: string)
    ensures |FilteredReports(reports, "all", status, "")| ==
      if status == "all" then |reports| else CountStatus(reports, status)
  {
    if status == "all" {
      ClearedFiltersShowAll(reports);
    } else {
      FilterSameTest(reports, Shows("all", status, ""), HasStatus(status));
    }
  }

  // ----- submission -----

  /** `CR-` and `n` padded to three digits. */
  function ReportId(n: nat): string
  {
    "CR-" + PadStart(NatToString(n), 3, '0')
  }

  lemma ReportIdInjective(m: nat, n: nat)
    requires ReportId(m) == ReportId(n)
    ensures m == n
  {
    assert ReportId(m)[3..] == PadStart(NatToString(m), 3, '0');
    assert ReportId(n)[3..] == PadStart(NatToString(n), 3, '0');
    PaddedNumberInjective(m, n, 3);
  }

  /** `Math.floor(Math.random() * 1000)` for a draw in [0, 1). */
  function ReporterNumber(random: real): (k: nat)
    requires 0.0 <= random < 1.0
    ensures k < 1000
  {
    (random * 1000.0).Floor
  }

  function ReporterId(random: real): string
    requires 0.0 <= random < 1.0
  {
    "User_" + NatToString(ReporterNumber(random))
  }

  /** `toISOString().slice(0, 16).replace('T', ' ')`. */
  function Timestamp(iso: string): (t: string)
  {
    ReplaceFirst(Take(iso, 16), 'T', ' ')
  }

  /** An ISO time `YYYY-MM-DDTHH:MM:SS.sssZ` is shown as `YYYY-MM-DD HH:MM`. */
  lemma TimestampOfIso(iso: string)
    requires |iso| >= 16 && 'T' !in iso[..10] && iso[10] == 'T'
    ensures Timestamp(iso) == iso[..10] + " " + iso[11..16]
  {
    var t := Timestamp(iso);
    assert Take(iso, 16)[..10] == iso[..10];
    forall i | 0 <= i < 16
      ensures t[i] == (iso[..10] + " " + iso[11..16])[i]
    {
      if i > 10 {
        assert 'T' in Take(iso, 16)[..i] by {
          assert Take(iso, 16)[..i][10] == 'T';
        }
      }
    }
  }

  /** Type, title, location and description are all filled in. */
  predicate IsComplete(c: Complaint)
  {
    c.kind != "" && c.title != "" && c.location != "" && c.description != ""
  }

  const RequiredFieldsNotice := "Please fill in all required fields"
  const SubmittedNotice := "Complaint submitted successfully! It will be reviewed by our team."

  /** The report a complete form files as number `n`. */
  function NewComplaintReport(c: Complaint, n: nat, reporterId: string, timestamp: string): Report
  {
    Report(ReportId(n), c.kind, c.title, c.location, reporterId, timestamp, "pending", c.priority,
      c.description, if c.coordinates == "" then "Coordinates not provided" else c.coordinates)
  }

  /**
    Filing a complaint adds one pending report: the pending count rises by
    one, the verified count stays, the rate cannot rise, and there is at
    most one new contributor.
  */
  lemma FilingEffect(reports: seq<Report>, c: Complaint, n: nat, reporterId: string, timestamp: string)
    ensures var after := [NewComplaintReport(c, n, reporterId, timestamp)] + reports;
      && CountStatus(after, "pending") == CountStatus(reports, "pending") + 1
      && CountStatus(after, "verified") == CountStatus(reports, "verified")
      && Statistics(after).verificationRate <= Statistics(reports).verificationRate
      && |Contributors(after)| <= |Contributors(reports)| + 1
  {
    var r := NewComplaintReport(c, n, reporterId, timestamp);
    var after := [r] + reports;
    assert after[1..] == reports;
    assert Contributors(after) == {reporterId} + Contributors(reports);
    var v := CountStatus(reports, "verified");
    DisjointCounts(reports, "pending", "verified");
    if |reports| > 0 {
      ShareShrinks(v, |reports|, |after|);
    }
  }

  /** The reports carry ids `ReportId(numbers[i])` for distinct numbers in 1..|reports|. */
  ghost predicate Numbered(reports: seq<Report>, numbers: seq<nat>)
  {
    && |numbers| == |reports|
    && (forall i :: 0 <= i < |reports| ==> reports[i].id == ReportId(numbers[i]))
    && (forall i :: 0 <= i < |numbers| ==> 1 <= numbers[i] <= |reports|)
    && (forall i, j :: 0 <= i < j < |numbers| ==> numbers[i] != numbers[j])
  }

  lemma PrependNumbered(reports: seq<Report>, numbers: seq<nat>, r: Report)
    requires Numbered(reports, numbers) && r.id == ReportId(|reports| + 1)
    ensures Numbered([r] + reports, [|reports| + 1] + numbers)
  {
    var rs, ns := [r] + reports, [|reports| + 1] + numbers;
    assert forall i :: 1 <= i < |rs| ==> rs[i] == reports[i - 1] && ns[i] == numbers[i - 1];
  }

  /** The first five ids are `CR-001` to `CR-005`. */
  lemma FirstIds()
    ensures ReportId(1) == "CR-001" && ReportId(2) == "CR-002" && ReportId(3) == "CR-003"
    ensures ReportId(4) == "CR-004" && ReportId(5) == "CR-005"
  {
    assert Repeat('0', 2) == "00";
  }

  /** Reports numbered 1, 2, 3, ... from the front, as the built-in ones are. */
  lemma InOrderNumbered(reports: seq<Report>)
    requires forall i :: 0 <= i < |reports| ==> reports[i].id == ReportId(i + 1)
    ensures Numbered(reports, seq(|reports|, i requires 0 <= i < |reports| => i + 1))
  {
  }

  /** The page's state: its reports, the complaint form and whether the form is open. */
  class CommunityReportsPage {
    var reports: seq<Report>
    var form: Complaint
    var showSubmitForm: bool
    /** The number in each report's id. */
    ghost var idNumbers: seq<nat>

    ghost predicate Valid()
      reads this`reports, this`idNumbers
    {
      Numbered(reports, idNumbers)
    }

    /** The page starts with reports numbered `CR-001`, `CR-002`, ... from the front. */
    constructor (initial: seq<Report>)
      requires forall i :: 0 <= i < |initial| ==> initial[i].id == ReportId(i + 1)
      ensures Valid()
      ensures reports == initial && form == BlankComplaint() && !showSubmitForm
    {
      reports := initial;
      form := BlankComplaint();
      showSubmitForm := false;
      idNumbers := seq(|initial|, i requires 0 <= i < |initial| => i + 1);
      InOrderNumbered(initial);
    }

    /** The form is opened. */
    method OpenForm()
      modifies this`showSubmitForm
      ensures showSubmitForm
    {
      showSubmitForm := true;
    }

    /** One form field typed in. */
    method Edit(c: Complaint)
      modifies this`form
      ensures form == c
    {
      form := c;
    }

    /** `resetForm`: the blank form, closed. */
    method ResetForm()
      modifies this`form, this`showSubmitForm
      ensures form == BlankComplaint() && !showSubmitForm
    {
      form := BlankComplaint();
      showSubmitForm := false;
    }

    /**
      `handleSubmitComplaint`, given the random draw for the reporter id and
      the current time as an ISO string: an incomplete form changes nothing;
      a complete one is filed as the next pending report, in front, and the
      form is reset and closed. `notice` is the text of the alert shown.
    */
    method SubmitComplaint(random: real, isoNow: string) returns (notice: string)
      requires Valid() && 0.0 <= random < 1.0
      modifies this`reports, this`idNumbers, this`form, this`showSubmitForm
      ensures Valid()
      ensures !IsComplete(old(form)) ==>
        && notice == RequiredFieldsNotice
        && reports == old(reports) && form == old(form) && showSubmitForm == old(showSubmitForm)
      ensures IsComplete(old(form)) ==>
        && notice == SubmittedNotice
        && reports == [NewComplaintReport(old(form), |old(reports)| + 1, ReporterId(random), Timestamp(isoNow))] + old(reports)
        && form == BlankComplaint() && !showSubmitForm
    {
      if !IsComplete(form) {
        return RequiredFieldsNotice;
      }
      var complaint := NewComplaintReport(form, |reports| + 1, ReporterId(random), Timestamp(isoNow));
      File(complaint);
      notice := SubmittedNotice;
    }

    /** The filed report goes in front of the list; the form is reset and closed. */
    method File(complaint: Report)
      requires Valid() && complaint.id == ReportId(|reports| + 1)
      modifies this`reports, this`idNumbers, this`form, this`showSubmitForm
      ensures Valid()
      ensures reports == [complaint] + old(reports)
      ensures form == BlankComplaint() && !showSubmitForm
    {
      PrependNumbered(reports, idNumbers, complaint);
      reports, idNumbers := [complaint] + reports, [|reports| + 1] + idNumbers;
      form := BlankComplaint();
      showSubmitForm := false;
    }
  }

  /** Every report on the page has its own id. */
  lemma DistinctIds(page: CommunityReportsPage)
    requires page.Valid()
    ensures forall i, j :: 0 <= i < j < |page.reports| ==> page.reports[i].id != page.reports[j].id
  {
    forall i, j | 0 <= i < j < |page.reports|
      ensures page.reports[i].id != page.reports[j].id
    {
      if page.reports[i].id == page.reports[j].id {
        ReportIdInjective(page.idNumbers[i], page.idNumbers[j]);
      }
    }
  }
}
