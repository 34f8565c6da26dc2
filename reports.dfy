/**
 * The report list page (src/pages/Reports.jsx): the search, severity and status filters,
 * the patient-name lookup, the severity colour classes, the summary counts and the
 * truncated row of condition badges.
 */
module Reports {
  import opened Wrappers
  import opened JsText
  import opened Seqs

  datatype Patient = Patient(id: string, fullName: Option<string>)

  /** A stored diagnosis report; `diagnosis` and `detectedConditions` may be absent. */
  datatype Report = Report(
    id: string,
    patientId: string,
    diagnosis: Option<string>,
    severity: string,
    status: string,
    detectedConditions: Option<seq<string>>)

  /** The value of the severity and status menus that switches their filter off. */
  const All: string := "all"

  /** `patients.find(p => p.id === id)`. */
  function FindPatient(patients: seq<Patient>, id: string): (r: Option<Patient>)
    ensures r.None? <==> forall i :: 0 <= i < |patients| ==> patients[i].id != id
    ensures r.Some? ==> exists i :: 0 <= i < |patients| && patients[i] == r.value && patients[i].id == id &&
                                    forall j :: 0 <= j < i ==> patients[j].id != id
  {
    Find(patients, (p: Patient) => p.id == id)
  }

  /**
   * The search predicate: the lower-cased term occurs in the lower-cased name of the
   * report's patient or in the lower-cased diagnosis; a missing patient, name or
   * diagnosis does not match.
   */
  predicate HitsSearch(patients: seq<Patient>, term: string, report: Report)
    ensures HitsSearch(patients, term, report) ==>
              || (FindPatient(patients, report.patientId).Some? && FindPatient(patients, report.patientId).value.fullName.Some?)
              || report.diagnosis.Some?
  {
    var patient := FindPatient(patients, report.patientId);
    var t := ToLowerCase(term);
    || (patient.Some? && patient.value.fullName.Some? &&
        Includes(ToLowerCase(patient.value.fullName.value), t))
    || (report.diagnosis.Some? && Includes(ToLowerCase(report.diagnosis.value), t))
  }

  /** `filterReports`: each active filter narrows the list in turn. */
  function FilterReports(reports: seq<Report>, patients: seq<Patient>, searchTerm: string,
                         severityFilter: string, statusFilter: string): (shown: seq<Report>)
    ensures |shown| <= |reports|
    ensures forall i :: 0 <= i < |shown| ==>
              shown[i] in reports && KeepReport(patients, searchTerm, severityFilter, statusFilter, shown[i])
  {
    var bySearch :=
      if searchTerm != "" then Filter(reports, (r: Report) => HitsSearch(patients, searchTerm, r))
      else reports;
    var bySeverity :=
      if severityFilter != All then Filter(bySearch, (r: Report) => r.severity == severityFilter)
      else bySearch;
    if statusFilter != All then Filter(bySeverity, (r: Report) => r.status == statusFilter)
    else bySeverity
  }

  /** The three filters, each one holding trivially when it is switched off. */
  predicate SearchKeeps(patients: seq<Patient>, searchTerm: string, r: Report) {
    searchTerm == "" || HitsSearch(patients, searchTerm, r)
  }

  predicate SeverityKeeps(severityFilter: string, r: Report) {
    severityFilter == All || r.severity == severityFilter
  }

  predicate StatusKeeps(statusFilter: string, r: Report) {
    statusFilter == All || r.status == statusFilter
  }

  /** A report stays on the page exactly when every active filter accepts it. */
  predicate KeepReport(patients: seq<Patient>, searchTerm: string, severityFilter: string,
                       statusFilter: string, r: Report) {
    SearchKeeps(patients, searchTerm, r) && SeverityKeeps(severityFilter, r) && StatusKeeps(statusFilter, r)
  }

  /** The chained filters are one filter by the conjunction of the active predicates. */
  lemma FilterReportsIsOneFilter(reports: seq<Report>, patients: seq<Patient>, searchTerm: string,
                                 severityFilter: string, statusFilter: string)
    ensures FilterReports(reports, patients, searchTerm, severityFilter, statusFilter) ==
            Filter(reports, (r: Report) => KeepReport(patients, searchTerm, severityFilter, statusFilter, r))
  {
    var s := (r: Report) => SearchKeeps(patients, searchTerm, r);
    var v := (r: Report) => SeverityKeeps(severityFilter, r);
    var t := (r: Report) => StatusKeeps(statusFilter, r);
    var sv := (r: Report) => SearchKeeps(patients, searchTerm, r) && SeverityKeeps(severityFilter, r);
    var keep := (r: Report) => KeepReport(patients, searchTerm, severityFilter, statusFilter, r);
    var bySearch := Filter(reports, s);
    if searchTerm == "" {
      FilterKeepsAll(reports, s);
    } else {
      FilterCongruent(reports, s, (r: Report) => HitsSearch(patients, searchTerm, r));
    }
    var bySeverity := Filter(bySearch, v);
    if severityFilter == All {
      FilterKeepsAll(bySearch, v);
    } else {
      FilterCongruent(bySearch, v, (r: Report) => r.severity == severityFilter);
    }
    var byStatus := Filter(bySeverity, t);
    if statusFilter == All {
      FilterKeepsAll(bySeverity, t);
    } else {
      FilterCongruent(bySeverity, t, (r: Report) => r.status == statusFilter);
    }
    assert FilterReports(reports, patients, searchTerm, severityFilter, statusFilter) == byStatus;
    FilterFilter(reports, s, v, sv);
    FilterFilter(reports, sv, t, keep);
  }

  /** A report of the list is shown if and only if every active filter accepts it. */
  lemma ShownIffKept(reports: seq<Report>, patients: seq<Patient>, searchTerm: string,
                     severityFilter: string, statusFilter: string, i: nat)
    requires i < |reports|
    ensures reports[i] in FilterReports(reports, patients, searchTerm, severityFilter, statusFilter) <==>
            KeepReport(patients, searchTerm, severityFilter, statusFilter, reports[i])
  {
    FilterReportsIsOneFilter(reports, patients, searchTerm, severityFilter, statusFilter);
    var shown := FilterReports(reports, patients, searchTerm, severityFilter, statusFilter);
    if reports[i] in shown {
      var j :| 0 <= j < |shown| && shown[j] == reports[i];
    }
  }

  /** The shown list keeps the reports in their stored order, dropping some. */
  lemma FilterReportsIsSubsequence(reports: seq<Report>, patients: seq<Patient>, searchTerm: string,
                                   severityFilter: string, statusFilter: string)
    ensures IsSubsequence(FilterReports(reports, patients, searchTerm, severityFilter, statusFilter), reports)
  {
    FilterReportsIsOneFilter(reports, patients, searchTerm, severityFilter, statusFilter);
    FilterIsSubsequence(reports, (r: Report) => KeepReport(patients, searchTerm, severityFilter, statusFilter, r));
  }

  /** With no search text and both menus on "all" every report is shown. */
  lemma NoFilterShowsAll(reports: seq<Report>, patients: seq<Patient>)
    ensures FilterReports(reports, patients, "", All, All) == reports
  {
  }

  /** `getPatientName`: the linked patient's name, or "Unknown Patient" when it is missing or empty. */
  function GetPatientName(patients: seq<Patient>, patientId: string): (name: string)
    ensures (forall i :: 0 <= i < |patients| ==> patients[i].id != patientId) ==> name == "Unknown Patient"
    ensures FindPatient(patients, patientId).Some? ==>
              var p := FindPatient(patients, patientId).value;
              if p.fullName.Some? && p.fullName.value != "" then name == p.fullName.value
              else name == "Unknown Patient"
  {
    var patient := FindPatient(patients, patientId);
    if patient.Some? && patient.value.fullName.Some? && patient.value.fullName.value != "" then
      patient.value.fullName.value
    else
      "Unknown Patient"
  }

  /** The severities the page knows a colour for. */
  const KnownSeverities: seq<string> := ["mild", "moderate", "severe", "critical"]

  /** `getSeverityColor`: the badge classes of a severity. */
  function GetSeverityColor(severity: string): (classes: string)
    ensures severity !in KnownSeverities <==> classes == "bg-slate-100 text-slate-800"
    ensures severity == "critical" <==> classes == "bg-red-100 text-red-800"
  {
    match severity
    case "mild" => "bg-cyan-100 text-cyan-800"
    case "moderate" => "bg-blue-100 text-blue-800"
    case "severe" => "bg-indigo-100 text-indigo-800"
    case "critical" => "bg-red-100 text-red-800"
    case _ => "bg-slate-100 text-slate-800"
  }

  /** Distinct known severities get distinct colours. */
  lemma SeverityColorsDistinct(a: string, b: string)
    requires a in KnownSeverities && b in KnownSeverities && a != b
    ensures GetSeverityColor(a) != GetSeverityColor(b)
  {
    var ca, cb := GetSeverityColor(a), GetSeverityColor(b);
    assert ca[3] != cb[3] || ca[4] != cb[4];
  }

  /** The "Normal/Mild" card: reports whose severity is "mild". */
  function MildCount(reports: seq<Report>): (count: nat)
    ensures count <= |reports|
    ensures count == 0 <==> forall i :: 0 <= i < |reports| ==> reports[i].severity != "mild"
  {
    var mild := Filter(reports, (r: Report) => r.severity == "mild");
    assert mild != [] ==> mild[0] in reports && mild[0].severity == "mild";
    |mild|
  }

  /** The "Moderate/Severe" card: reports whose severity is "moderate" or "severe". */
  function ModerateSevereCount(reports: seq<Report>): (count: nat)
    ensures count <= |reports|
    ensures count == 0 <==> forall i :: 0 <= i < |reports| ==>
                              reports[i].severity != "moderate" && reports[i].severity != "severe"
  {
    var serious := Filter(reports, (r: Report) => r.severity in ["moderate", "severe"]);
    assert serious != [] ==> serious[0] in reports && serious[0].severity in ["moderate", "severe"];
    |serious|
  }

  /** The two severity cards never add up to more than the "Total Reports" card. */
  lemma StatsWithinTotal(reports: seq<Report>)
    ensures MildCount(reports) + ModerateSevereCount(reports) <= |reports|
  {
    FilterDisjointSizes(reports, (r: Report) => r.severity == "mild",
                        (r: Report) => r.severity in ["moderate", "severe"]);
  }

  /** One badge of a report row: a condition name, or the "+n more" overflow badge. */
  datatype Badge = Condition(name: string) | More(hidden: nat)

  /** The number of condition badges shown before the overflow badge. */
  const ShownConditions: nat := 3

  /** The badges of a report row: at most three conditions, then `+n more` for the rest. */
  function ConditionBadges(conditions: Option<seq<string>>): (badges: seq<Badge>)
    ensures conditions.None? ==> badges == []
    ensures conditions.Some? ==>
              var c := conditions.value;
              var shown := if |c| < ShownConditions then |c| else ShownConditions;
              && |badges| == shown + (if |c| > ShownConditions then 1 else 0)
              && (forall i :: 0 <= i < shown ==> badges[i] == Condition(c[i]))
              && (forall i :: shown <= i < |badges| ==> badges[i] == More(|c| - ShownConditions))
  {
    match conditions
    case None => []
    case Some(c) =>
      var first := c[..if |c| < ShownConditions then |c| else ShownConditions];
      var named := seq(|first|, i requires 0 <= i < |first| => Condition(first[i]));
      if |c| > ShownConditions then named + [More(|c| - ShownConditions)] else named
  }

  /** The conditions a badge row accounts for: one per name badge plus the overflow count. */
  function BadgeTotal(badges: seq<Badge>): nat {
    if badges == [] then 0
    else (match badges[0] case Condition(_) => 1 case More(n) => n) + BadgeTotal(badges[1..])
  }

  lemma {:induction false} BadgeTotalOfNames(badges: seq<Badge>)
    requires forall i :: 0 <= i < |badges| ==> badges[i].Condition?
    ensures BadgeTotal(badges) == |badges|
  {
    if badges != [] {
      BadgeTotalOfNames(badges[1..]);
    }
  }

  lemma {:induction false} BadgeTotalAppend(a: seq<Badge>, b: seq<Badge>)
    ensures BadgeTotal(a + b) == BadgeTotal(a) + BadgeTotal(b)
  {
    if a != [] {
      assert (a + b)[1..] == a[1..] + b;
      BadgeTotalAppend(a[1..], b);
    } else {
      assert a + b == b;
    }
  }

  /** Truncation loses no condition: the badges account for every detected condition. */
  lemma BadgesAccountForAll(conditions: seq<string>)
    ensures BadgeTotal(ConditionBadges(Some(conditions))) == |conditions|
  {
    var badges := ConditionBadges(Some(conditions));
    var shown := if |conditions| < ShownConditions then |conditions| else ShownConditions;
    var named := badges[..shown];
    BadgeTotalOfNames(named);
    if |conditions| > ShownConditions {
      assert badges == named + [More(|conditions| - ShownConditions)];
      BadgeTotalAppend(named, [More(|conditions| - ShownConditions)]);
    } else {
      assert badges == named;
    }
  }
}
