/**
 * The incident record the backend sends and the pure classification the
 * history page applies to it (user/js/history.js): lifecycle status with its
 * age-based fallback, the three descriptor tables, and the step classes of
 * the status progress bar.
 */
module Incidents {
  import opened Options
  import opened Collections

  /** A latitude/longitude pair that `parseFloat` read as numbers. */
  datatype Coordinates = Coordinates(lat: real, lng: real)

  /**
   * One incident as received. `status` is `None` for a null or missing
   * status; `barangayName` is `None` when the record has no barangay;
   * `coordinates` is `None` when either coordinate parses to NaN;
   * `createdAt` is the creation instant in milliseconds, `None` when it does
   * not parse as a date.
   */
  datatype Incident = Incident(
    incidentId: string,
    incidentType: string,
    severityLevel: string,
    status: Option<string>,
    description: string,
    barangayName: Option<string>,
    coordinates: Option<Coordinates>,
    createdAt: Option<int>,
    photo: Option<string>)

  const Pending: string := "pending"
  const Ongoing: string := "ongoing"
  const Resolved: string := "resolved"

  predicate IsLifecycle(s: string)
  {
    s == Pending || s == Ongoing || s == Resolved
  }

  /** Milliseconds in a day: 1000 * 60 * 60 * 24. */
  const DayMs: int := 1000 * 60 * 60 * 24

  /** `incident.status` is truthy: present and not the empty string. */
  predicate HasStatus(inc: Incident)
  {
    inc.status.Some? && inc.status.value != ""
  }

  /**
   * `calculateStatus`: whole days since creation (floored) below 1 is
   * pending, below 3 ongoing, otherwise resolved; an unparsable date gives
   * NaN, which fails both comparisons.
   */
  function CalculateStatus(createdAt: Option<int>, now: int): (r: string)
    ensures IsLifecycle(r)
    ensures r == Pending <==> createdAt.Some? && now - createdAt.value < DayMs
    ensures r == Ongoing <==> createdAt.Some? && DayMs <= now - createdAt.value < 3 * DayMs
    ensures r == Resolved <==> createdAt.None? || now - createdAt.value >= 3 * DayMs
  {
    match createdAt
    case None => Resolved
    case Some(t) =>
      var daysAgo := (now - t) / DayMs;
      if daysAgo < 1 then Pending
      else if daysAgo < 3 then Ongoing
      else Resolved
  }

  /** `getIncidentStatus`: the backend status when truthy, otherwise the age fallback. */
  function GetIncidentStatus(inc: Incident, now: int): (r: string)
    ensures HasStatus(inc) ==> r == inc.status.value
    ensures !HasStatus(inc) ==> IsLifecycle(r)
    ensures !HasStatus(inc) ==>
              (r == Pending <==> inc.createdAt.Some? && now - inc.createdAt.value < DayMs)
  {
    if HasStatus(inc) then inc.status.value else CalculateStatus(inc.createdAt, now)
  }

  /** A backend status is never overridden, whatever the age of the incident. */
  lemma BackendStatusWins(inc: Incident, now1: int, now2: int)
    requires HasStatus(inc)
    ensures GetIncidentStatus(inc, now1) == GetIncidentStatus(inc, now2) == inc.status.value
  {
  }

  /** Without a status, an incident created in the future resolves to pending. */
  lemma FutureIncidentIsPending(inc: Incident, now: int)
    requires !HasStatus(inc) && inc.createdAt.Some? && inc.createdAt.value > now
    ensures GetIncidentStatus(inc, now) == Pending
  {
  }

  /** Without a status, the fallback moves forward in time: pending, then ongoing, then resolved. */
  lemma FallbackMonotone(inc: Incident, now1: int, now2: int)
    requires !HasStatus(inc) && now1 <= now2
    ensures Rank(GetIncidentStatus(inc, now1)) <= Rank(GetIncidentStatus(inc, now2))
  {
  }

  // ---------------------------------------------------------------------
  // Descriptor tables (getIncidentTypeInfo, getStatusInfo, getSeverityInfo)
  // ---------------------------------------------------------------------

  datatype TypeInfo = TypeInfo(icon: string, color: string, bgColor: string,
                               textColor: string, borderColor: string, text: string)

  datatype StatusInfo = StatusInfo(text: string, color: string, bgColor: string,
                                   textColor: string, borderColor: string, icon: string)

  datatype SeverityInfo = SeverityInfo(text: string, bgColor: string, textColor: string,
                                       borderColor: string, icon: string)

  const TypeTable: map<string, TypeInfo> := map[
    "flood" := TypeInfo("fa-water", "blue", "bg-blue-100", "text-blue-800", "border-blue-200", "Flood"),
    "fire" := TypeInfo("fa-fire", "red", "bg-red-100", "text-red-800", "border-red-200", "Fire"),
    "medical" := TypeInfo("fa-heartbeat", "green", "bg-green-100", "text-green-800", "border-green-200", "Medical Emergency"),
    "accident" := TypeInfo("fa-car-crash", "yellow", "bg-yellow-100", "text-yellow-800", "border-yellow-200", "Accident"),
    "crime" := TypeInfo("fa-shield-alt", "purple", "bg-purple-100", "text-purple-800", "border-purple-200", "Crime"),
    "landslide" := TypeInfo("fa-mountain", "orange", "bg-orange-100", "text-orange-800", "border-orange-200", "Landslide"),
    "power" := TypeInfo("fa-bolt", "gray", "bg-gray-100", "text-gray-800", "border-gray-200", "Power Outage"),
    "other" := TypeInfo("fa-ellipsis-h", "gray", "bg-gray-100", "text-gray-800", "border-gray-200", "Other Incident")
  ]

  const StatusTable: map<string, StatusInfo> := map[
    "pending" := StatusInfo("PENDING", "blue", "bg-blue-100", "text-blue-800", "border-blue-200", "fa-clock"),
    "ongoing" := StatusInfo("ONGOING", "yellow", "bg-yellow-100", "text-yellow-800", "border-yellow-200", "fa-spinner"),
    "resolved" := StatusInfo("RESOLVED", "green", "bg-green-100", "text-green-800", "border-green-200", "fa-check-circle")
  ]

  const SeverityTable: map<string, SeverityInfo> := map[
    "low" := SeverityInfo("Low Severity", "bg-green-100", "text-green-800", "border-green-200", "fa-arrow-down"),
    "medium" := SeverityInfo("Medium Severity", "bg-yellow-100", "text-yellow-800", "border-yellow-200", "fa-minus"),
    "high" := SeverityInfo("High Severity", "bg-red-100", "text-red-800", "border-red-200", "fa-arrow-up")
  ]

  /**
   * The property key a JavaScript object lookup uses for an optional string:
   * a missing value is looked up under "undefined", which no table holds.
   */
  function KeyOf(v: Option<string>): string
  {
    match v
    case None => "undefined"
    case Some(s) => s
  }

  /** `getIncidentTypeInfo`: the type's entry, or the 'other' entry. */
  function GetIncidentTypeInfo(incidentType: string): (r: TypeInfo)
    ensures r in TypeTable.Values
    ensures incidentType in TypeTable ==> r == TypeTable[incidentType]
    ensures incidentType !in TypeTable ==> r.text == "Other Incident" && r.icon == "fa-ellipsis-h"
  {
    LookupOr(TypeTable, incidentType, "other")
  }

  /** `getStatusInfo`: the status's entry, or the 'pending' entry. */
  function GetStatusInfo(status: string): (r: StatusInfo)
    ensures r in StatusTable.Values
    ensures status in StatusTable ==> r == StatusTable[status]
    ensures !IsLifecycle(status) ==> r.text == "PENDING"
  {
    LookupOr(StatusTable, status, "pending")
  }

  /** `getSeverityInfo`: the severity's entry, or the 'medium' entry. */
  function GetSeverityInfo(severity: string): (r: SeverityInfo)
    ensures r in SeverityTable.Values
    ensures severity in SeverityTable ==> r == SeverityTable[severity]
    ensures severity !in SeverityTable ==> r.text == "Medium Severity"
  {
    LookupOr(SeverityTable, severity, "medium")
  }

  /** The tables' keys are exactly the documented enumerations. */
  lemma TableKeys()
    ensures TypeTable.Keys == {"flood", "fire", "medical", "accident", "crime", "landslide", "power", "other"}
    ensures StatusTable.Keys == {Pending, Ongoing, Resolved}
    ensures SeverityTable.Keys == {"low", "medium", "high"}
  {
  }

  /** The 'critical' severity of the demo data has no entry and displays as medium. */
  lemma CriticalSeverityIsMedium()
    ensures GetSeverityInfo("critical") == SeverityTable["medium"]
  {
    assert "critical" !in SeverityTable;
  }

  /** Every status the lifecycle resolution yields has its own entry, distinct from the others. */
  lemma LifecycleStatusInfoDistinct(inc: Incident, now: int)
    requires !HasStatus(inc)
    ensures GetStatusInfo(GetIncidentStatus(inc, now)).text == Upper3(GetIncidentStatus(inc, now))
  {
  }

  /** The upper-case label of a lifecycle status. */
  function Upper3(s: string): string
  {
    if s == Pending then "PENDING" else if s == Ongoing then "ONGOING" else "RESOLVED"
  }

  // ---------------------------------------------------------------------
  // Status progress bar (createStatusProgress), classification only
  // ---------------------------------------------------------------------

  datatype StepClass = Plain | Active | Completed

  predicate IsActive(c: StepClass)
  {
    c == Active
  }

  /** The progress steps, in lifecycle order. */
  const Steps: seq<string> := [Pending, Ongoing, Resolved]

  /** The position of a status in the lifecycle order, or -1. */
  function Rank(status: string): (r: int)
    ensures -1 <= r < |Steps|
    ensures r == -1 <==> !IsLifecycle(status)
    ensures r >= 0 ==> Steps[r] == status
  {
    if status == Pending then 0 else if status == Ongoing then 1 else if status == Resolved then 2 else -1
  }

  /** The class step `i` should have: the status's own step active, the earlier ones completed. */
  function ClassAt(status: string, i: int): StepClass
  {
    if i == Rank(status) then Active else if i < Rank(status) then Completed else Plain
  }

  /** What the progress bar should show, step by step. */
  function ProgressSpec(status: string): (r: seq<StepClass>)
    ensures |r| == |Steps|
    ensures forall i :: 0 <= i < |Steps| ==> r[i] == ClassAt(status, i)
  {
    [ClassAt(status, 0), ClassAt(status, 1), ClassAt(status, 2)]
  }

  /**
   * `createStatusProgress`: walks the steps as the source does, comparing
   * each step id with the status.
   */
  method CreateStatusProgress(status: string) returns (classes: seq<StepClass>)
    ensures classes == ProgressSpec(status)
  {
    classes := [];
    var index := 0;
    while index < |Steps|
      invariant 0 <= index <= |Steps|
      invariant classes == ProgressSpec(status)[..index]
    {
      var stepId := Steps[index];
      var stepClass := Plain;
      if stepId == status {
        stepClass := Active;
      } else if (status == Ongoing && stepId == Pending) ||
                (status == Resolved && (stepId == Pending || stepId == Ongoing)) {
        stepClass := Completed;
      }
      RankOfStep(index);
      assert stepClass == ClassAt(status, index);
      assert ProgressSpec(status)[..index + 1] == ProgressSpec(status)[..index] + [stepClass];
      classes := classes + [stepClass];
      index := index + 1;
    }
  }

  /** Each step's rank is its position. */
  lemma RankOfStep(i: int)
    requires 0 <= i < |Steps|
    ensures Rank(Steps[i]) == i
  {
    StepsDistinct();
  }

  /**
   * For a lifecycle status exactly one step is active, and the completed
   * steps are exactly those before it; any other status marks no step.
   */
  lemma ProgressClassification(status: string)
    ensures IsLifecycle(status) ==>
      CountWhere(ProgressSpec(status), IsActive) == 1
    ensures forall i :: 0 <= i < |Steps| ==>
      (ProgressSpec(status)[i] == Active <==> Steps[i] == status)
    ensures forall i :: 0 <= i < |Steps| ==>
      (ProgressSpec(status)[i] == Completed <==> exists j :: i < j < |Steps| && Steps[j] == status)
    ensures !IsLifecycle(status) ==> forall i :: 0 <= i < |Steps| ==> ProgressSpec(status)[i] == Plain
  {
    var p := ProgressSpec(status);
    var r := Rank(status);
    forall i | 0 <= i < |Steps|
      ensures p[i] == Active <==> Steps[i] == status
    {
      RankOfStep(i);
    }
    assert p[1..] == [p[1], p[2]] && p[1..][1..] == [p[2]] && p[1..][1..][1..] == [];
    calc {
      CountWhere(p, IsActive);
    ==
      (if IsActive(p[0]) then 1 else 0) + CountWhere(p[1..], IsActive);
    ==
      (if IsActive(p[0]) then 1 else 0) + (if IsActive(p[1]) then 1 else 0) + CountWhere(p[1..][1..], IsActive);
    ==
      (if IsActive(p[0]) then 1 else 0) + (if IsActive(p[1]) then 1 else 0) + (if IsActive(p[2]) then 1 else 0)
        + CountWhere(p[1..][1..][1..], IsActive);
    }
    forall i | 0 <= i < |Steps|
      ensures p[i] == Completed <==> exists j :: i < j < |Steps| && Steps[j] == status
    {
      if exists j :: i < j < |Steps| && Steps[j] == status {
        var j :| i < j < |Steps| && Steps[j] == status;
        RankOfStep(j);
      }
    }
  }

  /** The three lifecycle statuses are different strings. */
  lemma StepsDistinct()
    ensures Pending != Ongoing && Pending != Resolved && Ongoing != Resolved
  {
    assert Pending[0] != Ongoing[0] && |Resolved| != |Pending| && |Resolved| != |Ongoing|;
  }
}
