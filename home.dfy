/**
 * The citizen dashboard (user/js/home.js): the marker colour and icon
 * tables, the per-status counters over the raw backend status, the
 * summary statistics with their zero defaults, the marker loop, and the
 * demo data shown when loading fails.
 */
module Home {
  import opened Options
  import opened Collections
  import opened JsValue
  import opened Requests
  import opened Incidents
  import History

  // ---------------------------------------------------------------------
  // getStatusColor, getIncidentTypeIcon
  // ---------------------------------------------------------------------

  const StatusColors: map<string, string> := map[
    "pending" := "#f59e0b",
    "ongoing" := "#3b82f6",
    "resolved" := "#10b981"
  ]

  const TypeIcons: map<string, string> := map[
    "flood" := "fa-water",
    "fire" := "fa-fire",
    "medical" := "fa-heartbeat",
    "accident" := "fa-car-crash",
    "crime" := "fa-shield-alt",
    "landslide" := "fa-mountain",
    "power" := "fa-bolt",
    "other" := "fa-exclamation-triangle"
  ]

  /** `getStatusColor`: the status's colour, or the pending colour. */
  function GetStatusColor(status: string): (c: string)
    ensures c in StatusColors.Values
    ensures status in StatusColors ==> c == StatusColors[status]
    ensures status !in StatusColors ==> c == "#f59e0b"
  {
    LookupOr(StatusColors, status, "pending")
  }

  /** `getIncidentTypeIcon`: the type's icon, or the warning-triangle icon. */
  function GetIncidentTypeIcon(incidentType: string): (icon: string)
    ensures icon in TypeIcons.Values
    ensures incidentType in TypeIcons ==> icon == TypeIcons[incidentType]
    ensures incidentType !in TypeIcons ==> icon == "fa-exclamation-triangle"
  {
    LookupOr(TypeIcons, incidentType, "other")
  }

  /** The three statuses have three different colours, so a marker's colour tells its status. */
  lemma StatusColorsDistinct()
    ensures GetStatusColor(Pending) != GetStatusColor(Ongoing)
    ensures GetStatusColor(Pending) != GetStatusColor(Resolved)
    ensures GetStatusColor(Ongoing) != GetStatusColor(Resolved)
  {
  }

  // ---------------------------------------------------------------------
  // updateIncidentCounts
  // ---------------------------------------------------------------------

  datatype IncidentCounts = IncidentCounts(pending: nat, ongoing: nat, resolved: nat)

  /** `inc.status === status`, on the raw backend value. */
  function RawStatusIs(status: string): Incident -> bool
  {
    (inc: Incident) => inc.status == Some(status)
  }

  /**
   * `updateIncidentCounts`: how many incidents carry each status verbatim.
   * There is no age fallback, so the counts add up to at most the length.
   */
  function UpdateIncidentCounts(incidents: seq<Incident>): (c: IncidentCounts)
    ensures c.pending + c.ongoing + c.resolved <= |incidents|
    ensures (forall x :: x in incidents ==> x.status.Some? && IsLifecycle(x.status.value)) ==>
              c.pending + c.ongoing + c.resolved == |incidents|
  {
    var p := RawStatusIs(Pending);
    var o := RawStatusIs(Ongoing);
    var r := RawStatusIs(Resolved);
    StepsDistinct();
    CountThreeWays(incidents, p, o, r);
    IncidentCounts(CountWhere(incidents, p), CountWhere(incidents, o), CountWhere(incidents, r))
  }

  /** The incident carries one of the three lifecycle statuses verbatim. */
  predicate Recognised(inc: Incident)
  {
    inc.status.Some? && IsLifecycle(inc.status.value)
  }

  /** An incident without a lifecycle status, wherever it stands, is counted under none of the three. */
  lemma UnrecognisedStatusNotCounted(before: seq<Incident>, x: Incident, after: seq<Incident>)
    requires !Recognised(x)
    ensures UpdateIncidentCounts(before + [x] + after) == UpdateIncidentCounts(before + after)
  {
    CountSkips(before, x, after, RawStatusIs(Pending));
    CountSkips(before, x, after, RawStatusIs(Ongoing));
    CountSkips(before, x, after, RawStatusIs(Resolved));
  }

  /** An element the predicate rejects does not change the count, wherever it stands. */
  lemma CountSkips(before: seq<Incident>, x: Incident, after: seq<Incident>, p: Incident -> bool)
    requires !p(x)
    ensures CountWhere(before + [x] + after, p) == CountWhere(before + after, p)
  {
    CountAppend(before + [x], after, p);
    CountAppend(before, [x], p);
    CountAppend(before, after, p);
    assert [x][1..] == [];
  }

  /** The counts of any list are the counts of its incidents with a lifecycle status. */
  lemma CountsIgnoreUnrecognised(incidents: seq<Incident>)
    ensures UpdateIncidentCounts(incidents) == UpdateIncidentCounts(Keep(incidents, Recognised))
  {
    CountRecognised(incidents, RawStatusIs(Pending));
    CountRecognised(incidents, RawStatusIs(Ongoing));
    CountRecognised(incidents, RawStatusIs(Resolved));
  }

  /** A count by a lifecycle status is unchanged by dropping the unrecognised incidents. */
  lemma {:induction false} CountRecognised(s: seq<Incident>, p: Incident -> bool)
    requires forall x :: p(x) ==> Recognised(x)
    ensures CountWhere(s, p) == CountWhere(Keep(s, Recognised), p)
  {
    if s != [] {
      var head := if Recognised(s[0]) then [s[0]] else [];
      CountRecognised(s[1..], p);
      CountAppend(head, Keep(s[1..], Recognised), p);
      if Recognised(s[0]) {
        assert [s[0]][1..] == [];
      }
    }
  }

  /**
   * Every count of every list: the dashboard counts each status as the
   * history page does, over the incidents that carry a lifecycle status.
   */
  lemma CountsOfAnyList(incidents: seq<Incident>, now: int)
    ensures var kept := Keep(incidents, Recognised);
            UpdateIncidentCounts(incidents).pending == History.UpdateStatistics(kept, now).pending &&
            UpdateIncidentCounts(incidents).ongoing == History.UpdateStatistics(kept, now).ongoing &&
            UpdateIncidentCounts(incidents).resolved == History.UpdateStatistics(kept, now).resolved
  {
    CountsIgnoreUnrecognised(incidents);
    CountsAgreeWithHistory(Keep(incidents, Recognised), now);
  }

  /**
   * When every incident carries a lifecycle status, the dashboard counters
   * agree with the statistics of the history page.
   */
  lemma CountsAgreeWithHistory(incidents: seq<Incident>, now: int)
    requires forall x :: x in incidents ==> Recognised(x)
    ensures UpdateIncidentCounts(incidents).pending == History.UpdateStatistics(incidents, now).pending
    ensures UpdateIncidentCounts(incidents).ongoing == History.UpdateStatistics(incidents, now).ongoing
    ensures UpdateIncidentCounts(incidents).resolved == History.UpdateStatistics(incidents, now).resolved
  {
    CountCongruent(incidents, RawStatusIs(Pending), History.StatusIs(Pending, now));
    CountCongruent(incidents, RawStatusIs(Ongoing), History.StatusIs(Ongoing, now));
    CountCongruent(incidents, RawStatusIs(Resolved), History.StatusIs(Resolved, now));
  }

  /** Without a status, the dashboard counts nothing while the history page counts by age. */
  lemma CountsDisagreeWithoutStatus(now: int)
    ensures var inc := Incident("a1", "flood", "low", None, "", None, None, Some(now), None);
            UpdateIncidentCounts([inc]) == IncidentCounts(0, 0, 0) &&
            History.UpdateStatistics([inc], now).pending == 1
  {
    var inc := Incident("a1", "flood", "low", None, "", None, None, Some(now), None);
    assert [inc][1..] == [];
  }

  // ---------------------------------------------------------------------
  // updateDashboardStats
  // ---------------------------------------------------------------------

  /** The dashboard statistics object; a missing field is `undefined`. */
  datatype DashboardStats = DashboardStats(
    reportsSubmitted: JsVal, resolved: JsVal, pending: JsVal, totalIncidents: JsVal)

  /** `updateDashboardStats`: each field as shown, with `|| 0` applied. */
  function UpdateDashboardStats(stats: DashboardStats): (shown: DashboardStats)
    ensures Truthy(stats.reportsSubmitted) ==> shown.reportsSubmitted == stats.reportsSubmitted
    ensures !Truthy(stats.reportsSubmitted) ==> shown.reportsSubmitted == Num(0)
    ensures Truthy(stats.resolved) ==> shown.resolved == stats.resolved
    ensures !Truthy(stats.resolved) ==> shown.resolved == Num(0)
    ensures Truthy(stats.pending) ==> shown.pending == stats.pending
    ensures !Truthy(stats.pending) ==> shown.pending == Num(0)
    ensures Truthy(stats.totalIncidents) ==> shown.totalIncidents == stats.totalIncidents
    ensures !Truthy(stats.totalIncidents) ==> shown.totalIncidents == Num(0)
  {
    DashboardStats(
      Or(stats.reportsSubmitted, Num(0)),
      Or(stats.resolved, Num(0)),
      Or(stats.pending, Num(0)),
      Or(stats.totalIncidents, Num(0)))
  }

  /** Showing is idempotent: a shown value is never again replaced. */
  lemma UpdateDashboardStatsIdempotent(stats: DashboardStats)
    ensures UpdateDashboardStats(UpdateDashboardStats(stats)) == UpdateDashboardStats(stats)
  {
  }

  /** `loadDemoStats`: the fixed demo figures. */
  const DemoStats: DashboardStats := DashboardStats(Num(8), Num(6), Num(2), Num(15))

  // ---------------------------------------------------------------------
  // Markers (the forEach in initializeMap) and the demo fallback
  // ---------------------------------------------------------------------

  /** A pin: where, in which colour, with which icon. */
  datatype Marker = Marker(at: Coordinates, color: string, icon: string)

  function MarkerFor(inc: Incident): Marker
    requires inc.coordinates.Some?
  {
    Marker(inc.coordinates.value, GetStatusColor(KeyOf(inc.status)), GetIncidentTypeIcon(inc.incidentType))
  }

  /** What the marker loop leaves behind: the pins added, and whether it threw. */
  datatype Plotted = Plotted(markers: seq<Marker>, threw: bool)

  /**
   * The marker loop as specified: incidents without both coordinates are
   * skipped; each other incident gets its pin, and a pin whose incident has
   * no status is added before the popup's `status.toUpperCase()` throws.
   */
  function Plot(incidents: seq<Incident>): (r: Plotted)
  {
    if incidents == [] then Plotted([], false)
    else if incidents[0].coordinates.None? then Plot(incidents[1..])
    else if incidents[0].status.None? then Plotted([MarkerFor(incidents[0])], true)
    else
      var rest := Plot(incidents[1..]);
      Plotted([MarkerFor(incidents[0])] + rest.markers, rest.threw)
  }

  predicate Plottable(inc: Incident)
  {
    inc.coordinates.Some?
  }

  /** Null status with coordinates, the input that makes the loop throw. */
  predicate Throws(inc: Incident)
  {
    inc.coordinates.Some? && inc.status.None?
  }

  /**
   * The loop throws exactly when some plottable incident has no status;
   * otherwise it adds one pin per plottable incident, coloured by its status.
   */
  lemma {:induction false} PlotSpec(incidents: seq<Incident>)
    ensures Plot(incidents).threw <==> exists x :: x in incidents && Throws(x)
    ensures !Plot(incidents).threw ==> |Plot(incidents).markers| == CountWhere(incidents, Plottable)
    ensures forall i :: 0 <= i < |Plot(incidents).markers| ==>
              Plot(incidents).markers[i].color in StatusColors.Values
  {
    if incidents != [] {
      var head := incidents[0];
      var tail := incidents[1..];
      PlotSpec(tail);
      assert forall x :: x in incidents <==> x == head || x in tail by {
        assert incidents == [head] + tail;
      }
      assert Throws(head) ==> exists x :: x in incidents && Throws(x);
      assert (exists x :: x in tail && Throws(x)) ==> exists x :: x in incidents && Throws(x);
    }
  }

  /**
   * The `forEach` over the incidents: adds the pins one by one and stops at
   * the first plottable incident without a status.
   */
  method AddIncidentMarkers(incidents: seq<Incident>) returns (added: seq<Marker>, threw: bool)
    ensures Plotted(added, threw) == Plot(incidents)
  {
    added := [];
    threw := false;
    var i := 0;
    while i < |incidents|
      invariant 0 <= i <= |incidents|
      invariant Plot(incidents) == Plotted(added + Plot(incidents[i..]).markers, Plot(incidents[i..]).threw)
    {
      var incident := incidents[i];
      assert incidents[i..][1..] == incidents[i + 1..];
      if incident.coordinates.Some? {
        added := added + [MarkerFor(incident)];
        if incident.status.None? {
          threw := true;
          return;
        }
      }
      i := i + 1;
    }
  }

  /**
   * `loadDemoIncidents`: one incident per status, all plottable. The demo
   * records name their barangay under `baranggay.baranggay`, not
   * `baranggay_name`, so they carry no `barangayName` here; the pin popup
   * that falls back to that other key is not modelled.
   */
  const DemoIncidents: seq<Incident> := [
    Incident("", "flood", "high", Some(Ongoing), "Flooding in low-lying areas",
             None, Some(Coordinates(14.2769, 121.4164)), None, None),
    Incident("", "fire", "critical", Some(Pending), "House fire reported",
             None, Some(Coordinates(14.2850, 121.4250)), None, None),
    Incident("", "medical", "medium", Some(Resolved), "Medical emergency response",
             None, Some(Coordinates(14.2700, 121.4100)), None, None)
  ]

  /** The demo set counts one incident per status and plots all three without throwing. */
  lemma DemoCounts()
    ensures UpdateIncidentCounts(DemoIncidents) == IncidentCounts(1, 1, 1)
    ensures Plot(DemoIncidents).threw == false && |Plot(DemoIncidents).markers| == 3
  {
    var d := DemoIncidents;
    assert d[1..] == [d[1], d[2]] && d[1..][1..] == [d[2]] && d[1..][1..][1..] == [];
    StepsDistinct();
    assert Plot(d[1..][1..]) == Plotted([MarkerFor(d[2])], false);
    assert Plot(d[1..]) == Plotted([MarkerFor(d[1]), MarkerFor(d[2])], false);
    forall status | IsLifecycle(status)
      ensures CountWhere(d, RawStatusIs(status)) == 1
    {
      var p := RawStatusIs(status);
      assert CountWhere(d[1..][1..], p) == (if p(d[2]) then 1 else 0);
      assert CountWhere(d[1..], p) == (if p(d[1]) then 1 else 0) + (if p(d[2]) then 1 else 0);
    }
  }

  /** `initializeMap` falls back to the demo data when a request or the marker loop throws. */
  predicate FallsBack(statsResponse: Response<DashboardStats>, incidentsResponse: Response<seq<Incident>>)
  {
    statsResponse.Threw? || incidentsResponse.Threw? ||
    (incidentsResponse.Succeeded? && Plot(incidentsResponse.data).threw)
  }

  /** The module state of the dashboard that the page logic changes. */
  class Dashboard {
    var incidents: seq<Incident>
    var markers: seq<Marker>
    var counts: Option<IncidentCounts>
    var shownStats: Option<DashboardStats>

    constructor ()
      ensures incidents == [] && markers == [] && counts.None? && shownStats.None?
    {
      incidents := [];
      markers := [];
      counts := None;
      shownStats := None;
    }

    /** `loadDemoIncidents` followed by `loadDemoStats`. */
    method LoadDemo()
      modifies this
      ensures markers == old(markers) + Plot(DemoIncidents).markers
      ensures counts == Some(IncidentCounts(1, 1, 1))
      ensures shownStats == Some(DemoStats)
      ensures incidents == old(incidents)
    {
      var added, _ := AddIncidentMarkers(DemoIncidents);
      markers := markers + added;
      DemoCounts();
      counts := Some(UpdateIncidentCounts(DemoIncidents));
      shownStats := Some(UpdateDashboardStats(DemoStats));
    }

    /**
     * `initializeMap` given the two responses: statistics first, then the
     * incidents, their counts and their pins; anything thrown on the way
     * shows the demo data instead.
     */
    method InitializeMap(statsResponse: Response<DashboardStats>, incidentsResponse: Response<seq<Incident>>)
      modifies this
      ensures FallsBack(statsResponse, incidentsResponse) ==>
                counts == Some(IncidentCounts(1, 1, 1)) && shownStats == Some(DemoStats) &&
                markers == old(markers) +
                  (if !statsResponse.Threw? && incidentsResponse.Succeeded?
                   then Plot(incidentsResponse.data).markers else []) +
                  Plot(DemoIncidents).markers
      ensures !statsResponse.Threw? && incidentsResponse.Succeeded? ==> incidents == incidentsResponse.data
      ensures statsResponse.Threw? || !incidentsResponse.Succeeded? ==> incidents == old(incidents)
      ensures !FallsBack(statsResponse, incidentsResponse) && incidentsResponse.Succeeded? ==>
                counts == Some(UpdateIncidentCounts(incidentsResponse.data)) &&
                markers == old(markers) + Plot(incidentsResponse.data).markers
      ensures !FallsBack(statsResponse, incidentsResponse) && !incidentsResponse.Succeeded? ==>
                counts == old(counts) && markers == old(markers)
      ensures !FallsBack(statsResponse, incidentsResponse) ==>
                shownStats == (if statsResponse.Succeeded? then Some(UpdateDashboardStats(statsResponse.data))
                               else old(shownStats))
    {
      if statsResponse.Threw? {
        LoadDemo();
        return;
      }
      if statsResponse.Succeeded? {
        shownStats := Some(UpdateDashboardStats(statsResponse.data));
      }
      match incidentsResponse
      case Threw =>
        LoadDemo();
      case Unsuccessful =>
      case Succeeded(data) =>
        var threw := ShowIncidents(data);
        if threw {
          LoadDemo();
        }
    }

    /**
     * The successful branch of the incidents request: keep the list, count
     * it, then pin it; reports whether the marker loop threw.
     */
    method ShowIncidents(data: seq<Incident>) returns (threw: bool)
      modifies this
      ensures incidents == data && counts == Some(UpdateIncidentCounts(data))
      ensures markers == old(markers) + Plot(data).markers
      ensures threw == Plot(data).threw
      ensures shownStats == old(shownStats)
    {
      incidents := data;
      counts := Some(UpdateIncidentCounts(incidents));
      var added;
      added, threw := AddIncidentMarkers(incidents);
      markers := markers + added;
    }
  }
}
