/**
 * The list engine of the report history page (user/js/history.js): the
 * status and search filters, the per-status statistics, the grouping of
 * cards by month, the status a card carries, and the page state (loaded
 * incidents, paging, image carousel) as a class.
 */
module History {
  import opened Options
  import opened Requests
  import opened JsText
  import opened Collections
  import opened Incidents

  // ---------------------------------------------------------------------
  // filterIncidents
  // ---------------------------------------------------------------------

  /** The status chip: 'all' passes everything, any other value must equal the resolved status. */
  predicate MatchesFilter(inc: Incident, filter: string, now: int)
  {
    filter == "all" || GetIncidentStatus(inc, now) == filter
  }

  /** `incident.baranggay?.baranggay_name.toLowerCase() || ''`. */
  function BarangaySearchText(inc: Incident): string
  {
    match inc.barangayName
    case None => ""
    case Some(name) => Lower(name)
  }

  /**
   * The search box: an empty term passes everything; otherwise the lowered
   * term must occur in the lowered description, type or barangay name.
   */
  predicate MatchesSearch(inc: Incident, searchTerm: string)
  {
    var term := Lower(searchTerm);
    searchTerm == "" ||
    Contains(Lower(inc.description), term) ||
    Contains(Lower(inc.incidentType), term) ||
    Contains(BarangaySearchText(inc), term)
  }

  /** Both controls together, as one predicate. */
  function Shown(filter: string, searchTerm: string, now: int): Incident -> bool
  {
    inc => MatchesFilter(inc, filter, now) && MatchesSearch(inc, searchTerm)
  }

  /**
   * `filterIncidents`: the status filter first (skipped for 'all'), then the
   * search filter (skipped for an empty term).
   */
  function FilterIncidents(all: seq<Incident>, filter: string, searchTerm: string, now: int): (r: seq<Incident>)
    ensures |r| <= |all|
    ensures forall x :: x in r <==> x in all && MatchesFilter(x, filter, now) && MatchesSearch(x, searchTerm)
  {
    var byStatus :=
      if filter != "all" then Keep(all, (inc: Incident) => GetIncidentStatus(inc, now) == filter) else all;
    if searchTerm != "" then
      var term := Lower(searchTerm);
      Keep(byStatus, (inc: Incident) =>
        Contains(Lower(inc.description), term) ||
        Contains(Lower(inc.incidentType), term) ||
        Contains(BarangaySearchText(inc), term))
    else byStatus
  }

  /** The two successive filters are a single filter by the conjunction of the two controls. */
  lemma FilterIsConjunction(all: seq<Incident>, filter: string, searchTerm: string, now: int)
    ensures FilterIncidents(all, filter, searchTerm, now) == Keep(all, Shown(filter, searchTerm, now))
  {
    var byStatus := (inc: Incident) => GetIncidentStatus(inc, now) == filter;
    var term := Lower(searchTerm);
    var bySearch := (inc: Incident) =>
      Contains(Lower(inc.description), term) ||
      Contains(Lower(inc.incidentType), term) ||
      Contains(BarangaySearchText(inc), term);
    var both := Shown(filter, searchTerm, now);
    if filter != "all" && searchTerm != "" {
      KeepKeep(all, byStatus, bySearch, both);
    } else if filter != "all" {
      KeepCongruent(all, byStatus, both);
    } else if searchTerm != "" {
      KeepCongruent(all, bySearch, both);
    } else {
      KeepAll(all, both);
    }
  }

  /** The filtered list keeps the loaded order: it is a subsequence of the loaded incidents. */
  lemma FilterPreservesOrder(all: seq<Incident>, filter: string, searchTerm: string, now: int)
    ensures IsSubsequence(FilterIncidents(all, filter, searchTerm, now), all)
  {
    FilterIsConjunction(all, filter, searchTerm, now);
    KeepIsSubsequence(all, Shown(filter, searchTerm, now));
  }

  /** The initial call `filterIncidents('all', '')` shows every loaded incident. */
  lemma FilterAllEmptyIsIdentity(all: seq<Incident>, now: int)
    ensures FilterIncidents(all, "all", "", now) == all
  {
  }

  /** The search is case-insensitive: lower-casing the term changes nothing. */
  lemma SearchIgnoresTermCase(all: seq<Incident>, filter: string, searchTerm: string, now: int)
    ensures FilterIncidents(all, filter, Lower(searchTerm), now) == FilterIncidents(all, filter, searchTerm, now)
  {
    LowerIdempotent(searchTerm);
    LowerEmpty(searchTerm);
    FilterIsConjunction(all, filter, searchTerm, now);
    FilterIsConjunction(all, filter, Lower(searchTerm), now);
    KeepCongruent(all, Shown(filter, Lower(searchTerm), now), Shown(filter, searchTerm, now));
  }

  /** Filtering a list with a page appended is filtering each part: earlier matches stay first. */
  lemma FilterAppend(old_: seq<Incident>, page: seq<Incident>, filter: string, searchTerm: string, now: int)
    ensures FilterIncidents(old_ + page, filter, searchTerm, now) ==
            FilterIncidents(old_, filter, searchTerm, now) + FilterIncidents(page, filter, searchTerm, now)
  {
    var p := Shown(filter, searchTerm, now);
    FilterIsConjunction(old_ + page, filter, searchTerm, now);
    FilterIsConjunction(old_, filter, searchTerm, now);
    FilterIsConjunction(page, filter, searchTerm, now);
    KeepAppend(old_, page, p);
  }

  // ---------------------------------------------------------------------
  // updateStatistics
  // ---------------------------------------------------------------------

  datatype Stats = Stats(total: nat, resolved: nat, ongoing: nat, pending: nat)

  function StatusIs(status: string, now: int): Incident -> bool
  {
    inc => GetIncidentStatus(inc, now) == status
  }

  /**
   * `updateStatistics`: the total and the number of incidents whose resolved
   * status is each lifecycle value. The three counts never exceed the total,
   * and add up to it when every resolved status is a lifecycle value.
   */
  function UpdateStatistics(incidents: seq<Incident>, now: int): (st: Stats)
    ensures st.total == |incidents|
    ensures st.resolved + st.ongoing + st.pending <= st.total
    ensures (forall x :: x in incidents ==> IsLifecycle(GetIncidentStatus(x, now))) ==>
              st.resolved + st.ongoing + st.pending == st.total
  {
    var r := StatusIs(Resolved, now);
    var o := StatusIs(Ongoing, now);
    var p := StatusIs(Pending, now);
    StepsDistinct();
    CountThreeWays(incidents, r, o, p);
    Stats(|incidents|, CountWhere(incidents, r), CountWhere(incidents, o), CountWhere(incidents, p))
  }

  /** Without backend statuses every incident is counted once: the counts add up to the total. */
  lemma FallbackStatisticsAddUp(incidents: seq<Incident>, now: int)
    requires forall x :: x in incidents ==> !HasStatus(x)
    ensures var st := UpdateStatistics(incidents, now);
            st.resolved + st.ongoing + st.pending == st.total
  {
  }

  /** Each count is the number of cards the matching status chip shows. */
  lemma StatisticsMatchChips(incidents: seq<Incident>, now: int)
    ensures UpdateStatistics(incidents, now).pending == |FilterIncidents(incidents, Pending, "", now)|
    ensures UpdateStatistics(incidents, now).ongoing == |FilterIncidents(incidents, Ongoing, "", now)|
    ensures UpdateStatistics(incidents, now).resolved == |FilterIncidents(incidents, Resolved, "", now)|
  {
    KeepLength(incidents, StatusIs(Pending, now));
    KeepLength(incidents, StatusIs(Ongoing, now));
    KeepLength(incidents, StatusIs(Resolved, now));
    KeepCongruent(incidents, StatusIs(Pending, now), (inc: Incident) => GetIncidentStatus(inc, now) == Pending);
    KeepCongruent(incidents, StatusIs(Ongoing, now), (inc: Incident) => GetIncidentStatus(inc, now) == Ongoing);
    KeepCongruent(incidents, StatusIs(Resolved, now), (inc: Incident) => GetIncidentStatus(inc, now) == Resolved);
  }

  // ---------------------------------------------------------------------
  // Month grouping in renderIncidents
  // ---------------------------------------------------------------------

  /** The month label of each incident, in list order. */
  function Months(s: seq<Incident>, monthOf: Incident -> string): (r: seq<string>)
    ensures |r| == |s|
    ensures forall i :: 0 <= i < |s| ==> r[i] == monthOf(s[i])
  {
    if s == [] then [] else Months(s[..|s| - 1], monthOf) + [monthOf(s[|s| - 1])]
  }

  predicate Distinct<T(==)>(s: seq<T>)
  {
    forall i, j :: 0 <= i < j < |s| ==> s[i] != s[j]
  }

  /** The distinct values of `s`, each at the place it first occurs. */
  function FirstOccurrences(s: seq<string>): (r: seq<string>)
    ensures Distinct(r)
    ensures forall x :: x in r <==> x in s
  {
    if s == [] then []
    else
      var prefix := FirstOccurrences(s[..|s| - 1]);
      var last := s[|s| - 1];
      assert forall x :: x in s <==> x in s[..|s| - 1] || x == last by {
        assert s == s[..|s| - 1] + [last];
      }
      if last in prefix then prefix else prefix + [last]
  }

  /** The cards of one month. */
  function InMonth(monthOf: Incident -> string, month: string): Incident -> bool
  {
    inc => monthOf(inc) == month
  }

  /** The cards in the order the page emits them: month by month, each month's cards in list order. */
  function Flatten(months: seq<string>, s: seq<Incident>, monthOf: Incident -> string): (r: seq<Incident>)
  {
    if months == [] then [] else Keep(s, InMonth(monthOf, months[0])) + Flatten(months[1..], s, monthOf)
  }

  /** Each listed month's group holds that month's incidents of `s`, in order. */
  predicate GroupsAre(groups: map<string, seq<Incident>>, s: seq<Incident>, monthOf: Incident -> string)
  {
    forall m :: m in groups ==> groups[m] == Keep(s, InMonth(monthOf, m))
  }

  /** The dictionary's keys are exactly the listed months. */
  ghost predicate KeysAre(groups: map<string, seq<Incident>>, months: seq<string>)
  {
    forall m :: m in groups <==> m in months
  }

  /** The loop's state after the incidents of `s`: month order, keys and groups. */
  ghost predicate Grouped(months: seq<string>, groups: map<string, seq<Incident>>,
                          s: seq<Incident>, monthOf: Incident -> string)
  {
    months == FirstOccurrences(Months(s, monthOf)) && KeysAre(groups, months) && GroupsAre(groups, s, monthOf)
  }

  /**
   * The `incidentsByMonth` loop: each incident is pushed onto its month's
   * list, and a month's list is created, after the existing ones, the first
   * time the month is met. `months` is the order of `Object.keys`.
   */
  method GroupByMonth(incidents: seq<Incident>, monthOf: Incident -> string)
    returns (months: seq<string>, groups: map<string, seq<Incident>>)
    ensures months == FirstOccurrences(Months(incidents, monthOf))
    ensures forall m :: m in groups <==> m in months
    ensures forall m :: m in groups ==> groups[m] == Keep(incidents, InMonth(monthOf, m))
  {
    months := [];
    groups := map[];
    var i := 0;
    while i < |incidents|
      invariant 0 <= i <= |incidents|
      invariant Grouped(months, groups, incidents[..i], monthOf)
    {
      var incident := incidents[i];
      var month := monthOf(incident);
      TakeSnoc(incidents, i);
      if month !in groups {
        GroupingStepNew(incidents[..i], incident, monthOf, months, groups);
        groups := groups[month := []];
        months := months + [month];
      } else {
        GroupingStepSeen(incidents[..i], incident, monthOf, months, groups);
      }
      groups := groups[month := groups[month] + [incident]];
      i := i + 1;
    }
    assert incidents[..i] == incidents;
  }

  /** One more incident adds its month at the end of the month order, unless already there. */
  lemma MonthOrderSnoc(prefix: seq<Incident>, x: Incident, monthOf: Incident -> string)
    ensures FirstOccurrences(Months(prefix + [x], monthOf)) ==
            var months := FirstOccurrences(Months(prefix, monthOf));
            if monthOf(x) in months then months else months + [monthOf(x)]
  {
    var s := prefix + [x];
    assert s[..|s| - 1] == prefix;
    assert Months(s, monthOf) == Months(prefix, monthOf) + [monthOf(x)];
    assert Months(s, monthOf)[..|s| - 1] == Months(prefix, monthOf);
  }

  /** An iteration that meets a month already listed keeps the loop's state exact. */
  lemma GroupingStepSeen(prefix: seq<Incident>, x: Incident, monthOf: Incident -> string,
                         months: seq<string>, groups: map<string, seq<Incident>>)
    requires Grouped(months, groups, prefix, monthOf)
    requires monthOf(x) in groups
    ensures Grouped(months, groups[monthOf(x) := groups[monthOf(x)] + [x]], prefix + [x], monthOf)
  {
    MonthOrderSnoc(prefix, x, monthOf);
    GroupPush(prefix, x, monthOf, groups);
    var after := groups[monthOf(x) := groups[monthOf(x)] + [x]];
    assert KeysAre(after, months) by {
      assert forall m :: m in after <==> m in groups;
    }
  }

  /** An iteration that meets a new month lists it last, creates its list and keeps the state exact. */
  lemma GroupingStepNew(prefix: seq<Incident>, x: Incident, monthOf: Incident -> string,
                        months: seq<string>, groups: map<string, seq<Incident>>)
    requires Grouped(months, groups, prefix, monthOf)
    requires monthOf(x) !in groups
    ensures var created := groups[monthOf(x) := []];
            Grouped(months + [monthOf(x)], created[monthOf(x) := created[monthOf(x)] + [x]], prefix + [x], monthOf)
  {
    var m := monthOf(x);
    MonthOrderSnoc(prefix, x, monthOf);
    GroupCreate(prefix, monthOf, groups, m);
    var created := groups[m := []];
    GroupPush(prefix, x, monthOf, created);
    var after := created[m := created[m] + [x]];
    assert KeysAre(after, months + [m]) by {
      assert forall k :: k in after <==> k in groups || k == m;
      assert forall k :: k in months + [m] <==> k in months || k == m;
    }
  }

  /** Creating an empty list for a month not seen yet keeps every group equal to its month's filter. */
  lemma GroupCreate(prefix: seq<Incident>, monthOf: Incident -> string,
                    groups: map<string, seq<Incident>>, month: string)
    requires month !in Months(prefix, monthOf)
    requires GroupsAre(groups, prefix, monthOf)
    ensures GroupsAre(groups[month := []], prefix, monthOf)
  {
    UnusedMonthIsEmpty(prefix, monthOf, month);
  }

  /** Pushing an incident onto its month's list keeps every group equal to its month's filter. */
  lemma GroupPush(prefix: seq<Incident>, x: Incident, monthOf: Incident -> string,
                  groups: map<string, seq<Incident>>)
    requires monthOf(x) in groups
    requires GroupsAre(groups, prefix, monthOf)
    ensures GroupsAre(groups[monthOf(x) := groups[monthOf(x)] + [x]], prefix + [x], monthOf)
  {
    var after := groups[monthOf(x) := groups[monthOf(x)] + [x]];
    forall m | m in after
      ensures after[m] == Keep(prefix + [x], InMonth(monthOf, m))
    {
      KeepSnoc(prefix, x, InMonth(monthOf, m));
    }
  }

  /** Every incident lands in its own month's group and in no other. */
  lemma GroupingIsExact(incidents: seq<Incident>, monthOf: Incident -> string)
    ensures forall x :: x in incidents ==> monthOf(x) in FirstOccurrences(Months(incidents, monthOf))
    ensures forall x, m :: x in Keep(incidents, InMonth(monthOf, m)) <==> x in incidents && monthOf(x) == m
  {
    forall x | x in incidents
      ensures monthOf(x) in Months(incidents, monthOf)
    {
      var i :| 0 <= i < |incidents| && incidents[i] == x;
      assert Months(incidents, monthOf)[i] == monthOf(x);
    }
  }

  /** Each month's cards keep the list order. */
  lemma GroupKeepsOrder(incidents: seq<Incident>, monthOf: Incident -> string, month: string)
    ensures IsSubsequence(Keep(incidents, InMonth(monthOf, month)), incidents)
  {
    KeepIsSubsequence(incidents, InMonth(monthOf, month));
  }

  /** Adding a month at the end of the month order adds that month's cards at the end. */
  lemma {:induction false} FlattenSnocMonth(months: seq<string>, month: string, s: seq<Incident>, monthOf: Incident -> string)
    ensures Flatten(months + [month], s, monthOf) == Flatten(months, s, monthOf) + Keep(s, InMonth(monthOf, month))
  {
    if months != [] {
      assert (months + [month])[1..] == months[1..] + [month];
      FlattenSnocMonth(months[1..], month, s, monthOf);
    }
  }

  /** One more incident adds it exactly once, under its month, when that month is listed. */
  lemma {:induction false} FlattenSnocIncident(months: seq<string>, s: seq<Incident>, x: Incident, monthOf: Incident -> string)
    requires Distinct(months)
    ensures multiset(Flatten(months, s + [x], monthOf)) ==
            multiset(Flatten(months, s, monthOf)) + (if monthOf(x) in months then multiset{x} else multiset{})
  {
    if months != [] {
      var head := months[0];
      var rest := months[1..];
      var p := InMonth(monthOf, head);
      DistinctTail(months);
      FlattenSnocIncident(rest, s, x, monthOf);
      KeepSnoc(s, x, p);
      assert Flatten(months, s + [x], monthOf) == Keep(s + [x], p) + Flatten(rest, s + [x], monthOf);
      assert Flatten(months, s, monthOf) == Keep(s, p) + Flatten(rest, s, monthOf);
      if monthOf(x) == head {
        assert Keep(s + [x], p) == Keep(s, p) + [x];
        assert monthOf(x) !in rest;
      } else {
        assert Keep(s + [x], p) == Keep(s, p);
      }
    }
  }

  /** The tail of a list without repetitions has none, and does not hold the head. */
  lemma DistinctTail<T>(s: seq<T>)
    requires s != [] && Distinct(s)
    ensures Distinct(s[1..]) && s[0] !in s[1..]
    ensures forall y :: y in s <==> y == s[0] || y in s[1..]
  {
    assert s == [s[0]] + s[1..];
  }

  /** A month no incident has contributes no cards. */
  lemma UnusedMonthIsEmpty(s: seq<Incident>, monthOf: Incident -> string, month: string)
    requires month !in Months(s, monthOf)
    ensures Keep(s, InMonth(monthOf, month)) == []
  {
    var k := Keep(s, InMonth(monthOf, month));
    assert forall i :: 0 <= i < |s| ==> Months(s, monthOf)[i] != month;
    assert forall y :: y in s ==> monthOf(y) != month;
  }

  /**
   * The page emits every incident exactly once: the cards, month by month,
   * are a permutation of the list.
   */
  lemma {:induction false} GroupingIsPermutation(s: seq<Incident>, monthOf: Incident -> string)
    ensures multiset(Flatten(FirstOccurrences(Months(s, monthOf)), s, monthOf)) == multiset(s)
  {
    if s != [] {
      var p := s[..|s| - 1];
      TakeSnoc(s, |s| - 1);
      GroupingIsPermutation(p, monthOf);
      PermutationStep(p, s[|s| - 1], monthOf);
    }
  }

  /** One more incident keeps the emitted cards a permutation of the list. */
  lemma PermutationStep(p: seq<Incident>, x: Incident, monthOf: Incident -> string)
    requires multiset(Flatten(FirstOccurrences(Months(p, monthOf)), p, monthOf)) == multiset(p)
    ensures multiset(Flatten(FirstOccurrences(Months(p + [x], monthOf)), p + [x], monthOf)) == multiset(p + [x])
  {
    var before := FirstOccurrences(Months(p, monthOf));
    MonthOrderSnoc(p, x, monthOf);
    FlattenSnocIncident(before, p, x, monthOf);
    assert multiset(p + [x]) == multiset(p) + multiset{x};
    if monthOf(x) !in before {
      NewMonthCards(before, p, x, monthOf);
    }
  }

  /** A month met for the first time contributes exactly the new incident, at the end. */
  lemma NewMonthCards(months: seq<string>, p: seq<Incident>, x: Incident, monthOf: Incident -> string)
    requires monthOf(x) !in Months(p, monthOf)
    ensures Flatten(months + [monthOf(x)], p + [x], monthOf) == Flatten(months, p + [x], monthOf) + [x]
  {
    var inMonth := InMonth(monthOf, monthOf(x));
    FlattenSnocMonth(months, monthOf(x), p + [x], monthOf);
    UnusedMonthIsEmpty(p, monthOf, monthOf(x));
    KeepSnoc(p, x, inMonth);
  }

  /** `IndexOf` of an element already present is unchanged by appending. */
  lemma {:induction false} IndexOfSnoc(s: seq<string>, y: string, x: string)
    ensures x in s ==> IndexOf(s + [y], x) == IndexOf(s, x)
    ensures x !in s && x == y ==> IndexOf(s + [y], x) == |s|
  {
    if s != [] {
      assert (s + [y])[1..] == s[1..] + [y];
      IndexOfSnoc(s[1..], y, x);
      assert x in s <==> x == s[0] || x in s[1..] by {
        assert s == [s[0]] + s[1..];
      }
    } else {
      assert [y][0] == y;
    }
  }

  /** The months appear in order of their first occurrence in the list. */
  lemma {:induction false} FirstOccurrenceOrder(s: seq<string>)
    ensures forall i, j :: 0 <= i < j < |FirstOccurrences(s)| ==>
              IndexOf(s, FirstOccurrences(s)[i]) < IndexOf(s, FirstOccurrences(s)[j])
  {
    if s != [] {
      var p := s[..|s| - 1];
      var last := s[|s| - 1];
      assert s == p + [last];
      FirstOccurrenceOrder(p);
      var before := FirstOccurrences(p);
      forall k | k in before
        ensures IndexOf(s, k) == IndexOf(p, k) < |p|
      {
        IndexOfSnoc(p, last, k);
      }
      IndexOfSnoc(p, last, last);
    }
  }

  // ---------------------------------------------------------------------
  // The status a card carries (data-status and the rating button)
  // ---------------------------------------------------------------------

  /** What a card shows of its status: `data-status`, the badge, and the 'Rate Response' button. */
  datatype Card = Card(dataStatus: string, badge: StatusInfo, rateButton: bool)

  /**
   * A status string read as an object: it has no `status` and no
   * `created_at` property, so both read as undefined.
   */
  function StringAsIncident(s: string): (r: Incident)
    ensures !HasStatus(r) && r.createdAt.None?
  {
    Incident("", "", "", None, "", None, None, None, None)
  }

  /**
   * The card status as the list code computes it, by passing the status
   * string where the incident is expected. A null or missing status makes
   * the property access throw: `None`.
   */
  function RenderCardAsWritten(inc: Incident, now: int): (c: Option<Card>)
    ensures inc.status.None? <==> c.None?
  {
    match inc.status
    case None => None
    case Some(s) =>
      var status := GetIncidentStatus(StringAsIncident(s), now);
      Some(Card(status, GetStatusInfo(KeyOf(inc.status)), status == Resolved))
  }

  /** As written, every card that renders is marked resolved and offers a rating. */
  lemma CardAsWrittenAlwaysResolved(inc: Incident, now: int)
    requires inc.status.Some?
    ensures RenderCardAsWritten(inc, now).Some?
    ensures RenderCardAsWritten(inc, now).value.dataStatus == Resolved
    ensures RenderCardAsWritten(inc, now).value.rateButton
  {
  }

  /** A pending incident, badged PENDING, still offers 'Rate Response' as written. */
  lemma PendingCardOffersRating(now: int)
    ensures var inc := Incident("a1", "fire", "high", Some(Pending), "smoke", None, None, Some(now), None);
            GetIncidentStatus(inc, now) == Pending &&
            RenderCardAsWritten(inc, now) == Some(Card(Resolved, StatusTable[Pending], true))
  {
  }

  /** The card status as intended: the incident's own resolved status, as the detail view uses. */
  function RenderCard(inc: Incident, now: int): (c: Card)
    ensures c.dataStatus == GetIncidentStatus(inc, now)
    ensures c.rateButton <==> GetIncidentStatus(inc, now) == Resolved
  {
    var status := GetIncidentStatus(inc, now);
    Card(status, GetStatusInfo(KeyOf(inc.status)), status == Resolved)
  }

  /**
   * With the intended status, a card offers a rating exactly when it is
   * among the cards the 'resolved' chip shows, and its `data-status` names
   * the chip that shows it.
   */
  lemma CardAgreesWithChips(all: seq<Incident>, inc: Incident, chip: string, now: int)
    requires inc in all && chip != "all"
    ensures inc in FilterIncidents(all, chip, "", now) <==> RenderCard(inc, now).dataStatus == chip
    ensures RenderCard(inc, now).rateButton <==> inc in FilterIncidents(all, Resolved, "", now)
  {
  }

  // ---------------------------------------------------------------------
  // Page state
  // ---------------------------------------------------------------------

  /** A page the incident endpoint delivers: its incidents and `pagination.has_next`. */
  datatype Page = Page(incidents: seq<Incident>, hasNext: bool)

  /**
   * `renderIncidents` throws: some card to render has a null or missing
   * status, and reading a property of it fails before the list is written.
   */
  function RenderThrows(shown: seq<Incident>, now: int): (b: bool)
    ensures b <==> exists i :: 0 <= i < |shown| && RenderCardAsWritten(shown[i], now).None?
  {
    FindIndex(shown, (x: Incident) => x.status.None?) != -1
  }

  /**
   * The cards are rendered month by month, not in list order; whether the
   * render throws is the same either way.
   */
  lemma RenderThrowsInCardOrder(s: seq<Incident>, monthOf: Incident -> string, now: int)
    ensures RenderThrows(Flatten(FirstOccurrences(Months(s, monthOf)), s, monthOf), now) == RenderThrows(s, now)
  {
    var cards := Flatten(FirstOccurrences(Months(s, monthOf)), s, monthOf);
    GroupingIsPermutation(s, monthOf);
    if RenderThrows(s, now) {
      var i :| 0 <= i < |s| && RenderCardAsWritten(s[i], now).None?;
      assert s[i] in multiset(cards);
      var j :| 0 <= j < |cards| && cards[j] == s[i];
      assert RenderCardAsWritten(cards[j], now).None?;
    }
    if RenderThrows(cards, now) {
      var j :| 0 <= j < |cards| && RenderCardAsWritten(cards[j], now).None?;
      assert cards[j] in multiset(s);
      var i :| 0 <= i < |s| && s[i] == cards[j];
      assert RenderCardAsWritten(s[i], now).None?;
    }
  }

  /** The carousel step: by `direction`, wrapping below 0 to the last image and past the end to the first. */
  function NavigatedIndex(index: int, direction: int, count: int): (r: int)
    requires count > 1
    ensures 0 <= r < count
    ensures 0 <= index + direction < count ==> r == index + direction
    ensures index + direction < 0 ==> r == count - 1
    ensures index + direction >= count ==> r == 0
  {
    var i := index + direction;
    if i < 0 then count - 1 else if i >= count then 0 else i
  }

  /** From a shown image, a single step either way is a step modulo the number of images. */
  lemma NavigationIsModular(index: int, direction: int, count: int)
    requires count > 1 && 0 <= index < count && (direction == 1 || direction == -1)
    ensures NavigatedIndex(index, direction, count) == (index + direction) % count
  {
    if index + direction == count {
      assert (index + direction) % count == 0;
    } else if index + direction == -1 {
      assert (index + direction) % count == count - 1;
    } else {
      assert (index + direction) % count == index + direction;
    }
  }

  /** Next then previous returns to the image shown. */
  lemma NavigationRoundTrip(index: int, count: int)
    requires count > 1 && 0 <= index < count
    ensures NavigatedIndex(NavigatedIndex(index, 1, count), -1, count) == index
    ensures NavigatedIndex(NavigatedIndex(index, -1, count), 1, count) == index
  {
  }

  /**
   * The module state of the history page, with the statistics on screen
   * (`None`: the figures of the page markup, before any list was shown).
   */
  class HistoryView {
    var allIncidents: seq<Incident>
    var filteredIncidents: seq<Incident>
    var currentPage: int
    var hasMorePages: bool
    var currentImages: seq<string>
    var currentImageIndex: int
    var shownStats: Option<Stats>

    /** The state at script load. */
    constructor ()
      ensures allIncidents == [] && filteredIncidents == []
      ensures currentPage == 1 && hasMorePages
      ensures currentImages == [] && currentImageIndex == 0
      ensures shownStats.None?
    {
      allIncidents := [];
      filteredIncidents := [];
      currentPage := 1;
      hasMorePages := true;
      currentImages := [];
      currentImageIndex := 0;
      shownStats := None;
    }

    /**
     * `filterIncidents`: the shown list becomes the filter of the loaded
     * incidents; when rendering it does not throw, the statistics on
     * screen become its statistics, and when it throws they stay as they
     * were and the throw is reported.
     */
    method ApplyFilters(filter: string, searchTerm: string, now: int) returns (threw: bool)
      modifies this
      ensures filteredIncidents == FilterIncidents(allIncidents, filter, searchTerm, now)
      ensures threw <==> RenderThrows(filteredIncidents, now)
      ensures !threw ==> shownStats == Some(UpdateStatistics(filteredIncidents, now))
      ensures threw ==> shownStats == old(shownStats)
      ensures allIncidents == old(allIncidents) && currentPage == old(currentPage)
      ensures hasMorePages == old(hasMorePages)
      ensures currentImages == old(currentImages) && currentImageIndex == old(currentImageIndex)
    {
      filteredIncidents := FilterIncidents(allIncidents, filter, searchTerm, now);
      threw := RenderThrows(filteredIncidents, now);
      if !threw {
        shownStats := Some(UpdateStatistics(filteredIncidents, now));
      }
    }

    /**
     * `initializePage` given the response for the current page: a delivered
     * page replaces the loaded incidents and shows them all; the error view
     * is shown when the request throws, when the answer is unsuccessful, and
     * when rendering the delivered list throws.
     */
    method Initialize(response: Response<Page>, now: int) returns (error: bool)
      modifies this
      ensures error <==> !response.Succeeded? || RenderThrows(response.data.incidents, now)
      ensures response.Succeeded? ==>
                allIncidents == response.data.incidents && hasMorePages == response.data.hasNext &&
                filteredIncidents == response.data.incidents
      ensures !response.Succeeded? ==>
                allIncidents == old(allIncidents) && hasMorePages == old(hasMorePages) &&
                filteredIncidents == old(filteredIncidents)
      ensures !error ==> shownStats == Some(UpdateStatistics(allIncidents, now))
      ensures error ==> shownStats == old(shownStats)
      ensures currentPage == old(currentPage)
      ensures currentImages == old(currentImages) && currentImageIndex == old(currentImageIndex)
    {
      if !response.Succeeded? {
        return true;
      }
      allIncidents := response.data.incidents;
      hasMorePages := response.data.hasNext;
      FilterAllEmptyIsIdentity(allIncidents, now);
      error := ApplyFilters("all", "", now);
    }

    /**
     * `loadMoreIncidents` given the response for the page it requests: a
     * no-op without more pages; otherwise the page number advances whatever
     * the outcome, a delivered page is appended and the current filters
     * re-applied, and an unsuccessful answer changes nothing more. The
     * error dialog appears when the request throws or rendering throws.
     */
    method LoadMoreIncidents(response: Response<Page>, filter: string, searchTerm: string, now: int)
      returns (requested: Option<int>, error: bool)
      modifies this
      ensures !old(hasMorePages) ==>
                requested.None? && allIncidents == old(allIncidents) && currentPage == old(currentPage) &&
                hasMorePages == old(hasMorePages) && filteredIncidents == old(filteredIncidents)
      ensures old(hasMorePages) ==> currentPage == old(currentPage) + 1 && requested == Some(currentPage)
      ensures error <==>
                old(hasMorePages) &&
                (response.Threw? || (response.Succeeded? && RenderThrows(filteredIncidents, now)))
      ensures old(hasMorePages) && response.Succeeded? ==>
                allIncidents == old(allIncidents) + response.data.incidents &&
                hasMorePages == response.data.hasNext &&
                filteredIncidents == FilterIncidents(allIncidents, filter, searchTerm, now)
      ensures old(hasMorePages) && response.Succeeded? && !error ==>
                shownStats == Some(UpdateStatistics(filteredIncidents, now))
      ensures !(old(hasMorePages) && response.Succeeded?) ==>
                allIncidents == old(allIncidents) && hasMorePages == old(hasMorePages) &&
                filteredIncidents == old(filteredIncidents)
      ensures error || !(old(hasMorePages) && response.Succeeded?) ==> shownStats == old(shownStats)
      ensures currentImages == old(currentImages) && currentImageIndex == old(currentImageIndex)
    {
      error := false;
      if !hasMorePages {
        return None, false;
      }
      currentPage := currentPage + 1;
      requested := Some(currentPage);
      match response
      case Threw =>
        error := true;
      case Unsuccessful =>
      case Succeeded(page) =>
        allIncidents := allIncidents + page.incidents;
        hasMorePages := page.hasNext;
        error := ApplyFilters(filter, searchTerm, now);
    }

    /** `previewImage`: the gallery becomes `images`, positioned at the first copy of `imageSrc` (or -1). */
    method PreviewImage(imageSrc: string, images: seq<string>)
      modifies this
      ensures currentImages == images
      ensures imageSrc in images ==>
                0 <= currentImageIndex < |currentImages| && currentImages[currentImageIndex] == imageSrc
      ensures imageSrc !in images ==> currentImageIndex == -1
      ensures imageSrc in images ==> imageSrc !in images[..currentImageIndex]
      ensures allIncidents == old(allIncidents) && filteredIncidents == old(filteredIncidents)
      ensures shownStats == old(shownStats)
      ensures currentPage == old(currentPage) && hasMorePages == old(hasMorePages)
    {
      currentImages := images;
      currentImageIndex := IndexOf(images, imageSrc);
    }

    /** `navigateImage`: nothing with at most one image; otherwise a wrapping step. */
    method NavigateImage(direction: int)
      modifies this
      ensures |old(currentImages)| <= 1 ==> currentImageIndex == old(currentImageIndex)
      ensures |old(currentImages)| > 1 ==>
                currentImageIndex == NavigatedIndex(old(currentImageIndex), direction, |old(currentImages)|)
      ensures |old(currentImages)| > 1 ==> 0 <= currentImageIndex < |currentImages|
      ensures currentImages == old(currentImages)
      ensures allIncidents == old(allIncidents) && filteredIncidents == old(filteredIncidents)
      ensures shownStats == old(shownStats)
      ensures currentPage == old(currentPage) && hasMorePages == old(hasMorePages)
    {
      if |currentImages| <= 1 {
        return;
      }
      currentImageIndex := currentImageIndex + direction;
      if currentImageIndex < 0 {
        currentImageIndex := |currentImages| - 1;
      }
      if currentImageIndex >= |currentImages| {
        currentImageIndex := 0;
      }
    }

    /** `closeImagePreview`: an empty gallery at index 0. */
    method CloseImagePreview()
      modifies this
      ensures currentImages == [] && currentImageIndex == 0
      ensures allIncidents == old(allIncidents) && filteredIncidents == old(filteredIncidents)
      ensures shownStats == old(shownStats)
      ensures currentPage == old(currentPage) && hasMorePages == old(hasMorePages)
    {
      currentImages := [];
      currentImageIndex := 0;
    }
  }
}
