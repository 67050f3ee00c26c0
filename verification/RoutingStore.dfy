/** The stored routing table of every node: its entries are rewritten only when the content hash of
    a report differs from the stored one, and every report leaves a churn event. The hash is taken
    to be injective, so it is modelled by the routes it is computed from. */
module RoutingStore {
  import opened Wrappers
  import opened RoutingAggregate

  const HISTORY_KEEP := 500

  datatype Observation = NotObserved | Unavailable | Observed

  datatype Snapshot = Snapshot(observation: Observation, captured: Option<nat>, routes: seq<Route>,
                               prefilter: Option<string>)

  // ----- routes as dictionaries, and as rows of the entry table -----

  /** A key of a dictionary: absent, null, or with a value. */
  datatype Field<T> = Absent | Null | Value(value: T)

  /** What `origin_asn` may hold. */
  datatype Origin = Number(n: int) | Text(s: string)

  datatype RouteDict = RouteDict(
    prefix: Field<string>, origin: Field<Origin>, asPath: Field<seq<nat>>, nextHop: Field<string>,
    protocol: Field<string>, primary: Field<bool>, local: Field<bool>, communities: Field<seq<string>>,
    largeCommunities: Field<seq<string>>, rpki: Field<string>)

  /** The columns of the table; None is NULL. */
  datatype Entry = Entry(
    prefix: string, isV6: bool, local: bool, primary: bool, origin: Option<int>, protocol: Option<string>,
    rpki: Option<string>, nextHop: Option<string>, asPath: Option<seq<nat>>, communities: Option<seq<string>>,
    largeCommunities: Option<seq<string>>)

  /** `dict.get`, and `dict.get(...) or fallback`. */
  function Get<T>(f: Field<T>): Option<T> {
    if f.Value? then Some(f.value) else None
  }

  function GetOr<T>(f: Field<T>, fallback: T): T {
    if f.Value? then f.value else fallback
  }

  function Nullable<T>(x: Option<T>): Field<T> {
    if x.Some? then Value(x.value) else Null
  }

  /** `_route_to_entry`. */
  function ToEntry(d: RouteDict): Entry {
    var prefix := GetOr(d.prefix, "");
    Entry(prefix, IsV6(prefix), GetOr(d.local, false), GetOr(d.primary, false),
          if d.origin.Value? && d.origin.value.Number? then Some(d.origin.value.n) else None,
          Get(d.protocol), Get(d.rpki), Get(d.nextHop), Some(GetOr(d.asPath, [])),
          Some(GetOr(d.communities, [])), Some(GetOr(d.largeCommunities, [])))
  }

  function Listed<T>(x: Option<seq<T>>): Field<seq<T>> {
    Value(if x.Some? then x.value else [])
  }

  /** `_entry_to_dict`. */
  function FromEntry(e: Entry): RouteDict {
    RouteDict(Value(e.prefix), if e.origin.Some? then Value(Number(e.origin.value)) else Null, Listed(e.asPath),
              Nullable(e.nextHop), Nullable(e.protocol), Value(e.primary), Value(e.local), Listed(e.communities),
              Listed(e.largeCommunities), Nullable(e.rpki))
  }

  /** Every key is there, none is null that has a default, and the origin is a number or null. */
  predicate Canonical(d: RouteDict) {
    && d.prefix.Value? && d.primary.Value? && d.local.Value?
    && d.asPath.Value? && d.communities.Value? && d.largeCommunities.Value?
    && !d.nextHop.Absent? && !d.protocol.Absent? && !d.rpki.Absent?
    && (d.origin.Null? || (d.origin.Value? && d.origin.value.Number?))
  }

  /** Writing a dictionary and reading it back is the identity exactly on the canonical ones, and
      what is read is always canonical. */
  lemma EntryRoundTripIff(d: RouteDict)
    ensures FromEntry(ToEntry(d)) == d <==> Canonical(d)
    ensures Canonical(FromEntry(ToEntry(d)))
    ensures ToEntry(d).isV6 <==> d.prefix.Value? && ':' in d.prefix.value
  {
  }

  /** And the other way round: only a row whose family is that of its prefix, with no NULL list, is
      what its own reading would be written as. */
  lemma RowRoundTripIff(e: Entry)
    ensures ToEntry(FromEntry(e)) == e <==>
      e.isV6 == IsV6(e.prefix) && e.asPath.Some? && e.communities.Some? && e.largeCommunities.Some?
  {
  }

  /** `model_dump(mode="json")` of an observed route. */
  function Dump(r: Route): RouteDict {
    RouteDict(Value(r.prefix), if r.origin.Some? then Value(Number(r.origin.value)) else Null, Value(r.asPath),
              Nullable(r.nextHop), Nullable(r.protocol), Value(r.primary), Value(r.local), Value(r.communities),
              Value(r.largeCommunities), Nullable(r.rpki))
  }

  /** A dump loses nothing, and it reads back from its row. */
  lemma DumpReadsBack(r: Route, other: Route)
    ensures Canonical(Dump(r)) && FromEntry(ToEntry(Dump(r))) == Dump(r)
    ensures Dump(r) == Dump(other) <==> r == other
  {
    EntryRoundTripIff(Dump(r));
  }

  function Dumps(routes: seq<Route>): (r: seq<RouteDict>)
    ensures |r| == |routes| && forall i :: 0 <= i < |r| ==> r[i] == Dump(routes[i])
  {
    seq(|routes|, i requires 0 <= i < |routes| => Dump(routes[i]))
  }

  // ----- the row of a node -----

  datatype Event = Event(captured: Option<nat>, routeCount: nat, announced: nat, withdrawn: nat)

  datatype Row = Row(observation: Observation, captured: Option<nat>, aggregates: Aggregates,
                     hash: Option<seq<RouteDict>>, entries: seq<Entry>, events: seq<Event>)

  const FRESH := Row(NotObserved, None, NOTHING, None, [], [])

  function ToEntries(dicts: seq<RouteDict>): (r: seq<Entry>)
    ensures |r| == |dicts| && forall i :: 0 <= i < |r| ==> r[i] == ToEntry(dicts[i])
  {
    seq(|dicts|, i requires 0 <= i < |dicts| => ToEntry(dicts[i]))
  }

  function FromEntries(entries: seq<Entry>): (r: seq<RouteDict>)
    ensures |r| == |entries| && forall i :: 0 <= i < |r| ==> r[i] == FromEntry(entries[i])
  {
    seq(|entries|, i requires 0 <= i < |entries| => FromEntry(entries[i]))
  }

  /** The distinct prefixes of the entry table. */
  function EntryPrefixes(entries: seq<Entry>): set<string> {
    set e | e in entries :: e.prefix
  }

  function Trimmed(events: seq<Event>): seq<Event> {
    if |events| > HISTORY_KEEP then events[|events| - HISTORY_KEEP..] else events
  }

  /** Whether the entry table has to be rewritten; `gated` switches the hash gate off. */
  predicate Rewrites(row: Row, s: Snapshot, gated: bool) {
    !gated || row.hash != Some(Dumps(s.routes))
  }

  function Churn(row: Row, s: Snapshot, gated: bool): (nat, nat) {
    if Rewrites(row, s, gated) then DiffPrefixSets(EntryPrefixes(row.entries), PrefixSet(s.routes)) else (0, 0)
  }

  /** A row after a report, given the statistics of its routes. */
  function After(row: Row, s: Snapshot, a: Aggregates, gated: bool): Row {
    var noted := row.(observation := s.observation, captured := if s.captured.Some? then s.captured else row.captured);
    if !s.observation.Observed? then noted
    else
      var churn := Churn(row, s, gated);
      noted.(aggregates := a.(prefilter := s.prefilter), hash := Some(Dumps(s.routes)),
             entries := if Rewrites(row, s, gated) then ToEntries(Dumps(s.routes)) else row.entries,
             events := Trimmed(row.events + [Event(s.captured, a.count, churn.0, churn.1)]))
  }

  /** The statistics a report is stored with. */
  ghost predicate StatsOf(a: Aggregates, routes: seq<Route>) {
    Describes(a, BestRoutes(routes)) && a.count == |Prefixes(routes)|
  }

  /** The table the row stands for: the routes of the last report that observed one. */
  ghost predicate Holds(row: Row, table: seq<Route>) {
    && row.entries == ToEntries(Dumps(table))
    && (row.hash.Some? ==> row.hash.value == Dumps(table))
    && (row.hash.None? ==> table == [])
    && row.aggregates.count == |Prefixes(table)|
  }

  lemma FreshHoldsNothing()
    ensures Holds(FRESH, []) && Consistent(FRESH.aggregates)
  {
    assert Prefixes([]) == {};
  }

  /** The rows read back as the dumps they were written from, with the prefixes of the routes. */
  lemma TableReadsBack(routes: seq<Route>)
    ensures FromEntries(ToEntries(Dumps(routes))) == Dumps(routes)
    ensures EntryPrefixes(ToEntries(Dumps(routes))) == Prefixes(routes)
  {
    var entries := ToEntries(Dumps(routes));
    forall i | 0 <= i < |routes| ensures FromEntry(entries[i]) == Dump(routes[i]) && entries[i].prefix == routes[i].prefix {
      DumpReadsBack(routes[i], routes[i]);
    }
    forall p | p in Prefixes(routes) ensures p in EntryPrefixes(entries) {
      var r :| r in routes && r.prefix == p;
      var i :| 0 <= i < |routes| && routes[i] == r;
      assert entries[i] in entries;
    }
    forall e | e in entries ensures e.prefix in Prefixes(routes) {
      var i :| 0 <= i < |entries| && entries[i] == e;
      assert routes[i] in routes;
    }
  }

  /** Equal dumps are equal tables, so an unchanged hash means an unchanged table. */
  lemma SameDumps(a: seq<Route>, b: seq<Route>)
    ensures Dumps(a) == Dumps(b) <==> a == b
  {
    if Dumps(a) == Dumps(b) {
      forall i | 0 <= i < |a| ensures a[i] == b[i] {
        assert Dumps(a)[i] == Dumps(b)[i];
        DumpReadsBack(a[i], b[i]);
      }
    }
  }

  /** The table after a report. */
  function Latest(table: seq<Route>, s: Snapshot): seq<Route> {
    if s.observation.Observed? then s.routes else table
  }

  /** What one report makes of a row, whichever way it is computed: an unobserved one leaves a mark
      alone; any other replaces the table, and its event counts the prefixes that came and those that
      went. The latest 500 events are kept. */
  ghost predicate Reported(before: Row, table: seq<Route>, s: Snapshot, after: Row) {
    && after.observation == s.observation
    && after.captured == (if s.captured.Some? then s.captured else before.captured)
    && if !s.observation.Observed? then
         after == before.(observation := after.observation, captured := after.captured)
       else
         var came, went := Prefixes(s.routes) - Prefixes(table), Prefixes(table) - Prefixes(s.routes);
         var events := before.events + [Event(s.captured, |Prefixes(s.routes)|, |came|, |went|)];
         && FromEntries(after.entries) == Dumps(s.routes)
         && after.hash == Some(Dumps(s.routes))
         && after.aggregates.prefilter == s.prefilter && after.aggregates.count == |Prefixes(s.routes)|
         && after.events == (if |events| <= 500 then events else events[|events| - 500..])
  }

  /** Gated or not, a report leaves the row standing for the latest observed table, and its event
      balances: announced less withdrawn is the change in the number of prefixes. */
  lemma ReportKeeps(row: Row, table: seq<Route>, s: Snapshot, a: Aggregates, gated: bool)
    requires Holds(row, table) && (s.observation.Observed? ==> StatsOf(a, s.routes))
    ensures Holds(After(row, s, a, gated), Latest(table, s))
    ensures Reported(row, table, s, After(row, s, a, gated))
    ensures s.observation.Observed? ==> LatestNet(After(row, s, a, gated)) == |Prefixes(s.routes)| - |Prefixes(table)|
    ensures After(row, s, a, true) == After(row, s, a, false)
  {
    hide Describes, BestRoutes, Dumps, ToEntries, FromEntries, Prefixes, EntryPrefixes, DiffPrefixSets, Reported, LatestNet;
    TableReadsBack(table);
    TableReadsBack(s.routes);
    SameDumps(table, s.routes);
    BestAreDistinct(s.routes);
    if row.hash == Some(Dumps(s.routes)) {
      GateIsInvisible(row, table, s);
    }
    ChurnIs(row, table, s, gated);
    EventIs(row, table, s, a, gated);
  }

  /** Whether it is computed or skipped: the prefixes that came and those that went. */
  lemma ChurnIs(row: Row, table: seq<Route>, s: Snapshot, gated: bool)
    requires Holds(row, table)
    ensures Churn(row, s, gated) == (|Prefixes(s.routes) - Prefixes(table)|, |Prefixes(table) - Prefixes(s.routes)|)
  {
    hide BestRoutes, Dumps, ToEntries, EntryPrefixes, Prefixes;
    TableReadsBack(table);
    SameDumps(table, s.routes);
    BestAreDistinct(s.routes);
    ChurnBalances(Prefixes(table), Prefixes(s.routes));
  }

  lemma EventIs(row: Row, table: seq<Route>, s: Snapshot, a: Aggregates, gated: bool)
    requires Holds(row, table) && (s.observation.Observed? ==> StatsOf(a, s.routes))
    requires Churn(row, s, gated) == (|Prefixes(s.routes) - Prefixes(table)|, |Prefixes(table) - Prefixes(s.routes)|)
    requires s.observation.Observed? ==>
      After(row, s, a, gated).entries == ToEntries(Dumps(s.routes)) && FromEntries(ToEntries(Dumps(s.routes))) == Dumps(s.routes)
    ensures Reported(row, table, s, After(row, s, a, gated))
    ensures s.observation.Observed? ==> LatestNet(After(row, s, a, gated)) == |Prefixes(s.routes)| - |Prefixes(table)|
  {
    hide Describes, BestRoutes, Dumps, ToEntries, FromEntries, Prefixes, EntryPrefixes, DiffPrefixSets, Churn, Rewrites, Holds;
    ChurnBalances(Prefixes(table), Prefixes(s.routes));
    CountsDiffer(Prefixes(table), Prefixes(s.routes));
  }

  lemma CountsDiffer(a: set<string>, b: set<string>)
    ensures |b - a| - |a - b| == |b| - |a|
  {
    ChurnBalances(a, b);
  }

  /** Where the gate holds back the rewriting, it would have changed nothing. */
  lemma GateIsInvisible(row: Row, table: seq<Route>, s: Snapshot)
    requires Holds(row, table) && row.hash == Some(Dumps(s.routes))
    ensures row.entries == ToEntries(Dumps(s.routes)) && Churn(row, s, false) == (0, 0)
  {
    hide BestRoutes, Dumps, ToEntries, EntryPrefixes, DiffPrefixSets, Prefixes;
    TableReadsBack(table);
    SameDumps(table, s.routes);
    BestAreDistinct(s.routes);
    ChurnBalances(Prefixes(table), Prefixes(s.routes));
  }

  // ----- whole runs -----

  /** A report with the statistics it was stored with. */
  datatype Stored = Stored(snapshot: Snapshot, stats: Aggregates)

  ghost predicate Honest(run: seq<Stored>) {
    forall x :: x in run && x.snapshot.observation.Observed? ==> StatsOf(x.stats, x.snapshot.routes)
  }

  function Run(row: Row, run: seq<Stored>, gated: bool): Row
    decreases |run|
  {
    if run == [] then row else Run(After(row, run[0].snapshot, run[0].stats, gated), run[1..], gated)
  }

  function LatestOf(table: seq<Route>, run: seq<Stored>): seq<Route>
    decreases |run|
  {
    if run == [] then table else LatestOf(Latest(table, run[0].snapshot), run[1..])
  }

  /** What the latest event of a row says: announced less withdrawn. */
  function LatestNet(row: Row): int {
    if row.events == [] then 0
    else row.events[|row.events| - 1].announced - row.events[|row.events| - 1].withdrawn
  }

  /** The events of a whole run added up, each as it was stored, trimmed from history or not. */
  function NetChurn(row: Row, run: seq<Stored>, gated: bool): int
    decreases |run|
  {
    if run == [] then 0
    else
      var next := After(row, run[0].snapshot, run[0].stats, gated);
      (if run[0].snapshot.observation.Observed? then LatestNet(next) else 0) + NetChurn(next, run[1..], gated)
  }

  lemma {:induction false} RunKeeps(row: Row, table: seq<Route>, run: seq<Stored>, gated: bool)
    requires Holds(row, table) && Honest(run)
    ensures Holds(Run(row, run, gated), LatestOf(table, run))
    ensures NetChurn(row, run, gated) == |Prefixes(LatestOf(table, run))| - |Prefixes(table)|
    ensures Run(row, run, true) == Run(row, run, false)
    decreases |run|
  {
    hide Holds, After, Churn, StatsOf;
    if run != [] {
      var x := run[0];
      assert forall y :: y in run[1..] ==> y in run;
      ReportKeeps(row, table, x.snapshot, x.stats, gated);
      ReportKeeps(row, table, x.snapshot, x.stats, true);
      ReportKeeps(row, table, x.snapshot, x.stats, false);
      RunKeeps(After(row, x.snapshot, x.stats, gated), Latest(table, x.snapshot), run[1..], gated);
    }
  }

  /** After any run of reports the gated store is the ungated one: its entries read back as the last
      observed table, failed observations having left them alone, and the net churn of the whole run
      is the number of prefixes held, which is the stored route count. */
  lemma GatedEqualsUngated(run: seq<Stored>)
    requires Honest(run)
    ensures var row := Run(FRESH, run, true);
      && row == Run(FRESH, run, false)
      && FromEntries(row.entries) == Dumps(LatestOf([], run))
      && NetChurn(FRESH, run, true) == |EntryPrefixes(row.entries)| == row.aggregates.count
      && Consistent(row.aggregates)
  {
    hide *;
    FreshHoldsNothing();
    RunFrom(FRESH, run);
  }

  lemma RunFrom(row: Row, run: seq<Stored>)
    requires Holds(row, []) && Consistent(row.aggregates) && Honest(run)
    ensures var last := Run(row, run, true);
      && last == Run(row, run, false)
      && FromEntries(last.entries) == Dumps(LatestOf([], run))
      && NetChurn(row, run, true) == |EntryPrefixes(last.entries)| == last.aggregates.count
      && Consistent(last.aggregates)
  {
    assert Prefixes([]) == {};
    hide Honest, After, Dumps, ToEntries, FromEntries, Run, LatestOf, NetChurn, Consistent, Prefixes, EntryPrefixes;
    RunIsConsistent(row, run, true);
    RunKeeps(row, [], run, true);
    TableReadsBack(LatestOf([], run));
  }

  /** The stored statistics add up to the stored count. */
  ghost predicate Consistent(a: Aggregates) {
    && a.count == a.count4 + a.count6 == |a.lengths4| + |a.lengths6| == |a.pathLengths| == a.localCount + a.nonLocal
    && RpkiSum(a.rpki) <= a.nonLocal
  }

  lemma {:induction false} RunIsConsistent(row: Row, run: seq<Stored>, gated: bool)
    requires Consistent(row.aggregates) && Honest(run)
    ensures Consistent(Run(row, run, gated).aggregates)
    decreases |run|
  {
    if run != [] {
      assert run[0] in run && forall y :: y in run[1..] ==> y in run;
      RunIsConsistent(After(row, run[0].snapshot, run[0].stats, gated), run[1..], gated);
    }
  }

  // ----- the store -----

  class Store {
    var rows: map<string, Row>

    constructor ()
      ensures rows == map[]
    {
      rows := map[];
    }

    function RowOf(id: string): Row
      reads this
    {
      if id in rows then rows[id] else FRESH
    }

    /** `record_snapshot`: the row of this node becomes what the specification says, for statistics
        that describe the reported routes; no other row changes. */
    method RecordSnapshot(id: string, s: Snapshot) returns (ghost stats: Aggregates)
      modifies this
      ensures s.observation.Observed? ==> StatsOf(stats, s.routes)
      ensures rows == old(rows)[id := After(old(RowOf(id)), s, stats, true)]
      ensures forall table :: Holds(old(RowOf(id)), table) ==>
        Reported(old(RowOf(id)), table, s, rows[id]) && Holds(rows[id], Latest(table, s))
    {
      stats := RecordRow(id, s);
      forall table | Holds(old(RowOf(id)), table)
        ensures Reported(old(RowOf(id)), table, s, rows[id]) && Holds(rows[id], Latest(table, s))
      {
        ReportKeeps(old(RowOf(id)), table, s, stats, true);
      }
      hide *;
    }

    /** The row of one report. */
    method RecordRow(id: string, s: Snapshot) returns (ghost stats: Aggregates)
      modifies this
      ensures s.observation.Observed? ==> StatsOf(stats, s.routes)
      ensures rows == old(rows)[id := After(old(RowOf(id)), s, stats, true)]
    {
      hide Describes, Counts, BestRoutes, DiffPrefixSets;
      var row := if id in rows then rows[id] else FRESH;
      row := row.(observation := s.observation);
      if s.captured.Some? {
        row := row.(captured := s.captured);
      }
      if !s.observation.Observed? {
        rows := rows[id := row];
        return NOTHING;
      }
      var aggregates := AggregateRoutes(s.routes);
      stats := aggregates;
      aggregates := aggregates.(prefilter := s.prefilter);
      var announced, withdrawn := 0, 0;
      var dicts := Dumps(s.routes);
      if row.hash != Some(dicts) {
        var best := BestByPrefix(s.routes);
        var churn := DiffPrefixSets(EntryPrefixes(row.entries), Prefixes(best));
        announced, withdrawn := churn.0, churn.1;
        row := row.(entries := ToEntries(dicts));
      }
      row := row.(aggregates := aggregates, hash := Some(dicts));
      var event := Event(s.captured, row.aggregates.count, announced, withdrawn);
      row := row.(events := Trimmed(row.events + [event]));
      rows := rows[id := row];
    }
  }
}
