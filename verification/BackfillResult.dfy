/** What a backfill guarantees as a whole: it loses and duplicates no row, its names are new, and
    once it is applied there is nothing left for a second one to create. */
module BackfillResult {
  import opened Wrappers
  import opened Backfill

  /** Row ids are primary keys. */
  ghost predicate Keyed(inp: Input) {
    && (forall i, j :: 0 <= i < j < |inp.interfaces| ==> inp.interfaces[i].id != inp.interfaces[j].id)
    && (forall i, j :: 0 <= i < j < |inp.sessions| ==> inp.sessions[i].id != inp.sessions[j].id)
  }

  // ----- names -----

  lemma NameAt(inp: Input, created: seq<Planned>, k: nat)
    requires k < |created| && FitsAt(inp, created, k)
    ensures created[k].name !in inp.taken && created[k].name !in Names(created[..k])
  {
  }

  /** Planned names are unused and pairwise distinct. */
  lemma NamesAreNew(inp: Input, out: Result)
    requires IsBackfill(inp, out)
    ensures forall k :: 0 <= k < |out.created| ==> out.created[k].name !in inp.taken
    ensures forall j, k :: 0 <= j < k < |out.created| ==> out.created[j].name != out.created[k].name
  {
    hide FitsAt;
    forall k | 0 <= k < |out.created|
      ensures out.created[k].name !in inp.taken && forall j :: 0 <= j < k ==> out.created[j].name != out.created[k].name
    {
      NameAt(inp, out.created, k);
      forall j | 0 <= j < k ensures out.created[j].name in Names(out.created[..k]) {
        assert out.created[..k][j] == out.created[j];
      }
    }
  }

  // ----- every session in exactly one place -----

  /** The group of sessions behind each planned peering. */
  ghost function PlanSlots(inp: Input): seq<Slot> {
    var parsed := Parsed(inp.interfaces);
    var bearing, order := WithSessions(inp, parsed, true), AsnOrder(inp.sessions, parsed);
    seq(|bearing| + |order|, k requires 0 <= k < |bearing| + |order| =>
      if k < |bearing| then At(bearing[k].id) else ByAsn(order[k - |bearing|]))
  }

  lemma PlanIsSlot(inp: Input, out: Result, k: nat)
    requires IsBackfill(inp, out) && k < |out.created|
    ensures |PlanSlots(inp)| == |out.created|
    ensures out.created[k].sessions == InSlot(inp.sessions, Parsed(inp.interfaces), PlanSlots(inp)[k])
    ensures out.created[k].interfaces == if PlanSlots(inp)[k].At? then [PlanSlots(inp)[k].id] else []
  {
    hide InSlot, Parsed, WithSessions, AsnOrder, NameOk, IsMode, Resolve;
    assert FitsAt(inp, out.created, k);
  }

  ghost predicate IdsDistinct(rows: seq<Interface>) {
    forall i, j :: 0 <= i < j < |rows| ==> rows[i].id != rows[j].id
  }

  lemma {:induction false} ParsedIsKeyed(interfaces: seq<Interface>)
    requires IdsDistinct(interfaces)
    ensures IdsDistinct(Parsed(interfaces))
    decreases |interfaces|
  {
    if interfaces != [] {
      var init, last := interfaces[..|interfaces| - 1], interfaces[|interfaces| - 1];
      ParsedIsKeyed(init);
      forall x | x in Parsed(init) ensures x.id != last.id {
        ParsedIsPart(init, x);
        var k :| 0 <= k < |init| && init[k] == x;
        assert interfaces[k].id != interfaces[|interfaces| - 1].id;
      }
    }
  }

  ghost predicate Busy(inp: Input, x: Interface) {
    InSlot(inp.sessions, Parsed(inp.interfaces), At(x.id)) != []
  }

  lemma {:induction false} WithSessionsIsPart(inp: Input, parsed: seq<Interface>, any: bool)
    ensures forall x :: x in WithSessions(inp, parsed, any) <==> x in parsed && Busy(inp, x) == any
    decreases |parsed|
  {
    hide InSlot, Parsed;
    if parsed != [] {
      var init, last := parsed[..|parsed| - 1], parsed[|parsed| - 1];
      assert parsed == init + [last];
      WithSessionsIsPart(inp, init, any);
    }
  }

  lemma {:induction false} WithSessionsIsKeyed(inp: Input, parsed: seq<Interface>, any: bool)
    requires IdsDistinct(parsed)
    ensures IdsDistinct(WithSessions(inp, parsed, any))
    decreases |parsed|
  {
    hide InSlot, Parsed, Busy;
    if parsed != [] {
      var init, last := parsed[..|parsed| - 1], parsed[|parsed| - 1];
      WithSessionsIsKeyed(inp, init, any);
      WithSessionsIsPart(inp, init, any);
      var kept := WithSessions(inp, init, any);
      forall k | 0 <= k < |kept| ensures kept[k].id != last.id {
        assert kept[k] in kept;
        var j :| 0 <= j < |init| && init[j] == kept[k];
        assert parsed[j].id != parsed[|parsed| - 1].id;
      }
    }
  }

  lemma SlotsAreDistinct(inp: Input)
    requires Keyed(inp)
    ensures Distinct(PlanSlots(inp)) && forall k :: 0 <= k < |PlanSlots(inp)| ==> PlanSlots(inp)[k] != Refused
  {
    hide InSlot, Parsed, AsnOrder, WithSessions;
    var parsed := Parsed(inp.interfaces);
    ParsedIsKeyed(inp.interfaces);
    WithSessionsIsKeyed(inp, parsed, true);
  }

  lemma AnchorIsPlanned(inp: Input, x: BgpSession) returns (k: nat)
    requires x in inp.sessions && SlotOf(x, Parsed(inp.interfaces)).At?
    ensures k < |PlanSlots(inp)| && PlanSlots(inp)[k] == SlotOf(x, Parsed(inp.interfaces))
  {
    hide InSlot, Parsed, AsnOrder, WithSessions, SlotOf;
    var parsed := Parsed(inp.interfaces);
    var slot, bearing := SlotOf(x, parsed), WithSessions(inp, parsed, true);
    assert x in InSlot(inp.sessions, parsed, slot);
    SlotFacts(x, parsed);
    WithSessionsIsPart(inp, parsed, true);
    var j :| 0 <= j < |parsed| && Ids(parsed)[j] == slot.id;
    assert Busy(inp, parsed[j]);
    assert parsed[j] in bearing;
    k :| 0 <= k < |bearing| && bearing[k] == parsed[j];
  }

  lemma AsnIsPlanned(inp: Input, x: BgpSession) returns (k: nat)
    requires x in inp.sessions && SlotOf(x, Parsed(inp.interfaces)).ByAsn?
    ensures k < |PlanSlots(inp)| && PlanSlots(inp)[k] == SlotOf(x, Parsed(inp.interfaces))
  {
    hide InSlot, Parsed, AsnOrder, WithSessions, SlotOf;
    var parsed := Parsed(inp.interfaces);
    var slot, order := SlotOf(x, parsed), AsnOrder(inp.sessions, parsed);
    assert x in InSlot(inp.sessions, parsed, ByAsn(slot.asn));
    assert slot.asn in order;
    var j :| 0 <= j < |order| && order[j] == slot.asn;
    k := |WithSessions(inp, parsed, true)| + j;
  }

  /** No session falls between the groups. */
  lemma SlotIsPlanned(inp: Input, x: BgpSession) returns (k: nat)
    requires x in inp.sessions && x.valid
    ensures k < |PlanSlots(inp)| && PlanSlots(inp)[k] == SlotOf(x, Parsed(inp.interfaces))
  {
    hide PlanSlots, Parsed;
    if SlotOf(x, Parsed(inp.interfaces)).At? {
      k := AnchorIsPlanned(inp, x);
    } else {
      k := AsnIsPlanned(inp, x);
    }
  }

  /** All sessions in the groups of some slots. */
  ghost function Gathered(sessions: seq<BgpSession>, parsed: seq<Interface>, slots: seq<Slot>): multiset<BgpSession> {
    if slots == [] then multiset{}
    else Gathered(sessions, parsed, slots[..|slots| - 1]) + multiset(InSlot(sessions, parsed, slots[|slots| - 1]))
  }

  lemma {:induction false} GatheredNext(done: seq<BgpSession>, row: BgpSession, parsed: seq<Interface>, slots: seq<Slot>)
    requires Distinct(slots)
    ensures Gathered(done + [row], parsed, slots)
         == Gathered(done, parsed, slots) + if SlotOf(row, parsed) in slots then multiset{row} else multiset{}
    decreases |slots|
  {
    hide SlotOf, InSlot, AsnOrder;
    if slots != [] {
      var init, last := slots[..|slots| - 1], slots[|slots| - 1];
      LastIsNew(slots);
      GatheredNext(done, row, parsed, init);
      NextSession(done, row, parsed);
    }
  }

  lemma LastIsNew<T(!new)>(s: seq<T>)
    requires Distinct(s) && s != []
    ensures var init, last := s[..|s| - 1], s[|s| - 1];
      last !in init && Distinct(init) && forall x :: x in s <==> x in init || x == last
  {
    var init, last := s[..|s| - 1], s[|s| - 1];
    assert s == init + [last];
    forall k | 0 <= k < |init| ensures init[k] != last {
      assert s[k] != s[|s| - 1];
    }
  }

  lemma {:induction false} GatheredAll(sessions: seq<BgpSession>, parsed: seq<Interface>, slots: seq<Slot>)
    requires Distinct(slots) && forall x :: x in sessions ==> SlotOf(x, parsed) in slots
    ensures Gathered(sessions, parsed, slots) == multiset(sessions)
    decreases |sessions|
  {
    if sessions == [] {
      NoneGathered(parsed, slots);
    } else {
      var init, last := sessions[..|sessions| - 1], sessions[|sessions| - 1];
      assert sessions == init + [last];
      GatheredAll(init, parsed, slots);
      GatheredNext(init, last, parsed, slots);
    }
  }

  lemma {:induction false} NoneGathered(parsed: seq<Interface>, slots: seq<Slot>)
    ensures Gathered([], parsed, slots) == multiset{}
    decreases |slots|
  {
    if slots != [] {
      NoneGathered(parsed, slots[..|slots| - 1]);
    }
  }

  function PlannedSessions(created: seq<Planned>): seq<BgpSession> {
    if created == [] then [] else PlannedSessions(created[..|created| - 1]) + created[|created| - 1].sessions
  }

  function PlannedInterfaces(created: seq<Planned>): seq<nat> {
    if created == [] then [] else PlannedInterfaces(created[..|created| - 1]) + created[|created| - 1].interfaces
  }

  lemma {:induction false} PlansGather(inp: Input, out: Result, k: nat)
    requires IsBackfill(inp, out) && k <= |out.created|
    ensures |PlanSlots(inp)| == |out.created|
    ensures multiset(PlannedSessions(out.created[..k]))
         == Gathered(inp.sessions, Parsed(inp.interfaces), PlanSlots(inp)[..k])
    decreases k
  {
    hide InSlot, Parsed, IsBackfill;
    if k == 0 {
      SameNumber(inp, out);
    } else {
      PlanIsSlot(inp, out, k - 1);
      PlansGather(inp, out, k - 1);
      assert out.created[..k][..k - 1] == out.created[..k - 1];
      assert PlanSlots(inp)[..k][..k - 1] == PlanSlots(inp)[..k - 1];
    }
  }

  lemma SameNumber(inp: Input, out: Result)
    requires IsBackfill(inp, out)
    ensures |PlanSlots(inp)| == |out.created|
  {
  }

  /** Every session is in exactly one planned peering, or is skipped because its spec is invalid. */
  lemma SessionsArePartitioned(inp: Input, out: Result)
    requires Keyed(inp) && IsBackfill(inp, out)
    ensures var refused := InSlot(inp.sessions, Parsed(inp.interfaces), Refused);
      && multiset(PlannedSessions(out.created)) + multiset(refused) == multiset(inp.sessions)
      && out.skippedSessions == SessionIds(refused)
      && forall x :: x in refused <==> x in inp.sessions && !x.valid
  {
    var parsed, slots := Parsed(inp.interfaces), PlanSlots(inp);
    assert out.skippedSessions == SessionIds(InSlot(inp.sessions, parsed, Refused));
    hide InSlot, Parsed, IsBackfill, Anchor, FitsAt, PlanSlots;
    PlansGather(inp, out, |out.created|);
    SlotsAreDistinct(inp);
    assert out.created[..|out.created|] == out.created && slots[..|slots|] == slots;
    var all := slots + [Refused];
    hide SlotOf;
    EverySlotIsListed(inp);
    GatheredAll(inp.sessions, parsed, all);
    assert all[..|all| - 1] == slots;
  }

  lemma EverySlotIsListed(inp: Input)
    ensures forall x :: x in inp.sessions ==> SlotOf(x, Parsed(inp.interfaces)) in PlanSlots(inp) + [Refused]
  {
    hide Parsed, PlanSlots, Anchor;
    var all := PlanSlots(inp) + [Refused];
    forall x | x in inp.sessions ensures SlotOf(x, Parsed(inp.interfaces)) in all {
      if x.valid {
        var k := SlotIsPlanned(inp, x);
        assert all[k] == SlotOf(x, Parsed(inp.interfaces));
      } else {
        assert all[|all| - 1] == Refused;
      }
    }
  }

  // ----- every interface in exactly one place -----

  lemma {:induction false} InterfacesSplit(interfaces: seq<Interface>)
    ensures multiset(Ids(interfaces)) == multiset(Ids(Parsed(interfaces))) + multiset(Ids(NotBearing(interfaces)))
    decreases |interfaces|
  {
    if interfaces != [] {
      var init, last := interfaces[..|interfaces| - 1], interfaces[|interfaces| - 1];
      InterfacesSplit(init);
      IdsAppend(init, last);
      IdsAppend(Parsed(init), last);
      IdsAppend(NotBearing(init), last);
      assert Parsed(init) + [] == Parsed(init) && NotBearing(init) + [] == NotBearing(init);
      assert interfaces == init + [last];
    }
  }

  lemma IdsAppend(rows: seq<Interface>, last: Interface)
    ensures Ids(rows + [last]) == Ids(rows) + [last.id]
  {
  }

  lemma {:induction false} BusySplit(inp: Input, parsed: seq<Interface>)
    ensures multiset(Ids(parsed)) == multiset(Ids(WithSessions(inp, parsed, true))) + multiset(Ids(WithSessions(inp, parsed, false)))
    decreases |parsed|
  {
    hide InSlot, Parsed;
    if parsed != [] {
      var init, last := parsed[..|parsed| - 1], parsed[|parsed| - 1];
      BusySplit(inp, init);
      IdsAppend(init, last);
      IdsAppend(WithSessions(inp, init, true), last);
      IdsAppend(WithSessions(inp, init, false), last);
      assert forall any :: WithSessions(inp, init, any) + [] == WithSessions(inp, init, any);
      assert parsed == init + [last];
    }
  }

  lemma {:induction false} PlansBear(inp: Input, out: Result, k: nat)
    requires IsBackfill(inp, out) && k <= |out.created|
    ensures var bearing := WithSessions(inp, Parsed(inp.interfaces), true);
      PlannedInterfaces(out.created[..k]) == Ids(bearing)[..if k < |bearing| then k else |bearing|]
    decreases k
  {
    hide InSlot, Parsed, IsBackfill, WithSessions, AsnOrder;
    if k > 0 {
      PlanIsSlot(inp, out, k - 1);
      PlansBear(inp, out, k - 1);
      assert out.created[..k][..k - 1] == out.created[..k - 1];
    }
  }

  /** Every interface is in exactly one planned peering, or is skipped: because it bears no peer, its
      spec is invalid, or it has no session. */
  lemma InterfacesArePartitioned(inp: Input, out: Result)
    requires IsBackfill(inp, out)
    ensures multiset(PlannedInterfaces(out.created)) + multiset(out.skippedInterfaces) == multiset(Ids(inp.interfaces))
  {
    var parsed := Parsed(inp.interfaces);
    var bearing, idle := WithSessions(inp, parsed, true), WithSessions(inp, parsed, false);
    assert out.skippedInterfaces == Ids(NotBearing(inp.interfaces)) + Ids(idle);
    assert |out.created| >= |bearing|;
    hide InSlot, Parsed, IsBackfill, WithSessions, AsnOrder, FitsAt;
    PlansBear(inp, out, |out.created|);
    assert out.created[..|out.created|] == out.created && Ids(bearing)[..|bearing|] == Ids(bearing);
    InterfacesSplit(inp.interfaces);
    BusySplit(inp, parsed);
  }

  // ----- a second run -----

  ghost predicate IsLeft(before: Input, out: Result, after: Input) {
    && (forall x :: x in after.sessions <==> x in before.sessions && x !in PlannedSessions(out.created))
  }

  lemma ValidIsPlanned(inp: Input, out: Result, x: BgpSession)
    requires Keyed(inp) && IsBackfill(inp, out) && x in inp.sessions
    ensures x in PlannedSessions(out.created) <==> x.valid
  {
    hide IsBackfill, InSlot, Parsed, PlannedSessions;
    SessionsArePartitioned(inp, out);
    var refused, planned := InSlot(inp.sessions, Parsed(inp.interfaces), Refused), PlannedSessions(out.created);
    assert x in multiset(inp.sessions);
    assert x in planned <==> x in multiset(planned);
    assert x in refused <==> x in multiset(refused);
    if x in planned && x in refused {
      assert multiset(inp.sessions)[x] >= 2;
      OnceOnly(inp.sessions, x);
    }
  }

  lemma {:induction false} OnceOnly(sessions: seq<BgpSession>, x: BgpSession)
    requires forall i, j :: 0 <= i < j < |sessions| ==> sessions[i].id != sessions[j].id
    ensures multiset(sessions)[x] <= 1
    decreases |sessions|
  {
    if sessions != [] {
      var init, last := sessions[..|sessions| - 1], sessions[|sessions| - 1];
      assert sessions == init + [last];
      OnceOnly(init, x);
      forall k | 0 <= k < |init| ensures init[k] != last {
        assert sessions[k].id != sessions[|sessions| - 1].id;
      }
    }
  }

  lemma NothingToGroup(inp: Input)
    requires forall x :: x in inp.sessions ==> !x.valid
    ensures forall slot :: slot != Refused ==> InSlot(inp.sessions, Parsed(inp.interfaces), slot) == []
    ensures AsnOrder(inp.sessions, Parsed(inp.interfaces)) == []
    ensures WithSessions(inp, Parsed(inp.interfaces), true) == []
  {
    var parsed := Parsed(inp.interfaces);
    forall slot | slot != Refused ensures InSlot(inp.sessions, parsed, slot) == [] {
      NoHead(InSlot(inp.sessions, parsed, slot));
    }
    NoHead(AsnOrder(inp.sessions, parsed));
    WithSessionsIsPart(inp, parsed, true);
    NoHead(WithSessions(inp, parsed, true));
  }

  lemma NoHead<T>(s: seq<T>)
    requires s != [] ==> s[0] !in s
    ensures s == []
  {
  }

  /** Once the planned rows have their peering, another run finds nothing to create. */
  lemma SecondRunCreatesNothing(inp: Input, out: Result, next: Input, again: Result)
    requires Keyed(inp) && IsBackfill(inp, out) && IsLeft(inp, out, next) && IsBackfill(next, again)
    ensures again.created == []
  {
    assert |again.created| == |WithSessions(next, Parsed(next.interfaces), true)| + |AsnOrder(next.sessions, Parsed(next.interfaces))|;
    hide IsBackfill;
    forall x | x in next.sessions ensures !x.valid {
      ValidIsPlanned(inp, out, x);
    }
    NothingToGroup(next);
  }

  // ----- applying a plan -----

  datatype Row = Row(name: string, remoteAsn: nat, internal: bool, remote: Option<string>)

  function RowOf(p: Planned): Row {
    Row(p.name, p.remoteAsn, p.internal, p.remote)
  }

  /** The `peering_id` column after some rows are linked; ids that no longer exist are passed over. */
  function Link(column: map<nat, Option<nat>>, ids: seq<nat>, peering: nat): map<nat, Option<nat>> {
    map i | i in column :: if i in ids then Some(peering) else column[i]
  }

  function LinkAll(column: map<nat, Option<nat>>, groups: seq<seq<nat>>, first: nat): map<nat, Option<nat>> {
    if groups == [] then column
    else Link(LinkAll(column, groups[..|groups| - 1], first), groups[|groups| - 1], first + |groups| - 1)
  }

  lemma LinkNext(column: map<nat, Option<nat>>, groups: seq<seq<nat>>, first: nat, k: nat)
    requires k < |groups|
    ensures LinkAll(column, groups[..k + 1], first) == Link(LinkAll(column, groups[..k], first), groups[k], first + k)
  {
    assert groups[..k + 1][..k] == groups[..k];
  }

  function InterfaceGroups(planned: seq<Planned>): (r: seq<seq<nat>>)
    ensures |r| == |planned| && forall k :: 0 <= k < |r| ==> r[k] == planned[k].interfaces
  {
    seq(|planned|, k requires 0 <= k < |planned| => planned[k].interfaces)
  }

  function SessionGroups(planned: seq<Planned>): (r: seq<seq<nat>>)
    ensures |r| == |planned| && forall k :: 0 <= k < |r| ==> r[k] == SessionIds(planned[k].sessions)
  {
    seq(|planned|, k requires 0 <= k < |planned| => SessionIds(planned[k].sessions))
  }

  /** The last group a row is listed in. */
  function LastGroup(groups: seq<seq<nat>>, i: nat): (r: Option<nat>)
    ensures r.None? <==> forall k :: 0 <= k < |groups| ==> i !in groups[k]
    ensures r.Some? ==> r.value < |groups| && i in groups[r.value] && forall j :: r.value < j < |groups| ==> i !in groups[j]
    decreases |groups|
  {
    if groups == [] then None
    else if i in groups[|groups| - 1] then Some(|groups| - 1)
    else LastGroup(groups[..|groups| - 1], i)
  }

  /** A row listed in some group points at the peering of the last of them; any other row is as
      before. */
  lemma {:induction false} LinkAllMeans(column: map<nat, Option<nat>>, groups: seq<seq<nat>>, first: nat, i: nat)
    requires i in column
    ensures var after := LinkAll(column, groups, first);
      i in after && after[i] == match LastGroup(groups, i) case None => column[i] case Some(k) => Some(first + k)
    decreases |groups|
  {
    if groups != [] {
      LinkAllMeans(column, groups[..|groups| - 1], first, i);
    }
  }

  /** One that is listed points at the peering of the last group that lists it, and any other is as
      before. Peerings are numbered on from `first`. */
  ghost predicate PointsRight(was: Option<nat>, now: Option<nat>, groups: seq<seq<nat>>, first: nat, i: nat) {
    && (forall k :: 0 <= k < |groups| && i in groups[k] && (forall j :: k < j < |groups| ==> i !in groups[j]) ==>
          now == Some(first + k))
    && ((forall k :: 0 <= k < |groups| ==> i !in groups[k]) ==> now == was)
  }

  /** Every row that was there is still there, and points where it should. */
  ghost predicate PointsAt(before: map<nat, Option<nat>>, after: map<nat, Option<nat>>, groups: seq<seq<nat>>, first: nat) {
    after.Keys == before.Keys && forall i :: i in before ==> PointsRight(before[i], after[i], groups, first, i)
  }

  lemma LinkAllPoints(before: map<nat, Option<nat>>, groups: seq<seq<nat>>, first: nat)
    ensures PointsAt(before, LinkAll(before, groups, first), groups, first)
  {
    LinkAllKeys(before, groups, first);
    hide LinkAll, LastGroup, PointsRight;
    forall i | i in before ensures PointsRight(before[i], LinkAll(before, groups, first)[i], groups, first, i) {
      LinkAllMeans(before, groups, first, i);
      LastPoints(before[i], groups, first, i);
    }
  }

  lemma LastPoints(was: Option<nat>, groups: seq<seq<nat>>, first: nat, i: nat)
    ensures PointsRight(was, match LastGroup(groups, i) case None => was case Some(k) => Some(first + k), groups, first, i)
  {
    hide LastGroup;
    var last := LastGroup(groups, i);
    if last.Some? { assert i in groups[last.value]; }
  }

  lemma {:induction false} LinkAllKeys(column: map<nat, Option<nat>>, groups: seq<seq<nat>>, first: nat)
    ensures LinkAll(column, groups, first).Keys == column.Keys
    decreases |groups|
  {
    if groups != [] { LinkAllKeys(column, groups[..|groups| - 1], first); }
  }

  lemma {:induction false} InPlanned(created: seq<Planned>, x: BgpSession)
    ensures x in PlannedSessions(created) <==> exists k :: 0 <= k < |created| && x in created[k].sessions
    decreases |created|
  {
    if created != [] {
      var init := created[..|created| - 1];
      InPlanned(init, x);
      assert forall k :: 0 <= k < |init| ==> init[k] == created[k];
    }
  }

  lemma SameSession(inp: Input, out: Result, k: nat, x: BgpSession)
    requires Keyed(inp) && IsBackfill(inp, out) && k < |out.created| && x in inp.sessions
    ensures x.id in SessionIds(out.created[k].sessions) <==> x in out.created[k].sessions
  {
    hide InSlot, Parsed, IsBackfill, PlanSlots;
    PlanIsSlot(inp, out, k);
    IdsTell(inp.sessions, out.created[k].sessions, x);
  }

  /** With distinct ids, an id is listed exactly when its row is. */
  lemma IdsTell(all: seq<BgpSession>, rows: seq<BgpSession>, x: BgpSession)
    requires forall i, j :: 0 <= i < j < |all| ==> all[i].id != all[j].id
    requires x in all && forall y :: y in rows ==> y in all
    ensures x.id in SessionIds(rows) <==> x in rows
  {
    if x in rows {
      var j :| 0 <= j < |rows| && rows[j] == x;
      assert SessionIds(rows)[j] == x.id;
    }
    if x.id in SessionIds(rows) {
      var j :| 0 <= j < |rows| && SessionIds(rows)[j] == x.id;
      assert rows[j] in rows;
      var a :| 0 <= a < |all| && all[a] == rows[j];
      var b :| 0 <= b < |all| && all[b] == x;
      assert a == b;
    }
  }

  /** Applying links every valid session, so the orphans left are exactly the invalid ones. */
  lemma OrphansAfterApply(inp: Input, out: Result, column: map<nat, Option<nat>>, first: nat, x: BgpSession)
    requires Keyed(inp) && IsBackfill(inp, out) && x in inp.sessions && x.id in column && column[x.id].None?
    ensures var after := LinkAll(column, SessionGroups(out.created), first);
      x.id in after && (after[x.id].None? <==> !x.valid)
  {
    hide IsBackfill, Keyed, LinkAll, PlannedSessions;
    LinkAllMeans(column, SessionGroups(out.created), first, x.id);
    InPlanned(out.created, x);
    ValidIsPlanned(inp, out, x);
    forall k | 0 <= k < |out.created|
      ensures x.id in SessionGroups(out.created)[k] <==> x in out.created[k].sessions
    {
      SameSession(inp, out, k, x);
    }
  }

  lemma RowsAre(planned: seq<Planned>)
    ensures forall k :: 0 <= k < |planned| ==>
      var row, p := RowOf(planned[k]), planned[k];
      row.name == p.name && row.remoteAsn == p.remoteAsn && row.internal == p.internal && row.remote == p.remote
  {
  }

  class Tables {
    var peerings: seq<Row>                       // rows in id order
    var interfacePeering: map<nat, Option<nat>>
    var sessionPeering: map<nat, Option<nat>>

    constructor (peerings: seq<Row>, interfacePeering: map<nat, Option<nat>>, sessionPeering: map<nat, Option<nat>>)
      ensures this.peerings == peerings
      ensures this.interfacePeering == interfacePeering && this.sessionPeering == sessionPeering
    {
      this.peerings, this.interfacePeering, this.sessionPeering := peerings, interfacePeering, sessionPeering;
    }

    method ApplyOne(p: Planned)
      modifies this
      ensures peerings == old(peerings) + [RowOf(p)]
      ensures interfacePeering == Link(old(interfacePeering), p.interfaces, old(|peerings|))
      ensures sessionPeering == Link(old(sessionPeering), SessionIds(p.sessions), old(|peerings|))
    {
      hide Link;
      var peering := |peerings|;
      peerings := peerings + [RowOf(p)];
      interfacePeering := LinkEach(interfacePeering, p.interfaces, peering);
      sessionPeering := LinkEach(sessionPeering, SessionIds(p.sessions), peering);
    }

    method ApplyEach(planned: seq<Planned>)
      modifies this
      ensures |peerings| == old(|peerings|) + |planned| && old(peerings) <= peerings
      ensures forall k :: 0 <= k < |planned| ==> peerings[old(|peerings|) + k] == RowOf(planned[k])
      ensures interfacePeering == LinkAll(old(interfacePeering), InterfaceGroups(planned), old(|peerings|))
      ensures sessionPeering == LinkAll(old(sessionPeering), SessionGroups(planned), old(|peerings|))
    {
      hide Link, RowOf;
      ghost var ifaces, sessions := InterfaceGroups(planned), SessionGroups(planned);
      for k := 0 to |planned|
        invariant |peerings| == old(|peerings|) + k && old(peerings) <= peerings
        invariant forall j :: 0 <= j < k ==> peerings[old(|peerings|) + j] == RowOf(planned[j])
        invariant interfacePeering == LinkAll(old(interfacePeering), ifaces[..k], old(|peerings|))
        invariant sessionPeering == LinkAll(old(sessionPeering), sessions[..k], old(|peerings|))
      {
        LinkNext(old(interfacePeering), ifaces, old(|peerings|), k);
        LinkNext(old(sessionPeering), sessions, old(|peerings|), k);
        ApplyOne(planned[k]);
      }
      assert ifaces[..|planned|] == ifaces && sessions[..|planned|] == sessions;
    }

    /** `_apply`: one new peering for each plan, and its rows linked to it. */
    method ApplyPlans(planned: seq<Planned>)
      modifies this
      ensures |peerings| == old(|peerings|) + |planned| && old(peerings) <= peerings
      ensures forall k :: 0 <= k < |planned| ==>
        var row, p := peerings[old(|peerings|) + k], planned[k];
        row.name == p.name && row.remoteAsn == p.remoteAsn && row.internal == p.internal && row.remote == p.remote
      ensures PointsAt(old(interfacePeering), interfacePeering, InterfaceGroups(planned), old(|peerings|))
      ensures PointsAt(old(sessionPeering), sessionPeering, SessionGroups(planned), old(|peerings|))
      ensures forall k :: 0 <= k < |planned| ==> peerings[old(|peerings|) + k] == RowOf(planned[k])
      ensures interfacePeering == LinkAll(old(interfacePeering), InterfaceGroups(planned), old(|peerings|))
      ensures sessionPeering == LinkAll(old(sessionPeering), SessionGroups(planned), old(|peerings|))
    {
      ApplyEach(planned);
      LinkAllPoints(old(interfacePeering), InterfaceGroups(planned), old(|peerings|));
      LinkAllPoints(old(sessionPeering), SessionGroups(planned), old(|peerings|));
      hide *;
      RowsAre(planned);
    }
  }

  /** The inner loops: every listed row that still exists gets the peering. */
  method LinkEach(column: map<nat, Option<nat>>, ids: seq<nat>, peering: nat) returns (after: map<nat, Option<nat>>)
    ensures after == Link(column, ids, peering)
  {
    after := column;
    for k := 0 to |ids|
      invariant after == Link(column, ids[..k], peering)
    {
      assert ids[..k + 1] == ids[..k] + [ids[k]];
      if ids[k] in after {
        after := after[ids[k] := Some(peering)];
      }
    }
    assert ids[..|ids|] == ids;
  }
}
