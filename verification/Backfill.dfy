/** Peering backfill: the interfaces and BGP sessions of a node that belong to no peering yet are
    grouped, each group becomes one new peering, and what cannot be grouped is skipped. */
module Backfill {
  import opened Wrappers

  datatype Address = Address(v6: bool, value: nat)

  datatype Prefix = Prefix(v6: bool, first: nat, last: nat) | Malformed

  datatype Kind = Dummy | WireGuard | Underlay

  /** `allowed` are the peer's allowed IPs, if it is a tunnel. `valid` says that the spec parses. */
  datatype Interface = Interface(id: nat, name: string, kind: Kind, valid: bool, addresses: seq<Prefix>,
                                 routes: seq<Prefix>, allowed: Option<seq<Prefix>>)

  datatype BgpSession = BgpSession(id: nat, valid: bool, interface: Option<string>, neighbor: Address,
                             source: Option<Address>, remoteAsn: nat, internalPolicy: bool)

  /** Another node, with its loopbacks and its router id. */
  datatype Remote = Remote(id: string, addresses: set<Address>)

  datatype Input = Input(asn: nat, interfaces: seq<Interface>, sessions: seq<BgpSession>, taken: set<string>,
                         remotes: seq<Remote>)

  datatype Planned = Planned(name: string, remoteAsn: nat, internal: bool, remote: Option<string>,
                             interfaces: seq<nat>, sessions: seq<BgpSession>)

  datatype Result = Result(created: seq<Planned>, skippedInterfaces: seq<nat>, skippedSessions: seq<nat>)

  // ----- anchoring a session -----

  predicate Covers(p: Prefix, a: Address) {
    p.Prefix? && p.v6 == a.v6 && p.first <= a.value <= p.last
  }

  predicate InAny(a: Address, prefixes: seq<Prefix>) {
    exists i :: 0 <= i < |prefixes| && Covers(prefixes[i], a)
  }

  predicate Bears(i: Interface) {
    (i.kind.WireGuard? || i.kind.Underlay?) && i.valid
  }

  predicate Matches(x: BgpSession, i: Interface) {
    || InAny(x.neighbor, i.routes + (if i.allowed.Some? then i.allowed.value else []))
    || (x.source.Some? && InAny(x.source.value, i.addresses))
  }

  predicate NamedBy(x: BgpSession, i: Interface) {
    x.interface.Some? && x.interface.value != "" && i.name == x.interface.value
  }

  function FirstNamed(x: BgpSession, parsed: seq<Interface>): Option<nat> {
    if parsed == [] then None
    else if NamedBy(x, parsed[0]) then Some(parsed[0].id)
    else FirstNamed(x, parsed[1..])
  }

  function FirstMatch(x: BgpSession, parsed: seq<Interface>): Option<nat> {
    if parsed == [] then None
    else if Matches(x, parsed[0]) then Some(parsed[0].id)
    else FirstMatch(x, parsed[1..])
  }

  /** `_anchor_interface`: the interface the session names, or else the first its addresses fit. */
  function Anchor(x: BgpSession, parsed: seq<Interface>): Option<nat> {
    if FirstNamed(x, parsed).Some? then FirstNamed(x, parsed) else FirstMatch(x, parsed)
  }

  lemma {:induction false} AnchorIsParsed(x: BgpSession, parsed: seq<Interface>)
    ensures Anchor(x, parsed).Some? ==> Anchor(x, parsed).value in Ids(parsed)
    ensures FirstNamed(x, parsed).Some? ==> FirstNamed(x, parsed).value in Ids(parsed)
    ensures FirstMatch(x, parsed).Some? ==> FirstMatch(x, parsed).value in Ids(parsed)
  {
    if parsed != [] {
      AnchorIsParsed(x, parsed[1..]);
      assert forall k :: 0 <= k < |parsed| - 1 ==> Ids(parsed[1..])[k] == Ids(parsed)[k + 1];
      assert Ids(parsed)[0] == parsed[0].id;
    }
  }

  /** The session names the interface. */
  ghost predicate ByName(x: BgpSession, i: Interface) {
    x.interface == Some(i.name) && i.name != ""
  }

  /** The address lies in one of the prefixes that parse. */
  ghost predicate Within(a: Address, prefixes: seq<Prefix>) {
    exists p :: p in prefixes && p.Prefix? && p.v6 == a.v6 && p.first <= a.value <= p.last
  }

  /** The neighbour is routed or allowed through the interface, or the source is an address of it. */
  ghost predicate ByAddress(x: BgpSession, i: Interface) {
    || Within(x.neighbor, i.routes)
    || (i.allowed.Some? && Within(x.neighbor, i.allowed.value))
    || (x.source.Some? && Within(x.source.value, i.addresses))
  }

  lemma InAnyIff(a: Address, prefixes: seq<Prefix>)
    ensures InAny(a, prefixes) <==> Within(a, prefixes)
  {
    if Within(a, prefixes) {
      var p :| p in prefixes && p.Prefix? && p.v6 == a.v6 && p.first <= a.value <= p.last;
      var i :| 0 <= i < |prefixes| && prefixes[i] == p;
      assert Covers(prefixes[i], a);
    }
  }

  lemma AnchorBy(x: BgpSession, i: Interface)
    ensures NamedBy(x, i) <==> ByName(x, i)
    ensures Matches(x, i) <==> ByAddress(x, i)
  {
    var allowed := if i.allowed.Some? then i.allowed.value else [];
    InAnyIff(x.neighbor, i.routes + allowed);
    InAnyIff(x.neighbor, i.routes);
    InAnyIff(x.neighbor, allowed);
    if x.source.Some? { InAnyIff(x.source.value, i.addresses); }
    hide InAny;
    assert Within(x.neighbor, i.routes + allowed) <==> Within(x.neighbor, i.routes) || Within(x.neighbor, allowed);
  }

  ghost predicate NamedAt(x: BgpSession, parsed: seq<Interface>, k: nat) {
    k < |parsed| && ByName(x, parsed[k]) && forall j :: 0 <= j < k ==> !ByName(x, parsed[j])
  }

  ghost predicate MatchedAt(x: BgpSession, parsed: seq<Interface>, k: nat) {
    k < |parsed| && ByAddress(x, parsed[k]) && forall j :: 0 <= j < k ==> !ByAddress(x, parsed[j])
  }

  /** A session is anchored to the first interface it names; failing that, to the first one its
      addresses fit; and to none only if there is neither. */
  lemma AnchorMeans(x: BgpSession, parsed: seq<Interface>) returns (k: nat)
    ensures Anchor(x, parsed).None? <==> forall i :: i in parsed ==> !ByName(x, i) && !ByAddress(x, i)
    ensures Anchor(x, parsed).Some? ==> k < |parsed| && parsed[k].id == Anchor(x, parsed).value
    ensures Anchor(x, parsed).Some? && (exists i :: i in parsed && ByName(x, i)) ==> NamedAt(x, parsed, k)
    ensures Anchor(x, parsed).Some? && (forall i :: i in parsed ==> !ByName(x, i)) ==> MatchedAt(x, parsed, k)
  {
    var named := FirstNamedMeans(x, parsed);
    var matched := FirstMatchMeans(x, parsed);
    k := if FirstNamed(x, parsed).Some? then named else matched;
  }

  lemma {:induction false} FirstNamedMeans(x: BgpSession, parsed: seq<Interface>) returns (k: nat)
    ensures FirstNamed(x, parsed).None? <==> forall i :: i in parsed ==> !ByName(x, i)
    ensures FirstNamed(x, parsed).Some? ==> NamedAt(x, parsed, k) && parsed[k].id == FirstNamed(x, parsed).value
  {
    hide NamedBy, ByName;
    k := 0;
    if parsed != [] {
      AnchorBy(x, parsed[0]);
      var rest := parsed[1..];
      assert parsed == [parsed[0]] + rest;
      if !NamedBy(x, parsed[0]) {
        k := FirstNamedMeans(x, rest);
        k := k + 1;
      }
    }
  }

  lemma {:induction false} FirstMatchMeans(x: BgpSession, parsed: seq<Interface>) returns (k: nat)
    ensures FirstMatch(x, parsed).None? <==> forall i :: i in parsed ==> !ByAddress(x, i)
    ensures FirstMatch(x, parsed).Some? ==> MatchedAt(x, parsed, k) && parsed[k].id == FirstMatch(x, parsed).value
  {
    hide Matches, ByAddress;
    k := 0;
    if parsed != [] {
      AnchorBy(x, parsed[0]);
      var rest := parsed[1..];
      assert parsed == [parsed[0]] + rest;
      if !Matches(x, parsed[0]) {
        k := FirstMatchMeans(x, rest);
        k := k + 1;
      }
    }
  }

  function Ids(rows: seq<Interface>): (r: seq<nat>)
    ensures |r| == |rows| && forall i :: 0 <= i < |r| ==> r[i] == rows[i].id
  {
    seq(|rows|, i requires 0 <= i < |rows| => rows[i].id)
  }

  function SessionIds(rows: seq<BgpSession>): (r: seq<nat>)
    ensures |r| == |rows| && forall i :: 0 <= i < |r| ==> r[i] == rows[i].id
  {
    seq(|rows|, i requires 0 <= i < |rows| => rows[i].id)
  }

  function Parsed(interfaces: seq<Interface>): seq<Interface> {
    if interfaces == [] then []
    else
      var last := interfaces[|interfaces| - 1];
      Parsed(interfaces[..|interfaces| - 1]) + if Bears(last) then [last] else []
  }

  // ----- the name of a peering -----

  function Suffixed(base: string, k: nat): string {
    base + "-" + Digits(k)
  }

  lemma SuffixedDiffer(base: string, j: nat, k: nat)
    requires j != k
    ensures Suffixed(base, j) != Suffixed(base, k)
  {
    if Suffixed(base, j) == Suffixed(base, k) {
      assert Suffixed(base, j)[|base| + 1..] == Digits(j);
      assert Suffixed(base, k)[|base| + 1..] == Digits(k);
      DigitsDiffer(j, k);
    }
  }

  function Tried(base: string, suffix: nat): set<string> {
    set k | 2 <= k < suffix :: Suffixed(base, k)
  }

  lemma {:induction false} TriedCount(base: string, suffix: nat)
    requires suffix >= 2
    ensures |Tried(base, suffix)| == suffix - 2
    decreases suffix
  {
    if suffix > 2 {
      TriedCount(base, suffix - 1);
      forall k | 2 <= k < suffix - 1 ensures Suffixed(base, k) != Suffixed(base, suffix - 1) {
        SuffixedDiffer(base, k, suffix - 1);
      }
      assert Tried(base, suffix) == Tried(base, suffix - 1) + {Suffixed(base, suffix - 1)};
    }
  }

  lemma SubsetCount(a: set<string>, b: set<string>)
    requires a <= b
    ensures |a| <= |b|
  {
    assert b == a + (b - a);
  }

  /** `_unique_name`: the base, or the first free numbered variant. The search ends because every
      failed try is a different taken name. */
  method UniqueName(base: string, taken: set<string>) returns (name: string)
    ensures name !in taken
    ensures base !in taken ==> name == base
    ensures base in taken ==> exists k :: k >= 2 && name == Suffixed(base, k) && Tried(base, k) <= taken
  {
    if base !in taken {
      return base;
    }
    var suffix := 2;
    while Suffixed(base, suffix) in taken
      invariant suffix >= 2 && Tried(base, suffix) <= taken
      decreases |taken| + 3 - suffix
    {
      assert Tried(base, suffix + 1) == Tried(base, suffix) + {Suffixed(base, suffix)};
      suffix := suffix + 1;
      TriedCount(base, suffix);
      SubsetCount(Tried(base, suffix), taken);
    }
    name := Suffixed(base, suffix);
  }

  // ----- the ASN of a group -----

  function Count(asns: seq<nat>, asn: nat): nat {
    multiset(asns)[asn]
  }

  /** The most frequent value, and of several such the one seen first. */
  ghost predicate IsMode(asns: seq<nat>, asn: nat) {
    && asn in asns
    && (forall x :: x in asns ==> Count(asns, x) <= Count(asns, asn))
    && exists i :: 0 <= i < |asns| && asns[i] == asn &&
         forall j :: 0 <= j < i ==> Count(asns, asns[j]) < Count(asns, asn)
  }

  function Asns(sessions: seq<BgpSession>): (r: seq<nat>)
    ensures |r| == |sessions| && forall i :: 0 <= i < |r| ==> r[i] == sessions[i].remoteAsn
  {
    seq(|sessions|, i requires 0 <= i < |sessions| => sessions[i].remoteAsn)
  }

  /** The distinct values in the order they are first seen. */
  function Order(asns: seq<nat>): (r: seq<nat>)
    ensures forall x :: x in r <==> x in asns
  {
    if asns == [] then []
    else
      var init, last := asns[..|asns| - 1], asns[|asns| - 1];
      assert asns == init + [last];
      if last in Order(init) then Order(init) else Order(init) + [last]
  }

  /** Where a member of the order is first seen: before that, only earlier members occur. */
  lemma {:induction false} SeenAt(asns: seq<nat>, i: nat) returns (l: nat)
    requires i < |Order(asns)|
    ensures l < |asns| && asns[l] == Order(asns)[i]
    ensures forall m :: 0 <= m < l ==> asns[m] in Order(asns)[..i]
    decreases |asns|
  {
    var init := asns[..|asns| - 1];
    if i < |Order(init)| {
      l := SeenAt(init, i);
      assert Order(asns)[..i] == Order(init)[..i];
    } else {
      l := |asns| - 1;
      assert Order(asns)[..i] == Order(init);
      forall m | 0 <= m < l ensures asns[m] in Order(init) {
        assert init[m] == asns[m];
      }
    }
  }

  lemma CountNext(asns: seq<nat>, k: nat, x: nat)
    requires k < |asns|
    ensures Count(asns[..k + 1], x) == Count(asns[..k], x) + if x == asns[k] then 1 else 0
    ensures Order(asns[..k + 1]) == if asns[k] in Order(asns[..k]) then Order(asns[..k]) else Order(asns[..k]) + [asns[k]]
  {
    assert asns[..k + 1] == asns[..k] + [asns[k]];
    assert asns[..k + 1][..k] == asns[..k];
  }

  lemma NoneCounted()
    ensures Order([]) == [] && forall x: nat :: Count([], x) == 0
  {
  }

  method CountAsns(asns: seq<nat>) returns (order: seq<nat>, counts: map<nat, nat>)
    ensures order == Order(asns) && forall x :: x in counts <==> x in order
    ensures forall x :: x in counts ==> counts[x] == Count(asns, x)
  {
    NoneCounted();
    hide Order, Count;
    order, counts := [], map[];
    assert asns[..0] == [];
    for k := 0 to |asns|
      invariant order == Order(asns[..k]) && forall x :: x in counts <==> x in order
      invariant forall x: nat :: Count(asns[..k], x) == if x in counts then counts[x] else 0
    {
      forall x: nat ensures Count(asns[..k + 1], x) == Count(asns[..k], x) + if x == asns[k] then 1 else 0 {
        CountNext(asns, k, x);
      }
      CountNext(asns, k, asns[k]);
      if asns[k] !in counts {
        order := order + [asns[k]];
      }
      counts := counts[asns[k] := (if asns[k] in counts then counts[asns[k]] else 0) + 1];
    }
    assert asns[..|asns|] == asns;
  }

  lemma ModeFromOrder(asns: seq<nat>, at: nat)
    requires at < |Order(asns)|
    requires forall j :: 0 <= j < |Order(asns)| ==> Count(asns, Order(asns)[j]) <= Count(asns, Order(asns)[at])
    requires forall j :: 0 <= j < at ==> Count(asns, Order(asns)[j]) < Count(asns, Order(asns)[at])
    ensures IsMode(asns, Order(asns)[at])
  {
    hide Order, Count;
    var order, best := Order(asns), Order(asns)[at];
    assert best in order;
    var l := SeenAt(asns, at);
    forall j | 0 <= j < l ensures Count(asns, asns[j]) < Count(asns, best) {
      assert asns[j] in order[..at];
      var i :| 0 <= i < |order[..at]| && order[..at][i] == asns[j];
    }
    forall x | x in asns ensures Count(asns, x) <= Count(asns, best) {
      var i :| 0 <= i < |order| && order[i] == x;
    }
  }

  /** `_dominant_asn`: `max` over the first-seen order by count, then by earlier position. */
  method DominantAsn(asns: seq<nat>) returns (best: nat)
    requires asns != []
    ensures IsMode(asns, best)
  {
    hide Order, Count, IsMode;
    var order, counts := CountAsns(asns);
    assert asns[0] in order;
    best := order[0];
    ghost var at := 0;
    for i := 1 to |order|
      invariant at < i && order[at] == best
      invariant forall j :: 0 <= j < i ==> Count(asns, order[j]) <= Count(asns, best)
      invariant forall j :: 0 <= j < at ==> Count(asns, order[j]) < Count(asns, best)
    {
      assert order[i] in order && order[at] in order;
      if counts[order[i]] > counts[best] {
        best := order[i];
        at := i;
      }
    }
    ModeFromOrder(asns, at);
  }

  // ----- where every row belongs -----

  datatype Slot = Refused | At(id: nat) | ByAsn(asn: nat)

  /** The one group a session belongs to: that of its anchor, or else that of its remote ASN. */
  function SlotOf(x: BgpSession, parsed: seq<Interface>): Slot {
    if !x.valid then Refused
    else if Anchor(x, parsed).Some? then At(Anchor(x, parsed).value)
    else ByAsn(x.remoteAsn)
  }

  function InSlot(sessions: seq<BgpSession>, parsed: seq<Interface>, slot: Slot): (r: seq<BgpSession>)
    ensures forall x :: x in r <==> x in sessions && SlotOf(x, parsed) == slot
  {
    if sessions == [] then []
    else
      var init, last := sessions[..|sessions| - 1], sessions[|sessions| - 1];
      assert sessions == init + [last];
      InSlot(init, parsed, slot) + if SlotOf(last, parsed) == slot then [last] else []
  }

  /** The ASNs of the unanchored sessions, in the order they are first seen. */
  function AsnOrder(sessions: seq<BgpSession>, parsed: seq<Interface>): (r: seq<nat>)
    ensures forall i, j :: 0 <= i < j < |r| ==> r[i] != r[j]
    ensures forall a :: a in r <==> InSlot(sessions, parsed, ByAsn(a)) != []
  {
    if sessions == [] then []
    else
      var rest, slot := AsnOrder(sessions[..|sessions| - 1], parsed), SlotOf(sessions[|sessions| - 1], parsed);
      if slot.ByAsn? && slot.asn !in rest then rest + [slot.asn] else rest
  }

  /** The interfaces that have sessions, and those that have none. */
  function WithSessions(inp: Input, parsed: seq<Interface>, any: bool): seq<Interface> {
    if parsed == [] then []
    else
      var last := parsed[|parsed| - 1];
      WithSessions(inp, parsed[..|parsed| - 1], any)
      + if (InSlot(inp.sessions, Parsed(inp.interfaces), At(last.id)) != []) == any then [last] else []
  }

  function NotBearing(interfaces: seq<Interface>): seq<Interface> {
    if interfaces == [] then []
    else
      var last := interfaces[|interfaces| - 1];
      NotBearing(interfaces[..|interfaces| - 1]) + if Bears(last) then [] else [last]
  }

  // ----- what one planned peering is -----

  predicate Internal(x: BgpSession, asn: nat) {
    x.remoteAsn == asn || x.internalPolicy
  }

  function AddressesOf(sessions: seq<BgpSession>): set<Address> {
    (set x | x in sessions :: x.neighbor) + (set x | x in sessions && x.source.Some? :: x.source.value)
  }

  /** `_resolve_remote_node`: the first other node that owns one of the addresses. */
  function Resolve(remotes: seq<Remote>, addresses: set<Address>): Option<string> {
    if remotes == [] then None
    else if !(remotes[0].addresses !! addresses) then Some(remotes[0].id)
    else Resolve(remotes[1..], addresses)
  }

  /** The node owns an end of one of the sessions. */
  ghost predicate Owns(r: Remote, sessions: seq<BgpSession>) {
    exists x :: x in sessions && (x.neighbor in r.addresses || (x.source.Some? && x.source.value in r.addresses))
  }

  ghost predicate NoneOwns(remotes: seq<Remote>, sessions: seq<BgpSession>) {
    forall r :: r in remotes ==> !Owns(r, sessions)
  }

  /** The first other node that does, if there is one. */
  ghost predicate RemoteOk(remotes: seq<Remote>, sessions: seq<BgpSession>, found: Option<string>) {
    match found
    case None => NoneOwns(remotes, sessions)
    case Some(id) =>
      exists k :: 0 <= k < |remotes| && remotes[k].id == id && Owns(remotes[k], sessions) && NoneOwns(remotes[..k], sessions)
  }

  lemma OwnsIff(r: Remote, sessions: seq<BgpSession>)
    ensures Owns(r, sessions) <==> !(r.addresses !! AddressesOf(sessions))
  {
    if Owns(r, sessions) {
      var x :| x in sessions && (x.neighbor in r.addresses || (x.source.Some? && x.source.value in r.addresses));
      assert x.neighbor in AddressesOf(sessions) && (x.source.Some? ==> x.source.value in AddressesOf(sessions));
    }
  }

  /** A remote node is found exactly when one owns an end of a session, and it is the first such. */
  lemma {:induction false} ResolveMeans(remotes: seq<Remote>, sessions: seq<BgpSession>)
    ensures RemoteOk(remotes, sessions, Resolve(remotes, AddressesOf(sessions)))
  {
    hide Owns, AddressesOf;
    if remotes != [] {
      var rest := remotes[1..];
      assert remotes == [remotes[0]] + rest && remotes[0] in remotes;
      OwnsIff(remotes[0], sessions);
      if !Owns(remotes[0], sessions) {
        ResolveMeans(rest, sessions);
        if Resolve(rest, AddressesOf(sessions)).Some? {
          var k :| 0 <= k < |rest| && rest[k].id == Resolve(rest, AddressesOf(sessions)).value && Owns(rest[k], sessions)
            && NoneOwns(rest[..k], sessions);
          assert remotes[k + 1] == rest[k] && remotes[..k + 1] == [remotes[0]] + rest[..k];
        }
      }
    }
  }

  ghost predicate NameOk(base: string, taken: set<string>, name: string) {
    && name !in taken
    && (base !in taken ==> name == base)
    && (base in taken ==> exists k :: k >= 2 && name == Suffixed(base, k) && Tried(base, k) <= taken)
  }

  ghost predicate Fits(inp: Input, p: Planned, base: string, interfaces: seq<nat>, sessions: seq<BgpSession>, taken: set<string>) {
    && p.interfaces == interfaces && p.sessions == sessions && sessions != []
    && IsMode(Asns(sessions), p.remoteAsn)
    && (p.internal <==> exists x :: x in sessions && (x.remoteAsn == inp.asn || x.internalPolicy))
    && RemoteOk(inp.remotes, sessions, p.remote)
    && NameOk(base, taken, p.name)
  }

  function Names(created: seq<Planned>): set<string> {
    set p | p in created :: p.name
  }

  /** The plan at place `k`: first the interfaces with sessions, in order, then the ASN groups. */
  ghost predicate FitsAt(inp: Input, created: seq<Planned>, k: nat)
    requires k < |created|
  {
    var parsed := Parsed(inp.interfaces);
    var bearing := WithSessions(inp, parsed, true);
    var order := AsnOrder(inp.sessions, parsed);
    var taken := inp.taken + Names(created[..k]);
    if k < |bearing| then
      Fits(inp, created[k], bearing[k].name, [bearing[k].id], InSlot(inp.sessions, parsed, At(bearing[k].id)), taken)
    else
      k - |bearing| < |order| &&
      Fits(inp, created[k], "as" + Digits(order[k - |bearing|]), [],
           InSlot(inp.sessions, parsed, ByAsn(order[k - |bearing|])), taken)
  }

  ghost predicate IsBackfill(inp: Input, out: Result) {
    var parsed := Parsed(inp.interfaces);
    && |out.created| == |WithSessions(inp, parsed, true)| + |AsnOrder(inp.sessions, parsed)|
    && (forall k :: 0 <= k < |out.created| ==> FitsAt(inp, out.created, k))
    && out.skippedInterfaces == Ids(NotBearing(inp.interfaces)) + Ids(WithSessions(inp, parsed, false))
    && out.skippedSessions == SessionIds(InSlot(inp.sessions, parsed, Refused))
  }

  // ----- which sessions a planned peering takes, on the fields of the rows -----

  /** The interface at this place is the one the session goes by: the first it names, or, if it names
      none, the first its addresses fit. */
  ghost predicate AnchorAt(x: BgpSession, parsed: seq<Interface>, k: nat) {
    NamedAt(x, parsed, k) || ((forall i :: i in parsed ==> !ByName(x, i)) && MatchedAt(x, parsed, k))
  }

  ghost predicate Unanchored(x: BgpSession, parsed: seq<Interface>) {
    forall i :: i in parsed ==> !ByName(x, i) && !ByAddress(x, i)
  }

  lemma AnchorIff(x: BgpSession, parsed: seq<Interface>, id: nat)
    ensures Anchor(x, parsed) == Some(id) <==> exists k: nat :: AnchorAt(x, parsed, k) && parsed[k].id == id
    ensures Anchor(x, parsed).None? <==> Unanchored(x, parsed)
  {
    var k := AnchorMeans(x, parsed);
    hide ByName, ByAddress, Anchor;
    if Anchor(x, parsed).Some? {
      if i :| i in parsed && ByName(x, i) {
        assert NamedAt(x, parsed, k);
      } else {
        assert MatchedAt(x, parsed, k);
      }
      assert AnchorAt(x, parsed, k);
      forall j: nat | AnchorAt(x, parsed, j) ensures j == k { OneAnchor(x, parsed, j, k); }
    } else {
      forall j: nat ensures !AnchorAt(x, parsed, j) { NoAnchor(x, parsed, j); }
    }
  }

  lemma NoAnchor(x: BgpSession, parsed: seq<Interface>, j: nat)
    requires Unanchored(x, parsed)
    ensures !AnchorAt(x, parsed, j)
  {
    hide ByName, ByAddress;
    if j < |parsed| { assert parsed[j] in parsed; }
  }

  lemma OneAnchor(x: BgpSession, parsed: seq<Interface>, j: nat, k: nat)
    requires AnchorAt(x, parsed, j) && AnchorAt(x, parsed, k)
    ensures j == k
  {
    hide ByName, ByAddress;
    assert parsed[j] in parsed && parsed[k] in parsed;
  }

  /** Exactly the valid sessions that go by the interface with this id. */
  ghost predicate TakesAnchored(inp: Input, p: Planned, id: nat) {
    forall x :: x in p.sessions <==>
      x in inp.sessions && x.valid && exists k: nat :: AnchorAt(x, Parsed(inp.interfaces), k) && Parsed(inp.interfaces)[k].id == id
  }

  /** Exactly the valid sessions towards this ASN that go by no interface. */
  ghost predicate TakesLoose(inp: Input, p: Planned, asn: nat) {
    forall x :: x in p.sessions <==>
      x in inp.sessions && x.valid && Unanchored(x, Parsed(inp.interfaces)) && x.remoteAsn == asn
  }

  ghost predicate TakesItsOwn(inp: Input, p: Planned) {
    if p.interfaces == [] then TakesLoose(inp, p, p.remoteAsn)
    else |p.interfaces| == 1 && TakesAnchored(inp, p, p.interfaces[0])
  }

  lemma SlotMeans(x: BgpSession, parsed: seq<Interface>, id: nat)
    ensures SlotOf(x, parsed) == At(id) <==> x.valid && exists k: nat :: AnchorAt(x, parsed, k) && parsed[k].id == id
    ensures SlotOf(x, parsed) == ByAsn(id) <==> x.valid && Unanchored(x, parsed) && x.remoteAsn == id
    ensures SlotOf(x, parsed) == Refused <==> !x.valid
  {
    AnchorIff(x, parsed, id);
    hide Anchor, AnchorAt, Unanchored;
  }

  lemma InterfaceTakes(inp: Input, p: Planned, id: nat)
    requires p.interfaces == [id] && p.sessions == InSlot(inp.sessions, Parsed(inp.interfaces), At(id))
    ensures TakesItsOwn(inp, p)
  {
    hide SlotOf, AnchorAt, Unanchored, InSlot, Parsed;
    forall x { SlotMeans(x, Parsed(inp.interfaces), id); }
  }

  /** The ASN of an ASN group is the one that all its sessions have. */
  lemma AsnTakes(inp: Input, p: Planned, asn: nat)
    requires p.interfaces == [] && p.sessions == InSlot(inp.sessions, Parsed(inp.interfaces), ByAsn(asn))
    requires IsMode(Asns(p.sessions), p.remoteAsn)
    ensures TakesItsOwn(inp, p)
  {
    hide SlotOf, AnchorAt, Unanchored, InSlot, Parsed, Count;
    forall x { SlotMeans(x, Parsed(inp.interfaces), asn); }
    var i :| 0 <= i < |Asns(p.sessions)| && Asns(p.sessions)[i] == p.remoteAsn;
    assert p.sessions[i] in p.sessions;
  }

  lemma BackfillTakes(inp: Input, out: Result)
    requires IsBackfill(inp, out)
    ensures forall p :: p in out.created ==> TakesItsOwn(inp, p)
  {
    hide TakesItsOwn, InSlot, Parsed, WithSessions, AsnOrder, IsMode, NameOk, RemoteOk, Digits, Names;
    forall k | 0 <= k < |out.created| ensures TakesItsOwn(inp, out.created[k]) {
      var parsed := Parsed(inp.interfaces);
      var bearing := WithSessions(inp, parsed, true);
      assert FitsAt(inp, out.created, k);
      if k < |bearing| {
        InterfaceTakes(inp, out.created[k], bearing[k].id);
      } else {
        AsnTakes(inp, out.created[k], AsnOrder(inp.sessions, parsed)[k - |bearing|]);
      }
    }
  }

  lemma {:induction false} ParsedIsPart(interfaces: seq<Interface>, x: Interface)
    ensures x in Parsed(interfaces) <==> x in interfaces && Bears(x)
    decreases |interfaces|
  {
    if interfaces != [] {
      ParsedIsPart(interfaces[..|interfaces| - 1], x);
      assert interfaces == interfaces[..|interfaces| - 1] + [interfaces[|interfaces| - 1]];
    }
  }

  lemma ParsedMeans(interfaces: seq<Interface>)
    ensures forall i :: i in Parsed(interfaces) <==> i in interfaces && i.valid && (i.kind.WireGuard? || i.kind.Underlay?)
  {
    forall i ensures i in Parsed(interfaces) <==> i in interfaces && i.valid && (i.kind.WireGuard? || i.kind.Underlay?) {
      ParsedIsPart(interfaces, i);
    }
    hide Parsed;
  }

  // ----- what is kept stays in order -----

  lemma {:induction false} InSlotSplits(a: seq<BgpSession>, b: seq<BgpSession>, parsed: seq<Interface>, slot: Slot)
    ensures InSlot(a + b, parsed, slot) == InSlot(a, parsed, slot) + InSlot(b, parsed, slot)
    decreases |b|
  {
    NothingInSlot(parsed, slot);
    hide InSlot, SlotOf, AsnOrder;
    if b == [] {
      assert a + b == a;
    } else {
      var init, last := b[..|b| - 1], b[|b| - 1];
      assert a + b == a + init + [last] && b == init + [last];
      InSlotSplits(a, init, parsed, slot);
      NextSession(a + init, last, parsed);
      NextSession(init, last, parsed);
    }
  }

  lemma NothingInSlot(parsed: seq<Interface>, slot: Slot)
    ensures InSlot([], parsed, slot) == []
  {
  }

  lemma NextParsed(done: seq<Interface>, row: Interface)
    ensures Parsed(done + [row]) == Parsed(done) + if Bears(row) then [row] else []
    ensures NotBearing(done + [row]) == NotBearing(done) + if Bears(row) then [] else [row]
  {
    hide Bears;
    assert (done + [row])[..|done|] == done;
  }

  lemma {:induction false} ParsedSplits(a: seq<Interface>, b: seq<Interface>)
    ensures Parsed(a + b) == Parsed(a) + Parsed(b) && NotBearing(a + b) == NotBearing(a) + NotBearing(b)
    decreases |b|
  {
    NothingParsed();
    hide Parsed, NotBearing, Bears;
    if b == [] {
      assert a + b == a;
    } else {
      var init, last := b[..|b| - 1], b[|b| - 1];
      assert a + b == a + init + [last] && b == init + [last];
      ParsedSplits(a, init);
      NextParsed(a + init, last);
      NextParsed(init, last);
    }
  }

  lemma NothingParsed()
    ensures Parsed([]) == [] && NotBearing([]) == []
  {
  }

  /** Where an ASN group is first seen: before that, only earlier groups occur. */
  lemma {:induction false} GroupSeenAt(sessions: seq<BgpSession>, parsed: seq<Interface>, i: nat) returns (l: nat)
    requires i < |AsnOrder(sessions, parsed)|
    ensures l < |sessions| && SlotOf(sessions[l], parsed) == ByAsn(AsnOrder(sessions, parsed)[i])
    ensures OnlyGroups(sessions[..l], parsed, AsnOrder(sessions, parsed)[..i])
    decreases |sessions|
  {
    hide SlotOf, InSlot, OnlyGroups, AsnOrder;
    if sessions == [] {
      NoGroups(parsed);
      assert false;
    }
    var init, last := sessions[..|sessions| - 1], sessions[|sessions| - 1];
    assert sessions == init + [last];
    NextSession(init, last, parsed);
    var before := AsnOrder(init, parsed);
    if i < |before| {
      l := GroupSeenAt(init, parsed, i);
      assert sessions[..l] == init[..l] && AsnOrder(sessions, parsed)[..i] == before[..i];
    } else {
      l := |sessions| - 1;
      assert AsnOrder(sessions, parsed)[..i] == before && sessions[..l] == init;
      GroupsAre(init, parsed);
    }
  }

  lemma NoGroups(parsed: seq<Interface>)
    ensures AsnOrder([], parsed) == []
  {
  }

  /** None of the sessions belongs to another ASN group than these. */
  ghost predicate OnlyGroups(sessions: seq<BgpSession>, parsed: seq<Interface>, asns: seq<nat>) {
    forall x :: x in sessions && SlotOf(x, parsed).ByAsn? ==> SlotOf(x, parsed).asn in asns
  }

  lemma GroupsAre(sessions: seq<BgpSession>, parsed: seq<Interface>)
    ensures OnlyGroups(sessions, parsed, AsnOrder(sessions, parsed))
  {
    hide SlotOf;
    forall x | x in sessions && SlotOf(x, parsed).ByAsn? ensures SlotOf(x, parsed).asn in AsnOrder(sessions, parsed) {
      assert x in InSlot(sessions, parsed, SlotOf(x, parsed));
    }
  }

  // ----- the loops -----

  method ParseInterfaces(interfaces: seq<Interface>) returns (parsed: seq<Interface>, skipped: seq<nat>)
    ensures parsed == Parsed(interfaces) && skipped == Ids(NotBearing(interfaces))
  {
    NothingParsed();
    hide Parsed, NotBearing;
    parsed, skipped := [], [];
    assert interfaces[..0] == [];
    for i := 0 to |interfaces|
      invariant parsed == Parsed(interfaces[..i]) && skipped == Ids(NotBearing(interfaces[..i]))
    {
      var row := interfaces[i];
      assert interfaces[..i + 1] == interfaces[..i] + [row];
      NextParsed(interfaces[..i], row);
      if !(row.kind.WireGuard? || row.kind.Underlay?) {
        skipped := skipped + [row.id];
      } else if row.valid {
        parsed := parsed + [row];
      } else {
        skipped := skipped + [row.id];
      }
    }
    assert interfaces[..|interfaces|] == interfaces;
  }

  lemma NextSession(done: seq<BgpSession>, row: BgpSession, parsed: seq<Interface>)
    ensures forall slot :: InSlot(done + [row], parsed, slot)
                        == InSlot(done, parsed, slot) + if SlotOf(row, parsed) == slot then [row] else []
    ensures var slot := SlotOf(row, parsed);
      AsnOrder(done + [row], parsed)
        == AsnOrder(done, parsed) + if slot.ByAsn? && slot.asn !in AsnOrder(done, parsed) then [slot.asn] else []
  {
    assert (done + [row])[..|done|] == done;
  }

  /** The groups after some sessions: those of the anchors, those of the ASNs with their order, and
      the sessions whose spec does not parse. */
  ghost predicate Grouped(done: seq<BgpSession>, parsed: seq<Interface>, anchored: map<nat, seq<BgpSession>>,
                          order: seq<nat>, loose: map<nat, seq<BgpSession>>, skipped: seq<nat>)
  {
    && (forall i :: i in anchored <==> i in Ids(parsed))
    && (forall i :: i in anchored ==> anchored[i] == InSlot(done, parsed, At(i)))
    && order == AsnOrder(done, parsed)
    && (forall a :: a in loose <==> a in order)
    && (forall a :: a in loose ==> loose[a] == InSlot(done, parsed, ByAsn(a)))
    && skipped == SessionIds(InSlot(done, parsed, Refused))
  }

  method PlaceAnchored(row: BgpSession, parsed: seq<Interface>, anchored: map<nat, seq<BgpSession>>, ghost order: seq<nat>,
                       ghost loose: map<nat, seq<BgpSession>>, ghost skipped: seq<nat>, ghost done: seq<BgpSession>)
    returns (now: map<nat, seq<BgpSession>>)
    requires Grouped(done, parsed, anchored, order, loose, skipped) && SlotOf(row, parsed).At?
    ensures Grouped(done + [row], parsed, now, order, loose, skipped)
  {
    hide Anchor, SlotOf, InSlot, AsnOrder, Ids, SessionIds;
    SlotFacts(row, parsed);
    NextSession(done, row, parsed);
    var anchor := Anchor(row, parsed).value;
    now := anchored[anchor := anchored[anchor] + [row]];
  }

  method PlaceLoose(row: BgpSession, parsed: seq<Interface>, ghost anchored: map<nat, seq<BgpSession>>, order: seq<nat>,
                    loose: map<nat, seq<BgpSession>>, ghost skipped: seq<nat>, ghost done: seq<BgpSession>)
    returns (orderNow: seq<nat>, now: map<nat, seq<BgpSession>>)
    requires Grouped(done, parsed, anchored, order, loose, skipped) && SlotOf(row, parsed).ByAsn?
    ensures Grouped(done + [row], parsed, anchored, orderNow, now, skipped)
  {
    hide Anchor, SlotOf, InSlot, AsnOrder, Ids, SessionIds;
    SlotFacts(row, parsed);
    NextSession(done, row, parsed);
    var asn := row.remoteAsn;
    assert asn in order || InSlot(done, parsed, ByAsn(asn)) == [];
    if asn in loose {
      orderNow := order;
      now := loose[asn := loose[asn] + [row]];
    } else {
      orderNow := order + [asn];
      now := loose[asn := [row]];
    }
  }

  lemma PlaceRefused(row: BgpSession, parsed: seq<Interface>, anchored: map<nat, seq<BgpSession>>, order: seq<nat>,
                     loose: map<nat, seq<BgpSession>>, skipped: seq<nat>, done: seq<BgpSession>)
    requires Grouped(done, parsed, anchored, order, loose, skipped) && SlotOf(row, parsed).Refused?
    ensures Grouped(done + [row], parsed, anchored, order, loose, skipped + [row.id])
  {
    hide Anchor, SlotOf, InSlot, AsnOrder, Ids;
    NextSession(done, row, parsed);
  }

  lemma SlotFacts(x: BgpSession, parsed: seq<Interface>)
    ensures SlotOf(x, parsed).At? ==> Anchor(x, parsed) == Some(SlotOf(x, parsed).id) && SlotOf(x, parsed).id in Ids(parsed)
    ensures SlotOf(x, parsed).ByAsn? ==> SlotOf(x, parsed) == ByAsn(x.remoteAsn)
  {
    AnchorIsParsed(x, parsed);
  }

  lemma NothingGrouped(parsed: seq<Interface>)
    ensures Grouped([], parsed, map i | i in Ids(parsed) :: [], [], map[], [])
  {
  }

  /** The session loop. */
  method GroupSessions(sessions: seq<BgpSession>, parsed: seq<Interface>)
    returns (anchored: map<nat, seq<BgpSession>>, order: seq<nat>, loose: map<nat, seq<BgpSession>>, skipped: seq<nat>)
    ensures Grouped(sessions, parsed, anchored, order, loose, skipped)
  {
    hide Grouped, Anchor;
    anchored := map i | i in Ids(parsed) :: [];
    order, loose, skipped := [], map[], [];
    NothingGrouped(parsed);
    assert sessions[..0] == [];
    for k := 0 to |sessions|
      invariant Grouped(sessions[..k], parsed, anchored, order, loose, skipped)
    {
      var row := sessions[k];
      assert sessions[..k + 1] == sessions[..k] + [row];
      if !row.valid {
        PlaceRefused(row, parsed, anchored, order, loose, skipped, sessions[..k]);
        skipped := skipped + [row.id];
      } else if Anchor(row, parsed).Some? {
        anchored := PlaceAnchored(row, parsed, anchored, order, loose, skipped, sessions[..k]);
      } else {
        order, loose := PlaceLoose(row, parsed, anchored, order, loose, skipped, sessions[..k]);
      }
    }
    assert sessions[..|sessions|] == sessions;
  }

  /** One group becomes one planned peering. */
  method PlanGroup(inp: Input, base: string, interfaces: seq<nat>, sessions: seq<BgpSession>, taken: set<string>)
    returns (p: Planned)
    requires sessions != []
    ensures Fits(inp, p, base, interfaces, sessions, taken)
  {
    var asn := DominantAsn(Asns(sessions));
    var name := UniqueName(base, taken);
    var internal := exists x :: x in sessions && Internal(x, inp.asn);
    ResolveMeans(inp.remotes, sessions);
    p := Planned(name, asn, internal, Resolve(inp.remotes, AddressesOf(sessions)), interfaces, sessions);
  }

  lemma FitsStill(inp: Input, created: seq<Planned>, p: Planned, k: nat)
    requires k < |created| && FitsAt(inp, created, k)
    ensures FitsAt(inp, created + [p], k)
  {
    hide Fits, InSlot, Parsed, WithSessions, AsnOrder, Names, Digits;
    assert (created + [p])[..k] == created[..k] && (created + [p])[k] == created[k];
  }

  lemma NextInterface(inp: Input, i: nat)
    requires i < |Parsed(inp.interfaces)|
    ensures var parsed := Parsed(inp.interfaces);
      var busy := InSlot(inp.sessions, parsed, At(parsed[i].id)) != [];
      forall any :: WithSessions(inp, parsed[..i + 1], any)
                 == WithSessions(inp, parsed[..i], any) + if busy == any then [parsed[i]] else []
  {
    var parsed := Parsed(inp.interfaces);
    assert parsed[..i + 1][..i] == parsed[..i];
  }

  lemma {:induction false} WithSessionsPrefix(inp: Input, i: nat)
    requires i <= |Parsed(inp.interfaces)|
    ensures WithSessions(inp, Parsed(inp.interfaces)[..i], true) <= WithSessions(inp, Parsed(inp.interfaces), true)
    decreases |Parsed(inp.interfaces)| - i
  {
    var parsed := Parsed(inp.interfaces);
    if i == |parsed| {
      assert parsed[..i] == parsed;
    } else {
      NextInterface(inp, i);
      WithSessionsPrefix(inp, i + 1);
    }
  }

  lemma NewNames(created: seq<Planned>, p: Planned)
    ensures Names(created + [p]) == Names(created) + {p.name}
  {
  }

  /** The interfaces first: one plan for each that has sessions. */
  method PlanInterfaces(inp: Input, parsed: seq<Interface>, anchored: map<nat, seq<BgpSession>>)
    returns (created: seq<Planned>, skipped: seq<nat>, taken: set<string>)
    requires parsed == Parsed(inp.interfaces)
    requires forall i :: i in Ids(parsed) ==> i in anchored && anchored[i] == InSlot(inp.sessions, parsed, At(i))
    ensures |created| == |WithSessions(inp, parsed, true)|
    ensures forall k :: 0 <= k < |created| ==> FitsAt(inp, created, k)
    ensures skipped == Ids(WithSessions(inp, parsed, false))
    ensures taken == inp.taken + Names(created)
  {
    hide Fits, InSlot, Parsed, WithSessions, FitsAt;
    created, skipped, taken := [], [], inp.taken;
    NoInterfaceYet(inp);
    for i := 0 to |parsed|
      invariant |created| == |WithSessions(inp, parsed[..i], true)|
      invariant forall k :: 0 <= k < |created| ==> FitsAt(inp, created, k)
      invariant skipped == Ids(WithSessions(inp, parsed[..i], false))
      invariant taken == inp.taken + Names(created)
    {
      assert Ids(parsed)[i] in Ids(parsed);
      NextInterface(inp, i);
      if anchored[parsed[i].id] == [] {
        skipped := skipped + [parsed[i].id];
      } else {
        var p := PlanGroup(inp, parsed[i].name, [parsed[i].id], anchored[parsed[i].id], taken);
        PlannedInterfaceFits(inp, created, i, p);
        NewNames(created, p);
        created := created + [p];
        taken := taken + {p.name};
      }
    }
    assert parsed[..|parsed|] == parsed;
  }

  lemma NoInterfaceYet(inp: Input)
    ensures WithSessions(inp, Parsed(inp.interfaces)[..0], true) == []
    ensures WithSessions(inp, Parsed(inp.interfaces)[..0], false) == []
    ensures Names([]) == {}
  {
  }

  lemma PlannedInterfaceFits(inp: Input, created: seq<Planned>, i: nat, p: Planned)
    requires i < |Parsed(inp.interfaces)| && |created| == |WithSessions(inp, Parsed(inp.interfaces)[..i], true)|
    requires var row := Parsed(inp.interfaces)[i];
      Fits(inp, p, row.name, [row.id], InSlot(inp.sessions, Parsed(inp.interfaces), At(row.id)), inp.taken + Names(created))
    requires InSlot(inp.sessions, Parsed(inp.interfaces), At(Parsed(inp.interfaces)[i].id)) != []
    requires forall k :: 0 <= k < |created| ==> FitsAt(inp, created, k)
    ensures forall k :: 0 <= k < |created| + 1 ==> FitsAt(inp, created + [p], k)
  {
    hide Fits, InSlot, Parsed, WithSessions;
    NextInterface(inp, i);
    WithSessionsPrefix(inp, i + 1);
    var bearing, k := WithSessions(inp, Parsed(inp.interfaces), true), |created|;
    var upTo := WithSessions(inp, Parsed(inp.interfaces)[..i + 1], true);
    assert bearing[k] == upTo[k] == Parsed(inp.interfaces)[i];
    assert (created + [p])[..k] == created;
    forall j | 0 <= j < k ensures FitsAt(inp, created + [p], j) {
      FitsStill(inp, created, p, j);
    }
  }

  /** Then the sessions without an anchor: one plan for each remote ASN. */
  method PlanLoose(inp: Input, order: seq<nat>, loose: map<nat, seq<BgpSession>>, first: seq<Planned>, names: set<string>)
    returns (created: seq<Planned>)
    requires order == AsnOrder(inp.sessions, Parsed(inp.interfaces))
    requires forall a :: a in order ==> a in loose && loose[a] == InSlot(inp.sessions, Parsed(inp.interfaces), ByAsn(a))
    requires |first| == |WithSessions(inp, Parsed(inp.interfaces), true)| && names == inp.taken + Names(first)
    requires forall k :: 0 <= k < |first| ==> FitsAt(inp, first, k)
    ensures |created| == |first| + |order| && first <= created
    ensures forall k :: 0 <= k < |created| ==> FitsAt(inp, created, k)
  {
    hide Fits, InSlot, Parsed, WithSessions, AsnOrder, FitsAt;
    var taken := names;
    created := first;
    for i := 0 to |order|
      invariant |created| == |first| + i && first <= created
      invariant forall k :: 0 <= k < |created| ==> FitsAt(inp, created, k)
      invariant taken == inp.taken + Names(created)
    {
      var asn := order[i];
      assert asn in order;
      var p := PlanGroup(inp, "as" + Digits(asn), [], loose[asn], taken);
      PlannedLooseFits(inp, created, i, p);
      NewNames(created, p);
      created := created + [p];
      taken := taken + {p.name};
    }
  }

  lemma PlannedLooseFits(inp: Input, created: seq<Planned>, i: nat, p: Planned)
    requires i < |AsnOrder(inp.sessions, Parsed(inp.interfaces))|
    requires |created| == |WithSessions(inp, Parsed(inp.interfaces), true)| + i
    requires var asn := AsnOrder(inp.sessions, Parsed(inp.interfaces))[i];
      Fits(inp, p, "as" + Digits(asn), [], InSlot(inp.sessions, Parsed(inp.interfaces), ByAsn(asn)), inp.taken + Names(created))
    requires forall k :: 0 <= k < |created| ==> FitsAt(inp, created, k)
    ensures forall k :: 0 <= k < |created| + 1 ==> FitsAt(inp, created + [p], k)
  {
    hide Fits, InSlot, Parsed, WithSessions, AsnOrder;
    var k := |created|;
    assert (created + [p])[..k] == created && (created + [p])[k] == p;
    forall j | 0 <= j < k ensures FitsAt(inp, created + [p], j) {
      FitsStill(inp, created, p, j);
    }
  }

  /** `backfill_peerings`, the planning. */
  method BackfillPeerings(inp: Input) returns (out: Result)
    ensures IsBackfill(inp, out)
    ensures forall p :: p in out.created ==> TakesItsOwn(inp, p)
    ensures forall i :: i in Parsed(inp.interfaces) <==>
      i in inp.interfaces && i.valid && (i.kind.WireGuard? || i.kind.Underlay?)
  {
    ParsedMeans(inp.interfaces);
    hide TakesItsOwn, FitsAt, Parsed, InSlot, WithSessions, AsnOrder;
    var parsed, skipped := ParseInterfaces(inp.interfaces);
    var anchored, order, loose, refused := GroupSessions(inp.sessions, parsed);
    var first, idle, taken := PlanInterfaces(inp, parsed, anchored);
    var created := PlanLoose(inp, order, loose, first, taken);
    out := Result(created, skipped + idle, refused);
    BackfillTakes(inp, out);
  }
}
