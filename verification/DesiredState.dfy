/** The desired state of one node and its validation: the reference checks, and the four passes
    that complete a state before anyone renders or stores it. The passes are published WireGuard
    ports, the BIRD control socket, the CoreDNS service and the DNS anycast interface. */
module DesiredState {
  import opened Wrappers
  import opened Order
  import opened Runtime

  datatype Kind = DummyKind | WireGuardKind | UnderlayKind

  /** As in `Runtime`, `other` stands for the fields that validation only copies. */
  datatype Interface = Interface(name: string, kind: Kind, addresses: seq<string>, listenPort: Option<nat>, other: string)

  datatype Session = Session(name: string, interface: Option<string>, enabled: bool, remoteAsn: nat,
                             internalPolicy: bool, other: string)

  datatype DnsSpec = DnsSpec(enabled: bool, bind: seq<string>, other: string)

  datatype DummyEntry = DummyEntry(ifname: string, trackService: bool)

  /** `topology` is the set of its routers and private nodes. */
  datatype Bird = Bird(dummies: map<string, DummyEntry>, topology: Option<set<string>>, other: string)

  datatype State = State(generation: nat, nodeId: string, asn: nat, runtime: Runtime, bird: Bird,
                         interfaces: seq<Interface>, sessions: seq<Session>, dns: Option<DnsSpec>, other: string)

  const SOCKET_SOURCE := "runtime/bird-run"
  const SOCKET_TARGET := "/run/bird"
  const DNS_NAME := "dn42-dns"
  const DNS_IMAGE := "coredns/coredns:1.12.1"
  const DNS_SOURCE := "coredns"
  const DNS_TARGET := "/etc/coredns"
  const ANYCAST := "dns-anycast"

  // ----- reference checks -----

  predicate BoundTo(x: Session, name: string) {
    x.interface == Some(name) && name != ""
  }

  predicate Known(interfaces: seq<Interface>, name: string) {
    exists i :: 0 <= i < |interfaces| && interfaces[i].name == name
  }

  predicate InterfaceNamesUnique(interfaces: seq<Interface>) {
    forall i, j :: 0 <= i < j < |interfaces| ==> interfaces[i].name != interfaces[j].name
  }

  predicate SessionNamesUnique(sessions: seq<Session>) {
    forall i, j :: 0 <= i < j < |sessions| ==> sessions[i].name != sessions[j].name
  }

  predicate SessionsKnown(sessions: seq<Session>, interfaces: seq<Interface>) {
    forall x :: x in sessions && x.interface.Some? && x.interface.value != "" ==> Known(interfaces, x.interface.value)
  }

  predicate External(x: Session, asn: nat) {
    x.interface.Some? && x.interface.value != "" && x.enabled && !(x.remoteAsn == asn || x.internalPolicy)
  }

  predicate OneAsnEach(sessions: seq<Session>, asn: nat) {
    forall x, y :: x in sessions && y in sessions && External(x, asn) && External(y, asn) && x.interface == y.interface ==>
      x.remoteAsn == y.remoteAsn
  }

  predicate References(s: State) {
    && s.generation >= 1
    && InterfaceNamesUnique(s.interfaces)
    && SessionNamesUnique(s.sessions)
    && SessionsKnown(s.sessions, s.interfaces)
    && OneAsnEach(s.sessions, s.asn)
    && (s.bird.topology.Some? ==> s.nodeId in s.bird.topology.value)
  }

  /** A pass that touched the services has the new runtime validated before it is kept. */
  function WithServices(s: State, services: seq<Service>): Option<State> {
    var r := s.runtime.(services := services);
    if RuntimeValid(r) then Some(s.(runtime := r)) else None
  }

  // ----- first pass: published WireGuard ports -----

  predicate Listening(i: Interface) {
    i.kind.WireGuardKind? && i.listenPort.Some?
  }

  predicate ListenTwice(interfaces: seq<Interface>) {
    exists i, j :: 0 <= i < j < |interfaces| && Listening(interfaces[i]) && Listening(interfaces[j]) &&
      interfaces[i].listenPort == interfaces[j].listenPort
  }

  function ListenPorts(interfaces: seq<Interface>): set<nat> {
    set i | i in interfaces && Listening(i) :: i.listenPort.value
  }

  predicate InRange(r: PortRange, port: nat) {
    r.start <= port <= r.end
  }

  function HostStart(r: PortRange): nat {
    if r.hostStart.Some? && r.hostStart.value != 0 then r.hostStart.value else r.start
  }

  function ManagedPort(r: PortRange): Port {
    Port(r.hostIp, Some(HostStart(r)), Some(HostStart(r) + (if r.start <= r.end then r.end - r.start else 0)),
         r.start, Some(r.end), "udp")
  }

  datatype SortKey = SortKey(ip: string, host: nat, hostEnd: nat, port: nat, portEnd: nat, protocol: string)

  function OrElse(x: Option<nat>, fallback: nat): nat {
    if x.Some? && x.value != 0 then x.value else fallback
  }

  function KeyOf(p: Port): SortKey {
    SortKey(if p.hostIp.Some? then p.hostIp.value else "", OrElse(p.hostPort, 0),
            OrElse(p.hostPortEnd, OrElse(p.hostPort, 0)), p.containerPort, OrElse(p.containerPortEnd, p.containerPort),
            p.protocol)
  }

  predicate Before(a: SortKey, b: SortKey) {
    if a.ip != b.ip then Less(a.ip, b.ip)
    else if a.host != b.host then a.host < b.host
    else if a.hostEnd != b.hostEnd then a.hostEnd < b.hostEnd
    else if a.port != b.port then a.port < b.port
    else if a.portEnd != b.portEnd then a.portEnd < b.portEnd
    else Less(a.protocol, b.protocol)
  }

  predicate PortBefore(a: Port, b: Port) {
    Before(KeyOf(a), KeyOf(b))
  }

  lemma BeforeIsOneWay(a: SortKey, b: SortKey)
    ensures !(Before(a, b) && Before(b, a))
  {
    Total(a.ip, b.ip);
    Total(a.protocol, b.protocol);
  }

  lemma PortsOneWay()
    ensures OneWay(PortBefore)
  {
    forall a: Port, b: Port ensures !(PortBefore(a, b) && PortBefore(b, a)) {
      BeforeIsOneWay(KeyOf(a), KeyOf(b));
    }
  }

  /** `sorted(...)` with the source's key. */
  function SortPorts(ports: seq<Port>): (r: seq<Port>)
    ensures multiset(r) == multiset(ports) && InOrder(r, PortBefore)
    ensures forall p :: p in r <==> p in ports
  {
    PortsOneWay();
    SortedInOrder(ports, PortBefore);
    SortBy(ports, PortBefore)
  }

  /** The first rule comes first: by host address, then by the host ports, the container ports and the
      protocol, where a missing end is the start. */
  ghost predicate NotAfter(p: Port, q: Port) {
    var a, b := if p.hostIp.Some? then p.hostIp.value else "", if q.hostIp.Some? then q.hostIp.value else "";
    Less(a, b) || (a == b && LexNotAfter(Numbers(p), Numbers(q)) && (Numbers(p) == Numbers(q) ==> !Less(q.protocol, p.protocol)))
  }

  function Numbers(p: Port): seq<nat> {
    var host := if p.hostPort.Some? then p.hostPort.value else 0;
    [host, if p.hostPortEnd.Some? && p.hostPortEnd.value != 0 then p.hostPortEnd.value else host, p.containerPort,
     if p.containerPortEnd.Some? && p.containerPortEnd.value != 0 then p.containerPortEnd.value else p.containerPort]
  }

  /** Lists of numbers of one length, compared at the first place where they differ. */
  ghost predicate LexNotAfter(a: seq<nat>, b: seq<nat>)
    requires |a| == |b|
  {
    a == b || exists k :: 0 <= k < |a| && a[..k] == b[..k] && a[k] < b[k]
  }

  lemma NotBeforeMeans(p: Port, q: Port)
    requires !PortBefore(q, p)
    ensures NotAfter(p, q)
  {
    var a, b := KeyOf(p), KeyOf(q);
    Total(a.ip, b.ip);
    var m, n := Numbers(p), Numbers(q);
    assert m == [a.host, a.hostEnd, a.port, a.portEnd] && n == [b.host, b.hostEnd, b.port, b.portEnd];
    hide Less;
    if a.ip == b.ip && m != n {
      var k := if m[0] != n[0] then 0 else if m[1] != n[1] then 1 else if m[2] != n[2] then 2 else 3;
      assert m[..k] == n[..k] && m[k] < n[k];
    }
  }

  /** Published rules are listed in that order. */
  lemma PortsAscend(ports: seq<Port>)
    ensures forall i :: 0 < i < |SortPorts(ports)| ==> NotAfter(SortPorts(ports)[i - 1], SortPorts(ports)[i])
  {
    hide NotAfter, PortBefore, SortPorts;
    forall i | 0 < i < |SortPorts(ports)| ensures NotAfter(SortPorts(ports)[i - 1], SortPorts(ports)[i]) {
      NotBeforeMeans(SortPorts(ports)[i - 1], SortPorts(ports)[i]);
    }
  }

  function Publish(x: Service, port: Port): Service {
    if x.role.RouterNetns? && port !in x.ports then x.(ports := SortPorts(x.ports + [port])) else x
  }

  function PublishAll(services: seq<Service>, port: Port): (r: seq<Service>)
    ensures |r| == |services| && forall i :: 0 <= i < |r| ==> r[i] == Publish(services[i], port)
  {
    seq(|services|, i requires 0 <= i < |services| => Publish(services[i], port))
  }

  function PublishPorts(s: State): Option<State> {
    if ListenTwice(s.interfaces) then None
    else if ListenPorts(s.interfaces) == {} || s.runtime.portRange.None? then Some(s)
    else if exists p :: p in ListenPorts(s.interfaces) && !InRange(s.runtime.portRange.value, p) then None
    else
      var services := PublishAll(s.runtime.services, ManagedPort(s.runtime.portRange.value));
      if services == s.runtime.services then Some(s) else WithServices(s, services)
  }

  // ----- second pass: the control socket of BIRD -----

  function FirstWith(services: seq<Service>, role: Role): (r: Option<Service>)
    ensures r.Some? ==> r.value in services && r.value.role == role
    ensures r.Some? <==> HasRole(services, role)
  {
    if services == [] then None
    else if services[0].role == role then Some(services[0])
    else
      assert services == [services[0]] + services[1..];
      assert forall i :: 0 < i < |services| ==> services[i] == services[1..][i - 1];
      FirstWith(services[1..], role)
  }

  function FirstMount(volumes: seq<Mount>, target: string): Option<Mount> {
    if volumes == [] then None
    else if volumes[0].target == target then Some(volumes[0])
    else FirstMount(volumes[1..], target)
  }

  function MountSocket(x: Service, name: string): Service {
    if x.name == name then x.(volumes := x.volumes + [Mount(SOCKET_SOURCE, SOCKET_TARGET, false)]) else x
  }

  function MountAll(services: seq<Service>, name: string): (r: seq<Service>)
    ensures |r| == |services| && forall i :: 0 <= i < |r| ==> r[i] == MountSocket(services[i], name)
  {
    seq(|services|, i requires 0 <= i < |services| => MountSocket(services[i], name))
  }

  function ExposeSocket(s: State): Option<State> {
    var bird := FirstWith(s.runtime.services, BirdRouter);
    if bird.None? then Some(s)
    else
      var existing := FirstMount(bird.value.volumes, SOCKET_TARGET);
      if existing.Some? then (if existing.value.readonly then None else Some(s))
      else WithServices(s, MountAll(s.runtime.services, bird.value.name))
  }

  // ----- third pass: CoreDNS -----

  predicate DnsOn(s: State) {
    s.dns.Some? && s.dns.value.enabled
  }

  function WithoutDns(services: seq<Service>): (r: seq<Service>)
    ensures forall x :: x in r <==> x in services && !x.role.Dns?
  {
    if services == [] then []
    else
      var rest := WithoutDns(services[1..]);
      assert services == [services[0]] + services[1..];
      if services[0].role.Dns? then rest else [services[0]] + rest
  }

  function CoreDns(netns: Service, gateway: Option<Service>): Service {
    Service(DNS_NAME, Dns, true, Some(DNS_IMAGE), ["-conf", DNS_TARGET + "/Corefile"], [],
            Some(SERVICE_PREFIX + netns.name), [Mount(DNS_SOURCE, DNS_TARGET, true)],
            [netns.name] + (if gateway.Some? then [gateway.value.name] else []), None, "")
  }

  function DeployDns(s: State): Option<State> {
    var services := s.runtime.services;
    if !DnsOn(s) then
      if HasRole(services, Dns) then WithServices(s, WithoutDns(services)) else Some(s)
    else if HasRole(services, Dns) then Some(s)
    else
      var netns := FirstWith(services, RouterNetns);
      if netns.None? then Some(s)
      else WithServices(s, services + [CoreDns(netns.value, FirstWith(services, WgGateway))])
  }

  // ----- fourth pass: the anycast interface -----

  predicate AnycastOn(s: State) {
    DnsOn(s) && s.dns.value.bind != []
  }

  /** A bare address as a host prefix. */
  function HostCidr(address: string): string {
    if '/' in address then address else address + (if ':' in address then "/128" else "/32")
  }

  function HostCidrs(addresses: seq<string>): seq<string> {
    seq(|addresses|, i requires 0 <= i < |addresses| => HostCidr(addresses[i]))
  }

  function AnycastInterface(d: DnsSpec): Interface {
    Interface(ANYCAST, DummyKind, HostCidrs(d.bind), None, "")
  }

  function WithoutAnycast(interfaces: seq<Interface>): (r: seq<Interface>)
    ensures forall x :: x in r <==> x in interfaces && x.name != ANYCAST
  {
    if interfaces == [] then []
    else
      var rest := WithoutAnycast(interfaces[1..]);
      assert interfaces == [interfaces[0]] + interfaces[1..];
      if interfaces[0].name == ANYCAST then rest else [interfaces[0]] + rest
  }

  function Announce(s: State): State {
    var rest := WithoutAnycast(s.interfaces);
    var dummies := s.bird.dummies - {ANYCAST};
    if AnycastOn(s) then
      s.(interfaces := rest + [AnycastInterface(s.dns.value)],
         bird := s.bird.(dummies := dummies[ANYCAST := DummyEntry(ANYCAST, true)]))
    else s.(interfaces := rest, bird := s.bird.(dummies := dummies))
  }

  // ----- validation -----

  function Normalised(s: State): Option<State> {
    var a := PublishPorts(s);
    if a.None? then None
    else
      var b := ExposeSocket(a.value);
      if b.None? then None
      else
        var c := DeployDns(b.value);
        if c.None? then None else Some(Announce(c.value))
  }

  /** `DesiredState.model_validate`: None stands for the validation error. */
  function Validate(s: State): Option<State> {
    if RuntimeValid(s.runtime) && References(s) then Normalised(s) else None
  }

  // ----- the helpers, by what they find and keep -----

  /** A list splits into its parts, so what a filter keeps stays in order. */
  lemma {:induction false} WithoutDnsSplits(a: seq<Service>, b: seq<Service>)
    ensures WithoutDns(a + b) == WithoutDns(a) + WithoutDns(b)
    ensures forall x :: WithoutDns([x]) == if x.role.Dns? then [] else [x]
    decreases |a|
  {
    forall x ensures WithoutDns([x]) == if x.role.Dns? then [] else [x] {
      assert [x][1..] == [] && WithoutDns([x][1..]) == [];
    }
    if a == [] {
      assert a + b == b;
    } else {
      assert (a + b)[0] == a[0] && (a + b)[1..] == a[1..] + b;
      WithoutDnsSplits(a[1..], b);
    }
  }

  lemma {:induction false} WithoutAnycastSplits(a: seq<Interface>, b: seq<Interface>)
    ensures WithoutAnycast(a + b) == WithoutAnycast(a) + WithoutAnycast(b)
    ensures forall x :: WithoutAnycast([x]) == if x.name == ANYCAST then [] else [x]
    decreases |a|
  {
    forall x ensures WithoutAnycast([x]) == if x.name == ANYCAST then [] else [x] {
      assert [x][1..] == [] && WithoutAnycast([x][1..]) == [];
    }
    if a == [] {
      assert a + b == b;
    } else {
      assert (a + b)[0] == a[0] && (a + b)[1..] == a[1..] + b;
      WithoutAnycastSplits(a[1..], b);
    }
  }

  /** The place of the first service of a role. */
  ghost predicate FirstAt(services: seq<Service>, role: Role, k: nat) {
    k < |services| && services[k].role == role && forall j :: 0 <= j < k ==> services[j].role != role
  }

  lemma {:induction false} FirstWithMeans(services: seq<Service>, role: Role)
    ensures forall k: nat :: FirstAt(services, role, k) ==> FirstWith(services, role) == Some(services[k])
    ensures FirstWith(services, role).Some? ==> exists k: nat :: FirstAt(services, role, k)
  {
    if services != [] {
      var rest := services[1..];
      if services[0].role == role {
        assert FirstAt(services, role, 0);
      } else {
        FirstWithMeans(rest, role);
        forall k: nat ensures FirstAt(services, role, k + 1) <==> FirstAt(rest, role, k) {
          if FirstAt(rest, role, k) {
            forall j | 0 <= j < k + 1 ensures services[j].role != role {
              if j > 0 { assert rest[j - 1].role != role; }
            }
          }
          if FirstAt(services, role, k + 1) {
            forall j | 0 <= j < k ensures rest[j].role != role { assert services[j + 1].role != role; }
          }
        }
        forall k: nat | FirstAt(services, role, k) ensures k > 0 && FirstAt(rest, role, k - 1) {
        }
      }
    }
  }

  /** The first mount at the target decides. */
  ghost predicate MountAt(volumes: seq<Mount>, target: string, k: nat) {
    k < |volumes| && volumes[k].target == target && forall j :: 0 <= j < k ==> volumes[j].target != target
  }

  lemma {:induction false} FirstMountMeans(volumes: seq<Mount>, target: string) returns (k: nat)
    ensures FirstMount(volumes, target).None? <==> forall m :: m in volumes ==> m.target != target
    ensures FirstMount(volumes, target).Some? ==> MountAt(volumes, target, k) && FirstMount(volumes, target) == Some(volumes[k])
  {
    k := 0;
    if volumes != [] && volumes[0].target != target {
      var rest := volumes[1..];
      assert volumes == [volumes[0]] + rest;
      k := FirstMountMeans(rest, target);
      k := k + 1;
    }
  }

  lemma HostCidrMeans(address: string)
    ensures '/' in address ==> HostCidr(address) == address
    ensures '/' !in address && ':' in address ==> HostCidr(address) == address + "/128"
    ensures '/' !in address && ':' !in address ==> HostCidr(address) == address + "/32"
  {
  }

  // ----- what each pass leaves settled, and what later passes keep -----

  ghost predicate NetnsPublish(services: seq<Service>, port: Port) {
    forall x :: x in services && x.role.RouterNetns? ==> port in x.ports
  }

  /** The first pass has nothing to do. */
  ghost predicate PortsSettled(interfaces: seq<Interface>, range: Option<PortRange>, services: seq<Service>) {
    && !ListenTwice(interfaces)
    && (ListenPorts(interfaces) != {} && range.Some? ==>
          && (forall p :: p in ListenPorts(interfaces) ==> InRange(range.value, p))
          && NetnsPublish(services, ManagedPort(range.value)))
  }

  ghost predicate SocketSettled(services: seq<Service>) {
    var bird := FirstWith(services, BirdRouter);
    bird.Some? ==>
      FirstMount(bird.value.volumes, SOCKET_TARGET).Some? && !FirstMount(bird.value.volumes, SOCKET_TARGET).value.readonly
  }

  ghost predicate DnsSettled(on: bool, services: seq<Service>) {
    HasRole(services, Dns) <==> on
  }

  ghost predicate Settled(s: State) {
    && PortsSettled(s.interfaces, s.runtime.portRange, s.runtime.services)
    && SocketSettled(s.runtime.services)
    && DnsSettled(DnsOn(s), s.runtime.services)
    && Announce(s) == s
  }

  lemma SettledIsNormalised(s: State)
    requires Settled(s)
    ensures Normalised(s) == Some(s)
  {
    PortsStay(s);
  }

  lemma PortsStay(s: State)
    requires PortsSettled(s.interfaces, s.runtime.portRange, s.runtime.services)
    ensures PublishPorts(s) == Some(s)
  {
    if ListenPorts(s.interfaces) != {} && s.runtime.portRange.Some? {
      var port := ManagedPort(s.runtime.portRange.value);
      var services := s.runtime.services;
      forall i | 0 <= i < |services| ensures Publish(services[i], port) == services[i] {
        assert services[i] in services;
      }
      assert PublishAll(services, port) == services;
    }
  }

  lemma PublishExtends(x: Service, port: Port)
    ensures Extends(x, Publish(x, port))
  {
  }

  lemma PublishedSettles(services: seq<Service>, port: Port)
    ensures NetnsPublish(PublishAll(services, port), port)
    ensures SameServices(services, PublishAll(services, port))
  {
    var published := PublishAll(services, port);
    forall i | 0 <= i < |services| ensures Extends(services[i], published[i]) {
      PublishExtends(services[i], port);
    }
    forall x | x in published && x.role.RouterNetns? ensures port in x.ports {
      var i :| 0 <= i < |published| && published[i] == x;
    }
  }

  lemma AfterPorts(s: State, t: State)
    requires PublishPorts(s) == Some(t)
    ensures PortsSettled(t.interfaces, t.runtime.portRange, t.runtime.services)
    ensures t == s.(runtime := s.runtime.(services := t.runtime.services))
    ensures RuntimeValid(s.runtime) ==> RuntimeValid(t.runtime)
    ensures SameServices(s.runtime.services, t.runtime.services)
  {
    if ListenPorts(s.interfaces) == {} || s.runtime.portRange.None? {
      ExtendsItself(s.runtime.services);
    } else {
      PublishedSettles(s.runtime.services, ManagedPort(s.runtime.portRange.value));
    }
  }

  /** The same services in the same order, some with more ports or more mounts. */
  ghost predicate Extends(x: Service, y: Service) {
    && y == x.(ports := y.ports, volumes := y.volumes)
    && (forall p :: p in x.ports ==> p in y.ports)
    && x.volumes <= y.volumes
  }

  ghost predicate SameServices(a: seq<Service>, b: seq<Service>) {
    |a| == |b| && forall i :: 0 <= i < |a| ==> Extends(a[i], b[i])
  }

  lemma SameRoles(a: seq<Service>, b: seq<Service>, role: Role)
    requires SameServices(a, b)
    ensures HasRole(a, role) <==> HasRole(b, role)
  {
    if HasRole(a, role) {
      var i :| 0 <= i < |a| && a[i].role == role;
      assert b[i].role == role;
    }
    if HasRole(b, role) {
      var i :| 0 <= i < |b| && b[i].role == role;
      assert a[i].role == role;
    }
  }

  lemma {:induction false} FirstMountAppended(volumes: seq<Mount>, m: Mount)
    requires FirstMount(volumes, m.target).None?
    ensures FirstMount(volumes + [m], m.target) == Some(m)
  {
    if volumes != [] {
      assert (volumes + [m])[1..] == volumes[1..] + [m];
      FirstMountAppended(volumes[1..], m);
    }
  }

  lemma {:induction false} FirstOfMounted(services: seq<Service>, name: string, role: Role)
    ensures FirstWith(MountAll(services, name), role)
         == if FirstWith(services, role).None? then None else Some(MountSocket(FirstWith(services, role).value, name))
  {
    if services != [] && services[0].role != role {
      assert MountAll(services, name)[1..] == MountAll(services[1..], name);
      FirstOfMounted(services[1..], name, role);
    }
  }

  lemma MountedSettles(services: seq<Service>, bird: Service)
    requires FirstWith(services, BirdRouter) == Some(bird) && FirstMount(bird.volumes, SOCKET_TARGET).None?
    ensures SocketSettled(MountAll(services, bird.name))
  {
    FirstOfMounted(services, bird.name, BirdRouter);
    FirstMountAppended(bird.volumes, Mount(SOCKET_SOURCE, SOCKET_TARGET, false));
  }

  lemma ExtendsItself(services: seq<Service>)
    ensures SameServices(services, services)
  {
  }

  lemma AfterSocket(s: State, t: State)
    requires ExposeSocket(s) == Some(t)
    requires PortsSettled(s.interfaces, s.runtime.portRange, s.runtime.services)
    ensures PortsSettled(t.interfaces, t.runtime.portRange, t.runtime.services) && SocketSettled(t.runtime.services)
    ensures t == s.(runtime := s.runtime.(services := t.runtime.services))
    ensures RuntimeValid(s.runtime) ==> RuntimeValid(t.runtime)
    ensures SameServices(s.runtime.services, t.runtime.services)
  {
    var services := s.runtime.services;
    var bird := FirstWith(services, BirdRouter);
    if bird.None? || FirstMount(bird.value.volumes, SOCKET_TARGET).Some? {
      ExtendsItself(services);
    } else {
      MountedSettles(services, bird.value);
      MountingKeepsPorts(services, bird.value.name);
      MountingExtends(services, bird.value.name);
    }
  }

  lemma MountingExtends(services: seq<Service>, name: string)
    ensures SameServices(services, MountAll(services, name))
  {
  }

  lemma MountingKeepsPorts(services: seq<Service>, name: string)
    ensures forall port :: NetnsPublish(services, port) ==> NetnsPublish(MountAll(services, name), port)
  {
    var mounted := MountAll(services, name);
    forall port, x | NetnsPublish(services, port) && x in mounted && x.role.RouterNetns? ensures port in x.ports {
      var i :| 0 <= i < |mounted| && mounted[i] == x;
      assert services[i] in services && x == MountSocket(services[i], name);
    }
  }

  lemma {:induction false} FirstWithoutDns(services: seq<Service>, role: Role)
    requires !role.Dns?
    ensures FirstWith(WithoutDns(services), role) == FirstWith(services, role)
  {
    if services != [] {
      FirstWithoutDns(services[1..], role);
      if !services[0].role.Dns? {
        assert WithoutDns(services)[1..] == WithoutDns(services[1..]);
      }
    }
  }

  lemma {:induction false} FirstWithMore(services: seq<Service>, x: Service, role: Role)
    requires x.role != role
    ensures FirstWith(services + [x], role) == FirstWith(services, role)
  {
    if services == [] {
      assert [x][1..] == [];
    } else {
      assert (services + [x])[1..] == services[1..] + [x];
      FirstWithMore(services[1..], x, role);
    }
  }

  lemma AfterDns(s: State, t: State)
    requires DeployDns(s) == Some(t) && HasRole(s.runtime.services, RouterNetns)
    requires PortsSettled(s.interfaces, s.runtime.portRange, s.runtime.services) && SocketSettled(s.runtime.services)
    ensures PortsSettled(t.interfaces, t.runtime.portRange, t.runtime.services) && SocketSettled(t.runtime.services)
    ensures DnsSettled(DnsOn(t), t.runtime.services)
    ensures t == s.(runtime := s.runtime.(services := t.runtime.services))
    ensures RuntimeValid(s.runtime) ==> RuntimeValid(t.runtime)
  {
    hide RuntimeValid, PortsSettled, SocketSettled, DnsSettled, CoreDns, FirstWith;
    var services := s.runtime.services;
    CoreDnsIsDns(FirstWith(services, RouterNetns), FirstWith(services, WgGateway));
    if DnsOn(s) && !HasRole(services, Dns) {
      InjectedSettles(s, CoreDns(FirstWith(services, RouterNetns).value, FirstWith(services, WgGateway)));
    } else if !DnsOn(s) && HasRole(services, Dns) {
      StrippedSettles(s);
    } else {
      assert t == s;
      assert DnsSettled(DnsOn(t), services) by { DnsIs(services, DnsOn(t)); }
    }
  }

  lemma CoreDnsIsDns(netns: Option<Service>, gateway: Option<Service>)
    ensures netns.Some? ==> CoreDns(netns.value, gateway).role.Dns?
  {
  }

  lemma DnsIs(services: seq<Service>, on: bool)
    requires HasRole(services, Dns) <==> on
    ensures DnsSettled(on, services)
  {
  }

  lemma InjectedSettles(s: State, added: Service)
    requires added.role.Dns?
    requires PortsSettled(s.interfaces, s.runtime.portRange, s.runtime.services) && SocketSettled(s.runtime.services)
    ensures var services := s.runtime.services + [added];
      PortsSettled(s.interfaces, s.runtime.portRange, services) && SocketSettled(services) && DnsSettled(true, services)
  {
    FirstWithMore(s.runtime.services, added, BirdRouter);
    hide FirstWith, ListenTwice, ListenPorts;
    assert (s.runtime.services + [added])[|s.runtime.services|].role == Dns;
  }

  lemma StrippedSettles(s: State)
    requires PortsSettled(s.interfaces, s.runtime.portRange, s.runtime.services) && SocketSettled(s.runtime.services)
    ensures var services := WithoutDns(s.runtime.services);
      PortsSettled(s.interfaces, s.runtime.portRange, services) && SocketSettled(services) && DnsSettled(false, services)
  {
    hide FirstWith, ListenTwice, ListenPorts, HasRole, WithoutDns;
    FirstWithoutDns(s.runtime.services, BirdRouter);
    NoneLeft(s.runtime.services);
  }

  lemma NoneLeft(services: seq<Service>)
    ensures !HasRole(WithoutDns(services), Dns)
  {
    var kept := WithoutDns(services);
    forall i | 0 <= i < |kept| ensures kept[i].role != Dns {
      assert kept[i] in kept;
    }
  }

  lemma {:induction false} StripTwice(interfaces: seq<Interface>, x: Interface)
    ensures WithoutAnycast(WithoutAnycast(interfaces)) == WithoutAnycast(interfaces)
    ensures x.name == ANYCAST ==> WithoutAnycast(WithoutAnycast(interfaces) + [x]) == WithoutAnycast(interfaces)
  {
    var rest := WithoutAnycast(interfaces);
    if interfaces == [] {
      assert [] + [x] == [x] && [x][1..] == [];
    } else {
      StripTwice(interfaces[1..], x);
      if interfaces[0].name != ANYCAST {
        assert rest == [interfaces[0]] + WithoutAnycast(interfaces[1..]);
        assert rest[1..] == WithoutAnycast(interfaces[1..]);
        assert (rest + [x])[1..] == WithoutAnycast(interfaces[1..]) + [x];
      }
    }
  }

  lemma AnnounceTwice(s: State)
    ensures Announce(Announce(s)) == Announce(s)
  {
    var t := Announce(s);
    assert t.dns == s.dns && (AnycastOn(t) <==> AnycastOn(s));
    var dummies := s.bird.dummies - {ANYCAST};
    if AnycastOn(s) {
      StripTwice(s.interfaces, AnycastInterface(s.dns.value));
      assert dummies[ANYCAST := DummyEntry(ANYCAST, true)] - {ANYCAST} == dummies;
    } else {
      StripTwice(s.interfaces, Interface("", DummyKind, [], None, ""));
      assert dummies - {ANYCAST} == dummies;
    }
  }

  lemma {:induction false} StripKeepsDistinct(interfaces: seq<Interface>)
    requires InterfaceNamesUnique(interfaces)
    ensures InterfaceNamesUnique(WithoutAnycast(interfaces))
  {
    if interfaces != [] {
      var rest := interfaces[1..];
      assert forall i :: 0 <= i < |rest| ==> rest[i] == interfaces[i + 1];
      StripKeepsDistinct(rest);
      var kept := WithoutAnycast(rest);
      forall j | 0 <= j < |kept| ensures kept[j].name != interfaces[0].name {
        assert kept[j] in rest;
        var i :| 0 <= i < |rest| && rest[i] == kept[j];
        assert interfaces[0].name != interfaces[i + 1].name;
      }
    }
  }

  /** Interface names stay unique. */
  lemma NamesStayUnique(s: State)
    requires InterfaceNamesUnique(s.interfaces)
    ensures InterfaceNamesUnique(Announce(s).interfaces)
  {
    StripKeepsDistinct(s.interfaces);
    var kept := WithoutAnycast(s.interfaces);
    assert forall j :: 0 <= j < |kept| ==> kept[j] in kept && kept[j].name != ANYCAST;
  }

  lemma AnnouncedListeners(s: State)
    requires InterfaceNamesUnique(s.interfaces) && !ListenTwice(s.interfaces)
    ensures ListenPorts(Announce(s).interfaces) <= ListenPorts(s.interfaces)
    ensures !ListenTwice(Announce(s).interfaces)
  {
    NamesStayUnique(s);
    var t := Announce(s).interfaces;
    forall x | x in t && Listening(x) ensures x in s.interfaces {
      assert x in WithoutAnycast(s.interfaces);
    }
    forall i, j | 0 <= i < j < |t| && Listening(t[i]) && Listening(t[j])
      ensures t[i].listenPort != t[j].listenPort
    {
      assert t[i] in t && t[j] in t;
      ListenApart(s.interfaces, t[i], t[j]);
    }
  }

  lemma ListenApart(interfaces: seq<Interface>, x: Interface, y: Interface)
    requires !ListenTwice(interfaces) && x in interfaces && y in interfaces
    requires Listening(x) && Listening(y) && x.name != y.name
    ensures x.listenPort != y.listenPort
  {
    var k :| 0 <= k < |interfaces| && interfaces[k] == x;
    var l :| 0 <= l < |interfaces| && interfaces[l] == y;
    if k < l {
      assert interfaces[k].listenPort != interfaces[l].listenPort;
    } else {
      assert interfaces[l].listenPort != interfaces[k].listenPort;
    }
  }

  lemma ValidHasNetns(r: Runtime)
    requires RuntimeValid(r)
    ensures HasRole(r.services, RouterNetns)
  {
    var enabled := EnabledOf(r.services);
    var i :| 0 <= i < |enabled| && enabled[i].role == RouterNetns;
    assert enabled[i] in r.services;
  }

  /** The three passes over the services. */
  lemma ServicesSettle(s: State, a: State, b: State, c: State)
    requires RuntimeValid(s.runtime)
    requires PublishPorts(s) == Some(a) && ExposeSocket(a) == Some(b) && DeployDns(b) == Some(c)
    ensures PortsSettled(c.interfaces, c.runtime.portRange, c.runtime.services) && SocketSettled(c.runtime.services)
    ensures DnsSettled(DnsOn(c), c.runtime.services) && RuntimeValid(c.runtime)
    ensures c == s.(runtime := s.runtime.(services := c.runtime.services))
  {
    ValidHasNetns(s.runtime);
    AfterPorts(s, a);
    SameRoles(s.runtime.services, a.runtime.services, RouterNetns);
    AfterSocket(a, b);
    SameRoles(a.runtime.services, b.runtime.services, RouterNetns);
    AfterDns(b, c);
  }

  lemma AnnounceSettles(c: State)
    requires PortsSettled(c.interfaces, c.runtime.portRange, c.runtime.services) && SocketSettled(c.runtime.services)
    requires DnsSettled(DnsOn(c), c.runtime.services) && InterfaceNamesUnique(c.interfaces)
    ensures Settled(Announce(c)) && InterfaceNamesUnique(Announce(c).interfaces)
  {
    AnnounceTwice(c);
    NamesStayUnique(c);
    AnnouncedListeners(c);
  }

  /** Everything validation establishes, at once. */
  lemma Validated(s: State, t: State)
    requires Validate(s) == Some(t)
    ensures Settled(t) && RuntimeValid(t.runtime) && InterfaceNamesUnique(t.interfaces)
    ensures t == s.(runtime := s.runtime.(services := t.runtime.services), interfaces := t.interfaces,
                    bird := s.bird.(dummies := t.bird.dummies))
    ensures t.interfaces == Announce(s).interfaces && t.bird.dummies == Announce(s).bird.dummies
  {
    var a, b, c := Passes(s, t);
    hide Validate, References, RuntimeValid, PublishPorts, ExposeSocket, DeployDns, PortsSettled, SocketSettled, DnsSettled, Settled,
         InterfaceNamesUnique, Announce;
    ServicesSettle(s, a, b, c);
    AnnounceSettles(c);
    AnnounceFrom(s, c);
  }

  /** The last pass looks at nothing that the others change. */
  lemma AnnounceFrom(s: State, c: State)
    requires c == s.(runtime := c.runtime)
    ensures var t := Announce(c);
      && t.runtime == c.runtime && t == c.(interfaces := t.interfaces, bird := c.bird.(dummies := t.bird.dummies))
      && t.interfaces == Announce(s).interfaces && t.bird.dummies == Announce(s).bird.dummies
  {
    hide WithoutAnycast, HostCidrs;
  }

  /** A validation that succeeds is the passes one after another. */
  lemma Passes(s: State, t: State) returns (a: State, b: State, c: State)
    requires Validate(s) == Some(t)
    ensures RuntimeValid(s.runtime) && InterfaceNamesUnique(s.interfaces)
    ensures PublishPorts(s) == Some(a) && ExposeSocket(a) == Some(b) && DeployDns(b) == Some(c) && t == Announce(c)
  {
    hide RuntimeValid, PublishPorts, ExposeSocket, DeployDns, Announce;
    a := PublishPorts(s).value;
    b := ExposeSocket(a).value;
    c := DeployDns(b).value;
  }
}
