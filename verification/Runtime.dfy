/** The runtime part of a desired state: its services, and the checks that every runtime passes
    when it is validated. Addresses are numbers, and a subnet is the range of them it covers. */
module Runtime {
  import opened Wrappers

  datatype Role = RouterNetns | WgGateway | BirdRouter | RpkiCache | Dns | DebugShell

  datatype Mount = Mount(source: string, target: string, readonly: bool)

  datatype Port = Port(hostIp: Option<string>, hostPort: Option<nat>, hostPortEnd: Option<nat>,
                       containerPort: nat, containerPortEnd: Option<nat>, protocol: string)

  /** `other` stands for the fields that no check and no pass looks at. */
  datatype Service = Service(name: string, role: Role, enabled: bool, image: Option<string>, command: seq<string>,
                             ports: seq<Port>, networkMode: Option<string>, volumes: seq<Mount>,
                             dependsOn: seq<string>, address: Option<nat>, other: string)

  datatype PortRange = PortRange(start: nat, end: nat, hostStart: Option<nat>, hostIp: Option<string>)

  datatype Underlay = Underlay(first: nat, last: nat, gateway: nat)

  datatype Runtime = Runtime(underlay: Underlay, rpkiHost: Option<nat>, portRange: Option<PortRange>,
                             services: seq<Service>, other: string)

  const SERVICE_PREFIX := "service:"

  predicate SharesNetwork(s: Service) {
    s.networkMode.Some? && s.networkMode.value != ""
  }

  /** `_network_mode_service`: the service whose network this one joins, "" for none. */
  function NetworkTarget(s: Service): string {
    if s.networkMode.Some? && SERVICE_PREFIX <= s.networkMode.value then s.networkMode.value[|SERVICE_PREFIX|..] else ""
  }

  function EnabledOf(services: seq<Service>): (r: seq<Service>)
    ensures forall s :: s in r <==> s in services && s.enabled
  {
    if services == [] then []
    else
      var rest := EnabledOf(services[1..]);
      assert services == [services[0]] + services[1..];
      if services[0].enabled then [services[0]] + rest else rest
  }

  predicate NamesUnique(services: seq<Service>) {
    forall i, j :: 0 <= i < j < |services| ==> services[i].name != services[j].name
  }

  predicate HasName(services: seq<Service>, name: string) {
    exists i :: 0 <= i < |services| && services[i].name == name
  }

  predicate HasRole(services: seq<Service>, role: Role) {
    exists i :: 0 <= i < |services| && services[i].role == role
  }

  predicate ReferencesOk(enabled: seq<Service>) {
    forall s :: s in enabled ==>
      && (forall d :: d in s.dependsOn ==> HasName(enabled, d))
      && (NetworkTarget(s) == "" || HasName(enabled, NetworkTarget(s)))
  }

  function RequiredTargets(role: Role): set<string> {
    match role
    case WgGateway => {"/opt/dn42/scripts", "/etc/wireguard"}
    case BirdRouter => {"/opt/dn42/scripts", "/etc/bird"}
    case _ => {}
  }

  predicate HasMount(s: Service, target: string) {
    exists m :: m in s.volumes && m.target == target
  }

  predicate Publishes(s: Service, port: nat, protocol: string) {
    exists p :: p in s.ports && p.containerPort == port && p.protocol == protocol
  }

  predicate RoleOk(s: Service) {
    && (s.role.WgGateway? || s.role.BirdRouter? ==> s.command != [])
    && (s.role.Dns? && !SharesNetwork(s) ==> Publishes(s, 53, "udp") && Publishes(s, 53, "tcp"))
    && (forall t :: t in RequiredTargets(s.role) ==> HasMount(s, t))
  }

  predicate InSubnet(u: Underlay, address: nat) {
    u.first <= address <= u.last
  }

  /** `resolve_service_ipv4`: the address a service gets on the underlay, set or by role. */
  function Resolve(r: Runtime, s: Service): Option<nat> {
    if s.address.Some? then s.address
    else if s.role.RpkiCache? && r.rpkiHost.Some? then r.rpkiHost
    else if s.role.RouterNetns? && InSubnet(r.underlay, r.underlay.gateway + 1) then Some(r.underlay.gateway + 1)
    else None
  }

  predicate AddressOk(r: Runtime, s: Service) {
    && !(SharesNetwork(s) && s.address.Some?)
    && RoleOk(s)
    && (Resolve(r, s).Some? ==> InSubnet(r.underlay, Resolve(r, s).value) && Resolve(r, s).value != r.underlay.gateway)
  }

  predicate ServicesOk(r: Runtime, enabled: seq<Service>) {
    && (forall s :: s in enabled ==> AddressOk(r, s))
    && (forall i, j :: 0 <= i < j < |enabled| && Resolve(r, enabled[i]).Some? ==>
          Resolve(r, enabled[i]) != Resolve(r, enabled[j]))
  }

  datatype Claim = Claim(hostIp: Option<string>, port: nat, protocol: string)

  function ClaimsUpTo(p: Port, end: nat): set<Claim> {
    if p.hostPort.None? then {} else set k | p.hostPort.value <= k < end :: Claim(p.hostIp, k, p.protocol)
  }

  function HostEnd(p: Port): nat {
    if p.hostPort.None? then 0
    else if p.hostPortEnd.Some? && p.hostPortEnd.value != 0 then p.hostPortEnd.value + 1
    else p.hostPort.value + 1
  }

  /** What a port rule takes on the host. */
  function Claims(p: Port): set<Claim> {
    ClaimsUpTo(p, HostEnd(p))
  }

  function PortsOf(services: seq<Service>): seq<Port> {
    if services == [] then [] else PortsOf(services[..|services| - 1]) + services[|services| - 1].ports
  }

  predicate Disjoint(ports: seq<Port>) {
    forall i, j :: 0 <= i < j < |ports| ==> Claims(ports[i]) !! Claims(ports[j])
  }

  predicate PortsOk(enabled: seq<Service>) {
    && (forall s :: s in enabled ==> !(SharesNetwork(s) && s.ports != []))
    && Disjoint(PortsOf(enabled))
  }

  predicate RuntimeValid(r: Runtime) {
    var enabled := EnabledOf(r.services);
    && NamesUnique(r.services)
    && HasRole(enabled, RouterNetns) && HasRole(enabled, WgGateway) && HasRole(enabled, BirdRouter)
    && ReferencesOk(enabled)
    && ServicesOk(r, enabled)
    && PortsOk(enabled)
  }

  // ----- the loops behind the last two checks -----

  /** The address loop of `validate_services`. */
  method ValidateAddresses(r: Runtime, enabled: seq<Service>) returns (ok: bool)
    ensures ok <==> ServicesOk(r, enabled)
  {
    var taken: map<nat, string> := map[];
    for i := 0 to |enabled|
      invariant forall k :: 0 <= k < i ==> AddressOk(r, enabled[k])
      invariant forall j, k :: 0 <= j < k < i && Resolve(r, enabled[j]).Some? ==>
                  Resolve(r, enabled[j]) != Resolve(r, enabled[k])
      invariant forall k :: 0 <= k < i && Resolve(r, enabled[k]).Some? ==> Resolve(r, enabled[k]).value in taken
      invariant forall a :: a in taken ==> exists k :: 0 <= k < i && Resolve(r, enabled[k]) == Some(a)
    {
      var s := enabled[i];
      if (SharesNetwork(s) && s.address.Some?) || !RoleOk(s) {
        assert s in enabled && !AddressOk(r, s);
        return false;
      }
      var resolved := Resolve(r, s);
      if resolved.Some? {
        if !InSubnet(r.underlay, resolved.value) || resolved.value == r.underlay.gateway {
          assert s in enabled && !AddressOk(r, s);
          return false;
        }
        if resolved.value in taken {
          return false;
        }
        taken := taken[resolved.value := s.name];
        assert Resolve(r, enabled[i]) == Some(resolved.value);
      }
    }
    return true;
  }

  lemma ClaimsNext(p: Port, k: nat)
    requires p.hostPort.Some? && p.hostPort.value <= k
    ensures ClaimsUpTo(p, k + 1) == ClaimsUpTo(p, k) + {Claim(p.hostIp, k, p.protocol)}
  {
  }

  /** One rule of `_validate_service_ports`: takes its host ports, unless one is already taken. */
  method AssignPort(p: Port, name: string, taken: map<Claim, string>) returns (ok: bool, after: map<Claim, string>)
    ensures ok <==> Claims(p) !! taken.Keys
    ensures ok ==> after.Keys == taken.Keys + Claims(p)
  {
    after := taken;
    if p.hostPort.None? {
      return true, after;
    }
    var k := p.hostPort.value;
    var end := HostEnd(p);
    while k < end
      invariant p.hostPort.value <= k
      invariant p.hostPort.value < end ==> k <= end
      invariant end <= p.hostPort.value ==> k == p.hostPort.value
      invariant ClaimsUpTo(p, k) !! taken.Keys
      invariant after.Keys == taken.Keys + ClaimsUpTo(p, k)
    {
      var key := Claim(p.hostIp, k, p.protocol);
      if key in after {
        assert key in Claims(p) && key in taken;
        return false, after;
      }
      ClaimsNext(p, k);
      after := after[key := name];
      k := k + 1;
    }
    assert ClaimsUpTo(p, k) == Claims(p);
    return true, after;
  }

  function Union(ports: seq<Port>): (r: set<Claim>)
    ensures forall c :: c in r <==> exists i :: 0 <= i < |ports| && c in Claims(ports[i])
  {
    if ports == [] then {} else Union(ports[..|ports| - 1]) + Claims(ports[|ports| - 1])
  }

  lemma DisjointNext(ports: seq<Port>, p: Port)
    ensures Disjoint(ports + [p]) <==> Disjoint(ports) && Claims(p) !! Union(ports)
    ensures Union(ports + [p]) == Union(ports) + Claims(p)
  {
    var more := ports + [p];
    assert more[..|more| - 1] == ports && more[|more| - 1] == p;
    forall i, j | 0 <= i < j < |ports| ensures more[i] == ports[i] && more[j] == ports[j] {}
    if Disjoint(more) {
      forall i, j | 0 <= i < j < |ports| ensures Claims(ports[i]) !! Claims(ports[j]) {
        assert Claims(more[i]) !! Claims(more[j]);
      }
      forall i | 0 <= i < |ports| ensures Claims(ports[i]) !! Claims(p) {
        assert Claims(more[i]) !! Claims(more[|ports|]);
      }
    }
  }

  lemma DisjointPrefix(a: seq<Port>, b: seq<Port>)
    requires Disjoint(a + b)
    ensures Disjoint(a)
  {
    forall i, j | 0 <= i < j < |a| ensures Claims(a[i]) !! Claims(a[j]) {
      assert (a + b)[i] == a[i] && (a + b)[j] == a[j];
    }
  }

  lemma {:induction false} PortsOfPrefix(services: seq<Service>, i: nat)
    requires i < |services|
    ensures PortsOf(services[..i + 1]) == PortsOf(services[..i]) + services[i].ports
    ensures PortsOf(services[..i + 1]) <= PortsOf(services)
    decreases |services|
  {
    var n := |services| - 1;
    assert services[..i + 1][..i] == services[..i];
    if i == n {
      assert services[..i + 1] == services;
    } else {
      PortsOfPrefix(services[..n], i);
      assert services[..n][..i + 1] == services[..i + 1];
    }
  }

  lemma Clash(before: seq<Port>, ports: seq<Port>, k: nat)
    requires k <= |ports| && !Disjoint(before + ports[..k])
    ensures !Disjoint(before + ports)
  {
    if Disjoint(before + ports) {
      SplitAt(before, ports, k);
      DisjointPrefix(before + ports[..k], ports[k..]);
    }
  }

  lemma SplitAt(a: seq<Port>, b: seq<Port>, k: nat)
    requires k <= |b|
    ensures a + b == a + b[..k] + b[k..]
    ensures k < |b| ==> a + b[..k] + [b[k]] == a + b[..k + 1]
  {
  }

  lemma TakeNext(before: seq<Port>, ports: seq<Port>, j: nat)
    requires j < |ports| && Disjoint(before + ports[..j])
    ensures Disjoint(before + ports[..j + 1]) <==> Claims(ports[j]) !! Union(before + ports[..j])
    ensures Union(before + ports[..j + 1]) == Union(before + ports[..j]) + Claims(ports[j])
  {
    SplitAt(before, ports, j);
    DisjointNext(before + ports[..j], ports[j]);
  }

  /** The rules of one service, after those of the services before it. */
  method AssignPorts(ports: seq<Port>, name: string, taken: map<Claim, string>, ghost before: seq<Port>)
    returns (ok: bool, after: map<Claim, string>)
    requires Disjoint(before) && taken.Keys == Union(before)
    ensures ok <==> Disjoint(before + ports)
    ensures ok ==> after.Keys == Union(before + ports)
  {
    after := taken;
    assert before + ports[..0] == before;
    for j := 0 to |ports|
      invariant Disjoint(before + ports[..j]) && after.Keys == Union(before + ports[..j])
    {
      TakeNext(before, ports, j);
      ok, after := AssignPort(ports[j], name, after);
      if !ok {
        Clash(before, ports, j + 1);
        return;
      }
    }
    assert ports[..|ports|] == ports;
    ok := true;
  }

  /** `_validate_service_ports`: no two rules of the enabled services take the same host port. */
  method ValidateServicePorts(enabled: seq<Service>) returns (ok: bool)
    ensures ok <==> PortsOk(enabled)
  {
    var taken: map<Claim, string> := map[];
    assert enabled[..0] == [];
    for i := 0 to |enabled|
      invariant forall k :: 0 <= k < i ==> !(SharesNetwork(enabled[k]) && enabled[k].ports != [])
      invariant Disjoint(PortsOf(enabled[..i])) && taken.Keys == Union(PortsOf(enabled[..i]))
    {
      var s := enabled[i];
      if SharesNetwork(s) && s.ports != [] {
        assert s in enabled;
        return false;
      }
      PortsOfPrefix(enabled, i);
      ok, taken := AssignPorts(s.ports, s.name, taken, PortsOf(enabled[..i]));
      if !ok {
        NotDisjoint(enabled, i);
        return;
      }
    }
    assert enabled[..|enabled|] == enabled;
    return true;
  }

  lemma NotDisjoint(enabled: seq<Service>, i: nat)
    requires i < |enabled| && !Disjoint(PortsOf(enabled[..i + 1]))
    ensures !Disjoint(PortsOf(enabled))
  {
    PortsOfPrefix(enabled, i);
  }

  // ----- what the checks accept, on the fields of the services -----

  /** The address of a service on the underlay: its own, that of the RPKI cache, or for router-netns
      the one after the gateway. */
  ghost predicate HasAddress(r: Runtime, s: Service, address: nat) {
    || s.address == Some(address)
    || (s.address.None? && s.role.RpkiCache? && r.rpkiHost == Some(address))
    || (s.address.None? && s.role.RouterNetns? && address == r.underlay.gateway + 1 &&
        r.underlay.first <= address <= r.underlay.last)
  }

  lemma ResolveMeans(r: Runtime, s: Service)
    ensures forall a: nat :: HasAddress(r, s, a) <==> Resolve(r, s) == Some(a)
  {
  }

  /** The rule takes this port of the host, alone or within its range. */
  ghost predicate TakesHost(p: Port, ip: Option<string>, port: nat, protocol: string) {
    && p.hostPort.Some? && p.hostIp == ip && p.protocol == protocol
    && p.hostPort.value <= port
    && if p.hostPortEnd.Some? && p.hostPortEnd.value != 0 then port <= p.hostPortEnd.value else port == p.hostPort.value
  }

  lemma ClaimsMean(p: Port)
    ensures forall ip, port: nat, protocol :: TakesHost(p, ip, port, protocol) <==> Claim(ip, port, protocol) in Claims(p)
  {
  }

  ghost predicate Clashing(p: Port, q: Port) {
    exists ip, port, protocol :: TakesHost(p, ip, port, protocol) && TakesHost(q, ip, port, protocol)
  }

  lemma ClashIff(p: Port, q: Port)
    ensures Clashing(p, q) <==> !(Claims(p) !! Claims(q))
  {
    ClaimsMean(p);
    ClaimsMean(q);
    hide TakesHost, Claims;
    if !(Claims(p) !! Claims(q)) {
      var c :| c in Claims(p) && c in Claims(q);
      assert c == Claim(c.hostIp, c.port, c.protocol);
    }
  }

  /** An enabled service of this name or of this role. */
  ghost predicate EnabledNamed(r: Runtime, name: string) {
    exists t :: t in r.services && t.enabled && t.name == name
  }

  ghost predicate EnabledIn(r: Runtime, role: Role) {
    exists t :: t in r.services && t.enabled && t.role == role
  }

  /** The fields of one enabled service. */
  ghost predicate FieldsOk(r: Runtime, s: Service) {
    && (forall d :: d in s.dependsOn ==> EnabledNamed(r, d))
    && (s.networkMode.Some? && "service:" < s.networkMode.value ==> EnabledNamed(r, s.networkMode.value[8..]))
    && (s.networkMode.Some? && s.networkMode.value != "" ==> s.address.None? && s.ports == [])
    && (s.role.WgGateway? || s.role.BirdRouter? ==> s.command != [] && MountsAt(s, "/opt/dn42/scripts"))
    && (s.role.WgGateway? ==> MountsAt(s, "/etc/wireguard"))
    && (s.role.BirdRouter? ==> MountsAt(s, "/etc/bird"))
    && (s.role.Dns? && (s.networkMode.None? || s.networkMode.value == "") ==> Answers(s, "udp") && Answers(s, "tcp"))
    && (forall a: nat :: HasAddress(r, s, a) ==> r.underlay.first <= a <= r.underlay.last && a != r.underlay.gateway)
    && (forall i, j :: 0 <= i < j < |s.ports| ==> !Clashing(s.ports[i], s.ports[j]))
  }

  ghost predicate MountsAt(s: Service, target: string) {
    exists m :: m in s.volumes && m.target == target
  }

  ghost predicate Answers(s: Service, protocol: string) {
    exists p :: p in s.ports && p.containerPort == 53 && p.protocol == protocol
  }

  /** Two enabled services share neither an address nor a port of the host. */
  ghost predicate Apart(r: Runtime, s: Service, t: Service) {
    && (forall a: nat :: HasAddress(r, s, a) ==> !HasAddress(r, t, a))
    && (forall p, q :: p in s.ports && q in t.ports ==> !Clashing(p, q))
  }

  ghost predicate Acceptable(r: Runtime) {
    && (forall i, j :: 0 <= i < j < |r.services| ==> r.services[i].name != r.services[j].name)
    && EnabledIn(r, RouterNetns) && EnabledIn(r, WgGateway) && EnabledIn(r, BirdRouter)
    && (forall s :: s in r.services && s.enabled ==> FieldsOk(r, s))
    && (forall s, t :: s in r.services && s.enabled && t in r.services && t.enabled && s != t ==> Apart(r, s, t))
  }

  // ----- and that these are the checks -----

  ghost predicate CrossDisjoint(a: seq<Port>, b: seq<Port>) {
    forall p, q :: p in a && q in b ==> Claims(p) !! Claims(q)
  }

  lemma DisjointParts(a: seq<Port>, b: seq<Port>)
    ensures Disjoint(a + b) <==> Disjoint(a) && Disjoint(b) && CrossDisjoint(a, b)
  {
    hide Claims;
    var all := a + b;
    if Disjoint(all) {
      forall i, j | 0 <= i < j < |a| ensures Claims(a[i]) !! Claims(a[j]) { assert Claims(all[i]) !! Claims(all[j]); }
      forall i, j | 0 <= i < j < |b| ensures Claims(b[i]) !! Claims(b[j]) {
        assert Claims(all[|a| + i]) !! Claims(all[|a| + j]);
      }
      forall i, j | 0 <= i < |a| && 0 <= j < |b| ensures Claims(a[i]) !! Claims(b[j]) {
        assert Claims(all[i]) !! Claims(all[|a| + j]);
      }
    }
    if Disjoint(a) && Disjoint(b) && CrossDisjoint(a, b) {
      forall i, j | 0 <= i < j < |all| ensures Claims(all[i]) !! Claims(all[j]) {
        if i < |a| <= j { assert all[i] in a && all[j] in b; }
      }
    }
  }

  ghost predicate PortsApart(enabled: seq<Service>) {
    && (forall i :: 0 <= i < |enabled| ==> Disjoint(enabled[i].ports))
    && (forall i, j :: 0 <= i < j < |enabled| ==> CrossDisjoint(enabled[i].ports, enabled[j].ports))
  }

  lemma {:induction false} PortsOfHas(services: seq<Service>, p: Port)
    ensures p in PortsOf(services) <==> exists i :: 0 <= i < |services| && p in services[i].ports
    decreases |services|
  {
    if services != [] {
      var last := |services| - 1;
      PortsOfHas(services[..last], p);
      if i :| 0 <= i < last && p in services[i].ports {
        assert services[..last][i] == services[i];
      }
    }
  }

  lemma {:induction false} PortsApartIff(enabled: seq<Service>)
    ensures Disjoint(PortsOf(enabled)) <==> PortsApart(enabled)
    decreases |enabled|
  {
    hide Disjoint, Claims;
    if enabled == [] {
      NoPorts();
    } else {
      var last := |enabled| - 1;
      PortsApartIff(enabled[..last]);
      DisjointParts(PortsOf(enabled[..last]), enabled[last].ports);
      CrossPorts(enabled[..last], enabled[last].ports);
      OneServiceMore(enabled);
    }
  }

  lemma NoPorts()
    ensures Disjoint(PortsOf([]))
  {
  }

  lemma CrossPorts(services: seq<Service>, ports: seq<Port>)
    ensures CrossDisjoint(PortsOf(services), ports) <==>
      forall i :: 0 <= i < |services| ==> CrossDisjoint(services[i].ports, ports)
  {
    hide Claims;
    forall p ensures p in PortsOf(services) <==> exists i :: 0 <= i < |services| && p in services[i].ports {
      PortsOfHas(services, p);
    }
    hide PortsOf;
  }

  lemma OneServiceMore(enabled: seq<Service>)
    requires enabled != []
    ensures var last := |enabled| - 1;
      PortsApart(enabled) <==>
        PortsApart(enabled[..last]) && Disjoint(enabled[last].ports) &&
        forall i :: 0 <= i < last ==> CrossDisjoint(enabled[..last][i].ports, enabled[last].ports)
  {
    hide Disjoint, CrossDisjoint;
    var last := |enabled| - 1;
    assert forall i :: 0 <= i < last ==> enabled[..last][i] == enabled[i];
  }

  lemma EnabledHas(r: Runtime, name: string, role: Role)
    ensures HasName(EnabledOf(r.services), name) <==> EnabledNamed(r, name)
    ensures HasRole(EnabledOf(r.services), role) <==> EnabledIn(r, role)
  {
    var enabled := EnabledOf(r.services);
    forall t | t in enabled ensures exists i :: 0 <= i < |enabled| && enabled[i] == t {}
  }

  /** What `validate_services` looks at in one service, apart from the others. */
  ghost predicate ChecksOk(r: Runtime, enabled: seq<Service>, s: Service) {
    && (forall d :: d in s.dependsOn ==> HasName(enabled, d))
    && (NetworkTarget(s) == "" || HasName(enabled, NetworkTarget(s)))
    && AddressOk(r, s) && !(SharesNetwork(s) && s.ports != []) && Disjoint(s.ports)
  }

  lemma TargetMeans(s: Service)
    ensures NetworkTarget(s) != "" <==> s.networkMode.Some? && "service:" < s.networkMode.value
    ensures NetworkTarget(s) != "" ==> NetworkTarget(s) == s.networkMode.value[8..]
  {
  }

  lemma MountsMean(s: Service)
    ensures forall t :: HasMount(s, t) <==> MountsAt(s, t)
    ensures forall protocol :: Publishes(s, 53, protocol) <==> Answers(s, protocol)
  {
  }

  lemma RoleMeans(s: Service)
    ensures RoleOk(s) <==>
      && (s.role.WgGateway? || s.role.BirdRouter? ==> s.command != [] && MountsAt(s, "/opt/dn42/scripts"))
      && (s.role.WgGateway? ==> MountsAt(s, "/etc/wireguard"))
      && (s.role.BirdRouter? ==> MountsAt(s, "/etc/bird"))
      && (s.role.Dns? && (s.networkMode.None? || s.networkMode.value == "") ==> Answers(s, "udp") && Answers(s, "tcp"))
  {
    MountsMean(s);
    hide HasMount, MountsAt, Publishes, Answers;
  }

  lemma PortsMean(ports: seq<Port>)
    ensures Disjoint(ports) <==> forall i, j :: 0 <= i < j < |ports| ==> !Clashing(ports[i], ports[j])
  {
    hide Claims, Clashing;
    forall i, j | 0 <= i < j < |ports| ensures Clashing(ports[i], ports[j]) <==> !(Claims(ports[i]) !! Claims(ports[j])) {
      ClashIff(ports[i], ports[j]);
    }
  }

  lemma FieldsMean(r: Runtime, s: Service)
    ensures ChecksOk(r, EnabledOf(r.services), s) <==> FieldsOk(r, s)
  {
    hide HasName, EnabledNamed, RoleOk, NetworkTarget, Resolve, HasAddress, Disjoint, Clashing, MountsAt, Answers;
    TargetMeans(s);
    RoleMeans(s);
    ResolveMeans(r, s);
    PortsMean(s.ports);
    forall name ensures HasName(EnabledOf(r.services), name) <==> EnabledNamed(r, name) {
      EnabledHas(r, name, Dns);
    }
  }

  lemma ApartMeans(r: Runtime, s: Service, t: Service)
    ensures Apart(r, s, t) <==>
      (Resolve(r, s).Some? ==> Resolve(r, s) != Resolve(r, t)) && CrossDisjoint(s.ports, t.ports)
  {
    hide Resolve, HasAddress, Claims, Clashing;
    ResolveMeans(r, s);
    ResolveMeans(r, t);
    forall p, q | p in s.ports && q in t.ports ensures Clashing(p, q) <==> !(Claims(p) !! Claims(q)) {
      ClashIff(p, q);
    }
    assert Resolve(r, s).Some? ==> HasAddress(r, s, Resolve(r, s).value);
  }

  /** In a list without repetition, pairs of places are pairs of different members. */
  lemma PairsOf(r: Runtime, enabled: seq<Service>)
    requires NamesUnique(enabled)
    ensures (forall i, j :: 0 <= i < j < |enabled| ==> Apart(r, enabled[i], enabled[j])) <==>
      forall s, t :: s in enabled && t in enabled && s != t ==> Apart(r, s, t)
  {
    ApartIsMutual(r);
    hide Apart;
    if forall i, j :: 0 <= i < j < |enabled| ==> Apart(r, enabled[i], enabled[j]) {
      forall s, t | s in enabled && t in enabled && s != t ensures Apart(r, s, t) {
        var i :| 0 <= i < |enabled| && enabled[i] == s;
        var j :| 0 <= j < |enabled| && enabled[j] == t;
        assert if i < j then Apart(r, enabled[i], enabled[j]) else Apart(r, enabled[j], enabled[i]);
      }
    }
  }

  lemma ApartIsMutual(r: Runtime)
    ensures forall s, t :: Apart(r, s, t) <==> Apart(r, t, s)
  {
    hide HasAddress, TakesHost;
    forall p, q ensures Clashing(p, q) <==> Clashing(q, p) {}
    hide Clashing;
  }

  lemma {:induction false} EnabledUnique(services: seq<Service>)
    requires NamesUnique(services)
    ensures NamesUnique(EnabledOf(services))
  {
    if services != [] {
      var rest := services[1..];
      assert forall i :: 0 <= i < |rest| ==> rest[i] == services[i + 1];
      EnabledUnique(rest);
      var kept := EnabledOf(rest);
      forall j | 0 <= j < |kept| ensures kept[j].name != services[0].name {
        assert kept[j] in rest;
      }
    }
  }

  /** Two places of the list get along. */
  ghost predicate PairOk(r: Runtime, s: Service, t: Service) {
    (Resolve(r, s).Some? ==> Resolve(r, s) != Resolve(r, t)) && CrossDisjoint(s.ports, t.ports)
  }

  lemma PortsSplit(enabled: seq<Service>)
    ensures PortsOk(enabled) <==>
      && (forall s :: s in enabled ==> !(SharesNetwork(s) && s.ports != []) && Disjoint(s.ports))
      && (forall i, j :: 0 <= i < j < |enabled| ==> CrossDisjoint(enabled[i].ports, enabled[j].ports))
  {
    PortsApartIff(enabled);
    hide Disjoint, CrossDisjoint, SharesNetwork, PortsOf;
    forall s | s in enabled && PortsApart(enabled) ensures Disjoint(s.ports) {
      var i :| 0 <= i < |enabled| && enabled[i] == s;
    }
  }

  lemma ChecksSplit(r: Runtime, enabled: seq<Service>)
    ensures ReferencesOk(enabled) && ServicesOk(r, enabled) && PortsOk(enabled) <==>
      && (forall s :: s in enabled ==> ChecksOk(r, enabled, s))
      && (forall i, j :: 0 <= i < j < |enabled| ==> Apart(r, enabled[i], enabled[j]))
  {
    PortsSplit(enabled);
    PairsSplit(r, enabled);
    EachSplit(r, enabled);
    hide Apart, Resolve, CrossDisjoint, Disjoint, AddressOk, ChecksOk, SharesNetwork, ReferencesOk, PortsOk;
  }

  lemma PairsSplit(r: Runtime, enabled: seq<Service>)
    ensures (forall i, j :: 0 <= i < j < |enabled| ==> Apart(r, enabled[i], enabled[j])) <==>
      && (forall i, j :: 0 <= i < j < |enabled| && Resolve(r, enabled[i]).Some? ==> Resolve(r, enabled[i]) != Resolve(r, enabled[j]))
      && (forall i, j :: 0 <= i < j < |enabled| ==> CrossDisjoint(enabled[i].ports, enabled[j].ports))
  {
    hide Apart, Resolve, CrossDisjoint;
    forall i, j | 0 <= i < j < |enabled| ensures Apart(r, enabled[i], enabled[j]) <==> PairOk(r, enabled[i], enabled[j]) {
      ApartMeans(r, enabled[i], enabled[j]);
    }
  }

  lemma EachSplit(r: Runtime, enabled: seq<Service>)
    ensures (forall s :: s in enabled ==> ChecksOk(r, enabled, s)) <==>
      && ReferencesOk(enabled)
      && (forall s :: s in enabled ==> AddressOk(r, s))
      && (forall s :: s in enabled ==> !(SharesNetwork(s) && s.ports != []) && Disjoint(s.ports))
  {
    hide AddressOk, SharesNetwork, Disjoint, HasName, NetworkTarget;
  }

  /** The runtime checks hold exactly of these services. */
  lemma ValidIffAcceptable(r: Runtime)
    ensures RuntimeValid(r) <==> Acceptable(r)
  {
    var enabled := EnabledOf(r.services);
    hide ReferencesOk, ServicesOk, PortsOk, HasRole, EnabledIn, ChecksOk, FieldsOk, Apart;
    EnabledHas(r, "", RouterNetns);
    EnabledHas(r, "", WgGateway);
    EnabledHas(r, "", BirdRouter);
    if NamesUnique(r.services) {
      EnabledUnique(r.services);
      ChecksSplit(r, enabled);
      PairsOf(r, enabled);
      forall s | s in enabled ensures ChecksOk(r, enabled, s) <==> FieldsOk(r, s) {
        FieldsMean(r, s);
      }
    }
  }

  /** `RouterRuntimeSpec.validate_services`. */
  method ValidateServices(r: Runtime) returns (ok: bool)
    ensures ok <==> RuntimeValid(r)
    ensures ok <==> Acceptable(r)
  {
    ValidIffAcceptable(r);
    hide Acceptable;
    var enabled := EnabledOf(r.services);
    if !NamesUnique(r.services) {
      return false;
    }
    if !HasRole(enabled, RouterNetns) || !HasRole(enabled, WgGateway) || !HasRole(enabled, BirdRouter) {
      return false;
    }
    if !ReferencesOk(enabled) {
      return false;
    }
    ok := ValidateAddresses(r, enabled);
    if ok {
      ok := ValidateServicePorts(enabled);
    }
  }
}
