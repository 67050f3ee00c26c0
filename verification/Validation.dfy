/** What validating a desired state guarantees, and the validation itself as the source runs it:
    a document whose runtime, interfaces and BIRD section are replaced in place. */
module Validation {
  import opened Wrappers
  import opened Runtime
  import opened DesiredState

  // ----- validating again -----

  /** No session is left without its interface when the anycast interface is withdrawn. */
  predicate Anchored(s: State) {
    AnycastOn(s) || forall x :: x in s.sessions ==> !BoundTo(x, ANYCAST)
  }

  lemma KnownAfter(s: State, t: State, name: string)
    requires t.interfaces == Announce(s).interfaces && Known(s.interfaces, name)
    ensures Known(t.interfaces, name) <==> name != ANYCAST || AnycastOn(s)
  {
    var kept := WithoutAnycast(s.interfaces);
    var i :| 0 <= i < |s.interfaces| && s.interfaces[i].name == name;
    if name != ANYCAST {
      assert s.interfaces[i] in s.interfaces && s.interfaces[i] in kept;
      var k :| 0 <= k < |kept| && kept[k] == s.interfaces[i];
      assert t.interfaces[k].name == name;
    } else if AnycastOn(s) {
      assert t.interfaces[|kept|].name == ANYCAST;
    } else {
      forall k | 0 <= k < |t.interfaces| ensures t.interfaces[k].name != ANYCAST {
        assert t.interfaces[k] in kept;
      }
    }
  }

  /** Validation is a fixed point of itself exactly when every session keeps its interface: a
      session bound to `dns-anycast` while nothing is announced makes the second validation fail. */
  lemma RevalidationIffAnchored(s: State, t: State)
    requires Validate(s) == Some(t)
    ensures Validate(t) == if Anchored(s) then Some(t) else None
    ensures Anchored(t) <==> Anchored(s)
  {
    Validated(s, t);
    SettledIsNormalised(t);
    assert t.sessions == s.sessions && (AnycastOn(t) <==> AnycastOn(s));
    forall x | x in s.sessions && x.interface.Some? && x.interface.value != ""
      ensures Known(t.interfaces, x.interface.value) <==> !BoundTo(x, ANYCAST) || AnycastOn(s)
    {
      KnownAfter(s, t, x.interface.value);
    }
    if Anchored(s) {
      assert SessionsKnown(t.sessions, t.interfaces);
    } else {
      var x :| x in s.sessions && BoundTo(x, ANYCAST);
      assert !Known(t.interfaces, ANYCAST);
    }
  }

  function At(s: Option<State>, g: nat): Option<State> {
    if s.None? then None else Some(s.value.(generation := g))
  }

  lemma PortsAt(s: State, g: nat)
    ensures PublishPorts(s.(generation := g)) == At(PublishPorts(s), g)
  {
  }

  lemma SocketAt(s: State, g: nat)
    ensures ExposeSocket(s.(generation := g)) == At(ExposeSocket(s), g)
  {
  }

  lemma DnsAt(s: State, g: nat)
    ensures DeployDns(s.(generation := g)) == At(DeployDns(s), g)
  {
  }

  lemma AnnounceAt(g: nat)
    ensures forall s: State :: Announce(s.(generation := g)) == Announce(s).(generation := g)
  {
    hide WithoutAnycast, HostCidrs;
  }

  /** Validation does not look at the generation beyond requiring one. */
  lemma GenerationIsFree(s: State, g: nat)
    requires g >= 1 && s.generation >= 1
    ensures Validate(s.(generation := g)) == At(Validate(s), g)
  {
    hide RuntimeValid, PublishPorts, ExposeSocket, DeployDns, Announce;
    AnnounceAt(g);
    PortsAt(s, g);
    var a := PublishPorts(s);
    if a.Some? {
      SocketAt(a.value, g);
      var b := ExposeSocket(a.value);
      if b.Some? {
        DnsAt(b.value, g);
      }
    }
    assert Normalised(s.(generation := g)) == At(Normalised(s), g);
  }

  // ----- what is there afterwards -----

  lemma SettledDns(t: State)
    requires Settled(t)
    ensures HasRole(t.runtime.services, Dns) <==> DnsOn(t)
  {
  }

  /** Each address as it was given, a bare one as the prefix of a single host. */
  ghost predicate BindsEach(addresses: seq<string>, bind: seq<string>) {
    |addresses| == |bind| && forall i :: 0 <= i < |bind| ==>
      addresses[i] == bind[i] + (if '/' in bind[i] then "" else if ':' in bind[i] then "/128" else "/32")
  }

  lemma BindsAll(bind: seq<string>)
    ensures BindsEach(HostCidrs(bind), bind)
  {
    forall i | 0 <= i < |bind|
      ensures HostCidrs(bind)[i] == bind[i] + (if '/' in bind[i] then "" else if ':' in bind[i] then "/128" else "/32")
    {
      HostCidrMeans(bind[i]);
      assert bind[i] + "" == bind[i];
    }
  }

  /** The DNS side of a validated state is a function of its `dns` section. */
  lemma DnsIsAsAsked(s: State, t: State)
    requires Validate(s) == Some(t)
    ensures HasRole(t.runtime.services, Dns) <==> DnsOn(s)
    ensures Known(t.interfaces, ANYCAST) <==> AnycastOn(s)
    ensures ANYCAST in t.bird.dummies <==> AnycastOn(s)
    ensures AnycastOn(s) ==> t.bird.dummies[ANYCAST] == DummyEntry(ANYCAST, true)
    ensures forall x :: x in t.interfaces && x.name == ANYCAST ==>
              x.kind.DummyKind? && x.listenPort.None? && BindsEach(x.addresses, s.dns.value.bind)
    ensures forall n :: n != ANYCAST ==>
              (n in t.bird.dummies <==> n in s.bird.dummies) && (n in s.bird.dummies ==> t.bird.dummies[n] == s.bird.dummies[n])
    ensures forall x: Interface :: x.name != ANYCAST ==> (x in t.interfaces <==> x in s.interfaces)
    ensures InterfaceNamesUnique(t.interfaces)
  {
    Validated(s, t);
    hide Validate, RuntimeValid, Settled, InterfaceNamesUnique, BindsEach, Announce, Known, HasRole;
    SettledDns(t);
    AnycastInterfaces(s, t.interfaces);
    AnycastDummies(s, t.bird.dummies);
  }

  lemma AnycastInterfaces(s: State, interfaces: seq<Interface>)
    requires interfaces == Announce(s).interfaces
    ensures Known(interfaces, ANYCAST) <==> AnycastOn(s)
    ensures forall x :: x in interfaces && x.name == ANYCAST ==>
              x.kind.DummyKind? && x.listenPort.None? && BindsEach(x.addresses, s.dns.value.bind)
    ensures forall x: Interface :: x.name != ANYCAST ==> (x in interfaces <==> x in s.interfaces)
  {
    hide BindsEach, HostCidrs;
    var kept := WithoutAnycast(s.interfaces);
    if AnycastOn(s) {
      BindsAll(s.dns.value.bind);
      assert interfaces[|kept|].name == ANYCAST;
    } else {
      forall k | 0 <= k < |interfaces| ensures interfaces[k].name != ANYCAST {
        assert interfaces[k] in kept;
      }
    }
  }

  lemma AnycastDummies(s: State, dummies: map<string, DummyEntry>)
    requires dummies == Announce(s).bird.dummies
    ensures ANYCAST in dummies <==> AnycastOn(s)
    ensures AnycastOn(s) ==> dummies[ANYCAST] == DummyEntry(ANYCAST, true)
    ensures forall n :: n != ANYCAST ==>
              (n in dummies <==> n in s.bird.dummies) && (n in s.bird.dummies ==> dummies[n] == s.bird.dummies[n])
  {
    hide WithoutAnycast, AnycastInterface;
  }

  /** The listening ports lie in the published range, which is forwarded, and the first bird-router
      has a writable control socket. Whether that one is the bird-router that runs is another matter. */
  lemma PlumbingIsThere(s: State, t: State)
    requires Validate(s) == Some(t)
    ensures t.runtime.portRange.Some? && ListenPorts(t.interfaces) != {} ==>
              && (forall p :: p in ListenPorts(t.interfaces) ==> InRange(t.runtime.portRange.value, p))
              && NetnsPublish(t.runtime.services, ManagedPort(t.runtime.portRange.value))
    ensures FirstWith(t.runtime.services, BirdRouter).Some?
    ensures SocketSettled(t.runtime.services)
  {
    hide Validate, RuntimeValid, FirstWith, ListenPorts, ListenTwice, Announce, InterfaceNamesUnique, HasRole;
    Validated(s, t);
    BirdIsThere(t.runtime);
    hide NetnsPublish;
  }

  lemma BirdIsThere(r: Runtime)
    requires RuntimeValid(r)
    ensures HasRole(r.services, BirdRouter)
  {
    hide ServicesOk, ReferencesOk, NamesUnique;
    var enabled := EnabledOf(r.services);
    var i :| 0 <= i < |enabled| && enabled[i].role == BirdRouter;
    assert enabled[i] in r.services;
  }

  /** Two enabled sessions on one interface, towards different ASNs. */
  ghost predicate Competing(x: Session, y: Session) {
    x.enabled && y.enabled && x.interface.Some? && x.interface.value != "" && x.interface == y.interface && x.remoteAsn != y.remoteAsn
  }

  /** The cross-references of a state, on its fields. */
  ghost predicate WellReferenced(s: State) {
    && s.generation >= 1
    && (forall i, j :: 0 <= i < j < |s.interfaces| ==> s.interfaces[i].name != s.interfaces[j].name)
    && (forall i, j :: 0 <= i < j < |s.sessions| ==> s.sessions[i].name != s.sessions[j].name)
    && (forall x :: x in s.sessions && x.interface.Some? && x.interface.value != "" ==>
          exists i :: i in s.interfaces && i.name == x.interface.value)
    && (forall x, y :: x in s.sessions && y in s.sessions && Competing(x, y) ==>
          x.remoteAsn == s.asn || x.internalPolicy || y.remoteAsn == s.asn || y.internalPolicy)
    && (s.bird.topology.Some? ==> s.nodeId in s.bird.topology.value)
  }

  lemma ReferencesIff(s: State)
    ensures References(s) <==> WellReferenced(s)
  {
    forall name ensures Known(s.interfaces, name) <==> exists i :: i in s.interfaces && i.name == name {
      if i :| i in s.interfaces && i.name == name {
        var k :| 0 <= k < |s.interfaces| && s.interfaces[k] == i;
      }
    }
    hide Known;
  }

  /** The ports that tunnels listen on: each once, and all in the published range. */
  ghost predicate PortsAgree(s: State) {
    && (forall i, j :: 0 <= i < j < |s.interfaces| ==>
          var x, y := s.interfaces[i], s.interfaces[j];
          x.kind.WireGuardKind? && y.kind.WireGuardKind? && x.listenPort.Some? ==> x.listenPort != y.listenPort)
    && (forall i :: i in s.interfaces && i.kind.WireGuardKind? && i.listenPort.Some? && s.runtime.portRange.Some? ==>
          s.runtime.portRange.value.start <= i.listenPort.value <= s.runtime.portRange.value.end)
  }

  /** The first bird-router does not mount the socket directory read-only. */
  ghost predicate SocketAgrees(s: State) {
    forall k: nat, m: nat :: FirstAt(s.runtime.services, BirdRouter, k) ==>
      MountAt(s.runtime.services[k].volumes, "/run/bird", m) ==> !s.runtime.services[k].volumes[m].readonly
  }

  /** What is refused, pass by pass; and what comes out would pass the runtime checks again. */
  lemma AcceptedOnlyIf(s: State, t: State)
    requires Validate(s) == Some(t)
    ensures Acceptable(s.runtime) && WellReferenced(s) && PortsAgree(s) && SocketAgrees(s) && Acceptable(t.runtime)
  {
    Validated(s, t);
    ReferencesIff(s);
    ValidIffAcceptable(s.runtime);
    ValidIffAcceptable(t.runtime);
    hide RuntimeValid, References, Acceptable, WellReferenced, ExposeSocket, DeployDns, Settled, Announce;
    var a := PublishPorts(s).value;
    PortsAgreed(s, a);
    PortsLeaveBird(s, a);
    hide PublishPorts, PortsAgree;
    SocketAgreed(s, a);
  }

  lemma PortsAgreed(s: State, a: State)
    requires PublishPorts(s) == Some(a)
    ensures PortsAgree(s)
  {
    hide RuntimeValid, PublishAll, ManagedPort;
    forall i | i in s.interfaces && i.kind.WireGuardKind? && i.listenPort.Some? ensures i.listenPort.value in ListenPorts(s.interfaces) {
    }
  }

  lemma SocketAgreed(s: State, a: State)
    requires ExposeSocket(a).Some?
    requires FirstWith(a.runtime.services, BirdRouter) == FirstWith(s.runtime.services, BirdRouter)
    ensures SocketAgrees(s)
  {
    hide RuntimeValid, FirstWith, FirstMount, MountAll;
    FirstWithMeans(s.runtime.services, BirdRouter);
    forall k: nat, m: nat | FirstAt(s.runtime.services, BirdRouter, k) && MountAt(s.runtime.services[k].volumes, "/run/bird", m)
      ensures !s.runtime.services[k].volumes[m].readonly
    {
      var n := FirstMountMeans(s.runtime.services[k].volumes, SOCKET_TARGET);
      assert s.runtime.services[k].volumes[m] in s.runtime.services[k].volumes;
      assert n == m;
    }
  }

  /** The agent reaches the control socket of this service. */
  predicate SocketReached(x: Service) {
    var m := FirstMount(x.volumes, SOCKET_TARGET);
    m.Some? && !m.value.readonly
  }

  lemma {:induction false} FirstOfPublished(services: seq<Service>, port: Port)
    ensures FirstWith(PublishAll(services, port), BirdRouter) == FirstWith(services, BirdRouter)
  {
    if services != [] {
      assert PublishAll(services, port)[1..] == PublishAll(services[1..], port);
      FirstOfPublished(services[1..], port);
    }
  }

  lemma PublishedBirds(services: seq<Service>, port: Port, x: Service)
    requires x.role.BirdRouter?
    ensures x in PublishAll(services, port) <==> x in services
  {
    if x in services {
      var i :| 0 <= i < |services| && services[i] == x;
      assert PublishAll(services, port)[i] == x;
    }
  }

  lemma PortsLeaveBird(s: State, a: State)
    requires PublishPorts(s) == Some(a)
    ensures FirstWith(a.runtime.services, BirdRouter) == FirstWith(s.runtime.services, BirdRouter)
    ensures forall x: Service :: x.role.BirdRouter? ==> (x in a.runtime.services <==> x in s.runtime.services)
  {
    hide RuntimeValid, FirstWith, ListenTwice, ListenPorts;
    var services := s.runtime.services;
    if a != s {
      var port := ManagedPort(s.runtime.portRange.value);
      FirstOfPublished(services, port);
      forall x: Service | x.role.BirdRouter? ensures x in PublishAll(services, port) <==> x in services {
        PublishedBirds(services, port, x);
      }
    }
  }

  lemma SocketOfFirst(a: State, b: State, x: Service)
    requires ExposeSocket(a) == Some(b) && NamesUnique(a.runtime.services)
    requires x in a.runtime.services && x.role.BirdRouter?
    ensures exists y :: y in b.runtime.services && Extends(x, y) &&
              (SocketReached(y) <==> FirstWith(a.runtime.services, BirdRouter) == Some(x) || SocketReached(x))
  {
    hide RuntimeValid, NamesUnique;
    var services := a.runtime.services;
    var bird := FirstWith(services, BirdRouter);
    if FirstMount(bird.value.volumes, SOCKET_TARGET).Some? {
      assert b == a && Extends(x, x);
    } else {
      ByName(services);
      hide FirstWith;
      var y := MountSocket(x, bird.value.name);
      MountedAmong(services, bird.value.name, x);
      FirstMountAppended(bird.value.volumes, Mount(SOCKET_SOURCE, SOCKET_TARGET, false));
    }
  }

  lemma MountedAmong(services: seq<Service>, name: string, x: Service)
    requires x in services
    ensures MountSocket(x, name) in MountAll(services, name) && Extends(x, MountSocket(x, name))
  {
    var i :| 0 <= i < |services| && services[i] == x;
    assert MountAll(services, name)[i] == MountSocket(x, name);
  }

  lemma UniqueAfterPorts(s: State, a: State)
    requires PublishPorts(s) == Some(a) && NamesUnique(s.runtime.services)
    ensures NamesUnique(a.runtime.services)
  {
    hide RuntimeValid;
    AfterPorts(s, a);
    forall i, j | 0 <= i < j < |a.runtime.services| ensures a.runtime.services[i].name != a.runtime.services[j].name {
      assert Extends(s.runtime.services[i], a.runtime.services[i]) && Extends(s.runtime.services[j], a.runtime.services[j]);
    }
  }

  /** A bird-router ends up with a writable control socket if it had one or is the first of its role,
      and only then. */
  lemma SocketOf(s: State, t: State, x: Service)
    requires Validate(s) == Some(t) && x in s.runtime.services && x.role.BirdRouter?
    ensures exists y :: y in t.runtime.services && Extends(x, y) &&
              (SocketReached(y) <==> FirstWith(s.runtime.services, BirdRouter) == Some(x) || SocketReached(x))
  {
    var a := PublishPorts(s).value;
    var b := ExposeSocket(a).value;
    var c := DeployDns(b).value;
    PortsLeaveBird(s, a);
    UniqueAfterPorts(s, a);
    hide Validate, RuntimeValid, PublishPorts, ExposeSocket, DeployDns, NamesUnique, FirstMount;
    SocketOfFirst(a, b, x);
    DnsPassKeepsOthers(b, c);
  }

  predicate UniqueNamesOf(services: seq<Service>) {
    forall x, y :: x in services && y in services && x.name == y.name ==> x == y
  }

  lemma ByName(services: seq<Service>)
    requires NamesUnique(services)
    ensures UniqueNamesOf(services)
  {
    forall x, y | x in services && y in services && x.name == y.name ensures x == y {
      var i :| 0 <= i < |services| && services[i] == x;
      var j :| 0 <= j < |services| && services[j] == y;
    }
  }

  /** Every bird-router that runs has a writable control socket exactly if each had one before or is
      the first of its role: the pass takes the first without looking at `enabled`. */
  lemma SocketsReachedIff(s: State, t: State)
    requires Validate(s) == Some(t)
    ensures (forall y :: y in t.runtime.services && y.role.BirdRouter? && y.enabled ==> SocketReached(y))
       <==> (forall x :: x in s.runtime.services && x.role.BirdRouter? && x.enabled ==>
               FirstWith(s.runtime.services, BirdRouter) == Some(x) || SocketReached(x))
  {
    hide *;
    Validated(s, t);
    ValidNames(t.runtime);
    ByName(t.runtime.services);
    ServicesSurvive(s, t);
    forall x | x in s.runtime.services && x.role.BirdRouter?
      ensures exists y :: y in t.runtime.services && Extends(x, y) &&
                (SocketReached(y) <==> FirstWith(s.runtime.services, BirdRouter) == Some(x) || SocketReached(x))
    {
      SocketOf(s, t, x);
    }
    RouterByRouter(s.runtime.services, t.runtime.services);
  }

  lemma ValidNames(r: Runtime)
    requires RuntimeValid(r)
    ensures NamesUnique(r.services)
  {
  }

  lemma RouterByRouter(a: seq<Service>, b: seq<Service>)
    requires UniqueNamesOf(b)
    requires forall x :: x in a && x.role.BirdRouter? ==>
      exists y :: y in b && Extends(x, y) &&
        (SocketReached(y) <==> FirstWith(a, BirdRouter) == Some(x) || SocketReached(x))
    requires forall y :: y in b && !y.role.Dns? ==> exists x :: x in a && Extends(x, y)
    ensures (forall y :: y in b && y.role.BirdRouter? && y.enabled ==> SocketReached(y))
       <==> (forall x :: x in a && x.role.BirdRouter? && x.enabled ==> FirstWith(a, BirdRouter) == Some(x) || SocketReached(x))
  {
    hide SocketReached, FirstWith;
  }

  /** Port rule `p` forwards host port `host` to container port `port`. */
  predicate Forwards(p: Port, host: nat, port: nat, protocol: string) {
    && p.protocol == protocol && p.hostPort.Some? && p.hostPortEnd.Some? && p.containerPortEnd.Some?
    && p.containerPort <= port <= p.containerPortEnd.value && p.hostPort.value <= host <= p.hostPortEnd.value
    && port - p.containerPort == host - p.hostPort.value
  }

  /** Every tunnel of a validated state can be dialled: the network namespace service forwards the
      host port at the same place of the published range to the port the tunnel listens on. */
  lemma TunnelsAreReachable(s: State, t: State, x: Service, port: nat)
    requires Validate(s) == Some(t) && t.runtime.portRange.Some?
    requires x in t.runtime.services && x.role.RouterNetns? && port in ListenPorts(t.interfaces)
    ensures var r := t.runtime.portRange.value;
      && r.start <= port <= r.end
      && var first := if r.hostStart.Some? && r.hostStart.value != 0 then r.hostStart.value else r.start;
         exists p :: p in x.ports && p.hostIp == r.hostIp && Forwards(p, first + (port - r.start), port, "udp")
  {
    PlumbingIsThere(s, t);
    var r := t.runtime.portRange.value;
    assert InRange(r, port) && ManagedPort(r) in x.ports;
    assert Forwards(ManagedPort(r), HostStart(r) + (port - r.start), port, "udp");
  }

  predicate Runs(services: seq<Service>, role: Role) {
    exists x :: x in services && x.role == role && x.enabled
  }

  lemma SameRuns(a: seq<Service>, b: seq<Service>, role: Role)
    requires SameServices(a, b)
    ensures Runs(a, role) <==> Runs(b, role)
  {
    if Runs(a, role) {
      var x :| x in a && x.role == role && x.enabled;
      var i :| 0 <= i < |a| && a[i] == x;
      assert b[i] in b && Extends(a[i], b[i]);
    }
    if Runs(b, role) {
      var x :| x in b && x.role == role && x.enabled;
      var i :| 0 <= i < |b| && b[i] == x;
      assert a[i] in a && Extends(a[i], b[i]);
    }
  }

  /** The states the third pass starts from and leaves. */
  lemma Stages(s: State, t: State) returns (b: State, c: State)
    requires Validate(s) == Some(t)
    ensures SameServices(s.runtime.services, b.runtime.services) && b == s.(runtime := b.runtime)
    ensures DeployDns(b) == Some(c) && t == Announce(c)
    ensures HasRole(b.runtime.services, RouterNetns)
  {
    var a := PublishPorts(s).value;
    b := ExposeSocket(a).value;
    c := DeployDns(b).value;
    AfterPorts(s, a);
    AfterSocket(a, b);
    ValidHasNetns(s.runtime);
    SameRoles(s.runtime.services, a.runtime.services, RouterNetns);
    SameRoles(a.runtime.services, b.runtime.services, RouterNetns);
    Chain(s.runtime.services, a.runtime.services, b.runtime.services);
  }

  lemma Chain(a: seq<Service>, b: seq<Service>, c: seq<Service>)
    requires SameServices(a, b) && SameServices(b, c)
    ensures SameServices(a, c)
  {
    forall i | 0 <= i < |a| ensures Extends(a[i], c[i]) {
      assert Extends(a[i], b[i]) && Extends(b[i], c[i]);
    }
  }

  lemma DnsPassRuns(b: State, c: State)
    requires DeployDns(b) == Some(c) && HasRole(b.runtime.services, RouterNetns)
    ensures Runs(c.runtime.services, Dns)
       <==> DnsOn(b) && (HasRole(b.runtime.services, Dns) ==> Runs(b.runtime.services, Dns))
  {
    var services := b.runtime.services;
    if !DnsOn(b) {
      if HasRole(services, Dns) {
        assert forall x :: x in c.runtime.services ==> x.role != Dns;
      } else {
        forall x | x in services ensures x.role != Dns {
          var i :| 0 <= i < |services| && services[i] == x;
        }
      }
    } else if !HasRole(services, Dns) {
      var added := CoreDns(FirstWith(services, RouterNetns).value, FirstWith(services, WgGateway));
      assert c.runtime.services == services + [added];
      assert added in c.runtime.services;
    }
  }

  /** CoreDNS will run exactly when DNS is on and no disabled DNS service stands in its place:
      `has_dns_service` does not look at `enabled`. */
  lemma CoreDnsRunsIff(s: State, t: State)
    requires Validate(s) == Some(t)
    ensures Runs(t.runtime.services, Dns)
       <==> DnsOn(s) && (HasRole(s.runtime.services, Dns) ==> Runs(s.runtime.services, Dns))
  {
    var b, c := Stages(s, t);
    SameRuns(s.runtime.services, b.runtime.services, Dns);
    SameRoles(s.runtime.services, b.runtime.services, Dns);
    DnsPassRuns(b, c);
  }

  /** An injected CoreDNS lives in the network namespace of a router-netns service, starts after it
      and sees the rendered configuration. */
  ghost predicate Wired(x: Service, services: seq<Service>) {
    && x.role.Dns? && x.enabled && HasMount(x, DNS_TARGET)
    && exists n :: n in services && n.role.RouterNetns? && NetworkTarget(x) == n.name && n.name in x.dependsOn
  }

  lemma CoreDnsIsWired(s: State, t: State)
    requires Validate(s) == Some(t) && DnsOn(s) && !HasRole(s.runtime.services, Dns)
    ensures exists x :: x in t.runtime.services && Wired(x, t.runtime.services)
    ensures forall x :: x in t.runtime.services && x.role.Dns? ==> Wired(x, t.runtime.services)
  {
    var b, c := Stages(s, t);
    SameRoles(s.runtime.services, b.runtime.services, Dns);
    hide Validate, HasRole, Wired;
    DnsPassWires(b, c);
  }

  lemma DnsPassWires(b: State, c: State)
    requires DeployDns(b) == Some(c) && DnsOn(b) && !HasRole(b.runtime.services, Dns)
    requires HasRole(b.runtime.services, RouterNetns)
    ensures exists x :: x in c.runtime.services && Wired(x, c.runtime.services)
    ensures forall x :: x in c.runtime.services && x.role.Dns? ==> Wired(x, c.runtime.services)
  {
    hide RuntimeValid;
    var services := b.runtime.services;
    var netns := FirstWith(services, RouterNetns).value;
    var added := CoreDns(netns, FirstWith(services, WgGateway));
    assert c.runtime.services == services + [added];
    CoreDnsJoins(netns, FirstWith(services, WgGateway));
    assert netns in c.runtime.services && added in c.runtime.services;
    assert Wired(added, c.runtime.services);
    forall x | x in services ensures !x.role.Dns? {
      var i :| 0 <= i < |services| && services[i] == x;
    }
  }

  lemma CoreDnsJoins(netns: Service, gateway: Option<Service>)
    ensures var x := CoreDns(netns, gateway);
      NetworkTarget(x) == netns.name && netns.name in x.dependsOn && HasMount(x, DNS_TARGET)
  {
    var x := CoreDns(netns, gateway);
    assert x.networkMode.value[|SERVICE_PREFIX|..] == netns.name;
    assert x.volumes[0] in x.volumes && x.dependsOn[0] == netns.name;
  }

  lemma DnsPassKeepsOthers(b: State, c: State)
    requires DeployDns(b) == Some(c)
    ensures forall x: Service :: !x.role.Dns? ==> (x in c.runtime.services <==> x in b.runtime.services)
  {
  }

  lemma SomeExtends(a: seq<Service>, b: seq<Service>)
    requires SameServices(a, b)
    ensures forall x :: x in a ==> exists y :: y in b && Extends(x, y)
    ensures forall y :: y in b ==> exists x :: x in a && Extends(x, y)
  {
    forall x | x in a ensures exists y :: y in b && Extends(x, y) {
      var i :| 0 <= i < |a| && a[i] == x;
      assert Extends(a[i], b[i]) && b[i] in b;
    }
    forall y | y in b ensures exists x :: x in a && Extends(x, y) {
      var i :| 0 <= i < |b| && b[i] == y;
      assert Extends(a[i], b[i]) && a[i] in a;
    }
  }

  /** Every service other than DNS survives, and gains nothing but published ports and mounts. */
  lemma ServicesSurvive(s: State, t: State)
    requires Validate(s) == Some(t)
    ensures forall x :: x in s.runtime.services && !x.role.Dns? ==>
              exists y :: y in t.runtime.services && Extends(x, y)
    ensures forall y :: y in t.runtime.services && !y.role.Dns? ==>
              exists x :: x in s.runtime.services && Extends(x, y)
  {
    hide Validate, RuntimeValid, DeployDns, Announce, SameServices, HasRole;
    var b, c := Stages(s, t);
    AnnounceKeepsServices(c);
    SomeExtends(s.runtime.services, b.runtime.services);
    DnsPassKeepsOthers(b, c);
  }

  lemma AnnounceKeepsServices(s: State)
    ensures Announce(s).runtime == s.runtime
  {
  }

  // ----- the services of a validated state, exactly -----

  /** The rule that publishes the whole range: host and container ports side by side, over UDP. */
  ghost predicate PublishesRange(r: PortRange, p: Port) {
    var first := if r.hostStart.Some? && r.hostStart.value != 0 then r.hostStart.value else r.start;
    && p.hostIp == r.hostIp && p.hostPort == Some(first) && p.hostPortEnd == Some(first + (r.end - r.start))
    && p.containerPort == r.start && p.containerPortEnd == Some(r.end) && p.protocol == "udp"
  }

  /** Some tunnel listens, and there is a range to publish. */
  ghost predicate Publishing(s: State) {
    s.runtime.portRange.Some? && exists i :: i in s.interfaces && i.kind.WireGuardKind? && i.listenPort.Some?
  }

  /** The service gains the rule, if it is of role router-netns and lacks it. */
  ghost predicate PortsGained(s: State, x: Service, y: Service) {
    if Publishing(s) && x.role.RouterNetns? && forall p :: PublishesRange(s.runtime.portRange.value, p) ==> p !in x.ports then
      exists p :: PublishesRange(s.runtime.portRange.value, p) && multiset(y.ports) == multiset(x.ports) + multiset{p}
    else y.ports == x.ports
  }

  /** The service at this place gains the socket, if it is the first bird-router and mounts nothing there. */
  ghost predicate SocketGained(services: seq<Service>, k: nat, y: Service)
    requires k < |services|
  {
    y.volumes ==
      if services[k].role.BirdRouter? && (forall j :: 0 <= j < k ==> !services[j].role.BirdRouter?) &&
         forall m :: m in services[k].volumes ==> m.target != "/run/bird"
      then services[k].volumes + [Mount("runtime/bird-run", "/run/bird", false)]
      else services[k].volumes
  }

  /** The services after the first two passes, one for one; everything else about them stays. */
  ghost predicate Equipped(s: State, b: seq<Service>) {
    && |b| == |s.runtime.services|
    && forall k :: 0 <= k < |b| ==>
         && b[k] == s.runtime.services[k].(ports := b[k].ports, volumes := b[k].volumes)
         && PortsGained(s, s.runtime.services[k], b[k])
         && SocketGained(s.runtime.services, k, b[k])
  }

  lemma RangeIsManaged(r: PortRange, p: Port)
    requires r.start <= r.end
    ensures PublishesRange(r, p) <==> p == ManagedPort(r)
  {
  }

  lemma PublishedExactly(s: State, a: State)
    requires PublishPorts(s) == Some(a)
    ensures a == s.(runtime := s.runtime.(services := a.runtime.services)) && |a.runtime.services| == |s.runtime.services|
    ensures forall k :: 0 <= k < |a.runtime.services| ==>
      && a.runtime.services[k] == s.runtime.services[k].(ports := a.runtime.services[k].ports)
      && PortsGained(s, s.runtime.services[k], a.runtime.services[k])
  {
    var services := s.runtime.services;
    hide RuntimeValid, SortPorts, ManagedPort, PublishesRange;
    ListeningMeans(s);
    if Publishing(s) {
      var r := s.runtime.portRange.value;
      RangeIsNonempty(s, r);
      forall p ensures PublishesRange(r, p) <==> p == ManagedPort(r) { RangeIsManaged(r, p); }
      assert PublishesRange(r, ManagedPort(r));
      forall k | 0 <= k < |services|
        ensures Publish(services[k], ManagedPort(r)) == services[k].(ports := Publish(services[k], ManagedPort(r)).ports)
        ensures PortsGained(s, services[k], Publish(services[k], ManagedPort(r)))
      {
      }
      assert a.runtime.services == PublishAll(services, ManagedPort(r));
    } else {
      assert a == s;
    }
  }

  lemma ListeningMeans(s: State)
    ensures Publishing(s) <==> ListenPorts(s.interfaces) != {} && s.runtime.portRange.Some?
  {
    if Publishing(s) {
      var i :| i in s.interfaces && i.kind.WireGuardKind? && i.listenPort.Some?;
      assert i.listenPort.value in ListenPorts(s.interfaces);
    }
  }

  lemma RangeIsNonempty(s: State, r: PortRange)
    requires PublishPorts(s).Some? && Publishing(s) && r == s.runtime.portRange.value
    ensures r.start <= r.end
  {
    ListeningMeans(s);
    var p :| p in ListenPorts(s.interfaces);
    assert InRange(r, p);
  }

  lemma MountedExactly(a: State, b: State)
    requires ExposeSocket(a) == Some(b) && NamesUnique(a.runtime.services)
    ensures b == a.(runtime := a.runtime.(services := b.runtime.services)) && |b.runtime.services| == |a.runtime.services|
    ensures forall k :: 0 <= k < |b.runtime.services| ==>
      && b.runtime.services[k] == a.runtime.services[k].(volumes := b.runtime.services[k].volumes)
      && SocketGained(a.runtime.services, k, b.runtime.services[k])
  {
    var services := a.runtime.services;
    hide RuntimeValid, FirstWith, FirstMount, SocketGained, FirstAt, NamesUnique, MountSocket;
    FirstWithMeans(services, BirdRouter);
    forall k | 0 <= k < |services|
      ensures b.runtime.services[k] == services[k].(volumes := b.runtime.services[k].volumes)
      ensures SocketGained(services, k, b.runtime.services[k])
    {
      MountedAt(services, k);
    }
  }

  /** What the socket pass makes of the service at one place. */
  lemma MountedAt(services: seq<Service>, k: nat)
    requires k < |services| && NamesUnique(services)
    ensures var bird := FirstWith(services, BirdRouter);
      var x := services[k];
      var y := if bird.Some? && FirstMount(bird.value.volumes, SOCKET_TARGET).None? then MountSocket(x, bird.value.name) else x;
      y == x.(volumes := y.volumes) && SocketGained(services, k, y)
  {
    hide FirstWith, FirstMount, SocketGained, NamesUnique;
    FirstWithMeans(services, BirdRouter);
    if FirstAt(services, BirdRouter, k) {
      GainedAtFirst(services, k);
    } else {
      NotGained(services, k);
      var bird := FirstWith(services, BirdRouter);
      if bird.Some? {
        var n: nat :| FirstAt(services, BirdRouter, n);
        OtherName(services, k, n);
      }
    }
  }

  lemma OtherName(services: seq<Service>, k: nat, n: nat)
    requires NamesUnique(services) && k < |services| && n < |services| && k != n
    ensures services[k].name != services[n].name
  {
    assert if k < n then services[k].name != services[n].name else services[n].name != services[k].name;
  }

  lemma NotGained(services: seq<Service>, k: nat)
    requires k < |services| && !FirstAt(services, BirdRouter, k)
    ensures SocketGained(services, k, services[k])
  {
  }

  lemma GainedAtFirst(services: seq<Service>, k: nat)
    requires FirstAt(services, BirdRouter, k)
    ensures var x := services[k];
      SocketGained(services, k, if FirstMount(x.volumes, SOCKET_TARGET).None? then MountSocket(x, x.name) else x)
  {
    hide FirstMount;
    var m := FirstMountMeans(services[k].volumes, SOCKET_TARGET);
    if FirstMount(services[k].volumes, SOCKET_TARGET).Some? {
      assert services[k].volumes[m] in services[k].volumes;
    }
  }

  /** The services of a validated state are those of the input, in order and equipped as above, without
      DNS services if DNS is off, and with CoreDNS at the end if DNS is on and no service has that role. */
  lemma ServicesExactly(s: State, t: State) returns (b: seq<Service>)
    requires Validate(s) == Some(t)
    ensures Equipped(s, b)
    ensures !DnsOn(s) ==> t.runtime.services == WithoutDns(b)
    ensures DnsOn(s) && HasRole(s.runtime.services, Dns) ==> t.runtime.services == b
    ensures DnsOn(s) && !HasRole(s.runtime.services, Dns) ==>
      |t.runtime.services| == |b| + 1 && t.runtime.services[..|b|] == b && IsCoreDns(t.runtime.services[|b|], s.runtime.services)
  {
    var a := PublishPorts(s).value;
    var equipped := ExposeSocket(a).value;
    var c := DeployDns(equipped).value;
    b := equipped.runtime.services;
    ValidNames(s.runtime);
    UniqueAfterPorts(s, a);
    PublishedExactly(s, a);
    MountedExactly(a, equipped);
    EquippedFrom(s, a, equipped);
    AnnounceKeepsServices(c);
    hide Validate, RuntimeValid, PublishPorts, ExposeSocket, Announce, Equipped, PortsGained, SocketGained, NamesUnique, DeployDns,
         HasRole, FirstWith, CoreDns, IsCoreDns;
    ValidHasNetns(s.runtime);
    SamePlaces(s.runtime.services, b);
    DnsPassExactly(equipped, c, s.runtime.services);
  }

  ghost predicate SameKinds(services: seq<Service>, b: seq<Service>) {
    |b| == |services| && forall k :: 0 <= k < |b| ==> b[k].role == services[k].role && b[k].name == services[k].name
  }

  lemma SamePlaces(services: seq<Service>, b: seq<Service>)
    requires SameKinds(services, b)
    ensures forall role :: HasRole(b, role) <==> HasRole(services, role)
    ensures forall role, k: nat :: FirstAt(b, role, k) <==> FirstAt(services, role, k)
  {
  }

  lemma EquippedFrom(s: State, a: State, e: State)
    requires |s.runtime.services| == |a.runtime.services| == |e.runtime.services|
    requires forall k :: 0 <= k < |a.runtime.services| ==>
      && a.runtime.services[k] == s.runtime.services[k].(ports := a.runtime.services[k].ports)
      && PortsGained(s, s.runtime.services[k], a.runtime.services[k])
    requires forall k :: 0 <= k < |e.runtime.services| ==>
      && e.runtime.services[k] == a.runtime.services[k].(volumes := e.runtime.services[k].volumes)
      && SocketGained(a.runtime.services, k, e.runtime.services[k])
    ensures Equipped(s, e.runtime.services) && SameKinds(s.runtime.services, e.runtime.services)
  {
    hide Publishing, PublishesRange;
    var x, y, z := s.runtime.services, a.runtime.services, e.runtime.services;
    forall k | 0 <= k < |z| ensures z[k] == x[k].(ports := z[k].ports, volumes := z[k].volumes)
      ensures z[k].ports == y[k].ports && y[k].volumes == x[k].volumes && y[k].role == x[k].role
    {
    }
    forall k | 0 <= k < |z| ensures PortsGained(s, x[k], z[k]) && SocketGained(x, k, z[k]) {
      assert PortsGained(s, x[k], y[k]) && SocketGained(y, k, z[k]);
    }
  }

  lemma DnsPassExactly(e: State, c: State, services: seq<Service>)
    requires DeployDns(e) == Some(c) && SameKinds(services, e.runtime.services) && HasRole(services, RouterNetns)
    requires forall role :: HasRole(e.runtime.services, role) <==> HasRole(services, role)
    requires forall role, k: nat :: FirstAt(e.runtime.services, role, k) <==> FirstAt(services, role, k)
    ensures var b := e.runtime.services;
      && (!DnsOn(e) ==> c.runtime.services == WithoutDns(b))
      && (DnsOn(e) && HasRole(services, Dns) ==> c.runtime.services == b)
      && (DnsOn(e) && !HasRole(services, Dns) ==>
            c.runtime.services == b + [CoreDns(FirstWith(b, RouterNetns).value, FirstWith(b, WgGateway))] &&
            IsCoreDns(CoreDns(FirstWith(b, RouterNetns).value, FirstWith(b, WgGateway)), services))
  {
    hide RuntimeValid, HasRole, FirstAt, CoreDns, IsCoreDns, SameKinds, WithoutDns, FirstWith;
    CoreDnsIs(services, e.runtime.services);
    KeepsAll(e.runtime.services);
  }

  /** Without a DNS service there is nothing to take out. */
  lemma {:induction false} KeepsAll(services: seq<Service>)
    ensures !HasRole(services, Dns) ==> WithoutDns(services) == services
  {
    if services != [] {
      var rest := services[1..];
      assert forall k :: 0 <= k < |rest| ==> rest[k] == services[k + 1];
      KeepsAll(rest);
      if !HasRole(services, Dns) {
        assert services[0].role != Dns;
        assert services == [services[0]] + rest;
      }
    }
  }

  lemma FirstIsPlace(services: seq<Service>, role: Role)
    ensures forall k: nat :: FirstAt(services, role, k) ==> k < |services|
  {
  }

  lemma CoreDnsIs(services: seq<Service>, b: seq<Service>)
    requires SameKinds(services, b) && HasRole(services, RouterNetns)
    requires forall role :: HasRole(b, role) <==> HasRole(services, role)
    requires forall role, k: nat :: FirstAt(b, role, k) <==> FirstAt(services, role, k)
    ensures IsCoreDns(CoreDns(FirstWith(b, RouterNetns).value, FirstWith(b, WgGateway)), services)
  {
    hide HasRole, FirstAt, FirstWith;
    FirstWithMeans(b, RouterNetns);
    FirstWithMeans(b, WgGateway);
    assert FirstWith(b, RouterNetns).Some?;
    var n: nat :| FirstAt(b, RouterNetns, n);
    assert FirstAt(services, RouterNetns, n);
    var netns, gateway := FirstWith(b, RouterNetns).value, FirstWith(b, WgGateway);
    var x := CoreDns(netns, gateway);
    FirstIsPlace(b, RouterNetns);
    FirstIsPlace(services, RouterNetns);
    assert netns == b[n] && b[n].name == services[n].name;
    if gateway.Some? {
      FirstIsPlace(b, WgGateway);
      var g: nat :| FirstAt(b, WgGateway, g);
      assert FirstAt(services, WgGateway, g) && x.dependsOn == [services[n].name, services[g].name];
    }
    assert DNS_TARGET + "/Corefile" == "/etc/coredns/Corefile";
  }

  /** CoreDNS as it is injected: in the namespace of the first router-netns, after it and the first
      gateway, with its configuration mounted read-only. */
  ghost predicate IsCoreDns(x: Service, services: seq<Service>) {
    && x.name == "dn42-dns" && x.role.Dns? && x.enabled && x.image == Some("coredns/coredns:1.12.1")
    && x.command == ["-conf", "/etc/coredns/Corefile"] && x.ports == [] && x.address.None?
    && x.volumes == [Mount("coredns", "/etc/coredns", true)]
    && exists n: nat ::
         && FirstAt(services, RouterNetns, n) && x.networkMode == Some("service:" + services[n].name)
         && (if HasRole(services, WgGateway)
             then exists g: nat :: FirstAt(services, WgGateway, g) && x.dependsOn == [services[n].name, services[g].name]
             else x.dependsOn == [services[n].name])
  }

  // ----- three states that show the exceptions are real -----

  const NETNS := Service("router-netns", RouterNetns, true, None, [], [], None, [], [], None, "")
  const GATEWAY := Service("wg-gateway", WgGateway, true, None, ["run"], [], Some("service:router-netns"),
                           [Mount("s", "/opt/dn42/scripts", true), Mount("w", "/etc/wireguard", true)],
                           ["router-netns"], None, "")
  const BIRD := Service("bird-router", BirdRouter, true, None, ["run"], [], Some("service:router-netns"),
                        [Mount(SOCKET_SOURCE, SOCKET_TARGET, false), Mount("s", "/opt/dn42/scripts", true),
                         Mount("b", "/etc/bird", true)],
                        ["router-netns"], None, "")
  const OLD_DNS := Service(DNS_NAME, Dns, false, None, [], [], None, [], [], None, "")

  const SPARE := Service("spare", BirdRouter, false, None, [], [], None, [Mount(SOCKET_SOURCE, SOCKET_TARGET, false)], [], None, "")
  const BARE := BIRD.(volumes := [Mount("s", "/opt/dn42/scripts", true), Mount("b", "/etc/bird", true)])

  function Node(extra: seq<Service>, dns: Option<DnsSpec>): State {
    With([BIRD] + extra, dns)
  }

  function With(rest: seq<Service>, dns: Option<DnsSpec>): State {
    State(1, "n", 1, Runtime(Underlay(0, 255, 1), None, None, [NETNS] + ([GATEWAY] + rest), ""), Bird(map[], None, ""),
          [Interface(ANYCAST, DummyKind, [], None, "")], [Session("x", Some(ANYCAST), true, 2, false, "")], dns, "")
  }

  lemma EnabledCons(x: Service, rest: seq<Service>)
    ensures EnabledOf([x] + rest) == (if x.enabled then [x] else []) + EnabledOf(rest)
  {
    assert ([x] + rest)[1..] == rest;
  }

  lemma FirstCons(x: Service, rest: seq<Service>, role: Role)
    ensures FirstWith([x] + rest, role) == if x.role == role then Some(x) else FirstWith(rest, role)
  {
    assert ([x] + rest)[1..] == rest;
  }

  /** One of three plain services that depend on nothing but the first. */
  ghost predicate Plain(x: Service, role: Role, first: string) {
    && x.role == role && x.enabled && x.ports == [] && x.address.None?
    && RoleOk(x)
    && (forall d :: d in x.dependsOn ==> d == first)
    && (NetworkTarget(x) == "" || NetworkTarget(x) == first)
  }

  ghost predicate Three(n: Service, g: Service, b: Service) {
    Plain(n, RouterNetns, n.name) && Plain(g, WgGateway, n.name) && Plain(b, BirdRouter, n.name)
  }

  /** Three such services, and no other that is enabled, make a runtime. */
  lemma ThreeAreEnough(n: Service, g: Service, b: Service, r: Runtime)
    requires Three(n, g, b) && EnabledOf(r.services) == [n, g, b]
    requires NamesUnique(r.services) && r.underlay.gateway + 1 <= r.underlay.last && r.underlay.first <= r.underlay.gateway
    ensures RuntimeValid(r)
  {
    hide Plain, RuntimeValid, NamesUnique, ServicesOk, ReferencesOk, HasRole, EnabledOf;
    assert n.enabled && g.enabled && b.enabled && n.ports == [] && g.ports == [] && b.ports == [] by {
      ThreeAreOn(n, g, b);
    }
    ThreeRoles(n, g, b);
    ThreeAddresses(n, g, b, r);
    NoPorts([n, g, b]);
    Assembled(r, [n, g, b]);
  }

  lemma ThreeAreOn(n: Service, g: Service, b: Service)
    requires Three(n, g, b)
    ensures n.enabled && g.enabled && b.enabled && n.ports == [] && g.ports == [] && b.ports == []
  {
  }

  lemma ThreeEnabled(n: Service, g: Service, b: Service, extra: seq<Service>)
    requires n.enabled && g.enabled && b.enabled && (extra == [] || (|extra| == 1 && !extra[0].enabled))
    ensures EnabledOf([n] + ([g] + ([b] + extra))) == [n, g, b]
  {
    hide EnabledOf;
    EnabledCons(n, [g] + ([b] + extra));
    EnabledCons(g, [b] + extra);
    EnabledCons(b, extra);
    ExtraIsOff(extra);
  }

  lemma ExtraIsOff(extra: seq<Service>)
    requires extra == [] || (|extra| == 1 && !extra[0].enabled)
    ensures EnabledOf(extra) == []
  {
    hide EnabledOf;
    NoneEnabled();
    if extra != [] {
      assert extra == [extra[0]] + [];
      EnabledCons(extra[0], []);
    }
  }

  lemma ThreeRoles(n: Service, g: Service, b: Service)
    requires Three(n, g, b)
    ensures var enabled := [n, g, b];
      && HasRole(enabled, RouterNetns) && HasRole(enabled, WgGateway) && HasRole(enabled, BirdRouter)
      && ReferencesOk(enabled)
  {
    var enabled := [n, g, b];
    assert enabled[0] == n && enabled[1] == g && enabled[2] == b;
    assert HasName(enabled, n.name);
  }

  lemma ThreeAddresses(n: Service, g: Service, b: Service, r: Runtime)
    requires Three(n, g, b)
    requires r.underlay.gateway + 1 <= r.underlay.last && r.underlay.first <= r.underlay.gateway
    ensures ServicesOk(r, [n, g, b])
  {
    assert Resolve(r, n) == Some(r.underlay.gateway + 1) && Resolve(r, g) == None && Resolve(r, b) == None;
  }

  lemma {:induction false} NoPorts(services: seq<Service>)
    requires forall x :: x in services ==> x.ports == []
    ensures PortsOf(services) == []
    decreases |services|
  {
    if services != [] {
      NoPorts(services[..|services| - 1]);
    }
  }

  lemma Assembled(r: Runtime, enabled: seq<Service>)
    requires EnabledOf(r.services) == enabled && NamesUnique(r.services)
    requires HasRole(enabled, RouterNetns) && HasRole(enabled, WgGateway) && HasRole(enabled, BirdRouter)
    requires ReferencesOk(enabled) && ServicesOk(r, enabled)
    requires forall x :: x in enabled ==> x.ports == []
    requires PortsOf(enabled) == []
    ensures RuntimeValid(r)
  {
  }

  lemma SocketStays(n: Service, g: Service, b: Service, extra: seq<Service>, s: State)
    requires s.runtime.services == [n] + ([g] + ([b] + extra))
    requires n.role.RouterNetns? && g.role.WgGateway? && b.role.BirdRouter?
    requires FirstMount(b.volumes, SOCKET_TARGET).Some? && !FirstMount(b.volumes, SOCKET_TARGET).value.readonly
    ensures ExposeSocket(s) == Some(s)
  {
    FirstCons(n, [g] + ([b] + extra), BirdRouter);
    FirstCons(g, [b] + extra, BirdRouter);
    FirstCons(b, extra, BirdRouter);
  }

  lemma NoTunnels(s: State)
    requires |s.interfaces| == 1 && !Listening(s.interfaces[0])
    ensures PublishPorts(s) == Some(s)
  {
    hide RuntimeValid;
    assert ListenPorts(s.interfaces) == {};
  }

  lemma Succeeds(s: State)
    requires RuntimeValid(s.runtime) && References(s)
    requires PublishPorts(s) == Some(s) && ExposeSocket(s) == Some(s) && DeployDns(s) == Some(s)
    ensures Validate(s) == Some(Announce(s))
  {
  }

  lemma GatewayIsPlain()
    ensures Plain(GATEWAY, WgGateway, NETNS.name)
  {
    assert GATEWAY.networkMode.value[|SERVICE_PREFIX|..] == NETNS.name;
    assert GATEWAY.volumes[0] in GATEWAY.volumes && GATEWAY.volumes[1] in GATEWAY.volumes;
  }

  lemma BirdIsPlain()
    ensures Plain(BIRD, BirdRouter, NETNS.name)
  {
    assert BIRD.networkMode.value[|SERVICE_PREFIX|..] == NETNS.name;
    assert BIRD.volumes[1] in BIRD.volumes && BIRD.volumes[2] in BIRD.volumes;
  }

  lemma CoreIsValid(extra: seq<Service>, dns: Option<DnsSpec>)
    requires extra == [] || extra == [OLD_DNS]
    ensures RuntimeValid(Node(extra, dns).runtime)
  {
    GatewayIsPlain();
    BirdIsPlain();
    NamesDiffer(extra);
    NetnsIsPlain();
    ThreeEnabled(NETNS, GATEWAY, BIRD, extra);
    ThreeAreEnough(NETNS, GATEWAY, BIRD, Node(extra, dns).runtime);
  }

  lemma NetnsIsPlain()
    ensures Plain(NETNS, RouterNetns, NETNS.name)
  {
  }

  lemma NodeReferences(extra: seq<Service>, dns: Option<DnsSpec>)
    ensures References(Node(extra, dns))
  {
    assert Node(extra, dns).interfaces[0].name == ANYCAST;
  }

  lemma NodeDns(extra: seq<Service>, dns: Option<DnsSpec>)
    requires (extra == [] && dns.None?) || (extra == [OLD_DNS] && dns.Some? && dns.value.enabled)
    ensures DeployDns(Node(extra, dns)) == Some(Node(extra, dns))
    ensures forall x :: x in Node(extra, dns).runtime.services && x.role == Dns ==> !x.enabled
    ensures HasRole(Node(extra, dns).runtime.services, Dns) <==> extra != []
  {
    var s := Node(extra, dns);
    DnsAmong(NETNS, GATEWAY, BIRD, extra);
    hide RuntimeValid, FirstWith, HasRole;
    assert DnsOn(s) <==> extra != [];
  }

  /** After three services of other roles, the last decides. */
  lemma DnsAmong(n: Service, g: Service, b: Service, extra: seq<Service>)
    requires n.role == RouterNetns && g.role == WgGateway && b.role == BirdRouter
    requires extra == [] || (|extra| == 1 && extra[0].role == Dns && !extra[0].enabled)
    ensures var services := [n] + ([g] + ([b] + extra));
      && (HasRole(services, Dns) <==> extra != [])
      && forall x :: x in services && x.role == Dns ==> !x.enabled
  {
    var services := [n] + ([g] + ([b] + extra));
    assert services[0] == n && services[1] == g && services[2] == b;
    if extra != [] {
      assert services[3] == extra[0];
    }
  }

  lemma NodeValidates(extra: seq<Service>, dns: Option<DnsSpec>)
    requires (extra == [] && dns.None?) || (extra == [OLD_DNS] && dns.Some? && dns.value.enabled)
    ensures Validate(Node(extra, dns)) == Some(Announce(Node(extra, dns)))
  {
    var s := Node(extra, dns);
    CoreIsValid(extra, dns);
    NodeReferences(extra, dns);
    NodeDns(extra, dns);
    SocketStays(NETNS, GATEWAY, BIRD, extra, s);
    NoTunnels(s);
    Succeeds(s);
  }

  lemma NamesDiffer(extra: seq<Service>)
    requires extra == [] || extra == [OLD_DNS]
    ensures NamesUnique([NETNS] + ([GATEWAY] + ([BIRD] + extra)))
  {
    assert NETNS.name[0] == 'r' && GATEWAY.name[0] == 'w' && BIRD.name[0] == 'b' && OLD_DNS.name[0] == 'd';
  }

  /** DNS is asked for, validation succeeds, and yet no CoreDNS will run. */
  lemma DisabledServiceSuppressesDns() returns (s: State, t: State)
    ensures Validate(s) == Some(t) && DnsOn(s) && AnycastOn(s)
    ensures !Runs(t.runtime.services, Dns) && Known(t.interfaces, ANYCAST)
  {
    var dns := Some(DnsSpec(true, ["172.20.0.53"], ""));
    s := Node([OLD_DNS], dns);
    NodeValidates([OLD_DNS], dns);
    NodeDns([OLD_DNS], dns);
    t := Announce(s);
    CoreDnsRunsIff(s, t);
    DnsIsAsAsked(s, t);
  }

  /** Without DNS, a session on `dns-anycast` passes once and is refused the second time. */
  lemma StrandedSessionFailsAgain() returns (s: State, t: State)
    ensures Validate(s) == Some(t) && Validate(t) == None
  {
    s := Node([], None);
    NodeValidates([], None);
    t := Announce(s);
    assert s.sessions[0] in s.sessions && BoundTo(s.sessions[0], ANYCAST);
    RevalidationIffAnchored(s, t);
  }

  lemma BareIsPlain()
    ensures Plain(BARE, BirdRouter, NETNS.name) && SPARE.role == BirdRouter && !SPARE.enabled
    ensures SocketReached(SPARE) && !SocketReached(BARE)
  {
    BirdIsPlain();
    assert BARE.volumes[0] in BARE.volumes && BARE.volumes[1] in BARE.volumes;
    assert BARE.volumes[1..][1..] == [] && BARE.volumes[0].target[1] == 'o' && BARE.volumes[1].target[1] == 'e';
    assert SOCKET_TARGET[1] == 'r';
  }

  lemma SpareNames()
    ensures NamesUnique([NETNS] + ([GATEWAY] + [SPARE, BARE]))
  {
    assert NETNS.name[0] == 'r' && GATEWAY.name[0] == 'w' && SPARE.name[0] == 's' && BARE.name[0] == 'b';
  }

  lemma SpareEnabled(n: Service, g: Service, rest: seq<Service>, b: Service)
    requires n.enabled && g.enabled && EnabledOf(rest) == [b]
    ensures EnabledOf([n] + ([g] + rest)) == [n, g, b]
  {
    hide EnabledOf;
    EnabledCons(n, [g] + rest);
    EnabledCons(g, rest);
  }

  lemma OneEnabled(off: Service, b: Service)
    requires b.enabled && !off.enabled
    ensures EnabledOf([off, b]) == [b]
  {
    hide EnabledOf;
    assert [off, b] == [off] + [b] && [b] == [b] + [];
    EnabledCons(off, [b]);
    EnabledCons(b, []);
    assert EnabledOf([]) == [] by { NoneEnabled(); }
  }

  lemma NoneEnabled()
    ensures EnabledOf([]) == []
  {
  }

  lemma SpareIsFirst(n: Service, g: Service, off: Service, b: Service)
    requires n.role.RouterNetns? && g.role.WgGateway? && off.role.BirdRouter?
    ensures FirstWith([n] + ([g] + [off, b]), BirdRouter) == Some(off)
  {
    FirstCons(n, [g] + [off, b], BirdRouter);
    FirstCons(g, [off, b], BirdRouter);
  }

  lemma SpareIsValid()
    ensures RuntimeValid(With([SPARE, BARE], None).runtime)
  {
    GatewayIsPlain();
    BareIsPlain();
    NetnsIsPlain();
    SpareNames();
    hide RuntimeValid;
    OneEnabled(SPARE, BARE);
    SpareEnabled(NETNS, GATEWAY, [SPARE, BARE], BARE);
    ThreeAreEnough(NETNS, GATEWAY, BARE, With([SPARE, BARE], None).runtime);
  }

  lemma SpareDns(s: State)
    requires s == With([SPARE, BARE], None)
    ensures DeployDns(s) == Some(s) && References(s)
  {
    BareIsPlain();
    NoDnsAmong(NETNS, GATEWAY, SPARE, BARE);
    NodeReferences([], None);
    hide RuntimeValid, FirstWith, HasRole, Plain;
    assert References(s) by { SameReferences(Node([], None), s); }
  }

  lemma SameReferences(s: State, t: State)
    requires References(s) && t == s.(runtime := t.runtime)
    ensures References(t)
  {
  }

  lemma NoDnsAmong(n: Service, g: Service, x: Service, y: Service)
    requires n.role == RouterNetns && g.role == WgGateway && x.role == BirdRouter && y.role == BirdRouter
    ensures !HasRole([n] + ([g] + [x, y]), Dns)
  {
    var services := [n] + ([g] + [x, y]);
    assert services[0] == n && services[1] == g && services[2] == x && services[3] == y;
  }

  /** The first bird-router is switched off and keeps the socket for itself; the one that runs has
      none, and validation is content. */
  lemma DisabledRouterKeepsSocket() returns (s: State, t: State)
    ensures Validate(s) == Some(t) && SocketSettled(t.runtime.services)
    ensures BARE in t.runtime.services && BARE.enabled && BARE.role.BirdRouter? && !SocketReached(BARE)
  {
    hide *;
    s := With([SPARE, BARE], None);
    BareIsPlain();
    SpareValidates(s);
    t := Announce(s);
    SpareServices(s, t);
  }

  lemma SpareServices(s: State, t: State)
    requires s == With([SPARE, BARE], None) && t == Announce(s)
    ensures t.runtime == s.runtime && BARE in t.runtime.services && BARE.enabled && BARE.role.BirdRouter?
  {
    assert s.runtime.services[3] == BARE;
  }

  lemma SpareValidates(s: State)
    requires s == With([SPARE, BARE], None)
    ensures Validate(s) == Some(Announce(s)) && SocketSettled(Announce(s).runtime.services)
  {
    hide RuntimeValid, References, DeployDns, PublishPorts, ExposeSocket, FirstWith, FirstMount, Plain, SocketSettled;
    SpareIsValid();
    BareIsPlain();
    SpareDns(s);
    NoTunnels(s);
    SpareSocket(s, SPARE);
    Succeeds(s);
  }

  lemma SpareSocket(s: State, off: Service)
    requires s.runtime.services == [NETNS] + ([GATEWAY] + [off, BARE]) && off.role.BirdRouter? && SocketReached(off)
    ensures ExposeSocket(s) == Some(s) && SocketSettled(s.runtime.services)
  {
    SpareIsFirst(NETNS, GATEWAY, off, BARE);
  }

  // ----- the validation as it runs, replacing fields in place -----

  class Document {
    const given: State
    var runtime: Runtime
    var bird: Bird
    var interfaces: seq<Interface>

    constructor (s: State)
      ensures given == s && Value() == s
    {
      given, runtime, bird, interfaces := s, s.runtime, s.bird, s.interfaces;
    }

    function Value(): State
      reads this
    {
      given.(runtime := runtime, bird := bird, interfaces := interfaces)
    }

    method PublishWireguardPorts() returns (ok: bool)
      modifies this`runtime
      ensures ok <==> PublishPorts(old(Value())).Some?
      ensures ok ==> Value() == PublishPorts(old(Value())).value
    {
      var duplicate, ports := CollectListenPorts(interfaces);
      if duplicate {
        return false;
      }
      if ports == {} || runtime.portRange.None? {
        return true;
      }
      var range := runtime.portRange.value;
      if exists p :: p in ports && !InRange(range, p) {
        return false;
      }
      var services, changed := PublishOn(runtime.services, ManagedPort(range));
      if !changed {
        return true;
      }
      ok := Replace(services);
    }

    /** A fresh runtime with these services, if it validates. */
    method Replace(services: seq<Service>) returns (ok: bool)
      modifies this`runtime
      ensures ok <==> WithServices(old(Value()), services).Some?
      ensures ok ==> Value() == WithServices(old(Value()), services).value
    {
      var updated := runtime.(services := services);
      ok := ValidateServices(updated);
      if ok {
        runtime := updated;
      }
    }

    method ExposeControlSocket() returns (ok: bool)
      modifies this`runtime
      ensures ok <==> ExposeSocket(old(Value())).Some?
      ensures ok ==> Value() == ExposeSocket(old(Value())).value
    {
      var router := FirstWith(runtime.services, BirdRouter);
      if router.None? {
        return true;
      }
      var existing := FirstMount(router.value.volumes, SOCKET_TARGET);
      if existing.Some? {
        return !existing.value.readonly;
      }
      ok := Replace(MountAll(runtime.services, router.value.name));
    }

    method DeployCoreDns() returns (ok: bool)
      modifies this`runtime
      ensures ok <==> DeployDns(old(Value())).Some?
      ensures ok ==> Value() == DeployDns(old(Value())).value
    {
      var services := runtime.services;
      var present := HasRole(services, Dns);
      if given.dns.None? || !given.dns.value.enabled {
        if !present {
          return true;
        }
        ok := Replace(WithoutDns(services));
        return;
      }
      if present {
        return true;
      }
      var netns := FirstWith(services, RouterNetns);
      if netns.None? {
        return true;
      }
      ok := Replace(services + [CoreDns(netns.value, FirstWith(services, WgGateway))]);
    }

    method AnnounceAnycast()
      modifies this`interfaces, this`bird
      ensures Value() == Announce(old(Value()))
    {
      var kept := WithoutAnycast(interfaces);
      var dummies := bird.dummies - {ANYCAST};
      if given.dns.Some? && given.dns.value.enabled && given.dns.value.bind != [] {
        kept := kept + [AnycastInterface(given.dns.value)];
        dummies := dummies[ANYCAST := DummyEntry(ANYCAST, true)];
      }
      if kept != interfaces {
        interfaces := kept;
      }
      if dummies != bird.dummies {
        bird := bird.(dummies := dummies);
      }
    }

    /** `validate_references`, after the nested runtime has been validated. */
    method ValidateReferences() returns (ok: bool)
      modifies this
      ensures ok <==> Validate(old(Value())).Some?
      ensures ok ==> Value() == Validate(old(Value())).value
    {
      hide RuntimeValid, References, PublishPorts, ExposeSocket, DeployDns, Announce;
      ok := ValidateServices(runtime);
      if !ok || !References(Value()) {
        return false;
      }
      ok := PublishWireguardPorts();
      if ok {
        ok := ExposeControlSocket();
      }
      if ok {
        ok := DeployCoreDns();
      }
      if ok {
        AnnounceAnycast();
      }
    }
  }

  /** The port dictionary of the first pass: the ports listened on, and whether any is taken twice. */
  method CollectListenPorts(interfaces: seq<Interface>) returns (duplicate: bool, ports: set<nat>)
    ensures duplicate <==> ListenTwice(interfaces)
    ensures ports == ListenPorts(interfaces)
  {
    var byPort: map<nat, string> := map[];
    duplicate := false;
    for i := 0 to |interfaces|
      invariant byPort.Keys == ListenPorts(interfaces[..i])
      invariant duplicate <==> ListenTwice(interfaces[..i])
    {
      ListenNext(interfaces, i);
      if Listening(interfaces[i]) {
        var port := interfaces[i].listenPort.value;
        if port in byPort {
          duplicate := true;
        } else {
          byPort := byPort[port := interfaces[i].name];
        }
      }
    }
    assert interfaces[..|interfaces|] == interfaces;
    ports := byPort.Keys;
  }

  lemma ListenNext(interfaces: seq<Interface>, i: nat)
    requires i < |interfaces|
    ensures var x := interfaces[i];
      && ListenPorts(interfaces[..i + 1]) == ListenPorts(interfaces[..i]) + (if Listening(x) then {x.listenPort.value} else {})
      && (ListenTwice(interfaces[..i + 1]) <==>
            ListenTwice(interfaces[..i]) || (Listening(x) && x.listenPort.value in ListenPorts(interfaces[..i])))
  {
    assert interfaces[..i + 1] == interfaces[..i] + [interfaces[i]];
    TwiceNext(interfaces[..i], interfaces[i]);
  }

  lemma TwiceNext(before: seq<Interface>, x: Interface)
    ensures ListenTwice(before + [x]) <==>
      ListenTwice(before) || (Listening(x) && x.listenPort.value in ListenPorts(before))
  {
    var n, after := |before|, before + [x];
    if Listening(x) && x.listenPort.value in ListenPorts(before) {
      var y :| y in before && Listening(y) && y.listenPort.value == x.listenPort.value;
      var k :| 0 <= k < n && before[k] == y;
      assert after[k] == y && after[n] == x;
    }
    if ListenTwice(before) {
      var j, k :| 0 <= j < k < n && Listening(before[j]) && Listening(before[k]) && before[j].listenPort == before[k].listenPort;
      assert after[j] == before[j] && after[k] == before[k];
    }
    if ListenTwice(after) {
      var j, k :| 0 <= j < k < n + 1 && Listening(after[j]) && Listening(after[k]) && after[j].listenPort == after[k].listenPort;
      assert after[j] == before[j] && before[j] in before;
      if k < n {
        assert after[k] == before[k];
      }
    }
  }

  predicate Lacks(x: Service, port: Port) {
    x.role.RouterNetns? && port !in x.ports
  }

  ghost predicate SomeLacks(services: seq<Service>, port: Port, upTo: nat)
    requires upTo <= |services|
  {
    exists k :: 0 <= k < upTo && Lacks(services[k], port)
  }

  lemma PublishIs(x: Service, port: Port)
    ensures Publish(x, port) == if Lacks(x, port) then x.(ports := SortPorts(x.ports + [port])) else x
    ensures Publish(x, port) != x <==> Lacks(x, port)
  {
  }

  lemma PublishingChanges(services: seq<Service>, port: Port)
    ensures PublishAll(services, port) != services <==> SomeLacks(services, port, |services|)
  {
    var updated := PublishAll(services, port);
    forall i | 0 <= i < |services| ensures updated[i] != services[i] <==> Lacks(services[i], port) {
      PublishIs(services[i], port);
    }
    if !SomeLacks(services, port, |services|) {
      assert updated == services;
    }
  }

  method PublishOne(x: Service, port: Port) returns (y: Service, changed: bool)
    ensures y == Publish(x, port) && (changed <==> Lacks(x, port))
  {
    PublishIs(x, port);
    changed := x.role.RouterNetns? && port !in x.ports;
    y := if changed then x.(ports := SortPorts(x.ports + [port])) else x;
  }

  /** The service loop of the first pass. */
  method PublishOn(services: seq<Service>, port: Port) returns (updated: seq<Service>, changed: bool)
    ensures updated == PublishAll(services, port)
    ensures changed <==> updated != services
  {
    hide Publish, PublishAll, Lacks;
    updated, changed := [], false;
    for i := 0 to |services|
      invariant |updated| == i && forall k :: 0 <= k < i ==> updated[k] == PublishAll(services, port)[k]
      invariant changed <==> SomeLacks(services, port, i)
    {
      var y, c := PublishOne(services[i], port);
      updated := updated + [y];
      changed := changed || c;
    }
    PublishingChanges(services, port);
  }
}
