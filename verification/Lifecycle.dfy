// Whole runs of the server: handshakes in progress, registered clients, read loops, the clock and the
// periodic cleanup, interleaved in any order. One action is one uninterrupted piece of the source;
// a cleanup pass is one action at one clock value.
module Lifecycle {
  import opened Wrappers
  import opened Sequences
  import opened Protocol
  import opened PortAllocation
  import opened ServerModel
  import ControlServer

  // A connection between its port lease (or its take-over of a client) and its registration.
  datatype Handshake = Handshake(cid: ClientId, endpoints: seq<Endpoint>, isNew: bool, helloSent: bool)

  datatype Hello = Hello(cid: ClientId, endpoints: seq<Endpoint>)

  datatype Server = Server(
    store: StoreState,
    config: ControlServer.Config,
    now: int,
    pending: map<nat, Handshake>,
    abandoned: set<u16>,              // ports of handshakes whose hello could not be sent
    loops: map<nat, ClientId>,        // read loops still running, by the client object's token
    nextToken: nat,
    // history, never read by an action
    hellos: seq<Hello>,               // every Success hello, in the order of sending
    leases: map<ClientId, seq<Endpoint>>,  // the endpoints first allocated for each client id
    listeners: map<ClientId, nat>)    // the token held by the listeners spawned for each client id
  {
    predicate Registered(c: ClientId) { c in store.clients }

    ghost predicate InHandshake(c: ClientId) {
      exists h :: h in pending && pending[h].cid == c
    }

    predicate InRange(p: int) { store.lo <= p < store.hi }

    ghost predicate Active(c: ClientId) { Registered(c) || InHandshake(c) }
  }

  ghost predicate InitialServer(s: Server) {
    && s.store == StoreState(map[], map[], map[], map[], PortRange(s.store.lo, s.store.hi), s.store.lo, s.store.hi, {})
    && s.pending == map[] && s.abandoned == {} && s.loops == map[] && s.nextToken == 0
    && s.hellos == [] && s.leases == map[] && s.listeners == map[]
  }

  datatype Action =
    | Lease(h: nat, cid: ClientId, claims: seq<EndpointClaim>, eps: seq<Endpoint>, firstId: nat)
    | SendHello(h: nat, ok: bool)
    | Register(h: nat)
    | Take(h: nat, cid: ClientId)
    | LoopExit(token: nat)
    | ToClient(cid: ClientId, packet: Packet, sink: SinkOutcome)
    | StreamOp(streams: map<StreamId, StreamView>, addrs: map<Addr, StreamId>)
    | Tick(d: nat)
    | Collect

  ghost predicate Enabled(s: Server, a: Action) {
    match a
    case Lease(h, cid, claims, eps, firstId) =>
      // Uuid::new_v4 gives ids never used before.
      && h !in s.pending && cid !in s.leases && (forall e | e in s.store.endpoints :: e < firstId)
      && Grantable(claims, |s.store.available|)
      && IsGrant(claims, eps, s.store.available, s.store.available - RemotePorts(eps), firstId)
    case SendHello(h, _) => h in s.pending && !s.pending[h].helloSent
    case Register(h) => h in s.pending && s.pending[h].helloSent
    case Take(h, cid) => h !in s.pending && cid in s.store.clients
    case LoopExit(token) => token in s.loops
    case ToClient(_, _, _) => true
    case StreamOp(_, _) => true
    case Tick(_) => true
    case Collect => true
  }

  ghost function Apply(s: Server, a: Action): Server
    requires Enabled(s, a)
  {
    match a
    case Lease(h, cid, claims, eps, firstId) =>
      s.(store := s.store.RegisterEndpoints(eps),
         pending := s.pending[h := Handshake(cid, eps, true, false)],
         leases := s.leases[cid := eps])
    case SendHello(h, ok) =>
      var hs := s.pending[h];
      var s' := s.(hellos := s.hellos + [Hello(hs.cid, hs.endpoints)]);
      if ok then s'.(pending := s.pending[h := hs.(helloSent := true)])
      else s'.(pending := s.pending - {h}, abandoned := s.abandoned + RemotePorts(hs.endpoints))
    case Register(h) =>
      var hs := s.pending[h];
      s.(store := s.store.AddClient(ControlServer.NewClientView(hs.cid, hs.endpoints, s.nextToken, s.config)),
         pending := s.pending - {h},
         loops := s.loops[s.nextToken := hs.cid],
         nextToken := s.nextToken + 1,
         listeners := if hs.isNew then s.listeners[hs.cid := s.nextToken] else s.listeners)
    case Take(h, cid) =>
      var client := s.store.clients[cid];
      s.(store := s.store.RemoveClient(cid).DropClient(client, s.now),
         pending := s.pending[h := Handshake(cid, client.endpoints, false, false)])
    case LoopExit(token) =>
      // The loop only knows its client id: it marks whatever client is registered under it by now.
      s.(store := s.store.SetWaitReconnect(s.loops[token], s.now), loops := s.loops - {token})
    case ToClient(cid, packet, sink) =>
      s.(store := s.store.SendToClient(cid, packet, sink, s.now).0)
    case StreamOp(streams, addrs) =>
      s.(store := s.store.(streams := streams, addrs := addrs))
    case Tick(d) => s.(now := s.now + d)
    case Collect => s.(store := s.store.Cleanup(s.now))
  }

  ghost predicate Next(s: Server, s': Server) {
    exists a :: Enabled(s, a) && s' == Apply(s, a)
  }

  ghost predicate IsRun(tr: seq<Server>) {
    && tr != [] && InitialServer(tr[0])
    && forall i :: 0 <= i < |tr| - 1 ==> Next(tr[i], tr[i + 1])
  }

  // ---------- who owns a port ----------

  datatype Owner = Available | OfClient(cid: ClientId) | OfHandshake(cid: ClientId) | Abandoned

  ghost predicate Owns(s: Server, o: Owner, p: u16) {
    match o
    case Available => p in s.store.available
    case OfClient(c) => s.Registered(c) && p in RemotePorts(s.store.clients[c].endpoints)
    case OfHandshake(c) => exists h ::
        h in s.pending && s.pending[h].cid == c && p in RemotePorts(s.pending[h].endpoints)
    case Abandoned => p in s.abandoned
  }

  // The port range is the disjoint union of what the owners hold.
  ghost predicate Partitioned(s: Server) {
    && (forall p: u16 :: s.InRange(p) ==> exists o :: Owns(s, o, p))
    && (forall o, p: u16 :: Owns(s, o, p) ==> s.InRange(p))
    && (forall o, o', p: u16 :: Owns(s, o, p) && Owns(s, o', p) ==> o == o')
  }

  // ---------- the invariant ----------

  // Registered and pending clients are the active ones; each carries the lease made for it.
  ghost predicate Bookkeeping(s: Server) {
    && (forall c | c in s.store.clients ::
          && s.store.clients[c].clientId == c && c in s.leases && s.store.clients[c].endpoints == s.leases[c]
          && s.store.clients[c].token < s.nextToken)
    && (forall h | h in s.pending ::
          && s.pending[h].cid !in s.store.clients && s.pending[h].cid in s.leases
          && s.pending[h].endpoints == s.leases[s.pending[h].cid])
    && (forall h, k | h in s.pending && k in s.pending && h != k :: s.pending[h].cid != s.pending[k].cid)
  }

  ghost predicate LeasesResolve(s: Server) {
    forall c, e | c in s.leases && e in s.leases[c] :: e.id in s.store.endpoints && s.store.endpoints[e.id] == e
  }

  ghost predicate HellosMatch(s: Server) {
    forall i | 0 <= i < |s.hellos| :: s.hellos[i].cid in s.leases && s.hellos[i].endpoints == s.leases[s.hellos[i].cid]
  }

  // Holder of a port, counting a client once whether it is registered or in a handshake.
  datatype Holder = Free | Lessee(cid: ClientId) | Nobody

  ghost predicate Holds(s: Server, o: Holder, p: u16) {
    match o
    case Free => p in s.store.available
    case Lessee(c) => s.Active(c) && c in s.leases && p in RemotePorts(s.leases[c])
    case Nobody => p in s.abandoned
  }

  ghost predicate HeldOnce(s: Server) {
    && (forall p: u16 :: s.InRange(p) ==> exists o :: Holds(s, o, p))
    && (forall o, p: u16 :: Holds(s, o, p) ==> s.InRange(p))
    && (forall o, o', p: u16 :: Holds(s, o, p) && Holds(s, o', p) ==> o == o')
  }

  ghost predicate Inv(s: Server) {
    Bookkeeping(s) && LeasesResolve(s) && HellosMatch(s) && HeldOnce(s)
  }

  // ---------- the invariant holds in every reachable state ----------

  // A step that hands `ports` over to one holder and touches no other port keeps the partition.
  lemma {:induction false} HeldMoved(s: Server, s': Server, ports: set<u16>, to: Holder)
    requires HeldOnce(s) && s'.store.lo == s.store.lo && s'.store.hi == s.store.hi
    requires forall p | p in ports :: s.InRange(p)
    requires forall o, p: u16 :: Holds(s', o, p) <==> if p in ports then o == to else Holds(s, o, p)
    ensures HeldOnce(s')
  {
    forall p: u16 | s'.InRange(p) ensures exists o :: Holds(s', o, p) {
      assert s.InRange(p);
      var o :| Holds(s, o, p);
      assert Holds(s', if p in ports then to else o, p);
    }
  }

  lemma {:induction false} HeldSame(s: Server, s': Server)
    requires HeldOnce(s)
    requires s'.store.available == s.store.available && s'.store.lo == s.store.lo && s'.store.hi == s.store.hi
    requires s'.abandoned == s.abandoned && s'.leases == s.leases
    requires forall c :: s'.Active(c) <==> s.Active(c)
    ensures HeldOnce(s')
  {
    HeldMoved(s, s', {}, Free);
  }

  lemma {:induction false} LeaseHeld(s: Server, h: nat, cid: ClientId, claims: seq<EndpointClaim>, eps: seq<Endpoint>,
      firstId: nat)
    requires Inv(s) && Enabled(s, Lease(h, cid, claims, eps, firstId))
    ensures HeldOnce(Apply(s, Lease(h, cid, claims, eps, firstId)))
  {
    var s' := Apply(s, Lease(h, cid, claims, eps, firstId));
    var ports := RemotePorts(eps);
    ActiveAfterLease(s, s', h, cid);
    forall p | p in ports ensures s.InRange(p) && Holds(s, Free, p) {
      assert Holds(s, Free, p);
    }
    forall o, p: u16 ensures Holds(s', o, p) <==> if p in ports then o == Lessee(cid) else Holds(s, o, p) {
      if o != Lessee(cid) && o != Free {
        assert Holds(s', o, p) <==> Holds(s, o, p);
      }
    }
    HeldMoved(s, s', ports, Lessee(cid));
  }

  lemma {:induction false} ActiveAfterLease(s: Server, s': Server, h: nat, cid: ClientId)
    requires Bookkeeping(s) && h !in s.pending && cid !in s.leases && s'.store.clients == s.store.clients
    requires h in s'.pending && s'.pending[h].cid == cid && s'.pending == s.pending[h := s'.pending[h]]
    ensures !s.Active(cid) && forall c :: s'.Active(c) <==> s.Active(c) || c == cid
  {
    forall c ensures s'.Active(c) <==> s.Active(c) || c == cid {
      if s.InHandshake(c) {
        var k :| k in s.pending && s.pending[k].cid == c;
        assert k in s'.pending && s'.pending[k].cid == c;
      }
    }
  }

  lemma {:induction false} HelloLostHeld(s: Server, h: nat)
    requires Inv(s) && Enabled(s, SendHello(h, false))
    ensures HeldOnce(Apply(s, SendHello(h, false)))
  {
    var s' := Apply(s, SendHello(h, false));
    var cid := s.pending[h].cid;
    var ports := RemotePorts(s.leases[cid]);
    ActiveWithout(s, s', h);
    assert s.InHandshake(cid);
    forall p | p in ports ensures s.InRange(p) && Holds(s, Lessee(cid), p) {
      assert Holds(s, Lessee(cid), p);
    }
    forall o, p: u16 ensures Holds(s', o, p) <==> if p in ports then o == Nobody else Holds(s, o, p) {
      if o != Lessee(cid) && o != Nobody {
        assert Holds(s', o, p) <==> Holds(s, o, p);
      }
    }
    HeldMoved(s, s', ports, Nobody);
  }

  lemma {:induction false} ActiveWithout(s: Server, s': Server, h: nat)
    requires Bookkeeping(s) && h in s.pending && s'.pending == s.pending - {h} && s'.store.clients == s.store.clients
    ensures forall c :: s'.Active(c) <==> s.Active(c) && c != s.pending[h].cid
  {
    forall c ensures s'.Active(c) <==> s.Active(c) && c != s.pending[h].cid {
      if s.InHandshake(c) && c != s.pending[h].cid {
        var k :| k in s.pending && s.pending[k].cid == c;
        assert k in s'.pending && s'.pending[k].cid == c;
      }
    }
  }

  ghost function ExpiredPorts(s: Server): set<u16>
    requires Bookkeeping(s)
  {
    set c, p | c in s.store.ExpiredClients(s.now) && p in RemotePorts(s.leases[c]) :: p
  }

  // A cleanup pass makes available exactly what was available and the remote ports of the expired clients.
  lemma {:induction false} CollectReleases(s: Server)
    requires Inv(s)
    ensures s.store.Cleanup(s.now).available == s.store.available + ExpiredPorts(s)
    ensures forall p | p in ExpiredPorts(s) :: s.InRange(p) && p !in s.store.available
  {
    var gone := s.store.ExpiredClients(s.now);
    var eids := s.store.EndpointIdsOf(gone);
    forall p | p in ExpiredPorts(s)
        ensures s.InRange(p) && p !in s.store.available && p in s.store.ReleasedPorts(eids) {
      var c :| c in gone && p in RemotePorts(s.leases[c]);
      RemotePortsMember(s.leases[c], p);
      var e :| e in s.leases[c] && e.remotePort == p;
      assert Holds(s, Lessee(c), p) && !Holds(s, Free, p) && s.InRange(p);
      assert e in s.store.clients[c].endpoints && e.id in eids;
    }
    forall p | p in s.store.ReleasedPorts(eids) ensures p in ExpiredPorts(s) {
      var id :| id in eids && id in s.store.endpoints && s.store.endpoints[id].remotePort == p;
      var c, e :| c in gone && e in s.store.clients[c].endpoints && e.id == id;
      assert e in s.leases[c];
      RemotePortsMember(s.leases[c], p);
    }
    assert s.store.ReleasedPorts(eids) == ExpiredPorts(s);
  }

  // No port of a surviving client is touched.
  lemma {:induction false} CollectSparesSurvivors(s: Server, c: ClientId)
    requires Inv(s) && c in s.store.clients && c !in s.store.ExpiredClients(s.now)
    ensures c in s.store.Cleanup(s.now).clients && s.store.Cleanup(s.now).clients[c] == s.store.clients[c]
    ensures RemotePorts(s.store.clients[c].endpoints) !! s.store.Cleanup(s.now).available
  {
    CollectReleases(s);
    forall p | p in RemotePorts(s.store.clients[c].endpoints) ensures p !in s.store.available && p !in ExpiredPorts(s) {
      assert Holds(s, Lessee(c), p) && !Holds(s, Free, p);
      if d :| d in s.store.ExpiredClients(s.now) && p in RemotePorts(s.leases[d]) {
        assert Holds(s, Lessee(d), p);
      }
    }
  }

  lemma {:induction false} CollectHeld(s: Server)
    requires Inv(s)
    ensures HeldOnce(Apply(s, Collect))
  {
    var s' := Apply(s, Collect);
    var gone, ports := s.store.ExpiredClients(s.now), ExpiredPorts(s);
    CollectReleases(s);
    forall c ensures s'.Active(c) <==> s.Active(c) && c !in gone {}
    forall o, p: u16 ensures Holds(s', o, p) <==> if p in ports then o == Free else Holds(s, o, p) {
      if p in ports {
        var c :| c in gone && p in RemotePorts(s.leases[c]);
        assert Holds(s, Lessee(c), p);
        assert o != Free && Holds(s', o, p) ==> Holds(s, o, p);
      } else if o.Lessee? && o.cid in gone {
        assert p !in RemotePorts(s.leases[o.cid]);
      }
    }
    HeldMoved(s, s', ports, Free);
  }

  lemma {:induction false} LeaseBookkeeping(s: Server, h: nat, cid: ClientId, claims: seq<EndpointClaim>,
      eps: seq<Endpoint>, firstId: nat)
    requires Inv(s) && Enabled(s, Lease(h, cid, claims, eps, firstId))
    ensures Bookkeeping(Apply(s, Lease(h, cid, claims, eps, firstId)))
  {
  }

  lemma {:induction false} HelloBookkeeping(s: Server, h: nat, ok: bool)
    requires Inv(s) && Enabled(s, SendHello(h, ok))
    ensures Bookkeeping(Apply(s, SendHello(h, ok)))
  {
  }

  lemma {:induction false} RegisterBookkeeping(s: Server, h: nat)
    requires Inv(s) && Enabled(s, Register(h))
    ensures Bookkeeping(Apply(s, Register(h)))
  {
  }

  lemma {:induction false} TakeBookkeeping(s: Server, h: nat, cid: ClientId)
    requires Inv(s) && Enabled(s, Take(h, cid))
    ensures Bookkeeping(Apply(s, Take(h, cid)))
  {
  }

  lemma {:induction false} BookkeepingStep(s: Server, a: Action)
    requires Inv(s) && Enabled(s, a)
    ensures Bookkeeping(Apply(s, a))
  {
    match a
    case Lease(h, cid, claims, eps, firstId) => LeaseBookkeeping(s, h, cid, claims, eps, firstId);
    case SendHello(h, ok) => HelloBookkeeping(s, h, ok);
    case Register(h) => RegisterBookkeeping(s, h);
    case Take(h, cid) => TakeBookkeeping(s, h, cid);
    case ToClient(cid, packet, sink) => ClientsAfterSend(s, cid, packet, sink);
    case _ =>
  }

  lemma {:induction false} ClientsAfterSend(s: Server, cid: ClientId, packet: Packet, sink: SinkOutcome)
    ensures var s' := Apply(s, ToClient(cid, packet, sink));
            && s'.store.clients.Keys == s.store.clients.Keys
            && s' == s.(store := s.store.(clients := s'.store.clients))
            && forall c | c in s.store.clients :: s'.store.clients[c] ==
                 s.store.clients[c].(state := s'.store.clients[c].state, wsTx := s'.store.clients[c].wsTx)
  {
  }

  lemma {:induction false} LeasesStep(s: Server, a: Action)
    requires Inv(s) && Enabled(s, a)
    ensures LeasesResolve(Apply(s, a)) && HellosMatch(Apply(s, a))
  {
    match a
    case Lease(h, cid, claims, eps, firstId) => NewLeaseResolves(s, h, cid, claims, eps, firstId);
    case ToClient(cid, packet, sink) => ClientsAfterSend(s, cid, packet, sink);
    case _ =>
  }

  lemma {:induction false} NewLeaseResolves(s: Server, h: nat, cid: ClientId, claims: seq<EndpointClaim>,
      eps: seq<Endpoint>, firstId: nat)
    requires Inv(s) && Enabled(s, Lease(h, cid, claims, eps, firstId))
    ensures var s' := Apply(s, Lease(h, cid, claims, eps, firstId)); LeasesResolve(s') && HellosMatch(s')
  {
    var s' := Apply(s, Lease(h, cid, claims, eps, firstId));
    forall c, e | c in s'.leases && e in s'.leases[c]
      ensures e.id in s'.store.endpoints && s'.store.endpoints[e.id] == e
    {
      WithEndpointsAt(s.store.endpoints, eps, firstId, e.id);
      if c == cid {
        var i :| 0 <= i < |eps| && eps[i] == e;
      }
    }
  }

  lemma {:induction false} WithEndpointsAt(m: map<EndpointId, Endpoint>, eps: seq<Endpoint>, firstId: nat,
      id: EndpointId)
    requires NumberedFrom(eps, firstId) && forall e | e in m :: e < firstId
    ensures var m' := WithEndpoints(m, eps);
            && (firstId <= id < firstId + |eps| ==> id in m' && m'[id] == eps[id - firstId])
            && (!(firstId <= id < firstId + |eps|) ==> (id in m' <==> id in m) && (id in m ==> m'[id] == m[id]))
  {
    if eps == [] {
    } else {
      WithEndpointsAt(m, Front(eps), firstId, id);
    }
  }

  lemma {:induction false} ActiveAfterRegister(s: Server, h: nat)
    requires Bookkeeping(s) && Enabled(s, Register(h))
    ensures forall c :: Apply(s, Register(h)).Active(c) <==> s.Active(c)
  {
    var s' := Apply(s, Register(h));
    assert s.InHandshake(s.pending[h].cid);
    forall c ensures s'.Active(c) <==> s.Active(c) {
      if s.InHandshake(c) && c != s.pending[h].cid {
        var k :| k in s.pending && s.pending[k].cid == c;
        assert k in s'.pending && s'.pending[k].cid == c;
      }
    }
  }

  lemma {:induction false} ActiveAfterTake(s: Server, h: nat, cid: ClientId)
    requires Bookkeeping(s) && Enabled(s, Take(h, cid))
    ensures forall c :: Apply(s, Take(h, cid)).Active(c) <==> s.Active(c)
  {
    var s' := Apply(s, Take(h, cid));
    assert h in s'.pending && s'.pending[h].cid == cid;
    forall c ensures s'.Active(c) <==> s.Active(c) {
      if s.InHandshake(c) {
        var k :| k in s.pending && s.pending[k].cid == c;
        assert k in s'.pending && s'.pending[k].cid == c;
      }
    }
  }

  lemma {:induction false} ActiveAfterHello(s: Server, h: nat)
    requires Bookkeeping(s) && Enabled(s, SendHello(h, true))
    ensures forall c :: Apply(s, SendHello(h, true)).Active(c) <==> s.Active(c)
  {
    var s' := Apply(s, SendHello(h, true));
    forall c ensures s'.Active(c) <==> s.Active(c) {
      if s.InHandshake(c) {
        var k :| k in s.pending && s.pending[k].cid == c;
        assert k in s'.pending && s'.pending[k].cid == c;
      }
    }
  }

  lemma {:induction false} HeldStep(s: Server, a: Action)
    requires Inv(s) && Enabled(s, a)
    ensures HeldOnce(Apply(s, a))
  {
    match a
    case Lease(h, cid, claims, eps, firstId) => LeaseHeld(s, h, cid, claims, eps, firstId);
    case SendHello(h, ok) =>
      if ok {
        ActiveAfterHello(s, h);
        HeldSame(s, Apply(s, a));
      } else {
        HelloLostHeld(s, h);
      }
    case Register(h) =>
      ActiveAfterRegister(s, h);
      HeldSame(s, Apply(s, a));
    case Take(h, cid) =>
      ActiveAfterTake(s, h, cid);
      HeldSame(s, Apply(s, a));
    case ToClient(cid, packet, sink) =>
      ClientsAfterSend(s, cid, packet, sink);
      HeldSame(s, Apply(s, a));
    case Collect => CollectHeld(s);
    case _ => HeldSame(s, Apply(s, a));
  }

  lemma {:induction false} InitialInv(s: Server)
    requires InitialServer(s)
    ensures Inv(s)
  {
    forall p: u16 | s.InRange(p) ensures exists o :: Holds(s, o, p) {
      assert Holds(s, Free, p);
    }
  }

  lemma {:induction false} InvAt(tr: seq<Server>, i: nat)
    requires IsRun(tr) && i < |tr|
    ensures Inv(tr[i])
  {
    if i == 0 {
      InitialInv(tr[0]);
    } else {
      InvAt(tr, i - 1);
      assert Next(tr[i - 1], tr[i]);
      var a :| Enabled(tr[i - 1], a) && tr[i] == Apply(tr[i - 1], a);
      BookkeepingStep(tr[i - 1], a);
      LeasesStep(tr[i - 1], a);
      HeldStep(tr[i - 1], a);
    }
  }

  // In every reachable state the port range is the disjoint union of the available ports, the ports of
  // each registered client, the ports of each handshake in progress, and the abandoned ports.
  lemma {:induction false} PortsPartitioned(tr: seq<Server>, i: nat)
    requires IsRun(tr) && i < |tr|
    ensures Partitioned(tr[i])
  {
    InvAt(tr, i);
    var s := tr[i];
    forall o, p: u16 | Owns(s, o, p) ensures Holds(s, HolderOf(o), p) && s.InRange(p) {
      OwnerHolds(s, o, p);
    }
    forall p: u16 | s.InRange(p) ensures exists o :: Owns(s, o, p) {
      var o :| Holds(s, o, p);
      var o' := HolderOwns(s, o, p);
    }
    forall o, o', p: u16 | Owns(s, o, p) && Owns(s, o', p) ensures o == o' {
      assert Holds(s, HolderOf(o), p) && Holds(s, HolderOf(o'), p);
    }
  }

  lemma {:induction false} NoTwoClientsShareAPort(tr: seq<Server>, i: nat, c: ClientId, d: ClientId)
    requires IsRun(tr) && i < |tr| && c in tr[i].store.clients && d in tr[i].store.clients && c != d
    ensures RemotePorts(tr[i].store.clients[c].endpoints) !! RemotePorts(tr[i].store.clients[d].endpoints)
  {
    hide IsRun;
    PortsPartitioned(tr, i);
    forall p | p in RemotePorts(tr[i].store.clients[c].endpoints)
        ensures p !in RemotePorts(tr[i].store.clients[d].endpoints) {
      assert Owns(tr[i], OfClient(c), p)
          && (Owns(tr[i], OfClient(d), p) <==> p in RemotePorts(tr[i].store.clients[d].endpoints));
    }
  }

  ghost function HolderOf(o: Owner): Holder {
    match o
    case Available => Free
    case OfClient(c) => Lessee(c)
    case OfHandshake(c) => Lessee(c)
    case Abandoned => Nobody
  }

  lemma {:induction false} OwnerHolds(s: Server, o: Owner, p: u16)
    requires Inv(s) && Owns(s, o, p)
    ensures Holds(s, HolderOf(o), p) && s.InRange(p)
  {
    assert Holds(s, HolderOf(o), p);
  }

  lemma {:induction false} HolderOwns(s: Server, o: Holder, p: u16) returns (o': Owner)
    requires Inv(s) && Holds(s, o, p)
    ensures Owns(s, o', p)
  {
    match o
    case Free => o' := Available;
    case Nobody => o' := Abandoned;
    case Lessee(c) =>
      if s.Registered(c) {
        o' := OfClient(c);
      } else {
        o' := OfHandshake(c);
      }
  }
}
