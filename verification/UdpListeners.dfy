// ownserver_server/src/remote/udp.rs: any number of process_udp_stream loops at work at once, each lookup, send and
// table update a step of its own. What is shown is the order of Init, Data and End packets of every UDP stream.
module UdpListeners {
  import opened Wrappers
  import opened Sequences
  import opened Protocol
  import opened ServerModel

  // Where one loop stands in its current iteration.
  datatype Pc =
    | Receiving
    | Creating(sid: StreamId, peer: Addr, data: seq<byte>)   // nothing found; Init not sent yet
    | Announced(sid: StreamId, peer: Addr, data: seq<byte>)  // Init sent; not in the tables yet
    | Forwarding(sid: StreamId, data: seq<byte>)             // about to send Data or End
    | Stopped

  datatype Listener = Listener(cid: ClientId, eid: EndpointId, pc: Pc)

  // One attempt to send a packet to a client, and whether it succeeded.
  datatype Attempt = Attempt(cid: ClientId, packet: Packet, ok: bool)

  datatype Net = Net(
    streams: map<StreamId, StreamView>,
    addrs: map<Addr, StreamId>,
    listeners: map<nat, Listener>,
    owner: map<EndpointId, ClientId>,      // the client each endpoint belongs to
    route: Option<map<Addr, EndpointId>>,  // if given: each peer address uses only this endpoint
    log: seq<Attempt>,
    udp: set<StreamId>,                    // ids made by RemoteUdp::new
    tcp: set<StreamId>)                    // ids made by RemoteTcp::new
  {
    predicate Routed(addr: Addr, eid: EndpointId) {
      route.Some? ==> addr in route.value && route.value[addr] == eid
    }
  }

  datatype Step =
    | Spawn(l: nat, cid: ClientId, eid: EndpointId)
    | Receive(l: nat, peer: Addr, data: seq<byte>, newSid: StreamId)
    | SendInit(l: nat, ok: bool)
    | Insert(l: nat)
    | Forward(l: nat, ok: bool)
    | Cancel(l: nat)
    | TcpAccept(sid: StreamId, cid: ClientId, eid: EndpointId, peer: Addr)
    | TcpSend(cid: ClientId, packet: Packet, ok: bool)
    | Tables(streams: map<StreamId, StreamView>)   // disables, cleanups, writes: entries may change or go

  // An entry that stays keeps its identity.
  ghost predicate SameStreams(now: map<StreamId, StreamView>, before: map<StreamId, StreamView>) {
    forall s | s in now ::
      && s in before && now[s].UdpView? == before[s].UdpView? && now[s].sid == before[s].sid
      && now[s].cid == before[s].cid && now[s].eid == before[s].eid && now[s].peer == before[s].peer
  }

  ghost predicate Enabled(n: Net, step: Step) {
    match step
    case Spawn(l, cid, eid) => l !in n.listeners && eid in n.owner && n.owner[eid] == cid
    case Receive(l, peer, data, newSid) =>
      l in n.listeners && n.listeners[l].pc.Receiving? && newSid !in n.udp + n.tcp && n.Routed(peer, n.listeners[l].eid)
    case SendInit(l, _) => l in n.listeners && n.listeners[l].pc.Creating?
    case Insert(l) => l in n.listeners && n.listeners[l].pc.Announced?
    case Forward(l, _) => l in n.listeners && n.listeners[l].pc.Forwarding?
    case Cancel(l) => l in n.listeners && n.listeners[l].pc.Receiving?
    case TcpAccept(sid, cid, eid, peer) =>
      sid !in n.udp + n.tcp && eid in n.owner && n.owner[eid] == cid && n.Routed(peer, eid)
    case TcpSend(_, packet, _) => (packet.Init? || packet.Data? || packet.End?) && packet.sid in n.tcp
    case Tables(streams) => SameStreams(streams, n.streams)
  }

  ghost function Apply(n: Net, step: Step): Net
    requires Enabled(n, step)
  {
    match step
    case Spawn(l, cid, eid) => n.(listeners := n.listeners[l := Listener(cid, eid, Receiving)])
    case Receive(l, peer, data, newSid) =>
      (match EnabledAt(n.streams, n.addrs, peer)
       case Some(sid) => At(n, l, Forwarding(sid, data))
       case None => At(n.(udp := n.udp + {newSid}), l, Creating(newSid, peer, data)))
    case SendInit(l, ok) =>
      var li := n.listeners[l];
      At(n.(log := n.log + [Attempt(li.cid, Init(li.pc.sid, li.eid, li.pc.peer), ok)]), l,
         if ok then Announced(li.pc.sid, li.pc.peer, li.pc.data) else Stopped)
    case Insert(l) =>
      var li := n.listeners[l];
      At(n.(streams := n.streams[li.pc.sid := UdpView(li.pc.sid, li.cid, li.eid, li.pc.peer, true, [])],
            addrs := n.addrs[li.pc.peer := li.pc.sid]),
         l, Forwarding(li.pc.sid, li.pc.data))
    case Forward(l, ok) =>
      var li := n.listeners[l];
      var packet := if li.pc.data == [] then End(li.pc.sid) else Data(li.pc.sid, li.pc.data);
      At(n.(log := n.log + [Attempt(li.cid, packet, ok)]), l, Receiving)
    case Cancel(l) => At(n, l, Stopped)
    case TcpAccept(sid, cid, eid, peer) =>
      n.(tcp := n.tcp + {sid}, streams := n.streams[sid := TcpView(sid, cid, eid, peer, true, [])],
          addrs := n.addrs[peer := sid])
    case TcpSend(cid, packet, ok) => n.(log := n.log + [Attempt(cid, packet, ok)])
    case Tables(streams) => n.(streams := streams)
  }

  ghost function At(n: Net, l: nat, pc: Pc): Net
    requires l in n.listeners
  {
    n.(listeners := n.listeners[l := n.listeners[l].(pc := pc)])
  }

  ghost predicate IsRun(tr: seq<Net>, steps: seq<Step>) {
    && |tr| == |steps| + 1
    && tr[0].streams == map[] && tr[0].addrs == map[] && tr[0].listeners == map[]
    && tr[0].log == [] && tr[0].udp == {} && tr[0].tcp == {}
    && forall i :: 0 <= i < |steps| ==> Enabled(tr[i], steps[i]) && tr[i + 1] == Apply(tr[i], steps[i])
  }

  // ---------- reading the log ----------

  // How often an Init for the stream was attempted.
  ghost function Inits(log: seq<Attempt>, sid: StreamId): nat {
    if log == [] then 0
    else Inits(Front(log), sid) + if Last(log).packet.Init? && Last(log).packet.sid == sid then 1 else 0
  }

  // The client to which an Init for the stream was sent successfully.
  ghost function Announcer(log: seq<Attempt>, sid: StreamId): Option<ClientId> {
    if log == [] then None
    else if Last(log).ok && Last(log).packet.Init? && Last(log).packet.sid == sid then Some(Last(log).cid)
    else Announcer(Front(log), sid)
  }

  // Every attempted Data or End of a UDP stream comes after exactly one attempted Init, which was sent
  // successfully; with one endpoint per peer, to the same client.
  ghost predicate InitFirst(n: Net, log: seq<Attempt>) {
    log == [] || (InitFirst(n, Front(log)) && Announces(n, Front(log), Last(log)))
  }

  ghost predicate Announces(n: Net, before: seq<Attempt>, a: Attempt) {
    (a.packet.Data? || a.packet.End?) && a.packet.sid !in n.tcp ==> WasAnnounced(n, before, a.packet.sid, a.cid)
  }

  // The stream's one Init went out; to this client if every peer is bound to one endpoint.
  ghost predicate WasAnnounced(n: Net, log: seq<Attempt>, sid: StreamId, cid: ClientId) {
    && sid in n.udp && Inits(log, sid) == 1
    && Announcer(log, sid).Some? && (n.route.Some? ==> Announcer(log, sid) == Some(cid))
  }

  // ---------- the invariant ----------

  ghost predicate Unlisted(n: Net, sid: StreamId) {
    sid !in n.streams && forall a | a in n.addrs :: n.addrs[a] != sid
  }

  ghost predicate ListenerOk(n: Net, l: nat)
    requires l in n.listeners
  {
    var li := n.listeners[l];
    && li.eid in n.owner && n.owner[li.eid] == li.cid
    && match li.pc
       case Creating(sid, peer, _) => sid in n.udp && Inits(n.log, sid) == 0 && Unlisted(n, sid)
           && n.Routed(peer, li.eid)
       case Announced(sid, peer, _) =>
         sid in n.udp && Inits(n.log, sid) == 1 && Announcer(n.log, sid) == Some(li.cid) && Unlisted(n, sid)
             && n.Routed(peer, li.eid)
       case Forwarding(sid, _) => sid in n.tcp || WasAnnounced(n, n.log, sid, li.cid)
       case _ => true
  }

  ghost predicate StreamOk(n: Net, s: StreamId)
    requires s in n.streams
  {
    var v := n.streams[s];
    && v.sid == s && v.eid in n.owner && n.owner[v.eid] == v.cid && n.Routed(v.peer, v.eid)
    && (v.UdpView? ==> s in n.udp && Inits(n.log, s) == 1 && Announcer(n.log, s) == Some(v.cid))
    && (v.TcpView? ==> s in n.tcp)
  }

  ghost predicate OwnSid(pc: Pc, sid: StreamId) {
    (pc.Creating? || pc.Announced?) && pc.sid == sid
  }

  ghost predicate ListenersOk(n: Net) {
    forall l | l in n.listeners :: ListenerOk(n, l)
  }

  // A stream id in the making belongs to one loop.
  ghost predicate MakersDistinct(n: Net) {
    forall l, m, s | l in n.listeners && m in n.listeners && OwnSid(n.listeners[l].pc, s)
        && OwnSid(n.listeners[m].pc, s) :: l == m
  }

  ghost predicate TablesOk(n: Net) {
    && (forall s | s in n.streams :: StreamOk(n, s))
    && (forall a | a in n.addrs ::
        n.addrs[a] in n.udp + n.tcp && (n.addrs[a] in n.streams ==> n.streams[n.addrs[a]].peer == a))
  }

  ghost predicate LogOk(n: Net) {
    && n.udp !! n.tcp
    && (forall s | s !in n.udp + n.tcp :: Inits(n.log, s) == 0)
    && (forall s | s in n.udp :: Inits(n.log, s) <= 1)
    && InitFirst(n, n.log)
  }

  ghost predicate Inv(n: Net) {
    ListenersOk(n) && MakersDistinct(n) && TablesOk(n) && LogOk(n)
  }

  lemma {:induction false} LogStep(log: seq<Attempt>, a: Attempt, sid: StreamId)
    ensures Inits(log + [a], sid) == Inits(log, sid) + if a.packet.Init? && a.packet.sid == sid then 1 else 0
    ensures Announcer(log + [a], sid) == if a.ok && a.packet.Init? && a.packet.sid == sid then Some(a.cid)
        else Announcer(log, sid)
  {
    Snoc(log, a);
  }

  // The verdict on an old log does not change when ids are added.
  lemma {:induction false} InitFirstStays(n: Net, n': Net, log: seq<Attempt>)
    requires InitFirst(n, log) && n.udp <= n'.udp && n.tcp <= n'.tcp && n'.route == n.route
    ensures InitFirst(n', log)
  {
    if log == [] {
    } else {
      InitFirstStays(n, n', Front(log));
    }
  }

  lemma {:induction false} SpawnOrCancelStep(n: Net, step: Step)
    requires Inv(n) && Enabled(n, step) && (step.Spawn? || step.Cancel?)
    ensures Inv(Apply(n, step))
  {
    var n' := Apply(n, step);
    InitFirstStays(n, n', n.log);
    hide InitFirst, Inits, Announcer;
    forall m | m in n'.listeners ensures ListenerOk(n', m) {
      if m in n.listeners {
        assert ListenerOk(n, m);
      }
    }
    forall l, m, s | l in n'.listeners && m in n'.listeners && OwnSid(n'.listeners[l].pc, s)
        && OwnSid(n'.listeners[m].pc, s) ensures l == m {
      assert OwnSid(n.listeners[l].pc, s) && OwnSid(n.listeners[m].pc, s);
    }
    forall s | s in n'.streams ensures StreamOk(n', s) {
      assert StreamOk(n, s);
    }
  }

  lemma {:induction false} InsertStep(n: Net, step: Step)
    requires Inv(n) && Enabled(n, step) && step.Insert?
    ensures Inv(Apply(n, step))
  {
    var n' := Apply(n, step);
    var li := n.listeners[step.l];
    InitFirstStays(n, n', n.log);
    hide InitFirst, Inits, Announcer;
    assert ListenerOk(n, step.l) && OwnSid(li.pc, li.pc.sid);
    forall m | m in n.listeners ensures ListenerOk(n', m) {
      assert ListenerOk(n, m);
      if m != step.l {
        assert !OwnSid(n.listeners[m].pc, li.pc.sid);
      }
    }
    forall s | s in n'.streams ensures StreamOk(n', s) {
      if s != li.pc.sid {
        assert StreamOk(n, s);
      }
    }
  }

  lemma {:induction false} TablesStep(n: Net, step: Step)
    requires Inv(n) && Enabled(n, step) && step.Tables?
    ensures Inv(Apply(n, step))
  {
    var n' := Apply(n, step);
    InitFirstStays(n, n', n.log);
    hide InitFirst, Inits, Announcer;
    forall s | s in n'.streams ensures StreamOk(n', s) {
      assert StreamOk(n, s);
    }
    forall m | m in n.listeners ensures ListenerOk(n', m) {
      assert ListenerOk(n, m);
    }
  }

  lemma {:induction false} ReceiveStep(n: Net, step: Step)
    requires Inv(n) && Enabled(n, step) && step.Receive?
    ensures Inv(Apply(n, step))
  {
    var n' := Apply(n, step);
    InitFirstStays(n, n', n.log);
    hide InitFirst, Inits, Announcer;
    assert ListenerOk(n, step.l);
    forall m | m in n.listeners ensures ListenerOk(n', m) {
      assert ListenerOk(n, m);
      if m == step.l && EnabledAt(n.streams, n.addrs, step.peer).Some? {
        var sid := n.addrs[step.peer];
        assert StreamOk(n, sid);
      }
    }
    forall l, m, s | l in n'.listeners && m in n'.listeners && OwnSid(n'.listeners[l].pc, s)
        && OwnSid(n'.listeners[m].pc, s) ensures l == m {
      assert ListenerOk(n, l) && ListenerOk(n, m);
    }
    forall s | s in n'.streams ensures StreamOk(n', s) {
      assert StreamOk(n, s);
    }
  }

  lemma {:induction false} TcpAcceptStep(n: Net, step: Step)
    requires Inv(n) && Enabled(n, step) && step.TcpAccept?
    ensures Inv(Apply(n, step))
  {
    var n' := Apply(n, step);
    InitFirstStays(n, n', n.log);
    hide InitFirst, Inits, Announcer;
    forall m | m in n.listeners ensures ListenerOk(n', m) {
      assert ListenerOk(n, m);
    }
    forall s | s in n'.streams ensures StreamOk(n', s) {
      if s != step.sid {
        assert StreamOk(n, s);
      }
    }
  }

  // Sending the Init of a UDP stream.
  lemma {:induction false} SendInitStep(n: Net, step: Step)
    requires Inv(n) && Enabled(n, step) && step.SendInit?
    ensures Inv(Apply(n, step))
  {
    var n' := Apply(n, step);
    assert ListenerOk(n, step.l);
    hide ListenersOk, MakersDistinct, TablesOk, LogOk, InitFirst, Inits, Announcer;
    FirstInitKeepsLog(n, n', Last(n'.log));
    FirstInitKeepsListeners(n, step);
    FirstInitKeepsStreams(n, n', Last(n'.log));
  }

  lemma {:induction false} FirstInitKeepsLog(n: Net, n': Net, a: Attempt)
    requires LogOk(n) && n'.udp == n.udp && n'.tcp == n.tcp && n'.route == n.route && n'.log == n.log + [a]
    requires a.packet.Init? && a.packet.sid in n.udp && Inits(n.log, a.packet.sid) == 0
    ensures LogOk(n') && FirstInit(n, n', a)
  {
    forall sid ensures Inits(n'.log, sid) == (if sid == a.packet.sid then 1 else Inits(n.log, sid))
      && (sid != a.packet.sid || !a.ok ==> Announcer(n'.log, sid) == Announcer(n.log, sid))
      && (sid == a.packet.sid && a.ok ==> Announcer(n'.log, sid) == Some(a.cid))
    {
      LogStep(n.log, a, sid);
    }
    InitFirstStays(n, n', n.log);
    Snoc(n.log, a);
    hide Inits, Announcer;
  }

  // The log says the same as before, but for the one attempt.
  ghost predicate FirstInit(n: Net, n': Net, a: Attempt) {
    && a.packet.Init? && Inits(n'.log, a.packet.sid) == 1
    && (a.ok ==> Announcer(n'.log, a.packet.sid) == Some(a.cid))
    && forall sid | sid != a.packet.sid ::
        Inits(n'.log, sid) == Inits(n.log, sid) && Announcer(n'.log, sid) == Announcer(n.log, sid)
  }

  lemma {:induction false} FirstInitKeepsListeners(n: Net, step: Step)
    requires ListenersOk(n) && MakersDistinct(n) && Enabled(n, step) && step.SendInit?
    requires FirstInit(n, Apply(n, step), Last(Apply(n, step).log))
    ensures ListenersOk(Apply(n, step)) && MakersDistinct(Apply(n, step))
  {
    hide InitFirst, Inits, Announcer;
    var n' := Apply(n, step);
    assert ListenerOk(n, step.l) && OwnSid(n.listeners[step.l].pc, n.listeners[step.l].pc.sid);
    forall m | m in n'.listeners ensures ListenerOk(n', m) {
      assert ListenerOk(n, m);
      if m != step.l && n.listeners[m].pc.Forwarding? && n.listeners[m].pc.sid == n.listeners[step.l].pc.sid {
        assert n.listeners[m].pc.sid in n.tcp;
      }
    }
    forall l, m, s | l in n'.listeners && m in n'.listeners && OwnSid(n'.listeners[l].pc, s)
        && OwnSid(n'.listeners[m].pc, s) ensures l == m {
      assert OwnSid(n.listeners[l].pc, s) && OwnSid(n.listeners[m].pc, s);
    }
  }

  lemma {:induction false} FirstInitKeepsStreams(n: Net, n': Net, a: Attempt)
    requires TablesOk(n) && FirstInit(n, n', a) && n'.streams == n.streams && n'.addrs == n.addrs
    requires Unlisted(n, a.packet.sid)
    requires n'.udp == n.udp && n'.tcp == n.tcp && n'.owner == n.owner && n'.route == n.route
    ensures TablesOk(n')
  {
    hide Inits, Announcer;
    forall s | s in n'.streams ensures StreamOk(n', s) {
      assert StreamOk(n, s);
    }
  }

  // Sending anything but the Init of a UDP stream.
  lemma {:induction false} PayloadStep(n: Net, step: Step)
    requires Inv(n) && Enabled(n, step) && (step.Forward? || step.TcpSend?)
    ensures Inv(Apply(n, step))
  {
    var n' := Apply(n, step);
    hide ListenersOk, MakersDistinct, TablesOk, LogOk, Announces;
    PayloadIsAnnounced(n, step);
    PayloadKeepsLog(n, n', Last(n'.log));
    PayloadKeepsTables(n, n');
  }

  lemma {:induction false} PayloadIsAnnounced(n: Net, step: Step)
    requires ListenersOk(n) && Enabled(n, step) && (step.Forward? || step.TcpSend?)
    ensures var a := Last(Apply(n, step).log); Announces(n, n.log, a) && (a.packet.Init? ==> a.packet.sid in n.tcp)
  {
    hide InitFirst, Inits, Announcer;
    if step.Forward? {
      assert ListenerOk(n, step.l);
    }
  }

  lemma {:induction false} PayloadKeepsTables(n: Net, n': Net)
    requires ListenersOk(n) && MakersDistinct(n) && TablesOk(n) && LogOk(n)
    requires n'.streams == n.streams && n'.addrs == n.addrs && n'.owner == n.owner && n'.route == n.route
    requires n'.udp == n.udp && n'.tcp == n.tcp && n'.listeners.Keys == n.listeners.Keys
    requires forall m | m in n.listeners ::
        n'.listeners[m] == n.listeners[m] || n'.listeners[m] == n.listeners[m].(pc := Receiving)
    requires forall sid | sid !in n.tcp ::
        Inits(n'.log, sid) == Inits(n.log, sid) && Announcer(n'.log, sid) == Announcer(n.log, sid)
    ensures ListenersOk(n') && MakersDistinct(n') && TablesOk(n')
  {
    hide InitFirst, Inits, Announcer;
    forall m | m in n'.listeners ensures ListenerOk(n', m) {
      assert ListenerOk(n, m);
    }
    forall s | s in n'.streams ensures StreamOk(n', s) {
      assert StreamOk(n, s);
    }
  }

  lemma {:induction false} PayloadKeepsLog(n: Net, n': Net, a: Attempt)
    requires LogOk(n) && n'.udp == n.udp && n'.tcp == n.tcp && n'.route == n.route && n'.log == n.log + [a]
    requires Announces(n, n.log, a) && (a.packet.Init? ==> a.packet.sid in n.tcp)
    ensures LogOk(n')
    ensures forall sid | sid !in n.tcp ::
        Inits(n'.log, sid) == Inits(n.log, sid) && Announcer(n'.log, sid) == Announcer(n.log, sid)
  {
    forall sid | sid !in n.tcp
        ensures Inits(n'.log, sid) == Inits(n.log, sid) && Announcer(n'.log, sid) == Announcer(n.log, sid) {
      LogStep(n.log, a, sid);
    }
    InitFirstStays(n, n', n.log);
    Snoc(n.log, a);
  }

  lemma {:induction false} InvStep(n: Net, step: Step)
    requires Inv(n) && Enabled(n, step)
    ensures Inv(Apply(n, step))
  {
    hide Inv, Enabled, Apply;
    match step
    case Receive(_, _, _, _) => ReceiveStep(n, step);
    case SendInit(_, _) => SendInitStep(n, step);
    case Forward(_, _) => PayloadStep(n, step);
    case TcpSend(_, _, _) => PayloadStep(n, step);
    case TcpAccept(_, _, _, _) => TcpAcceptStep(n, step);
    case Insert(_) => InsertStep(n, step);
    case Tables(_) => TablesStep(n, step);
    case _ => SpawnOrCancelStep(n, step);
  }

  lemma {:induction false} InvAt(tr: seq<Net>, steps: seq<Step>, i: nat)
    requires IsRun(tr, steps) && i < |tr|
    ensures Inv(tr[i])
  {
    hide Enabled, Apply;
    if i > 0 {
      InvAt(tr, steps, i - 1);
      assert Enabled(tr[i - 1], steps[i - 1]) && tr[i - 1 + 1] == Apply(tr[i - 1], steps[i - 1]);
      hide Inv;
      InvStep(tr[i - 1], steps[i - 1]);
    }
  }

  lemma {:induction false} InitFirstAt(n: Net, log: seq<Attempt>, k: nat)
    requires InitFirst(n, log) && k < |log|
    ensures Announces(n, log[..k], log[k])
  {
    if k < |log| - 1 {
      InitFirstAt(n, Front(log), k);
      assert Front(log)[..k] == log[..k];
    }
  }

  // Over all runs: no UDP stream ever has a second Init attempted; every Data or End attempted for one comes after its
  // single Init was sent successfully; and if each peer address uses one endpoint, that Init went to the same client.
  lemma {:induction false} InitPrecedesPayload(tr: seq<Net>, steps: seq<Step>, i: nat, k: nat)
    requires IsRun(tr, steps) && i < |tr| && k < |tr[i].log|
    ensures forall sid | sid in tr[i].udp :: Inits(tr[i].log, sid) <= 1
    ensures var a := tr[i].log[k];
            (a.packet.Data? || a.packet.End?) && a.packet.sid !in tr[i].tcp ==>
              && Inits(tr[i].log[..k], a.packet.sid) == 1
              && Announcer(tr[i].log[..k], a.packet.sid).Some?
              && (tr[i].route.Some? ==> Announcer(tr[i].log[..k], a.packet.sid) == Some(a.cid))
  {
    hide IsRun;
    InvAt(tr, steps, i);
    InitFirstAt(tr[i], tr[i].log, k);
  }

  // And every UDP stream in the table got exactly its one Init, sent to the client it belongs to.
  lemma {:induction false} RegisteredWasAnnounced(tr: seq<Net>, steps: seq<Step>, i: nat, sid: StreamId)
    requires IsRun(tr, steps) && i < |tr| && sid in tr[i].streams && tr[i].streams[sid].UdpView?
    ensures Inits(tr[i].log, sid) == 1 && Announcer(tr[i].log, sid) == Some(tr[i].streams[sid].cid)
  {
    hide IsRun;
    InvAt(tr, steps, i);
    assert StreamOk(tr[i], sid);
  }

  // A stream id that was made gets its Init attempted once: its loop goes nowhere else first.
  ghost predicate TriedOrCreating(n: Net, sid: StreamId) {
    Inits(n.log, sid) == 1 || exists l ::
        l in n.listeners && n.listeners[l].pc.Creating? && n.listeners[l].pc.sid == sid
  }

  lemma {:induction false} CreatingKept(n: Net, step: Step, l: nat)
    requires Enabled(n, step) && l in n.listeners && n.listeners[l].pc.Creating?
    ensures (step.SendInit? && step.l == l)
        || (l in Apply(n, step).listeners && Apply(n, step).listeners[l] == n.listeners[l])
  {
  }

  // What a step does to the number of Init attempts for a stream.
  lemma {:induction false} InitsStep(n: Net, step: Step, sid: StreamId)
    requires ListenersOk(n) && Enabled(n, step) && sid in n.udp && n.udp !! n.tcp
    ensures var k := Inits(Apply(n, step).log, sid);
            if step.SendInit? && n.listeners[step.l].pc.sid == sid then k == 1 else k == Inits(n.log, sid)
  {
    if step.SendInit? || step.Forward? || step.TcpSend? {
      LogStep(n.log, Last(Apply(n, step).log), sid);
    }
    if step.SendInit? {
      assert ListenerOk(n, step.l);
    }
  }

  lemma {:induction false} TriedStep(n: Net, step: Step, sid: StreamId)
    requires Inv(n) && Enabled(n, step) && sid in Apply(n, step).udp
    requires sid in n.udp ==> TriedOrCreating(n, sid)
    ensures TriedOrCreating(Apply(n, step), sid)
  {
    if sid !in n.udp {
      assert Apply(n, step).listeners[step.l].pc.Creating?;
    } else {
      InitsStep(n, step, sid);
      hide Inv, Apply, Enabled, Inits;
      if Inits(n.log, sid) != 1 {
        var l :| l in n.listeners && n.listeners[l].pc.Creating? && n.listeners[l].pc.sid == sid;
        CreatingKept(n, step, l);
      }
    }
  }

  lemma {:induction false} EveryStreamIsTriedOnce(tr: seq<Net>, steps: seq<Step>, i: nat, sid: StreamId)
    requires IsRun(tr, steps) && i < |tr| && sid in tr[i].udp
    ensures TriedOrCreating(tr[i], sid)
  {
    hide Enabled, Apply, TriedOrCreating;
    if i > 0 {
      InvAt(tr, steps, i - 1);
      assert Enabled(tr[i - 1], steps[i - 1]) && tr[i - 1 + 1] == Apply(tr[i - 1], steps[i - 1]);
      hide Inv;
      if sid in tr[i - 1].udp {
        EveryStreamIsTriedOnce(tr, steps, i - 1, sid);
      }
      TriedStep(tr[i - 1], steps[i - 1], sid);
    }
  }
}
