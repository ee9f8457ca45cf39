// The steps of the state machines, taken one after the other, are the operations of the program run without
// interruption.
module Composition {
  import opened Wrappers
  import opened Sequences
  import opened Protocol
  import opened PortAllocation
  import opened ServerModel
  import opened ServerSends
  import opened ControlServer
  import L = Lifecycle
  import R = RemoteListeners
  import T = Tunnel
  import U = UdpListeners

  // ---------- handshakes ----------

  // Lease, hello and registration are the NewClient branch; a hello that fails stops after the second.
  lemma {:induction false} NewClientIsItsActions(s: L.Server, h: nat, cid: ClientId, claims: seq<EndpointClaim>,
      eps: seq<Endpoint>, firstId: nat, sent: bool) returns (s': L.Server)
    requires L.Enabled(s, L.Lease(h, cid, claims, eps, firstId))
    ensures ProvisionedNew(s.store, s'.store, HelloSuccess(cid, s.config.host, eps), s.config, claims, cid, firstId,
        s.nextToken, sent)
    ensures h !in s'.pending && (!sent ==> s'.abandoned == s.abandoned + RemotePorts(eps))
    ensures L.Next(s, L.Apply(s, L.Lease(h, cid, claims, eps, firstId)))
    ensures var leased := L.Apply(s, L.Lease(h, cid, claims, eps, firstId));
            && L.Enabled(leased, L.SendHello(h, sent))
            && var told := L.Apply(leased, L.SendHello(h, sent));
               if sent then L.Enabled(told, L.Register(h)) && s' == L.Apply(told, L.Register(h)) else s' == told
  {
    var leased := L.Apply(s, L.Lease(h, cid, claims, eps, firstId));
    var told := L.Apply(leased, L.SendHello(h, sent));
    s' := if sent then L.Apply(told, L.Register(h)) else told;
  }

  // Take, hello and registration are the Reconnect branch.
  lemma {:induction false} ReconnectIsItsActions(s: L.Server, h: nat, cid: ClientId, sent: bool) returns (s': L.Server)
    requires L.Enabled(s, L.Take(h, cid)) && s.store.clients[cid].clientId == cid
    ensures var hello := HelloSuccess(cid, s.config.host, s.store.clients[cid].endpoints);
            Reconnected(s.store, s'.store, Some(hello), s.config, cid, s.nextToken, sent, s.now)
    ensures var taken := L.Apply(s, L.Take(h, cid));
            && L.Enabled(taken, L.SendHello(h, sent))
            && var told := L.Apply(taken, L.SendHello(h, sent));
               if sent then L.Enabled(told, L.Register(h)) && s' == L.Apply(told, L.Register(h)) else s' == told
  {
    var taken := L.Apply(s, L.Take(h, cid));
    var told := L.Apply(taken, L.SendHello(h, sent));
    s' := if sent then L.Apply(told, L.Register(h)) else told;
  }

  // ---------- the TCP read loop ----------

  function TunnelStep(s: StoreState, cid: ClientId, sid: StreamId, read: R.Read): T.Step {
    match read
    case Got(data, sink, now) =>
      if data == [] then T.Eof(sid, s.SendToClient(cid, End(sid), sink, now).1.Success?)
      else T.Read(sid, data, s.SendToClient(cid, Data(sid, data), sink, now).1.Success?)
    case ReadError => T.StopReading(sid)
    case ReadCancelled => T.StopReading(sid)
  }

  // One iteration of the read loop is one step of the tunnel: the same packet goes into the WebSocket, and the loop
  // goes on or stops in both.
  lemma {:induction false} ReadIsTunnelStep(s: StoreState, cid: ClientId, sid: StreamId, read: R.Read, t: T.Session)
    requires sid in t.sources && t.sources[sid].reading && (read.Got? ==> |read.data| <= T.MAX_CHUNK)
    ensures var step := TunnelStep(s, cid, sid, read);
            && T.Enabled(t, step)
            && var (s', running), t' := R.AfterRead(s, cid, sid, read), T.Apply(t, step);
               && |SentTo(s', cid)| >= |SentTo(s, cid)|
               && t'.ws == t.ws + SentTo(s', cid)[|SentTo(s, cid)|..]
               && t'.sources[sid].reading == running && t'.local == t.local
  {
    var step := TunnelStep(s, cid, sid, read);
    ReadSends(s, cid, sid, read);
    hide R.AfterRead, SentTo, TunnelStep;
    StepSends(t, step);
  }

  // What a step of the read loop puts into the WebSocket.
  function Packets(step: T.Step): seq<Packet> {
    match step
    case Read(sid, chunk, ok) => if ok then [Data(sid, chunk)] else []
    case Eof(sid, ok) => if ok then [End(sid)] else []
    case _ => []
  }

  lemma {:induction false} ReadSends(s: StoreState, cid: ClientId, sid: StreamId, read: R.Read)
    ensures var step, (s', running) := TunnelStep(s, cid, sid, read), R.AfterRead(s, cid, sid, read);
            && SentTo(s', cid) == SentTo(s, cid) + Packets(step)
            && running == (step.Read? && step.ok)
            && step.sid == sid && (step.Eof? || step.StopReading? || (step.Read? && step.chunk == read.data != []))
            && (step.Read? ==> read.Got?)
  {
    if read.Got? {
      SendAppends(s, cid, sid, R.Forwarded(sid, read.data), read.sink, read.now);
    }
    assert SentTo(s.DisableRemote(sid), cid) == SentTo(s, cid);
    hide StoreState.SendToClient, StoreState.DisableRemote, SentTo;
  }

  lemma {:induction false} StepSends(t: T.Session, step: T.Step)
    requires (step.Read? || step.Eof? || step.StopReading?) && T.Enabled(t, step)
    ensures var t' := T.Apply(t, step);
            && t'.ws == t.ws + Packets(step) && t'.local == t.local
            && (step.sid in t'.sources && t'.sources[step.sid].reading == (step.Read? && step.ok))
  {
  }

  lemma {:induction false} SendAppends(s: StoreState, cid: ClientId, sid: StreamId, p: Packet, sink: SinkOutcome,
      now: int)
    ensures var (t, r) := s.SendToClient(cid, p, sink, now);
            && SentTo(t, cid) == SentTo(s, cid) + (if r.Success? then [p] else [])
            && SentTo(t.DisableRemote(sid), cid) == SentTo(t, cid)
  {
  }

  // ---------- one datagram ----------

  // The packets of a log that were sent to a client.
  ghost function Delivered(log: seq<U.Attempt>, cid: ClientId): seq<Packet> {
    if log == [] then []
    else Delivered(Front(log), cid) + if Last(log).ok && Last(log).cid == cid then [Last(log).packet] else []
  }

  ghost predicate Mirrors(n: U.Net, s: StoreState) {
    n.streams == s.streams && n.addrs == s.addrs && forall sid | sid in s.streams :: s.streams[sid].sid == sid
  }

  lemma {:induction false} DeliveredMore(log: seq<U.Attempt>, a: U.Attempt, cid: ClientId)
    ensures Delivered(log + [a], cid) == Delivered(log, cid) + if a.ok && a.cid == cid then [a.packet] else []
  {
    Snoc(log, a);
  }

  // A datagram whose stream is found: receive and forward.
  lemma {:induction false} KnownDatagramIsItsSteps(n: U.Net, l: nat, s: StoreState, d: R.Datagram) returns (n': U.Net)
    requires Mirrors(n, s) && d.Datagram? && U.Enabled(n, U.Receive(l, d.peer, d.data, d.newSid))
    requires s.FindStreamIdByAddr(d.peer).Some?
    ensures var li := n.listeners[l];
            var ok := CanSend(s, li.cid) && d.sink.Accepted?;
            var received := U.Apply(n, U.Receive(l, d.peer, d.data, d.newSid));
            && U.Enabled(received, U.Forward(l, ok)) && n' == U.Apply(received, U.Forward(l, ok))
            && Mirrors(n', R.AfterDatagram(s, li.cid, li.eid, d).0)
            && Delivered(n'.log, li.cid) == Delivered(n.log, li.cid) + R.Says(s, li.cid, li.eid, d)
            && SentTo(R.AfterDatagram(s, li.cid, li.eid, d).0, li.cid) ==
               SentTo(s, li.cid) + R.Says(s, li.cid, li.eid, d)
  {
    var li := n.listeners[l];
    R.DatagramExactly(s, li.cid, li.eid, d);
    var received := U.Apply(n, U.Receive(l, d.peer, d.data, d.newSid));
    n' := U.Apply(received, U.Forward(l, CanSend(s, li.cid) && d.sink.Accepted?));
    DeliveredMore(n.log, Last(n'.log), li.cid);
    hide SentTo;
  }

  // A datagram of a new peer: receive, announce, insert and forward; a failed Init ends the loop after the second.
  lemma {:induction false} NewDatagramIsItsSteps(n: U.Net, l: nat, s: StoreState, d: R.Datagram) returns (n': U.Net)
    requires Mirrors(n, s) && d.Datagram? && U.Enabled(n, U.Receive(l, d.peer, d.data, d.newSid))
    requires s.FindStreamIdByAddr(d.peer).None?
    ensures var li := n.listeners[l];
            var initOk := CanSend(s, li.cid) && d.initSink.Accepted?;
            var received := U.Apply(n, U.Receive(l, d.peer, d.data, d.newSid));
            && U.Enabled(received, U.SendInit(l, initOk))
            && Mirrors(n', R.AfterDatagram(s, li.cid, li.eid, d).0)
            && var told := U.Apply(received, U.SendInit(l, initOk));
               if !initOk then n' == told && n'.listeners[l].pc.Stopped?
               else
                 && U.Enabled(told, U.Insert(l))
                 && var inserted := U.Apply(told, U.Insert(l));
                    && U.Enabled(inserted, U.Forward(l, d.sink.Accepted?))
                    && n' == U.Apply(inserted, U.Forward(l, d.sink.Accepted?))
    ensures n'.log == n.log + NewAttempts(n.listeners[l], s, d)
  {
    var li := n.listeners[l];
    var initOk := CanSend(s, li.cid) && d.initSink.Accepted?;
    var received := U.Apply(n, U.Receive(l, d.peer, d.data, d.newSid));
    n' := U.Apply(received, U.SendInit(l, initOk));
    if initOk {
      var inserted := U.Apply(n', U.Insert(l));
      n' := U.Apply(inserted, U.Forward(l, d.sink.Accepted?));
    }
    R.DatagramIsTableStep(s, li.cid, li.eid, d);
    hide R.AfterDatagram, CanSend;
  }

  ghost function NewAttempts(li: U.Listener, s: StoreState, d: R.Datagram): seq<U.Attempt>
    requires d.Datagram?
  {
    var initOk := CanSend(s, li.cid) && d.initSink.Accepted?;
    [U.Attempt(li.cid, Init(d.newSid, li.eid, d.peer), initOk)] +
    if initOk then [U.Attempt(li.cid, R.Forwarded(d.newSid, d.data), d.sink.Accepted?)] else []
  }

  // What these attempts deliver is what the datagram puts into the WebSocket.
  lemma {:induction false} NewDatagramSends(log: seq<U.Attempt>, li: U.Listener, s: StoreState, d: R.Datagram)
    requires d.Datagram? && s.FindStreamIdByAddr(d.peer).None?
    ensures Delivered(log + NewAttempts(li, s, d), li.cid) == Delivered(log, li.cid) + R.Says(s, li.cid, li.eid, d)
    ensures SentTo(R.AfterDatagram(s, li.cid, li.eid, d).0, li.cid) == SentTo(s, li.cid) + R.Says(s, li.cid, li.eid, d)
  {
    R.DatagramExactly(s, li.cid, li.eid, d);
    DeliveredTwo(log, NewAttempts(li, s, d), li.cid);
    hide *;
    SaysIsDelivered(li, s, d);
  }

  ghost function DeliveredOf(a: U.Attempt, cid: ClientId): seq<Packet> {
    if a.ok && a.cid == cid then [a.packet] else []
  }

  lemma {:induction false} SaysIsDelivered(li: U.Listener, s: StoreState, d: R.Datagram)
    requires d.Datagram? && s.FindStreamIdByAddr(d.peer).None?
    ensures var more := NewAttempts(li, s, d);
            && 1 <= |more| <= 2
            && R.Says(s, li.cid, li.eid, d) ==
               if |more| == 2 then DeliveredOf(more[0], li.cid) + DeliveredOf(more[1], li.cid)
               else DeliveredOf(more[0], li.cid)
  {
    hide StoreState.FindStreamIdByAddr;
  }

  lemma {:induction false} DeliveredTwo(log: seq<U.Attempt>, more: seq<U.Attempt>, cid: ClientId)
    ensures |more| == 1 ==> Delivered(log + more, cid) == Delivered(log, cid) + DeliveredOf(more[0], cid)
    ensures |more| == 2 ==>
        Delivered(log + more, cid) == Delivered(log, cid) + (DeliveredOf(more[0], cid) + DeliveredOf(more[1], cid))
  {
    if |more| == 1 {
      assert log + more == log + [more[0]];
      DeliveredMore(log, more[0], cid);
    } else if |more| == 2 {
      assert log + more == log + [more[0]] + [more[1]];
      DeliveredMore(log, more[0], cid);
      DeliveredMore(log + [more[0]], more[1], cid);
    }
    hide Delivered;
  }

  // ---------- accepting a TCP connection ----------

  // Accepting a connection, whose read loop starts, and announcing it are two steps of the tunnel; the same Init goes
  // into the WebSocket.
  lemma {:induction false} AcceptIsTunnelSteps(s: StoreState, cid: ClientId, eid: EndpointId, sid: StreamId, peer: Addr,
      sink: SinkOutcome, now: int, t: T.Session)
    requires T.Enabled(t, T.Accept(sid))
    ensures var reading, ok := T.Apply(t, T.Accept(sid)), CanSend(s, cid) && sink.Accepted?;
            && sid in reading.sources && reading.sources[sid].reading && reading.sources[sid].read == []
            && T.Enabled(reading, T.SendInit(sid, eid, peer, ok))
            && var told := T.Apply(reading, T.SendInit(sid, eid, peer, ok));
               var s' := R.Accepted(s, cid, eid, sid, peer, sink, now);
               && told.ws == t.ws + (if ok then [Init(sid, eid, peer)] else [])
               && SentTo(s', cid) == SentTo(s, cid) + (if ok then [Init(sid, eid, peer)] else [])
               && (sid in s'.streams && sid !in s.streams ==> ok)
  {
    R.AcceptIsTableStep(s, cid, eid, sid, peer, sink, now);
    hide SentTo, CanSend;
  }
}
