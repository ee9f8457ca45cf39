// The stream table and the address index: what cleanup may drop, and when the index can be trusted.
module StreamTables {
  import opened Wrappers
  import opened Sequences
  import opened Protocol
  import opened PortAllocation
  import opened ServerModel

  // ---------- cleanup and the streams ----------

  // Exactly the enabled streams of surviving clients are kept, unchanged.
  lemma {:induction false} CleanupKeeps(s: StoreState, now: int, sid: StreamId)
    ensures sid in s.Cleanup(now).streams <==>
              sid in s.streams && s.streams[sid].enabled &&
              !(s.streams[sid].cid in s.clients && s.clients[s.streams[sid].cid].CanCleanup(now))
    ensures sid in s.Cleanup(now).streams ==> s.Cleanup(now).streams[sid] == s.streams[sid]
  {
  }

  // Two stores that differ only in disabled streams.
  ghost predicate SameEnabled(s: StoreState, t: StoreState) {
    && s.addrs == t.addrs
    && (forall sid :: IsEnabled(s, sid) <==> IsEnabled(t, sid))
    && (forall sid | IsEnabled(s, sid) :: s.streams[sid] == t.streams[sid])
  }

  ghost predicate IsEnabled(s: StoreState, sid: StreamId) {
    sid in s.streams && s.streams[sid].enabled
  }

  datatype StreamOp =
    | Find(addr: Addr)
    | Send(sid: StreamId, data: seq<byte>, socket: SocketOutcome)
    | Disable(sid: StreamId)
    | DisableOf(cid: ClientId)
    | Add(stream: StreamView, peer: Addr)

  datatype Answer = Found(sid: Option<StreamId>) | Sent(r: Result<(), SendToRemoteError>) | Done

  ghost function Perform(s: StoreState, op: StreamOp): (StoreState, Answer) {
    match op
    case Find(addr) => (s, Found(s.FindStreamIdByAddr(addr)))
    case Send(sid, data, socket) => var (s', r) := s.SendToRemote(sid, data, socket); (s', Sent(r))
    case Disable(sid) => (s.DisableRemote(sid), Done)
    case DisableOf(cid) => (s.DisableRemoteByClients({cid}), Done)
    case Add(stream, peer) => (s.AddRemote(stream, peer), Done)
  }

  ghost function Answers(s: StoreState, ops: seq<StreamOp>): seq<Answer>
    decreases |ops|
  {
    if ops == [] then []
    else var (s', a) := Perform(s, ops[0]); [a] + Answers(s', ops[1..])
  }

  lemma {:induction false} SameAnswer(s: StoreState, t: StoreState, op: StreamOp)
    requires SameEnabled(s, t)
    ensures Perform(s, op).1 == Perform(t, op).1 && SameEnabled(Perform(s, op).0, Perform(t, op).0)
  {
    match op
    case Find(addr) =>
      if addr in s.addrs {
        assert IsEnabled(s, s.addrs[addr]) <==> IsEnabled(t, s.addrs[addr]);
      }
    case Send(sid, data, socket) => SameAnswerToSend(s, t, sid, data, socket);
    case Disable(sid) =>
      EnabledAfterDisable(s, sid);
      EnabledAfterDisable(t, sid);
    case DisableOf(cid) =>
      EnabledAfterDisableOf(s, cid);
      EnabledAfterDisableOf(t, cid);
    case Add(stream, peer) =>
      EnabledAfterAdd(s, stream, peer);
      EnabledAfterAdd(t, stream, peer);
  }

  lemma {:induction false} SameAnswerToSend(s: StoreState, t: StoreState, sid: StreamId, data: seq<byte>,
      socket: SocketOutcome)
    requires SameEnabled(s, t)
    ensures s.SendToRemote(sid, data, socket).1 == t.SendToRemote(sid, data, socket).1
    ensures SameEnabled(s.SendToRemote(sid, data, socket).0, t.SendToRemote(sid, data, socket).0)
  {
    assert IsEnabled(s, sid) <==> IsEnabled(t, sid);
    SendTouchesOne(s, sid, data, socket);
    SendTouchesOne(t, sid, data, socket);
  }

  lemma {:induction false} EnabledAfterDisableOf(s: StoreState, cid: ClientId)
    ensures var s' := s.DisableRemoteByClients({cid});
            && s'.addrs == s.addrs
            && (forall x :: IsEnabled(s', x) <==> IsEnabled(s, x) && s.streams[x].cid != cid)
            && (forall x | IsEnabled(s', x) :: s'.streams[x] == s.streams[x])
  {
  }

  lemma {:induction false} EnabledAfterAdd(s: StoreState, stream: StreamView, peer: Addr)
    ensures var s' := s.AddRemote(stream, peer);
            && s'.addrs == s.addrs[peer := stream.sid]
            && (forall x :: IsEnabled(s', x) <==> if x == stream.sid then stream.enabled else IsEnabled(s, x))
            && (forall x | IsEnabled(s', x) :: s'.streams[x] == if x == stream.sid then stream else s.streams[x])
  {
  }

  lemma {:induction false} SendTouchesOne(s: StoreState, sid: StreamId, data: seq<byte>, socket: SocketOutcome)
    ensures var s' := s.SendToRemote(sid, data, socket).0;
            && s'.addrs == s.addrs
            && (forall x :: IsEnabled(s', x) <==> IsEnabled(s, x) && (x == sid ==> socket.Written?))
            && (forall x | IsEnabled(s', x) ::
                s'.streams[x] == if x == sid then s.streams[x].SendToRemote(sid, data, socket).0 else s.streams[x])
  {
  }

  lemma {:induction false} EnabledAfterDisable(s: StoreState, sid: StreamId)
    ensures var s' := s.DisableRemote(sid);
            && s'.addrs == s.addrs
            && (forall x :: IsEnabled(s', x) <==> IsEnabled(s, x) && x != sid)
            && (forall x | IsEnabled(s', x) :: s'.streams[x] == s.streams[x])
  {
  }

  // Dropping disabled entries is invisible: after a cleanup pass, any further sequence of lookups, sends, disables and
  // registrations is answered as if the pass had only disabled the streams of the expired clients.
  lemma {:induction false} CleanupInvisible(s: StoreState, now: int, ops: seq<StreamOp>)
    ensures Answers(s.Cleanup(now), ops) == Answers(s.DisableRemoteByClients(s.ExpiredClients(now)), ops)
  {
    var gone := s.ExpiredClients(now);
    var marked, swept := s.DisableRemoteByClients(gone), s.Cleanup(now);
    forall sid ensures IsEnabled(swept, sid) <==> IsEnabled(marked, sid) {}
    SameAnswers(swept, marked, ops);
  }

  lemma {:induction false} SameAnswers(s: StoreState, t: StoreState, ops: seq<StreamOp>)
    requires SameEnabled(s, t)
    ensures Answers(s, ops) == Answers(t, ops)
    decreases |ops|
  {
    if ops == [] {
    } else {
      SameAnswer(s, t, ops[0]);
      SameAnswers(Perform(s, ops[0]).0, Perform(t, ops[0]).0, ops[1..]);
    }
  }

  // ---------- the address index ----------

  // One datagram at a UDP listener (lookup, and if nothing is found a new stream), an accepted TCP
  // connection, and everything else that touches the tables.
  datatype TableStep =
    | Datagram(addr: Addr, cid: ClientId, eid: EndpointId, newSid: StreamId, initOk: bool)
    | TcpAccept(sid: StreamId, cid: ClientId, eid: EndpointId, peer: Addr)
    | OnStream(op: StreamOp)
    | Sweep(now: int)

  // Uuid::new_v4: no table has ever seen the id.
  ghost predicate Unseen(s: StoreState, sid: StreamId) {
    sid !in s.streams && forall a | a in s.addrs :: s.addrs[a] != sid
  }

  ghost predicate CanStep(s: StoreState, step: TableStep) {
    match step
    case Datagram(_, _, _, newSid, _) => Unseen(s, newSid)
    case TcpAccept(sid, _, _, _) => Unseen(s, sid)
    case OnStream(op) => !op.Add?
    case Sweep(_) => true
  }

  ghost function TableAfter(s: StoreState, step: TableStep): StoreState {
    match step
    case Datagram(addr, cid, eid, newSid, initOk) =>
      if s.FindStreamIdByAddr(addr).None? && initOk
          then s.AddRemote(UdpView(newSid, cid, eid, addr, true, []), addr) else s
    case TcpAccept(sid, cid, eid, peer) => s.AddRemote(TcpView(sid, cid, eid, peer, true, []), peer)
    case OnStream(op) => Perform(s, op).0
    case Sweep(now) => s.Cleanup(now)
  }

  ghost predicate TableRun(tr: seq<StoreState>, steps: seq<TableStep>) {
    && |tr| == |steps| + 1
    && tr[0].streams == map[] && tr[0].addrs == map[]
    && forall i :: 0 <= i < |steps| ==> CanStep(tr[i], steps[i]) && tr[i + 1] == TableAfter(tr[i], steps[i])
  }

  // An index entry never leads to a stream of another peer, and streams sit under their own ids.
  ghost predicate IndexSound(s: StoreState) {
    && (forall a | a in s.addrs && s.addrs[a] in s.streams :: s.streams[s.addrs[a]].peer == a)
    && (forall sid | sid in s.streams :: s.streams[sid].sid == sid)
  }

  // What a scan of the stream table would find for a peer address.
  ghost predicate Scanned(s: StoreState, addr: Addr, sid: StreamId) {
    IsEnabled(s, sid) && s.streams[sid].peer == addr
  }

  // The lookup finds what the scan finds; in particular the scan finds at most one stream.
  ghost predicate AnswersLikeScan(s: StoreState, addr: Addr) {
    forall sid: StreamId :: s.FindStreamIdByAddr(addr) == Some(sid) <==> Scanned(s, addr, sid)
  }

  // A TCP connection is accepted from a peer for which the lookup still finds a stream.
  ghost predicate TakesOver(s: StoreState, step: TableStep, addr: Addr) {
    step.TcpAccept? && step.peer == addr && s.FindStreamIdByAddr(addr).Some?
  }

  lemma {:induction false} OpKeepsIndex(s: StoreState, op: StreamOp)
    requires !op.Add?
    ensures var s' := Perform(s, op).0;
            && s'.addrs == s.addrs && s'.streams.Keys == s.streams.Keys
            && (forall x | x in s.streams ::
                s'.streams[x].peer == s.streams[x].peer && s'.streams[x].sid == s.streams[x].sid)
            && (forall x :: IsEnabled(s', x) ==> IsEnabled(s, x))
  {
  }

  lemma {:induction false} IndexStep(s: StoreState, step: TableStep)
    requires IndexSound(s) && CanStep(s, step)
    ensures IndexSound(TableAfter(s, step))
  {
    match step
    case OnStream(op) => OpKeepsIndex(s, op);
    case Sweep(now) =>
      forall x ensures x in s.Cleanup(now).streams ==> x in s.streams && s.Cleanup(now).streams[x] == s.streams[x] {
        CleanupKeeps(s, now, x);
      }
    case Datagram(_, _, _, _, _) =>
    case TcpAccept(_, _, _, _) =>
  }

  // One step spoils the lookup for an address exactly if it is such a takeover.
  lemma {:induction false} ScanStep(s: StoreState, step: TableStep, addr: Addr)
    requires IndexSound(s) && CanStep(s, step) && AnswersLikeScan(s, addr)
    ensures AnswersLikeScan(TableAfter(s, step), addr) <==> !TakesOver(s, step, addr)
  {
    var s' := TableAfter(s, step);
    match step
    case OnStream(op) =>
      OpKeepsIndex(s, op);
      FewerAnswerLikeScan(s, s', addr);
    case Sweep(now) =>
      forall x ensures x in s'.streams ==> x in s.streams && s'.streams[x] == s.streams[x] {
        CleanupKeeps(s, now, x);
      }
      FewerAnswerLikeScan(s, s', addr);
    case Datagram(peer, _, _, newSid, initOk) =>
      if s.FindStreamIdByAddr(peer).None? && initOk {
        AddAnswersLikeScan(s, UdpView(newSid, step.cid, step.eid, peer, true, []), peer, addr);
      }
    case TcpAccept(sid, cid, eid, peer) => AddAnswersLikeScan(s, TcpView(sid, cid, eid, peer, true, []), peer, addr);
  }

  // Streams may change, be disabled or go, as long as the rest keep their peers.
  lemma {:induction false} FewerAnswerLikeScan(s: StoreState, s': StoreState, addr: Addr)
    requires IndexSound(s) && AnswersLikeScan(s, addr) && s'.addrs == s.addrs
    requires forall x | x in s'.streams ::
        x in s.streams && s'.streams[x].peer == s.streams[x].peer && s'.streams[x].sid == s.streams[x].sid
    requires forall x :: IsEnabled(s', x) ==> IsEnabled(s, x)
    ensures AnswersLikeScan(s', addr)
  {
    forall sid: StreamId ensures s'.FindStreamIdByAddr(addr) == Some(sid) <==> Scanned(s', addr, sid) {
      assert s.FindStreamIdByAddr(addr) == Some(sid) <==> Scanned(s, addr, sid);
    }
  }

  lemma {:induction false} AddAnswersLikeScan(s: StoreState, stream: StreamView, peer: Addr, addr: Addr)
    requires IndexSound(s) && AnswersLikeScan(s, addr) && Unseen(s, stream.sid) && stream.enabled && stream.peer == peer
    ensures AnswersLikeScan(s.AddRemote(stream, peer), addr) <==> !(peer == addr && s.FindStreamIdByAddr(addr).Some?)
  {
    var s' := s.AddRemote(stream, peer);
    if peer == addr && s.FindStreamIdByAddr(addr).Some? {
      var hidden := s.FindStreamIdByAddr(addr).value;
      assert Scanned(s', addr, hidden) && s'.FindStreamIdByAddr(addr) == Some(stream.sid);
    } else {
      forall sid: StreamId ensures s'.FindStreamIdByAddr(addr) == Some(sid) <==> Scanned(s', addr, sid) {
        assert s.FindStreamIdByAddr(addr) == Some(sid) <==> Scanned(s, addr, sid);
      }
    }
  }

  lemma {:induction false} IndexAt(tr: seq<StoreState>, steps: seq<TableStep>, i: nat)
    requires TableRun(tr, steps) && i < |tr|
    ensures IndexSound(tr[i])
  {
    hide TableAfter, CanStep;
    if i > 0 {
      IndexAt(tr, steps, i - 1);
      hide IndexSound;
      IndexStep(tr[i - 1], steps[i - 1]);
      assert tr[i - 1 + 1] == TableAfter(tr[i - 1], steps[i - 1]);
    }
  }

  // In every run, with TCP and UDP together, the lookup for an address has answered like a scan of the enabled streams
  // all along exactly if no TCP connection was accepted from it while the lookup found a stream.
  lemma {:induction false} LookupIsScanExactlyWhen(tr: seq<StoreState>, steps: seq<TableStep>, i: nat, addr: Addr)
    requires TableRun(tr, steps) && i < |tr|
    ensures (forall j | 0 <= j <= i :: AnswersLikeScan(tr[j], addr)) <==>
            (forall k | 0 <= k < i :: !TakesOver(tr[k], steps[k], addr))
  {
    hide TableAfter, CanStep, TakesOver;
    if i == 0 {
      assert AnswersLikeScan(tr[0], addr);
    } else {
      IndexAt(tr, steps, i - 1);
      hide IndexSound, AnswersLikeScan;
      LookupIsScanExactlyWhen(tr, steps, i - 1, addr);
      assert tr[i - 1 + 1] == TableAfter(tr[i - 1], steps[i - 1]);
      if AnswersLikeScan(tr[i - 1], addr) {
        ScanStep(tr[i - 1], steps[i - 1], addr);
      }
    }
  }

  // With UDP streams only: at most one enabled stream per peer address, and the lookup answers exactly
  // like a scan of the enabled streams, although addrs_map is never pruned.
  lemma {:induction false} UdpLookupIsScan(tr: seq<StoreState>, steps: seq<TableStep>, i: nat, addr: Addr,
      sid: StreamId, sid': StreamId)
    requires TableRun(tr, steps) && i < |tr| && forall k | 0 <= k < |steps| :: !steps[k].TcpAccept?
    ensures Scanned(tr[i], addr, sid) && Scanned(tr[i], addr, sid') ==> sid == sid'
    ensures tr[i].FindStreamIdByAddr(addr) == Some(sid) <==> Scanned(tr[i], addr, sid)
  {
    LookupIsScanExactlyWhen(tr, steps, i, addr);
    hide TableRun;
    assert AnswersLikeScan(tr[i], addr);
  }

  // A TCP connection from an address that already has a UDP stream takes over its index entry; once the TCP
  // stream is disabled, the next datagram opens a second UDP stream for the same peer.
  lemma {:induction false} TcpBreaksTheIndex() returns (tr: seq<StoreState>, steps: seq<TableStep>)
    ensures TableRun(tr, steps) && tr != []
    ensures Scanned(Last(tr), 7, 1) && Scanned(Last(tr), 7, 3)
    ensures Last(tr).FindStreamIdByAddr(7) == Some(3)
  {
    var s0 := StoreState(map[], map[], map[], map[], {}, 0, 0, {});
    steps := [Datagram(7, 0, 0, 1, true), TcpAccept(2, 0, 1, 7), OnStream(Disable(2)), Datagram(7, 0, 0, 3, true)];
    var s1 := TableAfter(s0, steps[0]);
    var s2 := TableAfter(s1, steps[1]);
    var s3 := TableAfter(s2, steps[2]);
    tr := [s0, s1, s2, s3, TableAfter(s3, steps[3])];
  }
}
