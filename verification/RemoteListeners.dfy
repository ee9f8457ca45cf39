// ownserver_server/src/remote/tcp.rs and udp.rs: the tasks that accept remote connections, read from them and forward
// what they read to the client. Each loop is run against a script of what its socket and the WebSocket do.
module RemoteListeners {
  import opened Wrappers
  import opened Sequences
  import opened Protocol
  import opened ServerModel
  import opened ServerSends
  import opened RemoteStreams
  import opened ServerStore
  import StreamTables

  // ---------- accepting a TCP connection ----------

  function Accepted(s: StoreState, cid: ClientId, eid: EndpointId, sid: StreamId, peer: Addr, sink: SinkOutcome,
      now: int): StoreState {
    var (t, r) := s.SendToClient(cid, Init(sid, eid, peer), sink, now);
    if r.Success? then t.AddRemote(TcpView(sid, cid, eid, peer, true, []), peer) else t
  }

  // `peer` is None if the socket has no peer address any more.
  method AcceptConnection(store: Store, cid: ClientId, eid: EndpointId, sid: StreamId, peer: Option<Addr>,
      sink: SinkOutcome, now: int)
    requires store.Valid()
    modifies store`streams, store`streamObjs, store`addrsMap, store.clientObjs
    ensures store.Valid()
    ensures store.View() == if peer.None? then old(store.View())
        else Accepted(old(store.View()), cid, eid, sid, peer.value, sink, now)
  {
    if peer.None? {
      return;
    }
    hide StoreState.SendToClient, StoreState.AddRemote;
    ghost var was := store.View();
    var remote := new RemoteTcp(sid, cid, eid, peer.value);
    assert store.View() == was;
    var r := store.SendToClient(cid, Init(sid, eid, peer.value), sink, now);
    if r.Success? {
      store.AddRemote(OfTcp(remote), peer.value);
    }
  }

  // ---------- the read loop of a TCP connection ----------

  // An empty read is the end of the stream.
  datatype Read = Got(data: seq<byte>, sink: SinkOutcome, now: int) | ReadError | ReadCancelled

  // The tables after one iteration, and whether the loop goes on.
  function AfterRead(s: StoreState, cid: ClientId, sid: StreamId, read: Read): (StoreState, bool) {
    match read
    case ReadCancelled => (s, false)
    case ReadError => (s.DisableRemote(sid), false)
    case Got(data, sink, now) =>
      if data == [] then (s.SendToClient(cid, End(sid), sink, now).0.DisableRemote(sid), false)
      else
        var (t, r) := s.SendToClient(cid, Data(sid, data), sink, now);
        if r.Success? then (t, true) else (t.DisableRemote(sid), false)
  }

  function AfterReads(s: StoreState, cid: ClientId, sid: StreamId, input: seq<Read>): (StoreState, bool) {
    if input == [] then (s, true)
    else
      var (t, on) := AfterReads(s, cid, sid, Front(input));
      if on then AfterRead(t, cid, sid, Last(input)) else (t, false)
  }

  method ReadLoop(store: Store, cid: ClientId, sid: StreamId, input: seq<Read>) returns (running: bool)
    requires store.Valid()
    modifies store.streamObjs, store.clientObjs
    ensures store.Valid() && (store.View(), running) == AfterReads(old(store.View()), cid, sid, input)
  {
    ghost var was := store.View();
    running := true;
    for i := 0 to |input|
      invariant store.Valid() && (store.View(), running) == AfterReads(was, cid, sid, input[..i])
    {
      TakeSnoc(input, i);
      if running {
        running := OneRead(store, cid, sid, input[i]);
      }
    }
    assert input[..|input|] == input;
  }

  method OneRead(store: Store, cid: ClientId, sid: StreamId, read: Read) returns (running: bool)
    requires store.Valid()
    modifies store.streamObjs, store.clientObjs
    ensures store.Valid() && (store.View(), running) == AfterRead(old(store.View()), cid, sid, read)
  {
    match read
    case ReadCancelled => return false;
    case ReadError =>
      store.DisableRemote(sid);
      return false;
    case Got(data, sink, now) =>
      if data == [] {
        var _ := store.SendToClient(cid, End(sid), sink, now);
        store.DisableRemote(sid);
        return false;
      }
      var r := store.SendToClient(cid, Data(sid, data), sink, now);
      if r.Failure? {
        store.DisableRemote(sid);
        return false;
      }
      return true;
  }

  // The chunks read, as packets.
  function Chunks(input: seq<Read>, sid: StreamId): seq<Packet> {
    if input == [] then []
    else Chunks(Front(input), sid) + if Last(input).Got? then [Data(sid, Last(input).data)] else []
  }

  function Output(input: seq<Read>, n: nat, ended: bool, sid: StreamId): seq<Packet>
    requires n <= |input|
  {
    Chunks(input[..n], sid) + if ended then [End(sid)] else []
  }

  // A chunk that the WebSocket takes.
  predicate Forwardable(read: Read) {
    read.Got? && read.data != [] && read.sink.Accepted?
  }

  function Leading(input: seq<Read>): (n: nat)
    ensures n <= |input|
  {
    if input == [] then 0
    else if Leading(Front(input)) == |input| - 1 && Forwardable(Last(input)) then |input|
    else Leading(Front(input))
  }

  // How many reads the loop gets through: all up to the first that is not a chunk the WebSocket takes, if its client is
  // connected.
  function Ran(s: StoreState, cid: ClientId, input: seq<Read>): (n: nat)
    ensures n <= |input|
  {
    if CanSend(s, cid) then Leading(input) else 0
  }

  // The end of the stream was read, and there is somebody to tell.
  predicate TellsEnd(s: StoreState, cid: ClientId, input: seq<Read>) {
    var n := Ran(s, cid, input);
    n < |input| && input[n].Got? && input[n].data == [] && input[n].sink.Accepted? && CanSend(s, cid)
  }

  lemma {:induction false} LeadingAt(input: seq<Read>, k: nat)
    requires k < |input|
    ensures k < Leading(input) ==> Forwardable(input[k])
    ensures k == Leading(input) ==> !Forwardable(input[k])
  {
    if k < |input| - 1 {
      LeadingAt(Front(input), k);
    }
  }

  // The read loop goes on exactly while it forwards; exactly the chunks of the reads it got through are in the
  // WebSocket, in order, then an End exactly if the next read was the end of the stream and the WebSocket took it.
  lemma {:induction false} ReadLoopForwards(s: StoreState, cid: ClientId, sid: StreamId, input: seq<Read>)
    ensures var (t, running) := AfterReads(s, cid, sid, input);
            && (running <==> Ran(s, cid, input) == |input|)
            && SentTo(t, cid) == SentTo(s, cid) + Output(input, Ran(s, cid, input), TellsEnd(s, cid, input), sid)
            && (running ==> (CanSend(t, cid) <==> CanSend(s, cid)))
  {
    if input != [] {
      var front := Front(input);
      ReadLoopForwards(s, cid, sid, front);
      var (t, on) := AfterReads(s, cid, sid, front);
      OutputGrows(input, Ran(s, cid, front), TellsEnd(s, cid, front), sid);
      if on {
        ReadExactly(t, cid, sid, Last(input));
        OutputGrows(input, |input| - 1, false, sid);
      }
      hide AfterRead, SentTo, Output, CanSend;
    }
  }

  lemma {:induction false} OutputGrows(input: seq<Read>, m: nat, ended: bool, sid: StreamId)
    requires input != [] && m < |input|
    ensures Front(input)[..m] == input[..m] && Output(input, m, ended, sid) == Output(Front(input), m, ended, sid)
    ensures Output(input, m, true, sid) == Output(input, m, false, sid) + [End(sid)]
    ensures m == |input| - 1 && input[m].Got? ==>
        Output(input, m + 1, false, sid) == Output(input, m, false, sid) + [Data(sid, input[m].data)]
    ensures m < |input| - 1 ==> Front(input)[m] == input[m]
  {
    assert Front(input)[..m] == input[..m];
    if m == |input| - 1 {
      assert input[..m + 1] == input && Front(input) == input[..m];
    }
  }

  // Unless it goes on or was cancelled, the loop has disabled its stream; it touches no other stream and no other
  // client.
  lemma {:induction false} ReadLoopDisables(s: StoreState, cid: ClientId, sid: StreamId, input: seq<Read>, c: ClientId)
    ensures var n := Ran(s, cid, input);
            AfterReads(s, cid, sid, input).0.streams ==
            if n == |input| || input[n].ReadCancelled? then s.streams else s.DisableRemote(sid).streams
    ensures c != cid ==> SentTo(AfterReads(s, cid, sid, input).0, c) == SentTo(s, c)
  {
    if input != [] {
      var front := Front(input);
      ReadLoopDisables(s, cid, sid, front, c);
      ReadLoopForwards(s, cid, sid, front);
      var (t, on) := AfterReads(s, cid, sid, front);
      if on {
        ReadExactly(t, cid, sid, Last(input));
      } else {
        assert front[Ran(s, cid, front)] == input[Ran(s, cid, front)];
      }
      hide AfterRead, SentTo, CanSend, Output;
    }
  }

  // One round: it goes on exactly if a chunk was read and the connected client's WebSocket took it, and sends exactly
  // what was read.
  lemma {:induction false} ReadExactly(s: StoreState, cid: ClientId, sid: StreamId, read: Read)
    ensures var (t, running) := AfterRead(s, cid, sid, read);
            && (running <==> Forwardable(read) && CanSend(s, cid))
            && (running ==> CanSend(t, cid))
            && SentTo(t, cid) == SentTo(s, cid) +
               (if read.Got? && read.sink.Accepted? && CanSend(s, cid)
                then [if read.data == [] then End(sid) else Data(sid, read.data)] else [])
            && t.streams == (if running || read.ReadCancelled? then s.streams else s.DisableRemote(sid).streams)
            && (forall c | c != cid :: SentTo(t, c) == SentTo(s, c))
  {
  }

  // ---------- the loop of a UDP endpoint ----------

  datatype Datagram =
    | Datagram(peer: Addr, data: seq<byte>, newSid: StreamId, initSink: SinkOutcome, sink: SinkOutcome, now: int)
    | RecvError
    | RecvCancelled

  // An empty datagram ends the stream.
  function Forwarded(sid: StreamId, data: seq<byte>): Packet {
    if data == [] then End(sid) else Data(sid, data)
  }

  function AfterDatagram(s: StoreState, cid: ClientId, eid: EndpointId, d: Datagram): (StoreState, bool) {
    match d
    case RecvError => (s, true)
    case RecvCancelled => (s, false)
    case Datagram(peer, data, newSid, initSink, sink, now) =>
      match s.FindStreamIdByAddr(peer)
      case Some(sid) => (s.SendToClient(cid, Forwarded(sid, data), sink, now).0, true)
      case None =>
        var (t, r) := s.SendToClient(cid, Init(newSid, eid, peer), initSink, now);
        if r.Failure? then (t, false)
        else
          var u := t.AddRemote(UdpView(newSid, cid, eid, peer, true, []), peer);
          (u.SendToClient(cid, Forwarded(newSid, data), sink, now).0, true)
  }

  function AfterDatagrams(s: StoreState, cid: ClientId, eid: EndpointId, ds: seq<Datagram>): (StoreState, bool) {
    if ds == [] then (s, true)
    else
      var (t, on) := AfterDatagrams(s, cid, eid, Front(ds));
      if on then AfterDatagram(t, cid, eid, Last(ds)) else (t, false)
  }

  method ProcessUdpStream(store: Store, cid: ClientId, eid: EndpointId, ds: seq<Datagram>) returns (running: bool)
    requires store.Valid()
    modifies store`streams, store`streamObjs, store`addrsMap, store.clientObjs
    ensures store.Valid() && (store.View(), running) == AfterDatagrams(old(store.View()), cid, eid, ds)
  {
    ghost var was := store.View();
    running := true;
    for i := 0 to |ds|
      invariant store.Valid() && store.clientObjs == old(store.clientObjs)
      invariant (store.View(), running) == AfterDatagrams(was, cid, eid, ds[..i])
    {
      TakeSnoc(ds, i);
      if running {
        running := OneDatagram(store, cid, eid, ds[i]);
      }
    }
    assert ds[..|ds|] == ds;
  }

  method OneDatagram(store: Store, cid: ClientId, eid: EndpointId, d: Datagram) returns (running: bool)
    requires store.Valid()
    modifies store`streams, store`streamObjs, store`addrsMap, store.clientObjs
    ensures store.Valid() && store.clientObjs == old(store.clientObjs)
    ensures (store.View(), running) == AfterDatagram(old(store.View()), cid, eid, d)
  {
    match d
    case RecvError => return true;
    case RecvCancelled => return false;
    case Datagram(peer, data, newSid, initSink, sink, now) =>
      var found := store.FindStreamIdByAddr(peer);
      var sid := newSid;
      if found.Some? {
        sid := found.value;
      } else {
        running := OpenUdpStream(store, cid, eid, peer, newSid, initSink, now);
        if !running {
          return;
        }
      }
      if data == [] {
        var _ := store.SendToClient(cid, End(sid), sink, now);
        return true;
      }
      var _ := store.SendToClient(cid, Data(sid, data), sink, now);
      return true;
  }

  method OpenUdpStream(store: Store, cid: ClientId, eid: EndpointId, peer: Addr, sid: StreamId, sink: SinkOutcome,
      now: int) returns (ok: bool)
    requires store.Valid()
    modifies store`streams, store`streamObjs, store`addrsMap, store.clientObjs
    ensures store.Valid() && store.clientObjs == old(store.clientObjs)
    ensures var (t, r) := old(store.View()).SendToClient(cid, Init(sid, eid, peer), sink, now);
            && ok == r.Success?
            && store.View() == if ok then t.AddRemote(UdpView(sid, cid, eid, peer, true, []), peer) else t
  {
    hide StoreState.SendToClient, StoreState.AddRemote;
    ghost var was := store.View();
    var remote := new RemoteUdp(sid, cid, eid, peer);
    assert store.View() == was;
    var r := store.SendToClient(cid, Init(sid, eid, peer), sink, now);
    ok := r.Success?;
    if ok {
      store.AddRemote(OfUdp(remote), peer);
    }
  }

  // What one datagram puts into the WebSocket of its client: the payload for the peer's stream, or the Init of a new
  // one and then its payload; of these, whatever the WebSocket takes.
  ghost function Says(s: StoreState, cid: ClientId, eid: EndpointId, d: Datagram): seq<Packet> {
    if !d.Datagram? || !CanSend(s, cid) then []
    else
      match s.FindStreamIdByAddr(d.peer)
      case Some(sid) => if d.sink.Accepted? then [if d.data == [] then End(sid) else Data(sid, d.data)] else []
      case None =>
        var payload := if d.data == [] then End(d.newSid) else Data(d.newSid, d.data);
        if !d.initSink.Accepted? then []
        else if d.sink.Accepted? then [Init(d.newSid, eid, d.peer), payload]
        else [Init(d.newSid, eid, d.peer)]
  }

  // The loop ends when it is cancelled, and when an Init cannot be sent.
  ghost predicate GoesOn(s: StoreState, cid: ClientId, d: Datagram) {
    match d
    case RecvError => true
    case RecvCancelled => false
    case Datagram(peer, _, _, initSink, _, _) =>
      s.FindStreamIdByAddr(peer).Some? || (CanSend(s, cid) && initSink.Accepted?)
  }

  lemma {:induction false} DatagramExactly(s: StoreState, cid: ClientId, eid: EndpointId, d: Datagram)
    ensures var (t, running) := AfterDatagram(s, cid, eid, d);
            && SentTo(t, cid) == SentTo(s, cid) + Says(s, cid, eid, d)
            && (running <==> GoesOn(s, cid, d))
            && (running && d.Datagram? && s.FindStreamIdByAddr(d.peer).None? ==>
                  t.FindStreamIdByAddr(d.peer) == Some(d.newSid))
  {
    if d.Datagram? {
      match s.FindStreamIdByAddr(d.peer)
      case Some(sid) => SendExactly(s, cid, Forwarded(sid, d.data), d.sink, d.now);
      case None =>
        var t := s.SendToClient(cid, Init(d.newSid, eid, d.peer), d.initSink, d.now).0;
        SendExactly(s, cid, Init(d.newSid, eid, d.peer), d.initSink, d.now);
        var u := t.AddRemote(UdpView(d.newSid, cid, eid, d.peer, true, []), d.peer);
        SendExactly(u, cid, Forwarded(d.newSid, d.data), d.sink, d.now);
        SendTouchesOneClient(u, cid, Forwarded(d.newSid, d.data), d.sink, d.now);
        assert CanSend(u, cid) == CanSend(t, cid) && SentTo(u, cid) == SentTo(t, cid);
    }
    hide StoreState.SendToClient;
  }

  // A datagram of a peer for which a scan finds a stream goes to that stream.
  lemma {:induction false} KnownPeerIsForwarded(s: StoreState, cid: ClientId, eid: EndpointId, d: Datagram,
      sid: StreamId)
    requires d.Datagram? && CanSend(s, cid) && d.sink.Accepted?
    requires StreamTables.AnswersLikeScan(s, d.peer) && StreamTables.Scanned(s, d.peer, sid)
    ensures SentTo(AfterDatagram(s, cid, eid, d).0, cid) ==
            SentTo(s, cid) + [if d.data == [] then End(sid) else Data(sid, d.data)]
  {
    DatagramExactly(s, cid, eid, d);
  }

  // ---------- the whole loop of a UDP endpoint ----------

  // The stream each peer is known by.
  ghost predicate Knows(s: StoreState, known: map<Addr, StreamId>) {
    forall a: Addr :: s.FindStreamIdByAddr(a) == if a in known then Some(known[a]) else None
  }

  function KnownAfter(known: map<Addr, StreamId>, ds: seq<Datagram>): map<Addr, StreamId> {
    if ds == [] then known
    else
      var before := KnownAfter(known, Front(ds));
      if Last(ds).Datagram? && Last(ds).peer !in before then before[Last(ds).peer := Last(ds).newSid] else before
  }

  // The packets of a whole sequence of datagrams, one payload each, with an Init ahead of the first of every new peer.
  function Conversation(known: map<Addr, StreamId>, eid: EndpointId, ds: seq<Datagram>): seq<Packet> {
    if ds == [] then []
    else
      var d, before := Last(ds), KnownAfter(known, Front(ds));
      if !d.Datagram? then Conversation(known, eid, Front(ds))
      else if d.peer in before then
        Conversation(known, eid, Front(ds)) +
        [if d.data == [] then End(before[d.peer]) else Data(before[d.peer], d.data)]
      else
        Conversation(known, eid, Front(ds)) +
        [Init(d.newSid, eid, d.peer), if d.data == [] then End(d.newSid) else Data(d.newSid, d.data)]
  }

  // Every send is taken, and every new stream id is one no table has seen.
  ghost predicate AllTaken(s: StoreState, ds: seq<Datagram>) {
    && (forall k | 0 <= k < |ds| :: !ds[k].RecvCancelled?)
    && (forall k | 0 <= k < |ds| && ds[k].Datagram? ::
          ds[k].sink.Accepted? && ds[k].initSink.Accepted? && StreamTables.Unseen(s, ds[k].newSid))
    && (forall j, k | 0 <= j < k < |ds| && ds[j].Datagram? && ds[k].Datagram? :: ds[j].newSid != ds[k].newSid)
  }

  lemma {:induction false} AllTakenFront(s: StoreState, ds: seq<Datagram>)
    requires ds != [] && AllTaken(s, ds)
    ensures AllTaken(s, Front(ds))
  {
    forall k | 0 <= k < |Front(ds)| ensures Front(ds)[k] == ds[k] {
    }
  }

  // Ids that were unseen and are not the new one stay unseen.
  lemma {:induction false} StillUnseen(s: StoreState, cid: ClientId, eid: EndpointId, d: Datagram, sid: StreamId)
    requires StreamTables.Unseen(s, sid) && (d.Datagram? ==> d.newSid != sid)
    ensures StreamTables.Unseen(AfterDatagram(s, cid, eid, d).0, sid)
  {
  }

  // A connected client whose WebSocket takes every packet hears exactly this conversation.
  lemma {:induction false} UdpLoopForwards(s: StoreState, cid: ClientId, eid: EndpointId, ds: seq<Datagram>,
      known: map<Addr, StreamId>)
    requires CanSend(s, cid) && Knows(s, known) && AllTaken(s, ds)
    ensures var (t, running) := AfterDatagrams(s, cid, eid, ds);
            && running && CanSend(t, cid) && Knows(t, KnownAfter(known, ds))
            && SentTo(t, cid) == SentTo(s, cid) + Conversation(known, eid, ds)
    ensures forall sid: StreamId ::
        StreamTables.Unseen(s, sid) && (forall k | 0 <= k < |ds| && ds[k].Datagram? :: ds[k].newSid != sid) ==>
        StreamTables.Unseen(AfterDatagrams(s, cid, eid, ds).0, sid)
  {
    if ds != [] {
      var front, d := Front(ds), Last(ds);
      AllTakenFront(s, ds);
      UdpLoopForwards(s, cid, eid, front, known);
      var t := AfterDatagrams(s, cid, eid, front).0;
      assert d == ds[|ds| - 1] && forall k | 0 <= k < |front| :: front[k] == ds[k];
      OneMoreDatagram(t, cid, eid, d, KnownAfter(known, front));
      forall sid: StreamId |
        StreamTables.Unseen(s, sid) && (forall k | 0 <= k < |ds| && ds[k].Datagram? :: ds[k].newSid != sid)
        ensures StreamTables.Unseen(AfterDatagrams(s, cid, eid, ds).0, sid)
      {
        StillUnseen(t, cid, eid, d, sid);
      }
      hide AfterDatagram, Knows, CanSend, SentTo, StreamTables.Unseen;
    }
  }

  lemma {:induction false} OneMoreDatagram(t: StoreState, cid: ClientId, eid: EndpointId, d: Datagram,
      known: map<Addr, StreamId>)
    requires CanSend(t, cid) && Knows(t, known) && !d.RecvCancelled?
    requires d.Datagram? ==> d.sink.Accepted? && d.initSink.Accepted? && StreamTables.Unseen(t, d.newSid)
    ensures var (u, running) := AfterDatagram(t, cid, eid, d);
            && running && CanSend(u, cid)
            && Knows(u, if d.Datagram? && d.peer !in known then known[d.peer := d.newSid] else known)
            && SentTo(u, cid) == SentTo(t, cid) +
               if !d.Datagram? then []
               else if d.peer in known then [if d.data == [] then End(known[d.peer]) else Data(known[d.peer], d.data)]
               else [Init(d.newSid, eid, d.peer), if d.data == [] then End(d.newSid) else Data(d.newSid, d.data)]
  {
    DatagramExactly(t, cid, eid, d);
    if d.Datagram? {
      assert t.FindStreamIdByAddr(d.peer) == if d.peer in known then Some(known[d.peer]) else None;
    }
  }

  // ---------- the stream tables ----------

  // One datagram changes the stream tables like the single step that the claims about the address index are made of.
  lemma {:induction false} DatagramIsTableStep(s: StoreState, cid: ClientId, eid: EndpointId, d: Datagram)
    requires d.Datagram?
    ensures var initOk := CanSend(s, cid) && d.initSink.Accepted?;
            var t, u := AfterDatagram(s, cid, eid, d).0,
                StreamTables.TableAfter(s, StreamTables.Datagram(d.peer, cid, eid, d.newSid, initOk));
            t.streams == u.streams && t.addrs == u.addrs
  {
  }

  // The same for an accepted TCP connection, which is registered exactly if the connected client's WebSocket takes its
  // Init.
  lemma {:induction false} AcceptIsTableStep(s: StoreState, cid: ClientId, eid: EndpointId, sid: StreamId, peer: Addr,
      sink: SinkOutcome, now: int)
    ensures var t := Accepted(s, cid, eid, sid, peer, sink, now);
            if CanSend(s, cid) && sink.Accepted? then
              var u := StreamTables.TableAfter(s, StreamTables.TcpAccept(sid, cid, eid, peer));
              && SentTo(t, cid) == SentTo(s, cid) + [Init(sid, eid, peer)]
              && t.streams == u.streams && t.addrs == u.addrs
              && sid in t.streams && t.streams[sid] == TcpView(sid, cid, eid, peer, true, [])
              && peer in t.addrs && t.addrs[peer] == sid
            else SentTo(t, cid) == SentTo(s, cid) && t.streams == s.streams && t.addrs == s.addrs
  {
  }
}
