// The way back: Data packets from the client written to one remote TCP socket.
module RemoteWriter {
  import opened Wrappers
  import opened Sequences
  import opened Protocol
  import opened PortAllocation
  import opened ServerModel
  import ControlServer

  datatype Event =
    // One round of a client's read loop.
    | FromClient(cid: ClientId, packet: Packet, sink: SinkOutcome, socket: SocketOutcome, now: int)
    | ReaderEnds(sid: StreamId)                          // a RemoteTcp read loop exits and disables its stream
    | DisableOf(cid: ClientId)
    | Accept(stream: StreamView, peer: Addr)
    | Sweep(now: int)

  ghost function After(s: StoreState, e: Event): StoreState {
    match e
    case FromClient(cid, packet, sink, socket, now) => ControlServer.Dispatch(s, cid, packet, sink, socket, now)
    case ReaderEnds(sid) => s.DisableRemote(sid)
    case DisableOf(cid) => s.DisableRemoteByClients({cid})
    case Accept(stream, peer) => s.AddRemote(stream, peer)
    case Sweep(now) => s.Cleanup(now)
  }

  ghost function AfterAll(s: StoreState, es: seq<Event>): StoreState {
    if es == [] then s else After(AfterAll(s, Front(es)), Last(es))
  }

  ghost predicate Live(s: StoreState, sid: StreamId) {
    sid in s.streams && s.streams[sid].TcpView? && s.streams[sid].enabled
  }

  // The payloads addressed to the stream, in arrival order.
  ghost function Payload(e: Event, sid: StreamId): seq<byte> {
    if e.FromClient? && e.packet.Data? && e.packet.sid == sid then e.packet.data else []
  }

  ghost function Arrived(es: seq<Event>, sid: StreamId): seq<byte> {
    if es == [] then [] else Arrived(Front(es), sid) + Payload(Last(es), sid)
  }

  // The bytes an event puts on the stream's socket: all of the payload, or what got through a failing write.
  ghost function Put(s: StoreState, e: Event, sid: StreamId): seq<byte> {
    if Live(s, sid) && e.FromClient? && e.packet.Data? && e.packet.sid == sid then
      if e.socket.Written? then e.packet.data else Prefix(e.packet.data, e.socket.partial)
    else []
  }

  ghost function Wire(s: StoreState, es: seq<Event>, sid: StreamId): seq<byte> {
    if es == [] then [] else Wire(s, Front(es), sid) + Put(AfterAll(s, Front(es)), Last(es), sid)
  }

  // Uuid::new_v4: the stream's id is not given to another stream.
  ghost predicate NotReused(es: seq<Event>, sid: StreamId) {
    es == [] || (!(Last(es).Accept? && Last(es).stream.sid == sid) && NotReused(Front(es), sid))
  }

  // What ends a live stream: a failing write, a Refused, the end of its read loop, or its client's streams being
  // disabled or swept away.
  ghost predicate Ends(s: StoreState, e: Event, sid: StreamId)
    requires Live(s, sid)
  {
    match e
    case FromClient(_, packet, _, socket, _) => (packet.Refused? && packet.sid == sid)
        || (packet.Data? && packet.sid == sid && socket.Broken?)
    case ReaderEnds(x) => x == sid
    case DisableOf(cid) => s.streams[sid].cid == cid
    case Accept(_, _) => false
    case Sweep(now) => s.streams[sid].cid in s.clients && s.clients[s.streams[sid].cid].CanCleanup(now)
  }

  // A stream is live after an event exactly if it was before and the event did not end it.
  lemma {:induction false} LiveStep(s: StoreState, e: Event, sid: StreamId)
    requires !(e.Accept? && e.stream.sid == sid)
    ensures Live(After(s, e), sid) <==> Live(s, sid) && !Ends(s, e, sid)
  {
    match e
    case FromClient(cid, packet, sink, socket, now) =>
    case ReaderEnds(x) =>
    case DisableOf(cid) =>
    case Accept(stream, peer) =>
    case Sweep(now) =>
  }

  // One event: the table entry records exactly what was put on the socket.
  lemma {:induction false} WriteStep(s: StoreState, e: Event, sid: StreamId)
    requires !(e.Accept? && e.stream.sid == sid)
    ensures Live(After(s, e), sid) ==>
              Live(s, sid) && Put(s, e, sid) == Payload(e, sid) &&
              After(s, e).streams[sid].written == s.streams[sid].written + Put(s, e, sid)
    ensures Put(s, e, sid) <= Payload(e, sid)
  {
    match e
    case FromClient(cid, packet, sink, socket, now) =>
    case ReaderEnds(x) =>
    case DisableOf(cid) =>
    case Accept(stream, peer) =>
    case Sweep(now) =>
  }

  // From any moment of its life on, the bytes written to the socket are a prefix of the payloads in arrival order,
  // and all of them while the stream is live.
  lemma {:induction false} WrittenIsPrefix(s: StoreState, es: seq<Event>, sid: StreamId)
    requires Live(s, sid) && NotReused(es, sid)
    ensures Wire(s, es, sid) <= Arrived(es, sid)
    ensures Live(AfterAll(s, es), sid) ==>
              && Wire(s, es, sid) == Arrived(es, sid)
              && AfterAll(s, es).streams[sid].written == s.streams[sid].written + Wire(s, es, sid)
  {
    if es == [] {
    } else {
      hide After, Live, Put, Payload;
      WrittenIsPrefix(s, Front(es), sid);
      WriteStep(AfterAll(s, Front(es)), Last(es), sid);
      if !Live(AfterAll(s, Front(es)), sid) {
        DeadPutsNothing(AfterAll(s, Front(es)), Last(es), sid);
      }
    }
  }

  lemma {:induction false} DeadPutsNothing(s: StoreState, e: Event, sid: StreamId)
    requires !Live(s, sid)
    ensures Put(s, e, sid) == []
  {
  }

  // Once a write failed or the stream was disabled or swept away, nothing more is ever written: no event re-enables it.
  lemma {:induction false} DeadForever(s: StoreState, es: seq<Event>, i: nat, sid: StreamId)
    requires i <= |es| && NotReused(es, sid) && !Live(AfterAll(s, es[..i]), sid)
    ensures !Live(AfterAll(s, es), sid) && Wire(s, es, sid) == Wire(s, es[..i], sid)
    decreases |es|
  {
    hide After, Live, Put, Payload;
    if i == |es| {
      assert es[..i] == es;
    } else {
      assert Front(es)[..i] == es[..i];
      DeadForever(s, Front(es), i, sid);
      WriteStep(AfterAll(s, Front(es)), Last(es), sid);
      DeadPutsNothing(AfterAll(s, Front(es)), Last(es), sid);
    }
  }

  // Event k found the stream live and ended it.
  ghost predicate EndedAt(s: StoreState, es: seq<Event>, k: nat, sid: StreamId)
    requires k < |es|
  {
    Live(AfterAll(s, es[..k]), sid) && Ends(AfterAll(s, es[..k]), es[k], sid)
  }

  // So a registered stream is live after any sequence of events exactly if none of them ended it.
  lemma {:induction false} LiveExactly(s: StoreState, es: seq<Event>, sid: StreamId)
    requires Live(s, sid) && NotReused(es, sid)
    ensures Live(AfterAll(s, es), sid) <==> forall k | 0 <= k < |es| :: !EndedAt(s, es, k, sid)
  {
    hide After, Live, Ends;
    if es != [] {
      var front, n := Front(es), |es| - 1;
      LiveExactly(s, front, sid);
      LiveStep(AfterAll(s, front), Last(es), sid);
      forall k | 0 <= k < n ensures EndedAt(s, es, k, sid) <==> EndedAt(s, front, k, sid) {
        assert es[..k] == front[..k] && es[k] == front[k];
      }
      assert es[..n] == front;
      assert EndedAt(s, es, n, sid) <==> Live(AfterAll(s, front), sid) && Ends(AfterAll(s, front), Last(es), sid);
    }
  }
}
