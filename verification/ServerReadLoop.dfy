// What the read loop of a client does to the remote streams and to its own client, packet by packet and as a whole.
module ServerReadLoop {
  import opened Wrappers
  import opened Sequences
  import opened Protocol
  import opened ServerModel
  import opened ServerSends
  import opened ControlServer
  import RemoteWriter

  // ---------- one packet ----------

  // What passes a failing write.
  function Passed(data: seq<byte>, socket: SocketOutcome): seq<byte> {
    if socket.Written? || socket.partial >= |data| then data else data[..socket.partial]
  }

  // A Data packet goes to the stream it names, if that is enabled; a Refused and a failing write disable it; no other
  // packet and no other stream is concerned.
  lemma {:induction false} DispatchOnStream(s: StoreState, cid: ClientId, p: Packet, sink: SinkOutcome,
      socket: SocketOutcome, now: int, sid: StreamId)
    requires sid in s.streams
    ensures var was, t := s.streams[sid], Dispatch(s, cid, p, sink, socket, now);
            && sid in t.streams
            && var now', hit := t.streams[sid], p.Data? && p.sid == sid && was.enabled;
               && (now'.enabled <==> was.enabled && !(p.Refused? && p.sid == sid) && !(hit && socket.Broken?))
               && (was.TcpView? ==>
                     && now'.TcpView? && now'.written == was.written + if hit then Passed(p.data, socket) else [])
               && (was.UdpView? ==>
                     && now'.UdpView?
                     && now'.datagrams == was.datagrams + if hit && socket.Written? then [p.data] else [])
  {
  }

  // A Ping is answered with its Pong exactly if the client is connected and its WebSocket takes it; nothing else is
  // answered, and no other client and no other table is concerned.
  lemma {:induction false} DispatchOnClients(s: StoreState, cid: ClientId, p: Packet, sink: SinkOutcome,
      socket: SocketOutcome, now: int)
    ensures var t := Dispatch(s, cid, p, sink, socket, now);
            && t == s.(streams := t.streams, clients := t.clients)
            && t.streams.Keys == s.streams.Keys && t.clients.Keys == s.clients.Keys
            && SentTo(t, cid) ==
               SentTo(s, cid) + (if p.Ping? && CanSend(s, cid) && sink.Accepted? then [Pong(p.seqNo, p.at)] else [])
            && (CanSend(t, cid) <==> CanSend(s, cid) && !(p.Ping? && sink.WriteFails?))
            && (forall c | c in s.clients && c != cid :: t.clients[c] == s.clients[c])
  {
    if p.Ping? {
      SendExactly(s, cid, Pong(p.seqNo, p.at), sink, now);
      SendTouchesOneClient(s, cid, Pong(p.seqNo, p.at), sink, now);
    }
  }

  // ---------- the loop as a sequence of events ----------

  ghost predicate NoneClosed(ms: seq<Message>) {
    forall k | 0 <= k < |ms| :: !ms[k].Closed?
  }

  // The packets that arrived, in order.
  function EventsOf(cid: ClientId, ms: seq<Message>): seq<RemoteWriter.Event> {
    if ms == [] then []
    else
      EventsOf(cid, Front(ms)) +
      match Last(ms)
      case Arrived(packet, sink, socket, now) => [RemoteWriter.FromClient(cid, packet, sink, socket, now)]
      case Unparsable => []
      case Closed(_) => []
  }

  // Until the WebSocket closes the loop is exactly the sequence of these events, so whatever holds of them holds of it.
  lemma {:induction false} LoopIsItsEvents(s: StoreState, cid: ClientId, ms: seq<Message>)
    requires NoneClosed(ms)
    ensures AfterMessages(s, cid, ms) == (RemoteWriter.AfterAll(s, EventsOf(cid, ms)), true)
  {
    if ms != [] {
      var front := Front(ms);
      assert forall k | 0 <= k < |front| :: front[k] == ms[k];
      LoopIsItsEvents(s, cid, front);
      assert !ms[|ms| - 1].Closed?;
      if Last(ms).Arrived? {
        var m := Last(ms);
        Snoc(EventsOf(cid, front), RemoteWriter.FromClient(cid, m.packet, m.sink, m.socket, m.now));
      } else {
        assert EventsOf(cid, ms) == EventsOf(cid, front);
      }
      hide Dispatch;
    }
  }

  // When it closes, the loop marks its client id and reads no further.
  lemma {:induction false} LoopEndsAtClose(s: StoreState, cid: ClientId, ms: seq<Message>, k: nat)
    requires k < |ms| && ms[k].Closed? && NoneClosed(ms[..k])
    ensures AfterMessages(s, cid, ms) ==
            (RemoteWriter.AfterAll(s, EventsOf(cid, ms[..k])).SetWaitReconnect(cid, ms[k].now), false)
  {
    hide Dispatch;
    if k == |ms| - 1 {
      LoopIsItsEvents(s, cid, ms[..k]);
      hide RemoteWriter.AfterAll;
    } else {
      assert Front(ms)[..k] == ms[..k];
      LoopEndsAtClose(s, cid, Front(ms), k);
      hide RemoteWriter.AfterAll;
    }
  }

  // ---------- what reaches the remote side ----------

  function BytesFor(ms: seq<Message>, sid: StreamId): seq<byte> {
    if ms == [] then []
    else
      BytesFor(Front(ms), sid) +
      if Last(ms).Arrived? && Last(ms).packet.Data? && Last(ms).packet.sid == sid then Last(ms).packet.data else []
  }

  function DatagramsFor(ms: seq<Message>, sid: StreamId): seq<seq<byte>> {
    if ms == [] then []
    else
      DatagramsFor(Front(ms), sid) +
      if Last(ms).Arrived? && Last(ms).packet.Data? && Last(ms).packet.sid == sid then [Last(ms).packet.data] else []
  }

  // Nothing refuses the stream, and its socket takes every payload.
  ghost predicate AllWritten(ms: seq<Message>, sid: StreamId) {
    forall k | 0 <= k < |ms| && ms[k].Arrived? ::
      && ms[k].packet != Refused(sid)
      && (ms[k].packet.Data? && ms[k].packet.sid == sid ==> ms[k].socket.Written?)
  }

  // An enabled TCP stream then gets every payload addressed to it, in arrival order, and stays enabled.
  lemma {:induction false} LoopWrites(s: StoreState, cid: ClientId, ms: seq<Message>, sid: StreamId)
    requires sid in s.streams && s.streams[sid].enabled && s.streams[sid].TcpView?
    requires NoneClosed(ms) && AllWritten(ms, sid)
    ensures var (t, running) := AfterMessages(s, cid, ms);
            && running && sid in t.streams && t.streams[sid].enabled && t.streams[sid].TcpView?
            && t.streams[sid].written == s.streams[sid].written + BytesFor(ms, sid)
  {
    if ms != [] {
      AllWrittenFront(ms, sid);
      LoopWrites(s, cid, Front(ms), sid);
      var t, m := AfterMessages(s, cid, Front(ms)).0, ms[|ms| - 1];
      assert m == Last(ms);
      if m.Arrived? {
        DispatchOnStream(t, cid, m.packet, m.sink, m.socket, m.now, sid);
      }
      hide Dispatch, NoneClosed, AllWritten;
    }
  }

  // And an enabled UDP stream every datagram.
  lemma {:induction false} LoopSendsDatagrams(s: StoreState, cid: ClientId, ms: seq<Message>, sid: StreamId)
    requires sid in s.streams && s.streams[sid].enabled && s.streams[sid].UdpView?
    requires NoneClosed(ms) && AllWritten(ms, sid)
    ensures var (t, running) := AfterMessages(s, cid, ms);
            && running && sid in t.streams && t.streams[sid].enabled && t.streams[sid].UdpView?
            && t.streams[sid].datagrams == s.streams[sid].datagrams + DatagramsFor(ms, sid)
  {
    if ms != [] {
      AllWrittenFront(ms, sid);
      LoopSendsDatagrams(s, cid, Front(ms), sid);
      var t, m := AfterMessages(s, cid, Front(ms)).0, ms[|ms| - 1];
      assert m == Last(ms);
      if m.Arrived? {
        DispatchOnStream(t, cid, m.packet, m.sink, m.socket, m.now, sid);
      }
      hide Dispatch, NoneClosed, AllWritten;
    }
  }

  lemma {:induction false} AllWrittenFront(ms: seq<Message>, sid: StreamId)
    requires ms != [] && NoneClosed(ms) && AllWritten(ms, sid)
    ensures NoneClosed(Front(ms)) && AllWritten(Front(ms), sid) && !Last(ms).Closed?
    ensures var m := Last(ms);
            m.Arrived? ==> m.packet != Refused(sid) && (m.packet.Data? && m.packet.sid == sid ==> m.socket.Written?)
  {
    var m := ms[|ms| - 1];
    assert m == Last(ms) && !m.Closed?;
    assert forall k | 0 <= k < |ms| - 1 :: Front(ms)[k] == ms[k];
  }

  // A Refused disables its stream, whatever else arrives before or after it.
  lemma {:induction false} LoopDisablesRefused(s: StoreState, cid: ClientId, ms: seq<Message>, sid: StreamId, k: nat)
    requires sid in s.streams && k < |ms| && ms[k].Arrived? && ms[k].packet == Refused(sid) && NoneClosed(ms)
    ensures var t := AfterMessages(s, cid, ms).0; sid in t.streams && !t.streams[sid].enabled
  {
    var front, m := Front(ms), ms[|ms| - 1];
    assert forall j | 0 <= j < |front| :: front[j] == ms[j];
    LoopKeepsStreams(s, cid, front);
    var t := AfterMessages(s, cid, front).0;
    if m.Arrived? {
      DispatchOnStream(t, cid, m.packet, m.sink, m.socket, m.now, sid);
    }
    if k < |ms| - 1 {
      LoopDisablesRefused(s, cid, front, sid, k);
    }
    hide Dispatch;
  }

  lemma {:induction false} LoopKeepsStreams(s: StoreState, cid: ClientId, ms: seq<Message>)
    requires NoneClosed(ms)
    ensures AfterMessages(s, cid, ms).1 && AfterMessages(s, cid, ms).0.streams.Keys == s.streams.Keys
  {
    if ms != [] {
      var front, m := Front(ms), ms[|ms| - 1];
      assert forall j | 0 <= j < |front| :: front[j] == ms[j];
      LoopKeepsStreams(s, cid, front);
      if m.Arrived? {
        DispatchOnClients(AfterMessages(s, cid, front).0, cid, m.packet, m.sink, m.socket, m.now);
      }
      hide Dispatch, SentTo, CanSend;
    }
  }
}
