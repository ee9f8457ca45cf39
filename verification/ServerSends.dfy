// What sending a packet to a client comes to, whoever sends it.
module ServerSends {
  import opened Wrappers
  import opened Protocol
  import opened ServerModel

  // What was put into the client's WebSocket.
  function SentTo(s: StoreState, cid: ClientId): seq<Packet> {
    if cid in s.clients then s.clients[cid].wsTx else []
  }

  predicate CanSend(s: StoreState, cid: ClientId) {
    cid in s.clients && s.clients[cid].state.Connected?
  }

  // A send succeeds exactly if the client is registered and connected and its WebSocket takes the packet, which is then
  // its last; a failed write, and nothing else, ends that.
  lemma {:induction false} SendExactly(s: StoreState, cid: ClientId, p: Packet, sink: SinkOutcome, now: int)
    ensures var (t, r) := s.SendToClient(cid, p, sink, now);
            && (r.Success? <==> CanSend(s, cid) && sink.Accepted?)
            && SentTo(t, cid) == SentTo(s, cid) + (if CanSend(s, cid) && sink.Accepted? then [p] else [])
            && (CanSend(t, cid) <==> CanSend(s, cid) && !sink.WriteFails?)
            && (r == Failure(ClientNotFound(cid)) <==> cid !in s.clients)
            && (r == Failure(ClientWriteError) <==> CanSend(s, cid) && sink.WriteFails?)
            && (r == Failure(EncodeError) <==> CanSend(s, cid) && sink.EncodeFails?)
  {
  }

  // Nothing but that client's state and WebSocket changes.
  lemma {:induction false} SendTouchesOneClient(s: StoreState, cid: ClientId, p: Packet, sink: SinkOutcome, now: int)
    ensures var t := s.SendToClient(cid, p, sink, now).0;
            && t == s.(clients := t.clients) && t.clients.Keys == s.clients.Keys
            && (forall c | c in s.clients && c != cid :: t.clients[c] == s.clients[c])
            && (cid in s.clients ==>
                  t.clients[cid] == s.clients[cid].(state := t.clients[cid].state, wsTx := t.clients[cid].wsTx))
  {
  }

  // Sending to a remote stream succeeds exactly if it is registered and enabled and its socket takes the bytes; a
  // failure of the socket, and nothing else, disables it.
  lemma {:induction false} RemoteSendExactly(s: StoreState, sid: StreamId, data: seq<byte>, socket: SocketOutcome)
    ensures var (t, r) := s.SendToRemote(sid, data, socket);
            var enabled := sid in s.streams && s.streams[sid].enabled;
            && (r.Success? <==> enabled && socket.Written?)
            && (r == Failure(StreamNotAvailable(sid)) <==> !enabled)
            && t == s.(streams := t.streams) && t.streams.Keys == s.streams.Keys
            && (forall x | x in s.streams && (x != sid || !enabled) :: t.streams[x] == s.streams[x])
            && (enabled && s.streams[sid].TcpView? ==>
                  var passed := if socket.Written? || socket.partial >= |data| then data else data[..socket.partial];
                  t.streams[sid] ==
                  s.streams[sid].(enabled := socket.Written?, written := s.streams[sid].written + passed))
            && (enabled && s.streams[sid].UdpView? ==>
                  var passed := if socket.Written? then [data] else [];
                  t.streams[sid] ==
                  s.streams[sid].(enabled := socket.Written?, datagrams := s.streams[sid].datagrams + passed))
  {
  }
}
