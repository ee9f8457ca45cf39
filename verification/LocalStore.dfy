// ownserver/src/lib.rs and ownserver/src/local/tcp.rs: the client's tables and the packet dispatcher, updated in place.
module LocalClient {
  import opened Wrappers
  import opened Sequences
  import opened Protocol
  import opened LocalModel

  // The sending half of a stream's channel together with what its writer has done.
  class Channel {
    const id: nat
    const sid: StreamId
    var sent: seq<StreamMessage>
    var taken: nat
    var written: seq<byte>
    var writer: WriterState

    ghost function View(): Queue
      reads this
    {
      Queue(sid, sent, taken, written, writer)
    }

    constructor (id: nat, sid: StreamId)
      ensures this.id == id && View() == Queue(sid, [], 0, [], Running)
    {
      this.id, this.sid, sent, taken, written, writer := id, sid, [], 0, [], Running;
    }

    method Send(m: StreamMessage) returns (ok: bool)
      modifies this
      ensures (View(), ok) == old(View()).Send(m)
    {
      ok := writer.Running?;
      if ok {
        sent := sent + [m];
      }
    }

    // One iteration of forward_to_local_tcp with a message waiting.
    method Forward(ok: bool, partial: nat)
      requires taken < |sent|
      modifies this
      ensures View() == old(View()).Take(ok, partial)
    {
      match sent[taken] {
        case Bytes(data) =>
          if ok {
            written := written + data;
          } else {
            written := written + if partial < |data| then data[..partial] else data;
            writer := Broken;
          }
        case Close =>
          writer := Shut;
      }
      taken := taken + 1;
    }
  }

  // What reading the local socket and sending it on bring; an empty read is the end of the stream.
  datatype LocalRead = Got(data: seq<byte>, env: Surroundings) | ReadError

  function DataPackets(input: seq<LocalRead>, sid: StreamId): seq<Packet> {
    if input == [] then []
    else DataPackets(Front(input), sid) + if Last(input).Got? then [Data(sid, Last(input).data)] else []
  }

  // Reads that all got something become one Data each, in their order.
  lemma {:induction false} OneDataPerRead(input: seq<LocalRead>, sid: StreamId)
    requires forall k :: 0 <= k < |input| ==> input[k].Got?
    ensures |DataPackets(input, sid)| == |input|
    ensures forall k :: 0 <= k < |input| ==> DataPackets(input, sid)[k] == Data(sid, input[k].data)
  {
    if input != [] {
      OneDataPerRead(Front(input), sid);
    }
  }

  class Store {
    var streams: map<StreamId, nat>
    var channels: map<nat, Channel>
    var nextChannel: nat
    var endpointsMap: map<EndpointId, Endpoint>
    var connected: bool
    var reconnectToken: Option<Token>
    var ending: multiset<StreamId>
    var holding: set<nat>
    var toServer: seq<Packet>        // what was sent on the WebSocket
    ghost var owned: set<object>

    ghost predicate Valid()
      reads this
    {
      && this !in owned
      && (forall c | c in channels :: channels[c] in owned && channels[c].id == c < nextChannel)
      && (forall s | s in streams :: streams[s] in channels)
    }

    ghost function Queues(): map<nat, Queue>
      requires Valid()
      reads this, owned
    {
      map c | c in channels :: channels[c].View()
    }

    ghost function View(): LocalState
      requires Valid()
      reads this, owned
    {
      LocalState(streams, Queues(), nextChannel, endpointsMap, connected, reconnectToken, ending, holding)
    }

    constructor ()
      ensures Valid() && owned == {} && toServer == []
      ensures View() == LocalState(map[], map[], 0, map[], false, None, multiset{}, {})
    {
      streams, channels, nextChannel, endpointsMap := map[], map[], 0, map[];
      connected, reconnectToken, ending, holding, toServer, owned := false, None, multiset{}, {}, [], {};
    }

    method SendToServer(packet: Packet, env: Surroundings) returns (ok: bool)
      requires Valid()
      modifies this`toServer
      ensures Valid() && View() == old(View())
      ensures ok == View().ToServer(packet, env).1 && toServer == old(toServer) + View().ToServer(packet, env).0
      ensures (ok <==> connected && env.sendOk) && toServer == if ok then old(toServer) + [packet] else old(toServer)
    {
      ok := connected && env.sendOk;
      if ok {
        toServer := toServer + [packet];
      }
    }

    // setup_new_stream once the local connection is up.
    method AddStream(sid: StreamId)
      requires Valid()
      modifies this`streams, this`channels, this`nextChannel, this`owned
      ensures Valid() && fresh(owned - old(owned)) && View() == old(View()).AddStream(sid)
    {
      ghost var was := Queues();
      var channel := new Channel(nextChannel, sid);
      channels := channels[nextChannel := channel];
      streams := streams[sid := nextChannel];
      nextChannel := nextChannel + 1;
      owned := owned + {channel};
      assert Queues() == was[nextChannel - 1 := channel.View()];
    }

    method SendToLocal(c: nat, m: StreamMessage) returns (ok: bool)
      requires Valid() && c in channels
      modifies owned
      ensures Valid() && (View(), ok) == old(View()).Enqueue(c, m)
    {
      ghost var was := Queues();
      ok := channels[c].Send(m);
      assert Queues() == was[c := was[c].Send(m).0];
    }

    method RemoveStream(sid: StreamId)
      requires Valid()
      modifies this`streams
      ensures Valid() && View() == old(View()).RemoveStream(sid)
    {
      streams := streams - {sid};
    }

    // What is spawned for an End packet, before and after its sleep.
    method EndTaskRemoves(sid: StreamId)
      requires Valid()
      modifies this`streams, this`ending, this`holding
      ensures Valid() && View() == old(View()).EndTaskRemoves(sid)
    {
      if sid in streams {
        var queue := streams[sid];
        RemoveStream(sid);
        ending, holding := ending - multiset{sid}, holding + {queue};
      } else {
        ending := ending - multiset{sid};
      }
    }

    method EndTaskCloses(c: nat)
      requires Valid() && c in channels
      modifies this`holding, owned
      ensures Valid() && View() == old(View()).EndTaskCloses(c)
    {
      var _ := SendToLocal(c, Close);
      holding := holding - {c};
    }

    method WriterTakes(c: nat, ok: bool, partial: nat)
      requires Valid() && c in channels && channels[c].taken < |channels[c].sent|
      modifies owned
      ensures Valid() && View() == old(View()).WriterTakes(c, ok, partial)
    {
      ghost var was := Queues();
      channels[c].Forward(ok, partial);
      assert Queues() == was[c := was[c].Take(ok, partial)];
    }

    // The reading half of a local stream: the first n reads, and exactly those, go to the server as Data in order; the
    // first read that fails, is empty or cannot be sent ends the loop, and the stream's entry is removed.
    method ProcessLocalTcp(sid: StreamId, input: seq<LocalRead>) returns (n: nat)
      requires Valid()
      modifies this`toServer, this`streams
      ensures Valid() && n <= |input|
      ensures toServer == old(toServer) + DataPackets(input[..n], sid)
      ensures forall k :: 0 <= k < n ==> input[k].Got? && input[k].data != [] && connected && input[k].env.sendOk
      ensures n < |input| ==> input[n].ReadError? || input[n].data == [] || !connected || !input[n].env.sendOk
      ensures View() == if n < |input| then old(View()).RemoveStream(sid) else old(View())
    {
      n := 0;
      while n < |input|
        invariant Valid() && n <= |input| && View() == old(View())
        invariant toServer == old(toServer) + DataPackets(input[..n], sid)
        invariant forall k :: 0 <= k < n ==> input[k].Got? && input[k].data != [] && connected && input[k].env.sendOk
      {
        TakeSnoc(input, n);
        if input[n].ReadError? || input[n].data == [] {
          RemoveStream(sid);
          return;
        }
        var ok := SendToServer(Data(sid, input[n].data), input[n].env);
        if !ok {
          RemoveStream(sid);
          return;
        }
        n := n + 1;
      }
    }

    method ProcessControlFlowMessage(packet: Packet, env: Surroundings) returns (ok: bool)
      requires Valid()
      modifies this, owned
      ensures Valid() && fresh(owned - old(owned))
      ensures var (state, out, good) := old(View()).Process(packet, env);
              View() == state && toServer == old(toServer) + out && ok == good
    {
      hide LocalState.ToServer, LocalState.Enqueue, LocalState.AddStream;
      match packet
      case Init(sid, eid, _) => ok := ProcessInit(sid, eid, env);
      case Ping(seqNo, at, t) => ok := ProcessPing(seqNo, at, t, env);
      case Pong(_, _) => ok := true;
      case Refused(_) => ok := false;
      case End(sid) =>
        ending := ending + multiset{sid};
        ok := true;
      case Data(sid, data) => ok := ProcessData(sid, data, env);
    }

    method ProcessPing(seqNo: nat, at: int, t: Option<Token>, env: Surroundings) returns (ok: bool)
      requires Valid()
      modifies this`toServer, this`reconnectToken
      ensures Valid()
      ensures var (state, out, good) := old(View()).Process(Ping(seqNo, at, t), env);
              View() == state && toServer == old(toServer) + out && ok == good
    {
      hide LocalState.ToServer;
      var _ := SendToServer(Pong(seqNo, at), env);
      if t.Some? {
        reconnectToken := t;
      }
      return true;
    }

    method ProcessData(sid: StreamId, data: seq<byte>, env: Surroundings) returns (ok: bool)
      requires Valid()
      modifies this`toServer, owned
      ensures Valid()
      ensures var (state, out, good) := old(View()).Process(Data(sid, data), env);
              View() == state && toServer == old(toServer) + out && ok == good
    {
      hide LocalState.ToServer, LocalState.Enqueue;
      if sid in streams {
        ok := SendToLocal(streams[sid], Bytes(data));
      } else {
        ok := SendToServer(Refused(sid), env);
      }
    }

    method ProcessInit(sid: StreamId, eid: EndpointId, env: Surroundings) returns (ok: bool)
      requires Valid()
      modifies this, owned
      ensures Valid() && fresh(owned - old(owned))
      ensures var (state, out, good) := old(View()).Process(Init(sid, eid, 0), env);
              View() == state && toServer == old(toServer) + out && ok == good
    {
      if eid !in endpointsMap {
        return false;
      }
      if sid in streams {
        return false;
      }
      if !env.connectOk {
        if endpointsMap[eid].protocol == TCP {
          var _ := SendToServer(Refused(sid), env);
        }
        return false;
      }
      AddStream(sid);
      return true;
    }
  }
}
