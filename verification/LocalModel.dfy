// The client's stream table and per-stream queues as plain values (ownserver/src/lib.rs, ownserver/src/local/tcp.rs).
// LocalStore.dfy proves the imperative code against these functions; Tunnel.dfy runs them interleaved.
module LocalModel {
  import opened Wrappers
  import opened Sequences
  import opened Protocol

  datatype StreamMessage = Bytes(data: seq<byte>) | Close

  // Running: the writer task still holds the receiving end. Broken: it returned on a failed write.
  // Shut: it shut the local socket down.
  datatype WriterState = Running | Broken | Shut

  // One unbounded channel with its writer: everything ever sent into it, how much was taken out, and the bytes
  // written to the local socket.
  datatype Queue = Queue(sid: StreamId, sent: seq<StreamMessage>, taken: nat, written: seq<byte>, writer: WriterState)
  {
    // Sending fails once the receiver is gone.
    function Send(m: StreamMessage): (Queue, bool) {
      if writer.Running? then (this.(sent := sent + [m]), true) else (this, false)
    }

    // One iteration of forward_to_local_tcp with a message waiting.
    function Take(ok: bool, partial: nat): Queue
      requires taken < |sent|
    {
      match sent[taken]
      case Bytes(data) =>
        if ok then this.(taken := taken + 1, written := written + data)
        else this.(taken := taken + 1, written := written + (if partial < |data| then data[..partial] else data),
            writer := Broken)
      case Close => this.(taken := taken + 1, writer := Shut)
    }
  }

  // What connecting to the local service and sending on the WebSocket do.
  datatype Surroundings = Surroundings(connectOk: bool, sendOk: bool)

  datatype LocalState = LocalState(
    streams: map<StreamId, nat>,          // the queue of each active stream
    queues: map<nat, Queue>,              // every queue ever made
    nextQueue: nat,
    endpoints: map<EndpointId, Endpoint>,
    connected: bool,                      // whether a Client is registered
    reconnectToken: Option<Token>,
    ending: multiset<StreamId>,           // End packets whose spawned code has not run yet
    holding: set<nat>)                    // queues taken out by it, Close still to be sent
  {
    function ToServer(packet: Packet, env: Surroundings): (seq<Packet>, bool) {
      if connected && env.sendOk then ([packet], true) else ([], false)
    }

    function AddStream(sid: StreamId): LocalState {
      this.(streams := streams[sid := nextQueue], queues := queues[nextQueue := Queue(sid, [], 0, [], Running)],
            nextQueue := nextQueue + 1)
    }

    function RemoveStream(sid: StreamId): LocalState {
      this.(streams := streams - {sid})
    }

    function Enqueue(q: nat, m: StreamMessage): (LocalState, bool)
      requires q in queues
    {
      var (queue, ok) := queues[q].Send(m);
      (this.(queues := queues[q := queue]), ok)
    }

    // process_control_flow_message: the new state, the packets sent to the server, and whether it returned Ok.
    function Process(packet: Packet, env: Surroundings): (LocalState, seq<Packet>, bool) {
      match packet
      case Init(sid, eid, _) =>
        if eid !in endpoints || sid in streams then (this, [], false)
        else if env.connectOk then (AddStream(sid), [], true)
        else if endpoints[eid].protocol == TCP then (this, ToServer(Refused(sid), env).0, false)
        else (this, [], false)
      case Ping(seqNo, at, t) =>
        (if t.Some? then this.(reconnectToken := t) else this, ToServer(Pong(seqNo, at), env).0, true)
      case Pong(_, _) => (this, [], true)
      case Refused(_) => (this, [], false)
      case End(sid) => (this.(ending := ending + multiset{sid}), [], true)
      case Data(sid, data) =>
        if sid in streams && streams[sid] in queues then
          var (s, ok) := Enqueue(streams[sid], Bytes(data)); (s, [], ok)
        else
          var (out, ok) := ToServer(Refused(sid), env); (this, out, ok)
    }

    // What is spawned for an End packet: first it takes the entry out, after its sleep it sends Close.
    function EndTaskRemoves(sid: StreamId): LocalState {
      var s := this.(ending := ending - multiset{sid});
      if sid in streams then s.RemoveStream(sid).(holding := holding + {streams[sid]}) else s
    }

    function EndTaskCloses(q: nat): LocalState
      requires q in queues
    {
      Enqueue(q, Close).0.(holding := holding - {q})
    }

    function WriterTakes(q: nat, ok: bool, partial: nat): LocalState
      requires q in queues && queues[q].taken < |queues[q].sent|
    {
      this.(queues := queues[q := queues[q].Take(ok, partial)])
    }

    // All senders gone and nothing left to take: the writer shuts the socket down.
    function WriterEnds(q: nat): LocalState
      requires q in queues
    {
      this.(queues := queues[q := queues[q].(writer := Shut)])
    }
  }
}
