// The state of the server's tables as plain values, and what each operation of the source does to it.
// The classes in ServerClient.dfy, RemoteStream.dfy and Store.dfy are proved to compute these functions;
// the state machines over whole runs are built from them.
//
// Outside events become arguments: the clock (`now`), and what a socket or WebSocket does with a
// message (`SinkOutcome`, `SocketOutcome`). A cancellation token is a number, and `fired` is the set of
// cancelled child tokens.
module ServerModel {
  import opened Wrappers
  import opened Sequences
  import opened Protocol
  import opened PortAllocation

  // ---------- ownserver_server/src/client.rs ----------

  datatype ClientState = Connected | WaitReconnect(expires: int)

  datatype SendToClientError = EncodeError | ClientWriteError | ClientNotFound(cid: ClientId)
      | ClientNotConnected(cid: ClientId)

  datatype SinkOutcome = Accepted | EncodeFails | WriteFails

  datatype ClientView = ClientView(clientId: ClientId, endpoints: seq<Endpoint>, token: nat, window: int,
                                   state: ClientState, wsTx: seq<Packet>)
  {
    predicate CanCleanup(now: int) {
      state.WaitReconnect? && now >= state.expires
    }

    function SetWaitReconnect(now: int): ClientView {
      if state.Connected? then this.(state := WaitReconnect(now + window)) else this
    }

    function SendToClient(packet: Packet, sink: SinkOutcome, now: int): (ClientView, Result<(), SendToClientError>) {
      if !state.Connected? then (this, Failure(ClientNotConnected(clientId)))
      else
        match sink
        case EncodeFails => (this, Failure(EncodeError))
        case WriteFails => (SetWaitReconnect(now), Failure(ClientWriteError))
        case Accepted => (this.(wsTx := wsTx + [packet]), Success(()))
    }
  }

  // ---------- ownserver_server/src/remote/ ----------

  datatype SendToRemoteError = StreamNotAvailable(sid: StreamId) | RemoteWriteError

  // A failed TCP write may have passed on the first few bytes.
  datatype SocketOutcome = Written | Broken(partial: nat)

  datatype StreamView =
    | TcpView(sid: StreamId, cid: ClientId, eid: EndpointId, peer: Addr, enabled: bool, written: seq<byte>)
    | UdpView(sid: StreamId, cid: ClientId, eid: EndpointId, peer: Addr, enabled: bool, datagrams: seq<seq<byte>>)
  {
    function Disable(): StreamView {
      this.(enabled := false)
    }

    function SendToRemote(id: StreamId, data: seq<byte>, socket: SocketOutcome): (StreamView,
        Result<(), SendToRemoteError>) {
      if !enabled then (this, Failure(StreamNotAvailable(id)))
      else if socket.Written? then
        (if TcpView? then this.(written := written + data) else this.(datagrams := datagrams + [data]), Success(()))
      else
        (if TcpView? then this.(written := written + Prefix(data, socket.partial), enabled := false) else Disable(),
         Failure(RemoteWriteError))
    }
  }

  function Prefix(data: seq<byte>, n: nat): seq<byte> {
    if n < |data| then data[..n] else data
  }

  // ---------- ownserver_server/src/store.rs ----------

  datatype StoreState = StoreState(
    streams: map<StreamId, StreamView>,
    clients: map<ClientId, ClientView>,
    addrs: map<Addr, StreamId>,
    endpoints: map<EndpointId, Endpoint>,
    available: set<u16>, lo: u16, hi: u16,
    fired: set<nat>)
  {
    // Every table entry is stored under its own id.
    ghost predicate Keyed() {
      && (forall c | c in clients :: clients[c].clientId == c)
      && (forall s | s in streams :: streams[s].sid == s)
    }

    function SendToClient(cid: ClientId, packet: Packet, sink: SinkOutcome, now: int): (StoreState,
        Result<(), SendToClientError>) {
      if cid in clients then
        var (c, r) := clients[cid].SendToClient(packet, sink, now);
        (this.(clients := clients[cid := c]), r)
      else (this, Failure(ClientNotFound(cid)))
    }

    function SendToRemote(sid: StreamId, data: seq<byte>, socket: SocketOutcome): (StoreState,
        Result<(), SendToRemoteError>) {
      if sid in streams then
        var (s, r) := streams[sid].SendToRemote(sid, data, socket);
        (this.(streams := streams[sid := s]), r)
      else (this, Failure(StreamNotAvailable(sid)))
    }

    function DisableRemote(sid: StreamId): StoreState {
      if sid in streams then this.(streams := streams[sid := streams[sid].Disable()]) else this
    }

    function DisableRemoteByClients(cids: set<ClientId>): StoreState {
      this.(streams := map s | s in streams :: if streams[s].cid in cids then streams[s].Disable() else streams[s])
    }

    function SetWaitReconnect(cid: ClientId, now: int): StoreState {
      if cid in clients then this.(clients := clients[cid := clients[cid].SetWaitReconnect(now)]) else this
    }

    function AddClient(c: ClientView): StoreState {
      this.(clients := clients[c.clientId := c])
    }

    function RemoveClient(cid: ClientId): StoreState {
      this.(clients := clients - {cid})
    }

    // Dropping a Client value: its child token fires exactly when the client could be cleaned up.
    function DropClient(c: ClientView, now: int): StoreState {
      if c.CanCleanup(now) then this.(fired := fired + {c.token}) else this
    }

    function AddRemote(s: StreamView, peerAddr: Addr): StoreState {
      this.(streams := streams[s.sid := s], addrs := addrs[peerAddr := s.sid])
    }

    function FindStreamIdByAddr(addr: Addr): Option<StreamId> {
      EnabledAt(streams, addrs, addr)
    }

    function RegisterEndpoints(eps: seq<Endpoint>): StoreState {
      this.(available := available - RemotePorts(eps), endpoints := WithEndpoints(endpoints, eps))
    }

    function ReleaseEndpoint(eid: EndpointId): (StoreState, Result<(), PortAllocatorError>) {
      if eid in endpoints then
        var (r, ports) := Release(available, lo, hi, endpoints[eid].remotePort);
        (this.(available := ports), r)
      else (this, Failure(PortOutOfRange))
    }

    function ExpiredClients(now: int): set<ClientId> {
      set c | c in clients && clients[c].CanCleanup(now)
    }

    function EndpointIdsOf(cids: set<ClientId>): set<EndpointId> {
      set c, e | c in cids && c in clients && e in clients[c].endpoints :: e.id
    }

    // The ports that releasing these endpoints puts back, whatever the order.
    function ReleasedPorts(eids: set<EndpointId>): set<u16> {
      set e | e in eids && e in endpoints && lo <= endpoints[e].remotePort < hi :: endpoints[e].remotePort
    }

    function TokensOf(cids: set<ClientId>): set<nat> {
      set c | c in cids && c in clients :: clients[c].token
    }

    function Cleanup(now: int): StoreState {
      var gone := ExpiredClients(now);
      this.(clients := clients - gone,
            available := available + ReleasedPorts(EndpointIdsOf(gone)),
            streams := map s | s in streams && streams[s].enabled && streams[s].cid !in gone :: streams[s],
            fired := fired + TokensOf(gone))
    }
  }

  // The stream the index names for the address, if it is still there and enabled.
  function EnabledAt(streams: map<StreamId, StreamView>, addrs: map<Addr, StreamId>, addr: Addr): Option<StreamId> {
    if addr in addrs && addrs[addr] in streams && streams[addrs[addr]].enabled then Some(streams[addrs[addr]].sid)
    else None
  }

  function WithEndpoints(m: map<EndpointId, Endpoint>, eps: seq<Endpoint>): map<EndpointId, Endpoint> {
    if eps == [] then m else WithEndpoints(m, Front(eps))[Last(eps).id := Last(eps)]
  }
}
