// ownserver_server/src/control_server_v2.rs and the read loop of client.rs: what one connection does to the store.
module ControlServer {
  import opened Wrappers
  import opened Sequences
  import opened Protocol
  import opened PortAllocation
  import opened ServerModel
  import opened ServerClient
  import opened ServerStore

  const CLIENT_HELLO_VERSION: u16 := 2

  datatype ClientType = AuthClient | ReconnectClient

  datatype ClientHello = ClientHello(version: u16, token: Token, claims: seq<EndpointClaim>, clientType: ClientType)

  datatype HandshakeError = InvalidClientHello | InvalidJWT | IllegalHost | VersionMismatch

  datatype ServerHello =
    | HelloSuccess(cid: ClientId, host: nat, endpoints: seq<Endpoint>)
    | HelloBadRequest
    | HelloServiceTemporaryUnavailable
    | HelloIllegalHost
    | HelloVersionMismatch

  datatype ProvisioningAction = ProvisionNew(claims: seq<EndpointClaim>) | ProvisionReconnect(cid: ClientId)

  // Token checking is a library call: `authHost` gives the host of each token that verifies as an
  // authentication token, `reconnectClient` the client id of each that verifies as a reconnect token.
  datatype Config = Config(host: nat, reconnectWindow: int, authHost: map<Token, nat>,
      reconnectClient: map<Token, ClientId>)

  // A hello that does not parse is `None`.
  function ValidateClientHello(config: Config, hello: Option<ClientHello>): Result<ProvisioningAction, HandshakeError> {
    match hello
    case None => Failure(InvalidClientHello)
    case Some(h) =>
      if h.version != CLIENT_HELLO_VERSION then Failure(VersionMismatch)
      else
        match h.clientType
        case AuthClient =>
          if h.token !in config.authHost then Failure(InvalidJWT)
          else if config.authHost[h.token] != config.host then Failure(IllegalHost)
          else Success(ProvisionNew(h.claims))
        case ReconnectClient =>
          if h.token !in config.reconnectClient then Failure(InvalidJWT)
          else Success(ProvisionReconnect(config.reconnectClient[h.token]))
  }

  predicate IsCurrent(hello: Option<ClientHello>) {
    hello.Some? && hello.value.version == CLIENT_HELLO_VERSION
  }

  // A request for ports by someone whose token was issued for this host.
  predicate AuthVerifies(config: Config, hello: Option<ClientHello>) {
    && IsCurrent(hello) && hello.value.clientType.AuthClient?
    && hello.value.token in config.authHost && config.authHost[hello.value.token] == config.host
  }

  // A request to take over the client a reconnect token names.
  predicate ReconnectVerifies(config: Config, hello: Option<ClientHello>) {
    IsCurrent(hello) && hello.value.clientType.ReconnectClient? && hello.value.token in config.reconnectClient
  }

  // Exactly these two kinds of hello are let in, each for what it may ask.
  lemma {:induction false} AdmitsExactly(config: Config, hello: Option<ClientHello>)
    ensures forall claims :: ValidateClientHello(config, hello) == Success(ProvisionNew(claims)) <==>
              AuthVerifies(config, hello) && claims == hello.value.claims
    ensures forall cid :: ValidateClientHello(config, hello) == Success(ProvisionReconnect(cid)) <==>
              ReconnectVerifies(config, hello) && cid == config.reconnectClient[hello.value.token]
  {
  }

  function ErrorHello(e: HandshakeError): ServerHello {
    match e
    case InvalidClientHello => HelloBadRequest
    case InvalidJWT => HelloBadRequest
    case IllegalHost => HelloIllegalHost
    case VersionMismatch => HelloVersionMismatch
  }

  // The client a successful handshake registers.
  function NewClientView(cid: ClientId, eps: seq<Endpoint>, token: nat, config: Config): ClientView {
    ClientView(cid, eps, token, config.reconnectWindow, Connected, [])
  }

  // Ports are leased exactly if they can be; the client is registered exactly if its hello went out as well.
  ghost predicate ProvisionedNew(before: StoreState, after: StoreState, hello: ServerHello, config: Config,
      claims: seq<EndpointClaim>, cid: ClientId, firstId: nat, token: nat, helloSent: bool)
  {
    && (hello.HelloSuccess? <==> Grantable(claims, |before.available|))
    && (hello.HelloSuccess? ==>
          && hello.cid == cid && hello.host == config.host
          && IsGrant(claims, hello.endpoints, before.available, after.available, firstId)
          && var leased := before.RegisterEndpoints(hello.endpoints);
             after == if helloSent then leased.AddClient(NewClientView(cid, hello.endpoints, token, config))
                 else leased)
    && (!hello.HelloSuccess? ==> hello == HelloServiceTemporaryUnavailable && after == before)
  }

  // An unknown client is turned away without a word; a known one is replaced, or lost with its ports if the hello
  // fails.
  ghost predicate Reconnected(before: StoreState, after: StoreState, hello: Option<ServerHello>, config: Config,
      cid: ClientId, token: nat, helloSent: bool, now: int)
  {
    if cid !in before.clients then hello.None? && after == before
    else
      var client := before.clients[cid];
      var taken := before.RemoveClient(cid).DropClient(client, now);
      && hello == Some(HelloSuccess(cid, config.host, client.endpoints))
      && after == if helloSent then taken.AddClient(NewClientView(cid, client.endpoints, token, config)) else taken
  }

  // A connection whose first message has arrived, run without interruption.
  method HandleNewConnection(store: Store, config: Config, clientHello: Option<ClientHello>, cid: ClientId,
      firstId: nat, token: nat, helloSent: bool, now: int) returns (reply: Option<ServerHello>)
    requires store.Valid()
    modifies store, store.alloc, store.clientObjs
    ensures store.Valid()
    ensures AuthVerifies(config, clientHello) ==>
              && reply.Some?
              && ProvisionedNew(old(store.View()), store.View(), reply.value, config, clientHello.value.claims, cid,
                                firstId, token, helloSent)
    ensures ReconnectVerifies(config, clientHello) ==>
              Reconnected(old(store.View()), store.View(), reply, config,
                          config.reconnectClient[clientHello.value.token], token, helloSent, now)
    ensures !AuthVerifies(config, clientHello) && !ReconnectVerifies(config, clientHello) ==>
              store.View() == old(store.View())
    ensures reply == Some(HelloVersionMismatch) <==>
              clientHello.Some? && clientHello.value.version != CLIENT_HELLO_VERSION
    ensures reply == Some(HelloIllegalHost) <==>
              && IsCurrent(clientHello) && clientHello.value.clientType.AuthClient?
              && clientHello.value.token in config.authHost && config.authHost[clientHello.value.token] != config.host
    ensures reply == Some(HelloBadRequest) <==>
              || clientHello.None?
              || (IsCurrent(clientHello) && clientHello.value.clientType.AuthClient?
                  && clientHello.value.token !in config.authHost)
              || (IsCurrent(clientHello) && clientHello.value.clientType.ReconnectClient?
                  && clientHello.value.token !in config.reconnectClient)
    ensures reply == Some(HelloServiceTemporaryUnavailable) <==>
              AuthVerifies(config, clientHello) && !Grantable(clientHello.value.claims, |old(store.View()).available|)
    ensures reply.Some? && reply.value.HelloSuccess? <==>
              || (AuthVerifies(config, clientHello)
                  && Grantable(clientHello.value.claims, |old(store.View()).available|))
              || (ReconnectVerifies(config, clientHello)
                  && config.reconnectClient[clientHello.value.token] in old(store.View()).clients)
    ensures reply.None? <==>
              && ReconnectVerifies(config, clientHello)
              && config.reconnectClient[clientHello.value.token] !in old(store.View()).clients
  {
    var action := ValidateClientHello(config, clientHello);
    match action
    case Failure(e) => reply := Some(ErrorHello(e));
    case Success(ProvisionNew(claims)) =>
      var hello := HandleNewClient(store, config, claims, cid, firstId, token, helloSent);
      reply := Some(hello);
    case Success(ProvisionReconnect(c)) => reply := HandleReconnect(store, config, c, token, helloSent, now);
  }

  // The NewClient branch of handle_new_connection run without interruption. Ports are leased before the hello is
  // sent, so a failed hello leaves them leased to nobody.
  method HandleNewClient(store: Store, config: Config, claims: seq<EndpointClaim>, cid: ClientId, firstId: nat,
      token: nat, helloSent: bool) returns (hello: ServerHello)
    requires store.Valid()
    modifies store, store.alloc
    ensures store.Valid()
    ensures ProvisionedNew(old(store.View()), store.View(), hello, config, claims, cid, firstId, token, helloSent)
  {
    hello := ProcessClientClaims(store, config, claims, cid, firstId);
    if !helloSent {
      return;
    }
    match hello
    case HelloSuccess(cid, _, endpoints) => RegisterClient(store, cid, endpoints, token, config);
    case _ =>
  }

  method ProcessClientClaims(store: Store, config: Config, claims: seq<EndpointClaim>, cid: ClientId, firstId: nat)
    returns (hello: ServerHello)
    requires store.Valid()
    modifies store`endpointsMap, store.alloc
    ensures store.Valid()
    ensures hello.HelloSuccess? <==> Grantable(claims, |old(store.View()).available|)
    ensures hello.HelloSuccess? ==>
              && hello.cid == cid && hello.host == config.host
              && IsGrant(claims, hello.endpoints, old(store.View()).available, store.View().available, firstId)
              && store.View() == old(store.View()).RegisterEndpoints(hello.endpoints)
    ensures !hello.HelloSuccess? ==> hello == HelloServiceTemporaryUnavailable && store.View() == old(store.View())
  {
    var r := store.AllocateEndpoints(claims, firstId);
    match r
    case Success(endpoints) => hello := HelloSuccess(cid, config.host, endpoints);
    case Failure(_) => hello := HelloServiceTemporaryUnavailable;
  }

  method RegisterClient(store: Store, cid: ClientId, endpoints: seq<Endpoint>, token: nat, config: Config)
    requires store.Valid()
    modifies store`clients, store`clientObjs
    ensures store.Valid() && store.View() == old(store.View()).AddClient(NewClientView(cid, endpoints, token, config))
    ensures cid in store.View().clients
    ensures store.View().clients[cid] == ClientView(cid, endpoints, token, config.reconnectWindow, Connected, [])
  {
    ghost var was := store.View();
    var client := new Client(cid, endpoints, token, config.reconnectWindow);
    assert store.View() == was;
    store.AddClient(client);
  }

  // The Reconnect branch run without interruption: the old client is taken out and dropped before the
  // hello is sent, so a failed hello loses the client and its ports.
  method HandleReconnect(store: Store, config: Config, cid: ClientId, token: nat, helloSent: bool, now: int)
    returns (hello: Option<ServerHello>)
    requires store.Valid()
    modifies store, store.clientObjs
    ensures store.Valid()
    ensures Reconnected(old(store.View()), store.View(), hello, config, cid, token, helloSent, now)
  {
    ghost var was := store.View();
    var removed := store.RemoveClient(cid);
    match removed
    case None =>
      assert was.RemoveClient(cid).clients == was.clients;
      hello := None;
    case Some(oldClient) =>
      var endpoints := oldClient.endpoints;
      store.DropClient(oldClient, now);
      hello := Some(HelloSuccess(cid, config.host, endpoints));
      if helloSent {
        RegisterClient(store, cid, endpoints, token, config);
      }
  }

  // What one packet from the client does to the tables.
  function Dispatch(s: StoreState, cid: ClientId, packet: Packet, sink: SinkOutcome, socket: SocketOutcome,
      now: int): StoreState {
    match packet
    case Data(sid, data) =>
      var (s', r) := s.SendToRemote(sid, data, socket);
      if r.Failure? then s'.DisableRemote(sid) else s'
    case Refused(sid) => s.DisableRemote(sid)
    case Ping(seqNo, at, _) => s.SendToClient(cid, Pong(seqNo, at), sink, now).0
    case Pong(_, _) => s
    case Init(_, _, _) => s
    case End(_) => s
  }

  // One iteration of the read loop started by Client::new.
  method HandlePacket(store: Store, cid: ClientId, packet: Packet, sink: SinkOutcome, socket: SocketOutcome, now: int)
    requires store.Valid()
    modifies store.streamObjs, store.clientObjs
    ensures store.Valid() && store.View() == Dispatch(old(store.View()), cid, packet, sink, socket, now)
  {
    match packet
    case Data(sid, data) =>
      var r := store.SendToRemote(sid, data, socket);
      if r.Failure? {
        store.DisableRemote(sid);
      }
    case Refused(sid) => store.DisableRemote(sid);
    case Ping(seqNo, at, _) => var _ := store.SendToClient(cid, Pong(seqNo, at), sink, now);
    case Pong(_, _) =>
    case Init(_, _, _) =>
    case End(_) =>
  }

  // What the read loop sees: a packet, with how the sends it causes go; bytes that do not parse; or the end of the
  // WebSocket or of the client object.
  datatype Message = Arrived(packet: Packet, sink: SinkOutcome, socket: SocketOutcome, now: int) | Unparsable
      | Closed(now: int)

  function AfterMessages(s: StoreState, cid: ClientId, ms: seq<Message>): (StoreState, bool) {
    if ms == [] then (s, true)
    else
      var (t, on) := AfterMessages(s, cid, Front(ms));
      if !on then (t, false)
      else
        match Last(ms)
        case Arrived(packet, sink, socket, now) => (Dispatch(t, cid, packet, sink, socket, now), true)
        case Unparsable => (t, true)
        case Closed(now) => (t.SetWaitReconnect(cid, now), false)
  }

  // The whole loop; on leaving it marks the client registered under its id, whichever object that is by now.
  method ClientReadLoop(store: Store, cid: ClientId, ms: seq<Message>) returns (running: bool)
    requires store.Valid()
    modifies store.streamObjs, store.clientObjs
    ensures store.Valid() && (store.View(), running) == AfterMessages(old(store.View()), cid, ms)
  {
    ghost var was := store.View();
    running := true;
    for i := 0 to |ms|
      invariant store.Valid() && (store.View(), running) == AfterMessages(was, cid, ms[..i])
    {
      TakeSnoc(ms, i);
      if running {
        match ms[i] {
          case Arrived(packet, sink, socket, now) => HandlePacket(store, cid, packet, sink, socket, now);
          case Unparsable =>
          case Closed(now) =>
            store.SetWaitReconnect(cid, now);
            running := false;
        }
      }
    }
    assert ms[..|ms|] == ms;
  }

  // The loop registers and removes nobody, touches no other client, and leaves its own client waiting.
  lemma {:induction false} ReadLoopLeavesWaiting(s: StoreState, cid: ClientId, ms: seq<Message>)
    ensures var (t, running) := AfterMessages(s, cid, ms);
            && t.clients.Keys == s.clients.Keys
            && (forall c | c in s.clients && c != cid :: t.clients[c] == s.clients[c])
            && (!running && cid in s.clients ==> t.clients[cid].state.WaitReconnect?)
  {
    if ms != [] {
      ReadLoopLeavesWaiting(s, cid, Front(ms));
      var (t, on) := AfterMessages(s, cid, Front(ms));
      if on && Last(ms).Arrived? {
        DispatchTouchesOneClient(t, cid, Last(ms).packet, Last(ms).sink, Last(ms).socket, Last(ms).now);
        hide Dispatch;
      }
    }
  }

  lemma {:induction false} DispatchTouchesOneClient(s: StoreState, cid: ClientId, packet: Packet, sink: SinkOutcome,
      socket: SocketOutcome, now: int)
    ensures var t := Dispatch(s, cid, packet, sink, socket, now);
            t.clients.Keys == s.clients.Keys && forall c | c in s.clients && c != cid :: t.clients[c] == s.clients[c]
  {
  }
}
