// ownserver_server/src/store.rs: the server's tables. Every method is proved to do to the tables exactly
// what the function of the same name in ServerModel says.
module ServerStore {
  import opened Wrappers
  import opened Sequences
  import opened Protocol
  import opened PortAllocation
  import opened ServerModel
  import opened ServerClient
  import opened RemoteStreams

  ghost function DisabledExcept(m: map<StreamId, StreamView>, todo: set<StreamId>,
      cid: ClientId): map<StreamId, StreamView> {
    map s | s in m :: if s !in todo && m[s].cid == cid then m[s].Disable() else m[s]
  }

  class Store {
    var streams: map<StreamId, RemoteStream>
    var clients: map<ClientId, Client>
    var addrsMap: map<Addr, StreamId>
    var endpointsMap: map<EndpointId, Endpoint>
    const alloc: PortAllocator
    var fired: set<nat>              // child tokens cancelled by dropped clients

    ghost var streamObjs: set<object>  // footprints of the two tables
    ghost var clientObjs: set<object>

    ghost predicate StreamsValid()
      reads this`streams, this`streamObjs, streamObjs
    {
      forall s | s in streams :: streams[s].Obj() in streamObjs && streams[s].Valid() && streams[s].StreamId() == s
    }

    ghost predicate ClientsValid()
      reads this`clients, this`clientObjs
    {
      forall c | c in clients :: clients[c] in clientObjs && clients[c].clientId == c
    }

    // Each table owns its values, stored under their own ids.
    ghost predicate Valid()
      reads this, alloc, streamObjs
    {
      && {this, alloc} !! streamObjs && {this, alloc} !! clientObjs && streamObjs !! clientObjs
      && alloc.Valid() && StreamsValid() && ClientsValid()
    }

    ghost function StreamViews(): map<StreamId, StreamView>
      requires StreamsValid()
      reads this`streams, this`streamObjs, streamObjs
    {
      map s | s in streams :: streams[s].View()
    }

    ghost function ClientViews(): map<ClientId, ClientView>
      requires ClientsValid()
      reads this`clients, this`clientObjs, clientObjs
    {
      map c | c in clients :: clients[c].View()
    }

    ghost function View(): StoreState
      requires Valid()
      reads this, alloc, streamObjs, clientObjs
    {
      StoreState(StreamViews(), ClientViews(), addrsMap, endpointsMap, alloc.availablePorts, alloc.lo, alloc.hi, fired)
    }

    constructor (lo: u16, hi: u16)
      ensures Valid() && fresh(alloc) && streamObjs == {} && clientObjs == {}
      ensures View() == StoreState(map[], map[], map[], map[], PortRange(lo, hi), lo, hi, {})
    {
      streams, clients, addrsMap, endpointsMap, fired := map[], map[], map[], map[], {};
      streamObjs, clientObjs := {}, {};
      alloc := new PortAllocator(lo, hi);
    }

    method SendToClient(cid: ClientId, packet: Packet, sink: SinkOutcome, now: int)
      returns (r: Result<(), SendToClientError>)
      requires Valid()
      modifies clientObjs
      ensures Valid() && (View(), r) == old(View()).SendToClient(cid, packet, sink, now)
      ensures r == Failure(ClientNotFound(cid)) <==> cid !in old(clients)
      ensures r.Success? <==> cid in old(clients) && old(clients[cid].state).Connected? && sink.Accepted?
    {
      if cid in clients {
        ghost var was := ClientViews();
        r := clients[cid].SendToClient(packet, sink, now);
        assert ClientViews() == was[cid := was[cid].SendToClient(packet, sink, now).0];
      } else {
        r := Failure(ClientNotFound(cid));
      }
    }

    method SetWaitReconnect(cid: ClientId, now: int)
      requires Valid()
      modifies clientObjs
      ensures Valid() && View() == old(View()).SetWaitReconnect(cid, now)
    {
      if cid in clients {
        ghost var was := ClientViews();
        clients[cid].SetWaitReconnect(now);
        assert ClientViews() == was[cid := was[cid].SetWaitReconnect(now)];
      }
    }

    method SendToRemote(sid: StreamId, data: seq<byte>, socket: SocketOutcome)
      returns (r: Result<(), SendToRemoteError>)
      requires Valid()
      modifies streamObjs
      ensures Valid() && (View(), r) == old(View()).SendToRemote(sid, data, socket)
      ensures r == if sid !in old(streams) || !old(StreamViews())[sid].enabled then Failure(StreamNotAvailable(sid))
                   else if socket.Broken? then Failure(RemoteWriteError)
                   else Success(())
    {
      if sid in streams {
        ghost var was := StreamViews();
        var stream := streams[sid];
        r := stream.SendToRemote(sid, data, socket);
        assert StreamViews() == was[sid := was[sid].SendToRemote(sid, data, socket).0];
      } else {
        r := Failure(StreamNotAvailable(sid));
      }
    }

    method DisableRemote(sid: StreamId)
      requires Valid()
      modifies streamObjs
      ensures Valid() && View() == old(View()).DisableRemote(sid)
    {
      if sid in streams {
        ghost var was := StreamViews();
        var stream := streams[sid];
        stream.Disable();
        assert StreamViews() == was[sid := was[sid].Disable()];
      }
    }

    method DisableRemoteByClient(cid: ClientId)
      requires Valid()
      modifies streamObjs
      ensures Valid() && View() == old(View()).DisableRemoteByClients({cid})
    {
      ghost var was := StreamViews();
      var todo := streams.Keys;
      while todo != {}
        invariant todo <= streams.Keys && Valid()
        invariant StreamViews() == DisabledExcept(was, todo, cid)
      {
        var s :| s in todo;
        todo := todo - {s};
        DisableIfOwnedBy(s, cid);
      }
      assert StreamViews() == old(View()).DisableRemoteByClients({cid}).streams;
    }

    method DisableIfOwnedBy(sid: StreamId, cid: ClientId)
      requires Valid() && sid in streams
      modifies streamObjs
      ensures Valid()
      ensures var was := old(StreamViews());
              StreamViews() == was[sid := if was[sid].cid == cid then was[sid].Disable() else was[sid]]
    {
      ghost var was := StreamViews();
      var stream := streams[sid];
      if stream.ClientId() == cid {
        stream.Disable();
      }
      assert StreamViews() == was[sid := if was[sid].cid == cid then was[sid].Disable() else was[sid]];
    }

    method AddClient(client: Client)
      requires Valid() && client !in streamObjs && client !in clientObjs
      modifies this`clients, this`clientObjs
      ensures Valid() && clientObjs == old(clientObjs) + {client}
      ensures View() == old(View()).AddClient(client.View())
    {
      ghost var was := ClientViews();
      clients := clients[client.clientId := client];
      clientObjs := clientObjs + {client};
      assert ClientViews() == was[client.clientId := client.View()];
    }

    method RemoveClient(cid: ClientId) returns (r: Option<Client>)
      requires Valid()
      modifies this`clients, this`clientObjs
      ensures Valid() && View() == old(View()).RemoveClient(cid)
      ensures r == if cid in old(clients) then Some(old(clients)[cid]) else None
      ensures clientObjs == old(clientObjs) - if r.Some? then {r.value} else {}
      ensures r.Some? ==> r.value in old(clientObjs) && r.value.View() == old(View()).clients[cid]
    {
      ghost var was := ClientViews();
      if cid in clients {
        r := Some(clients[cid]);
        clientObjs := clientObjs - {clients[cid]};
        clients := clients - {cid};
      } else {
        r := None;
      }
      assert ClientViews() == was - {cid};
    }

    // A client value goes out of scope.
    method DropClient(client: Client, now: int)
      requires Valid() && client !in streamObjs && client !in clientObjs
      modifies this`fired, client
      ensures Valid() && client.ctSelfCancelled
      ensures View() == old(View()).DropClient(old(client.View()), now)
    {
      ghost var was := View();
      var cancelChild := client.Drop(now);
      assert View() == was;
      if cancelChild {
        fired := fired + {client.ctChild};
      }
    }

    method AddRemote(remote: RemoteStream, peerAddr: Addr)
      requires Valid() && remote.Valid() && remote.Obj() !in streamObjs && remote.Obj() !in clientObjs
      modifies this`streams, this`streamObjs, this`addrsMap
      ensures Valid() && streamObjs == old(streamObjs) + {remote.Obj()}
      ensures View() == old(View()).AddRemote(remote.View(), peerAddr)
    {
      ghost var was := StreamViews();
      var sid := remote.StreamId();
      streams := streams[sid := remote];
      streamObjs := streamObjs + {remote.Obj()};
      addrsMap := addrsMap[peerAddr := sid];
      assert StreamViews() == was[sid := remote.View()];
    }

    method FindStreamIdByAddr(addr: Addr) returns (r: Option<StreamId>)
      requires Valid()
      ensures r == View().FindStreamIdByAddr(addr)
    {
      if addr !in addrsMap {
        return None;
      }
      var sid := addrsMap[addr];
      if sid in streams {
        if !streams[sid].Disabled() {
          return Some(streams[sid].StreamId());
        }
      }
      return None;
    }

    method AllocateEndpoints(claims: seq<EndpointClaim>, firstId: nat)
      returns (r: Result<seq<Endpoint>, PortAllocatorError>)
      requires Valid()
      modifies this`endpointsMap, alloc
      ensures Valid()
      ensures r.Success? <==> Grantable(claims, |old(alloc.availablePorts)|)
      ensures r.Success? ==> IsGrant(claims, r.value, old(alloc.availablePorts), alloc.availablePorts, firstId)
      ensures View() == if r.Success? then old(View()).RegisterEndpoints(r.value) else old(View())
    {
      r := LeasePorts(claims, firstId);
      if r.Success? {
        InsertEndpoints(r.value);
      }
    }

    method LeasePorts(claims: seq<EndpointClaim>, firstId: nat) returns (r: Result<seq<Endpoint>, PortAllocatorError>)
      requires Valid()
      modifies alloc
      ensures r.Success? <==> Grantable(claims, |old(alloc.availablePorts)|)
      ensures r.Success? ==> IsGrant(claims, r.value, old(alloc.availablePorts), alloc.availablePorts, firstId)
      ensures Valid()
      ensures var taken := if r.Success? then RemotePorts(r.value) else {};
              View() == old(View()).(available := old(View()).available - taken)
    {
      r := alloc.AllocatePorts(claims, firstId);
    }

    method InsertEndpoints(eps: seq<Endpoint>)
      requires Valid()
      modifies this`endpointsMap
      ensures Valid() && View() == old(View()).(endpoints := WithEndpoints(old(View()).endpoints, eps))
    {
      for i := 0 to |eps|
        invariant endpointsMap == WithEndpoints(old(endpointsMap), eps[..i])
      {
        TakeSnoc(eps, i);
        endpointsMap := endpointsMap[eps[i].id := eps[i]];
      }
      assert eps[..|eps|] == eps;
    }

    method ReleaseEndpoint(eid: EndpointId) returns (r: Result<(), PortAllocatorError>)
      requires Valid()
      modifies alloc
      ensures Valid() && (View(), r) == old(View()).ReleaseEndpoint(eid)
      ensures eid !in endpointsMap ==> r == Failure(PortOutOfRange) && alloc.availablePorts == old(alloc.availablePorts)
    {
      if eid !in endpointsMap {
        return Failure(PortOutOfRange);
      }
      ghost var was := View();
      r := alloc.ReleasePort(endpointsMap[eid].remotePort);
      assert View() == was.ReleaseEndpoint(eid).0;
    }

    // One pass of the periodic collection, with every clock reading at `now`.
    method Cleanup(now: int)
      requires Valid()
      modifies this, alloc, streamObjs, clientObjs
      ensures Valid() && View() == old(View()).Cleanup(now)
    {
      ghost var s0 := View();
      var eids := DisableExpired(now);
      ghost var s1 := View();
      RetainClients(now);
      ReleaseEndpoints(eids);
      RetainStreams();
      CleanupPhases(s0, s1, View(), eids, now);
    }

    // First loop: disable the streams of expired clients and remember their endpoints.
    method DisableExpired(now: int) returns (eids: seq<EndpointId>)
      requires Valid()
      modifies streamObjs
      ensures Valid() && View() == old(View()).DisableRemoteByClients(old(View()).ExpiredClients(now))
      ensures forall e :: e in eids <==> e in old(View()).EndpointIdsOf(old(View()).ExpiredClients(now))
    {
      ghost var s0 := View();
      eids := [];
      var todo := clients.Keys;
      ghost var done: set<ClientId> := {};
      NothingDisabled(s0);
      while todo != {}
        invariant todo <= clients.Keys && Valid()
        invariant forall c :: c in done <==> c in s0.clients && c !in todo && s0.clients[c].CanCleanup(now)
        invariant View() == s0.DisableRemoteByClients(done)
        invariant forall e :: e in eids <==> e in s0.EndpointIdsOf(done)
      {
        var c :| c in todo;
        todo := todo - {c};
        assert clients[c].View() == s0.clients[c];
        if clients[c].CanCleanup(now) {
          DisableRemoteByClient(clients[c].clientId);
          var more := Ids(clients[c].endpoints);
          DisabledMore(s0, done, c, eids, more);
          done := done + {c};
          eids := eids + more;
        }
      }
      assert done == s0.ExpiredClients(now);
    }

    // clients.retain: every expired client is removed and dropped.
    method RetainClients(now: int)
      requires Valid()
      modifies this`clients, this`clientObjs, this`fired, clientObjs
      ensures Valid() && View() == Without(old(View()), old(View()).ExpiredClients(now))
    {
      ghost var s0 := View();
      var todo := clients.Keys;
      ghost var done: set<ClientId> := {};
      assert Without(s0, {}) == s0;
      while todo != {}
        invariant Valid() && clientObjs <= old(clientObjs)
        invariant View() == Without(s0, done)
        invariant forall c :: c in done <==> c in s0.clients && c !in todo && s0.clients[c].CanCleanup(now)
        invariant todo <= clients.Keys
      {
        var c :| c in todo;
        todo := todo - {c};
        assert clients[c].View() == View().clients[c] == s0.clients[c];
        if clients[c].CanCleanup(now) {
          OneFewer(s0, done, c, now);
          RemoveAndDrop(c, now);
          done := done + {c};
        }
      }
      assert done == s0.ExpiredClients(now);
    }

    method RemoveAndDrop(cid: ClientId, now: int)
      requires Valid() && cid in clients
      modifies this`clients, this`clientObjs, this`fired, clientObjs
      ensures Valid() && clientObjs <= old(clientObjs)
      ensures View() == old(View()).RemoveClient(cid).DropClient(old(View()).clients[cid], now)
    {
      var r := RemoveClient(cid);
      DropClient(r.value, now);
    }

    method ReleaseEndpoints(eids: seq<EndpointId>)
      requires Valid()
      modifies alloc
      ensures Valid()
      ensures View() == var s0 := old(View()); s0.(available := s0.available + s0.ReleasedPorts(IdSet(eids)))
    {
      ghost var s0 := View();
      assert s0.ReleasedPorts({}) == {};
      for i := 0 to |eids|
        invariant Valid() && View() == s0.(available := s0.available + s0.ReleasedPorts(IdSet(eids[..i])))
      {
        TakeSnoc(eids, i);
        ReleasedMore(s0, IdSet(eids[..i]), eids[i]);
        var _ := ReleaseEndpoint(eids[i]);
      }
      assert eids[..|eids|] == eids;
    }

    method RetainStreams()
      requires Valid()
      modifies this`streams
      ensures Valid()
      ensures var s0 := old(View());
              View() == s0.(streams := map s | s in s0.streams && s0.streams[s].enabled :: s0.streams[s])
    {
      ghost var was := StreamViews();
      streams := map s | s in streams && !streams[s].Disabled() :: streams[s];
      assert StreamViews() == map s | s in was && was[s].enabled :: was[s];
    }
  }

  function Ids(eps: seq<Endpoint>): (r: seq<EndpointId>)
    ensures |r| == |eps| && forall i :: 0 <= i < |eps| ==> r[i] == eps[i].id
  {
    if eps == [] then [] else Ids(Front(eps)) + [Last(eps).id]
  }

  ghost function IdSet(eids: seq<EndpointId>): set<EndpointId> {
    if eids == [] then {} else IdSet(Front(eids)) + {Last(eids)}
  }

  lemma {:induction false} IdSetMember(eids: seq<EndpointId>, e: EndpointId)
    ensures e in IdSet(eids) <==> e in eids
  {
    if eids == [] {
    } else {
      IdSetMember(Front(eids), e);
      InSnoc(eids);
    }
  }

  // The clients are dropped, and so are their tokens.
  ghost function Without(s: StoreState, gone: set<ClientId>): StoreState {
    s.(clients := s.clients - gone, fired := s.fired + s.TokensOf(gone))
  }

  lemma {:induction false} OneFewer(s: StoreState, done: set<ClientId>, c: ClientId, now: int)
    requires c in s.clients && s.clients[c].CanCleanup(now)
    ensures Without(s, done).RemoveClient(c).DropClient(s.clients[c], now) == Without(s, done + {c})
  {
    assert s.TokensOf(done + {c}) == s.TokensOf(done) + {s.clients[c].token};
    assert s.clients - (done + {c}) == (s.clients - done) - {c};
  }

  lemma {:induction false} NothingDisabled(s: StoreState)
    ensures s.DisableRemoteByClients({}) == s
  {
    assert s.DisableRemoteByClients({}).streams == s.streams;
  }

  lemma {:induction false} DisabledMore(s: StoreState, done: set<ClientId>, c: ClientId, eids: seq<EndpointId>,
      more: seq<EndpointId>)
    requires c in s.clients && more == Ids(s.clients[c].endpoints)
    requires forall e :: e in eids <==> e in s.EndpointIdsOf(done)
    ensures s.DisableRemoteByClients(done).DisableRemoteByClients({c}) == s.DisableRemoteByClients(done + {c})
    ensures forall e :: e in eids + more <==> e in s.EndpointIdsOf(done + {c})
  {
    assert s.DisableRemoteByClients(done).DisableRemoteByClients({c}).streams ==
        s.DisableRemoteByClients(done + {c}).streams;
    forall e ensures e in more <==> exists x :: x in s.clients[c].endpoints && x.id == e {
      if e in more {
        var i :| 0 <= i < |more| && more[i] == e;
        assert s.clients[c].endpoints[i] in s.clients[c].endpoints;
      }
    }
  }

  lemma {:induction false} ReleasedMore(s: StoreState, done: set<EndpointId>, e: EndpointId)
    ensures s.(available := s.available + s.ReleasedPorts(done)).ReleaseEndpoint(e).0 ==
            s.(available := s.available + s.ReleasedPorts(done + {e}))
  {
    if e in s.endpoints && s.lo <= s.endpoints[e].remotePort < s.hi {
      assert s.ReleasedPorts(done + {e}) == s.ReleasedPorts(done) + {s.endpoints[e].remotePort};
    } else {
      assert s.ReleasedPorts(done + {e}) == s.ReleasedPorts(done);
    }
  }

  lemma {:induction false} CleanupPhases(s0: StoreState, s1: StoreState, s: StoreState, eids: seq<EndpointId>, now: int)
    requires s1 == s0.DisableRemoteByClients(s0.ExpiredClients(now))
    requires forall e :: e in eids <==> e in s0.EndpointIdsOf(s0.ExpiredClients(now))
    requires var gone := s1.ExpiredClients(now);
             var s2 := Without(s1, gone);
             var s3 := s2.(available := s2.available + s2.ReleasedPorts(IdSet(eids)));
             s == s3.(streams := map x | x in s3.streams && s3.streams[x].enabled :: s3.streams[x])
    ensures s == s0.Cleanup(now)
  {
    forall e ensures e in IdSet(eids) <==> e in s0.EndpointIdsOf(s0.ExpiredClients(now)) {
      IdSetMember(eids, e);
    }
    assert IdSet(eids) == s0.EndpointIdsOf(s0.ExpiredClients(now));
    assert s1.ExpiredClients(now) == s0.ExpiredClients(now);
    assert s.streams == s0.Cleanup(now).streams;
  }
}
