// Concrete runs of the server that show what its code does not do.
module ServerRuns {
  import opened Wrappers
  import opened Sequences
  import opened Protocol
  import opened PortAllocation
  import opened ServerModel
  import opened Lifecycle
  import ControlServer

  // A server with one port and a reconnect window of ten.
  const CONFIG: ControlServer.Config := ControlServer.Config(0, 10, map[], map[])
  const CLAIMS: seq<EndpointClaim> := [EndpointClaim(TCP, 80, 0)]
  const LEASED: seq<Endpoint> := [Endpoint(0, TCP, 80, 9000)]

  lemma {:induction false} Extended(tr: seq<Server>, a: Action)
    requires IsRun(tr) && Enabled(Last(tr), a)
    ensures IsRun(tr + [Apply(Last(tr), a)]) && Last(tr + [Apply(Last(tr), a)]) == Apply(Last(tr), a)
  {
    hide Enabled, Apply, InitialServer;
    var r := tr + [Apply(Last(tr), a)];
    forall i | 0 <= i < |r| - 1 ensures Next(r[i], r[i + 1]) {
      if i < |tr| - 1 {
        assert Next(tr[i], tr[i + 1]);
      }
    }
  }

  // The first handshake has its port.
  lemma {:induction false} OneLease() returns (tr: seq<Server>)
    ensures IsRun(tr) && tr != [] && Last(tr).pending == map[0 := Handshake(1, LEASED, true, false)]
    ensures var s := Last(tr);
            && s.store.clients == map[] && s.store.fired == {} && s.now == 0 && s.loops == map[] && s.nextToken == 0
            && s.listeners == map[] && s.abandoned == {} && s.config == CONFIG
  {
    var s := Server(StoreState(map[], map[], map[], map[], PortRange(9000, 9001), 9000, 9001, {}), CONFIG, 0, map[], {},
                    map[], 0, [], map[], map[]);
    tr := [s];
    LeaseIsPossible(s);
    Extended(tr, Lease(0, 1, CLAIMS, LEASED, 0));
    tr := tr + [Apply(s, Lease(0, 1, CLAIMS, LEASED, 0))];
  }

  lemma {:induction false} LeaseIsPossible(s: Server)
    requires InitialServer(s) && s.store.lo == 9000 && s.store.hi == 9001
    ensures Enabled(s, Lease(0, 1, CLAIMS, LEASED, 0))
  {
    assert PortRange(9000, 9001) == {9000};
    assert Front(CLAIMS) == [] && Front(LEASED) == [];
    assert LocalPorts(CLAIMS) == {80} && RemotePorts(LEASED) == {9000};
  }

  // A new client's hello fails: its port is abandoned.
  lemma {:induction false} NewClientLosesItsPort() returns (tr: seq<Server>)
    ensures IsRun(tr) && tr != [] && Last(tr).abandoned == {9000} && Last(tr).store.clients == map[]
  {
    tr := OneLease();
    var s := Last(tr);
    Extended(tr, SendHello(0, false));
    assert Front(LEASED) == [] && RemotePorts(LEASED) == {9000};
    tr := tr + [Apply(s, SendHello(0, false))];
  }

  // The client is registered, its read loop has ended, and it waits until ten.
  lemma {:induction false} OneWaitingClient() returns (tr: seq<Server>)
    ensures IsRun(tr) && tr != [] && Last(tr).pending == map[] && Last(tr).listeners == map[1 := 0]
    ensures Last(tr).store.clients == map[1 := ClientView(1, LEASED, 0, 10, WaitReconnect(10), [])]
    ensures var s := Last(tr);
            s.store.fired == {} && s.now == 0 && s.loops == map[] && s.nextToken == 1 && s.abandoned == {}
                && s.config == CONFIG
  {
    hide IsRun;
    tr := OneLease();
    var s1 := Last(tr);
    Extended(tr, SendHello(0, true));
    var s2 := Apply(s1, SendHello(0, true));
    tr := tr + [s2];
    Extended(tr, Register(0));
    var s3 := Apply(s2, Register(0));
    tr := tr + [s3];
    Extended(tr, LoopExit(0));
    tr := tr + [Apply(s3, LoopExit(0))];
  }

  // It reconnects in time: the old object is dropped with its token unfired.
  lemma {:induction false} OneReconnecting() returns (tr: seq<Server>)
    ensures IsRun(tr) && tr != [] && Last(tr).pending == map[0 := Handshake(1, LEASED, false, false)]
    ensures Last(tr).listeners == map[1 := 0]
    ensures var s := Last(tr);
            && s.store.clients == map[] && s.store.fired == {} && s.now == 0 && s.loops == map[] && s.nextToken == 1
            && s.abandoned == {} && s.config == CONFIG
  {
    tr := OneWaitingClient();
    var s := Last(tr);
    Extended(tr, Take(0, 1));
    tr := tr + [Apply(s, Take(0, 1))];
  }

  // A reconnecting client's hello fails: client and port are gone.
  lemma {:induction false} ReconnectLosesItsPort() returns (tr: seq<Server>)
    ensures IsRun(tr) && tr != [] && Last(tr).abandoned == {9000} && Last(tr).store.clients == map[]
    ensures Last(tr).pending == map[]
  {
    tr := OneReconnecting();
    var s := Last(tr);
    Extended(tr, SendHello(0, false));
    assert Front(LEASED) == [] && RemotePorts(LEASED) == {9000};
    tr := tr + [Apply(s, SendHello(0, false))];
  }

  // The client reconnected in time, and left again for good.
  lemma {:induction false} OneExpiredClient() returns (tr: seq<Server>)
    ensures IsRun(tr) && tr != [] && Last(tr).listeners == map[1 := 0] && Last(tr).store.fired == {}
    ensures Last(tr).now == 10
    ensures Last(tr).store.clients == map[1 := ClientView(1, LEASED, 1, 10, WaitReconnect(10), [])]
  {
    hide IsRun;
    tr := OneReconnecting();
    var s1 := Last(tr);
    Extended(tr, SendHello(0, true));
    var s2 := Apply(s1, SendHello(0, true));
    tr := tr + [s2];
    Extended(tr, Register(0));
    var s3 := Apply(s2, Register(0));
    tr := tr + [s3];
    Extended(tr, LoopExit(1));
    var s4 := Apply(s3, LoopExit(1));
    tr := tr + [s4];
    Extended(tr, Tick(10));
    tr := tr + [Apply(s4, Tick(10))];
  }

  // Cleanup collects it, and its listeners go on.
  lemma {:induction false} ListenersOutliveTheirClient() returns (tr: seq<Server>)
    ensures IsRun(tr) && |tr| > 1 && tr[|tr| - 1] == Apply(tr[|tr| - 2], Collect)
    ensures 1 in tr[|tr| - 2].store.ExpiredClients(tr[|tr| - 2].now) && 1 !in Last(tr).store.clients
    ensures 1 in Last(tr).listeners && Last(tr).listeners[1] !in Last(tr).store.fired
  {
    hide IsRun, StoreState.Cleanup, StoreState.ExpiredClients;
    tr := OneExpiredClient();
    var s := Last(tr);
    OnlyOwnTokenFires(s.store, s.now);
    Extended(tr, Collect);
    tr := tr + [Apply(s, Collect)];
  }

  lemma {:induction false} OnlyOwnTokenFires(s: StoreState, now: int)
    requires s.clients == map[1 := ClientView(1, LEASED, 1, 10, WaitReconnect(10), [])] && s.fired == {} && now == 10
    ensures 1 in s.ExpiredClients(now) && 1 !in s.Cleanup(now).clients && 0 !in s.Cleanup(now).fired
  {
    assert s.clients[1].CanCleanup(now);
    forall c | c in s.clients ensures s.clients[c].token != 0 {
    }
  }
}
