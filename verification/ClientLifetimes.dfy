// What happens to one client, one Client object and one listener token over a whole run of the server.
module ClientLifetimes {
  import opened Wrappers
  import opened Sequences
  import opened Protocol
  import opened PortAllocation
  import opened ServerModel
  import opened Lifecycle

  // ---------- leases ----------

  // add_client never replaces an entry: whoever is about to register is registered nowhere else, and no
  // other handshake carries the same client id.
  lemma {:induction false} RegisterNeverOverwrites(tr: seq<Server>, i: nat, h: nat)
    requires IsRun(tr) && i < |tr| && Enabled(tr[i], Register(h))
    ensures tr[i].pending[h].cid !in tr[i].store.clients
    ensures forall k | k in tr[i].pending && k != h :: tr[i].pending[k].cid != tr[i].pending[h].cid
  {
    hide Next;
    InvAt(tr, i);
  }

  // A lease is made once and never changes, and its endpoints resolve forever after.
  lemma {:induction false} LeaseIsForever(tr: seq<Server>, i: nat, j: nat, c: ClientId)
    requires IsRun(tr) && i <= j < |tr| && c in tr[i].leases
    ensures c in tr[j].leases && tr[j].leases[c] == tr[i].leases[c]
    ensures forall e | e in tr[i].leases[c] :: e.id in tr[j].store.endpoints && tr[j].store.endpoints[e.id] == e
    decreases j
  {
    hide Next;
    InvAt(tr, j);
    if i < j {
      LeaseIsForever(tr, i, j - 1, c);
      LeaseKept(tr[j - 1], tr[j], c);
    }
  }

  lemma {:induction false} LeaseKept(s: Server, s': Server, c: ClientId)
    requires Next(s, s') && c in s.leases
    ensures c in s'.leases && s'.leases[c] == s.leases[c]
  {
  }

  // Across any number of reconnects, every Success hello for a client id lists the endpoints leased first.
  lemma {:induction false} HellosRepeatTheLease(tr: seq<Server>, i: nat, j: nat, k: nat)
    requires IsRun(tr) && i <= j < |tr| && k < |tr[j].hellos|
    ensures tr[j].hellos[k].cid in tr[i].leases ==> tr[j].hellos[k].endpoints == tr[i].leases[tr[j].hellos[k].cid]
    ensures forall l | 0 <= l < |tr[j].hellos| && tr[j].hellos[l].cid == tr[j].hellos[k].cid ::
              tr[j].hellos[l].endpoints == tr[j].hellos[k].endpoints
  {
    hide Next;
    InvAt(tr, j);
    if tr[j].hellos[k].cid in tr[i].leases {
      LeaseIsForever(tr, i, j, tr[j].hellos[k].cid);
    }
  }

  // ---------- releasing ports twice ----------

  // The release loop of a cleanup pass, with the answer to each call.
  ghost function ReleaseRun(s: StoreState, eids: seq<EndpointId>): (StoreState, seq<Result<(), PortAllocatorError>>) {
    if eids == [] then (s, [])
    else
      var (s', answers) := ReleaseRun(s, Front(eids));
      var (s'', answer) := s'.ReleaseEndpoint(Last(eids));
      (s'', answers + [answer])
  }

  ghost function PortsOfIds(s: StoreState, eids: seq<EndpointId>): set<u16> {
    if eids == [] then {}
    else PortsOfIds(s, Front(eids)) + if Last(eids) in s.endpoints then {s.endpoints[Last(eids)].remotePort} else {}
  }

  ghost predicate AllExpired(s: Server, eids: seq<EndpointId>) {
    eids == [] || (Last(eids) in s.store.EndpointIdsOf(s.store.ExpiredClients(s.now)) && AllExpired(s, Front(eids)))
  }

  // Whatever the order of the endpoints, the first release of a port succeeds, and a second one (the other
  // protocol of the same local port) answers PortAlreadyReleased and changes nothing.
  lemma {:induction false} EachPortReleasedOnce(s: Server, eids: seq<EndpointId>)
    requires Inv(s) && AllExpired(s, eids)
    ensures ReleaseRun(s.store, eids).0 == s.store.(available := s.store.available + PortsOfIds(s.store, eids))
    ensures eids != [] ==>
              && Last(eids) in s.store.endpoints
              && Last(ReleaseRun(s.store, eids).1) ==
                 if s.store.endpoints[Last(eids)].remotePort in PortsOfIds(s.store, Front(eids))
                     then Failure(PortAlreadyReleased)
                 else Success(())
  {
    if eids == [] {
    } else {
      EachPortReleasedOnce(s, Front(eids));
      var c, e := ExpiredEndpoint(s, Last(eids));
      Snoc(ReleaseRun(s.store, Front(eids)).1, ReleaseRun(s.store, Front(eids)).0.ReleaseEndpoint(Last(eids)).1);
    }
  }

  lemma {:induction false} ExpiredEndpoint(s: Server, id: EndpointId) returns (c: ClientId, e: Endpoint)
    requires Inv(s) && id in s.store.EndpointIdsOf(s.store.ExpiredClients(s.now))
    ensures id in s.store.endpoints && s.store.endpoints[id] == e
    ensures s.InRange(e.remotePort) && e.remotePort !in s.store.available
  {
    c, e :| c in s.store.ExpiredClients(s.now) && e in s.store.clients[c].endpoints && e.id == id;
    assert e in s.leases[c];
    RemotePortsMember(s.leases[c], e.remotePort);
    assert Holds(s, Lessee(c), e.remotePort) && !Holds(s, Free, e.remotePort);
  }

  // ---------- Client objects ----------

  // Token t names one Client object; it is registered under at most one client id at a time.
  ghost predicate Carries(s: Server, c: ClientId, t: nat) {
    c in s.store.clients && s.store.clients[c].token == t
  }

  // No registered object has the token.
  ghost predicate Uncarried(s: Server, t: nat) {
    forall c :: !Carries(s, c, t)
  }

  ghost predicate TokensUnique(s: Server) {
    forall c, d | c in s.store.clients && d in s.store.clients
        && s.store.clients[c].token == s.store.clients[d].token :: c == d
  }

  // The client registered under c after the step, given the one before.
  ghost function ClientAfter(s: Server, a: Action, c: ClientId): ClientView
    requires Enabled(s, a) && c in s.store.clients
  {
    match a
    case LoopExit(token) => if s.loops[token] == c then s.store.clients[c].SetWaitReconnect(s.now)
        else s.store.clients[c]
    case ToClient(cid, packet, sink) =>
      if cid == c then s.store.clients[c].SendToClient(packet, sink, s.now).0 else s.store.clients[c]
    case _ => s.store.clients[c]
  }

  ghost predicate RegisteredBy(s: Server, a: Action, c: ClientId)
    requires Enabled(s, a)
  {
    a.Register? && s.pending[a.h].cid == c
  }

  // What a step does to the entry of one client id.
  lemma {:induction false} EntryStep(s: Server, a: Action, c: ClientId)
    requires Inv(s) && Enabled(s, a)
    ensures var s' := Apply(s, a);
            && s'.nextToken == s.nextToken + (if a.Register? then 1 else 0)
            && (RegisteredBy(s, a, c) ==>
                  c !in s.store.clients && c in s'.store.clients &&
                  s'.store.clients[c].token == s.nextToken && s'.store.clients[c].state.Connected?)
            && (!RegisteredBy(s, a, c) && c in s'.store.clients ==>
                c in s.store.clients && s'.store.clients[c] == ClientAfter(s, a, c))
            && (c in s.store.clients ==>
                  (c !in s'.store.clients <==>
                      (a.Take? && a.cid == c) || (a.Collect? && s.store.clients[c].CanCleanup(s.now))))
  {
    hide HeldOnce, LeasesResolve, HellosMatch;
    match a
    case ToClient(cid, packet, sink) =>
    case LoopExit(token) =>
    case Register(h) =>
    case Take(h, cid) =>
    case Collect =>
    case _ =>
  }

  // Registration creates the object; from then on it keeps its client id until it is dropped.
  lemma {:induction false} CarriedBefore(s: Server, s': Server, c: ClientId, t: nat)
    requires Inv(s) && Next(s, s') && Carries(s', c, t) && t < s.nextToken
    ensures Carries(s, c, t)
  {
    hide Apply, HeldOnce, LeasesResolve, HellosMatch;
    var a :| Enabled(s, a) && s' == Apply(s, a);
    EntryStep(s, a, c);
  }

  // A token handed out by this step belongs to the one client registered by it.
  lemma {:induction false} NewTokenUnique(s: Server, s': Server, c: ClientId, d: ClientId)
    requires Inv(s) && Next(s, s') && c in s'.store.clients && d in s'.store.clients
    requires s'.store.clients[c].token == s'.store.clients[d].token >= s.nextToken
    ensures c == d
  {
    hide Apply, HeldOnce, LeasesResolve, HellosMatch;
    var a :| Enabled(s, a) && s' == Apply(s, a);
    EntryStep(s, a, c);
    EntryStep(s, a, d);
  }

  lemma {:induction false} TokensUniqueAt(tr: seq<Server>, i: nat)
    requires IsRun(tr) && i < |tr|
    ensures TokensUnique(tr[i])
  {
    hide Next, Inv;
    if i > 0 {
      TokensUniqueAt(tr, i - 1);
      InvAt(tr, i - 1);
      var s, s' := tr[i - 1], tr[i];
      forall c, d | c in s'.store.clients && d in s'.store.clients
          && s'.store.clients[c].token == s'.store.clients[d].token ensures c == d {
        var t := s'.store.clients[c].token;
        if t < s.nextToken {
          CarriedBefore(s, s', c, t);
          CarriedBefore(s, s', d, t);
        } else {
          NewTokenUnique(s, s', c, d);
        }
      }
    }
  }

  lemma {:induction false} StepOf(tr: seq<Server>, i: nat) returns (a: Action)
    requires IsRun(tr) && i + 1 < |tr|
    ensures Inv(tr[i]) && Inv(tr[i + 1]) && Enabled(tr[i], a) && tr[i + 1] == Apply(tr[i], a)
  {
    hide Inv;
    InvAt(tr, i);
    InvAt(tr, i + 1);
    assert Next(tr[i], tr[i + 1]);
    a :| Enabled(tr[i], a) && tr[i + 1] == Apply(tr[i], a);
  }

  // One step of one object: a waiting object is frozen; a connected one starts waiting only with the expiry
  // `now + window`; and a waiting object leaves the table exactly by a reconnect or by a cleanup at or after its
  // expiry.
  lemma {:induction false} ObjectStep(s: Server, a: Action, c: ClientId)
    requires Inv(s) && Enabled(s, a) && c in s.store.clients
    ensures var o, s' := s.store.clients[c], Apply(s, a);
            && (o.state.WaitReconnect? ==>
                  (!Carries(s', c, o.token) <==> (a.Take? && a.cid == c) || (a.Collect? && s.now >= o.state.expires)))
            && (o.state.Connected? ==> (!Carries(s', c, o.token) <==> a.Take? && a.cid == c))
            && (Carries(s', c, o.token) ==>
                  var o' := s'.store.clients[c];
                  && (o.state.WaitReconnect? ==> o' == o)
                  && (o.state.Connected? && o'.state.WaitReconnect? ==>
                        o'.state.expires == s.now + o.window && o'.wsTx == o.wsTx)
                  && o' == o.(state := o'.state, wsTx := o'.wsTx))
  {
    hide Apply, HeldOnce, LeasesResolve, HellosMatch;
    EntryStep(s, a, c);
  }

  // WaitReconnect is absorbing: the object keeps its expiry, and no packet is sent on it any more.
  lemma {:induction false} WaitingIsForever(tr: seq<Server>, i: nat, j: nat, c: ClientId, d: ClientId)
    requires IsRun(tr) && i <= j < |tr|
    requires c in tr[i].store.clients && tr[i].store.clients[c].state.WaitReconnect?
    requires Carries(tr[j], d, tr[i].store.clients[c].token)
    ensures d == c && tr[j].store.clients[c] == tr[i].store.clients[c]
    decreases j
  {
    hide Next;
    InvAt(tr, i);
    if i == j {
      TokensUniqueAt(tr, i);
    } else {
      InvAt(tr, j - 1);
      TokensGrow(tr, i, j - 1);
      CarriedBefore(tr[j - 1], tr[j], d, tr[i].store.clients[c].token);
      WaitingIsForever(tr, i, j - 1, c, d);
      WaitingKept(tr[j - 1], tr[j], c);
    }
  }

  lemma {:induction false} WaitingKept(s: Server, s': Server, c: ClientId)
    requires Inv(s) && Next(s, s') && c in s.store.clients && s.store.clients[c].state.WaitReconnect?
    requires Carries(s', c, s.store.clients[c].token)
    ensures s'.store.clients[c] == s.store.clients[c]
  {
    hide HeldOnce, LeasesResolve, HellosMatch;
    var a :| Enabled(s, a) && s' == Apply(s, a);
    ObjectStep(s, a, c);
  }

  // So a cleanup pass after that removes the object exactly when the clock has reached the fixed expiry.
  lemma {:induction false} CollectedExactlyAtExpiry(tr: seq<Server>, i: nat, j: nat, c: ClientId)
    requires IsRun(tr) && i <= j < |tr|
    requires c in tr[i].store.clients && tr[i].store.clients[c].state.WaitReconnect?
    requires Carries(tr[j], c, tr[i].store.clients[c].token)
    ensures Carries(Apply(tr[j], Collect), c, tr[i].store.clients[c].token) <==>
        tr[j].now < tr[i].store.clients[c].state.expires
  {
    hide Next;
    WaitingIsForever(tr, i, j, c, c);
    InvAt(tr, j);
    ObjectStep(tr[j], Collect, c);
  }

  // The object with token t, registered under c, stops being connected in the step from tr[k].
  ghost predicate Departs(tr: seq<Server>, k: nat, c: ClientId, t: nat)
    requires k + 1 < |tr|
  {
    && Carries(tr[k], c, t) && tr[k].store.clients[c].state.Connected?
    && Carries(tr[k + 1], c, t) && tr[k + 1].store.clients[c].state.WaitReconnect?
  }

  ghost predicate StepIs(tr: seq<Server>, k: nat, a: Action)
    requires k + 1 < |tr|
  {
    Enabled(tr[k], a) && tr[k + 1] == Apply(tr[k], a)
  }

  // A connected object starts to wait exactly in a step that fails to write to it, or in which a read loop of its
  // client id ends; it then waits until the window has passed.
  lemma {:induction false} DepartStep(s: Server, a: Action, c: ClientId)
    requires Inv(s) && Enabled(s, a) && c in s.store.clients && s.store.clients[c].state.Connected?
    ensures var o, s' := s.store.clients[c], Apply(s, a);
            && (Carries(s', c, o.token) && s'.store.clients[c].state.WaitReconnect? <==>
                  (a.ToClient? && a.cid == c && a.sink.WriteFails?) || (a.LoopExit? && s.loops[a.token] == c))
            && (Carries(s', c, o.token) && s'.store.clients[c].state.WaitReconnect? ==>
                  s'.store.clients[c].state == WaitReconnect(s.now + o.window))
  {
    EntryStep(s, a, c);
    hide Apply, Inv;
  }

  // A packet whose write fails starts the wait of the client it was for.
  lemma {:induction false} FailedWriteStartsWait(tr: seq<Server>, k: nat, c: ClientId, p: Packet)
    requires IsRun(tr) && k + 1 < |tr| && StepIs(tr, k, ToClient(c, p, WriteFails))
    requires c in tr[k].store.clients && tr[k].store.clients[c].state.Connected?
    ensures c in tr[k + 1].store.clients
    ensures tr[k + 1].store.clients[c].state == WaitReconnect(tr[k].now + tr[k].store.clients[c].window)
  {
    InvAt(tr, k);
    hide IsRun, Inv, Apply;
    DepartStep(tr[k], ToClient(c, p, WriteFails), c);
  }

  // The end of a read loop starts the wait of whoever is registered under its client id by then.
  lemma {:induction false} LoopExitStartsWait(tr: seq<Server>, k: nat, c: ClientId, token: nat)
    requires IsRun(tr) && k + 1 < |tr| && StepIs(tr, k, LoopExit(token)) && tr[k].loops[token] == c
    requires c in tr[k].store.clients && tr[k].store.clients[c].state.Connected?
    ensures c in tr[k + 1].store.clients
    ensures tr[k + 1].store.clients[c].state == WaitReconnect(tr[k].now + tr[k].store.clients[c].window)
  {
    InvAt(tr, k);
    hide IsRun, Inv, Apply;
    DepartStep(tr[k], LoopExit(token), c);
  }

  ghost predicate WriteFailsAt(tr: seq<Server>, k: nat, c: ClientId)
    requires k + 1 < |tr|
  {
    exists p :: StepIs(tr, k, ToClient(c, p, WriteFails))
  }

  ghost predicate LoopExitsAt(tr: seq<Server>, k: nat, c: ClientId)
    requires k + 1 < |tr|
  {
    exists l :: StepIs(tr, k, LoopExit(l)) && tr[k].loops[l] == c
  }

  // And nothing else does: over every run an object departs exactly in such a step.
  lemma {:induction false} DepartsExactly(tr: seq<Server>, k: nat, c: ClientId, t: nat)
    requires IsRun(tr) && k + 1 < |tr|
    ensures Departs(tr, k, c, t) <==>
              && Carries(tr[k], c, t) && tr[k].store.clients[c].state.Connected?
              && (WriteFailsAt(tr, k, c) || LoopExitsAt(tr, k, c))
  {
    if Carries(tr[k], c, t) && tr[k].store.clients[c].state.Connected? {
      if Departs(tr, k, c, t) {
        DepartureHasCause(tr, k, c, t);
      }
      if WriteFailsAt(tr, k, c) || LoopExitsAt(tr, k, c) {
        CauseOfDeparture(tr, k, c, t);
      }
    }
    hide IsRun, WriteFailsAt, LoopExitsAt;
  }

  lemma {:induction false} DepartureHasCause(tr: seq<Server>, k: nat, c: ClientId, t: nat)
    requires IsRun(tr) && k + 1 < |tr| && Departs(tr, k, c, t)
    ensures WriteFailsAt(tr, k, c) || LoopExitsAt(tr, k, c)
  {
    var a := StepOf(tr, k);
    hide IsRun, Inv, Apply, Enabled;
    DepartStep(tr[k], a, c);
    if a.ToClient? {
      assert StepIs(tr, k, ToClient(c, a.packet, WriteFails));
    } else {
      assert StepIs(tr, k, LoopExit(a.token));
    }
  }

  lemma {:induction false} CauseOfDeparture(tr: seq<Server>, k: nat, c: ClientId, t: nat)
    requires IsRun(tr) && k + 1 < |tr| && Carries(tr[k], c, t) && tr[k].store.clients[c].state.Connected?
    requires WriteFailsAt(tr, k, c) || LoopExitsAt(tr, k, c)
    ensures Departs(tr, k, c, t)
  {
    InvAt(tr, k);
    hide IsRun, Inv, Apply;
    if WriteFailsAt(tr, k, c) {
      var p :| StepIs(tr, k, ToClient(c, p, WriteFails));
      DepartStep(tr[k], ToClient(c, p, WriteFails), c);
    } else {
      var l :| StepIs(tr, k, LoopExit(l)) && tr[k].loops[l] == c;
      DepartStep(tr[k], LoopExit(l), c);
    }
  }

  // Every registered client waits, once it does, for the window the server was configured with.
  lemma {:induction false} WindowIsConfigured(tr: seq<Server>, i: nat, c: ClientId)
    requires IsRun(tr) && i < |tr|
    ensures tr[i].config == tr[0].config
    ensures c in tr[i].store.clients ==> tr[i].store.clients[c].window == tr[0].config.reconnectWindow
  {
    hide Next, Inv;
    if i > 0 {
      WindowIsConfigured(tr, i - 1, c);
      var a := StepOf(tr, i - 1);
      hide Apply, IsRun;
      WindowStep(tr[i - 1], a, c);
    }
  }

  lemma {:induction false} WindowStep(s: Server, a: Action, c: ClientId)
    requires Inv(s) && Enabled(s, a)
    ensures Apply(s, a).config == s.config
    ensures c in Apply(s, a).store.clients ==>
              || (c in s.store.clients && Apply(s, a).store.clients[c].window == s.store.clients[c].window)
              || Apply(s, a).store.clients[c].window == s.config.reconnectWindow
  {
    hide HeldOnce, LeasesResolve, HellosMatch;
    match a
    case ToClient(_, _, _) =>
    case Register(_) =>
    case Collect =>
    case _ =>
  }

  // An object that waits departed once in its life, and its expiry is the time of that departure plus its window.
  lemma {:induction false} ExpiryIsFixedAtDeparture(tr: seq<Server>, j: nat, c: ClientId) returns (k: nat)
    requires IsRun(tr) && j < |tr| && c in tr[j].store.clients && tr[j].store.clients[c].state.WaitReconnect?
    ensures k < j && Departs(tr, k, c, tr[j].store.clients[c].token)
    ensures tr[j].store.clients[c].state.expires == tr[k].now + tr[j].store.clients[c].window
    ensures forall l, d | 0 <= l < j && Departs(tr, l, d, tr[j].store.clients[c].token) :: l == k && d == c
  {
    k := Departure(tr, j, c);
    var t := tr[j].store.clients[c].token;
    forall l, d | 0 <= l < j && Departs(tr, l, d, t) ensures l == k && d == c {
      OneDeparture(tr, k, l, c, d, t);
    }
  }

  lemma {:induction false} Departure(tr: seq<Server>, j: nat, c: ClientId) returns (k: nat)
    requires IsRun(tr) && j < |tr| && c in tr[j].store.clients && tr[j].store.clients[c].state.WaitReconnect?
    ensures k < j && Departs(tr, k, c, tr[j].store.clients[c].token)
    ensures tr[j].store.clients[c].state.expires == tr[k].now + tr[j].store.clients[c].window
  {
    hide Next, Inv, Apply, Enabled;
    var a := StepOf(tr, j - 1);
    EntryStep(tr[j - 1], a, c);
    ObjectStep(tr[j - 1], a, c);
    k := j - 1;
    if tr[k].store.clients[c].state.WaitReconnect? {
      k := Departure(tr, j - 1, c);
    }
  }

  lemma {:induction false} OneDeparture(tr: seq<Server>, k: nat, l: nat, c: ClientId, d: ClientId, t: nat)
    requires IsRun(tr) && k + 1 < |tr| && l + 1 < |tr| && Departs(tr, k, c, t) && Departs(tr, l, d, t)
    ensures l == k && d == c
  {
    hide IsRun;
    if k < l {
      WaitingIsForever(tr, k + 1, l, c, d);
    } else if l < k {
      WaitingIsForever(tr, l + 1, k, d, c);
    } else {
      TokensUniqueAt(tr, k);
    }
  }

  lemma {:induction false} TokensGrow(tr: seq<Server>, i: nat, j: nat)
    requires IsRun(tr) && i <= j < |tr|
    ensures tr[i].nextToken <= tr[j].nextToken
    decreases j
  {
    hide Next;
    if i < j {
      TokensGrow(tr, i, j - 1);
      NextTokenGrows(tr[j - 1], tr[j]);
    }
  }

  lemma {:induction false} NextTokenGrows(s: Server, s': Server)
    requires Next(s, s')
    ensures s.nextToken <= s'.nextToken
  {
  }

  // ---------- the token held by the listeners ----------

  // A child token fires only when the object holding it is dropped after its expiry.
  lemma {:induction false} FiredStep(s: Server, a: Action, t: nat)
    requires Inv(s) && Enabled(s, a)
    ensures t in Apply(s, a).store.fired <==>
            t in s.store.fired || exists c ::
                Carries(s, c, t) && s.store.clients[c].CanCleanup(s.now) && (a == Collect || (a.Take? && a.cid == c))
  {
    hide HeldOnce, LeasesResolve, HellosMatch;
    if a.ToClient? {
      ClientsAfterSend(s, a.cid, a.packet, a.sink);
    }
    if a.Collect? {
      var gone := s.store.ExpiredClients(s.now);
      if t in s.store.TokensOf(gone) {
        var c :| c in gone && c in s.store.clients && s.store.clients[c].token == t;
        assert Carries(s, c, t);
      }
      if c :| Carries(s, c, t) && s.store.clients[c].CanCleanup(s.now) {
        assert c in gone;
      }
    }
    if a.Take? && s.store.clients[a.cid].token == t {
      assert Carries(s, a.cid, t);
    }
  }

  // Over a run, a token has fired exactly if some earlier step dropped its object at or after expiry.
  lemma {:induction false} FiredExactlyByExpiry(tr: seq<Server>, j: nat, t: nat)
    requires IsRun(tr) && j < |tr|
    ensures t in tr[j].store.fired <==> exists i :: 0 <= i < j && ExpiredDrop(tr[i], tr[i + 1], t)
  {
    hide Next, Inv;
    if j > 0 {
      FiredExactlyByExpiry(tr, j - 1, t);
      var a := StepOf(tr, j - 1);
      FiredStep(tr[j - 1], a, t);
      if ExpiredDrop(tr[j - 1], tr[j], t) {
        var c :| Carries(tr[j - 1], c, t) && tr[j - 1].store.clients[c].CanCleanup(tr[j - 1].now)
            && !Carries(tr[j], c, t);
        ObjectStep(tr[j - 1], a, c);
      }
      if t in tr[j].store.fired && t !in tr[j - 1].store.fired {
        var c :| Carries(tr[j - 1], c, t) && tr[j - 1].store.clients[c].CanCleanup(tr[j - 1].now);
        ObjectStep(tr[j - 1], a, c);
        TokensUniqueAt(tr, j - 1);
        assert ExpiredDrop(tr[j - 1], tr[j], t);
      }
    }
  }

  // The object with token t was registered, could be cleaned up, and is gone after the step.
  ghost predicate ExpiredDrop(s: Server, s': Server, t: nat) {
    exists c :: Carries(s, c, t) && s.store.clients[c].CanCleanup(s.now) && !Carries(s', c, t)
  }

  // Every registered client has listeners, spawned when its first object was registered.
  ghost predicate HasListeners(s: Server) {
    && (forall c | c in s.store.clients :: c in s.listeners)
    && (forall h | h in s.pending && !s.pending[h].isNew :: s.pending[h].cid in s.listeners)
    && (forall c | c in s.listeners :: s.listeners[c] < s.nextToken)
    && (forall t | t in s.store.fired :: t < s.nextToken)
  }

  lemma {:induction false} ListenersStep(s: Server, a: Action)
    requires Inv(s) && Enabled(s, a) && HasListeners(s)
    ensures HasListeners(Apply(s, a))
  {
    hide HeldOnce, LeasesResolve, HellosMatch;
    var s' := Apply(s, a);
    forall c | c in s'.store.clients ensures c in s'.listeners {
      EntryStep(s, a, c);
    }
    FiredBelow(s, a);
    hide StoreState.Cleanup, StoreState.SendToClient, StoreState.DropClient, StoreState.SetWaitReconnect;
  }

  lemma {:induction false} FiredBelow(s: Server, a: Action)
    requires Inv(s) && Enabled(s, a) && forall t | t in s.store.fired :: t < s.nextToken
    ensures forall t | t in Apply(s, a).store.fired :: t < Apply(s, a).nextToken
  {
    var s' := Apply(s, a);
    assert s.nextToken <= s'.nextToken;
    hide Apply, HeldOnce, LeasesResolve, HellosMatch;
    forall t | t in s'.store.fired ensures t < s'.nextToken {
      FiredStep(s, a, t);
    }
  }

  lemma {:induction false} HasListenersAt(tr: seq<Server>, i: nat)
    requires IsRun(tr) && i < |tr|
    ensures HasListeners(tr[i])
  {
    hide Next, Inv, Apply;
    if i > 0 {
      HasListenersAt(tr, i - 1);
      var a := StepOf(tr, i - 1);
      ListenersStep(tr[i - 1], a);
    }
  }

  // Only the first object registered for a client id brings listeners.
  ghost predicate ListenersNew(s: Server) {
    && (forall h | h in s.pending && s.pending[h].isNew :: s.pending[h].cid !in s.listeners)
    && (forall c | c in s.listeners :: c in s.leases)
  }

  lemma {:induction false} ListenersKept(s: Server, a: Action, c: ClientId)
    requires Bookkeeping(s) && ListenersNew(s) && Enabled(s, a)
    ensures ListenersNew(Apply(s, a))
    ensures c in s.listeners ==> c in Apply(s, a).listeners && Apply(s, a).listeners[c] == s.listeners[c]
  {
    match a
    case Lease(_, _, _, _, _) =>
    case SendHello(_, _) =>
    case Register(_) =>
    case Take(_, _) =>
    case _ =>
  }

  lemma {:induction false} BookkeepingOf(s: Server)
    requires Inv(s)
    ensures Bookkeeping(s)
  {
  }

  // Once spawned, the listeners of a client id hold the same token for ever.
  lemma {:induction false} ListenersFixed(tr: seq<Server>, i: nat, j: nat, c: ClientId)
    requires IsRun(tr) && i <= j < |tr|
    ensures ListenersNew(tr[j])
    ensures c in tr[i].listeners ==> c in tr[j].listeners && tr[j].listeners[c] == tr[i].listeners[c]
    decreases j
  {
    hide Next, Inv, ListenersNew;
    if j == 0 {
      InitialListeners(tr[0], c);
    } else {
      var a := StepOf(tr, j - 1);
      ListenersFixed(tr, if i < j then i else j - 1, j - 1, c);
      BookkeepingOf(tr[j - 1]);
      hide Apply, Enabled, Bookkeeping;
      ListenersKept(tr[j - 1], a, c);
    }
  }

  lemma {:induction false} FiredStays(tr: seq<Server>, i: nat, j: nat, t: nat)
    requires IsRun(tr) && i <= j < |tr| && t in tr[i].store.fired
    ensures t in tr[j].store.fired
    decreases j
  {
    hide Next, Inv, Apply, Enabled;
    if i < j {
      FiredStays(tr, i, j - 1, t);
      var a := StepOf(tr, j - 1);
      FiredStep(tr[j - 1], a, t);
    }
  }

  // ---------- reconnects and the listeners ----------

  // The step from tr[k] takes the client registered under c out for a reconnect.
  ghost predicate TakenAt(tr: seq<Server>, k: nat, c: ClientId)
    requires k + 1 < |tr|
  {
    exists h :: Enabled(tr[k], Take(h, c)) && tr[k + 1] == Apply(tr[k], Take(h, c))
  }

  ghost predicate NeverTaken(tr: seq<Server>, i: nat, c: ClientId)
    requires i < |tr|
  {
    forall k | 0 <= k < i :: !TakenAt(tr, k, c)
  }

  ghost predicate FirstTakenAt(tr: seq<Server>, k: nat, c: ClientId)
    requires k + 1 < |tr|
  {
    TakenAt(tr, k, c) && NeverTaken(tr, k, c)
  }

  ghost predicate FirstObject(s: Server, c: ClientId) {
    && (c in s.store.clients ==> c in s.listeners && Carries(s, c, s.listeners[c]))
    && (forall h | h in s.pending && s.pending[h].cid == c :: s.pending[h].isNew)
  }

  lemma {:induction false} InitialListeners(s: Server, c: ClientId)
    requires InitialServer(s)
    ensures ListenersNew(s) && FirstObject(s, c)
  {
  }

  lemma {:induction false} FirstObjectStep(s: Server, a: Action, c: ClientId)
    requires Inv(s) && Enabled(s, a) && FirstObject(s, c) && !(a.Take? && a.cid == c)
    ensures FirstObject(Apply(s, a), c)
  {
    EntryStep(s, a, c);
    hide HeldOnce, LeasesResolve, HellosMatch;
  }

  // While nobody has reconnected under c, its registered object is the one whose token the listeners hold.
  lemma {:induction false} NeverTakenCarries(tr: seq<Server>, i: nat, c: ClientId)
    requires IsRun(tr) && i < |tr| && NeverTaken(tr, i, c)
    ensures FirstObject(tr[i], c)
  {
    hide Next, Inv, FirstObject;
    if i == 0 {
      InitialListeners(tr[0], c);
    } else {
      assert !TakenAt(tr, i - 1, c);
      NeverTakenCarries(tr, i - 1, c);
      var a := StepOf(tr, i - 1);
      FirstObjectStep(tr[i - 1], a, c);
    }
  }

  lemma {:induction false} FirstTake(tr: seq<Server>, i: nat, c: ClientId) returns (k: nat)
    requires i < |tr| && !NeverTaken(tr, i, c)
    ensures k < i && FirstTakenAt(tr, k, c)
  {
    if NeverTaken(tr, i - 1, c) {
      k := i - 1;
    } else {
      k := FirstTake(tr, i - 1, c);
    }
  }

  lemma {:induction false} FirstTakeUnique(tr: seq<Server>, k: nat, l: nat, c: ClientId)
    requires k + 1 < |tr| && l + 1 < |tr| && FirstTakenAt(tr, k, c) && FirstTakenAt(tr, l, c)
    ensures k == l
  {
    hide NeverTaken, TakenAt;
    if k < l {
      NotTakenBefore(tr, l, k, c);
    } else if l < k {
      NotTakenBefore(tr, k, l, c);
    }
  }

  lemma {:induction false} NotTakenBefore(tr: seq<Server>, i: nat, k: nat, c: ClientId)
    requires i < |tr| && k < i && NeverTaken(tr, i, c)
    ensures !TakenAt(tr, k, c)
  {
  }

  // The step of the first reconnect: the listeners' token fires there exactly if the old object could be cleaned up,
  // and no object carries it any more.
  lemma {:induction false} AtFirstTake(tr: seq<Server>, k: nat, c: ClientId)
    requires IsRun(tr) && k + 1 < |tr| && FirstTakenAt(tr, k, c)
    ensures c in tr[k].store.clients && c in tr[k].listeners && Carries(tr[k], c, tr[k].listeners[c])
    ensures tr[k].listeners[c] in tr[k + 1].store.fired <==> tr[k].store.clients[c].CanCleanup(tr[k].now)
    ensures Uncarried(tr[k + 1], tr[k].listeners[c]) && tr[k].listeners[c] < tr[k + 1].nextToken
  {
    NeverTakenCarries(tr, k, c);
    InvAt(tr, k);
    TokensUniqueAt(tr, k);
    RegisteredUnfired(tr, k, c);
    HasListenersAt(tr, k);
    var h :| Enabled(tr[k], Take(h, c)) && tr[k + 1] == Apply(tr[k], Take(h, c));
    var t := tr[k].listeners[c];
    FiredStep(tr[k], Take(h, c), t);
    TakeDropsToken(tr[k], h, c, t);
    hide Next, Inv, IsRun;
  }

  lemma {:induction false} TakeDropsToken(s: Server, h: nat, c: ClientId, t: nat)
    requires Enabled(s, Take(h, c)) && TokensUnique(s) && Carries(s, c, t)
    ensures Uncarried(Apply(s, Take(h, c)), t)
    ensures Apply(s, Take(h, c)).nextToken == s.nextToken
  {
  }

  // A first reconnect before expiry drops the one object whose collection would cancel the listeners: their token never
  // fires, across every later reconnect and also after the client itself is cleaned up.
  lemma {:induction false} ReconnectKeepsListeners(tr: seq<Server>, k: nat, j: nat, c: ClientId)
    requires IsRun(tr) && k < j < |tr| && FirstTakenAt(tr, k, c)
    requires c in tr[k].store.clients && !tr[k].store.clients[c].CanCleanup(tr[k].now)
    ensures c in tr[j].listeners && tr[j].listeners[c] !in tr[j].store.fired
    ensures Uncarried(tr[j], tr[j].listeners[c])
  {
    hide Next, FirstTakenAt;
    AtFirstTake(tr, k, c);
    ListenersFixed(tr, k, j, c);
    NeverFires(tr, k + 1, j, tr[k].listeners[c]);
  }

  // Cleaning up a client that never reconnected always cancels its listeners.
  lemma {:induction false} CleanupStopsListeners(tr: seq<Server>, i: nat, c: ClientId)
    requires IsRun(tr) && i < |tr| && NeverTaken(tr, i, c) && c in tr[i].store.ExpiredClients(tr[i].now)
    ensures c in tr[i].listeners && tr[i].listeners[c] in Apply(tr[i], Collect).store.fired
  {
    NeverTakenCarries(tr, i, c);
    InvAt(tr, i);
    hide IsRun, NeverTaken;
    FiredStep(tr[i], Collect, tr[i].listeners[c]);
  }

  // In every run, collecting an expired client leaves its listeners cancelled exactly if the first reconnect of that
  // client, if there was one, came when the old object had already expired.
  lemma {:induction false} ListenersStoppedExactly(tr: seq<Server>, i: nat, c: ClientId)
    requires IsRun(tr) && i < |tr| && c in tr[i].store.ExpiredClients(tr[i].now)
    ensures c in tr[i].listeners
    ensures tr[i].listeners[c] in Apply(tr[i], Collect).store.fired <==>
            forall k | 0 <= k < i && FirstTakenAt(tr, k, c) ::
              tr[k].Registered(c) && tr[k].store.clients[c].CanCleanup(tr[k].now)
  {
    HasListenersAt(tr, i);
    hide Next, TakenAt, Inv, HasListeners;
    if NeverTaken(tr, i, c) {
      CleanupStopsListeners(tr, i, c);
    } else {
      var k := FirstTake(tr, i, c);
      forall l | 0 <= l < i && FirstTakenAt(tr, l, c) ensures l == k {
        FirstTakeUnique(tr, k, l, c);
      }
      hide NeverTaken, FirstTakenAt, IsRun;
      AfterFirstTake(tr, k, i, c);
    }
  }

  lemma {:induction false} AfterFirstTake(tr: seq<Server>, k: nat, i: nat, c: ClientId)
    requires IsRun(tr) && k < i < |tr| && FirstTakenAt(tr, k, c)
    ensures c in tr[i].listeners && tr[k].Registered(c)
    ensures tr[i].listeners[c] in Apply(tr[i], Collect).store.fired <==> tr[k].store.clients[c].CanCleanup(tr[k].now)
  {
    hide Next, FirstTakenAt;
    AtFirstTake(tr, k, c);
    ListenersFixed(tr, k, i, c);
    InvAt(tr, i);
    var t := tr[k].listeners[c];
    hide IsRun, Inv, Carries;
    FiredStep(tr[i], Collect, t);
    if tr[k].store.clients[c].CanCleanup(tr[k].now) {
      FiredStays(tr, k + 1, i, t);
    } else {
      ReconnectKeepsListeners(tr, k, i, c);
    }
  }

  // While a client object is registered, its token has not fired.
  lemma {:induction false} RegisteredUnfired(tr: seq<Server>, i: nat, c: ClientId)
    requires IsRun(tr) && i < |tr| && c in tr[i].store.clients
    ensures tr[i].store.clients[c].token !in tr[i].store.fired
    decreases i, 0
  {
    hide Next;
    var t := tr[i].store.clients[c].token;
    if i > 0 {
      var s, s' := tr[i - 1], tr[i];
      InvAt(tr, i - 1);
      HasListenersAt(tr, i - 1);
      var a := StepOf(tr, i - 1);
      StillUnfired(tr, i - 1, a, c);
    }
  }

  lemma {:induction false} StillUnfired(tr: seq<Server>, i: nat, a: Action, c: ClientId)
    requires IsRun(tr) && i < |tr| && Inv(tr[i]) && HasListeners(tr[i]) && Enabled(tr[i], a)
    requires c in Apply(tr[i], a).store.clients
    ensures Apply(tr[i], a).store.clients[c].token !in Apply(tr[i], a).store.fired
    decreases i, 1
  {
    hide Next, Apply, HeldOnce, LeasesResolve, HellosMatch;
    var s := tr[i];
    var t := Apply(s, a).store.clients[c].token;
    EntryStep(s, a, c);
    FiredStep(s, a, t);
    if t < s.nextToken {
      RegisteredUnfired(tr, i, c);
      TokensUniqueAt(tr, i);
    }
  }

  lemma {:induction false} FiredNext(s: Server, s': Server, t: nat)
    requires Inv(s) && Next(s, s') && t in s'.store.fired && t !in s.store.fired
    ensures exists c :: Carries(s, c, t)
  {
    hide HeldOnce, LeasesResolve, HellosMatch;
    var a :| Enabled(s, a) && s' == Apply(s, a);
    FiredStep(s, a, t);
  }

  // The token of an object that is gone and has not fired never fires.
  lemma {:induction false} NeverFires(tr: seq<Server>, i: nat, j: nat, t: nat)
    requires IsRun(tr) && i <= j < |tr|
    requires t < tr[i].nextToken && t !in tr[i].store.fired && Uncarried(tr[i], t)
    ensures t !in tr[j].store.fired && Uncarried(tr[j], t)
    decreases j
  {
    hide Next, Inv;
    if i < j {
      NeverFires(tr, i, j - 1, t);
      InvAt(tr, j - 1);
      TokensGrow(tr, i, j - 1);
      if t in tr[j].store.fired {
        FiredNext(tr[j - 1], tr[j], t);
      }
      forall c: ClientId | Carries(tr[j], c, t) ensures false {
        CarriedBefore(tr[j - 1], tr[j], c, t);
      }
    }
  }
}
