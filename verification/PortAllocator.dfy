// ownserver_server/src/port_allocator.rs: leasing remote ports to endpoint claims.
module PortAllocation {
  import opened Wrappers
  import opened Protocol
  import opened Sequences

  datatype PortAllocatorError = AllocationFailed | PortOutOfRange | PortAlreadyReleased

  // ---------- what a claim list asks for ----------

  function ClaimKey(c: EndpointClaim): (Protocol, u16) { (c.protocol, c.localPort) }

  function EndpointKey(e: Endpoint): (Protocol, u16) { (e.protocol, e.localPort) }

  ghost function ClaimKeys(claims: seq<EndpointClaim>): set<(Protocol, u16)> {
    if claims == [] then {} else ClaimKeys(Front(claims)) + {ClaimKey(Last(claims))}
  }

  ghost function LocalPorts(claims: seq<EndpointClaim>): set<u16> {
    if claims == [] then {} else LocalPorts(Front(claims)) + {Last(claims).localPort}
  }

  // The claims for one local port, in claim order.
  ghost function ClaimsAt(claims: seq<EndpointClaim>, port: u16): (r: seq<EndpointClaim>)
    ensures r == [] <==> port !in LocalPorts(claims)
  {
    if claims == [] then []
    else if Last(claims).localPort == port then ClaimsAt(Front(claims), port) + [Last(claims)]
    else ClaimsAt(Front(claims), port)
  }

  // No two claims name the same local port and protocol, and none asks for a particular remote port.
  ghost predicate Servable(claims: seq<EndpointClaim>) {
    claims == [] ||
    (ClaimKey(Last(claims)) !in ClaimKeys(Front(claims)) && Last(claims).remotePort == 0 && Servable(Front(claims)))
  }

  // The exact condition under which a claim list can be served from `free` ports.
  ghost predicate Grantable(claims: seq<EndpointClaim>, free: nat) {
    |LocalPorts(claims)| <= free && Servable(claims)
  }

  // ---------- what a grant looks like ----------

  ghost function EndpointKeys(eps: seq<Endpoint>): set<(Protocol, u16)> {
    if eps == [] then {} else EndpointKeys(Front(eps)) + {EndpointKey(Last(eps))}
  }

  // No two endpoints serve the same local port and protocol.
  ghost predicate DistinctEndpoints(eps: seq<Endpoint>) {
    eps == [] || (EndpointKey(Last(eps)) !in EndpointKeys(Front(eps)) && DistinctEndpoints(Front(eps)))
  }

  // Two endpoints have the same remote port exactly when they have the same local port.
  ghost predicate SharesByLocalPort(eps: seq<Endpoint>) {
    forall e, f | e in eps && f in eps :: e.remotePort == f.remotePort <==> e.localPort == f.localPort
  }

  // EndpointId::new() once per endpoint: consecutive unused ids.
  ghost predicate NumberedFrom(eps: seq<Endpoint>, firstId: nat) {
    forall i :: 0 <= i < |eps| ==> eps[i].id == firstId + i
  }

  // What a successful allocation hands out: the endpoints are in bijection with the claims (protocol
  // and local port kept), share a remote port exactly when they share a local port, and took
  // exactly their remote ports out of the available set.
  ghost predicate IsGrant(claims: seq<EndpointClaim>, eps: seq<Endpoint>, before: set<u16>, after: set<u16>,
      firstId: nat) {
    && |eps| == |claims|
    && EndpointKeys(eps) == ClaimKeys(claims)
    && DistinctEndpoints(eps)
    && SharesByLocalPort(eps)
    && NumberedFrom(eps, firstId)
    && RemotePorts(eps) <= before
    && after == before - RemotePorts(eps)
  }

  // ---------- facts about claims ----------

  lemma {:induction false} KeyInBucket(claims: seq<EndpointClaim>, key: (Protocol, u16))
    ensures key in ClaimKeys(claims) <==> key in ClaimKeys(ClaimsAt(claims, key.1))
  {
    if claims == [] {
    } else {
      KeyInBucket(Front(claims), key);
      Snoc(ClaimsAt(Front(claims), key.1), Last(claims));
    }
  }

  lemma {:induction false} ServableInBucket(claims: seq<EndpointClaim>, port: u16)
    requires Servable(claims)
    ensures Servable(ClaimsAt(claims, port))
  {
    if claims == [] {
    } else {
      ServableInBucket(Front(claims), port);
      KeyInBucket(Front(claims), ClaimKey(Last(claims)));
      Snoc(ClaimsAt(Front(claims), port), Last(claims));
    }
  }

  lemma {:induction false} ServableFromBuckets(claims: seq<EndpointClaim>)
    requires forall p | p in LocalPorts(claims) :: Servable(ClaimsAt(claims, p))
    ensures Servable(claims)
  {
    if claims == [] {
    } else {
      var front, last := Front(claims), Last(claims);
      KeyInBucket(front, ClaimKey(last));
      Snoc(ClaimsAt(front, last.localPort), last);
      forall p | p in LocalPorts(front) ensures Servable(ClaimsAt(front, p)) {
        assert p in LocalPorts(claims) && Servable(ClaimsAt(claims, p));
      }
      assert Servable(ClaimsAt(claims, last.localPort));
      ServableFromBuckets(front);
    }
  }

  lemma {:induction false} ServablePrefix(claims: seq<EndpointClaim>, k: nat)
    requires k <= |claims| && Servable(claims)
    ensures Servable(claims[..k])
  {
    if k == |claims| {
      assert claims[..k] == claims;
    } else {
      ServablePrefix(Front(claims), k);
      assert Front(claims)[..k] == claims[..k];
    }
  }

  lemma {:induction false} ServableCount(claims: seq<EndpointClaim>)
    requires Servable(claims)
    ensures |ClaimKeys(claims)| == |claims|
  {
    if claims == [] {
    } else {
      ServableCount(Front(claims));
    }
  }

  lemma {:induction false} KeysByMultiset(claims: seq<EndpointClaim>)
    ensures ClaimKeys(claims) == set c | c in multiset(claims) :: ClaimKey(c)
    ensures LocalPorts(claims) == set c | c in multiset(claims) :: c.localPort
  {
    if claims == [] {
    } else {
      KeysByMultiset(Front(claims));
      MultisetSnoc(claims);
    }
  }

  // Servability read off the multiset of the claims.
  lemma {:induction false} ServableByCount(claims: seq<EndpointClaim>)
    ensures Servable(claims) <==> forall c: EndpointClaim | c in multiset(claims) ::
        multiset(claims)[c] == 1 && c.remotePort == 0
  {
    if claims == [] {
    } else {
      var front, last := Front(claims), Last(claims);
      ServableByCount(front);
      KeysByMultiset(front);
      MultisetSnoc(claims);
      assert multiset(claims)[last] == multiset(front)[last] + 1;
      if Servable(claims) {
        assert last !in multiset(front);
      }
      if forall c: EndpointClaim | c in multiset(claims) :: multiset(claims)[c] == 1 && c.remotePort == 0 {
        forall c: EndpointClaim | c in multiset(front)
            ensures multiset(front)[c] == 1 && c.remotePort == 0 && ClaimKey(c) != ClaimKey(last) {
          assert c in multiset(claims) && c != last;
        }
      }
    }
  }

  // The order in which a client lists its claims never decides whether they can be served.
  lemma {:induction false} GrantableIgnoresOrder(a: seq<EndpointClaim>, b: seq<EndpointClaim>, free: nat)
    requires multiset(a) == multiset(b)
    ensures Grantable(a, free) <==> Grantable(b, free)
  {
    KeysByMultiset(a);
    KeysByMultiset(b);
    ServableByCount(a);
    ServableByCount(b);
  }

  // ---------- facts about grants ----------

  lemma {:induction false} EndpointCount(eps: seq<Endpoint>)
    requires DistinctEndpoints(eps)
    ensures |EndpointKeys(eps)| == |eps|
  {
    if eps == [] {
    } else {
      EndpointCount(Front(eps));
    }
  }

  lemma {:induction false} KeyOfMember(eps: seq<Endpoint>, i: nat)
    requires i < |eps|
    ensures EndpointKey(eps[i]) in EndpointKeys(eps)
  {
    if i < |eps| - 1 {
      KeyOfMember(Front(eps), i);
    }
  }

  lemma {:induction false} DistinctAt(eps: seq<Endpoint>, i: nat, j: nat)
    requires DistinctEndpoints(eps) && i < j < |eps|
    ensures EndpointKey(eps[i]) != EndpointKey(eps[j])
  {
    if j == |eps| - 1 {
      KeyOfMember(Front(eps), i);
    } else {
      DistinctAt(Front(eps), i, j);
    }
  }

  // No two granted endpoints can be reached through the same remote port and protocol.
  lemma {:induction false} GrantPairsDistinct(claims: seq<EndpointClaim>, eps: seq<Endpoint>, before: set<u16>,
      after: set<u16>, firstId: nat, i: nat, j: nat)
    requires IsGrant(claims, eps, before, after, firstId) && i < j < |eps|
    ensures (eps[i].remotePort, eps[i].protocol) != (eps[j].remotePort, eps[j].protocol)
  {
    DistinctAt(eps, i, j);
    assert eps[i] in eps && eps[j] in eps;
  }

  // A grant takes exactly one port per claimed local port.
  lemma {:induction false} GrantSize(claims: seq<EndpointClaim>, eps: seq<Endpoint>, before: set<u16>, after: set<u16>,
      firstId: nat)
    requires IsGrant(claims, eps, before, after, firstId)
    ensures |RemotePorts(eps)| == |LocalPorts(claims)|
  {
    ClaimedPorts(claims);
    ServedPorts(eps);
    SharedExactly(eps);
  }

  ghost function KeyPorts(keys: set<(Protocol, u16)>): set<u16> {
    set k | k in keys :: k.1
  }

  ghost function ServedLocalPorts(eps: seq<Endpoint>): set<u16> {
    if eps == [] then {} else ServedLocalPorts(Front(eps)) + {Last(eps).localPort}
  }

  lemma {:induction false} ClaimedPorts(claims: seq<EndpointClaim>)
    ensures LocalPorts(claims) == KeyPorts(ClaimKeys(claims))
  {
    if claims == [] {
    } else {
      ClaimedPorts(Front(claims));
    }
  }

  lemma {:induction false} ServedPorts(eps: seq<Endpoint>)
    ensures ServedLocalPorts(eps) == KeyPorts(EndpointKeys(eps))
  {
    if eps == [] {
    } else {
      ServedPorts(Front(eps));
    }
  }

  lemma {:induction false} ServedBySome(eps: seq<Endpoint>, port: u16)
    ensures port in ServedLocalPorts(eps) <==> exists e :: e in eps && e.localPort == port
  {
    if eps == [] {
    } else {
      ServedBySome(Front(eps), port);
      InSnoc(eps);
    }
  }

  lemma {:induction false} SharedExactly(eps: seq<Endpoint>)
    requires SharesByLocalPort(eps)
    ensures |RemotePorts(eps)| == |ServedLocalPorts(eps)|
  {
    if eps == [] {
    } else {
      NewTogether(eps);
      InSnoc(eps);
      var ports, locals := RemotePorts(Front(eps)), ServedLocalPorts(Front(eps));
      SharedExactly(Front(eps));
      assert RemotePorts(eps) == ports + {Last(eps).remotePort};
      assert ServedLocalPorts(eps) == locals + {Last(eps).localPort};
    }
  }

  // A further endpoint brings in a new remote port exactly when it brings in a new local port.
  lemma {:induction false} NewTogether(eps: seq<Endpoint>)
    requires eps != [] && SharesByLocalPort(eps)
    ensures Last(eps).remotePort in RemotePorts(Front(eps)) <==> Last(eps).localPort in ServedLocalPorts(Front(eps))
  {
    RemotePortsMember(Front(eps), Last(eps).remotePort);
    ServedBySome(Front(eps), Last(eps).localPort);
    InSnoc(eps);
  }

  // ---------- the allocator ----------

  ghost function PortRange(lo: u16, hi: u16): (r: set<u16>)
    ensures forall p :: p in r <==> lo <= p < hi
    decreases hi - lo
  {
    if lo < hi then PortRange(lo, hi - 1) + {hi - 1} else {}
  }

  ghost predicate DistinctPorts(ports: seq<u16>) {
    ports == [] || (Last(ports) !in PortSet(Front(ports)) && DistinctPorts(Front(ports)))
  }

  ghost function PortSet(ports: seq<u16>): set<u16> {
    if ports == [] then {} else PortSet(Front(ports)) + {Last(ports)}
  }

  // Every claim of the bucket is for local port `port`.
  ghost predicate ClaimsOnly(bucket: seq<EndpointClaim>, port: u16) {
    bucket == [] || (Last(bucket).localPort == port && ClaimsOnly(Front(bucket), port))
  }

  ghost predicate IsBucket(bucket: seq<EndpointClaim>, port: u16) {
    bucket != [] && Servable(bucket) && ClaimsOnly(bucket, port)
  }

  // The keys of the buckets visited so far.
  ghost function VisitedKeys(m: map<u16, seq<EndpointClaim>>, order: seq<u16>): set<(Protocol, u16)>
  {
    if order == [] then {}
    else VisitedKeys(m, Front(order)) + if Last(order) in m then ClaimKeys(m[Last(order)]) else {}
  }

  lemma {:induction false} VisitedKey(m: map<u16, seq<EndpointClaim>>, order: seq<u16>, k: (Protocol, u16))
    requires forall p | p in m :: ClaimsOnly(m[p], p)
    ensures k in VisitedKeys(m, order) <==> k.1 in PortSet(order) && k.1 in m && k in ClaimKeys(m[k.1])
  {
    if order == [] {
    } else {
      VisitedKey(m, Front(order), k);
      if Last(order) in m {
        OnlyKeys(m[Last(order)], Last(order));
      }
    }
  }

  lemma {:induction false} OnlyAt(bucket: seq<EndpointClaim>, port: u16, i: nat)
    requires ClaimsOnly(bucket, port) && i < |bucket|
    ensures bucket[i].localPort == port
  {
    if i < |bucket| - 1 {
      OnlyAt(Front(bucket), port, i);
    }
  }

  lemma {:induction false} OnlyAtPort(claims: seq<EndpointClaim>, port: u16)
    ensures ClaimsOnly(ClaimsAt(claims, port), port)
  {
    if claims == [] {
    } else {
      OnlyAtPort(Front(claims), port);
      Snoc(ClaimsAt(Front(claims), port), Last(claims));
    }
  }

  lemma {:induction false} OnlyKeys(bucket: seq<EndpointClaim>, port: u16)
    requires ClaimsOnly(bucket, port)
    ensures forall k | k in ClaimKeys(bucket) :: k.1 == port
  {
    if bucket == [] {
    } else {
      OnlyKeys(Front(bucket), port);
    }
  }

  // The endpoints of one local port: same remote port, ids in claim order.
  function EndpointsFor(claims: seq<EndpointClaim>, remotePort: u16, firstId: nat): (r: seq<Endpoint>)
    ensures |r| == |claims|
  {
    seq(|claims|, i requires 0 <= i < |claims| =>
      Endpoint(firstId + i, claims[i].protocol, claims[i].localPort, remotePort))
  }

  // What one call does to the available ports, as seen by a caller: a failed allocation grants {}.
  datatype PortEvent = Granted(ports: set<u16>) | Released(port: u16, ok: bool)

  ghost predicate PortStep(lo: u16, hi: u16, before: set<u16>, ev: PortEvent, after: set<u16>) {
    match ev
    case Granted(ports) => ports <= before && after == before - ports
    case Released(port, ok) =>
      (ok <==> Release(before, lo, hi, port).0.Success?) && after == Release(before, lo, hi, port).1
  }

  // What releasing one port answers, and the ports available afterwards.
  function Release(available: set<u16>, lo: u16, hi: u16, port: u16): (Result<(), PortAllocatorError>, set<u16>) {
    if !(lo <= port < hi) then (Failure(PortOutOfRange), available)
    else if port in available then (Failure(PortAlreadyReleased), available)
    else (Success(()), available + {port})
  }

  class PortAllocator {
    var availablePorts: set<u16>
    const lo: u16
    const hi: u16

    ghost predicate Valid()
      reads this
    {
      availablePorts <= PortRange(lo, hi)
    }

    constructor (lo: u16, hi: u16)
      ensures Valid() && this.lo == lo && this.hi == hi && availablePorts == PortRange(lo, hi)
    {
      this.lo, this.hi := lo, hi;
      availablePorts := {};
      new;
      for p := lo to if lo < hi then hi else lo
        invariant forall q: u16 :: q in availablePorts <==> lo <= q < p
      {
        availablePorts := availablePorts + {p};
      }
      assert availablePorts == PortRange(lo, hi);
    }

    method AllocatePort() returns (r: Result<u16, PortAllocatorError>)
      requires Valid()
      modifies this
      ensures Valid()
      ensures r.Success? <==> old(availablePorts) != {}
      ensures r.Success? ==> r.value in old(availablePorts) && availablePorts == old(availablePorts) - {r.value}
      ensures r.Failure? ==> r.error == AllocationFailed && availablePorts == old(availablePorts)
      ensures PortStep(lo, hi, old(availablePorts), Granted(if r.Success? then {r.value} else {}), availablePorts)
    {
      if availablePorts != {} {
        var n :| n in availablePorts;
        availablePorts := availablePorts - {n};
        return Success(n);
      }
      return Failure(AllocationFailed);
    }

    method AggregateClaimsByLocalPort(claims: seq<EndpointClaim>) returns (m: map<u16, seq<EndpointClaim>>)
      ensures m.Keys == LocalPorts(claims)
      ensures forall p | p in m :: m[p] == ClaimsAt(claims, p)
    {
      m := map[];
      for i := 0 to |claims|
        invariant m.Keys == LocalPorts(claims[..i])
        invariant forall p | p in m :: m[p] == ClaimsAt(claims[..i], p)
      {
        var claim := claims[i];
        TakeSnoc(claims, i);
        if claim.localPort !in m {
          m := m[claim.localPort := []];
        }
        m := m[claim.localPort := m[claim.localPort] + [claim]];
      }
      assert claims[..|claims|] == claims;
    }

    // The buckets are visited in any order; a duplicate is noticed through the (port, protocol) set.
    method ValidateEndpointClaims(m: map<u16, seq<EndpointClaim>>) returns (r: Result<(), PortAllocatorError>)
      requires forall p | p in m :: ClaimsOnly(m[p], p)
      ensures r.Success? <==> |m| <= |availablePorts| && forall p | p in m :: Servable(m[p])
      ensures r.Failure? ==> r.error == AllocationFailed
    {
      if |m.Keys| > |availablePorts| {
        return Failure(AllocationFailed);
      }
      var localPorts: set<(Protocol, u16)> := {};
      var todo := m.Keys;
      while todo != {}
        invariant todo <= m.Keys
        invariant forall p | p in m && p !in todo :: Servable(m[p])
        invariant forall k | k in localPorts :: k.1 !in todo
      {
        var p :| p in todo;
        ghost var others := localPorts;
        for i := 0 to |m[p]|
          invariant Servable(m[p][..i])
          invariant localPorts == others + ClaimKeys(m[p][..i])
          invariant forall k | k in localPorts :: k.1 !in todo - {p}
        {
          var claim := m[p][i];
          TakeSnoc(m[p], i);
          OnlyAt(m[p], p, i);
          if Servable(m[p]) {
            ServablePrefix(m[p], i + 1);
          }
          if ClaimKey(claim) in localPorts {
            return Failure(AllocationFailed);
          }
          localPorts := localPorts + {ClaimKey(claim)};
          if claim.remotePort != 0 {
            return Failure(AllocationFailed);
          }
        }
        assert m[p][..|m[p]|] == m[p];
        todo := todo - {p};
      }
      return Success(());
    }

    // The allocation loop: as many distinct available ports as there are claimed local ports.
    method TakePorts(numPorts: nat) returns (ports: seq<u16>)
      requires Valid() && numPorts <= |availablePorts|
      modifies this
      ensures Valid() && |ports| == numPorts
      ensures DistinctPorts(ports)
      ensures PortSet(ports) <= old(availablePorts)
      ensures availablePorts == old(availablePorts) - PortSet(ports)
    {
      ports := [];
      while |ports| < numPorts
        invariant |ports| <= numPorts
        invariant DistinctPorts(ports)
        invariant forall p :: p in availablePorts <==> p in old(availablePorts) && p !in PortSet(ports)
        invariant forall p | p in PortSet(ports) :: p in old(availablePorts)
        invariant |availablePorts| + |ports| == |old(availablePorts)|
      {
        if availablePorts == {} {
          assert false;  // the branch of the source that puts the ports back is never reached
        }
        var n :| n in availablePorts;
        Snoc(ports, n);
        availablePorts := availablePorts - {n};
        ports := ports + [n];
      }
    }

    method AllocatePorts(claims: seq<EndpointClaim>, firstId: nat)
      returns (r: Result<seq<Endpoint>, PortAllocatorError>)
      requires Valid()
      modifies this
      ensures Valid()
      ensures r.Success? <==> Grantable(claims, |old(availablePorts)|)
      ensures r.Success? ==> IsGrant(claims, r.value, old(availablePorts), availablePorts, firstId)
      ensures r.Failure? ==> r.error == AllocationFailed && availablePorts == old(availablePorts)
      ensures PortStep(lo, hi, old(availablePorts), Granted(if r.Success? then RemotePorts(r.value) else {}),
          availablePorts)
    {
      hide LocalPorts, ClaimKeys, ClaimsAt, ClaimsOnly, Servable, EndpointKeys, DistinctEndpoints, SharesByLocalPort,
           NumberedFrom, DistinctPorts, PortSet, PortRange, RemotePorts;
      var aggregated := AggregateClaimsByLocalPort(claims);
      BucketsAreSound(claims, aggregated);
      var validated := ValidateEndpointClaims(aggregated);
      GrantableByBuckets(claims, aggregated, |availablePorts|);
      if validated.Failure? {
        return Failure(validated.error);
      }
      var ports := TakePorts(|aggregated.Keys|);
      var eps := PairUp(aggregated, ports, firstId);
      AllClaimsPaired(claims, aggregated, eps);
      return Success(eps);
    }

    method ReleasePort(port: u16) returns (r: Result<(), PortAllocatorError>)
      requires Valid()
      modifies this
      ensures Valid()
      ensures (r, availablePorts) == Release(old(availablePorts), lo, hi, port)
      ensures PortStep(lo, hi, old(availablePorts), Released(port, r.Success?), availablePorts)
    {
      if !(lo <= port < hi) {
        return Failure(PortOutOfRange);
      }
      if port in availablePorts {
        return Failure(PortAlreadyReleased);
      }
      availablePorts := availablePorts + {port};
      return Success(());
    }
  }

  // Buckets zipped with ports, in whatever order the buckets come.
  method PairUp(m: map<u16, seq<EndpointClaim>>, ports: seq<u16>, firstId: nat) returns (eps: seq<Endpoint>)
    requires |ports| == |m| && DistinctPorts(ports)
    requires forall p | p in m :: IsBucket(m[p], p)
    ensures forall k :: k in EndpointKeys(eps) <==> k.1 in m && k in ClaimKeys(m[k.1])
    ensures DistinctEndpoints(eps) && SharesByLocalPort(eps) && NumberedFrom(eps, firstId)
    ensures RemotePorts(eps) == PortSet(ports)
  {
    hide *;
    eps := [];
    var order := IterationOrder(m.Keys);
    ghost var leased: map<u16, u16>, holder: map<u16, u16> := map[], map[];
    NothingPaired(m, order, ports, firstId);
    for i := 0 to |order|
      invariant Paired(m, order[..i], ports[..i], leased, holder, eps, firstId)
    {
      VisitsKey(m, order, i);
      ExtendPairing(m, order, ports, i, leased, holder, eps, firstId);
      leased, holder := leased[order[i] := ports[i]], holder[ports[i] := order[i]];
      eps := eps + EndpointsFor(m[order[i]], ports[i], firstId + |eps|);
    }
    PairedIsComplete(m, order, ports, leased, holder, eps, firstId);
  }

  lemma {:induction false} NothingPaired(m: map<u16, seq<EndpointClaim>>, order: seq<u16>, ports: seq<u16>,
      firstId: nat)
    ensures Paired(m, order[..0], ports[..0], map[], map[], [], firstId)
  {
  }

  lemma {:induction false} VisitsKey(m: map<u16, seq<EndpointClaim>>, order: seq<u16>, i: nat)
    requires DistinctPorts(order) && PortSet(order) == m.Keys && i < |order|
    ensures order[i] in m
  {
    NextPort(order, i);
  }

  // A HashMap visits each of its keys once, in an order of its own.
  method IterationOrder(keys: set<u16>) returns (order: seq<u16>)
    ensures DistinctPorts(order) && PortSet(order) == keys && |order| == |keys|
  {
    order := [];
    var todo := keys;
    while todo != {}
      invariant DistinctPorts(order)
      invariant forall p :: p in keys <==> p in PortSet(order) || p in todo
      invariant forall p | p in PortSet(order) :: p !in todo
    {
      var p :| p in todo;
      Snoc(order, p);
      todo, order := todo - {p}, order + [p];
    }
    PortCount(order);
    assert PortSet(order) == keys;
  }

  lemma {:induction false} PortCount(ports: seq<u16>)
    requires DistinctPorts(ports)
    ensures |PortSet(ports)| == |ports|
  {
    if ports == [] {
    } else {
      PortCount(Front(ports));
    }
  }

  lemma {:induction false} NextPort(ports: seq<u16>, k: nat)
    requires k < |ports| && DistinctPorts(ports)
    ensures ports[k] in PortSet(ports) && ports[k] !in PortSet(ports[..k])
    ensures PortSet(ports[..k + 1]) == PortSet(ports[..k]) + {ports[k]}
  {
    TakeSnoc(ports, k);
    if k < |ports| - 1 {
      NextPort(Front(ports), k);
      assert Front(ports)[..k] == ports[..k];
    }
  }

  // Each endpoint uses the port `leased` to its local port; `holder` reads the leases backwards.
  ghost predicate Follows(leased: map<u16, u16>, holder: map<u16, u16>, eps: seq<Endpoint>) {
    eps == [] ||
    (var e := Last(eps);
     && e.localPort in leased && leased[e.localPort] == e.remotePort
     && e.remotePort in holder && holder[e.remotePort] == e.localPort
     && Follows(leased, holder, Front(eps)))
  }

  // `eps` are the endpoints of the buckets visited so far, each bucket with a port of its own.
  ghost predicate Paired(m: map<u16, seq<EndpointClaim>>, order: seq<u16>, ports: seq<u16>, leased: map<u16, u16>,
      holder: map<u16, u16>, eps: seq<Endpoint>, firstId: nat)
  {
    && leased.Keys == PortSet(order)
    && Follows(leased, holder, eps)
    && EndpointKeys(eps) == VisitedKeys(m, order)
    && DistinctEndpoints(eps)
    && NumberedFrom(eps, firstId)
    && RemotePorts(eps) == PortSet(ports)
  }

  lemma {:induction false} FollowsMember(leased: map<u16, u16>, holder: map<u16, u16>, eps: seq<Endpoint>, e: Endpoint)
    requires Follows(leased, holder, eps) && e in eps
    ensures e.localPort in leased && leased[e.localPort] == e.remotePort
    ensures e.remotePort in holder && holder[e.remotePort] == e.localPort
  {
    InSnoc(eps);
    if e in Front(eps) {
      FollowsMember(leased, holder, Front(eps), e);
    }
  }

  lemma {:induction false} PairingShares(leased: map<u16, u16>, holder: map<u16, u16>, eps: seq<Endpoint>)
    requires Follows(leased, holder, eps)
    ensures SharesByLocalPort(eps)
  {
    forall e, f | e in eps && f in eps
      ensures e.remotePort == f.remotePort <==> e.localPort == f.localPort
    {
      FollowsMember(leased, holder, eps, e);
      FollowsMember(leased, holder, eps, f);
    }
  }

  lemma {:induction false} PairedIsComplete(m: map<u16, seq<EndpointClaim>>, order: seq<u16>, ports: seq<u16>,
      leased: map<u16, u16>, holder: map<u16, u16>, eps: seq<Endpoint>, firstId: nat)
    requires |order| == |ports| && PortSet(order) == m.Keys && forall p | p in m :: IsBucket(m[p], p)
    requires Paired(m, order[..|order|], ports[..|order|], leased, holder, eps, firstId)
    ensures forall k :: k in EndpointKeys(eps) <==> k.1 in m && k in ClaimKeys(m[k.1])
    ensures DistinctEndpoints(eps) && SharesByLocalPort(eps) && NumberedFrom(eps, firstId)
    ensures RemotePorts(eps) == PortSet(ports)
  {
    assert order[..|order|] == order && ports[..|order|] == ports;
    PairingShares(leased, holder, eps);
    forall k ensures k in EndpointKeys(eps) <==> k.1 in m && k in ClaimKeys(m[k.1]) {
      VisitedKey(m, order, k);
    }
  }

  // A new lease for a fresh local and a fresh remote port disturbs no earlier endpoint.
  lemma {:induction false} FollowsStill(leased: map<u16, u16>, holder: map<u16, u16>, eps: seq<Endpoint>, p: u16,
      port: u16)
    requires Follows(leased, holder, eps) && p !in leased && port !in RemotePorts(eps)
    ensures Follows(leased[p := port], holder[port := p], eps)
  {
    if eps == [] {
    } else {
      FollowsStill(leased, holder, Front(eps), p, port);
    }
  }

  lemma {:induction false} AppendBucket(leased: map<u16, u16>, holder: map<u16, u16>, eps: seq<Endpoint>,
      bucket: seq<EndpointClaim>, p: u16, port: u16, id: nat)
    requires Follows(leased, holder, eps) && DistinctEndpoints(eps)
    requires p in leased && leased[p] == port && port in holder && holder[port] == p
    requires Servable(bucket) && ClaimsOnly(bucket, p) && forall k | k in EndpointKeys(eps) :: k.1 != p
    ensures var r := eps + EndpointsFor(bucket, port, id);
            && Follows(leased, holder, r) && DistinctEndpoints(r)
            && EndpointKeys(r) == EndpointKeys(eps) + ClaimKeys(bucket)
            && RemotePorts(r) == RemotePorts(eps) + if bucket == [] then {} else {port}
  {
    if bucket == [] {
      assert eps + EndpointsFor(bucket, port, id) == eps;
    } else {
      var front, last := Front(bucket), Last(bucket);
      var e := Endpoint(id + |front|, last.protocol, last.localPort, port);
      var r := eps + EndpointsFor(front, port, id);
      LastOfBucket(eps, bucket, p, port, id);
      hide *;
      AppendBucket(leased, holder, eps, front, p, port, id);
      AppendEndpoint(leased, holder, r, e);
    }
  }

  lemma {:induction false} LastOfBucket(eps: seq<Endpoint>, bucket: seq<EndpointClaim>, p: u16, port: u16, id: nat)
    requires bucket != [] && Servable(bucket) && ClaimsOnly(bucket, p) && forall k | k in EndpointKeys(eps) :: k.1 != p
    ensures var front, last := Front(bucket), Last(bucket);
            var e := Endpoint(id + |front|, last.protocol, last.localPort, port);
            && Servable(front) && ClaimsOnly(front, p) && last.localPort == p
            && ClaimKeys(bucket) == ClaimKeys(front) + {EndpointKey(e)}
            && EndpointKey(e) !in ClaimKeys(front) && EndpointKey(e) !in EndpointKeys(eps)
            && eps + EndpointsFor(bucket, port, id) == (eps + EndpointsFor(front, port, id)) + [e]
  {
    hide EndpointKeys;
    var e := Endpoint(id + |Front(bucket)|, Last(bucket).protocol, Last(bucket).localPort, port);
    assert EndpointsFor(bucket, port, id) == EndpointsFor(Front(bucket), port, id) + [e];
  }

  lemma {:induction false} AppendEndpoint(leased: map<u16, u16>, holder: map<u16, u16>, eps: seq<Endpoint>, e: Endpoint)
    requires Follows(leased, holder, eps) && DistinctEndpoints(eps) && EndpointKey(e) !in EndpointKeys(eps)
    requires e.localPort in leased && leased[e.localPort] == e.remotePort
    requires e.remotePort in holder && holder[e.remotePort] == e.localPort
    ensures Follows(leased, holder, eps + [e]) && DistinctEndpoints(eps + [e])
    ensures EndpointKeys(eps + [e]) == EndpointKeys(eps) + {EndpointKey(e)}
    ensures RemotePorts(eps + [e]) == RemotePorts(eps) + {e.remotePort}
  {
    Snoc(eps, e);
  }

  lemma {:induction false} ExtendPairing(m: map<u16, seq<EndpointClaim>>, order: seq<u16>, ports: seq<u16>, i: nat,
      leased: map<u16, u16>, holder: map<u16, u16>, eps: seq<Endpoint>, firstId: nat)
    requires i < |order| && i < |ports| && order[i] in m
    requires DistinctPorts(order) && DistinctPorts(ports)
    requires Paired(m, order[..i], ports[..i], leased, holder, eps, firstId)
    requires forall p | p in m :: IsBucket(m[p], p)
    ensures Paired(m, order[..i + 1], ports[..i + 1], leased[order[i] := ports[i]], holder[ports[i] := order[i]],
                   eps + EndpointsFor(m[order[i]], ports[i], firstId + |eps|), firstId)
  {
    var p, port := order[i], ports[i];
    var leased', holder' := leased[p := port], holder[port := p];
    assert IsBucket(m[p], p) && Servable(m[p]) && ClaimsOnly(m[p], p) && m[p] != [];
    var r := eps + EndpointsFor(m[p], port, firstId + |eps|);
    NewBucketFits(m, order, ports, i, leased, holder, eps, firstId);
    PairingSets(m, order, ports, i, leased, holder, eps, firstId);
    hide *;
    AppendBucket(leased', holder', eps, m[p], p, port, firstId + |eps|);
    NumberedAppend(m[p], port, eps, firstId);
    IsPaired(m, order[..i + 1], ports[..i + 1], leased', holder', r, firstId);
  }

  lemma {:induction false} PairingSets(m: map<u16, seq<EndpointClaim>>, order: seq<u16>, ports: seq<u16>, i: nat,
      leased: map<u16, u16>, holder: map<u16, u16>, eps: seq<Endpoint>, firstId: nat)
    requires i < |order| && i < |ports| && order[i] in m && DistinctPorts(order) && DistinctPorts(ports)
    requires Paired(m, order[..i], ports[..i], leased, holder, eps, firstId)
    ensures leased[order[i] := ports[i]].Keys == PortSet(order[..i + 1])
    ensures VisitedKeys(m, order[..i + 1]) == EndpointKeys(eps) + ClaimKeys(m[order[i]])
    ensures PortSet(ports[..i + 1]) == RemotePorts(eps) + {ports[i]}
  {
    VisitOneMore(m, order, i);
    NextPort(order, i);
    NextPort(ports, i);
    hide Follows, EndpointKeys, VisitedKeys, ClaimKeys, DistinctEndpoints, NumberedFrom, RemotePorts, PortSet,
        DistinctPorts;
  }

  lemma {:induction false} IsPaired(m: map<u16, seq<EndpointClaim>>, order: seq<u16>, ports: seq<u16>,
      leased: map<u16, u16>, holder: map<u16, u16>, eps: seq<Endpoint>, firstId: nat)
    requires leased.Keys == PortSet(order) && Follows(leased, holder, eps) && EndpointKeys(eps) == VisitedKeys(m, order)
    requires DistinctEndpoints(eps) && NumberedFrom(eps, firstId) && RemotePorts(eps) == PortSet(ports)
    ensures Paired(m, order, ports, leased, holder, eps, firstId)
  {
  }

  lemma {:induction false} NewBucketFits(m: map<u16, seq<EndpointClaim>>, order: seq<u16>, ports: seq<u16>, i: nat,
      leased: map<u16, u16>, holder: map<u16, u16>, eps: seq<Endpoint>, firstId: nat)
    requires i < |order| && i < |ports| && DistinctPorts(order) && DistinctPorts(ports)
    requires Paired(m, order[..i], ports[..i], leased, holder, eps, firstId)
    requires forall p | p in m :: IsBucket(m[p], p)
    ensures Follows(leased[order[i] := ports[i]], holder[ports[i] := order[i]], eps)
    ensures forall k | k in EndpointKeys(eps) :: k.1 != order[i]
    ensures DistinctEndpoints(eps) && NumberedFrom(eps, firstId)
  {
    NextPort(order, i);
    NextPort(ports, i);
    FollowsStill(leased, holder, eps, order[i], ports[i]);
    NotYetServed(m, order[..i], eps, order[i]);
    hide Follows, EndpointKeys, VisitedKeys, DistinctEndpoints, NumberedFrom, RemotePorts, IsBucket;
  }

  lemma {:induction false} NotYetServed(m: map<u16, seq<EndpointClaim>>, order: seq<u16>, eps: seq<Endpoint>, p: u16)
    requires forall q | q in m :: IsBucket(m[q], q)
    requires EndpointKeys(eps) == VisitedKeys(m, order) && p !in PortSet(order)
    ensures forall k | k in EndpointKeys(eps) :: k.1 != p
  {
    forall k | k in EndpointKeys(eps) ensures k.1 != p {
      VisitedKey(m, order, k);
    }
  }

  lemma {:induction false} VisitOneMore(m: map<u16, seq<EndpointClaim>>, order: seq<u16>, i: nat)
    requires i < |order| && order[i] in m
    ensures VisitedKeys(m, order[..i + 1]) == VisitedKeys(m, order[..i]) + ClaimKeys(m[order[i]])
  {
    TakeSnoc(order, i);
  }

  lemma {:induction false} NumberedAppend(bucket: seq<EndpointClaim>, port: u16, eps: seq<Endpoint>, firstId: nat)
    requires NumberedFrom(eps, firstId)
    ensures NumberedFrom(eps + EndpointsFor(bucket, port, firstId + |eps|), firstId)
  {
  }

  lemma {:induction false} BucketsAreSound(claims: seq<EndpointClaim>, m: map<u16, seq<EndpointClaim>>)
    requires m.Keys == LocalPorts(claims) && forall p | p in m :: m[p] == ClaimsAt(claims, p)
    ensures forall p | p in m :: m[p] != [] && ClaimsOnly(m[p], p)
  {
    forall p | p in m ensures m[p] != [] && ClaimsOnly(m[p], p) {
      OnlyAtPort(claims, p);
    }
  }

  lemma {:induction false} GrantableByBuckets(claims: seq<EndpointClaim>, m: map<u16, seq<EndpointClaim>>, free: nat)
    requires m.Keys == LocalPorts(claims) && forall p | p in m :: m[p] == ClaimsAt(claims, p)
    ensures Grantable(claims, free) <==> |m| <= free && forall p | p in m :: Servable(m[p])
  {
    assert |m| == |m.Keys|;
    if Servable(claims) {
      forall p | p in m ensures Servable(m[p]) {
        ServableInBucket(claims, p);
      }
    } else if forall p | p in m :: Servable(m[p]) {
      ServableFromBuckets(claims);
    }
  }

  lemma {:induction false} AllClaimsPaired(claims: seq<EndpointClaim>, m: map<u16, seq<EndpointClaim>>,
      eps: seq<Endpoint>)
    requires m.Keys == LocalPorts(claims) && forall p | p in m :: m[p] == ClaimsAt(claims, p)
    requires Servable(claims) && DistinctEndpoints(eps)
    requires forall k :: k in EndpointKeys(eps) <==> k.1 in m && k in ClaimKeys(m[k.1])
    ensures EndpointKeys(eps) == ClaimKeys(claims) && |eps| == |claims|
  {
    EndpointCount(eps);
    ServableCount(claims);
    hide *;
    forall k ensures k in ClaimKeys(claims) <==> k in EndpointKeys(eps) {
      ClaimedIffPaired(claims, m, eps, k);
    }
  }

  lemma {:induction false} ClaimedIffPaired(claims: seq<EndpointClaim>, m: map<u16, seq<EndpointClaim>>,
      eps: seq<Endpoint>, k: (Protocol, u16))
    requires m.Keys == LocalPorts(claims) && forall p | p in m :: m[p] == ClaimsAt(claims, p)
    requires k in EndpointKeys(eps) <==> k.1 in m && k in ClaimKeys(m[k.1])
    ensures k in ClaimKeys(claims) <==> k in EndpointKeys(eps)
  {
    KeyInBucket(claims, k);
    if k.1 !in m {
      assert ClaimsAt(claims, k.1) == [];
    }
    hide EndpointKeys;
  }
}
