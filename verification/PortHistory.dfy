// Whole histories of calls on one PortAllocator.
module PortHistory {
  import opened Wrappers
  import opened Sequences
  import opened Protocol
  import opened PortAllocation

  // `avail[i]` are the available ports before call i; a new allocator offers its whole range.
  ghost predicate History(lo: u16, hi: u16, avail: seq<set<u16>>, calls: seq<PortEvent>) {
    && |avail| == |calls| + 1
    && avail[0] == PortRange(lo, hi)
    && forall i :: 0 <= i < |calls| ==> PortStep(lo, hi, avail[i], calls[i], avail[i + 1])
  }

  // The port was handed out and not successfully released since.
  ghost predicate Outstanding(calls: seq<PortEvent>, p: u16) {
    calls != [] &&
    match Last(calls)
    case Granted(ports) => p in ports || Outstanding(Front(calls), p)
    case Released(q, ok) => !(ok && q == p) && Outstanding(Front(calls), p)
  }

  // The available ports are always exactly the ports of the range that are not outstanding.
  lemma {:induction false} AvailableExactly(lo: u16, hi: u16, avail: seq<set<u16>>, calls: seq<PortEvent>)
    requires History(lo, hi, avail, calls)
    ensures forall p :: p in Last(avail) <==> lo <= p < hi && !Outstanding(calls, p)
  {
    if calls == [] {
    } else {
      var n := |calls| - 1;
      AvailableExactly(lo, hi, Front(avail), Front(calls));
      assert Last(Front(avail)) == avail[n];
      assert PortStep(lo, hi, avail[n], calls[n], avail[n + 1]);
      forall p ensures p in Last(avail) <==> lo <= p < hi && !Outstanding(calls, p) {
        assert p in avail[n] <==> lo <= p < hi && !Outstanding(Front(calls), p);
      }
    }
  }

  // release_port succeeds exactly on outstanding ports of the range.
  lemma {:induction false} ReleaseSucceedsExactly(lo: u16, hi: u16, avail: seq<set<u16>>, calls: seq<PortEvent>, j: nat)
    requires History(lo, hi, avail, calls) && j < |calls| && calls[j].Released?
    ensures calls[j].ok <==> lo <= calls[j].port < hi && Outstanding(calls[..j], calls[j].port)
  {
    AvailableExactly(lo, hi, avail[..j + 1], calls[..j]);
    assert Last(avail[..j + 1]) == avail[j];
    assert PortStep(lo, hi, avail[j], calls[j], avail[j + 1]);
  }

  // No port is handed out by two calls without a successful release in between.
  lemma {:induction false} NoDoubleGrant(lo: u16, hi: u16, avail: seq<set<u16>>, calls: seq<PortEvent>, i: nat, j: nat,
      p: u16)
    requires History(lo, hi, avail, calls) && i < j < |calls|
    requires calls[i].Granted? && p in calls[i].ports && calls[j].Granted? && p in calls[j].ports
    ensures exists k :: i < k < j && calls[k] == Released(p, true)
  {
    assert PortStep(lo, hi, avail[i], calls[i], avail[i + 1]);
    assert PortStep(lo, hi, avail[j], calls[j], avail[j + 1]);
    var k := ReturnedBetween(lo, hi, avail, calls, i + 1, j, p);
  }

  lemma {:induction false} ReturnedBetween(lo: u16, hi: u16, avail: seq<set<u16>>, calls: seq<PortEvent>, i: nat,
      j: nat, p: u16) returns (k: nat)
    requires History(lo, hi, avail, calls) && i < j <= |calls|
    requires p !in avail[i] && p in avail[j]
    ensures i <= k < j && calls[k] == Released(p, true)
    decreases j
  {
    assert PortStep(lo, hi, avail[j - 1], calls[j - 1], avail[j]);
    if p in avail[j - 1] {
      k := ReturnedBetween(lo, hi, avail, calls, i, j - 1, p);
    } else {
      k := j - 1;
    }
  }
}
