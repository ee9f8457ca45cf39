// Ports whose hello could not be sent: which ones they are, and that they never come back.
module PortLosses {
  import opened Wrappers
  import opened Sequences
  import opened Protocol
  import opened PortAllocation
  import opened ServerModel
  import opened Lifecycle
  import opened ClientLifetimes

  // In the step from tr[k] the hello of handshake h could not be sent, and p was among its ports.
  ghost predicate LosesAt(tr: seq<Server>, k: nat, h: nat, p: u16)
    requires k + 1 < |tr|
  {
    && Enabled(tr[k], SendHello(h, false)) && tr[k + 1] == Apply(tr[k], SendHello(h, false))
    && p in RemotePorts(tr[k].pending[h].endpoints)
  }

  lemma {:induction false} AbandonedStep(s: Server, a: Action)
    requires Enabled(s, a)
    ensures Apply(s, a).abandoned ==
            s.abandoned + if a.SendHello? && !a.ok then RemotePorts(s.pending[a.h].endpoints) else {}
  {
  }

  // A port is abandoned exactly if some earlier hello that was to announce it failed, for a new or a reconnecting
  // client.
  lemma {:induction false} AbandonedExactly(tr: seq<Server>, i: nat, p: u16)
    requires IsRun(tr) && i < |tr|
    ensures p in tr[i].abandoned <==> exists k, h :: 0 <= k < i && LosesAt(tr, k, h, p)
  {
    hide Next, Inv;
    if i > 0 {
      AbandonedExactly(tr, i - 1, p);
      var a := StepOf(tr, i - 1);
      AbandonedStep(tr[i - 1], a);
      if p in tr[i].abandoned && p !in tr[i - 1].abandoned {
        assert LosesAt(tr, i - 1, a.h, p);
      }
      if k, h :| 0 <= k < i && LosesAt(tr, k, h, p) {
        if k == i - 1 {
          AbandonedStep(tr[k], SendHello(h, false));
        }
      }
    }
  }

  // And from then on for ever: it is never available again, and no client and no handshake ever has it.
  lemma {:induction false} AbandonedForever(tr: seq<Server>, i: nat, j: nat, p: u16)
    requires IsRun(tr) && i <= j < |tr| && p in tr[i].abandoned
    ensures forall o :: Owns(tr[j], o, p) <==> o == Abandoned
    decreases j
  {
    hide Next, Inv;
    PortsPartitioned(tr, j);
    if i < j {
      AbandonedForever(tr, i, j - 1, p);
      assert Owns(tr[j - 1], Abandoned, p);
      var a := StepOf(tr, j - 1);
      AbandonedStep(tr[j - 1], a);
    }
    hide IsRun;
    assert Owns(tr[j], Abandoned, p);
  }
}
