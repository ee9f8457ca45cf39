// What holds of the tunnel in every run.
module TunnelRuns {
  import opened Wrappers
  import opened Sequences
  import opened Protocol
  import opened LocalModel
  import opened Tunnel
  import opened TunnelSteps

  // ---------- the invariant over whole runs ----------

  lemma {:induction false} InitialInv(t: Session)
    requires Initial(t)
    ensures Inv(t)
  {
  }

  // A session may start from a new client, and from whatever an earlier session left of one.
  lemma {:induction false} SessionsFollow(t: Session, others: set<StreamId>)
    requires Inv(t) && t.others + t.sources.Keys <= others
    ensures Initial(Session(map[], others, [], t.local, true))
  {
    forall sid: StreamId | sid !in others ensures Absent(t.local, sid) && sid !in t.local.ending {
      assert Quiet(t.ws, sid) && Absent(t.local, sid);
    }
  }

  lemma {:induction false} NewClientStarts(endpoints: map<EndpointId, Endpoint>, connected: bool, token: Option<Token>)
    ensures Initial(Session(map[], {}, [],
        LocalState(map[], map[], 0, endpoints, connected, token, multiset{}, {}), true))
  {
  }

  lemma {:induction false} InvStep(t: Session, step: Step)
    requires Inv(t) && Enabled(t, step)
    ensures Inv(Apply(t, step))
  {
    hide Inv, Apply;
    match step
    case Accept(sid) => AcceptKeeps(t, sid);
    case SendInit(_, _, _, ok) => if ok { SendKeeps(t, step); } else { SilentKeeps(t, step); }
    case Read(_, _, ok) => if ok { SendKeeps(t, step); } else { SilentKeeps(t, step); }
    case Eof(_, ok) => if ok { SendKeeps(t, step); } else { SilentKeeps(t, step); }
    case StopReading(_) => SilentKeeps(t, step);
    case OtherPacket(packet) => OtherPacketKeeps(t, packet);
    case Deliver(env) => DeliverKeeps(t, env);
    case EndTask(sid) => EndTaskKeeps(t, sid);
    case EndClose(q) => EndCloseKeeps(t, q);
    case Write(q, ok, partial) => WriteKeeps(t, q, ok, partial);
    case WriterEnd(q) => WriterEndKeeps(t, q);
    case LocalEof(sid) => LocalEofKeeps(t, sid);
  }

  lemma {:induction false} StepAt(tr: seq<Session>, steps: seq<Step>, i: nat)
    requires IsRun(tr, steps) && 0 < i < |tr|
    ensures Enabled(tr[i - 1], steps[i - 1]) && tr[i] == Apply(tr[i - 1], steps[i - 1])
  {
    hide Enabled, Apply;
    assert Enabled(tr[i - 1], steps[i - 1]) && tr[i - 1 + 1] == Apply(tr[i - 1], steps[i - 1]);
  }

  lemma {:induction false} InvAt(tr: seq<Session>, steps: seq<Step>, i: nat)
    requires IsRun(tr, steps) && i < |tr|
    ensures Inv(tr[i])
  {
    hide Inv, Apply, Enabled;
    if i == 0 {
      InitialInv(tr[0]);
    } else {
      InvAt(tr, steps, i - 1);
      StepAt(tr, steps, i);
      InvStep(tr[i - 1], steps[i - 1]);
    }
  }

  // ---------- what a reader of the local socket sees ----------

  // In every run, what any queue's writer has written to its local socket is a contiguous piece of what the stream's
  // read loop took from the remote socket: no gap, no reordering, nothing of another stream. The piece starts at the
  // beginning exactly if no Data went into the WebSocket ahead of the stream's Init.
  lemma {:induction false} WrittenIsContiguous(tr: seq<Session>, steps: seq<Step>, i: nat, q: nat)
    requires IsRun(tr, steps) && i < |tr| && q in tr[i].local.queues && tr[i].local.queues[q].sid in tr[i].sources
    ensures var src, queue := tr[i].sources[tr[i].local.queues[q].sid], tr[i].local.queues[q];
            src.missed + queue.written <= src.read && (src.missed == [] <==> !src.raced)
  {
    hide IsRun;
    InvAt(tr, steps, i);
    var t := tr[i];
    assert QueueShape(t.local, q) && QueueOk(t, q) && SourceOk(t, t.local.queues[q].sid);
    assert !Absent(t.local, t.local.queues[q].sid);
  }

  // With Init ahead of Data: a prefix.
  lemma {:induction false} WrittenIsPrefix(tr: seq<Session>, steps: seq<Step>, i: nat, q: nat)
    requires IsRun(tr, steps) && i < |tr| && q in tr[i].local.queues && tr[i].local.queues[q].sid in tr[i].sources
    requires !tr[i].sources[tr[i].local.queues[q].sid].raced
    ensures tr[i].local.queues[q].written <= tr[i].sources[tr[i].local.queues[q].sid].read
  {
    WrittenIsContiguous(tr, steps, i, q);
  }

  // Every queue, of every stream: Data* and then at most one Close, which is taken only after all else.
  lemma {:induction false} QueuesAreShaped(tr: seq<Session>, steps: seq<Step>, i: nat, q: nat)
    requires IsRun(tr, steps) && i < |tr| && q in tr[i].local.queues
    ensures forall k :: 0 <= k < |tr[i].local.queues[q].sent| - 1 ==> tr[i].local.queues[q].sent[k].Bytes?
    ensures tr[i].local.queues[q].writer.Shut? ==> tr[i].local.queues[q].taken == |tr[i].local.queues[q].sent|
  {
    hide IsRun;
    InvAt(tr, steps, i);
    var ms := tr[i].local.queues[q].sent;
    assert QueueShape(tr[i].local, q);
    forall k | 0 <= k < |ms| - 1 ensures ms[k].Bytes? {
      assert Front(ms)[k] == ms[k];
      NoCloseAt(Front(ms), k);
    }
  }

  // If the entry survived until End, so that the stream's Close was queued, and the writer shut the socket down
  // without a failed write, then the remote side had ended, and everything it sent was written exactly if no Data went
  // ahead of Init.
  lemma {:induction false} ClosedIsComplete(tr: seq<Session>, steps: seq<Step>, i: nat, q: nat)
    requires IsRun(tr, steps) && i < |tr| && q in tr[i].local.queues && tr[i].local.queues[q].sid in tr[i].sources
    requires Closed(tr[i].local.queues[q].sent) && tr[i].local.queues[q].writer.Shut?
    ensures var src, queue := tr[i].sources[tr[i].local.queues[q].sid], tr[i].local.queues[q];
            src.ended && (queue.written == src.read <==> !src.raced)
  {
    WrittenIsContiguous(tr, steps, i, q);
    hide IsRun;
    InvAt(tr, steps, i);
    var queue := tr[i].local.queues[q];
    assert QueueShape(tr[i].local, q) && QueueOk(tr[i], q) && SourceOk(tr[i], queue.sid);
    assert queue.sent[..queue.taken] == queue.sent;
  }

  // The read loop starts before Init is sent, so this can happen: the first chunk overtakes Init, finds no queue, and
  // the local service sees the stream without its beginning.
  lemma {:induction false} RacedStreamLosesItsStart() returns (tr: seq<Session>, steps: seq<Step>)
    ensures IsRun(tr, steps) && 0 in Last(tr).local.queues && Last(tr).local.queues[0].sid == 1 && 1 in Last(tr).sources
    ensures Last(tr).sources[1].raced
    ensures !(Last(tr).local.queues[0].written <= Last(tr).sources[1].read)
  {
    var t0 := Session(map[], {}, [],
        LocalState(map[], map[], 0, map[5 := Endpoint(5, TCP, 80, 9000)], true, None, multiset{}, {}), true);
    var a := [Accept(1), Read(1, [7], true), SendInit(1, 5, 0, true), Read(1, [8], true)];
    var ts := RaceToTheWebSocket(t0, a);
    var b := [Deliver(UP), Deliver(UP), Deliver(UP), Write(0, true, 0)];
    var us := RaceToTheClient(ts[4], b);
    hide Apply, Enabled;
    steps := a + b;
    tr := ts + us[1..];
    assert Initial(t0);
    assert Last(tr) == us[4] && us[4].local.queues[0].written[0] != us[4].sources[1].read[0];
    forall i | 0 <= i < |steps| ensures Enabled(tr[i], steps[i]) && tr[i + 1] == Apply(tr[i], steps[i]) {
      if i < 4 {
        assert Follows(ts, a, i);
      } else {
        assert Follows(us, b, i - 4) && tr[i] == us[i - 4] && tr[i + 1] == us[i - 4 + 1];
      }
    }
  }

  const UP: Surroundings := Surroundings(true, true)

  ghost predicate Follows(tr: seq<Session>, steps: seq<Step>, i: nat)
    requires i < |steps| < |tr|
  {
    Enabled(tr[i], steps[i]) && tr[i + 1] == Apply(tr[i], steps[i])
  }

  lemma {:induction false} RaceToTheWebSocket(t0: Session, a: seq<Step>) returns (tr: seq<Session>)
    requires t0.sources == map[] && t0.others == {} && t0.ws == []
    requires a == [Accept(1), Read(1, [7], true), SendInit(1, 5, 0, true), Read(1, [8], true)]
    ensures |tr| == 5 && tr[0] == t0 && forall i | 0 <= i < 4 :: Follows(tr, a, i)
    ensures tr[4].ws == [Data(1, [7]), Init(1, 5, 0), Data(1, [8])] && tr[4].local == t0.local
    ensures tr[4].alive == t0.alive
    ensures 1 in tr[4].sources && tr[4].sources[1].read == [7, 8] && tr[4].sources[1].raced
  {
    var t1 := Apply(t0, a[0]);
    var t2 := Apply(t1, a[1]);
    var t3 := Apply(t2, a[2]);
    var t4 := Apply(t3, a[3]);
    tr := [t0, t1, t2, t3, t4];
  }

  lemma {:induction false} RaceToTheClient(t4: Session, b: seq<Step>) returns (tr: seq<Session>)
    requires t4.ws == [Data(1, [7]), Init(1, 5, 0), Data(1, [8])] && t4.alive && 1 in t4.sources
    requires t4.local == LocalState(map[], map[], 0, map[5 := Endpoint(5, TCP, 80, 9000)], true, None, multiset{}, {})
    requires b == [Deliver(UP), Deliver(UP), Deliver(UP), Write(0, true, 0)]
    ensures |tr| == 5 && tr[0] == t4 && forall i | 0 <= i < 4 :: Follows(tr, b, i)
    ensures 0 in tr[4].local.queues && tr[4].local.queues[0].sid == 1 && tr[4].local.queues[0].written == [8]
    ensures 1 in tr[4].sources && tr[4].sources[1].read == t4.sources[1].read
    ensures tr[4].sources[1].raced == t4.sources[1].raced
  {
    var t5, t6 := RaceOrphansTheFirst(t4);
    var t7 := Apply(t6, b[2]);
    assert t7.local.queues[0].sent == [Bytes([8])];
    var t8 := Apply(t7, b[3]);
    tr := [t4, t5, t6, t7, t8];
  }

  lemma {:induction false} RaceOrphansTheFirst(t4: Session) returns (t5: Session, t6: Session)
    requires t4.ws == [Data(1, [7]), Init(1, 5, 0), Data(1, [8])] && t4.alive && 1 in t4.sources
    requires t4.local == LocalState(map[], map[], 0, map[5 := Endpoint(5, TCP, 80, 9000)], true, None, multiset{}, {})
    ensures t5 == Apply(t4, Deliver(UP)) && t5.alive && t5.ws != [] && t6 == Apply(t5, Deliver(UP)) && t6.alive
    ensures t6.ws == [Data(1, [8])] && t6.local.queues == map[0 := Queue(1, [], 0, [], Running)]
    ensures t6.local.streams == map[1 := 0]
    ensures 1 in t6.sources && t6.sources[1].read == t4.sources[1].read && t6.sources[1].raced == t4.sources[1].raced
  {
    t5 := Apply(t4, Deliver(UP));
    assert t5.ws == [Init(1, 5, 0), Data(1, [8])];
    t6 := Apply(t5, Deliver(UP));
  }
}
