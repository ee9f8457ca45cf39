// The life of a queue over a session: what opens it, fills it, closes it, and what its writer makes of it.
module TunnelQueues {
  import opened Wrappers
  import opened Sequences
  import opened Protocol
  import opened LocalModel
  import opened Tunnel
  import opened TunnelSteps
  import opened TunnelRuns

  // ---------- one step ----------

  ghost predicate Delivers(t: Session, step: Step, p: Packet) {
    step.Deliver? && t.ws != [] && t.ws[0] == p
  }

  // What a step appends to a queue: the payload of a Data packet for the queue its stream's entry leads to, or the
  // Close of the code spawned for End; nothing once the writer has let go of the receiving end.
  ghost function Appended(t: Session, step: Step, q: nat): seq<StreamMessage>
    requires q in t.local.queues
  {
    if !t.local.queues[q].writer.Running? then []
    else if step.Deliver? && t.ws != [] && t.ws[0].Data? && t.ws[0].sid == t.local.queues[q].sid && IsLive(t.local, q)
    then [Bytes(t.ws[0].data)]
    else if step == EndClose(q) then [Close]
    else []
  }

  // The message a writer takes in this step.
  ghost predicate Takes(t: Session, step: Step, q: nat, m: StreamMessage)
    requires q in t.local.queues
  {
    && step.Write? && step.q == q
    && t.local.queues[q].taken < |t.local.queues[q].sent| && m == t.local.queues[q].sent[t.local.queues[q].taken]
  }

  // A write to the local socket fails.
  ghost predicate Breaks(t: Session, step: Step, q: nat)
    requires q in t.local.queues
  {
    step.Write? && !step.ok && exists data :: Takes(t, step, q, Bytes(data))
  }

  // The local socket is shut down: at a Close, or when no sender is left.
  ghost predicate Shuts(t: Session, step: Step, q: nat)
    requires q in t.local.queues
  {
    step == WriterEnd(q) || Takes(t, step, q, Close)
  }

  // What goes out on the local socket.
  ghost function Put(t: Session, step: Step, q: nat): seq<byte>
    requires q in t.local.queues
  {
    if step.Write? && step.q == q && t.local.queues[q].taken < |t.local.queues[q].sent| then
      match t.local.queues[q].sent[t.local.queues[q].taken]
      case Close => []
      case Bytes(data) => if step.ok || step.partial >= |data| then data else data[..step.partial]
    else []
  }

  ghost predicate QueueAfter(t: Session, step: Step, q: nat, s': LocalState)
    requires q in t.local.queues
  {
    && q in s'.queues
    && var was, now := t.local.queues[q], s'.queues[q];
       && now.sid == was.sid && now.sent == was.sent + Appended(t, step, q)
       && now.taken == was.taken + (if step.Write? && step.q == q then 1 else 0)
       && now.written == was.written + Put(t, step, q)
       && now.writer == if Breaks(t, step, q) then Broken else if Shuts(t, step, q) then Shut else was.writer
  }

  // What a step does to a queue, field by field.
  lemma {:induction false} QueueStep(t: Session, step: Step, q: nat)
    requires LocalOk(t.local) && Enabled(t, step) && q in t.local.queues
    ensures QueueAfter(t, step, q, Apply(t, step).local)
  {
    hide LocalOk, QueueAfter, Apply, Enabled;
    match step
    case Write(k, ok, partial) => WriteQueueStep(t, k, ok, partial, q);
    case Deliver(env) => DeliverQueueStep(t, env, q);
    case EndClose(k) => EndCloseQueueStep(t, k, q);
    case WriterEnd(k) => WriterEndQueueStep(t, k, q);
    case _ => OtherQueueStep(t, step, q);
  }

  lemma {:induction false} OtherQueueStep(t: Session, step: Step, q: nat)
    requires Enabled(t, step) && q in t.local.queues
    requires !step.Write? && !step.Deliver? && !step.EndClose? && !step.WriterEnd?
    ensures QueueAfter(t, step, q, Apply(t, step).local)
  {
    QueuesKept(t, step);
    hide Enabled, Apply;
    QuietStep(t, step, q);
    hide Breaks, Shuts, Put, Appended;
  }

  lemma {:induction false} QueuesKept(t: Session, step: Step)
    requires Enabled(t, step) && !step.Write? && !step.Deliver? && !step.EndClose? && !step.WriterEnd?
    ensures Apply(t, step).local.queues == t.local.queues
  {
  }

  lemma {:induction false} QuietStep(t: Session, step: Step, q: nat)
    requires q in t.local.queues && !(step.Write? && step.q == q) && step != WriterEnd(q)
    ensures !Breaks(t, step, q) && !Shuts(t, step, q) && Put(t, step, q) == []
    ensures !step.Deliver? && step != EndClose(q) ==> Appended(t, step, q) == []
  {
  }

  lemma {:induction false} WriterEndQueueStep(t: Session, k: nat, q: nat)
    requires Enabled(t, WriterEnd(k)) && q in t.local.queues
    ensures QueueAfter(t, WriterEnd(k), q, Apply(t, WriterEnd(k)).local)
  {
    if k != q {
      QuietStep(t, WriterEnd(k), q);
      hide Breaks, Shuts, Put, Appended;
    }
  }

  lemma {:induction false} WriteQueueStep(t: Session, k: nat, ok: bool, partial: nat, q: nat)
    requires Enabled(t, Write(k, ok, partial)) && q in t.local.queues
    ensures QueueAfter(t, Write(k, ok, partial), q, Apply(t, Write(k, ok, partial)).local)
  {
    if k == q {
      WriteStep(t, q, ok, partial);
    } else {
      QuietStep(t, Write(k, ok, partial), q);
    }
    assert Appended(t, Write(k, ok, partial), q) == [];
    hide Breaks, Shuts, Put, Appended;
  }

  lemma {:induction false} DeliverQueueStep(t: Session, env: Surroundings, q: nat)
    requires LocalOk(t.local) && Enabled(t, Deliver(env)) && q in t.local.queues
    ensures QueueAfter(t, Deliver(env), q, Apply(t, Deliver(env)).local)
  {
    ProcessQueue(t.local, t.ws[0], env, q);
    QuietStep(t, Deliver(env), q);
    hide LocalOk, Breaks, Shuts, Put, LocalState.Process;
  }

  lemma {:induction false} ProcessQueue(s: LocalState, p: Packet, env: Surroundings, q: nat)
    requires LocalOk(s) && q in s.queues
    ensures q in s.Process(p, env).0.queues
    ensures s.Process(p, env).0.queues[q] ==
            if p.Data? && p.sid == s.queues[q].sid && IsLive(s, q) && s.queues[q].writer.Running?
            then s.queues[q].(sent := s.queues[q].sent + [Bytes(p.data)]) else s.queues[q]
  {
    assert q < s.nextQueue;
    if p.Data? && p.sid in s.streams {
      assert s.streams[p.sid] in s.queues && s.queues[s.streams[p.sid]].sid == p.sid;
    }
    hide LocalOk;
  }

  lemma {:induction false} EndCloseQueueStep(t: Session, k: nat, q: nat)
    requires Enabled(t, EndClose(k)) && q in t.local.queues
    ensures QueueAfter(t, EndClose(k), q, Apply(t, EndClose(k)).local)
  {
    QuietStep(t, EndClose(k), q);
    hide Breaks, Shuts, Put;
  }

  lemma {:induction false} WriteStep(t: Session, q: nat, ok: bool, partial: nat)
    requires Enabled(t, Write(q, ok, partial))
    ensures var was, step := t.local.queues[q], Write(q, ok, partial);
            var now := was.Take(ok, partial);
            && now.sid == was.sid && now.sent == was.sent && now.taken == was.taken + 1
            && now.written == was.written + Put(t, step, q)
            && now.writer == if Breaks(t, step, q) then Broken else if Shuts(t, step, q) then Shut else was.writer
  {
    var m := t.local.queues[q].sent[t.local.queues[q].taken];
    assert Takes(t, Write(q, ok, partial), q, m);
  }

  // A queue is made by the delivery of an Init, empty and with its writer at work.
  lemma {:induction false} NewQueueStep(t: Session, step: Step, q: nat)
    requires LocalOk(t.local) && Enabled(t, step) && q !in t.local.queues && q in Apply(t, step).local.queues
    ensures step.Deliver? && t.ws[0].Init? && IsLive(Apply(t, step).local, q)
    ensures Apply(t, step).local.queues[q] == Queue(t.ws[0].sid, [], 0, [], Running)
  {
    hide QueueShape;
  }

  // Delivering an Init opens a stream exactly if its endpoint is registered, the stream is not there yet, and the local
  // service takes the connection; otherwise the session ends.
  lemma {:induction false} InitOpensStream(t: Session, env: Surroundings)
    requires Enabled(t, Deliver(env)) && t.ws[0].Init?
    ensures var t', sid := Apply(t, Deliver(env)), t.ws[0].sid;
            && (t'.alive <==> t.ws[0].eid in t.local.endpoints && sid !in t.local.streams && env.connectOk)
            && (t'.alive ==>
                  && sid in t'.local.streams && t'.local.streams[sid] in t'.local.queues
                  && t'.local.streams[sid] == t.local.nextQueue
                  && t'.local.queues[t.local.nextQueue] == Queue(sid, [], 0, [], Running))
            && (!t'.alive ==> t'.local == t.local)
  {
  }

  // The session ends exactly at a Refused, at an Init that opens nothing, at Data for a queue whose writer has gone,
  // and at Data for an unknown stream that cannot be answered.
  lemma {:induction false} SessionGoesOn(t: Session, env: Surroundings)
    requires LocalOk(t.local) && Enabled(t, Deliver(env))
    ensures var p, s := t.ws[0], t.local;
            Apply(t, Deliver(env)).alive <==>
              && !p.Refused?
              && (p.Init? ==> p.eid in s.endpoints && p.sid !in s.streams && env.connectOk)
              && (p.Data? ==>
                    if p.sid in s.streams then s.queues[s.streams[p.sid]].writer.Running?
                    else s.connected && env.sendOk)
  {
    hide QueueShape;
  }

  // ---------- the count of Ends ----------

  ghost function EndsDelivered(tr: seq<Session>, steps: seq<Step>, i: nat, sid: StreamId): nat
    requires i <= |steps| < |tr|
  {
    if i == 0 then 0
    else EndsDelivered(tr, steps, i - 1, sid) + if Delivers(tr[i - 1], steps[i - 1], End(sid)) then 1 else 0
  }

  ghost function EndTasksRun(steps: seq<Step>, i: nat, sid: StreamId): nat
    requires i <= |steps|
  {
    if i == 0 then 0 else EndTasksRun(steps, i - 1, sid) + if steps[i - 1] == EndTask(sid) then 1 else 0
  }

  lemma {:induction false} EndingStep(t: Session, step: Step, sid: StreamId)
    requires Enabled(t, step)
    ensures Apply(t, step).local.ending[sid] + (if step == EndTask(sid) then 1 else 0) ==
            t.local.ending[sid] + if Delivers(t, step, End(sid)) then 1 else 0
  {
    match step
    case Deliver(env) => EndingDelivery(t.local, t.ws[0], env, sid);
    case EndTask(_) =>
    case _ => assert Apply(t, step).local.ending == t.local.ending;
  }

  lemma {:induction false} EndingDelivery(s: LocalState, p: Packet, env: Surroundings, sid: StreamId)
    ensures s.Process(p, env).0.ending[sid] == s.ending[sid] + if p == End(sid) then 1 else 0
  {
  }

  // Each End delivered has started its own code, which has run or is still to run.
  lemma {:induction false} EndsAreCounted(tr: seq<Session>, steps: seq<Step>, i: nat, sid: StreamId)
    requires IsRun(tr, steps) && i < |tr|
    ensures EndsDelivered(tr, steps, i, sid) + tr[0].local.ending[sid] ==
            EndTasksRun(steps, i, sid) + tr[i].local.ending[sid]
  {
    hide Enabled, Apply;
    if i > 0 {
      EndsAreCounted(tr, steps, i - 1, sid);
      StepAt(tr, steps, i);
      EndingStep(tr[i - 1], steps[i - 1], sid);
    }
  }

  // ---------- from End to Close ----------

  // An entry goes only by the local side's end or by the code for End.
  lemma {:induction false} EntryStays(t: Session, step: Step, x: StreamId)
    requires Enabled(t, step) && x in t.local.streams && step != LocalEof(x) && step != EndTask(x)
    ensures x in Apply(t, step).local.streams && Apply(t, step).local.streams[x] == t.local.streams[x]
  {
    match step
    case Deliver(env) =>
    case EndTask(_) =>
    case LocalEof(_) =>
    case _ => assert Apply(t, step).local.streams == t.local.streams;
  }

  lemma {:induction false} LiveStays(t: Session, step: Step, q: nat, sid: StreamId)
    requires LocalOk(t.local) && Enabled(t, step) && IsLive(t.local, q) && t.local.queues[q].sid == sid
    requires step != LocalEof(sid) && step != EndTask(sid)
    ensures IsLive(Apply(t, step).local, q) && Apply(t, step).local.queues[q].sid == sid
  {
    hide LocalOk, Apply, Enabled, Appended, Put, Breaks, Shuts;
    QueueStep(t, step, q);
    EntryStays(t, step, sid);
  }

  lemma {:induction false} LiveThrough(tr: seq<Session>, steps: seq<Step>, a: nat, b: nat, q: nat, sid: StreamId)
    requires IsRun(tr, steps) && a <= b < |tr| && IsLive(tr[a].local, q) && tr[a].local.queues[q].sid == sid
    requires forall k | a <= k < b :: steps[k] != LocalEof(sid) && steps[k] != EndTask(sid)
    ensures IsLive(tr[b].local, q) && tr[b].local.queues[q].sid == sid
    decreases b
  {
    hide Enabled, Apply, IsLive, LocalOk;
    if a < b {
      LiveThrough(tr, steps, a, b - 1, q, sid);
      InvAt(tr, steps, b - 1);
      StepAt(tr, steps, b);
      LiveStays(tr[b - 1], steps[b - 1], q, sid);
    }
  }

  // A delivered End can run its code until it has.
  lemma {:induction false} EndIsPending(tr: seq<Session>, steps: seq<Step>, a: nat, b: nat, sid: StreamId)
    requires IsRun(tr, steps) && a < b < |tr| && Delivers(tr[a], steps[a], End(sid))
    requires forall k | a < k < b :: steps[k] != EndTask(sid)
    ensures Enabled(tr[b], EndTask(sid))
    decreases b
  {
    EndingThrough(tr, steps, a, b, sid);
    hide IsRun;
  }

  lemma {:induction false} EndingThrough(tr: seq<Session>, steps: seq<Step>, a: nat, b: nat, sid: StreamId)
    requires IsRun(tr, steps) && a < b < |tr| && Delivers(tr[a], steps[a], End(sid))
    requires forall k | a < k < b :: steps[k] != EndTask(sid)
    ensures tr[b].local.ending[sid] > 0
    decreases b
  {
    hide Enabled, Apply;
    StepAt(tr, steps, b);
    EndingStep(tr[b - 1], steps[b - 1], sid);
    if a + 1 < b {
      EndingThrough(tr, steps, a, b - 1, sid);
    }
  }

  lemma {:induction false} HeldStays(t: Session, step: Step, q: nat)
    requires Enabled(t, step) && q in t.local.holding && step != EndClose(q)
    ensures q in Apply(t, step).local.holding
  {
  }

  lemma {:induction false} HeldThrough(tr: seq<Session>, steps: seq<Step>, a: nat, b: nat, q: nat)
    requires IsRun(tr, steps) && a <= b < |tr| && q in tr[a].local.holding
    requires forall k | a <= k < b :: steps[k] != EndClose(q)
    ensures q in tr[b].local.holding
    decreases b
  {
    hide Enabled, Apply;
    if a < b {
      HeldThrough(tr, steps, a, b - 1, q);
      StepAt(tr, steps, b);
      HeldStays(tr[b - 1], steps[b - 1], q);
    }
  }

  // Running the code for End on a stream whose entry is still there takes the queue out, to be closed.
  lemma {:induction false} EndTaskTakes(t: Session, q: nat, sid: StreamId)
    requires Enabled(t, EndTask(sid)) && IsLive(t.local, q) && t.local.queues[q].sid == sid
    ensures var t' := Apply(t, EndTask(sid)); sid !in t'.local.streams && q in t'.local.holding && q in t'.local.queues
  {
  }

  lemma {:induction false} ClosedIsRetired(s: LocalState, q: nat)
    requires LocalOk(s) && q in s.queues && Closed(s.queues[q].sent)
    ensures !IsLive(s, q) && q !in s.holding
  {
    assert QueueShape(s, q);
    hide QueueBody;
  }

  // Nothing is added to a closed queue.
  lemma {:induction false} ClosedStays(t: Session, step: Step, q: nat)
    requires LocalOk(t.local) && Enabled(t, step) && q in t.local.queues && Closed(t.local.queues[q].sent)
    ensures q in Apply(t, step).local.queues && Closed(Apply(t, step).local.queues[q].sent)
  {
    hide *;
    ClosedIsRetired(t.local, q);
    RetiredKeepsSent(t, step, q);
  }

  lemma {:induction false} RetiredKeepsSent(t: Session, step: Step, q: nat)
    requires LocalOk(t.local) && Enabled(t, step) && q in t.local.queues && !IsLive(t.local, q) && q !in t.local.holding
    ensures q in Apply(t, step).local.queues && Apply(t, step).local.queues[q].sent == t.local.queues[q].sent
  {
    NothingAppended(t, step, q);
    hide LocalOk, Apply, Enabled, Put, Breaks, Shuts, Appended, IsLive;
    QueueStep(t, step, q);
  }

  lemma {:induction false} NothingAppended(t: Session, step: Step, q: nat)
    requires Enabled(t, step) && q in t.local.queues && !IsLive(t.local, q) && q !in t.local.holding
    ensures Appended(t, step, q) == []
  {
  }

  lemma {:induction false} ClosedThrough(tr: seq<Session>, steps: seq<Step>, a: nat, b: nat, q: nat)
    requires IsRun(tr, steps) && a <= b < |tr| && q in tr[a].local.queues && Closed(tr[a].local.queues[q].sent)
    ensures q in tr[b].local.queues && Closed(tr[b].local.queues[q].sent)
    decreases b
  {
    hide Enabled, Apply, LocalOk;
    if a < b {
      ClosedThrough(tr, steps, a, b - 1, q);
      InvAt(tr, steps, b - 1);
      StepAt(tr, steps, b);
      ClosedStays(tr[b - 1], steps[b - 1], q);
    }
  }

  lemma {:induction false} EndCloseCloses(t: Session, q: nat)
    requires LocalOk(t.local) && Enabled(t, EndClose(q)) && !t.local.queues[q].writer.Broken?
    ensures q in Apply(t, EndClose(q)).local.queues && Closed(Apply(t, EndClose(q)).local.queues[q].sent)
  {
    assert QueueShape(t.local, q);
    QueueStep(t, EndClose(q), q);
    hide LocalOk, Apply;
  }

  // An End delivered while the stream's entry is there, its code then run to the end, closes the queue for good, unless
  // the local side ended or a write failed first.
  lemma {:induction false} EndQueuesClose(tr: seq<Session>, steps: seq<Step>, a: nat, b: nat, c: nat, j: nat, q: nat,
      sid: StreamId)
    requires IsRun(tr, steps) && a < b < c < j < |tr|
    requires Delivers(tr[a], steps[a], End(sid)) && IsLive(tr[a].local, q) && tr[a].local.queues[q].sid == sid
    requires steps[b] == EndTask(sid) && forall k | a < k < b :: steps[k] != LocalEof(sid) && steps[k] != EndTask(sid)
    requires steps[c] == EndClose(q) && forall k | b < k < c :: steps[k] != EndClose(q)
    requires q in tr[c].local.queues && !tr[c].local.queues[q].writer.Broken?
    ensures q in tr[j].local.queues && Closed(tr[j].local.queues[q].sent)
  {
    LiveThrough(tr, steps, a, b, q, sid);
    StepAt(tr, steps, b + 1);
    EndTaskTakes(tr[b], q, sid);
    HeldThrough(tr, steps, b + 1, c, q);
    InvAt(tr, steps, c);
    StepAt(tr, steps, c + 1);
    EndCloseCloses(tr[c], q);
    ClosedThrough(tr, steps, c + 1, j, q);
  }

  // So such a stream's local socket, once shut down without a failed write, has received everything up to the end of
  // the remote side, exactly if no Data went ahead of Init.
  lemma {:induction false} EndDeliversEverything(tr: seq<Session>, steps: seq<Step>, a: nat, b: nat, c: nat, j: nat,
      q: nat, sid: StreamId)
    requires IsRun(tr, steps) && a < b < c < j < |tr|
    requires Delivers(tr[a], steps[a], End(sid)) && IsLive(tr[a].local, q) && tr[a].local.queues[q].sid == sid
    requires steps[b] == EndTask(sid) && forall k | a < k < b :: steps[k] != LocalEof(sid) && steps[k] != EndTask(sid)
    requires steps[c] == EndClose(q) && forall k | b < k < c :: steps[k] != EndClose(q)
    requires q in tr[c].local.queues && !tr[c].local.queues[q].writer.Broken?
    requires q in tr[j].local.queues && tr[j].local.queues[q].writer.Shut? && tr[j].local.queues[q].sid in tr[j].sources
    ensures var src := tr[j].sources[tr[j].local.queues[q].sid];
            src.ended && (tr[j].local.queues[q].written == src.read <==> !src.raced)
  {
    EndQueuesClose(tr, steps, a, b, c, j, q, sid);
    ClosedIsComplete(tr, steps, j, q);
  }

  // ---------- the writer over a whole session ----------

  ghost predicate BreaksAt(tr: seq<Session>, steps: seq<Step>, k: nat, q: nat)
    requires k < |steps| < |tr|
  {
    q in tr[k].local.queues && Breaks(tr[k], steps[k], q)
  }

  ghost predicate ShutsAt(tr: seq<Session>, steps: seq<Step>, k: nat, q: nat)
    requires k < |steps| < |tr|
  {
    q in tr[k].local.queues && Shuts(tr[k], steps[k], q)
  }

  ghost function Writes(steps: seq<Step>, i: nat, q: nat): nat
    requires i <= |steps|
  {
    if i == 0 then 0 else Writes(steps, i - 1, q) + if steps[i - 1].Write? && steps[i - 1].q == q then 1 else 0
  }

  ghost predicate BrokeBefore(tr: seq<Session>, steps: seq<Step>, i: nat, q: nat)
    requires i <= |steps| < |tr|
  {
    exists k :: 0 <= k < i && BreaksAt(tr, steps, k, q)
  }

  ghost predicate ShutBefore(tr: seq<Session>, steps: seq<Step>, i: nat, q: nat)
    requires i <= |steps| < |tr|
  {
    exists k :: 0 <= k < i && ShutsAt(tr, steps, k, q)
  }

  lemma {:induction false} OneStepMore(tr: seq<Session>, steps: seq<Step>, i: nat, q: nat)
    requires 0 < i <= |steps| < |tr|
    ensures BrokeBefore(tr, steps, i, q) <==> BrokeBefore(tr, steps, i - 1, q) || BreaksAt(tr, steps, i - 1, q)
    ensures ShutBefore(tr, steps, i, q) <==> ShutBefore(tr, steps, i - 1, q) || ShutsAt(tr, steps, i - 1, q)
  {
    hide BreaksAt, ShutsAt;
  }

  // A queue of this session is broken exactly if a write to its socket failed, shut exactly if its writer took a Close
  // or ran out of senders, and has lost to the writer exactly one message a step.
  lemma {:induction false} WriterExactly(tr: seq<Session>, steps: seq<Step>, i: nat, q: nat)
    requires IsRun(tr, steps) && i < |tr| && q !in tr[0].local.queues
    ensures q in tr[i].local.queues ==>
              var queue := tr[i].local.queues[q];
              && (queue.writer.Broken? <==> BrokeBefore(tr, steps, i, q))
              && (queue.writer.Shut? <==> ShutBefore(tr, steps, i, q))
              && queue.taken == Writes(steps, i, q)
    ensures q !in tr[i].local.queues ==>
              Writes(steps, i, q) == 0 && !BrokeBefore(tr, steps, i, q) && !ShutBefore(tr, steps, i, q)
  {
    if i > 0 {
      hide Apply, LocalOk, Enabled, BreaksAt, ShutsAt, BrokeBefore, ShutBefore;
      WriterExactly(tr, steps, i - 1, q);
      InvAt(tr, steps, i - 1);
      StepAt(tr, steps, i);
      hide IsRun;
      WriterExactlyStep(tr, steps, i, q);
      OneStepMore(tr, steps, i, q);
    }
  }

  lemma {:induction false} WriterExactlyStep(tr: seq<Session>, steps: seq<Step>, i: nat, q: nat)
    requires 0 < i <= |steps| < |tr| && LocalOk(tr[i - 1].local)
    requires Enabled(tr[i - 1], steps[i - 1]) && tr[i] == Apply(tr[i - 1], steps[i - 1])
    ensures q in tr[i - 1].local.queues ==>
              && q in tr[i].local.queues
              && var was, now := tr[i - 1].local.queues[q], tr[i].local.queues[q];
                 && now.taken == was.taken + (if steps[i - 1].Write? && steps[i - 1].q == q then 1 else 0)
                 && (now.writer.Broken? <==> was.writer.Broken? || BreaksAt(tr, steps, i - 1, q))
                 && (now.writer.Shut? <==> was.writer.Shut? || ShutsAt(tr, steps, i - 1, q))
    ensures q !in tr[i - 1].local.queues ==>
              && !(steps[i - 1].Write? && steps[i - 1].q == q)
              && !BreaksAt(tr, steps, i - 1, q) && !ShutsAt(tr, steps, i - 1, q)
              && (q in tr[i].local.queues ==> tr[i].local.queues[q].taken == 0 && tr[i].local.queues[q].writer.Running?)
  {
    var t, step := tr[i - 1], steps[i - 1];
    if q in t.local.queues {
      QueueStep(t, step, q);
      if Breaks(t, step, q) || Shuts(t, step, q) {
        OneFate(t, step, q);
      }
    } else if q in tr[i].local.queues {
      NewQueueStep(t, step, q);
    }
    hide LocalOk, Apply, Put, Appended;
  }

  // Only a writer at work breaks or shuts, and not both.
  lemma {:induction false} OneFate(t: Session, step: Step, q: nat)
    requires Enabled(t, step) && q in t.local.queues && (Breaks(t, step, q) || Shuts(t, step, q))
    ensures t.local.queues[q].writer.Running? && !(Breaks(t, step, q) && Shuts(t, step, q))
  {
  }
}
