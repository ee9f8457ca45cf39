// Every step of the tunnel keeps its invariant: first the server's steps, then the client's.
module TunnelSteps {
  import opened Wrappers
  import opened Sequences
  import opened Protocol
  import opened LocalModel
  import opened Tunnel

  // ---------- server-side steps ----------

  // Pushing a packet that does not mention a stream leaves what is known about the stream.
  lemma {:induction false} PushElsewhere(t: Session, t': Session, p: Packet, sid: StreamId)
    requires sid in t.sources && sid in t'.sources && t'.sources[sid] == t.sources[sid]
    requires t'.others == t.others && t'.local == t.local && t'.ws == t.ws + [p] && !p.Mentions(sid)
    requires SourceOk(t, sid)
    ensures SourceOk(t', sid) && Payload(t'.ws, sid) == Payload(t.ws, sid)
  {
    Push(t.ws, p, sid);
    PushOrder(t.ws, p, sid);
  }

  // What the server put into the WebSocket for the stream went to its end, and nothing once it had ended.
  ghost predicate Grows(t: Session, t': Session, sid: StreamId) {
    && sid in t.sources && sid in t'.sources && t'.local == t.local && t'.alive == t.alive
    && var src, src' := t.sources[sid], t'.sources[sid];
       && src.sent <= src'.sent && (src.ended ==> src'.ended && src'.sent == src.sent) && src'.missed == src.missed
       && src'.sent == src.sent + src'.sent[|src.sent|..]
       && Payload(t'.ws, sid) == Payload(t.ws, sid) + src'.sent[|src.sent|..]
  }

  lemma {:induction false} GrowsKeepsQueue(t: Session, t': Session, q: nat)
    requires q in t.local.queues && Grows(t, t', t.local.queues[q].sid) && QueueOk(t, q)
    ensures QueueOk(t', q)
  {
  }

  // A step of the server that puts a packet about its stream into the WebSocket.
  lemma {:induction false} OwnPush(t: Session, step: Step)
    requires Inv(t) && Enabled(t, step) && (step.SendInit? || step.Read? || step.Eof?) && step.ok
    ensures SourceOk(Apply(t, step), step.sid)
    ensures Grows(t, Apply(t, step), step.sid)
  {
    assert SourceOk(t, step.sid);
    hide Inv, OrderOk, RaceOk;
    OwnOrder(t, step);
    OwnRace(t, step);
    OwnGrows(t, step);
    hide Grows;
  }

  lemma {:induction false} OwnGrows(t: Session, step: Step)
    requires Enabled(t, step) && (step.SendInit? || step.Read? || step.Eof?) && step.ok && SourceOk(t, step.sid)
    ensures Grows(t, Apply(t, step), step.sid)
  {
    Push(t.ws, Last(Apply(t, step).ws), step.sid);
    hide OrderOk, RaceOk, Payload;
  }

  lemma {:induction false} OwnOrder(t: Session, step: Step)
    requires Enabled(t, step) && (step.SendInit? || step.Read? || step.Eof?) && step.ok && SourceOk(t, step.sid)
    ensures OrderOk(Apply(t, step), step.sid)
  {
    hide Apply, Enabled, SourceOk, OrderOk;
    match step
    case SendInit(_, _, _, _) => InitOrder(t, step);
    case Read(_, _, _) => ReadOrder(t, step);
    case Eof(_, _) => EofOrder(t, step);
  }

  lemma {:induction false} InitOrder(t: Session, step: Step)
    requires Enabled(t, step) && step.SendInit? && step.ok && SourceOk(t, step.sid)
    ensures OrderOk(Apply(t, step), step.sid)
  {
    var p := Last(Apply(t, step).ws);
    Push(t.ws, p, step.sid);
    PushOrder(t.ws, p, step.sid);
    ChannelFacts(t.ws, step.sid);
    hide RaceOk, Absent, Payload, NoInit, NoEnd, OneInit, EndLast, Ahead;
  }

  lemma {:induction false} ReadOrder(t: Session, step: Step)
    requires Enabled(t, step) && step.Read? && step.ok && SourceOk(t, step.sid)
    ensures OrderOk(Apply(t, step), step.sid)
  {
    var p := Last(Apply(t, step).ws);
    Push(t.ws, p, step.sid);
    PushOrder(t.ws, p, step.sid);
    ChannelFacts(t.ws, step.sid);
    hide RaceOk, Absent, Payload, NoInit, NoEnd, OneInit, EndLast, Ahead;
  }

  lemma {:induction false} EofOrder(t: Session, step: Step)
    requires Enabled(t, step) && step.Eof? && step.ok && SourceOk(t, step.sid)
    ensures OrderOk(Apply(t, step), step.sid)
  {
    var p := Last(Apply(t, step).ws);
    Push(t.ws, p, step.sid);
    PushOrder(t.ws, p, step.sid);
    ChannelFacts(t.ws, step.sid);
    hide RaceOk, Absent, Payload, NoInit, NoEnd, OneInit, EndLast, Ahead;
  }

  lemma {:induction false} OwnRace(t: Session, step: Step)
    requires Enabled(t, step) && (step.SendInit? || step.Read? || step.Eof?) && step.ok && SourceOk(t, step.sid)
    ensures RaceOk(Apply(t, step), step.sid)
  {
    var p := Last(Apply(t, step).ws);
    Push(t.ws, p, step.sid);
    PushOrder(t.ws, p, step.sid);
    ChannelFacts(t.ws, step.sid);
    hide Absent, Payload, NoInit, NoEnd, OneInit, EndLast, Ahead;
  }

  lemma {:induction false} AcceptKeeps(t: Session, sid: StreamId)
    requires Inv(t) && Enabled(t, Accept(sid))
    ensures Inv(Apply(t, Accept(sid)))
  {
    var t' := Apply(t, Accept(sid));
    ChannelFacts(t.ws, sid);
    forall x | x in t'.sources ensures SourceOk(t', x) {
      if x != sid {
        assert SourceOk(t, x);
      }
    }
    forall q | q in t'.local.queues ensures QueueOk(t', q) {
      assert QueueOk(t, q);
    }
  }

  lemma {:induction false} SameSourceKeepsQueue(t: Session, t': Session, q: nat)
    requires q in t.local.queues && t'.local == t.local && t'.alive == t.alive && QueueOk(t, q)
    requires var sid := t.local.queues[q].sid;
             && Payload(t'.ws, sid) == Payload(t.ws, sid) && (sid in t.sources <==> sid in t'.sources)
             && (sid in t.sources ==>
                   var src, src' := t.sources[sid], t'.sources[sid];
                   src'.sent == src.sent && src'.ended == src.ended && src'.missed == src.missed)
    ensures QueueOk(t', q)
  {
  }

  // A step of the server that sends nothing.
  lemma {:induction false} SilentKeeps(t: Session, step: Step)
    requires Inv(t) && Enabled(t, step)
    requires step.StopReading? || ((step.SendInit? || step.Read? || step.Eof?) && !step.ok)
    ensures Inv(Apply(t, step))
  {
    hide SourceOk, QueueOk, LocalOk, Quiet, Absent;
    var t' := Apply(t, step);
    forall x | x in t'.sources ensures SourceOk(t', x) {
      SilentKeepsSource(t, step, x);
    }
    forall q | q in t'.local.queues ensures QueueOk(t', q) {
      SameSourceKeepsQueue(t, t', q);
    }
  }

  lemma {:induction false} SilentKeepsSource(t: Session, step: Step, x: StreamId)
    requires Inv(t) && Enabled(t, step) && x in t.sources
    requires step.StopReading? || ((step.SendInit? || step.Read? || step.Eof?) && !step.ok)
    ensures SourceOk(Apply(t, step), x)
  {
    hide Payload, NoInit, NoEnd, OneInit, EndLast, Ahead, Bytes', QueueBody;
    assert SourceOk(t, x);
    hide QueueOk, LocalOk, FreshOk, Absent;
  }

  lemma {:induction false} PushKeepsFresh(t: Session, t': Session, p: Packet)
    requires FreshOk(t) && t'.sources.Keys == t.sources.Keys && t'.others == t.others && t'.local == t.local
    requires t'.ws == t.ws + [p]
    requires forall sid: StreamId :: p.Mentions(sid) ==> sid in t.sources || sid in t.others
    ensures FreshOk(t')
  {
    forall sid: StreamId | sid !in t'.sources && sid !in t'.others
      ensures Quiet(t'.ws, sid) && Absent(t'.local, sid) && sid !in t'.local.ending
    {
      Push(t.ws, p, sid);
    }
  }

  lemma {:induction false} OtherPacketKeeps(t: Session, packet: Packet)
    requires Inv(t) && Enabled(t, OtherPacket(packet))
    ensures Inv(Apply(t, OtherPacket(packet)))
  {
    var t' := Apply(t, OtherPacket(packet));
    forall x | x in t'.sources ensures SourceOk(t', x) && Payload(t'.ws, x) == Payload(t.ws, x) {
      assert SourceOk(t, x);
      PushElsewhere(t, t', packet, x);
    }
    forall q | q in t'.local.queues ensures QueueOk(t', q) {
      assert QueueOk(t, q);
    }
    PushKeepsFresh(t, t', packet);
  }

  lemma {:induction false} SendKeeps(t: Session, step: Step)
    requires Inv(t) && Enabled(t, step) && (step.SendInit? || step.Read? || step.Eof?) && step.ok
    ensures Inv(Apply(t, step))
  {
    var t' := Apply(t, step);
    var p := Last(t'.ws);
    OwnPush(t, step);
    forall x | x in t'.sources ensures SourceOk(t', x) && (x != step.sid ==> Payload(t'.ws, x) == Payload(t.ws, x)) {
      if x != step.sid {
        assert SourceOk(t, x);
        PushElsewhere(t, t', p, x);
      }
    }
    forall q | q in t'.local.queues ensures QueueOk(t', q) {
      SendKeepsQueue(t, step, q);
    }
    PushKeepsFresh(t, t', p);
  }

  lemma {:induction false} SendKeepsQueue(t: Session, step: Step, q: nat)
    requires Inv(t) && Enabled(t, step) && (step.SendInit? || step.Read? || step.Eof?) && step.ok
    requires q in t.local.queues
    ensures QueueOk(Apply(t, step), q)
  {
    var t' := Apply(t, step);
    var sid := t.local.queues[q].sid;
    assert QueueOk(t, q);
    if sid == step.sid {
      OwnPush(t, step);
      hide Apply, Inv, Enabled;
      GrowsKeepsQueue(t, t', q);
    } else {
      Push(t.ws, Last(t'.ws), sid);
      hide Inv, Enabled;
      SameSourceKeepsQueue(t, t', q);
    }
  }

  // ---------- client-side steps: the streams they do not touch ----------

  ghost predicate SameOn(s: LocalState, s': LocalState, x: StreamId) {
    && (x in s.streams <==> x in s'.streams) && (x in s.streams ==> s'.streams[x] == s.streams[x])
    && (x in s.ending <==> x in s'.ending)
    && (forall q | q in s'.queues && s'.queues[q].sid == x :: q in s.queues && s.queues[q].sid == x)
    && (forall q | q in s.queues && s.queues[q].sid == x :: q in s'.queues && s'.queues[q].sid == x
          && s'.queues[q].sent == s.queues[q].sent && (q in s'.holding <==> q in s.holding))
  }

  lemma {:induction false} SameOnKeeps(t: Session, t': Session, x: StreamId)
    requires x in t.sources && x in t'.sources && t'.sources[x] == t.sources[x]
    requires t'.others == t.others && SameOn(t.local, t'.local, x) && (t'.alive ==> t.alive)
    requires t'.ws == t.ws || (t.ws != [] && t'.ws == t.ws[1..] && !t.ws[0].Mentions(x))
    requires StreamOk(t, x)
    ensures StreamOk(t', x)
  {
    assert Absent(t'.local, x) == Absent(t.local, x);
    assert Payload(t'.ws, x) == Payload(t.ws, x);
    forall q | q in t'.local.queues && t'.local.queues[q].sid == x ensures QueueOk(t', q) {
      assert QueueOk(t, q) && IsLive(t'.local, q) == IsLive(t.local, q);
    }
  }

  // A step of the client: what is left to show is what it does to the streams it touches.
  lemma {:induction false} ClientKeeps(t: Session, t': Session, touched: set<StreamId>)
    requires Inv(t) && t'.others == t.others && (t'.alive ==> t.alive) && LocalOk(t'.local)
    requires t'.sources.Keys == t.sources.Keys
    requires forall x | x in t.sources && x !in touched :: t'.sources[x] == t.sources[x]
    requires t'.ws == t.ws || (t.ws != [] && t'.ws == t.ws[1..] && forall x: StreamId ::
        t.ws[0].Mentions(x) ==> x in touched)
    requires forall x: StreamId :: x !in touched ==> SameOn(t.local, t'.local, x)
    requires forall x | x in touched :: if x in t'.sources then StreamOk(t', x) else x in t.others
    ensures Inv(t')
  {
    forall x | x in t'.sources ensures StreamOk(t', x) {
      if x !in touched {
        assert SourceOk(t, x);
        SameOnKeeps(t, t', x);
      }
    }
    hide SourceOk;
    forall q | q in t'.local.queues ensures QueueOk(t', q) {
      var x := t'.local.queues[q].sid;
      if x in t'.sources {
        assert StreamOk(t', x);
      }
    }
    forall x: StreamId | x !in t'.sources && x !in t'.others
      ensures Quiet(t'.ws, x) && Absent(t'.local, x) && x !in t'.local.ending
    {
      assert Quiet(t.ws, x) && Absent(t.local, x) && SameOn(t.local, t'.local, x);
    }
  }

  ghost predicate StreamOk(t: Session, sid: StreamId)
    requires sid in t.sources
  {
    SourceOk(t, sid) && forall q | q in t.local.queues && t.local.queues[q].sid == sid :: QueueOk(t, q)
  }

  // ---------- client-side steps: one queue ----------

  lemma {:induction false} BytesOfTake(ms: seq<StreamMessage>, k: nat)
    requires k <= |ms|
    ensures Bytes'(ms[..k]) <= Bytes'(ms)
  {
    if k == |ms| {
      assert ms[..k] == ms;
    } else {
      assert Front(ms)[..k] == ms[..k];
      BytesOfTake(Front(ms), k);
    }
  }

  lemma {:induction false} NoCloseAt(ms: seq<StreamMessage>, i: nat)
    requires NoClose(ms) && i < |ms|
    ensures ms[i].Bytes?
  {
    if i < |ms| - 1 {
      NoCloseAt(Front(ms), i);
    }
  }

  // One iteration of the writer: a Close it takes is the last message there is.
  lemma {:induction false} TakeKeepsBody(queue: Queue, ok: bool, partial: nat)
    requires QueueBody(queue) && queue.writer.Running? && queue.taken < |queue.sent|
    ensures QueueBody(queue.Take(ok, partial)) && (Open(queue) ==> Open(queue.Take(ok, partial)))
  {
    var ms, k := queue.sent, queue.taken;
    TakeSnoc(ms, k);
    BytesOfTake(ms, k + 1);
    if NoClose(ms) {
      NoCloseAt(ms, k);
    }
    if ms[k].Close? && k < |ms| - 1 {
      assert Front(ms)[k] == ms[k];
      NoCloseAt(Front(ms), k);
    }
  }

  lemma {:induction false} SendKeepsBody(queue: Queue, m: StreamMessage)
    requires QueueBody(queue) && NoClose(queue.sent)
    ensures QueueBody(queue.Send(m).0)
    ensures m.Bytes? && Open(queue) ==> Open(queue.Send(m).0)
    ensures queue.Send(m).1 ==> Bytes'(queue.Send(m).0.sent) == Bytes'(queue.sent) + if m.Bytes? then m.data else []
  {
    Snoc(queue.sent, m);
    assert (queue.sent + [m])[..queue.taken] == queue.sent[..queue.taken];
  }

  // ---------- client-side steps: the whole table ----------

  // LocalOk without the queues' own contents.
  ghost predicate TableOk(s: LocalState) {
    && (forall x | x in s.streams :: s.streams[x] in s.queues && s.queues[s.streams[x]].sid == x)
    && (forall q | q in s.queues :: q < s.nextQueue && (IsLive(s, q) || q in s.holding ==> Open(s.queues[q])))
    && (forall q | q in s.holding :: q in s.queues && !IsLive(s, q))
  }

  lemma {:induction false} LocalOkIff(s: LocalState)
    ensures LocalOk(s) <==> TableOk(s) && forall q | q in s.queues :: QueueBody(s.queues[q])
  {
    hide QueueBody, Open, IsLive;
    if LocalOk(s) {
      forall q | q in s.queues ensures QueueBody(s.queues[q])
          && (IsLive(s, q) || q in s.holding ==> Open(s.queues[q])) {
        assert QueueShape(s, q);
      }
    }
    if TableOk(s) && forall q | q in s.queues :: QueueBody(s.queues[q]) {
      forall q | q in s.queues ensures QueueShape(s, q) {
        assert QueueBody(s.queues[q]);
      }
    }
  }

  lemma {:induction false} AddStreamLocal(s: LocalState, sid: StreamId)
    requires LocalOk(s) && sid !in s.streams
    ensures LocalOk(s.AddStream(sid))
  {
    LocalOkIff(s);
    LocalOkIff(s.AddStream(sid));
    NewBody(sid);
    hide QueueBody, LocalOk;
  }

  lemma {:induction false} NewBody(sid: StreamId)
    ensures QueueBody(Queue(sid, [], 0, [], Running))
  {
    var none: seq<StreamMessage> := [];
    assert none[..0] == none && Bytes'(none) == [];
  }

  lemma {:induction false} RemoveLocal(s: LocalState, sid: StreamId)
    requires LocalOk(s)
    ensures LocalOk(s.RemoveStream(sid))
  {
    LocalOkIff(s);
    LocalOkIff(s.RemoveStream(sid));
    hide QueueBody, LocalOk, Open;
  }

  lemma {:induction false} EndTaskRemovesLocal(s: LocalState, sid: StreamId)
    requires LocalOk(s)
    ensures LocalOk(s.EndTaskRemoves(sid))
  {
    LocalOkIff(s);
    LocalOkIff(s.EndTaskRemoves(sid));
    hide QueueBody, LocalOk, Open;
  }

  // Replacing one queue by a later state of it.
  lemma {:induction false} ReplaceLocal(s: LocalState, q: nat, queue: Queue)
    requires LocalOk(s) && q in s.queues && queue.sid == s.queues[q].sid && QueueBody(queue)
    requires IsLive(s, q) || q in s.holding ==> Open(queue)
    ensures LocalOk(s.(queues := s.queues[q := queue]))
  {
    LocalOkIff(s);
    LocalOkIff(s.(queues := s.queues[q := queue]));
    hide QueueBody, LocalOk, Open;
  }

  lemma {:induction false} EnqueueLocal(s: LocalState, q: nat, data: seq<byte>)
    requires LocalOk(s) && IsLive(s, q)
    ensures LocalOk(s.Enqueue(q, Bytes(data)).0)
  {
    assert QueueShape(s, q);
    SendKeepsBody(s.queues[q], Bytes(data));
    hide QueueBody, LocalOk, Open;
    ReplaceLocal(s, q, s.queues[q].Send(Bytes(data)).0);
  }

  lemma {:induction false} EndTaskClosesLocal(s: LocalState, q: nat)
    requires LocalOk(s) && q in s.holding
    ensures q in s.queues && LocalOk(s.EndTaskCloses(q))
  {
    assert QueueShape(s, q) && !IsLive(s, q);
    SendKeepsBody(s.queues[q], Close);
    DropHolding(s, q);
    hide QueueBody, LocalOk, Open;
    ReplaceLocal(s.(holding := s.holding - {q}), q, s.queues[q].Send(Close).0);
  }

  lemma {:induction false} DropHolding(s: LocalState, q: nat)
    requires LocalOk(s)
    ensures LocalOk(s.(holding := s.holding - {q}))
  {
    LocalOkIff(s);
    LocalOkIff(s.(holding := s.holding - {q}));
    hide QueueBody, LocalOk, Open;
  }

  lemma {:induction false} WriterTakesLocal(s: LocalState, q: nat, ok: bool, partial: nat)
    requires LocalOk(s) && q in s.queues && s.queues[q].writer.Running? && s.queues[q].taken < |s.queues[q].sent|
    ensures LocalOk(s.WriterTakes(q, ok, partial))
  {
    assert QueueShape(s, q);
    TakeKeepsBody(s.queues[q], ok, partial);
    hide QueueBody, LocalOk, Open;
    ReplaceLocal(s, q, s.queues[q].Take(ok, partial));
  }

  lemma {:induction false} WriterEndsLocal(s: LocalState, q: nat)
    requires LocalOk(s) && q in s.queues && s.queues[q].writer.Running? && s.queues[q].taken == |s.queues[q].sent|
    requires q !in s.holding && !IsLive(s, q)
    ensures LocalOk(s.WriterEnds(q))
  {
    assert QueueShape(s, q);
    ReplaceLocal(s, q, s.queues[q].(writer := Shut));
  }

  lemma {:induction false} ProcessLocal(s: LocalState, packet: Packet, env: Surroundings)
    requires LocalOk(s)
    ensures LocalOk(s.Process(packet, env).0)
  {
    match packet
    case Init(sid, eid, _) =>
      if eid in s.endpoints && sid !in s.streams && env.connectOk {
        AddStreamLocal(s, sid);
      }
    case Data(sid, data) =>
      if sid in s.streams {
        hide QueueShape;
        EnqueueLocal(s, s.streams[sid], data);
      }
    case _ =>
      LocalOkIff(s);
      LocalOkIff(s.Process(packet, env).0);
      hide LocalOk, QueueBody, Open;
  }

  lemma {:induction false} ProcessElsewhere(s: LocalState, packet: Packet, env: Surroundings, x: StreamId)
    requires LocalOk(s) && !packet.Mentions(x)
    ensures SameOn(s, s.Process(packet, env).0, x)
  {
    hide QueueShape, LocalState.ToServer;
  }

  // ---------- delivering a packet ----------

  // The stream's next packet is at the head of the WebSocket.
  ghost predicate Due(t: Session, env: Surroundings, sid: StreamId) {
    && Enabled(t, Deliver(env)) && t.ws[0].Mentions(sid) && sid in t.sources
    && LocalOk(t.local) && StreamOk(t, sid)
  }

  lemma {:induction false} DeliverInit(t: Session, env: Surroundings, sid: StreamId)
    requires Due(t, env, sid) && t.ws[0].Init?
    ensures StreamOk(Apply(t, Deliver(env)), sid)
  {
    var t' := Apply(t, Deliver(env));
    DeliverInitSource(t, env, sid);
    forall q | q in t'.local.queues && t'.local.queues[q].sid == sid ensures QueueOk(t', q) {
      assert Bytes'([]) == [];
      assert Got(t.sources[sid], t'.local.queues[q]) == t.sources[sid].missed;
      hide LocalOk, RaceOk, Got;
    }
    hide LocalOk, QueueOk, SourceOk;
  }

  lemma {:induction false} DeliverInitSource(t: Session, env: Surroundings, sid: StreamId)
    requires Due(t, env, sid) && t.ws[0].Init?
    ensures SourceOk(Apply(t, Deliver(env)), sid)
  {
    hide LocalOk, QueueOk;
    var ws := t.ws[1..];
    ChannelFacts(ws, sid);
    assert NoInit(ws, sid) && !NoInit(t.ws, sid) && Ahead(t.ws, sid) == [] && Payload(t.ws, sid) == Payload(ws, sid);
    assert EndLast(t.ws, sid) == EndLast(ws, sid) && NoEnd(t.ws, sid) == NoEnd(ws, sid);
    hide NoInit, Ahead, Payload, EndLast, NoEnd, OneInit;
    assert t.local.nextQueue in t.local.AddStream(sid).queues;
  }

  lemma {:induction false} DeliverData(t: Session, env: Surroundings, sid: StreamId)
    requires Due(t, env, sid) && t.ws[0].Data?
    ensures StreamOk(Apply(t, Deliver(env)), sid)
  {
    var t' := Apply(t, Deliver(env));
    assert Payload(t.ws, sid) == t.ws[0].data + Payload(t'.ws, sid);
    forall q | q in t'.local.queues && t'.local.queues[q].sid == sid ensures QueueOk(t', q) {
      DeliverDataQueue(t, env, sid, q);
    }
    hide QueueShape, QueueOk;
    assert Absent(t'.local, sid) == Absent(t.local, sid);
  }

  lemma {:induction false} DeliverDataQueue(t: Session, env: Surroundings, sid: StreamId, q: nat)
    requires Due(t, env, sid) && t.ws[0].Data? && q in t.local.queues && t.local.queues[q].sid == sid
    ensures QueueOk(Apply(t, Deliver(env)), q)
  {
    var t' := Apply(t, Deliver(env));
    assert QueueOk(t, q) && !Absent(t.local, sid);
    if IsLive(t.local, q) {
      assert QueueShape(t.local, q);
      SendKeepsBody(t.local.queues[q], Bytes(t.ws[0].data));
      assert Payload(t.ws, sid) == t.ws[0].data + Payload(t'.ws, sid);
      hide LocalOk, RaceOk, QueueBody, QueueOk, Payload, NoInit, NoEnd, OneInit, EndLast, Ahead;
      LiveGets(t, t', q, t.ws[0].data);
    }
  }

  lemma {:induction false} LiveGets(t: Session, t': Session, q: nat, data: seq<byte>)
    requires q in t.local.queues && q in t'.local.queues && QueueOk(t, q) && IsLive(t.local, q) && t.alive
    requires t'.sources == t.sources && t'.local.queues[q].sid == t.local.queues[q].sid
    requires t'.local.holding == t.local.holding
    requires q !in t.local.holding && (t.local.queues[q].sid in t'.local.ending ==> data == [])
    requires Payload(t.ws, t.local.queues[q].sid) == data + Payload(t'.ws, t.local.queues[q].sid)
    requires if t'.alive
             then Bytes'(t'.local.queues[q].sent) == Bytes'(t.local.queues[q].sent) + data
                 && !Closed(t'.local.queues[q].sent)
             else t'.local.queues[q].sent == t.local.queues[q].sent
    ensures QueueOk(t', q)
  {
    hide Payload, Bytes';
    if t.local.queues[q].sid in t.sources {
      var src := t.sources[t.local.queues[q].sid];
      if t'.alive {
        assert Got(src, t'.local.queues[q]) == Got(src, t.local.queues[q]) + data;
      } else {
        assert Got(src, t'.local.queues[q]) == Got(src, t.local.queues[q]);
      }
      hide Got;
    }
  }

  lemma {:induction false} DeliverEnd(t: Session, env: Surroundings, sid: StreamId)
    requires Due(t, env, sid) && (t.ws[0].End? || t.ws[0].Refused?)
    ensures StreamOk(Apply(t, Deliver(env)), sid)
  {
    var t' := Apply(t, Deliver(env));
    DeliverEndSource(t, env, sid);
    hide SourceOk, QueueOk, LocalOk;
    forall q | q in t'.local.queues && t'.local.queues[q].sid == sid ensures QueueOk(t', q) {
      assert QueueOk(t, q);
      DeliverEndQueue(t, env, sid, q);
    }
  }

  lemma {:induction false} DeliverEndSource(t: Session, env: Surroundings, sid: StreamId)
    requires Due(t, env, sid) && (t.ws[0].End? || t.ws[0].Refused?)
    ensures SourceOk(Apply(t, Deliver(env)), sid)
  {
    hide LocalOk, QueueOk;
    var t' := Apply(t, Deliver(env));
    var ws := t.ws[1..];
    ChannelFacts(ws, sid);
    assert NoInit(t.ws, sid) == NoInit(ws, sid) && OneInit(t.ws, sid) == OneInit(ws, sid);
    assert Ahead(t.ws, sid) == Ahead(ws, sid) && Payload(t.ws, sid) == Payload(ws, sid);
    assert EndLast(ws, sid) && (NoEnd(t.ws, sid) ==> NoEnd(ws, sid) && !t.ws[0].End?);
    assert t.ws[0].End? ==> Payload(ws, sid) == [];
    hide NoInit, OneInit, Ahead, Payload, EndLast, NoEnd;
    assert Absent(t'.local, sid) == Absent(t.local, sid);
    hide Absent;
  }

  lemma {:induction false} DeliverEndQueue(t: Session, env: Surroundings, sid: StreamId, q: nat)
    requires Enabled(t, Deliver(env)) && (t.ws[0].End? || t.ws[0].Refused?) && q in t.local.queues && QueueOk(t, q)
    ensures QueueOk(Apply(t, Deliver(env)), q)
  {
    hide Got;
  }

  // The stream a packet is about.
  ghost function About(p: Packet): set<StreamId> {
    if p.Ping? || p.Pong? then {} else {p.sid}
  }

  lemma {:induction false} DeliverOwn(t: Session, env: Surroundings, sid: StreamId)
    requires Inv(t) && Enabled(t, Deliver(env)) && t.ws[0].Mentions(sid) && sid in t.sources
    ensures StreamOk(Apply(t, Deliver(env)), sid)
  {
    assert SourceOk(t, sid);
    assert Due(t, env, sid);
    hide QueueShape, OrderOk;
    match t.ws[0]
    case Init(_, _, _) => DeliverInit(t, env, sid);
    case Data(_, _) => DeliverData(t, env, sid);
    case _ => DeliverEnd(t, env, sid);
  }

  lemma {:induction false} DeliverAbout(t: Session, env: Surroundings, x: StreamId)
    requires Inv(t) && Enabled(t, Deliver(env)) && x in About(t.ws[0])
    ensures if x in t.sources then StreamOk(Apply(t, Deliver(env)), x) else x in t.others
  {
    if x in t.sources {
      DeliverOwn(t, env, x);
    } else {
      assert !Quiet(t.ws, x);
    }
  }

  lemma {:induction false} DeliverLocal(t: Session, env: Surroundings)
    requires Inv(t) && Enabled(t, Deliver(env))
    ensures LocalOk(Apply(t, Deliver(env)).local)
    ensures forall x: StreamId | x !in About(t.ws[0]) :: SameOn(t.local, Apply(t, Deliver(env)).local, x)
  {
    var p := t.ws[0];
    ProcessLocal(t.local, p, env);
    forall x: StreamId | x !in About(p) ensures SameOn(t.local, t.local.Process(p, env).0, x) {
      ProcessElsewhere(t.local, p, env, x);
    }
    hide Inv, LocalOk, SameOn, LocalState.Process;
  }

  lemma {:induction false} DeliverKeeps(t: Session, env: Surroundings)
    requires Inv(t) && Enabled(t, Deliver(env))
    ensures Inv(Apply(t, Deliver(env)))
  {
    hide Inv, LocalOk, SameOn, StreamOk;
    var p := t.ws[0];
    DeliverLocal(t, env);
    forall x | x in About(p) ensures if x in t.sources then StreamOk(Apply(t, Deliver(env)), x) else x in t.others {
      DeliverAbout(t, env, x);
    }
    ClientKeeps(t, Apply(t, Deliver(env)), About(p));
  }

  // ---------- the client's other steps ----------

  // A stream the client knows belongs to somebody.
  lemma {:induction false} KnownSid(t: Session, sid: StreamId)
    requires Inv(t) && (sid in t.local.ending || !Absent(t.local, sid))
    ensures sid in t.sources || sid in t.others
  {
  }

  lemma {:induction false} EndTaskElsewhere(s: LocalState, sid: StreamId, x: StreamId)
    requires LocalOk(s) && x != sid
    ensures SameOn(s, s.EndTaskRemoves(sid), x)
  {
    hide QueueShape;
  }

  lemma {:induction false} EndTaskQueue(t: Session, sid: StreamId, q: nat)
    requires Enabled(t, EndTask(sid)) && sid in t.sources && OrderOk(t, sid)
    requires q in t.local.queues && t.local.queues[q].sid == sid && QueueOk(t, q)
    ensures QueueOk(Apply(t, EndTask(sid)), q)
  {
    hide Payload, NoInit, NoEnd, OneInit, EndLast, Absent;
  }

  lemma {:induction false} EndTaskOwn(t: Session, sid: StreamId)
    requires Inv(t) && Enabled(t, EndTask(sid)) && sid in t.sources
    ensures StreamOk(Apply(t, EndTask(sid)), sid)
  {
    hide NoInit, NoEnd, OneInit, EndLast, Ahead, Bytes', QueueBody;
    var t' := Apply(t, EndTask(sid));
    assert SourceOk(t, sid);
    hide QueueOk, QueueShape;
    forall q | q in t'.local.queues && t'.local.queues[q].sid == sid ensures QueueOk(t', q) {
      assert QueueOk(t, q);
      EndTaskQueue(t, sid, q);
    }
    assert Absent(t'.local, sid) ==> Absent(t.local, sid);
    hide Inv;
  }

  lemma {:induction false} EndTaskKeeps(t: Session, sid: StreamId)
    requires Inv(t) && Enabled(t, EndTask(sid))
    ensures Inv(Apply(t, EndTask(sid)))
  {
    EndTaskRemovesLocal(t.local, sid);
    KnownSid(t, sid);
    if sid in t.sources {
      EndTaskOwn(t, sid);
    }
    forall x: StreamId | x !in {sid} ensures SameOn(t.local, Apply(t, EndTask(sid)).local, x) {
      EndTaskElsewhere(t.local, sid, x);
    }
    hide Inv, LocalOk, SameOn, StreamOk;
    ClientKeeps(t, Apply(t, EndTask(sid)), {sid});
  }

  lemma {:induction false} EndCloseElsewhere(s: LocalState, q: nat, x: StreamId)
    requires q in s.queues && s.queues[q].sid != x
    ensures SameOn(s, s.EndTaskCloses(q), x)
  {
  }

  lemma {:induction false} EndCloseQueue(t: Session, q: nat, k: nat)
    requires Enabled(t, EndClose(q)) && QueueShape(t.local, q) && !IsLive(t.local, q) && k in t.local.queues
    requires QueueOk(t, k)
    ensures QueueOk(Apply(t, EndClose(q)), k)
  {
    if k == q {
      SendKeepsBody(t.local.queues[q], Close);
      assert t.local.queues[q].sid in t.sources ==>
          Got(t.sources[t.local.queues[q].sid], Apply(t, EndClose(q)).local.queues[q]) ==
              Got(t.sources[t.local.queues[q].sid], t.local.queues[q]);
    }
    hide QueueBody, Payload, Bytes', Got;
  }

  lemma {:induction false} EndCloseOwn(t: Session, q: nat)
    requires Inv(t) && Enabled(t, EndClose(q)) && t.local.queues[q].sid in t.sources
    ensures StreamOk(Apply(t, EndClose(q)), t.local.queues[q].sid)
  {
    hide Payload, NoInit, NoEnd, OneInit, EndLast, Ahead, Bytes', QueueBody;
    var sid := t.local.queues[q].sid;
    var t' := Apply(t, EndClose(q));
    assert SourceOk(t, sid) && QueueShape(t.local, q) && !IsLive(t.local, q);
    hide QueueOk, QueueShape;
    forall k | k in t'.local.queues && t'.local.queues[k].sid == sid ensures QueueOk(t', k) {
      assert QueueOk(t, k);
      EndCloseQueue(t, q, k);
    }
    hide Inv;
    assert t'.local.queues[q].sid == sid;
    assert !Absent(t'.local, sid) && !Absent(t.local, sid);
  }

  lemma {:induction false} EndCloseKeeps(t: Session, q: nat)
    requires Inv(t) && Enabled(t, EndClose(q))
    ensures Inv(Apply(t, EndClose(q)))
  {
    var sid := t.local.queues[q].sid;
    EndTaskClosesLocal(t.local, q);
    assert !Absent(t.local, sid);
    KnownSid(t, sid);
    if sid in t.sources {
      EndCloseOwn(t, q);
    }
    forall x: StreamId | x !in {sid} ensures SameOn(t.local, Apply(t, EndClose(q)).local, x) {
      EndCloseElsewhere(t.local, q, x);
    }
    hide Inv, LocalOk, SameOn, StreamOk;
    ClientKeeps(t, Apply(t, EndClose(q)), {sid});
  }

  lemma {:induction false} WriterElsewhere(s: LocalState, q: nat, queue: Queue, x: StreamId)
    requires q in s.queues && queue.sid == s.queues[q].sid && queue.sent == s.queues[q].sent
    ensures SameOn(s, s.(queues := s.queues[q := queue]), x)
  {
  }

  lemma {:induction false} WriteKeeps(t: Session, q: nat, ok: bool, partial: nat)
    requires Inv(t) && Enabled(t, Write(q, ok, partial))
    ensures Inv(Apply(t, Write(q, ok, partial)))
  {
    var t' := Apply(t, Write(q, ok, partial));
    WriterTakesLocal(t.local, q, ok, partial);
    hide Inv, LocalOk, SameOn, StreamOk;
    forall x: StreamId | x !in {} ensures SameOn(t.local, t'.local, x) {
      WriterElsewhere(t.local, q, t.local.queues[q].Take(ok, partial), x);
    }
    ClientKeeps(t, t', {});
  }

  lemma {:induction false} WriterEndKeeps(t: Session, q: nat)
    requires Inv(t) && Enabled(t, WriterEnd(q))
    ensures Inv(Apply(t, WriterEnd(q)))
  {
    var t' := Apply(t, WriterEnd(q));
    WriterEndsLocal(t.local, q);
    hide Inv, LocalOk, SameOn, StreamOk;
    forall x: StreamId | x !in {} ensures SameOn(t.local, t'.local, x) {
      WriterElsewhere(t.local, q, t.local.queues[q].(writer := Shut), x);
    }
    ClientKeeps(t, t', {});
  }

  lemma {:induction false} LocalEofOwn(t: Session, sid: StreamId)
    requires Inv(t) && sid in t.sources
    ensures StreamOk(Apply(t, LocalEof(sid)), sid)
  {
    hide Payload, NoInit, NoEnd, OneInit, EndLast, Ahead, Bytes', QueueBody;
    var t' := Apply(t, LocalEof(sid));
    assert SourceOk(t, sid);
    forall q | q in t'.local.queues && t'.local.queues[q].sid == sid ensures QueueOk(t', q) {
      assert QueueOk(t, q);
    }
    hide QueueOk, LocalOk;
  }

  lemma {:induction false} LocalEofElsewhere(s: LocalState, sid: StreamId, x: StreamId)
    requires x != sid || sid !in s.streams
    ensures SameOn(s, s.RemoveStream(sid), x)
  {
  }

  lemma {:induction false} LocalEofKeeps(t: Session, sid: StreamId)
    requires Inv(t)
    ensures Inv(Apply(t, LocalEof(sid)))
  {
    var touched := if sid in t.local.streams then {sid} else {};
    RemoveLocal(t.local, sid);
    if sid in t.local.streams {
      KnownSid(t, sid);
      if sid in t.sources {
        LocalEofOwn(t, sid);
      }
    }
    forall x: StreamId | x !in touched ensures SameOn(t.local, Apply(t, LocalEof(sid)).local, x) {
      LocalEofElsewhere(t.local, sid, x);
    }
    hide Inv, LocalOk, SameOn, StreamOk;
    ClientKeeps(t, Apply(t, LocalEof(sid)), touched);
  }
}
