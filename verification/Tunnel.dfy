// Any number of TCP streams multiplexed over one WebSocket session, from the server's read loops through the
// WebSocket, the client's dispatcher and the per-stream queues to the local sockets, interleaved in any order.
module Tunnel {
  import opened Wrappers
  import opened Sequences
  import opened Protocol
  import opened LocalModel

  const MAX_CHUNK: nat := 4096

  // One RemoteTcp: what its read loop took from the remote socket, what of it went into the WebSocket, and what of
  // that reached the client before any queue for it was made.
  datatype Source = Source(
    read: seq<byte>,
    sent: seq<byte>,
    missed: seq<byte>,
    initTried: bool, initSent: bool,
    raced: bool,                       // Data went into the WebSocket ahead of Init
    reading: bool,                     // the read loop runs
    ended: bool)                       // End was sent

  datatype Session = Session(
    sources: map<StreamId, Source>,
    others: set<StreamId>,             // ids of UDP streams and of streams from earlier sessions
    ws: seq<Packet>,                   // sent by the server, not yet processed by the client
    local: LocalState,
    alive: bool)                       // the client's read loop has not returned

  datatype Step =
    | Accept(sid: StreamId)
    | SendInit(sid: StreamId, eid: EndpointId, peer: Addr, ok: bool)
    | Read(sid: StreamId, chunk: seq<byte>, ok: bool)
    | Eof(sid: StreamId, ok: bool)
    | StopReading(sid: StreamId)
    | OtherPacket(packet: Packet)
    | Deliver(env: Surroundings)
    | EndTask(sid: StreamId)
    | EndClose(q: nat)
    | Write(q: nat, ok: bool, partial: nat)
    | WriterEnd(q: nat)
    | LocalEof(sid: StreamId)

  // The stream's entry leads to this queue.
  predicate IsLive(s: LocalState, q: nat) {
    q in s.queues && s.queues[q].sid in s.streams && s.streams[s.queues[q].sid] == q
  }

  ghost predicate Enabled(t: Session, step: Step) {
    match step
    case Accept(sid) => sid !in t.sources && sid !in t.others
    case SendInit(sid, _, _, _) => sid in t.sources && !t.sources[sid].initTried
    case Read(sid, chunk, _) => sid in t.sources && t.sources[sid].reading && 0 < |chunk| <= MAX_CHUNK
    case Eof(sid, _) => sid in t.sources && t.sources[sid].reading
    case StopReading(sid) => sid in t.sources
    case OtherPacket(packet) => packet.Ping? || packet.Pong? || packet.sid in t.others
    case Deliver(_) => t.alive && t.ws != []
    case EndTask(sid) => sid in t.local.ending
    case EndClose(q) => q in t.local.holding && q in t.local.queues
    case Write(q, _, _) => q in t.local.queues && t.local.queues[q].writer.Running?
        && t.local.queues[q].taken < |t.local.queues[q].sent|
    case WriterEnd(q) =>
      && q in t.local.queues && t.local.queues[q].writer.Running? && t.local.queues[q].taken == |t.local.queues[q].sent|
      && q !in t.local.holding && !IsLive(t.local, q)
    case LocalEof(_) => true
  }

  ghost function Apply(t: Session, step: Step): Session
    requires Enabled(t, step)
  {
    match step
    case Accept(sid) => t.(sources := t.sources[sid := Source([], [], [], false, false, false, true, false)])
    case SendInit(sid, eid, peer, ok) =>
      var src := t.sources[sid].(initTried := true);
      if ok then t.(sources := t.sources[sid := src.(initSent := true)], ws := t.ws + [Init(sid, eid, peer)])
      else t.(sources := t.sources[sid := src])
    case Read(sid, chunk, ok) =>
      var src := t.sources[sid].(read := t.sources[sid].read + chunk);
      if ok then
        t.(sources := t.sources[sid := src.(sent := src.sent + chunk, raced := src.raced || !src.initSent)],
           ws := t.ws + [Data(sid, chunk)])
      else t.(sources := t.sources[sid := src.(reading := false)])
    case Eof(sid, ok) =>
      var src := t.sources[sid].(reading := false);
      if ok then
        t.(sources := t.sources[sid := src.(ended := true)], ws := t.ws + [End(sid)])
      else t.(sources := t.sources[sid := src])
    case StopReading(sid) => t.(sources := t.sources[sid := t.sources[sid].(reading := false)])
    case OtherPacket(packet) => t.(ws := t.ws + [packet])
    case Deliver(env) =>
      var (local, _, ok) := t.local.Process(t.ws[0], env);
      t.(sources := SourcesAfter(t), ws := t.ws[1..], local := local, alive := ok)
    case EndTask(sid) => t.(local := t.local.EndTaskRemoves(sid))
    case EndClose(q) => t.(local := t.local.EndTaskCloses(q))
    case Write(q, ok, partial) => t.(local := t.local.WriterTakes(q, ok, partial))
    case WriterEnd(q) => t.(local := t.local.WriterEnds(q))
    case LocalEof(sid) => t.(local := t.local.RemoveStream(sid))
  }

  // Data that finds no queue of its stream, now or earlier, is answered with Refused and lost.
  ghost function SourcesAfter(t: Session): map<StreamId, Source>
    requires t.ws != []
  {
    var p := t.ws[0];
    if p.Data? && p.sid in t.sources && Absent(t.local, p.sid) then
      t.sources[p.sid := t.sources[p.sid].(missed := t.sources[p.sid].missed + p.data)]
    else t.sources
  }

  // The client never made a queue for the stream.
  ghost predicate Absent(s: LocalState, sid: StreamId) {
    sid !in s.streams && forall q | q in s.queues :: s.queues[q].sid != sid
  }

  // A new session. The client may come from earlier ones with streams, queues and their writers still at work; those
  // streams count among the others.
  ghost predicate Initial(t: Session) {
    && t.sources == map[] && t.ws == [] && t.alive && LocalOk(t.local)
    && forall sid: StreamId :: sid !in t.others ==> Absent(t.local, sid) && sid !in t.local.ending
  }

  ghost predicate IsRun(tr: seq<Session>, steps: seq<Step>) {
    && |tr| == |steps| + 1 && Initial(tr[0])
    && forall i :: 0 <= i < |steps| ==> Enabled(tr[i], steps[i]) && tr[i + 1] == Apply(tr[i], steps[i])
  }

  // ---------- reading queues and the WebSocket ----------

  ghost function Bytes'(ms: seq<StreamMessage>): seq<byte> {
    if ms == [] then [] else Bytes'(Front(ms)) + if Last(ms).Bytes? then Last(ms).data else []
  }

  ghost predicate NoClose(ms: seq<StreamMessage>) {
    ms == [] || (Last(ms).Bytes? && NoClose(Front(ms)))
  }

  ghost predicate Closed(ms: seq<StreamMessage>) {
    ms != [] && Last(ms).Close?
  }

  // Data* followed by at most one Close.
  ghost predicate Shaped(ms: seq<StreamMessage>) {
    ms == [] || NoClose(Front(ms))
  }

  ghost function PayloadOf(p: Packet, sid: StreamId): seq<byte> {
    if p.Data? && p.sid == sid then p.data else []
  }

  // The stream's bytes under way in the WebSocket.
  ghost function Payload(ws: seq<Packet>, sid: StreamId): seq<byte>
    decreases |ws|
  {
    if ws == [] then [] else PayloadOf(ws[0], sid) + Payload(ws[1..], sid)
  }

  ghost predicate Quiet(ws: seq<Packet>, sid: StreamId)
    decreases |ws|
  {
    ws == [] || (!ws[0].Mentions(sid) && Quiet(ws[1..], sid))
  }

  ghost predicate NoInit(ws: seq<Packet>, sid: StreamId)
    decreases |ws|
  {
    ws == [] || (!(ws[0].Init? && ws[0].sid == sid) && NoInit(ws[1..], sid))
  }

  ghost predicate NoEnd(ws: seq<Packet>, sid: StreamId)
    decreases |ws|
  {
    ws == [] || (!(ws[0].End? && ws[0].sid == sid) && NoEnd(ws[1..], sid))
  }

  ghost predicate OneInit(ws: seq<Packet>, sid: StreamId)
    decreases |ws|
  {
    ws == [] || if ws[0].Init? && ws[0].sid == sid then NoInit(ws[1..], sid) else OneInit(ws[1..], sid)
  }

  // The stream's bytes under way ahead of its Init.
  ghost function Ahead(ws: seq<Packet>, sid: StreamId): seq<byte>
    decreases |ws|
  {
    if ws == [] || (ws[0].Init? && ws[0].sid == sid) then [] else PayloadOf(ws[0], sid) + Ahead(ws[1..], sid)
  }

  // None of the stream's bytes follow its End.
  ghost predicate EndLast(ws: seq<Packet>, sid: StreamId)
    decreases |ws|
  {
    ws == [] || if ws[0].End? && ws[0].sid == sid then Payload(ws[1..], sid) == [] else EndLast(ws[1..], sid)
  }

  lemma {:induction false} ChannelFacts(ws: seq<Packet>, sid: StreamId)
    ensures Payload(ws, sid) == [] ==> EndLast(ws, sid)
    ensures NoInit(ws, sid) ==> OneInit(ws, sid) && Ahead(ws, sid) == Payload(ws, sid)
    ensures Quiet(ws, sid) ==> NoInit(ws, sid) && NoEnd(ws, sid) && Payload(ws, sid) == []
    decreases |ws|
  {
    if ws != [] {
      ChannelFacts(ws[1..], sid);
    }
  }

  lemma {:induction false} Push(ws: seq<Packet>, p: Packet, sid: StreamId)
    ensures Payload(ws + [p], sid) == Payload(ws, sid) + PayloadOf(p, sid)
    ensures Quiet(ws + [p], sid) <==> Quiet(ws, sid) && !p.Mentions(sid)
    ensures NoInit(ws + [p], sid) <==> NoInit(ws, sid) && !(p.Init? && p.sid == sid)
    ensures NoEnd(ws + [p], sid) <==> NoEnd(ws, sid) && !(p.End? && p.sid == sid)
    decreases |ws|
  {
    if ws == [] {
      assert (ws + [p])[1..] == [];
    } else {
      assert (ws + [p])[1..] == ws[1..] + [p];
      Push(ws[1..], p, sid);
    }
  }

  lemma {:induction false} PushOrder(ws: seq<Packet>, p: Packet, sid: StreamId)
    ensures OneInit(ws, sid) && (p.Init? && p.sid == sid ==> NoInit(ws, sid)) ==> OneInit(ws + [p], sid)
    ensures Ahead(ws + [p], sid) == if NoInit(ws, sid) then Ahead(ws, sid) + PayloadOf(p, sid) else Ahead(ws, sid)
    ensures NoEnd(ws, sid) || (EndLast(ws, sid) && PayloadOf(p, sid) == []) ==> EndLast(ws + [p], sid)
  {
    PushInit(ws, p, sid);
    PushAhead(ws, p, sid);
    PushEnd(ws, p, sid);
    hide *;
  }

  lemma {:induction false} PushInit(ws: seq<Packet>, p: Packet, sid: StreamId)
    ensures OneInit(ws, sid) && (p.Init? && p.sid == sid ==> NoInit(ws, sid)) ==> OneInit(ws + [p], sid)
    decreases |ws|
  {
    if ws == [] {
      assert (ws + [p])[1..] == [];
    } else {
      assert (ws + [p])[1..] == ws[1..] + [p];
      PushInit(ws[1..], p, sid);
      Push(ws[1..], p, sid);
    }
  }

  lemma {:induction false} PushAhead(ws: seq<Packet>, p: Packet, sid: StreamId)
    ensures Ahead(ws + [p], sid) == if NoInit(ws, sid) then Ahead(ws, sid) + PayloadOf(p, sid) else Ahead(ws, sid)
    decreases |ws|
  {
    if ws == [] {
      assert (ws + [p])[1..] == [];
    } else {
      assert (ws + [p])[1..] == ws[1..] + [p];
      PushAhead(ws[1..], p, sid);
    }
  }

  lemma {:induction false} PushEnd(ws: seq<Packet>, p: Packet, sid: StreamId)
    ensures NoEnd(ws, sid) || (EndLast(ws, sid) && PayloadOf(p, sid) == []) ==> EndLast(ws + [p], sid)
    decreases |ws|
  {
    if ws == [] {
      assert (ws + [p])[1..] == [];
    } else {
      assert (ws + [p])[1..] == ws[1..] + [p];
      PushEnd(ws[1..], p, sid);
      Push(ws[1..], p, sid);
    }
  }

  // ---------- the invariant ----------

  // Every queue, whatever happened before Init: its shape, and how far its writer got.
  ghost predicate QueueBody(queue: Queue) {
    && queue.taken <= |queue.sent| && Shaped(queue.sent)
    && queue.written <= Bytes'(queue.sent)
    && (!queue.writer.Broken? ==> queue.written == Bytes'(queue.sent[..queue.taken]))
    && (queue.writer.Broken? ==>
          && queue.taken > 0
          && Bytes'(queue.sent[..queue.taken - 1]) <= queue.written <= Bytes'(queue.sent[..queue.taken]))
    && (queue.writer.Shut? ==> queue.taken == |queue.sent|)
  }

  // More may come, and the writer has not shut the socket down.
  ghost predicate Open(queue: Queue) {
    NoClose(queue.sent) && !queue.writer.Shut?
  }

  ghost predicate QueueShape(s: LocalState, q: nat)
    requires q in s.queues
  {
    QueueBody(s.queues[q]) && (IsLive(s, q) || q in s.holding ==> Open(s.queues[q]))
  }

  ghost predicate LocalOk(s: LocalState) {
    && (forall x | x in s.streams :: s.streams[x] in s.queues && s.queues[s.streams[x]].sid == x)
    && (forall q | q in s.queues :: q < s.nextQueue && QueueShape(s, q))
    && (forall q | q in s.holding :: q in s.queues && !IsLive(s, q))
  }

  ghost predicate SourceOk(t: Session, sid: StreamId)
    requires sid in t.sources
  {
    var src := t.sources[sid];
    && sid !in t.others
    && src.sent <= src.read && (src.reading || src.ended ==> src.sent == src.read)
    && (src.initSent ==> src.initTried) && !(src.reading && src.ended)
    && OrderOk(t, sid) && RaceOk(t, sid)
  }

  // Where the stream's packets are.
  ghost predicate OrderOk(t: Session, sid: StreamId)
    requires sid in t.sources
  {
    var src := t.sources[sid];
    && EndLast(t.ws, sid) && OneInit(t.ws, sid)
    && (!src.ended ==> NoEnd(t.ws, sid))
    && (sid in t.local.ending ==> src.ended && Payload(t.ws, sid) == [])
    && (!src.initSent ==> NoInit(t.ws, sid))
    && (!src.initSent || !NoInit(t.ws, sid) ==> Absent(t.local, sid))
    && (Absent(t.local, sid) ==> src.missed + Payload(t.ws, sid) == src.sent)
  }

  // A stream raced exactly if some of its bytes are, were or will be missed.
  ghost predicate RaceOk(t: Session, sid: StreamId)
    requires sid in t.sources
  {
    var src := t.sources[sid];
    if !src.initSent then src.raced <==> src.sent != []
    else if !NoInit(t.ws, sid) then src.raced <==> src.missed + Ahead(t.ws, sid) != []
    else !Absent(t.local, sid) ==> (src.raced <==> src.missed != [])
  }

  // How far the stream has come: what was missed and what was queued.
  ghost function Got(src: Source, queue: Queue): seq<byte> {
    src.missed + Bytes'(queue.sent)
  }

  // A queue of the stream: nothing foreign, nothing lost but what was missed, and complete once End has taken it out
  // of the table.
  ghost predicate QueueOk(t: Session, q: nat)
    requires q in t.local.queues
  {
    var queue := t.local.queues[q];
    queue.sid in t.sources ==>
      var src := t.sources[queue.sid];
      && Got(src, queue) <= src.sent
      && (IsLive(t.local, q) && (t.alive || queue.sid in t.local.ending) ==>
          Got(src, queue) + Payload(t.ws, queue.sid) == src.sent)
      && (q in t.local.holding || Closed(queue.sent) ==> src.ended && Got(src, queue) == src.sent)
  }

  ghost predicate SourcesOk(t: Session) {
    forall sid | sid in t.sources :: SourceOk(t, sid)
  }

  ghost predicate QueuesOk(t: Session) {
    forall q | q in t.local.queues :: QueueOk(t, q)
  }

  // A stream id nobody uses yet appears nowhere.
  ghost predicate FreshOk(t: Session) {
    forall sid: StreamId :: sid !in t.sources && sid !in t.others ==>
      Quiet(t.ws, sid) && Absent(t.local, sid) && sid !in t.local.ending
  }

  ghost predicate Inv(t: Session) {
    LocalOk(t.local) && SourcesOk(t) && QueuesOk(t) && FreshOk(t)
  }
}
