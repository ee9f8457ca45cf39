// Control packets in flight between one client and the server, with no new input from any socket: every delivery
// uses them up.
module Draining {
  import opened Wrappers
  import opened Sequences
  import opened Protocol
  import opened ServerModel
  import opened ServerSends
  import opened LocalModel
  import opened ControlServer

  // What the server sent and the client has not read yet is the tail of the client's wsTx.
  datatype Link = Link(
    cid: ClientId,
    server: StoreState, delivered: nat,
    local: LocalState, clientReads: bool,
    toServer: seq<Packet>)
  {
    function ToClient(): seq<Packet> {
      if cid in server.clients && delivered <= |server.clients[cid].wsTx|
          then server.clients[cid].wsTx[delivered..] else []
    }
  }

  datatype Step =
    | AtClient(env: Surroundings)
    | AtServer(sink: SinkOutcome, socket: SocketOutcome, now: int)
    | ClientTask(local: LocalState)
    | ServerTask(server: StoreState)
  {
    predicate Delivers() {
      AtClient? || AtServer?
    }
  }

  // Other tasks may change the tables in any way, but send nothing.
  ghost predicate Enabled(s: Link, step: Step) {
    match step
    case AtClient(_) => s.clientReads && s.ToClient() != []
    case AtServer(_, _, _) => s.toServer != []
    case ClientTask(_) => true
    case ServerTask(server) => s.(server := server).ToClient() == s.ToClient()
  }

  ghost function Apply(s: Link, step: Step): Link
    requires Enabled(s, step)
  {
    match step
    case AtClient(env) =>
      var (local, out, ok) := s.local.Process(s.ToClient()[0], env);
      s.(delivered := s.delivered + 1, local := local, clientReads := ok, toServer := s.toServer + out)
    case AtServer(sink, socket, now) =>
      s.(server := Dispatch(s.server, s.cid, s.toServer[0], sink, socket, now), toServer := s.toServer[1..])
    case ClientTask(local) => s.(local := local)
    case ServerTask(server) => s.(server := server)
  }

  // ---------- the rank ----------

  // One for the packet, one more if it can be answered.
  function Weight(p: Packet, atClient: bool): nat {
    if p.Ping? || (atClient && (p.Init? || p.Data?)) then 2 else 1
  }

  function Rank(ps: seq<Packet>, atClient: bool): nat {
    if ps == [] then 0 else Rank(Front(ps), atClient) + Weight(Last(ps), atClient)
  }

  function LinkRank(s: Link): nat {
    Rank(s.ToClient(), true) + Rank(s.toServer, false)
  }

  lemma {:induction false} RankOfTail(ps: seq<Packet>, atClient: bool)
    requires ps != []
    ensures Rank(ps, atClient) == Weight(ps[0], atClient) + Rank(ps[1..], atClient)
  {
    if |ps| == 1 {
      assert Front(ps) == [] && ps[1..] == [];
    } else {
      RankOfTail(Front(ps), atClient);
      assert Front(ps)[1..] == Front(ps[1..]);
    }
  }

  // What the client has to say to a packet: a Pong to a Ping, a Refused to a TCP stream whose local connection failed
  // and to Data for a stream it does not have.
  function Answer(s: LocalState, p: Packet, env: Surroundings): Option<Packet> {
    match p
    case Ping(seqNo, at, _) => Some(Pong(seqNo, at))
    case Init(sid, eid, _) =>
      if eid !in s.endpoints || sid in s.streams || env.connectOk then None
      else if s.endpoints[eid].protocol.TCP? then Some(Refused(sid))
      else None
    case Data(sid, _) => if sid in s.streams && s.streams[sid] in s.queues then None else Some(Refused(sid))
    case _ => None
  }

  // It says exactly that, if there is a client to send it and the WebSocket takes it; it costs less than the packet.
  lemma {:induction false} ClientAnswers(s: LocalState, p: Packet, env: Surroundings)
    ensures s.Process(p, env).1 ==
            if Answer(s, p, env).Some? && s.connected && env.sendOk then [Answer(s, p, env).value] else []
    ensures Rank(s.Process(p, env).1, false) < Weight(p, true)
  {
    assert Front([Refused(0)]) == [];
    var out := s.Process(p, env).1;
    if out != [] {
      assert out == [out[0]] && Front(out) == [];
    }
  }

  // The server answers a Ping with its Pong, exactly if the client is connected and its WebSocket takes it, and
  // everything else with nothing.
  lemma {:induction false} ServerAnswers(s: StoreState, cid: ClientId, p: Packet, sink: SinkOutcome,
      socket: SocketOutcome, now: int) returns (out: seq<Packet>)
    ensures Dispatch(s, cid, p, sink, socket, now).clients.Keys == s.clients.Keys
    ensures cid in s.clients ==>
        Dispatch(s, cid, p, sink, socket, now).clients[cid].wsTx == s.clients[cid].wsTx + out
    ensures out == if p.Ping? && CanSend(s, cid) && sink.Accepted? then [Pong(p.seqNo, p.at)] else []
  {
    out := if p.Ping? && CanSend(s, cid) && sink.Accepted? then [Pong(p.seqNo, p.at)] else [];
    if p.Ping? {
      SendExactly(s, cid, Pong(p.seqNo, p.at), sink, now);
    }
  }

  // Every delivery lowers the rank; the other tasks leave it.
  lemma {:induction false} DeliveryLowersRank(s: Link, step: Step)
    requires Enabled(s, step)
    ensures if step.Delivers() then LinkRank(Apply(s, step)) < LinkRank(s) else LinkRank(Apply(s, step)) == LinkRank(s)
  {
    var s' := Apply(s, step);
    match step
    case AtClient(env) =>
      var p := s.ToClient()[0];
      var out := s.local.Process(p, env).1;
      ClientAnswers(s.local, p, env);
      RankOfTail(s.ToClient(), true);
      assert s'.ToClient() == s.ToClient()[1..];
      if out == [] {
        assert s.toServer + out == s.toServer;
      } else {
        Snoc(s.toServer, out[0]);
        assert Front(out) == [] && Rank(out, false) == Weight(out[0], false);
      }
    case AtServer(sink, socket, now) =>
      var p := s.toServer[0];
      RankOfTail(s.toServer, false);
      var out := ServerAnswers(s.server, s.cid, p, sink, socket, now);
      if s'.ToClient() != s.ToClient() {
        assert s'.ToClient() == s.ToClient() + out;
        Snoc(s.ToClient(), Pong(p.seqNo, p.at));
      }
    case ClientTask(_) =>
    case ServerTask(_) =>
  }

  // ---------- whole runs ----------

  ghost predicate IsRun(tr: seq<Link>, steps: seq<Step>) {
    && |tr| == |steps| + 1
    && forall i :: 0 <= i < |steps| ==> Enabled(tr[i], steps[i]) && tr[i + 1] == Apply(tr[i], steps[i])
  }

  function Deliveries(steps: seq<Step>): nat {
    if steps == [] then 0 else Deliveries(Front(steps)) + if Last(steps).Delivers() then 1 else 0
  }

  // However the two ends and their tasks interleave, what is in flight bounds how often anything is still delivered.
  lemma {:induction false} InFlightPacketsDrain(tr: seq<Link>, steps: seq<Step>)
    requires IsRun(tr, steps)
    ensures Deliveries(steps) + LinkRank(Last(tr)) <= LinkRank(tr[0])
  {
    if steps != [] {
      var n := |steps| - 1;
      var before, step := tr[n], steps[n];
      assert Enabled(before, step) && tr[n + 1] == Apply(before, step);
      assert IsRun(Front(tr), Front(steps)) && Last(Front(tr)) == before;
      hide Apply, Enabled, LinkRank;
      InFlightPacketsDrain(Front(tr), Front(steps));
      DeliveryLowersRank(before, step);
    }
  }
}
