// Identifiers, endpoints and packets shared by client and server (ownserver_lib).
module Protocol {
  import opened Sequences
  import opened Wrappers

  type u16 = x: int | 0 <= x < 0x1_0000
  newtype byte = x: int | 0 <= x < 0x100

  // UUIDs are modelled as numbers; every machine below demands that a new one is unused.
  type StreamId = nat
  type ClientId = nat
  type EndpointId = nat

  // A socket address and a token are only compared, never taken apart.
  type Addr = nat
  type Token = nat

  datatype Protocol = TCP | UDP

  datatype EndpointClaim = EndpointClaim(protocol: Protocol, localPort: u16, remotePort: u16)

  datatype Endpoint = Endpoint(id: EndpointId, protocol: Protocol, localPort: u16, remotePort: u16)

  datatype Packet =
    | Init(sid: StreamId, eid: EndpointId, peer: Addr)
    | Data(sid: StreamId, data: seq<byte>)
    | Refused(sid: StreamId)
    | End(sid: StreamId)
    | Ping(seqNo: nat, at: int, token: Option<Token>)
    | Pong(seqNo: nat, at: int)
  {
    predicate Mentions(s: StreamId) {
      (Init? || Data? || Refused? || End?) && sid == s
    }
  }

  function RemotePorts(eps: seq<Endpoint>): set<u16> {
    if eps == [] then {} else RemotePorts(Front(eps)) + {Last(eps).remotePort}
  }

  lemma {:induction false} RemotePortsMember(eps: seq<Endpoint>, port: u16)
    ensures port in RemotePorts(eps) <==> exists e :: e in eps && e.remotePort == port
  {
    if eps == [] {
    } else {
      RemotePortsMember(Front(eps), port);
      InSnoc(eps);
    }
  }
}
