// ownserver_server/src/remote/: the server's end of one remote connection.
module RemoteStreams {
  import opened Wrappers
  import opened Protocol
  import opened ServerModel

  class RemoteTcp {
    const streamId: StreamId
    const clientId: ClientId
    const endpointId: EndpointId
    const peer: Addr
    var socketTx: Option<seq<byte>>  // the bytes written through the open write half
    var sent: seq<byte>              // the same bytes, kept after the write half is closed
    var ctCancelled: bool            // stops the read loop

    ghost predicate Valid()
      reads this
    {
      (socketTx.Some? ==> socketTx.value == sent) && (ctCancelled <==> socketTx.None?)
    }

    ghost function View(): StreamView
      reads this
    {
      TcpView(streamId, clientId, endpointId, peer, socketTx.Some?, sent)
    }

    constructor (streamId: StreamId, clientId: ClientId, endpointId: EndpointId, peer: Addr)
      ensures Valid() && View() == TcpView(streamId, clientId, endpointId, peer, true, [])
    {
      this.streamId, this.clientId, this.endpointId, this.peer := streamId, clientId, endpointId, peer;
      socketTx, sent, ctCancelled := Some([]), [], false;
    }

    method SendToRemote(id: StreamId, data: seq<byte>, socket: SocketOutcome) returns (r: Result<(), SendToRemoteError>)
      requires Valid()
      modifies this
      ensures Valid() && (View(), r) == old(View()).SendToRemote(id, data, socket)
      ensures r == if old(socketTx).None? then Failure(StreamNotAvailable(id))
                   else if socket.Broken? then Failure(RemoteWriteError)
                   else Success(())
      ensures sent == match r
                      case Success(_) => old(sent) + data
                      case Failure(StreamNotAvailable(_)) => old(sent)
                      case Failure(RemoteWriteError) => old(sent) + Prefix(data, socket.partial)
      ensures socketTx.Some? <==> r.Success?
    {
      match socketTx
      case None => r := Failure(StreamNotAvailable(id));
      case Some(bytes) =>
        var passed := if socket.Written? then data else Prefix(data, socket.partial);
        sent := sent + passed;
        socketTx := Some(bytes + passed);
        if socket.Broken? {
          Disable();
          return Failure(RemoteWriteError);
        }
        r := Success(());
    }

    predicate Disabled()
      reads this
      ensures Disabled() == !View().enabled
    {
      socketTx.None?
    }

    method Disable()
      modifies this
      ensures Valid() && View() == old(View()).Disable()
    {
      ctCancelled := true;
      socketTx := None;
    }
  }

  class RemoteUdp {
    const streamId: StreamId
    const clientId: ClientId
    const endpointId: EndpointId
    const peer: Addr
    var socket: bool                 // whether the shared listener socket is still referenced
    var sent: seq<seq<byte>>
    var ctCancelled: bool

    ghost predicate Valid()
      reads this
    {
      ctCancelled <==> !socket
    }

    ghost function View(): StreamView
      reads this
    {
      UdpView(streamId, clientId, endpointId, peer, socket, sent)
    }

    constructor (streamId: StreamId, clientId: ClientId, endpointId: EndpointId, peer: Addr)
      ensures Valid() && View() == UdpView(streamId, clientId, endpointId, peer, true, [])
    {
      this.streamId, this.clientId, this.endpointId, this.peer := streamId, clientId, endpointId, peer;
      socket, sent, ctCancelled := true, [], false;
    }

    method SendToRemote(id: StreamId, data: seq<byte>, outcome: SocketOutcome)
      returns (r: Result<(), SendToRemoteError>)
      requires Valid()
      modifies this
      ensures Valid() && (View(), r) == old(View()).SendToRemote(id, data, outcome)
      ensures r == if !old(socket) then Failure(StreamNotAvailable(id))
                   else if outcome.Broken? then Failure(RemoteWriteError)
                   else Success(())
      ensures sent == (if r.Success? then old(sent) + [data] else old(sent)) && socket == r.Success?
    {
      if !socket {
        return Failure(StreamNotAvailable(id));
      }
      if outcome.Broken? {
        Disable();
        return Failure(RemoteWriteError);
      }
      sent := sent + [data];
      return Success(());
    }

    predicate Disabled()
      reads this
      ensures Disabled() == !View().enabled
    {
      !socket
    }

    method Disable()
      modifies this
      ensures Valid() && View() == old(View()).Disable()
    {
      ctCancelled := true;
      socket := false;
    }
  }

  // remote/stream.rs: the two kinds behind one face.
  datatype RemoteStream = OfTcp(tcp: RemoteTcp) | OfUdp(udp: RemoteUdp) {
    ghost function Obj(): object {
      if OfTcp? then tcp else udp
    }

    ghost predicate Valid()
      reads Obj()
    {
      if OfTcp? then tcp.Valid() else udp.Valid()
    }

    ghost function View(): StreamView
      reads Obj()
    {
      if OfTcp? then tcp.View() else udp.View()
    }

    method SendToRemote(id: StreamId, data: seq<byte>, socket: SocketOutcome) returns (r: Result<(), SendToRemoteError>)
      requires Valid()
      modifies Obj()
      ensures Valid() && (View(), r) == old(View()).SendToRemote(id, data, socket)
    {
      match this
      case OfTcp(tcp) => r := tcp.SendToRemote(id, data, socket);
      case OfUdp(udp) => r := udp.SendToRemote(id, data, socket);
    }

    method Disable()
      modifies Obj()
      ensures Valid() && View() == old(View()).Disable()
    {
      match this
      case OfTcp(tcp) => tcp.Disable();
      case OfUdp(udp) => udp.Disable();
    }

    predicate Disabled()
      reads Obj()
      ensures Disabled() == !View().enabled
    {
      match this
      case OfTcp(tcp) => tcp.Disabled()
      case OfUdp(udp) => udp.Disabled()
    }

    function StreamId(): StreamId {
      match this
      case OfTcp(tcp) => tcp.streamId
      case OfUdp(udp) => udp.streamId
    }

    function ClientId(): ClientId {
      match this
      case OfTcp(tcp) => tcp.clientId
      case OfUdp(udp) => udp.clientId
    }
  }
}
