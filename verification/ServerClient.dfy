// ownserver_server/src/client.rs: one connected (or recently connected) client.
module ServerClient {
  import opened Wrappers
  import opened Protocol
  import opened ServerModel

  class Client {
    const clientId: ClientId
    const endpoints: seq<Endpoint>
    const ctChild: nat
    const reconnectWindow: int
    var wsTx: seq<Packet>
    var state: ClientState
    var ctSelfCancelled: bool

    ghost function View(): ClientView
      reads this
    {
      ClientView(clientId, endpoints, ctChild, reconnectWindow, state, wsTx)
    }

    constructor (clientId: ClientId, endpoints: seq<Endpoint>, token: nat, reconnectWindow: int)
      ensures View() == ClientView(clientId, endpoints, token, reconnectWindow, Connected, [])
      ensures !ctSelfCancelled
    {
      this.clientId, this.endpoints, this.ctChild, this.reconnectWindow := clientId, endpoints, token, reconnectWindow;
      wsTx, state, ctSelfCancelled := [], Connected, false;
    }

    method SetWaitReconnect(now: int)
      modifies this
      ensures View() == old(View()).SetWaitReconnect(now) && ctSelfCancelled == old(ctSelfCancelled)
    {
      if state.Connected? {
        state := WaitReconnect(now + reconnectWindow);
      }
    }

    method SendToClient(packet: Packet, sink: SinkOutcome, now: int) returns (r: Result<(), SendToClientError>)
      modifies this
      ensures (View(), r) == old(View()).SendToClient(packet, sink, now) && ctSelfCancelled == old(ctSelfCancelled)
      ensures r == if old(state).WaitReconnect? then Failure(ClientNotConnected(clientId))
                   else if sink.EncodeFails? then Failure(EncodeError)
                   else if sink.WriteFails? then Failure(ClientWriteError)
                   else Success(())
      ensures wsTx == if r.Success? then old(wsTx) + [packet] else old(wsTx)
      ensures state == if r == Failure(ClientWriteError) then WaitReconnect(now + reconnectWindow) else old(state)
    {
      if !state.Connected? {
        return Failure(ClientNotConnected(clientId));
      }
      if sink.EncodeFails? {
        return Failure(EncodeError);
      }
      if sink.WriteFails? {
        SetWaitReconnect(now);
        return Failure(ClientWriteError);
      }
      wsTx := wsTx + [packet];
      return Success(());
    }

    predicate CanCleanup(now: int)
      reads this
      ensures CanCleanup(now) == View().CanCleanup(now)
    {
      match state
      case WaitReconnect(expires) => now >= expires
      case Connected => false
    }

    // The Drop implementation: the own token always fires, the listeners' token only after expiry.
    method Drop(now: int) returns (cancelChild: bool)
      modifies this
      ensures ctSelfCancelled && View() == old(View())
      ensures cancelChild <==> old(View()).CanCleanup(now)
    {
      ctSelfCancelled := true;
      match state
      case Connected => cancelChild := false;
      case WaitReconnect(expires) =>
        if now < expires {
          cancelChild := false;
        } else {
          cancelChild := true;
        }
    }
  }
}
