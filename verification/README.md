# Ownserver: a verified model of the tunnel

Ownserver gives a machine without a public address public TCP and UDP ports. A server leases ports to clients, carries
the remote connections of each client as numbered streams over one WebSocket, keeps a client's ports and streams for a
reconnect window after its WebSocket is gone, and collects what is left when the window has passed.

The model covers the port allocator, the server's tables and their operations, the handshake, the client object and its
read loop, the remote TCP and UDP ends, the client's dispatcher with its per-stream queues and writers, and the client's
reconnect loop. `dafny verify dfyconfig.toml` checks all of it.

## How it is built

Three layers, each proved against the one below:

1. What an operation does to the tables is a function on plain values: `ServerModel.StoreState`, `ClientView` and
   `StreamView` for the server, `LocalModel.LocalState` and `Queue` for the client. `ServerSends` says what a send does
   without repeating these functions.
2. The objects the program updates in place are classes: `PortAllocator`, `ServerClient.Client`, `RemoteTcp`,
   `RemoteUdp`, `ServerStore.Store` on the server, `LocalClient.Store` and `LocalClient.Channel` on the client. Each method,
   with the loops of the program, is proved to turn the old abstract value into what the function says.
3. State machines built from those functions, with lemmas over every run:
   - `Lifecycle`, `ClientLifetimes`, `PortLosses` and `ServerRuns`: handshakes, clients, read loops, clock and cleanup, interleaved in any order.
   - `StreamTables` and `UdpListeners`: the stream table, the address index, and any number of UDP loops.
   - `Tunnel`, `TunnelSteps` and `TunnelRuns`: any number of TCP streams over one WebSocket session.
   - `TunnelQueues`: the client's queues in that session, from End to Close, and their writers.
   - `RemoteWriter` and `ServerReadLoop`: the bytes of one stream on their way back, and the loop that dispatches them.
   - `Draining`: control packets in flight in both directions.
   - `Composition`: the steps of these machines, taken in a row, are the operations of layer 2.
   - `PortHistory`: any sequence of calls on one allocator.
   - `ProxyClient`: the reconnect loop, its sleeps and its hellos.

What sockets, WebSockets, clocks and random choice do are arguments or steps that may go any way: `SinkOutcome` and
`SocketOutcome` for sends, `Surroundings` for the client's local connects and sends, `now` for the clock. HashMap order is
an arbitrary order (`PortAllocation.IterationOrder`), random port choice an arbitrary element of the available set, a new
UUID an id not used before. A cancellation token is a number, and `fired` the set of cancelled ones.

Step size is an assumption where it matters. A cleanup pass is one step at one clock value; in the program it reads the
clock several times and releases endpoints one by one. The read loop of a client marks by client id, not by object, so the
step in which an old loop marks the replacement client is part of `Lifecycle`.

## What the proofs found

Where code and intent differ, the model follows the code.

- A `ServerHello` that cannot be sent leaves the leased ports with nobody, for new and for reconnecting clients alike
  (control_server_v2.rs:307-311, 364-368). They are the owner `Abandoned` in `Lifecycle.Partitioned`. A port is lost if
  and only if an earlier hello that listed it failed (`PortLosses.AbandonedExactly`), and then for ever
  (`PortLosses.AbandonedForever`). `ServerRuns.NewClientLosesItsPort` and `ServerRuns.ReconnectLosesItsPort` are runs
  that end so.
- A TCP read loop runs before the stream's Init is sent (remote/tcp.rs:82-85). Data that overtakes Init is lost:
  `TunnelRuns.RacedStreamLosesItsStart` is such a run. What reaches the local socket is still a contiguous piece of the
  stream, and it starts at the beginning if and only if no Data was sent ahead of Init: `TunnelRuns.WrittenIsContiguous`.
- The address index is shared by TCP and UDP streams, so a TCP connection can hide a UDP stream of the same peer and a
  second UDP stream can be opened for it: `StreamTables.TcpBreaksTheIndex`. Over every run the lookup for an address has
  answered like a scan all along if and only if no TCP connection was accepted from that address while the lookup still
  found a stream: `StreamTables.LookupIsScanExactlyWhen`. With UDP alone that never happens (`UdpLookupIsScan`).
- A reconnect that arrives before expiry drops the one object whose collection would cancel the listeners, and none are
  spawned for the new object, so from then on nothing ever stops them, not even cleanup of the client:
  `ClientLifetimes.ReconnectKeepsListeners`, and `ServerRuns.ListenersOutliveTheirClient` for a run. Collecting an
  expired client leaves its listeners cancelled if and only if its first reconnect, if it had one, came when the old
  object could already be cleaned up: `ClientLifetimes.ListenersStoppedExactly`.
- TCP and UDP endpoints of one local port share a remote port, which cleanup releases twice; the second call answers
  `PortAlreadyReleased` and changes nothing: `ClientLifetimes.EachPortReleasedOnce`.
- The branch of `allocate_ports` marked as never happening never happens: `PortAllocation.PortAllocator.TakePorts`.

## Model

| member | source | states |
|---|---|---|
| PortAllocation.PortAllocator.constructor | ownserver_server/src/port_allocator.rs:40-50 | a new allocator offers exactly its range |
| PortAllocation.PortAllocator.AllocatePort | ownserver_server/src/port_allocator.rs:52-59 | succeeds iff a port is available, and takes out exactly the one it returns |
| PortAllocation.PortAllocator.AggregateClaimsByLocalPort | ownserver_server/src/port_allocator.rs:61-67 | one bucket per claimed local port, holding that port's claims in claim order |
| PortAllocation.PortAllocator.ValidateEndpointClaims | ownserver_server/src/port_allocator.rs:69-87 | accepts iff there are ports enough, every bucket is free of repeated (local port, protocol) pairs, and no claim asks for a remote port |
| PortAllocation.PortAllocator.TakePorts | ownserver_server/src/port_allocator.rs:93-107 | takes that many distinct ports out of the available set, never running out halfway |
| PortAllocation.IterationOrder | ownserver_server/src/port_allocator.rs:109-109 | a HashMap visits each key once, in any order |
| PortAllocation.PairUp | ownserver_server/src/port_allocator.rs:109-118 | for every visiting order the endpoints are in bijection with the claims and share remote ports exactly by local port |
| PortAllocation.PortAllocator.AllocatePorts | ownserver_server/src/port_allocator.rs:89-121 | succeeds iff the claims are Grantable; a success is a grant (IsGrant); a failure changes nothing |
| PortAllocation.PortAllocator.ReleasePort | ownserver_server/src/port_allocator.rs:123-134 | the answer and the new set for each of the three cases; two of them change nothing |
| PortAllocation.GrantableIgnoresOrder | ownserver_server/src/port_allocator.rs:69-87 | whether claims can be served depends only on their multiset, not on their order |
| PortAllocation.GrantableByBuckets | ownserver_server/src/port_allocator.rs:69-87 | the check bucket by bucket is the condition on the whole claim list |
| PortAllocation.GrantPairsDistinct | ownserver_server/src/port_allocator.rs:109-118 | no two granted endpoints have the same remote port and protocol |
| PortAllocation.GrantSize | ownserver_server/src/port_allocator.rs:93-118 | a grant takes exactly one port per distinct local port |
| PortHistory.AvailableExactly | ownserver_server/src/port_allocator.rs:39-134 | over every history of calls the available ports are the ports of the range not outstanding |
| PortHistory.ReleaseSucceedsExactly | ownserver_server/src/port_allocator.rs:123-134 | in every history release succeeds iff the port is in range and outstanding |
| PortHistory.NoDoubleGrant | ownserver_server/src/port_allocator.rs:52-134 | a port handed out by two calls was successfully released in between |
| ServerClient.Client.constructor | ownserver_server/src/client.rs:143-151 | a new client is connected, with a child token of its own |
| ServerClient.Client.SendToClient | ownserver_server/src/client.rs:154-172 | an error of its own for a waiting client, a failed encoding and a failed write; the failed write alone starts the wait, until now plus the window; a success appends to what was sent |
| ServerClient.Client.SetWaitReconnect | ownserver_server/src/client.rs:174-179 | only a connected client starts to wait, until now plus the window |
| ServerClient.Client.CanCleanup | ownserver_server/src/client.rs:181-183 | true iff waiting and the expiry has come |
| ServerClient.Client.Drop | ownserver_server/src/client.rs:195-212 | the own token always fires, the child token iff the client could be cleaned up |
| RemoteStreams.RemoteTcp.SendToRemote | ownserver_server/src/remote/tcp.rs:172-190 | writes only while enabled; the error for each failure; a failed write disables and may have passed on a prefix |
| RemoteStreams.RemoteTcp.Disable | ownserver_server/src/remote/tcp.rs:208-214 | closes the write half, cancels the read loop, keeps what was written |
| RemoteStreams.RemoteTcp.Disabled | ownserver_server/src/remote/tcp.rs:205-207 | the opposite of the view's enabled flag |
| RemoteStreams.RemoteUdp.SendToRemote | ownserver_server/src/remote/udp.rs:132-149 | sends whole datagrams only while enabled; a failure disables |
| RemoteStreams.RemoteUdp.Disable | ownserver_server/src/remote/udp.rs:167-172 | drops the socket, keeps what was sent |
| RemoteStreams.RemoteStream.SendToRemote | ownserver_server/src/remote/stream.rs:15-24 | both kinds behave as one stream value does |
| RemoteStreams.RemoteStream.Disable | ownserver_server/src/remote/stream.rs:38-47 | both kinds become disabled, nothing else changes |
| RemoteStreams.RemoteStream.Disabled | ownserver_server/src/remote/stream.rs:49-58 | both kinds answer by the view's enabled flag |
| ServerStore.Store.constructor | ownserver_server/src/store.rs:27-35 | empty tables and the full port range |
| ServerStore.Store.SendToClient | ownserver_server/src/store.rs:37-46 | ClientNotFound iff nobody is registered under the id; a success iff that client is connected and its WebSocket takes the packet; all else stays |
| ServerStore.Store.SendToRemote | ownserver_server/src/store.rs:57-66 | StreamNotAvailable iff the stream is unknown or disabled, otherwise the outcome of the write; all else stays |
| ServerStore.Store.DisableRemote | ownserver_server/src/store.rs:68-72 | exactly the named stream is disabled |
| ServerStore.Store.DisableRemoteByClient | ownserver_server/src/store.rs:74-80 | the loop disables exactly the client's streams |
| ServerStore.Store.SetWaitReconnect | ownserver_server/src/store.rs:82-86 | exactly the client registered under the id is marked |
| ServerStore.Store.AddClient | ownserver_server/src/store.rs:88-94 | the entry is the new client |
| ServerStore.Store.RemoveClient | ownserver_server/src/store.rs:96-102 | takes out and returns the entry |
| ServerStore.Store.DropClient | ownserver_server/src/client.rs:195-212 | a dropped client's child token is fired iff the client could be cleaned up |
| ServerStore.Store.AddRemote | ownserver_server/src/store.rs:108-115 | table and address index name the new stream |
| ServerStore.Store.FindStreamIdByAddr | ownserver_server/src/store.rs:144-157 | the indexed stream if it is still there and enabled |
| ServerStore.Store.AllocateEndpoints | ownserver_server/src/store.rs:176-182 | Grantable claims become a grant whose endpoints are all in the table; otherwise nothing changes |
| ServerStore.Store.ReleaseEndpoint | ownserver_server/src/store.rs:184-187 | the endpoint's remote port is released; an unknown id is an error |
| ServerStore.Store.Cleanup | ownserver_server/src/store.rs:117-142 | the whole pass at one clock value: clients, ports, streams and tokens afterwards |
| ServerStore.Store.DisableExpired | ownserver_server/src/store.rs:120-128 | first loop: exactly the expired clients' streams are disabled and exactly their endpoints collected |
| ServerStore.Store.RetainClients | ownserver_server/src/store.rs:129-129 | exactly the expired clients go, and their child tokens fire |
| ServerStore.Store.ReleaseEndpoints | ownserver_server/src/store.rs:130-134 | whatever the order and repetitions, exactly the in-range ports of the listed endpoints become available |
| ServerStore.Store.RetainStreams | ownserver_server/src/store.rs:136-136 | exactly the enabled streams stay |
| ServerStore.CleanupPhases | ownserver_server/src/store.rs:117-142 | the four phases in a row are the one cleanup function |
| ServerSends.SendExactly | ownserver_server/src/client.rs:154-179 | a packet reaches a client iff it is registered and connected and its WebSocket takes it; a failed write, and nothing else, ends that; the error of each failure |
| ServerSends.SendTouchesOneClient | ownserver_server/src/client.rs:154-179 | a send changes nothing but the state and the WebSocket of its one client |
| ServerSends.RemoteSendExactly | ownserver_server/src/store.rs:57-66 | payload reaches a remote socket iff the stream is registered and enabled; what TCP and UDP streams hold afterwards, and which failure disables |
| ControlServer.HandleNewConnection | ownserver_server/src/control_server_v2.rs:267-377 | each error reply iff its cause: unparsable or unverifiable, wrong version, a token for another host; an accepted hello is provisioned as its branch says; otherwise the store does not change |
| ControlServer.AdmitsExactly | ownserver_server/src/control_server_v2.rs:163-235 | a hello is admitted as a new client iff its version is right and its auth token was issued for this host, as a reconnect iff its reconnect token verifies; the error of every other |
| ControlServer.HandleNewClient | ownserver_server/src/control_server_v2.rs:299-343 | ports are leased iff they can be; the client is registered iff the hello also went out |
| ControlServer.ProcessClientClaims | ownserver_server/src/control_server_v2.rs:237-263 | a Success hello lists a grant, any other outcome leaves the store as it was |
| ControlServer.RegisterClient | ownserver_server/src/control_server_v2.rs:322-324 | the store gains one connected client with the configured window and an empty WebSocket |
| ControlServer.HandleReconnect | ownserver_server/src/control_server_v2.rs:344-374 | an unknown client changes nothing; a known one is replaced with the same endpoints, or lost if the hello fails |
| ControlServer.HandlePacket | ownserver_server/src/client.rs:93-136 | what each packet from a client does to the tables |
| ControlServer.ClientReadLoop | ownserver_server/src/client.rs:50-141 | any sequence of messages, and the mark set when the loop ends |
| ControlServer.ReadLoopLeavesWaiting | ownserver_server/src/client.rs:50-141 | a loop that ended left whoever is registered under its id waiting, and no other client was touched |
| ServerReadLoop.DispatchOnStream | ownserver_server/src/client.rs:93-136 | what a packet does to each stream: Data goes to the enabled stream it names, Refused and a failed write disable, nothing else touches it |
| ServerReadLoop.DispatchOnClients | ownserver_server/src/client.rs:93-136 | a Ping is answered with its Pong iff the client is connected and its WebSocket takes it; no other packet is answered, no other client changes |
| ServerReadLoop.LoopIsItsEvents | ownserver_server/src/client.rs:50-141 | over any messages without a close the loop does what the packets that arrived do, one after the other, so the claims of RemoteWriter hold of it |
| ServerReadLoop.LoopEndsAtClose | ownserver_server/src/client.rs:50-141 | the first close ends the loop: what came before it was dispatched, the client is marked, what comes after is ignored |
| ServerReadLoop.LoopWrites | ownserver_server/src/client.rs:93-136 | while its writes succeed and nothing refuses it, a live TCP stream is written exactly the Data payloads for it, in arrival order |
| ServerReadLoop.LoopSendsDatagrams | ownserver_server/src/client.rs:93-136 | and a UDP stream is sent exactly these payloads, one datagram each |
| ServerReadLoop.LoopDisablesRefused | ownserver_server/src/client.rs:93-136 | a Refused leaves its stream disabled, whatever arrives before or after it |
| Lifecycle.InvAt | ownserver_server/src/control_server_v2.rs:298-374 | in every reachable state each port has exactly one holder, each lease resolves, each hello repeats its lease |
| Lifecycle.PortsPartitioned | ownserver_server/src/control_server_v2.rs:298-374 | in every reachable state the port range is the disjoint union of available ports, ports of registered clients, ports of handshakes in progress, and abandoned ports |
| Lifecycle.NoTwoClientsShareAPort | ownserver_server/src/control_server_v2.rs:298-374 | in every reachable state two registered clients have no remote port in common |
| PortLosses.AbandonedExactly | ownserver_server/src/control_server_v2.rs:307-368 | over every run a port is abandoned iff an earlier hello listing it could not be sent |
| PortLosses.AbandonedForever | ownserver_server/src/control_server_v2.rs:307-368 | an abandoned port is never again available, registered or in a handshake |
| ServerRuns.NewClientLosesItsPort | ownserver_server/src/control_server_v2.rs:307-311 | a run in which a new client's hello fails and its port is abandoned |
| ServerRuns.ReconnectLosesItsPort | ownserver_server/src/control_server_v2.rs:364-368 | a run in which a reconnecting client's hello fails and client and port are gone |
| Lifecycle.CollectReleases | ownserver_server/src/store.rs:117-142 | cleanup makes available exactly the old available ports and the expired clients' remote ports, none of which was available before |
| Lifecycle.CollectSparesSurvivors | ownserver_server/src/store.rs:117-142 | a client that has not expired keeps its entry, and none of its ports becomes available |
| ClientLifetimes.RegisterNeverOverwrites | ownserver_server/src/store.rs:88-94 | add_client never finds an entry under the id it inserts |
| ClientLifetimes.LeaseIsForever | ownserver_server/src/store.rs:176-193 | a client id's lease never changes, and each of its endpoints resolves to the same value ever after |
| ClientLifetimes.HellosRepeatTheLease | ownserver_server/src/control_server_v2.rs:344-373 | all Success hellos for a client id list the endpoints first leased |
| ClientLifetimes.EachPortReleasedOnce | ownserver_server/src/store.rs:130-134 | in any release order the first release of a port succeeds, each later one answers PortAlreadyReleased and changes nothing |
| ClientLifetimes.EntryStep | ownserver_server/src/store.rs:82-134 | exactly which steps create, change and remove the entry of a client id |
| ClientLifetimes.ObjectStep | ownserver_server/src/client.rs:154-183 | a waiting object is frozen and leaves only by reconnect or by cleanup at or after expiry; a connected one waits only until now plus window |
| ClientLifetimes.WaitingIsForever | ownserver_server/src/client.rs:154-183 | over every run a waiting object never changes again: same expiry, nothing sent on it |
| ClientLifetimes.CollectedExactlyAtExpiry | ownserver_server/src/store.rs:117-134 | a cleanup removes a waiting object iff the clock has reached its fixed expiry |
| ClientLifetimes.ExpiryIsFixedAtDeparture | ownserver_server/src/client.rs:174-179 | over every run a waiting object left the connected state in exactly one step, and its expiry is the time of that step plus its window |
| ClientLifetimes.FailedWriteStartsWait | ownserver_server/src/client.rs:154-179 | in every run a failed write to a connected client leaves it waiting until the time of the write plus its window |
| ClientLifetimes.LoopExitStartsWait | ownserver_server/src/client.rs:50-141 | so does the end of a read loop of its client id |
| ClientLifetimes.DepartsExactly | ownserver_server/src/client.rs:154-179 | in every run a connected object departs in a step iff that step is a failed write to it or the end of a read loop of its client id |
| ClientLifetimes.WindowIsConfigured | ownserver_server/src/control_server_v2.rs:322-324 | in every run every registered client has the configured reconnect window |
| ClientLifetimes.FiredStep | ownserver_server/src/client.rs:195-212 | exactly which steps fire a child token |
| ClientLifetimes.FiredExactlyByExpiry | ownserver_server/src/client.rs:195-212 | over every run a child token has fired iff its object was dropped at or after expiry |
| ClientLifetimes.NeverTakenCarries | ownserver_server/src/control_server_v2.rs:322-324 | while nobody has reconnected under a client id, its registered object is the one whose token the listeners hold |
| ClientLifetimes.CleanupStopsListeners | ownserver_server/src/store.rs:117-134 | in every run without a reconnect of the client, cleaning it up cancels its listeners |
| ClientLifetimes.ReconnectKeepsListeners | ownserver_server/src/control_server_v2.rs:344-373 | after a first reconnect before expiry the listeners' token never fires, in any continuation |
| ClientLifetimes.ListenersStoppedExactly | ownserver_server/src/client.rs:195-212 | collecting an expired client leaves its listeners cancelled iff its first reconnect, if any, found the old object expired |
| ServerRuns.ListenersOutliveTheirClient | ownserver_server/src/control_server_v2.rs:344-373 | a run with an early reconnect after which cleanup removes the client and its listeners go on |
| ClientLifetimes.RegisteredUnfired | ownserver_server/src/client.rs:195-212 | the token of a registered object has not fired |
| ClientLifetimes.NeverFires | ownserver_server/src/client.rs:195-212 | the token of an object that is gone and has not fired never fires |
| StreamTables.CleanupInvisible | ownserver_server/src/store.rs:57-157 | after cleanup any sequence of lookups, sends, disables and registrations is answered as if it had only disabled the expired clients' streams |
| StreamTables.UdpLookupIsScan | ownserver_server/src/store.rs:108-157 | with UDP streams only, at most one enabled stream per peer, and the lookup answers like a scan |
| StreamTables.ScanStep | ownserver_server/src/store.rs:108-157 | one step spoils the lookup for an address iff it accepts TCP from it while the lookup finds a stream |
| StreamTables.LookupIsScanExactlyWhen | ownserver_server/src/store.rs:108-157 | in every run the lookup for an address was the scan all along iff no TCP connection was accepted from it while the lookup found a stream |
| StreamTables.TcpBreaksTheIndex | ownserver_server/src/store.rs:108-157 | a run after which one peer has two enabled UDP streams |
| RemoteListeners.AcceptConnection | ownserver_server/src/remote/tcp.rs:63-87 | the stream is registered iff its Init was sent |
| RemoteListeners.AcceptIsTableStep | ownserver_server/src/remote/tcp.rs:63-87 | the tables change as the index step does iff Init was sent, and the WebSocket holds that Init |
| RemoteListeners.ReadLoop | ownserver_server/src/remote/tcp.rs:113-167 | any sequence of reads, with the sends they cause |
| RemoteListeners.ReadLoopForwards | ownserver_server/src/remote/tcp.rs:113-163 | the WebSocket gets exactly the chunks of the reads the loop got through, in order, then End iff the next read was the end of the stream and the WebSocket took it; the loop goes on iff it got through all |
| RemoteListeners.LeadingAt | ownserver_server/src/remote/tcp.rs:113-163 | the reads the loop gets through are those ahead of the first failed, cancelled, empty or unsent one |
| RemoteListeners.ReadExactly | ownserver_server/src/remote/tcp.rs:113-163 | one read: what is sent, whether the loop goes on |
| RemoteListeners.ReadLoopDisables | ownserver_server/src/remote/tcp.rs:113-167 | a loop that stopped has disabled its stream unless it was cancelled, and touched nothing else |
| RemoteListeners.ProcessUdpStream | ownserver_server/src/remote/udp.rs:40-109 | any sequence of datagrams at one endpoint |
| RemoteListeners.OneDatagram | ownserver_server/src/remote/udp.rs:50-107 | lookup, creation if nothing is found, and the forwarded payload |
| RemoteListeners.OpenUdpStream | ownserver_server/src/remote/udp.rs:69-81 | a new stream is registered iff its Init was sent |
| RemoteListeners.DatagramIsTableStep | ownserver_server/src/remote/udp.rs:67-107 | one datagram is the table step of the index claims, opening a stream iff the peer has none and Init was sent |
| RemoteListeners.DatagramExactly | ownserver_server/src/remote/udp.rs:49-108 | what one datagram puts into the WebSocket: the payload of a known peer; Init and payload of a new one, of these what is taken; the loop ends iff it was cancelled or Init failed |
| RemoteListeners.KnownPeerIsForwarded | ownserver_server/src/remote/udp.rs:67-107 | a datagram of a peer for which a scan finds a stream goes to that stream, as Data or, when empty, as End |
| RemoteListeners.UdpLoopForwards | ownserver_server/src/remote/udp.rs:49-108 | over any datagrams, all sends accepted, the WebSocket holds the whole conversation in datagram order: an Init at each new peer, and every payload under its peer's stream |
| UdpListeners.InvAt | ownserver_server/src/remote/udp.rs:49-108 | the invariant of any number of interleaved UDP loops |
| UdpListeners.InitPrecedesPayload | ownserver_server/src/remote/udp.rs:49-108 | in every run a UDP stream never has a second Init attempted, and each Data or End comes after its one Init was sent; with one endpoint per peer, to the same client |
| UdpListeners.EveryStreamIsTriedOnce | ownserver_server/src/remote/udp.rs:69-81 | each UDP stream id has exactly one Init attempt, unless its loop is just about to make it |
| UdpListeners.RegisteredWasAnnounced | ownserver_server/src/remote/udp.rs:69-81 | each registered UDP stream was announced to its own client |
| RemoteWriter.WriteStep | ownserver_server/src/client.rs:93-136 | one event puts on the socket exactly the payload, a prefix of it, or nothing, as the table entry records |
| RemoteWriter.WrittenIsPrefix | ownserver_server/src/remote/tcp.rs:172-214 | from any state on the bytes written are what was there followed by a prefix of the payloads in arrival order, all of them while the stream is live |
| RemoteWriter.DeadForever | ownserver_server/src/remote/tcp.rs:172-214 | after the first failed write or disable nothing more is ever written |
| RemoteWriter.LiveExactly | ownserver_server/src/client.rs:93-136 | over any events a registered stream is live iff none was a failing write, Refused, end of its read loop, disabling of its client's streams or cleanup of its client |
| LocalClient.Channel.Send | ownserver/src/lib.rs:58-60 | a message is queued iff the writer still holds the receiving end |
| LocalClient.Channel.Forward | ownserver/src/local/tcp.rs:98-115 | one message taken: written, broken off, or the socket shut down |
| LocalClient.Store.constructor | ownserver/src/lib.rs:272-279 | empty tables, no client, no token |
| LocalClient.Store.SendToServer | ownserver/src/lib.rs:358-365 | a packet goes out iff a client is registered and its WebSocket takes it |
| LocalClient.Store.AddStream | ownserver/src/local/tcp.rs:43-47 | a fresh queue under the stream's id |
| LocalClient.Store.SendToLocal | ownserver/src/lib.rs:58-60 | exactly the one queue changes |
| LocalClient.Store.RemoveStream | ownserver/src/lib.rs:286-288 | exactly the one entry goes, its queue stays |
| LocalClient.Store.EndTaskRemoves | ownserver/src/lib.rs:235-236 | End takes the entry out of the table ahead of its pause |
| LocalClient.Store.EndTaskCloses | ownserver/src/lib.rs:237-238 | and then queues Close |
| LocalClient.Store.WriterTakes | ownserver/src/local/tcp.rs:98-115 | one queue's writer advances |
| LocalClient.Store.ProcessLocalTcp | ownserver/src/local/tcp.rs:57-91 | the local socket's chunks go to the server in order until the first failure, and then the entry is removed |
| LocalClient.OneDataPerRead | ownserver/src/local/tcp.rs:57-91 | the packets sent for n successful reads are n Data packets of the stream, read for read |
| LocalClient.Store.ProcessControlFlowMessage | ownserver/src/lib.rs:157-270 | for each packet: the new tables, the packets sent back, and whether the session goes on |
| LocalClient.Store.ProcessInit | ownserver/src/lib.rs:168-212 | unknown endpoint, known stream, failed connect and success |
| LocalClient.Store.ProcessPing | ownserver/src/lib.rs:213-221 | a Pong is sent back, and a token that came along is kept |
| LocalClient.Store.ProcessData | ownserver/src/lib.rs:249-266 | the payload is queued for its stream, or Refused is sent back |
| Tunnel.Push | ownserver_server/src/client.rs:154-172 | how a packet at the end of the WebSocket changes what is under way of each stream |
| TunnelSteps.SendKeeps | ownserver_server/src/remote/tcp.rs:113-163 | sending Init, Data or End keeps the tunnel's invariant |
| TunnelSteps.DeliverKeeps | ownserver/src/lib.rs:157-270 | so does processing the next packet at the client, however it goes |
| TunnelSteps.EndTaskKeeps | ownserver/src/lib.rs:231-248 | so does taking an ended stream out of the table |
| TunnelSteps.EndCloseKeeps | ownserver/src/lib.rs:231-248 | and queueing its Close |
| TunnelSteps.TakeKeepsBody | ownserver/src/local/tcp.rs:98-115 | a Close the writer takes is the last message of its queue, and the bytes written are those taken |
| TunnelRuns.InvAt | ownserver/src/lib.rs:157-270 | the tunnel's invariant holds after any interleaving of any number of streams |
| TunnelRuns.SessionsFollow | ownserver/src/proxy_client.rs:99-142 | whatever a session leaves behind in the client is a legal start of the next one |
| TunnelRuns.WrittenIsContiguous | ownserver_server/src/remote/tcp.rs:113-163 | in every run each local socket has received a contiguous piece of its own stream, starting at the beginning iff no Data went ahead of Init |
| TunnelRuns.WrittenIsPrefix | ownserver_server/src/remote/tcp.rs:113-163 | with Init ahead of Data the bytes written locally are a prefix of the bytes read remotely |
| TunnelRuns.QueuesAreShaped | ownserver/src/lib.rs:231-266 | every queue is Data* and at most one Close, and a writer that shut down took all of it |
| TunnelRuns.ClosedIsComplete | ownserver/src/local/tcp.rs:98-115 | a queue closed by End and shut down without a failed write delivered everything read before End iff no Data went ahead of Init |
| TunnelRuns.RacedStreamLosesItsStart | ownserver_server/src/remote/tcp.rs:82-85 | a run in which the first chunk overtakes Init and is lost |
| TunnelQueues.QueueStep | ownserver/src/lib.rs:157-270 | what each step does to each queue, field by field: payload appended, bytes written, writer broken or shut |
| TunnelQueues.NewQueueStep | ownserver/src/local/tcp.rs:43-55 | a queue is made only by the delivery of an Init, empty, with its writer at work and its stream's entry leading to it |
| TunnelQueues.InitOpensStream | ownserver/src/lib.rs:168-212 | an Init opens a stream iff its endpoint is known, the stream is not, and the local service takes the connection |
| TunnelQueues.SessionGoesOn | ownserver/src/lib.rs:157-270 | a delivery ends the session iff it is a Refused, an Init that opens nothing, Data for a broken queue, or Data that is unknown and cannot be answered |
| TunnelQueues.EndsAreCounted | ownserver/src/lib.rs:231-248 | over every run the Ends delivered for a stream are as many as the runs of its spawned code plus those still pending |
| TunnelQueues.EndIsPending | ownserver/src/lib.rs:231-248 | the code for a delivered End can run from then on until it does |
| TunnelQueues.EndQueuesClose | ownserver/src/lib.rs:231-248 | an End delivered to a live stream, its code then run to the end, closes the queue for good, unless the local side ended or a write failed first |
| TunnelQueues.EndDeliversEverything | ownserver/src/local/tcp.rs:98-115 | once shut down, such a stream's local socket has received everything read remotely iff no Data went ahead of Init |
| TunnelQueues.WriterExactly | ownserver/src/local/tcp.rs:98-115 | over every run a writer is broken iff a write failed, shut iff it took a Close or ran out of senders, and took one message per write step |
| Draining.ClientAnswers | ownserver/src/lib.rs:166-267 | the client answers a Ping with its Pong, an orphan Data and an Init whose TCP connection failed with Refused, iff it can send, and all else with nothing; the answer weighs less than the packet |
| Draining.ServerAnswers | ownserver_server/src/client.rs:93-136 | the server answers a Ping with its Pong iff the client is connected and its WebSocket takes it, and all else with nothing |
| Draining.DeliveryLowersRank | ownserver_server/src/client.rs:93-136 | each delivery at either end strictly lowers the rank of what is in flight |
| Draining.InFlightPacketsDrain | ownserver/src/lib.rs:166-267 | in every run without new input the number of deliveries is at most the initial rank |
| Composition.NewClientIsItsActions | ownserver_server/src/control_server_v2.rs:299-343 | the lifecycle's lease, hello and registration in a row are the NewClient branch, failed hello included |
| Composition.ReconnectIsItsActions | ownserver_server/src/control_server_v2.rs:344-374 | taking, hello and registration in a row are the Reconnect branch, failed hello included |
| Composition.ReadIsTunnelStep | ownserver_server/src/remote/tcp.rs:113-163 | one round of the TCP read loop is one step of the tunnel, with the same packet sent |
| Composition.AcceptIsTunnelSteps | ownserver_server/src/remote/tcp.rs:63-87 | accepting a connection and announcing it are two steps of the tunnel, with the same Init sent |
| Composition.KnownDatagramIsItsSteps | ownserver_server/src/remote/udp.rs:67-107 | receiving and forwarding in a row are one round of the UDP loop for a known peer, with the same packets in the log and in the WebSocket |
| Composition.NewDatagramIsItsSteps | ownserver_server/src/remote/udp.rs:67-107 | receiving, announcing, inserting and forwarding in a row are one round for a new peer, with the same packets in the log and in the WebSocket |
| ProxyClient.RunClient | ownserver/src/proxy_client.rs:42-155 | for every sequence of outcomes: each sleep is the backoff of the failures just before it, each hello the one due, and the loop goes on exactly until it is cancelled or has no token |
| ProxyClient.ReceivedToken | ownserver/src/lib.rs:217-221 | a session leaves the token of its last Ping that carried one |
| ProxyClient.TokenAfterExactly | ownserver/src/proxy_client.rs:128-139 | the token to reconnect with is the one carried by the last Ping of any session that carried one, or the one known before if none did |
| ProxyClient.BreaksExactly | ownserver/src/proxy_client.rs:120-152 | the loop breaks iff the user cancels, or a session ends while no token was known at the start and no Ping of any session brought one |
| ProxyClient.OnlyPingsSetTheToken | ownserver/src/lib.rs:166-267 | no other packet changes the token the client reconnects with |
| ProxyClient.BackoffIsCappedDoubling | ownserver/src/proxy_client.rs:33-40 | the tabulated backoff is 0 for 0 and min(2^(n-1), 300) for every n from 1 on |
| ProxyClient.BackoffIsMonotone | ownserver/src/proxy_client.rs:33-40 | it never decreases and never exceeds 300 |
| ProxyClient.SleepsExactly | ownserver/src/proxy_client.rs:54-87 | in every run the sleep of a round is the doubling for exactly the failed rounds just before it, and 0 after a session |
| ProxyClient.ConsecutiveFailuresCost | ownserver/src/proxy_client.rs:54-87 | in every run the sleeps after m failures in a row add up to 2^m - 1 seconds for m up to 9, and 511 + 300 (m - 9) beyond |
| ProxyClient.HelloPairsRequestWithToken | ownserver/src/proxy_client.rs:54-185 | a hello goes out iff the round connects; until the first session it is the initial request with the auth token; afterwards Reconnect with the token brought last, or the one known at the start |
| ProxyClient.NeverBackToNewClient | ownserver/src/proxy_client.rs:54-153 | after a Reconnect hello no NewClient hello follows |
| ProxyClient.HellosAreAccepted | ownserver_server/src/control_server_v2.rs:163-224 | if the tokens verify, the server accepts every hello of the run as the request it was meant to be |

## Left out

- Sockets, WebSocket frames, tokio scheduling and `select!`: steps in any order, first-in first-out sequences, and success or failure as arguments.
- MessagePack, serde JSON, JWT and the auth crate: packets are values, tokens are looked up in tables of those that verify; the client's encoder never fails.
- Finer interleavings of a cleanup pass, and clock readings that differ within it or between removing and dropping a client.
- `Client::new` and `add_client` are one step; a read loop that ends between the two marks nobody and is, in the model, a loop that never ends.
- UUIDs are numbers never used before; that a v4 UUID repeats is excluded.
- Failure to bind a listener: the client stays registered without it, which changes no table.
- Lifecycle: stream tables change arbitrarily in one of its steps, since no claim there reads them.
- The timer that sends a Ping with a reconnect token to every client, and `broadcast_to_clients`: sends like any other.
- ownserver/src/local/udp.rs: the local loops once more, with datagrams; UDP streams take part in the tunnel as other packets and queues.
- TunnelRuns.WrittenIsPrefix: for the streams opened in one WebSocket session, whichever it is; bytes lost in the WebSocket of an ended session are not claimed to arrive in the next.
- ProxyClient.RunClient: a counter of failures without the 32-bit limit, which takes 40000 years of sleeping to reach; the request for the first token, and the parsing of the address.
- Metrics, tracing, RTT, the HTTP inspection API, the event recorder, configuration and command line: nothing here depends on them.
- Liveness and fairness: only safety, step-indexed outcomes and the rank of what is in flight.
