# Verification model of the aTrust client's protocol code

A Dafny 4.11 model of the stateful core of this VPN client: the L3 tunnel's flow tracker and authentication
protocol, the three coordination protocols around it (shared DNS lookups, the tunnel connection manager, the UDP
forwarder), the two lookup indexes, the stream codecs, the fake-address pool, checksums, the nonce generator, and
the agreement between the dialer and the transports. `dafny verify dfyconfig.toml` checks everything.

## How it is modelled

- A section of code under a mutex is one atomic step. Time is an integer; sockets and TLS are byte sequences or
  success flags; everything another goroutine may do between two steps may happen.
- What a section does is a function on values. Where the code updates objects in place, a class has the same fields
  and its methods are proved to do to the objects what the function does to their values (`View`).
- A protocol with several goroutines is a set of threads with program counters, an action for every step, and a
  predicate for runs. The theorems speak about every state of every run from the initial state.
- Integer widths are written out where they matter: sequence numbers, checksum sums, the pool's cursor, the nonce's
  product.

| files | what they model |
|---|---|
| `Conntrack*.dfy`, `TcpTrack.dfy` | the flow tracker: its functions, its invariant over all runs, recency, lifetimes, dispatch, what flows remember, and the objects |
| `Delivery.dfy`, `DeliverySafety.dfy` | WritePacket and completeAuthentication under the tracker's lock and a flow's sendMu |
| `FailedExpectations.dfy` | two runs in which a natural expectation about the flow tracker fails |
| `DnsFlight.dfy`, `L3Tunnel.dfy`, `UdpForward.dfy` | the coordination protocols and their objects |
| `IpResource.dfy`, `DomainIndex.dfy`, `Routing.dfy` | the indexes against linear scans, and the routing agreement |
| `PacketSplit.dfy`, `TcpFraming.dfy` | the codecs |
| `IpPool.dfy`, `Checksum.dfy`, `Pcap.dfy`, `Nonce.dfy` | allocation and arithmetic |
| `Bytes.dfy`, `Lists.dfy`, `Sums.dfy` | octets and addresses, recency lists, sums over maps |

## Where a natural expectation fails

- An authenticated flow can still be given up by expireAuth, because completing does not clear the deadline:
  `ConntrackDispatch.AuthenticatedFlowMayStillExpire` says exactly when, and
  `FailedExpectations.AuthenticatedFlowExpires` gives a run from the start in which it happens.
- A flush that breaks off loses the rest of the cache, and packets cached on a flow that is evicted are dropped:
  `DeliverySafety.FramesInOrder` says exactly what has gone out in every state, and
  `FailedExpectations.BrokenFlushLosesPacket` gives a run in which a packet reported as taken is lost.
- A malformed stream drops the good packets of the same buffer: `PacketSplit.MalformedDropsPackets`, with an example
  in `PacketSplit.SamePacketsSplitDifferently`.
- A fake address can be generated for two names if SetIPDomain gives it to the second in between:
  `IpPool.AddressIsKept` and `IpPool.NeverTwoNames`, with an example in `IpPool.ReassignedTwice`.
- A connection that breaks between two frames, or right behind the header of one, looks to a reader like the regular
  end of the stream: `TcpFraming.TruncationIsSilent` says exactly for which cuts, with an example in
  `TcpFraming.HeaderThenNothing`.
- A destination that a domain rule sends to the L3 tunnel need not be accepted there: `Routing.DomainRuleOnL3` says
  exactly when it is, with an example in `Routing.DomainRuleAloneIsRefused`.

## Model

| member | source | states |
|---|---|---|
| `TcpTrack.StateIsJustified` | client/atrust/l3tunnelconntrack.go:191-266 | for every packet sequence, what the state implies about the packets since the last reset: a SYN from each side for anything past the handshake, an outbound acknowledgment of a SYN's sequence number plus one modulo 2^32 for established, a FIN from each side for first-closed; and the lifetime is one that the state allows |
| `TcpTrack.FirstClosedIsLeftOnlyByReset` | client/atrust/l3tunnelconntrack.go:241-254 | a first-closed flow keeps state and lifetime through any packets that are not resets |
| `TcpTrack.HandshakeEstablishes` | client/atrust/l3tunnelconntrack.go:205-240 | after any history that left the flow reset, a three-way handshake opened from either side establishes it |
| `TcpTrack.EstablishedExactly` | client/atrust/l3tunnelconntrack.go:205-240 | a flow gets established by an outbound acknowledgment of the SYN on record and by nothing else |
| `TcpTrack.EstablishedIsLeftExactly` | client/atrust/l3tunnelconntrack.go:241-248 | an established flow is left exactly by a reset or a FIN; after a FIN its sender is the first closer and the six hours go on |
| `TcpTrack.BothSidesClose` | client/atrust/l3tunnelconntrack.go:235-266 | after any history that ends established, a FIN from one side, then anything short of a reset or a FIN from the other, then a FIN from the other side ends closed by the first closer, with that state's lifetime |
| `TcpTrack.ResetEnds` | client/atrust/l3tunnelconntrack.go:191-197 | after any history a reset leaves the flow reset, with a reset flow's lifetime |
| `TcpTrack.MovesOnExactly` | client/atrust/l3tunnelconntrack.go:191-266 | for every history and next packet but a reset, exactly when the state changes, which sequence number is on record, and that the lifetime stays with the state |
| `ConntrackInvariant.StepKeeps` | client/atrust/l3tunnelconntrack.go:118-473 | every critical section keeps the whole invariant (key index, id index and list agree; ids unique; a signalled flow holds no packets; an untracked one is signalled; budgets below three) and only moves flows forward: key, id, application, node group and outcomes stay, counts and ids only grow, removed flows never return |
| `ConntrackInvariant.RunKeeps` | client/atrust/l3tunnelconntrack.go:118-473 | the same between any two moments of any run of any operations |
| `ConntrackInvariant.RunSafety` | client/atrust/l3tunnelconntrack.go:118-150 | over every run from an empty manager: the three structures hold the same flows, without repetition, at most `maxEntries`; ids are never shared or reused; a completion signal fires at most once and its outcome is final; an indexed flow has no error and fewer than three timeouts; what leaves the index is signalled and stays out; a closed manager tracks nothing |
| `ConntrackInvariant.GetOrCreateKeeps` | client/atrust/l3tunnelconntrack.go:118-150 | the flow handed out has the key that was asked for, and is tracked exactly if the manager is not closed |
| `ConntrackInvariant.CompleteKeeps` | client/atrust/l3tunnelconntrack.go:272-296 | completing an authentication, with or without an error and for any id, keeps the invariant, so the signal has fired at most once and nothing is left pending, and moves flows only forward |
| `ConntrackInvariant.CloseKeeps` | client/atrust/l3tunnelconntrack.go:466-473 | closing keeps the invariant, which for a closed manager means empty structures and no unsignalled flow, and only moves flows forward |
| `ConntrackInvariant.NotTrackedUnreachable` | client/atrust/l3tunnelconntrack.go:298-309 | the fallback of cachePacket for a flow that left the index without being signalled is never taken |
| `ConntrackRecency.RunRecency` | client/atrust/l3tunnelconntrack.go:118-189 | while the clock does not run backwards the list is sorted by last use in every state of every run |
| `ConntrackRecency.CapacityEvictsLeastRecent` | client/atrust/l3tunnelconntrack.go:143-149 | making room costs a flow that was not used more recently than any other tracked flow |
| `ConntrackLifetime.ExpiryRemovesExactly` | client/atrust/l3tunnelconntrack.go:421-434 | an expiry pass removes exactly the expired flows it passes, tells whoever waits for them, and leaves the others as they are |
| `ConntrackLifetime.SameFlowUntilExpired` | client/atrust/l3tunnelconntrack.go:118-129 | a key leads to the same flow again exactly as long as that flow has not expired |
| `ConntrackLifetime.HandedOut` | client/atrust/l3tunnelconntrack.go:118-150 | a new flow has the caller's key, application and node group, an id of its own, the default lifetime from now on, and no token, packet, request or charge; only a closed manager has signalled it. A flow that is found is as it was but for when it was last seen |
| `ConntrackLifetime.SeenFlowLives` | client/atrust/l3tunnelconntrack.go:152-189 | when exactly a flow expires after a packet of each protocol; for TCP the lifetime is one that the state reached by the flow's whole packet history allows |
| `ConntrackLifetime.SeenIs` | client/atrust/l3tunnelconntrack.go:161-188 | a sighting changes when the flow was last seen, its protocol, its connection state and its expiry, of this flow only, and nothing its authentication depends on |
| `ConntrackLifetime.CachedExactly` | client/atrust/l3tunnelconntrack.go:298-321 | a packet is cached exactly if its flow is unanswered and has room, as the last one and with the addresses to ask for; in every other case nothing changes, and an answered flow's outcome is what is reported |
| `ConntrackLifetime.CachedIsDue` | client/atrust/l3tunnelconntrack.go:298-352 | a flow with a packet cached and never asked for is due at once; one that is asked for, or has nothing cached, is not |
| `ConntrackLifetime.AnswerArrives` | client/atrust/l3tunnelconntrack.go:272-296 | an answer gives its flow outcome and token and signals it once, hands over what was cached if it is a success, takes the flow out of the index if not, and changes no other flow |
| `ConntrackLifetime.RetryWaits` | client/atrust/l3tunnelconntrack.go:389-405 | a flow whose retry the server asked for is due again exactly after the delay, and cannot time out meanwhile |
| `ConntrackLifetime.SentWaits` | client/atrust/l3tunnelconntrack.go:354-364 | a sent request is overdue exactly from its deadline on and is not sent again by itself |
| `ConntrackLifetime.ThreeAttempts` | client/atrust/l3tunnelconntrack.go:366-387 | a charged request goes out again at once with its packets kept, except that the third charge gives the flow up and tells its error |
| `ConntrackLifetime.RemovedFlowsAreTold` | client/atrust/l3tunnelconntrack.go:442-473 | closing and removing tell an unanswered flow why, and leave an answered one its result |
| `ConntrackDispatch.BatchTakes` | client/atrust/l3tunnelconntrack.go:334-352 | a batch is the first `limit` waiting flows in list order, and `more` is true exactly when another one is waiting |
| `ConntrackDispatch.BatchQuotes` | client/atrust/l3tunnelconntrack.go:334-352 | every request of a batch quotes the addresses with which its flow was last cached |
| `ConntrackDispatch.DispatchSendsAll` | client/atrust/l3tunnelconn.go:489-504 | the dispatch loop ends, asks for every waiting flow exactly once in list order, and stops at a request that cannot be written, whose flow is then signalled with the error and out of the index |
| `ConntrackDispatch.DispatchRecords` | client/atrust/l3tunnelconn.go:489-504 | after the loop every flow that was asked for is on record as such with the deadline, even if a later request could not be written |
| `ConntrackDispatch.ExpiryCharges` | client/atrust/l3tunnelconntrack.go:366-387 | one pass charges each overdue tracked flow once and gives up exactly those whose budget this spends |
| `ConntrackDispatch.ExpiryCount` | client/atrust/l3tunnelconntrack.go:366-387 | the number reported is the number of flows taken out of the index |
| `ConntrackDispatch.AuthenticatedFlowMayStillExpire` | client/atrust/l3tunnelconntrack.go:272-296 | completing leaves the deadline running: the next expiry pass takes the authenticated flow out of the index if and only if the deadline is over and two attempts were charged before |
| `FailedExpectations.AuthenticatedFlowExpires` | client/atrust/l3tunnelconntrack.go:272-387 | a run from a new manager, with two requests that time out and a third that is answered, ends with the flow signalled, without an error, with its token, and outside the index |
| `ConntrackHistory.BudgetOnlySpentByExpiry` | client/atrust/l3tunnelconntrack.go:354-405 | no operation but expireAuth spends timeout budget, server-requested retries included |
| `ConntrackHistory.MemoryIsHistory` | client/atrust/l3tunnelconntrack.go:152-266 | in every run a flow's timeout count is the number of times expireAuth found it overdue, and the state of its connection is what the tracker makes of exactly the TCP packets observed for it |
| `ConntrackHistory.AskedAgainForAReason` | client/atrust/l3tunnelconntrack.go:334-405 | in every run, between two requests for one flow it was charged with a timeout or the server asked for a retry |
| `ConntrackHistory.FlowsKeepTheirMaker` | client/atrust/l3tunnelconntrack.go:129-136 | in every state of every run a flow has the key, the application and the node group of the one getOrCreate call that made it |
| `ConntrackManager.Conntrack.ObserveTCP` | client/atrust/l3tunnelconntrack.go:191-255 | the field updates are the tracker's transition function |
| `ConntrackManager.Conntrack.See` | client/atrust/l3tunnelconntrack.go:161-188 | the flow's fields after a packet are those of the specification, for every protocol and for broken packets |
| `ConntrackManager.ConntrackMgr.constructor` | client/atrust/l3tunnelconntrack.go:84-91 | an empty manager satisfies the invariant |
| `ConntrackManager.ConntrackMgr.GetOrCreate` | client/atrust/l3tunnelconntrack.go:118-150 | the objects after the call are the specification of the objects before, eviction, expiry and a closed manager included; the manager stays valid |
| `ConntrackManager.ConntrackMgr.ObservePacket` | client/atrust/l3tunnelconntrack.go:152-189 | as specified, and reports whether the key is tracked |
| `ConntrackManager.ConntrackMgr.CompleteAuth` | client/atrust/l3tunnelconntrack.go:272-296 | as specified, with the packets handed over for sending |
| `ConntrackManager.ConntrackMgr.CachePacket` | client/atrust/l3tunnelconntrack.go:298-321 | as specified, result and state |
| `ConntrackManager.ConntrackMgr.NextAuthBatch` | client/atrust/l3tunnelconntrack.go:334-352 | the loop over the list takes the specified batch and marks exactly its flows |
| `ConntrackManager.ConntrackMgr.MarkAuthSent` | client/atrust/l3tunnelconntrack.go:354-364 | as specified |
| `ConntrackManager.ConntrackMgr.ExpireAuth` | client/atrust/l3tunnelconntrack.go:366-387 | the loop, which removes from the list it walks, does what the specification does to the list as it was |
| `ConntrackManager.ConntrackMgr.RetryAuth` | client/atrust/l3tunnelconntrack.go:389-405 | as specified, and reports whether a retry is scheduled |
| `ConntrackManager.ConntrackMgr.Remove` | client/atrust/l3tunnelconntrack.go:407-413 | as specified |
| `ConntrackManager.ConntrackMgr.RemoveExpired` | client/atrust/l3tunnelconntrack.go:415-434 | as specified |
| `ConntrackManager.ConntrackMgr.RemoveLocked` | client/atrust/l3tunnelconntrack.go:442-464 | indexes, list and signal are updated together |
| `ConntrackManager.ConntrackMgr.Close` | client/atrust/l3tunnelconntrack.go:466-473 | whatever order the key index is walked in, every tracked flow is removed and signalled |
| `ConntrackManager.L3TunnelConn.WritePacket` | client/atrust/l3tunnelconn.go:420-444 | with nobody in between, state, result and frames are those of the specification that the interleavings use |
| `ConntrackManager.L3TunnelConn.CompleteAuthentication` | client/atrust/l3tunnelconn.go:588-606 | the pending packets go out in order up to the first failure, which closes the connection |
| `ConntrackManager.L3TunnelConn.DispatchPendingAuth` | client/atrust/l3tunnelconn.go:489-504 | the loop sends what the specification of the whole dispatch says, and closes the connection exactly on a failure |
| `DeliverySafety.OthersAreGentle` | client/atrust/l3tunnelconntrack.go:118-473 | whatever anybody does without a flow's sendMu, an unsignalled flow keeps its packets or fails, and a signalled one keeps its outcome |
| `DeliverySafety.SysStepKeeps` | client/atrust/l3tunnelconn.go:420-444 | every step of every writing or answering thread, and everything others do in between, keeps the delivery invariant |
| `DeliverySafety.SysRunKeeps` | client/atrust/l3tunnelconn.go:420-606 | the delivery invariant holds in every state of every interleaving |
| `DeliverySafety.FramesInOrder` | client/atrust/l3tunnelconn.go:588-606 | in every interleaving a flow's frames carry its accepted packets in acceptance order under the flow's token, each at most once, cached ones before direct ones; nothing goes out before the authentication or under a token too long for its length byte; once no flush is running, everything accepted has gone out if and only if no flush broke off |
| `FailedExpectations.BrokenFlushLosesPacket` | client/atrust/l3tunnelconn.go:588-606 | a run from the start, with one cached packet, a successful authentication and a failing write, ends with the packet reported as taken, in the log, and in no frame |
| `DeliverySafety.NoSilentLoss` | client/atrust/l3tunnelconn.go:420-444 | a WritePacket call that succeeds had its packet written, cached, or dropped for a full cache, and no call falls through cachePacket's two fallbacks; the accepted calls are exactly those in the log, once each |
| `DeliverySafety.SameFlow` | client/atrust/l3tunnelconn.go:588-595 | the id a thread looked up before waiting for the lock still means the flow whose lock it got |
| `DeliverySafety.LateCachingWouldLose` | client/atrust/l3tunnelconn.go:423-441 | what the lock prevents: caching after the authentication would lose the packet and report success; no reachable state allows it |
| `DeliverySafety.AloneIsAnInterleaving` | client/atrust/l3tunnelconn.go:420-444 | the uninterrupted call is one of the interleavings |
| `DeliverySafety.AloneLosesNothing` | client/atrust/l3tunnelconn.go:420-444 | what becomes of the packet of an uninterrupted call, by the state of its flow: the last one in the cache, dropped for a full cache, refused with the flow's error, or in a frame of its own unless the token is too long or the write fails; nothing else changes |
| `DeliverySafety.FlushAlone` | client/atrust/l3tunnelconn.go:588-606 | a flush puts the pending packets into frames in order up to the first failure, and counts as broken off exactly if one is left; all go out exactly if the token fits its length byte and the connection takes them all |
| `DeliverySafety.AnswerAlone` | client/atrust/l3tunnelconn.go:588-606 | an answer handled without interruption gives its flow the outcome, and after a success puts the cached packets into frames under the token, in order and as many as the connection takes; after a failure none |
| `DnsFlight.StepKeeps` | resolve/resolver.go:166-217 | every section of every caller and every lookup keeps the single-flight invariant |
| `DnsFlight.FlightIsSound` | resolve/resolver.go:166-217 | in every reachable state a registered lookup is open, uncancelled, and counts its blocked callers, at least one; an uncancelled running lookup is registered, so a host has at most one and nobody's lookup runs on unwanted; the counter counts the running lookups; a closed resolver registers nothing |
| `DnsFlight.AnswersAreShared` | resolve/resolver.go:186-205 | the result channel is closed at most once, and every caller that got an answer got the one a finished lookup for its own host ended with |
| `DnsFlight.AnswersComeFromLookups` | resolve/resolver.go:186-205 | in every run a lookup's answer is the one that very lookup came back with |
| `DnsFlight.ClosedForGood` | resolve/resolver.go:370-378 | after closing, in every later state, nothing is registered and every caller is refused |
| `DnsFlight.StaysRegistered` | resolve/resolver.go:195-217 | a lookup stops being registered if and only if it ends itself or its last caller leaves, closing aside; an older lookup's end never unregisters it |
| `DnsFlight.Resolver.Enter` | resolve/resolver.go:166-185 | as specified, and tells the caller whether to start the goroutine |
| `DnsFlight.Resolver.ReleaseResolutionWaiter` | resolve/resolver.go:207-217 | as specified |
| `DnsFlight.Resolver.RunResolution` | resolve/resolver.go:195-205 | as the five sections in order |
| `DnsFlight.Resolver.Shut` | resolve/resolver.go:370-378 | every registered lookup is cancelled and unregistered, the others are left alone |
| `L3Tunnel.StepKeeps` | client/atrust/l3tunnel.go:119-347 | every critical section of callers, connecting goroutines, evictions and Close keeps the invariant |
| `L3Tunnel.CallsComplete` | client/atrust/l3tunnel.go:146-173 | in every reachable state no group is both connected and connecting, a call ends at most once and until then exactly its own goroutine works on it, all callers were told its one result, and a success is a connection of its group |
| `L3Tunnel.MismatchIsDead` | client/atrust/l3tunnel.go:320-327 | finishConnect never finds another call in its group's place |
| `L3Tunnel.NothingLeaks` | client/atrust/l3tunnel.go:119-144 | a group keeps one flow tracker for all its connections; once Close has collected, every connection and tracker ever made is closed or held by a goroutine about to close it, and all are closed when every goroutine is at its end |
| `L3Tunnel.OnlyCurrentRemain` | client/atrust/l3tunnel.go:227-246 | evicting stale connections takes out a connection if and only if a known best address differs from its own, and hands it to the goroutine that closes it |
| `L3Tunnel.OwnBestDecides` | client/atrust/l3tunnel.go:230-235 | a group's own best address decides alone whether its connection is stale; the major group's stands in only where the group has none, and without either nothing is stale |
| `L3Tunnel.FinishTells` | client/atrust/l3tunnel.go:320-347 | a call ends with its worker's error, or with the closing, or with the worker's connection, which is installed exactly then |
| `L3Tunnel.EvictsExactly` | client/atrust/l3tunnel.go:214-221 | a connection is taken out exactly if its group still has that one |
| `L3Tunnel.CallsBeginExactly` | client/atrust/l3tunnel.go:146-164 | a connect call begins exactly for a group neither connected nor connecting; otherwise the caller gets the connection or shares the call |
| `L3Tunnel.Tunnel.Find` | client/atrust/l3tunnel.go:146-164 | as specified |
| `L3Tunnel.Tunnel.Reconnect` | client/atrust/l3tunnel.go:267-288 | as specified |
| `L3Tunnel.Tunnel.GetConntrackMgr` | client/atrust/l3tunnel.go:195-212 | refused exactly when closed, otherwise the group's tracker, made if missing |
| `L3Tunnel.Tunnel.Evict` | client/atrust/l3tunnel.go:214-225 | the connection is closed exactly if it was taken out |
| `L3Tunnel.Tunnel.EvictStaleConns` | client/atrust/l3tunnel.go:227-246 | exactly the stale connections are taken out and closed |
| `L3Tunnel.Tunnel.Finish` | client/atrust/l3tunnel.go:320-347 | the call gets its one result, and a connection that is not installed is closed |
| `L3Tunnel.Tunnel.Close` | client/atrust/l3tunnel.go:119-144 | every connection and tracker of the maps is closed and the maps are empty |
| `UdpForward.StepKeeps` | service/udp_forwarding.go:168-223 | every atomic operation of handlers and connection goroutines keeps the budget, queue and table invariants |
| `UdpForward.BudgetIsKept` | service/udp_forwarding.go:371-398 | in every reachable state the counter equals what queued and held datagrams account for and is within the budget; the list holds every key once; connections stay within the cap; queues are first in, first out; a finished connection's queue is empty |
| `UdpForward.ReserveKeeps` | service/udp_forwarding.go:380-398 | a handler whose swap succeeds reserves against the budget as it is, not as it was when another handler loaded it |
| `UdpForward.AllIsReturned` | service/udp_forwarding.go:371-378 | when all handlers are done and all connections finished, the counter is zero |
| `UdpForward.FinishedForGood` | service/udp_forwarding.go:225-241 | a finished connection's queue stays empty whatever happens next |
| `UdpForward.ListIsByActivity` | service/udp_forwarding.go:318-333 | in every state of every run the list is in the order in which its peers were last active |
| `UdpForward.EvictsLeastActive` | service/udp_forwarding.go:180-223 | in every run a connection is evicted only from a full table for a peer that has none, and no other connection of the table was less recently active than it |
| `UdpForward.VictimIsClosed` | service/udp_forwarding.go:180-207 | the evicted connection is closed before the datagram that it made room for is queued |
| `UdpForward.RemovesOnlyItself` | service/udp_forwarding.go:306-316 | a connection removes its peer's entry exactly if the entry is its own |
| `UdpForward.RefusedExactly` | service/udp_forwarding.go:380-398 | a datagram is refused at the budget exactly if what it accounts for, the whole buffer for a pooled one, does not fit into what is left of a positive budget |
| `UdpForward.TakenExactly` | service/udp_forwarding.go:423-436 | a datagram is taken exactly while the connection is open and its queue has room, and is then the last one |
| `UdpForward.UdpForwarder.GetOrCreateConnection` | service/udp_forwarding.go:180-207 | as specified, with an evicted connection closed |
| `UdpForward.UdpForwarder.MakeRoomLocked` | service/udp_forwarding.go:209-223 | as specified |
| `UdpForward.UdpForwarder.Remove` | service/udp_forwarding.go:306-316 | as specified |
| `UdpForward.UdpForwarder.ReserveDatagram` | service/udp_forwarding.go:380-398 | accepted exactly if the budget allows it, and accounted exactly then |
| `UdpForward.UdpForwarder.HandleOwned` | service/udp_forwarding.go:168-178 | a datagram that is taken is the last of its peer's queue, one that is not leaves the queue as it was, and the counter grows exactly by what was taken, within the budget |
| `UdpForward.UdpConnection.Offer` | service/udp_forwarding.go:423-436 | refused exactly when closed or full |
| `IpResource.Match` | internal/ipresource/index.go:77-88 | for every rule list, address, protocol, port and filter, exactly the first (or last) rule of the original list that applies, or none; none without an index |
| `IpResource.MatchNode` | internal/ipresource/index.go:90-108 | a search that leaves out subtrees updates `best` as a pass over all elements would |
| `IpResource.ScanMeans` | internal/ipresource/index.go:77-108 | the linear scan that Match is compared with, by the rules' own fields: the first (or last) rule whose range holds the address, whose protocol is the destination's or all, whose ports hold the port except for ICMP, and which the caller accepts; none exactly if there is no such rule or the destination is not IPv4 |
| `IpResource.BuildHolds` | internal/ipresource/index.go:43-59 | the tree holds the sorted rules in order, and no end below a node is greater than its maxEnd |
| `IpResource.AnySortFinds` | internal/ipresource/index.go:29-41 | the result does not depend on how the sort leaves rules with equal start addresses |
| `IpResource.Index.constructor` | internal/ipresource/index.go:29-41 | the loop keeps exactly the rules with a valid range, with their places |
| `IpResource.SortKeeps` | internal/ipresource/index.go:39-40 | sorting gives the same elements, by start address |
| `IpResource.SortIsStable` | internal/ipresource/index.go:39-40 | for every start address, the rules that start there come out in the order in which they went in, none lost and none added |
| `Bytes.WhatIsIPv4` | internal/ipresource/index.go:110-116 | an address is one of IPv4 exactly if it has four octets, which are the address, or the IPv4-mapped prefix and then the address |
| `Bytes.AddressOrder` | internal/ipresource/index.go:110-116 | addresses compare as numbers as their octets do, the first difference deciding |
| `Routing.ChosenTransportAccepts` | dial/dialer.go:116-134 | with known application ids, a TCP destination routed by an address rule is accepted by the transport the stack picks: the TCP tunnel's last match exists if L3 is not preferred; if it is, no rule avoids L3 and the L3 tunnel finds the very rule the dialer chose; a stack with only the TCP tunnel is accepted either way |
| `Routing.WhatTransportsAccept` | client/atrust/tcptunnel.go:454-464 | each lookup succeeds if and only if a rule with the right preference applies |
| `Routing.UdpTakesTheSameRule` | client/atrust/l3tunnelpacket.go:43-47 | UDP goes to the rule that the L3 tunnel will find for its packets |
| `Routing.InVpnExactlyByRule` | dial/dialer.go:72-145 | a TCP or UDP destination goes into the VPN if and only if a domain or address rule applies, and otherwise is denied or dialled directly as configured |
| `Routing.NotIntoVpn` | dial/dialer.go:72-145 | what is refused as a bad address, denied, dialled directly or unsupported, for every network and configuration; a domain rule settles the matter before any address rule is looked at |
| `Routing.DomainRuleTaken` | dial/dialer.go:196-205 | the dialer takes the first usable domain rule, except that for TCP the first one that does not prefer L3 comes before any that does |
| `Routing.AppOfLastRule` | client/atrust/tcptunnel.go:454-464 | without a domain rule a TCP tunnel connection is for the application of the last rule for the address that does not prefer L3, or for a caller that ignores the preference the last of all if there is none such |
| `Routing.DomainRuleAccepted` | client/atrust/tcptunnel.go:482-515 | a destination routed by a domain rule that does not prefer L3 is carried for that rule's application, and such a rule is taken whenever there is one |
| `Routing.DomainRuleOnL3` | client/atrust/l3tunnelpacket.go:16-47 | a destination that a domain rule sends to the L3 tunnel is accepted there if and only if an address rule applies that, for TCP, prefers L3; the TCP tunnel refuses such a TCP destination |
| `Routing.DomainRuleAloneIsRefused` | dial/dialer.go:104-134 | a domain rule that prefers L3, with no address rule, routes a connection that neither tunnel takes |
| `DomainIndex.Match` | resolve/domain_index.go:53-78 | exactly what filtering all suffixes of the host finds, and that means: something is found exactly if some rule covers the host, a wildcard `*.d` what ends in `.d`, a plain `d` itself and what ends in `.d`; the resources are those of exactly the covering rules, most specific first, and the domain is the first of the most specific rules' |
| `DomainIndex.Index.constructor` | resolve/domain_index.go:23-51 | for rules in any order, the tree files under each normalised name the first rule's domain and all resources in order |
| `DomainIndex.Index.Insert` | resolve/domain_index.go:27-48 | the tree stays sound and gains exactly one rule |
| `DomainIndex.Index.Search` | resolve/domain_index.go:57-67 | walking down until the tree ends meets every filed suffix at a label boundary, shortest first |
| `DomainIndex.MetIsFilter` | resolve/domain_index.go:53-78 | the entries met on the walk are the linear filter's names |
| `DomainIndex.FilterMeansCovering` | resolve/domain_index.go:53-78 | the filter over names finds exactly what the rules cover by their own text |
| `DomainIndex.NameMeansRule` | resolve/domain_index.go:26-32 | the name a rule is filed under matches exactly the hosts that the rule covers, for every normalisation |
| `DomainIndex.WildcardsOnlyBelow` | resolve/domain_index.go:27-29 | a wildcard covers everything below its apex, not the apex, and nothing that merely ends in the same letters |
| `PacketSplit.SplitIncomingIPPackets` | client/atrust/l3tunnelconn.go:790-820 | the loop ends and computes the specified split or error |
| `PacketSplit.SplitIsExact` | client/atrust/l3tunnelconn.go:790-820 | packets and rest are the input; each packet has exactly the length that its own octets declare, total length for version 4 and payload length behind 40 octets for version 6; the rest is the start of such a packet |
| `PacketSplit.SplitOfWholePackets` | client/atrust/l3tunnelconn.go:790-820 | whole packets, by their own octets, one after the other come out as they went in, whatever start of a packet follows them |
| `PacketSplit.FirstPacketComesOut` | client/atrust/l3tunnelconn.go:790-820 | whatever begins with a whole packet delivers it first and then what the rest of the stream holds |
| `PacketSplit.BadExactly` | client/atrust/l3tunnelconn.go:793-812 | which first octets make a stream malformed and with which error: another version, or an IPv4 packet whose header is shorter than 20 octets or longer than the packet |
| `PacketSplit.SplitGoesOn` | client/atrust/l3tunnelconn.go:790-820 | splitting more of the stream goes on where splitting its beginning stopped; an error stays the same error |
| `PacketSplit.ChunkingDoesNotMatter` | client/atrust/l3tunnelconn.go:256-273 | however the stream is cut, the reading loop fails exactly when the whole stream is malformed, with the same error, and otherwise has delivered the whole stream's packets and buffered its rest |
| `PacketSplit.MalformedDropsPackets` | client/atrust/l3tunnelconn.go:256-262 | on a malformed stream the delivered packets are a beginning of the good ones, and all of them if and only if the last buffer held none |
| `PacketSplit.SamePacketsSplitDifferently` | client/atrust/l3tunnelconn.go:256-262 | one malformed stream whose good packet is delivered or dropped depending on the cut |
| `PacketSplit.ParseDataPayload` | client/atrust/l3tunnelconn.go:747-776 | the loop parses as specified, with each error case |
| `PacketSplit.FrameRoundTrip` | client/atrust/l3tunnelconn.go:720-776 | a packet comes back out of its frame if its token fits the length byte and it fits its length field |
| `PacketSplit.FrameLayout` | client/atrust/l3tunnelconn.go:720-735 | the frame octet by octet: version, command, token behind its length, two reserved octets, a count of one, the packet behind its length |
| `PacketSplit.PayloadParses` | client/atrust/l3tunnelconn.go:747-776 | a payload of any packets behind their lengths gives these packets if its count says so many; if it says more, the error is the one for where the payload ends |
| `PacketSplit.HeadCutShort` | client/atrust/l3tunnelconn.go:747-755 | a payload is too short, or short of its token, exactly by its length and its first octet |
| `TcpFraming.RoundTrip` | client/atrust/tcptunnel.go:285-386 | any writes, read with buffers of any sizes, give a beginning of the written bytes; the end is reported only after the last byte, and at the latest after as many non-empty buffers as there are bytes |
| `TcpFraming.TruncationIsSilent` | client/atrust/tcptunnel.go:285-346 | when the connection ends after any number of bytes, enough reads return exactly the payload of the frames that came whole, and report a regular end if and only if the cut falls between two frames or right behind a header; bytes are missing if and only if it comes before the last frame's end |
| `TcpFraming.HeaderThenNothing` | client/atrust/tcptunnel.go:307-326 | a stream of one byte cut right behind the header reads as an empty stream with a regular end |
| `TcpFraming.ReadsArePrefix` | client/atrust/tcptunnel.go:285-346 | from any state of the reader, leftovers of a frame included, and for a stream cut off anywhere: the reads return a beginning of what arrives, all of it once they report an end, and that end is the one the cut stands for |
| `TcpFraming.TcpTunnelConn.Read` | client/atrust/tcptunnel.go:285-346 | what is put into the caller's buffer, the leftover and the outcome, empty frames skipped, bad headers and short input included; the rest of the buffer is untouched, except that a read which fails in the middle of a payload leaves the last bytes of the input in it, or none |
| `TcpFraming.TcpTunnelConn.Write` | client/atrust/tcptunnel.go:348-386 | what the connection has taken is the encoding of exactly the bytes reported as written, on success and on failure |
| `TcpFraming.TcpTunnelConn.CloseWrite` | client/atrust/tcptunnel.go:404-417 | takes effect once, by an end frame or by half-closing the transport |
| `TcpFraming.EncodeAppend` | client/atrust/tcptunnel.go:370-382 | writing chunk by chunk encodes as the whole does |
| `TcpFraming.WireFormat` | client/atrust/tcptunnel.go:370-382 | the octets of a frame, its length with the high octet first, and of the end frame |
| `TcpFraming.BadHeaderExactly` | client/atrust/tcptunnel.go:307-346 | any header but those of a data frame and the end frame is reported as bad, and the end frame is the regular end |
| `IpPool.RunKeeps` | internal/ippool/ippool.go:54-120 | in every run the two maps are inverse, the cursor stays in range and within 32 bits, every address it passed is mapped, and a mapped address of the range stays mapped |
| `IpPool.AddressIsKept` | internal/ippool/ippool.go:54-120 | a name keeps its address of the range if and only if the address is not given to another name from outside |
| `IpPool.NeverTwoNames` | internal/ippool/ippool.go:91-120 | GenerateIP gives one address to two names only with a reassignment by SetIPDomain in between |
| `IpPool.ReassignedTwice` | internal/ippool/ippool.go:54-120 | in the pool of a network of four addresses such a reassignment happens, after which the first name finds the pool exhausted |
| `IpPool.GeneratedIsOwnOrFree` | internal/ippool/ippool.go:91-120 | a generated address is the name's own or was unmapped, and no other name is affected |
| `IpPool.SetMeans` | internal/ippool/ippool.go:54-89 | setting an address makes it stand for the name and the resource, unless the name has an address of the range, which then stands for the new resource; only the name that had the address loses it |
| `IpPool.ExhaustedExactly` | internal/ippool/ippool.go:91-120 | exhaustion is reported if and only if every address of the range is mapped and the name has none of them; an address outside the range is forgotten even then |
| `IpPool.NewPoolOk` | internal/ippool/ippool.go:28-52 | a new pool of any size up to the whole address space satisfies the invariant |
| `IpPool.PoolOfNetwork` | internal/ippool/ippool.go:28-52 | the pool of a network begins at the network's first address, hands out addresses from the third to the last but one, and is refused exactly for prefixes above 30 and for other addresses than IPv4 |
| `IpPool.RangeFits` | internal/ippool/ippool.go:42-44 | the last address of the range is below the top of the 32-bit range, so the cursor never wraps |
| `IpPool.IPPool.SetIPDomain` | internal/ippool/ippool.go:54-89 | the two maps over shared entries are updated as specified |
| `IpPool.IPPool.GenerateIP` | internal/ippool/ippool.go:91-120 | as specified, with the cursor loop finding the first unmapped address |
| `IpPool.IPPool.GetDomain` | internal/ippool/ippool.go:122-139 | the name and resource of an address, or none |
| `Checksum.FoldingChecksum` | underlay/pcap.go:305-318 | the loops compute the RFC 1071 checksum of up to 131074 bytes without leaving 32 bits |
| `Checksum.Sum` | internal/zctcpip/tcpip.go:5-18 | the same sum with the odd byte added first |
| `Checksum.TwoFoldChecksum` | internal/zctcpip/tcpip.go:21-29 | two folds of a 32-bit sum give the checksum's bytes, for any initial sum that does not overflow |
| `Checksum.TwoFoldsSuffice` | internal/zctcpip/tcpip.go:21-29 | for every 32-bit sum, folding twice is folding until nothing is left to fold |
| `Checksum.BothAgree` | internal/zctcpip/tcpip.go:21-29 | both implementations give the same checksum on every input within the bound |
| `Checksum.FieldVerifies` | underlay/pcap.go:305-318 | data whose checksum, computed over a zero field, is put into that field verifies to zero |
| `Checksum.AllOnes` | underlay/pcap.go:305-309 | the bound is exact: 65537 words of ones fill 32 bits, and the sum of 65538 no longer fits them |
| `Pcap.IPv4PacketVerifies` | underlay/pcap.go:248-270 | for all addresses, ports, sequence numbers and payloads up to 60000 bytes every field of both headers has the value and the place that RFC 791 and RFC 9293 give it, and header and segment with pseudo-header verify to zero |
| `Pcap.IPv6PacketVerifies` | underlay/pcap.go:272-293 | the same for IPv6, with the header and the pseudo-header of RFC 8200 |
| `Pcap.SerializeIPv4TCP` | underlay/pcap.go:248-270 | the buffer filled in place is that packet |
| `Pcap.SerializeIPv6TCP` | underlay/pcap.go:272-293 | the buffer filled in place is that packet |
| `Pcap.WriteTCPHeader` | underlay/pcap.go:295-303 | the field writes, one after the other, are the header, and nothing else is touched |
| `Pcap.StreamState.Packet` | underlay/pcap.go:221-246 | direction and address family choose the packet; mixed families are refused; the sequence number advances by the payload |
| `Pcap.SequenceFollowsPayload` | underlay/pcap.go:221-234 | after any events each direction's next sequence number is its first plus the bytes it carried, modulo 2^32 |
| `Pcap.SegmentsFollow` | underlay/pcap.go:129-246 | the packet of a payload after any events of a connection: refused exactly for endpoints of different families, otherwise from sender to receiver in the IP header and the ports, numbered by the bytes its direction carried before and acknowledging those of the other, modulo 2^32 from the connection's own first numbers |
| `Pcap.CapturePayload` | underlay/pcap.go:198-214 | the pieces are the payload in order, none empty and each within a packet |
| `Nonce.StepIsInvertible` | client/atrust/auth/anti_mitm.go:153-153 | multiplication by the inverse modulo 2147483647 undoes a step |
| `Nonce.StaysInCycle` | client/atrust/auth/anti_mitm.go:153-153 | the state stays in 1..2147483646 and the product within 64 bits |
| `Nonce.RejectedOnce` | client/atrust/auth/anti_mitm.go:154-157 | a rejected draw is followed by an accepted one |
| `Nonce.DrawsAreBounded` | client/atrust/auth/anti_mitm.go:145-161 | exactly as many bytes as asked for, from at most two draws each |
| `Nonce.DrawsFollowTheSequence` | client/atrust/auth/anti_mitm.go:145-161 | the bytes are the low bytes of the accepted values of the sequence `48271^n * state` modulo 2147483647, in order and none left out, and drawing stops at the last one needed |
| `Nonce.BytesAreUniform` | client/atrust/auth/anti_mitm.go:146-158 | the step permutes the cycle, so every byte value is drawn next from the same number of states |
| `Nonce.ZeroWouldNotEnd` | client/atrust/auth/anti_mitm.go:135-140 | state zero, which seeding avoids, would never yield a byte |
| `Nonce.Generator.SangforNonceBytes` | client/atrust/auth/anti_mitm.go:145-161 | the rejection loop ends and yields the specified bytes and state |
| `Nonce.Generator.SangforNonce` | client/atrust/auth/anti_mitm.go:131-143 | the nonce is the upper-case hexadecimal form of the 32 bytes drawn from the state, or from the clock's seed at first; 64 digits, and the state stays in its cycle |
| `Nonce.HexIsReadable` | client/atrust/auth/anti_mitm.go:142-142 | two digits a byte, high half first |

## Left out

- The TLS transport, deadlines, goroutine scheduling and liveness: a step that is enabled may be delayed for ever.
- A frame whose write fails part way: a failed write counts as nothing written, so bytes of it on a connection that is
  then unusable are not modelled.
- getByAuthResponseIP: the answered flow is an arbitrary id, which covers every flow that search could return.
- The 64-bit counter of authentication ids is unbounded here.
- ConntrackManager.L3TunnelConn.DispatchPendingAuth: all batches of one dispatch see one clock reading and give one deadline, and which requests cannot be written is fixed beforehand.
- TcpTrack.StateIsJustified: takes the flag bits, sequence and acknowledgment numbers as inputs; decoding them from the header is not modelled.
- Conntrack keys and network addresses of the UDP forwarder are opaque strings; their formatting is not modelled.
- ConntrackMgr's recency list is a sequence of references with the linked list's operations, not linked elements.
- readFrame, heartbeats, the initial handshake and virtual-address updates of the L3 connection.
- The lookup behind a shared DNS resolution is an arbitrary answer; caches, the secondary resolver and the fallback between UDP and TCP are not modelled.
- L3Tunnel.StepKeeps: forwarding goroutines are not threads of their own; their evictions and reconnects may happen at any time.
- UdpForward.BudgetIsKept: the buffer pool and the proxy connection of a UDP peer are not modelled, only the bytes they account for.
- UdpForward.UdpForwarder.ReserveDatagram: runs with nobody in between, so its swap succeeds at once; the retries are steps of the protocol.
- DomainIndex.Index.constructor: hostname normalisation (trimming, lower case, the final dot) is an arbitrary function.
- TcpFraming.TcpTunnelConn.Read: models the framed mode; in raw mode bytes are passed through unchanged.
- TcpFraming.TcpTunnelConn.Write: models the framed mode, and a frame is taken whole or not at all.
- IpPool.IPPool.constructor takes a parsed network; parsing the CIDR text is not modelled.
- The capture file's record headers and writer goroutine.
- Routing of hosts to direct connections and proxies, and the login chain, key derivation and signatures around the nonce.
- Desktop interface, TUN and gVisor stacks, configuration and resource parsing: library and system calls.
