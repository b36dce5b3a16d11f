# zju-connect in Dafny

A model of the parts of zju-connect where state is shared, or where a fast
structure stands in for a plain definition, with proofs that hold for every
input, every run and every interleaving.

**The aTrust L3 tunnel.** Packets of one flow wait until the server has
authenticated the flow. `TcpTracker` follows a flow's TCP state over packet
traces. `FlowTable` and `AuthQueue` give the conntrack table as a value, with
one function for each section the program runs under the table's mutex and the
invariant they all keep. `ConntrackMgr` is the same table as the program has
it: flow objects shared by two maps and a list, updated in place, each method
tied to its function. `FlowRuns` proves what holds over runs of sections:
results are final, timeouts are bounded, no flow is authenticated twice without
a reason. `FlowDeadlines` follows the deadline of a request over runs: what a
timeout does to a flow that has its result, and what becomes of a flow that was
started and never got a deadline. `FlowLife` says on the fields of the flows which
one a key finds, how long it is kept, and which one makes room. `FlowProtocol`
takes `WritePacket` and `completeAuthentication` apart into steps that interleave
with every section, with a flow's send lock as an explicit owner, and proves the
order and the authentication of what reaches the wire, what settles the fate of
each packet, and that no packet is lost silently. `AuthDispatch` is the
connection's side: batches of requests, responses, and the two write paths run in
one piece.

**Two protocols that share one attempt.** `SharedResolution` shares one DNS
lookup per host among its callers, `ConnectSharing` one connection attempt per
node group. Both are transition systems over the sections under a mutex, with an
inductive invariant and a way out for everyone who waits, beside an object whose
methods are those sections.

**The UDP forwarder.** `UdpBudget` follows every datagram from the socket to its
release under a global byte budget; `UdpTable` is the bounded table of
connections, a map and a list that evicts the least recently active one.

**Indexes that must equal a plain scan.** `ResourceIndex` is the augmented
interval tree over IP resources, `DecisionCache` the ring-bounded cache in front
of it, `DomainIndex` the suffix trie over domain patterns. `RouteAcceptance`
rests on them: a choice made by the IP index, in the dialer or in the TUN stack,
is accepted by the layer it is handed to; a choice made by name need not be, and
for TCP the condition under which it is refused is exact.

**Codecs and arithmetic.** Beside their round trips, what they make of their input
is stated on its bytes. `FramedStream` is the framed TCP tunnel,
`PacketSplitter` the incremental IP packet splitter, `Checksum` the two Internet
checksum implementations (section 1 of RFC 1071), `PcapPackets` the packets
written for a capture file, `CandidateSelection` the event loop that picks an
address among racing DNS sources. `Prelude` holds shared vocabulary.

Where the code is weaker than one would like, the model keeps the code and the
proofs say what does hold, with the exact condition and a run or an input that
shows it: `expireAuth` charges a flow that is already authenticated, once, when a
deadline was left, and removes it when two timeouts came before; a failed send
leaves the rest of its batch started without a deadline, to wait until something
else ends it; a reply may arrive before its request is marked as sent; the
splitter drops valid packets that arrive together with an invalid one; two domains
with one pattern make the reported domain depend on the iteration order of a map;
a connection whose domain resources leave it to L3 is refused when no L3 resource
covers its address; of the two forms of zero that a stored checksum can have,
`Verify` accepts one, and it accepts headers too short for their checksum field.

`dafny verify dfyconfig.toml` checks the whole project.

## Model

| member | source | states |
|---|---|---|
| TcpTracker.EveryTraceExplained | client/atrust/l3tunnelconntrack.go:191-266 | after any packet trace, the state and the recorded sequence number are accounted for by packets since the last reset, and the lifetime is that of the state: the long one only with a handshake, a FIN keeping what it finds, an untracked flow living on its default or on what a reset left it |
| TcpTracker.LongLifetimeNeedsHandshake | client/atrust/l3tunnelconntrack.go:198-240 | the six-hour lifetime is held only if, since the last reset, a SYN was followed by a packet acknowledging the recorded sequence number plus one modulo 2^32 |
| TcpTracker.FirstClosedNeedsBothFins | client/atrust/l3tunnelconntrack.go:242-266 | each first-closed state is entered only after FINs in both directions, in the order its name says |
| TcpTracker.OnlyResetLeavesFirstClosed | client/atrust/l3tunnelconntrack.go:193-197 | from a first-closed state no trace without RST changes anything |
| TcpTracker.ResetForgets | client/atrust/l3tunnelconntrack.go:193-197 | what came before an RST has no influence on state and lifetime after it |
| TcpTracker.HandshakesEstablish | client/atrust/l3tunnelconntrack.go:205-240 | conversely, both three-way handshakes do reach the six-hour lifetime from any untracked state |
| TcpTracker.LandmarksDecide | client/atrust/l3tunnelconntrack.go:191-266 | on every trace the state machine agrees with a search of the whole trace: state, sequence number and lifetime are what the first SYN since the last reset, its answer, its confirmation and the FINs after it say |
| TcpTracker.BothFinsClose | client/atrust/l3tunnelconntrack.go:235-266 | from an established flow, or one still waiting for its confirmation, FINs in both directions close it in the order in which they came, whatever comes between, with 120 or 30 seconds left |
| FlowTable.RemoveTwice | client/atrust/l3tunnelconntrack.go:442-464 | removing two sets of flows one after the other, with an error each, unlinks their union; a flow of both sets keeps the error of the first removal |
| FlowTable.RemoveUnindexes | client/atrust/l3tunnelconntrack.go:453-464 | a removal takes a flow out of both maps and of the list together, and touches no other flow's entries |
| FlowTable.RemoveKeepsInv | client/atrust/l3tunnelconntrack.go:442-451 | removal keeps the table invariant: both maps and the list hold the same flows once each, sorted by last use; every unindexed flow has its result; every flow with a result has an empty queue |
| FlowTable.IndexesHaveOneSize | client/atrust/l3tunnelconntrack.go:143-148 | by the invariant both maps and the list have one size, so the test on one of them bounds all three |
| FlowTable.TouchKeepsInv | client/atrust/l3tunnelconntrack.go:159-161 | moving a flow to the back with a clock that does not run backwards keeps the invariant, sortedness included |
| FlowTable.AddKeepsInv | client/atrust/l3tunnelconntrack.go:143-149 | a new flow enters both maps and the list, after the oldest made room, within maxEntries |
| FlowTable.GetOrCreateKeepsInv | client/atrust/l3tunnelconntrack.go:118-150 | getOrCreate keeps the invariant through expiry, reuse, eviction of the oldest and a closed table, and returns a flow of the key, indexed unless the table is closed |
| AuthQueue.ApplyKeepsInv | client/atrust/l3tunnelconntrack.go:118-473 | every section under the table mutex keeps the invariant, for all arguments and a clock that does not run backwards |
| AuthQueue.CompleteKeepsInv | client/atrust/l3tunnelconntrack.go:272-296 | completeAuth keeps the invariant on success and on failure |
| AuthQueue.ExpireAuthKeepsInv | client/atrust/l3tunnelconntrack.go:366-387 | expireAuth keeps the invariant, flows with a result included |
| AuthQueue.ExpireFlowByFlow | client/atrust/l3tunnelconntrack.go:373-382 | a timeout pass changes each due flow on its own, and no other: retry while attempts are left, removal at the third timeout |
| AuthQueue.CloseKeepsInv | client/atrust/l3tunnelconntrack.go:466-473 | close leaves an empty, closed table that satisfies the invariant |
| ConntrackMgr.Conntrack.ObserveTCP | client/atrust/l3tunnelconntrack.go:191-255 | the branches that update one flow's tracker in place compute the tracker function whose traces are characterised above |
| ConntrackMgr.Conntrack.Observe | client/atrust/l3tunnelconntrack.go:163-187 | the in-place update for one observed packet: metadata, tracker and expiry |
| ConntrackMgr.Mgr.RemoveLocked | client/atrust/l3tunnelconntrack.go:442-451 | removing a flow object changes the maps, the list and the flow exactly as the table function says |
| ConntrackMgr.Mgr.GetByID | client/atrust/l3tunnelconntrack.go:99-103 | returns the flow object the table names, or null exactly when it names none |
| ConntrackMgr.Mgr.GetOrCreate | client/atrust/l3tunnelconntrack.go:118-150 | on shared objects, maps and list: same new table and same flow as the table function |
| ConntrackMgr.Mgr.ObservePacket | client/atrust/l3tunnelconntrack.go:152-189 | reports whether the key is known, and leaves the table the table function gives |
| ConntrackMgr.Mgr.CompleteAuth | client/atrust/l3tunnelconntrack.go:272-296 | the new table, and exactly the packets that waited when the authentication succeeds |
| ConntrackMgr.Mgr.CachePacket | client/atrust/l3tunnelconntrack.go:298-321 | a listed flow without a result takes the packet and its metadata when fewer than 1024 wait and is full otherwise; one with a result, or not listed, refuses it with its error and stays as it was |
| ConntrackMgr.Mgr.AuthResult | client/atrust/l3tunnelconntrack.go:323-332 | token and error of the one result, or none yet |
| ConntrackMgr.Mgr.NextAuthBatch | client/atrust/l3tunnelconntrack.go:334-352 | the list walk starts exactly the chosen flows, returns a job for each with its metadata, and tells whether more are eligible |
| ConntrackMgr.Mgr.MarkAuthSent | client/atrust/l3tunnelconntrack.go:354-364 | sets the deadline of a flow that has no result yet, and nothing else |
| ConntrackMgr.Mgr.ExpireAuth | client/atrust/l3tunnelconntrack.go:366-387 | the walk that unlinks while it iterates has the effect of the set-wise definition and returns the number of flows removed |
| ConntrackMgr.Mgr.RetryAuth | client/atrust/l3tunnelconntrack.go:389-405 | reschedules a flow without a result; reports exactly whether there was one |
| ConntrackMgr.Mgr.Remove | client/atrust/l3tunnelconntrack.go:407-413 | removes the flow of a key, if any |
| ConntrackMgr.Mgr.RemoveExpired | client/atrust/l3tunnelconntrack.go:415-434 | the walk that unlinks while it iterates removes exactly the expired flows |
| ConntrackMgr.Mgr.RemoveOldest | client/atrust/l3tunnelconntrack.go:436-440 | removes the front of the list |
| ConntrackMgr.Mgr.Close | client/atrust/l3tunnelconntrack.go:466-473 | whatever the iteration order of the map, every indexed flow is removed with the closed error |
| FlowRuns.EveryOpEvolves | client/atrust/l3tunnelconntrack.go:118-473 | in one section no flow changes identity, no latched result changes, no removed flow comes back, and a queue changes only by queueing, by success, or by being lost together with a latched error |
| FlowRuns.EveryRunKeepsInv | client/atrust/l3tunnelconntrack.go:118-473 | the table invariant holds after any run of sections |
| FlowRuns.ResultsAreFinal | client/atrust/l3tunnelconntrack.go:279-290 | over any run each latch closes at most once: a flow that has its result keeps it |
| FlowRuns.EvictionFallbackUnreachable | client/atrust/l3tunnelconntrack.go:301-308 | the fallback error for an evicted flow without a result is never returned |
| FlowRuns.BatchIsFirstEligible | client/atrust/l3tunnelconntrack.go:339-351 | a flow is in the batch if and only if it is eligible and fewer than limit eligible flows precede it in the list |
| FlowRuns.ChosenAreWaiting | client/atrust/l3tunnelconntrack.go:341 | only indexed, unauthenticated, not yet started flows with queued packets are chosen |
| FlowRuns.BookkeepingFollowsEvents | client/atrust/l3tunnelconntrack.go:334-405 | the attempt counter and the started mark change only by being chosen, by a timeout, or by a server retry; retries charge nothing |
| FlowRuns.AuthenticationDiscipline | client/atrust/l3tunnelconntrack.go:334-405 | over any run: never chosen twice without a timeout or a retry in between; at most three timeouts are charged to a flow, at most two while it is indexed |
| FlowLife.ExpiryIsExact | client/atrust/l3tunnelconntrack.go:421-434 | expiry unlinks exactly the flows whose time is over, by the table's fixed time or by their own; those without a result fail as evicted, the others stay as they were |
| FlowLife.LiveKeyKeepsItsFlow | client/atrust/l3tunnelconntrack.go:118-127 | a key with a live flow finds that flow, seen now and moved to the back of the list; nothing live is lost |
| FlowLife.NoLiveFlowMakesOne | client/atrust/l3tunnelconntrack.go:128-149 | a key without a live flow gets a new one, with 60 seconds to live, under its key unless the table is closed |
| FlowLife.LeastRecentMakesRoom | client/atrust/l3tunnelconntrack.go:143-148 | a new flow costs no live flow while there are fewer than the maximum; in a table full of live flows it costs exactly the one seen the longest ago |
| FlowLife.ObservingMeans | client/atrust/l3tunnelconntrack.go:152-189 | an observation changes the flow of its key only: it is seen now, its tracker has observed the segment, and it lives for the tracker's lifetime or for 120, 30 or 60 seconds |
| FlowLife.LifeFollowsObservations | client/atrust/l3tunnelconntrack.go:118-189 | over any run, a flow's tracker has run over exactly the segments observed under its key, its end is the one its last observation set, and its last use is its creation, an observation or a look-up |
| FlowLife.RemovalIsExact | client/atrust/l3tunnelconntrack.go:407-413 | removing a key unlinks its flow and no other, and fails it if it has no result |
| FlowLife.ClosingIsFinal | client/atrust/l3tunnelconntrack.go:466-473 | close empties the table and fails every flow without a result as closed |
| FlowLife.RetryTimeOf | client/atrust/l3tunnelconntrack.go:366-405 | when a flow may be asked for again is set by a server's retry, to now plus its delay, and by a timeout that leaves attempts, to now; by nothing else |
| FlowLife.BatchTakesTheFirst | client/atrust/l3tunnelconntrack.go:334-352 | a batch starts exactly the first flows of the list, up to the limit, that have packets waiting, no request out and no time left to wait; more is reported exactly when there are more |
| FlowLife.RetryIsHonoured | client/atrust/l3tunnelconntrack.go:334-405 | over any run, a flow told to wait is in no batch that reads a clock before its time, until another retry or a timeout pass |
| FlowDeadlines.DeadlineOf | client/atrust/l3tunnelconntrack.go:354-405 | a flow's deadline is set by marking its request as sent and cleared by a retry or a timeout that leaves attempts; no other section changes it, completeAuth included |
| FlowDeadlines.DeadlinesFollowStarts | client/atrust/l3tunnelconntrack.go:341-405 | over any run: flows not started never have a deadline, if and only if no request is marked as sent after the retry that overtook it |
| FlowDeadlines.RetryOvertakesMark | client/atrust/l3tunnelconntrack.go:354-405 | a run in which it does: an unstarted flow with the deadline of its last request |
| FlowDeadlines.StrandedStays | client/atrust/l3tunnelconntrack.go:334-405 | over any run without a retry, a result or a chosen request for it: a flow that is started, without deadline and without result is never chosen and never due, and stays so until it is removed with an error |
| FlowDeadlines.ChargedIffDue | client/atrust/l3tunnelconntrack.go:373-382 | a timeout pass charges exactly the listed flows whose deadline has passed, authenticated or not, and removes exactly those of them charged twice before |
| FlowDeadlines.OneTimeoutAfterResult | client/atrust/l3tunnelconntrack.go:272-296 | over any run, a flow with a result is never started or retried; at most one timeout is charged to it, and none unless a deadline was left when the result came |
| FlowDeadlines.AuthenticatedFlowTimesOut | client/atrust/l3tunnelconntrack.go:366-387 | a run from the empty table in which a flow authenticated at its third request is removed by a timeout pass |
| FlowProtocol.EveryStepKeepsInv | client/atrust/l3tunnelconn.go:420-458 | each step of WritePacket and completeAuthentication, and every other section at any moment, keeps the protocol invariant with the send lock as an explicit owner |
| FlowProtocol.EveryRunKeepsProtocol | client/atrust/l3tunnelconn.go:420-613 | the protocol invariant holds in every state of every interleaving |
| FlowProtocol.WireIsOrderedAndAuthenticated | client/atrust/l3tunnelconn.go:420-458 | the frames of one flow are an in-order subsequence, without repeats, of the packets given to WritePacket for it, all with the token of its one successful authentication, none before it |
| FlowProtocol.NoSilentLoss | client/atrust/l3tunnelconn.go:426-443 | the silent outcome of cachePacket does not occur; after success and flush, with no write refused, the packets accepted and the packets on the wire are the same |
| FlowProtocol.FatesAreEarned | client/atrust/l3tunnelconn.go:426-443 | over any run a packet's fate is settled once, by its own call: queued only when fewer than 1024 wait, dropped only when 1024 do, written only under the flow's token, failed only by a refused write or the flow's error |
| FlowProtocol.CachingEnds | client/atrust/l3tunnelconntrack.go:298-321 | a writer that finds no result queues its packet at the back when fewer than 1024 wait, drops it when 1024 do, and fails with the flow's error; the whole next state |
| FlowProtocol.CheckingDecides | client/atrust/l3tunnelconn.go:426-434 | what authResult tells a writer decides exactly: queue, fail, or send with the flow's token |
| FlowProtocol.SendingEnds | client/atrust/l3tunnelconn.go:446-458 | a send puts the writer's packet on the wire under the flow's token, or fails the call and writes nothing |
| FlowProtocol.CallsGiveTheirPacket | client/atrust/l3tunnelconn.go:420-424 | a call waits on the flow of its key, and once it has the lock its packet is the last one given to that flow |
| FlowProtocol.QueueBounded | client/atrust/l3tunnelconntrack.go:314-316 | a flow's queue never exceeds 1024 packets |
| AuthDispatch.BatchIsFresh | client/atrust/l3tunnelconntrack.go:339-351 | a batch names unstarted flows without a result, each once, and is not empty while more are eligible |
| AuthDispatch.NoneLeft | client/atrust/l3tunnelconntrack.go:344-347 | when no more are reported, nothing that was eligible is left unstarted |
| AuthDispatch.AfterBatch | client/atrust/l3tunnelconn.go:489-504 | one dispatch round: what was started adds up, the invariant holds also when a send failed in the middle, and with more to come the number of unstarted flows falls |
| AuthDispatch.L3TunnelConn.SendBatch | client/atrust/l3tunnelconn.go:492-499 | succeeds if and only if every write is accepted; then every flow of the batch has its deadline. Otherwise it stops at the first write that is not, fails that flow and closes the connection |
| AuthDispatch.AfterFailure | client/atrust/l3tunnelconn.go:493-497 | what a failed send leaves, flow by flow: those before it started with their deadlines, its own removed with the error, those after it started with the deadline they had |
| AuthDispatch.RestIsStranded | client/atrust/l3tunnelconn.go:493-497 | when unstarted flows had no deadline, the rest of a failed batch is stranded: started, no deadline, no result |
| AuthDispatch.L3TunnelConn.DispatchPendingAuth | client/atrust/l3tunnelconn.go:489-504 | the loop terminates and succeeds when every write is accepted: each flow started got exactly one request, accepted, and its deadline, and nothing eligible is left. Otherwise table and requests are those of the whole rounds and of the first part of the next batch, up to the first write that is not accepted, and the connection is closed |
| AuthDispatch.ResponsesSettle | client/atrust/l3tunnelconn.go:523-561 | what any response does to any flow: nothing unless it is about a waiting flow; then 0x84 to 0x87 schedule its next request and charge nothing, 0 gives it the token, any other status or the end of the session removes it with an error |
| AuthDispatch.L3TunnelConn.HandleAuthResp | client/atrust/l3tunnelconn.go:523-561 | a decoded response has the one effect its verdict names on the table; the packets a success releases are written up to the first failure, the connection closed exactly then, and nothing else is written |
| AuthDispatch.L3TunnelConn.CompleteAuthentication | client/atrust/l3tunnelconn.go:595-613 | the waiting packets are written with the new token, in order, up to the first whose write is refused or whose token is too long; the connection is closed exactly when there is one |
| AuthDispatch.L3TunnelConn.WritePacket | client/atrust/l3tunnelconn.go:420-458 | run from start to end: written with the flow's token, refused with its error, queued when fewer than 1024 packets wait, dropped only when 1024 do |
| SharedResolution.Resolver.Enter | resolve/resolver.go:379-396 | joins the host's call or starts one, on the map, the counters and the call objects; nothing after Close |
| SharedResolution.Resolver.Forget | resolve/resolver.go:409-413 | takes out of the map this call and no newer one |
| SharedResolution.Resolver.ReleaseWaiter | resolve/resolver.go:419-429 | the last waiter takes the call with it and cancels it |
| SharedResolution.Resolver.Close | resolve/resolver.go:580-588 | whatever the iteration order of the map, every linked call is cancelled and the map is empty |
| SharedResolution.EveryStepKeepsInv | resolve/resolver.go:378-429 | every step of callers, lookups and Close keeps the invariant, waiter counts and the active counter included |
| SharedResolution.EveryRunKeepsInv | resolve/resolver.go:378-429 | the invariant holds in every state of every interleaving |
| SharedResolution.OneLiveLookup | resolve/resolver.go:384-395 | a host has at most one lookup that is neither cancelled nor over; it is the one in the map, its waiters are exactly the callers still waiting, at least one |
| SharedResolution.CancelledOnlyWhenAbandoned | resolve/resolver.go:419-429 | a lookup still going is cancelled only by Close or by the last caller that waited on it |
| SharedResolution.SharersAgree | resolve/resolver.go:402-416 | callers answered by one lookup got the same answer, that of the lookup, for their host, over a channel closed once |
| SharedResolution.CallersJoin | resolve/resolver.go:379-396 | a caller is refused exactly when the resolver is closed, joins the lookup of its host when there is one, and starts one only when there is none |
| SharedResolution.WaitersGetTheAnswer | resolve/resolver.go:402-417 | over any run, whoever still waits on a lookup after it returned, and receives, gets exactly the answer it returned |
| SharedResolution.ReceivingAnswers | resolve/resolver.go:402-404 | in no reachable state does a receive from the closed channel give anything but an answer |
| SharedResolution.ClosedForGood | resolve/resolver.go:580-588 | after Close the map stays empty; the active counter is the number of lookups not counted out, zero when all have ended |
| SharedResolution.WaitersAreReleased | resolve/resolver.go:407-417 | from every state, a lookup that returns closes its channel in five steps of its own goroutine, always possible, and everyone who still waits on it can return |
| ConnectSharing.EveryStepKeepsInv | client/atrust/l3tunnel.go:119-347 | every step of callers, connect workers, evictions and Close keeps the three-part invariant |
| ConnectSharing.EveryRunKeepsInv | client/atrust/l3tunnel.go:119-347 | the invariant holds in every state of every interleaving |
| ConnectSharing.OneAttemptPerGroup | client/atrust/l3tunnel.go:320-340 | never both a connection and an attempt for a group; an attempt is pending exactly until its worker reports, so finishConnect always finds its own call and closes each done channel once |
| ConnectSharing.OneManagerPerGroup | client/atrust/l3tunnel.go:195-212 | all connections of a group, over the life of the tunnel, use one conntrack manager |
| ConnectSharing.NothingLeftOpen | client/atrust/l3tunnel.go:119-144 | once Close has swept and every worker and closer is done, every connection and manager ever made is closed |
| ConnectSharing.SharersAgree | client/atrust/l3tunnel.go:166-173 | at any moment of any run, those who waited for one attempt hold the same connection, of the group they asked for |
| ConnectSharing.WaitersShareTheResult | client/atrust/l3tunnel.go:320-340 | over any run, everyone still waiting on an attempt whose worker has reported can receive at once, and gets its connection; an error exactly when the worker brought none or the tunnel was closing at the report |
| ConnectSharing.ReportMeans | client/atrust/l3tunnel.go:320-347 | a report puts the connection into the table and the call exactly when there is one and the tunnel is not closing; otherwise the call fails and the connection is to be closed |
| ConnectSharing.CallersJoin | client/atrust/l3tunnel.go:146-164 | a caller gets the group's connection, waits on its attempt, or starts one when there is neither |
| ConnectSharing.ReconnectStarts | client/atrust/l3tunnel.go:276-287 | after a reconnect the group has a connection or an attempt, and nothing changes if it had one |
| ConnectSharing.EvictionIsExact | client/atrust/l3tunnel.go:214-225 | an eviction takes out this connection, to be closed, and leaves any other |
| ConnectSharing.StaleExactly | client/atrust/l3tunnel.go:227-246 | a group keeps its connection exactly when it is to the group's best node, or to the major group's where it has none, or when neither is known |
| ConnectSharing.WorkerCanConnect | client/atrust/l3tunnel.go:290-318 | while the tunnel is not closing, a worker can bring its connection into the table within four steps of its own |
| ConnectSharing.WorkersCanStop | client/atrust/l3tunnel.go:290-318 | once the tunnel is closing, a connect worker can stop within three steps of its own, wherever it is |
| ConnectSharing.EveryConnectionAccounted | client/atrust/l3tunnel.go:214-347 | at any moment of any run, every connection ever dialled is closed, about to be closed, in the table under its group, or with a worker of its group |
| ConnectSharing.ConnsKept | client/atrust/l3tunnel.go:214-246 | the part of the invariant about connections survives every change of the tables that closes, or hands to a closer, what it takes out |
| ConnectSharing.L3Tunnel.GetConn | client/atrust/l3tunnel.go:146-164 | live connection, pending attempt, or a new attempt, on the two maps |
| ConnectSharing.L3Tunnel.GetConntrackMgr | client/atrust/l3tunnel.go:195-212 | the group's manager, made at most once and never after closing |
| ConnectSharing.L3Tunnel.EvictConn | client/atrust/l3tunnel.go:214-225 | evicts and closes this connection, never a newer one of the group |
| ConnectSharing.L3Tunnel.EvictStaleConns | client/atrust/l3tunnel.go:227-246 | evicts and closes exactly the connections whose group has another best node now |
| ConnectSharing.L3Tunnel.StartReconnect | client/atrust/l3tunnel.go:267-288 | starts an attempt unless closing, connected or connecting |
| ConnectSharing.L3Tunnel.FinishConnect | client/atrust/l3tunnel.go:320-347 | hands the connection to the table, or closes it when the tunnel is closing or the call is not pending |
| ConnectSharing.L3Tunnel.Close | client/atrust/l3tunnel.go:119-144 | empties both tables and closes everything that was in them |
| UdpBudget.EveryStepKeepsInv | service/udp_forwarding.go:158-264 | every step of handlers, workers and closes keeps budget, buffers and places in agreement |
| UdpBudget.EveryRunKeepsInv | service/udp_forwarding.go:158-264 | the invariant holds in every state of every interleaving, for every budget |
| UdpBudget.BytesConserved | service/udp_forwarding.go:362-389 | the counter is the sum of what unreleased datagrams hold, between 0 and the budget; 0 when there is no budget |
| UdpBudget.EveryDatagramCharged | service/udp_forwarding.go:371-388 | over any run with a budget, every datagram accepted and not released is charged 40960 bytes if it owns a pooled buffer, and its length otherwise |
| UdpBudget.PooledWithinBudget | service/udp_forwarding.go:371-388 | so the pooled buffers in flight, counted whole, never exceed the budget |
| UdpBudget.DroppedExactlyFor | service/udp_forwarding.go:158-169 | why a step drops a datagram, and why not: the counter it read plus its charge exceeds the budget, or its connection is closed or has 64 waiting; without a budget it is accepted |
| UdpBudget.FirstInFirstOut | service/udp_forwarding.go:410-423 | over any run, the datagrams a connection's worker took, followed by those that wait, are those that entered, in order |
| UdpBudget.WorkerLife | service/udp_forwarding.go:216-280 | a worker writes what it takes and goes on after a write that succeeds; once it has left it only drops, and finishes only with nothing waiting |
| UdpBudget.ReleasedOnce | service/udp_forwarding.go:362-369 | no datagram is released twice, no buffer is in the pool twice or while a datagram owns it |
| UdpBudget.FinishedStaysEmpty | service/udp_forwarding.go:216-232 | the queue of a finished worker is empty and stays empty |
| UdpBudget.WholeAtRest | service/udp_forwarding.go:158-169 | with no worker and no handler in flight the counter is 0 and every datagram was released once |
| UdpTable.MarkKeepsOrder | service/udp_forwarding.go:317-324 | a mark sends its key to the back and keeps the rest ordered by last mark |
| UdpTable.FrontIsOldest | service/udp_forwarding.go:204-213 | the front of the list is the connection marked active the longest ago |
| UdpTable.UDPForward.MarkConnectionActiveLocked | service/udp_forwarding.go:317-324 | joins the list or moves to its back; map, list and the connections' own references stay in agreement |
| UdpTable.UDPForward.MarkConnectionActive | service/udp_forwarding.go:309-315 | a connection that has lost its key is not marked |
| UdpTable.UDPForward.RemoveConnection | service/udp_forwarding.go:297-307 | forgets the connection, and never a newer one under the same key |
| UdpTable.UDPForward.MakeRoomForConnectionLocked | service/udp_forwarding.go:200-214 | evicts only from a full table, and then the least recently active connection |
| UdpTable.UDPForward.GetOrCreateConnection | service/udp_forwarding.go:171-198 | known key: same connection, marked. New key: a fresh connection within maxConnections, the evicted one closed; the whole new map and order |
| ResourceIndex.BuildIsBalanced | internal/ipresource/index.go:43-59 | the tree of n > 0 entries has height exactly floor(log2 n) + 1 |
| ResourceIndex.BuildIsBounded | internal/ipresource/index.go:51-57 | every subtree's maxEnd bounds the range ends below it |
| ResourceIndex.MatchNode | internal/ipresource/index.go:90-108 | the pruned walk finds what scanning all entries would find |
| ResourceIndex.BestIsListMatch | internal/ipresource/index.go:97-104 | the match of least, or greatest, order is the first, or last, match of the list |
| ResourceIndex.New | internal/ipresource/index.go:29-41 | the loop makes the balanced tree of exactly the valid resources, sorted stably by start |
| ResourceIndex.Match | internal/ipresource/index.go:61-88 | for every list, address, protocol, port and filter: the first, or the last, valid resource of the list that matches |
| ResourceIndex.LookupOnFields | internal/ipresource/index.go:77-108 | what such a match is, on the fields: the first, or last, accepted resource whose range encloses the address and whose protocol and ports are the ones asked for; none exactly when there is none |
| ResourceIndex.IndexHeight | internal/ipresource/index.go:29-59 | the index of a list of n resources is at most floor(log2 n) + 1 high |
| DecisionCache.RingReplaced | stack/tun/resource_index.go:45-49 | replacing the slot under the cursor and moving on drops the oldest key and appends the newest |
| DecisionCache.SlotReplaced | stack/tun/resource_index.go:46-47 | the ring keeps distinct keys, and its key set changes by one out, one in |
| DecisionCache.Cache.Get | stack/tun/resource_index.go:29-34 | a hit exactly for the keys held, with their value |
| DecisionCache.Cache.Set | stack/tun/resource_index.go:36-52 | a known key keeps its place; a new key joins; at 4096 keys the oldest inserted key goes; the ring is always the latest keys inserted |
| DecisionCache.Stack.MatchesStaticResource | stack/tun/stack.go:191-207 | whatever was asked before, the decision is the index's own |
| DomainIndex.HitsAreTheMatches | resolve/domain_index.go:57-68 | the entries met on the walk are exactly the patterns that are a suffix starting at the host's start, at a dot or just after one, from longest to shortest |
| DomainIndex.LookUpIsLongestMatch | resolve/domain_index.go:69-77 | nothing is reported exactly when no pattern matches; else the domain of the longest match and the resources of all of them |
| DomainIndex.DomainResourceIndex.Insert | resolve/domain_index.go:33-48 | inserting into the trie is extending the plain map of patterns |
| DomainIndex.DomainResourceIndex.Spell | resolve/domain_index.go:33-44 | the loop ends at the one node that spells the pattern, making missing nodes, and changes no entry |
| DomainIndex.DomainResourceIndex.Match | resolve/domain_index.go:53-78 | the trie walk reports what the plain map means |
| DomainIndex.DomainResourceIndex.constructor | resolve/domain_index.go:23-51 | the index of a map holds what inserting its domains in some order gives |
| DomainIndex.InsertedHolds | resolve/domain_index.go:45-48 | for every insertion order a pattern carries the resources of all its domains and the name of the first |
| DomainIndex.ReportedExactly | resolve/domain_index.go:23-78 | from the map to the answer, for every iteration order: a host is found exactly when some domain covers it, itself or from above; the resources are exactly those of the domains that do, the domain one of them with the longest pattern |
| DomainIndex.ResourcesInOrder | resolve/domain_index.go:72-77 | the resources of an answer are those of its patterns one after the other, the longest pattern first |
| DomainIndex.OrderIsIrrelevantUnlessDomainsClash | resolve/domain_index.go:25-49 | the iteration order of the map is irrelevant if and only if no two domains have the same non-empty pattern |
| RouteAcceptance.MatchDomainResourceWhere | client/client.go:51-60 | the first resource of the list that covers network and port and passes the filter |
| RouteAcceptance.FirstDomainMatches | client/client.go:51-60 | what is found is in the list, covers the destination and passes the filter |
| RouteAcceptance.MatchDomainResourceForTunnel | dial/dialer.go:219-228 | for TCP a resource that goes through the TCP tunnel comes first |
| RouteAcceptance.MatchIPResourceForTunnel | dial/dialer.go:235-244 | the same through the interval tree, for every list |
| RouteAcceptance.DialIPPort | dial/dialer.go:122-217 | the step-by-step choice is: domain resource, else IP resource, else denied or direct |
| RouteAcceptance.DecisionOnFields | dial/dialer.go:122-217 | denied exactly when the VPN is forced and a known list allows the destination neither by name nor by address; through the VPN exactly when TCP or UDP is allowed, or forced without a list; else direct; a name comes before an address |
| RouteAcceptance.NameDecides | dial/dialer.go:219-228 | a name decides exactly when one of its resources is for the network and port; one that prefers L3 is chosen for TCP only when all those are |
| RouteAcceptance.TCPIPChoicesAreAccepted | dial/dialer.go:151-160 | chosen by the IP index for TCP: the tunnel's last-match search finds a resource; a choice that prefers L3 is the very resource L3 sends under; the tunnel-only stack accepts as well |
| RouteAcceptance.IPChoicesAgree | client/atrust/l3tunnelpacket.go:32-46 | chosen by the IP index, for any network: the L3 layer would pick the very same resource if and only if the TCP tunnel could not take the connection; TCP and UDP go through the VPN |
| RouteAcceptance.AcceptedUnlessDomainPrefersL3 | client/atrust/tcptunnel.go:488-519 | a TCP connection the dialer sends to a tunnel is refused if and only if the domain resources it came with leave the port to L3 and no L3 resource covers the address |
| RouteAcceptance.TunnelAppOnFields | client/atrust/tcptunnel.go:460-519 | a tunnel is opened under the application of the chosen domain resource if it names one, else of the last resource for the address that is not left to L3, or of the last one at all where that does not matter |
| RouteAcceptance.DomainChoiceMayBeRefused | resolve/resolver.go:118-126 | a concrete such refusal |
| RouteAcceptance.TunRoutesAreAccepted | stack/tun/stack.go:154-182 | packets from the TUN device: what goes to the TCP tunnel is accepted there; what goes to L3 by the IP index is sent under the resource that matched |
| RouteAcceptance.TunRouteOnFields | stack/tun/stack.go:154-188 | a packet goes nowhere exactly when neither name nor address allows it, and to the TCP tunnel exactly when it is TCP and a resource of the kind that allows it does not leave it to L3 |
| RouteAcceptance.FirstIffLast | client/atrust/tcptunnel.go:460-470 | the tunnel's search from the back succeeds exactly when the dialer's search from the front does |
| FramedStream.FramesDecode | client/atrust/tcptunnel.go:375-388 | framing in chunks of 65535 bytes is undone by decoding, whatever follows |
| FramedStream.WritesDecode | client/atrust/tcptunnel.go:354-423 | any writes of any sizes followed by the close frame mean their concatenation and then EOF |
| FramedStream.FramesOnBytes | client/atrust/tcptunnel.go:375-388 | the bytes on the wire: each chunk of 65535 bytes, or less at the end, follows 01 00 and its length, high byte first |
| FramedStream.FramesLength | client/atrust/tcptunnel.go:375-388 | and nothing else is on the wire |
| FramedStream.TcpTunnelConn.ReadFull | client/atrust/tcptunnel.go:317-320 | all bytes asked for, or EOF when there was nothing and unexpected EOF when there was too little |
| FramedStream.TcpTunnelConn.Read | client/atrust/tcptunnel.go:291-352 | a read returns the next bytes of the content, at least one and at most the buffer, and takes exactly those; it fails exactly when none are left, with the stream's ending; empty frames are skipped and the loop terminates |
| FramedStream.TcpTunnelConn.Write | client/atrust/tcptunnel.go:354-392 | all frames, or whole frames for the bytes reported and part of the next |
| FramedStream.TcpTunnelConn.CloseWrite | client/atrust/tcptunnel.go:410-423 | the close frame is sent once, and only for a connection that is reused |
| FramedStream.TcpTunnelConn.ReadMany | client/atrust/tcptunnel.go:291-352 | reads of any positive sizes concatenate to a prefix of the content, all of it once one fails |
| FramedStream.RoundTrip | client/atrust/tcptunnel.go:291-423 | both ends together: what was written is read, in reads of any sizes, and then EOF |
| PacketSplitter.SplitIncomingIPPackets | client/atrust/l3tunnelconn.go:797-827 | the loop over the shrinking slice computes the recursive split, and discards everything on an invalid packet |
| PacketSplitter.NothingIsLost | client/atrust/l3tunnelconn.go:797-827 | the packets followed by the remainder are the stream |
| PacketSplitter.PacketsAreWhole | client/atrust/l3tunnelconn.go:802-821 | on their bytes, each packet is a whole IPv4 or IPv6 packet; the remainder is less than the packet it begins, so less than 65575 bytes |
| PacketSplitter.SplitIsTheDecomposition | client/atrust/l3tunnelconn.go:797-827 | without a word about how it is found: the answer is the one way to take the stream apart into well-formed packets and less than a packet, all on the bytes; an error exactly when a bad start follows well-formed packets |
| PacketSplitter.PacketsSplit | client/atrust/l3tunnelconn.go:797-827 | any well-formed packets, one after the other, are split into exactly those |
| PacketSplitter.WholeOnBytes | client/atrust/l3tunnelconn.go:797-827 | in a valid or invalid stream, the whole packets are the well-formed ones before the rest or the bad start |
| PacketSplitter.SplitInTwo | client/atrust/l3tunnelconn.go:257-264 | splitting s, then the remainder with t, gives what splitting s + t at once gives, invalid packets included |
| PacketSplitter.ChunkingIsIrrelevant | client/atrust/l3tunnelconn.go:257-264 | however the stream is cut into payloads, packets and remainder are those of the whole; an invalid packet is found in one cutting if in any |
| PacketSplitter.DeliveredBeforeReveal | client/atrust/l3tunnelconn.go:256-273 | a cutting delivers exactly the whole packets completed before the payload that reveals the first invalid header |
| PacketSplitter.PossibleDeliveries | client/atrust/l3tunnelconn.go:256-273 | for an invalid stream, the deliveries the cuttings can bring about are exactly the first parts of its whole packets |
| PacketSplitter.DeliveryDependsOnCutting | client/atrust/l3tunnelconn.go:256-273 | delivery is the same for every cutting if and only if the stream is valid or no whole packet precedes its invalid header |
| PacketSplitter.Receiver.Receive | client/atrust/l3tunnelconn.go:256-273 | one payload: packets out, remainder kept, or the connection closed |
| PacketSplitter.Receiver.ReceiveAll | client/atrust/l3tunnelconn.go:246-273 | a whole stream, payload by payload: closed exactly when the stream is invalid, the packets that cutting delivers, and otherwise the split of the whole |
| Checksum.TwoFoldsSuffice | internal/zctcpip/tcpip.go:23-24 | two folds reduce any 32-bit sum to its one's complement value |
| Checksum.Sum | internal/zctcpip/tcpip.go:5-18 | the loop is the sum of the padded 16-bit words modulo 2^32 |
| Checksum.FixedFolds | internal/zctcpip/tcpip.go:21-29 | the version with two folds computes the complement of the folded sum |
| Checksum.FoldLoop | underlay/pcap.go:305-318 | the version that loops until folded terminates and computes the same |
| Checksum.ShortDoesNotWrap | internal/zctcpip/tcpip.go:5-18 | up to 131074 bytes the 32-bit accumulator does not overflow |
| Checksum.ChecksumIsComplement | internal/zctcpip/tcpip.go:5-29 | what both compute: the number that completes the padded bytes, read as one big-endian number, to a multiple of 65535; of the two forms of zero it is 65535 exactly for bytes that are all zero |
| Checksum.StoredChecksumCancels | internal/zctcpip/ip.go:162-165 | storing the checksum in its zeroed field at an even offset makes the checksum of the whole zero |
| Checksum.ResetChecksum | internal/zctcpip/ip.go:162-165 | in place: only the checksum field changes, to the value the header should carry |
| Checksum.Verify | internal/zctcpip/ip.go:179-207 | in place: the verdict, and every byte as it was |
| Checksum.ResetVerifies | internal/zctcpip/ip.go:162-207 | Verify accepts every header with sound lengths after ResetChecksum |
| Checksum.VerifiedIffWholeCancels | internal/zctcpip/ip.go:179-207 | among headers with sound lengths: one that covers its checksum field is accepted exactly when its whole checksum is zero and the field is not 0xFFFF; one that is too short for it, when the field holds the checksum of the bytes before it |
| Checksum.OnlyLongHeadersCancel | internal/zctcpip/ip.go:179-207 | twelve bytes is the exact boundary: for a header length below it some accepted packet has a checksum that is not zero |
| Checksum.ZeroHasTwoForms | internal/zctcpip/ip.go:200-204 | a header whose checksum is zero cancels with 0 and with 0xFFFF in its field, and Verify accepts only the first |
| Checksum.RejectedForm | internal/zctcpip/ip.go:200-204 | there is such a header: its whole checksum is zero, its field 0xFFFF, and it is rejected |
| PcapPackets.SerializedIsSound | underlay/pcap.go:248-270 | the other checksum implementation accepts the header, the TCP checksum over the pseudo header is zero, the payload is unchanged |
| PcapPackets.PacketOnBytes | underlay/pcap.go:248-270 | every field of both headers at its place, high byte first: lengths, addresses, ports, numbers, flags and window |
| PcapPackets.PseudoOnBytes | underlay/pcap.go:261-268 | what the TCP checksum covers, byte by byte |
| PcapPackets.WriteTCPHeader | underlay/pcap.go:295-303 | the header written in place over zeroed bytes, and nothing behind it |
| PcapPackets.SerializeIPv4TCP | underlay/pcap.go:248-270 | the buffer written in place, both checksums last over their zeroed fields, is the packet so described |
| CandidateSelection.AppendUniqueIPs | resolve/resolver.go:316-326 | appends an address unless it is nil or equal, in either IPv4 form, to one that is there |
| CandidateSelection.UniqueKeepsFirst | resolve/resolver.go:177-181 | the candidates are addresses seen, led by the first of them; there are none only if none was seen |
| CandidateSelection.CandidatesOnce | resolve/resolver.go:316-326 | the candidates are the addresses given, each once in whatever IPv4 form it came |
| CandidateSelection.BestIsFirst | resolve/resolver.go:275-282 | the choice is the first preferred address if there is one, and otherwise the first address |
| CandidateSelection.EndsOnEvents | resolve/resolver.go:252-297 | the stage ends with an event exactly when the context ended, all lookups answered, a preferred address was given, or some address was and the window is over or the sources waited for have answered |
| CandidateSelection.Learn | resolve/resolver.go:275-282 | the addresses of one answer in order, stopping at the first preferred one |
| CandidateSelection.FinalScanIsIdle | resolve/resolver.go:302-311 | the final preferred-address scan never changes the choice |
| CandidateSelection.Select | resolve/resolver.go:176-314 | for every order of answers, failures, timer and cancellation: the first preferred address processed if there is one, else the first of history followed by answers; it ends with the first event that ends it, after at most pending + 1 events |

## Left out

- Real time, goroutine scheduling and the random choice of `select` are nondeterministic steps or parameters; progress is stated as termination and as what is enabled, never as a time bound.
- TLS, sockets, files, the TUN device, gVisor and lwIP, DNS messages, JSON, signatures and logs: a write appends to a log and may fail, a read consumes a byte sequence, responses arrive decoded.
- Hostname lower-casing and trimming: `normalizeHostname` is a function parameter.
- The heartbeat, the DNS answer cache, `internal/ippool`, the login flows, EasyConnect, the mobile bindings and the command line.
- The 64-bit counter of flow identifiers never wraps in the model.
- Headers of observed packets arrive as the class of packet they show, TCP flags included, because `TCPPacket.Flags` mixes in a bit of another byte.
- `getByAuthResponseIP` is an input of HandleAuthResp; any flow it could return is covered.
- In `nextAuthBatch` the clock is read once per list element; the source reads it only for elements that pass the earlier tests, so the model allows every reading the source can make.
- FlowProtocol: `observePacket` inside WritePacket is one of the background sections, and an unlock happens together with the last step of its call; both only merge moments at which nothing else can differ.
- The lists of container/list are sequences of references, with the identity of an element where the source keeps one; calls, connections and datagrams of the three other protocols are named by the order of their creation.
- SharedResolution and ConnectSharing: the objects the source allocates are entries of a store, so their aliasing is by index; what a lookup or a dial returns is arbitrary.
- ConnectSharing: `startReconnect` may act long after its check of the close channel, so the model lets it act at any time; the retry timer may fire at any time.
- UdpBudget: the pool may be given fresh buffers at any time; the buffers `forwardResponses` borrows for itself are left out; `maxConnections` and the choice of connection are in UdpTable.
- UdpTable: the janitor closes connections without changing map or list, so it has no method; `touch` by `enqueue` does not change the order.
- RouteAcceptance.AcceptedUnlessDomainPrefersL3: assumes that the dialer has a list of IP resources and that resources carry application identifiers; without a list the dialer enforces nothing and the tunnel finds nothing.
- RouteAcceptance.DialIPPort: parsing of the address, the direct dialers (one of which connects networks other than TCP and UDP) and the learning of successful addresses are left out.
- RouteAcceptance.IPChoicesAgree: for networks other than TCP a choice made by name says nothing about the address, so L3 accepts it only when an IP resource happens to cover it; only choices by the IP index are claimed.
- RouteAcceptance.TunRoutesAreAccepted: packets that are not for a global unicast address, and hijacked DNS queries, go elsewhere before this choice is made.
- FramedStream.TcpTunnelConn.Read: the raw mode of a connection, which passes bytes through unframed, is left out, as are the two locks that make reads and writes each sequential.
- PcapPackets: the IPv6 variant, the stream sequence numbers and the capture file format are left out.
- Checksum: the setters and getters of other header fields and the pseudo-header sum of zctcpip are left out.
- CandidateSelection: how each lookup source works, and the cache entry written at the end, are left out; the preference is a function, so it answers alike for the same address.
- DomainIndex: a nil index, which matches nothing, is left out.
- ResourceIndex.New: `sort.SliceStable` is stable insertion.
- AuthDispatch: the write of a request succeeds or fails as a parameter says, flow by flow; building and signing the request is part of that.
- `l3tunnelpacket.writePacket`, which retries once on a closed connection, is left out; its evictions and reconnects are steps of ConnectSharing.
