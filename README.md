# P2P message processor of a Minima node

The Minima P2P layer has a single-threaded, message-driven processor that
owns the node's topology state. That state holds:

- out-links, in-links and client links;
- a random sample of known nodes;
- whether the rendezvous is complete;
- the desired number of links;
- the network map of a diagnostic crawl and its outstanding requests;
- the reason each connection was opened.

Each inbound message goes to exactly one handler. A handler may change the
state and may post follow-up messages: to the processor itself, to a peer,
to the network handler, or as timers.

The model has four modules, following the Java class:

- `P2PTypes` (`Types.dfy`) holds the protocol values, the inbound and emitted
  messages, the topology, and the collaborators. The collaborators are the
  `*Funcs` helper classes (joining, walking, swapping, greeting,
  disconnection and startup). Each is a total function: it sees the topology
  and returns the topology it leaves behind together with its result, so it
  may change the shared state as the Java code lets it.
- `P2PDecisions` (`Decisions.dfy`) holds the branch decisions as pure
  functions:
  - the DISCONNECT retry and its bounded retry chain;
  - the LOOP join tier and its delay range;
  - the SWAP_LINK handler choice;
  - the walk-response route;
  - the filter-then-distinct candidate list of a network-map reply.
- `P2PNetworkMap` (`NetworkMapping.dfy`) holds the MAP_NETWORK step and what
  a run of replies does to the crawl.
- `P2PProcessor` (`Processor.dfy`) holds the rest:
  - a step function per handler;
  - the dispatch relation `Handled`;
  - the class `P2PMessageProcessor`. Its fields are the topology plus the
    pending print request. Its handler methods change those fields in place
    and return the messages they post. Each method is proved equal to its
    step function, and `ProcessMessage` is proved to satisfy `Handled`.

Four behaviours of the code that a reader might not expect:

- The network map is not capped at 1000 entries. Only the fan-out of new
  CONNECTs stops once 1000 nodes are mapped, and the map keeps growing
  (`MapGrowsPastCap`).
- The pending print request is never cleared. Every later completion signal
  answers it again.
- A conditional swap request whose surplus test fails is still handed to
  `onSwapReq`, so the condition gates nothing (`ConditionalGateIsNoOp`).
- A walk response with an empty path faults: reading its first entry throws,
  the dispatch catches the exception, and nothing changes. A single-entry path
  is compared like any other.

## Model

| member | source | states |
|---|---|---|
| P2PTypes.PostIfPresent | src/org/minima/system/network/p2p/P2PMessageProcessor.java:288-290 | a null collaborator result posts nothing; any other result posts exactly that one message |
| P2PDecisions.Tracked | src/org/minima/system/network/p2p/P2PMessageProcessor.java:299-301 | an address is tracked iff it is an out-link, an in-link or a client link |
| P2PDecisions.DisconnectDecision | src/org/minima/system/network/p2p/P2PMessageProcessor.java:299-311 | a tracked address is closed; an untracked one is retried iff attempt < 3, with next attempt attempt+1 ≤ 3; otherwise it is abandoned (each an iff) |
| P2PDecisions.RetryChain | src/org/minima/system/network/p2p/P2PMessageProcessor.java:304-309 | the attempts scheduled by redelivering an untracked DISCONNECT each time its retry timer fires; specified by RetryChainIsBounded |
| P2PDecisions.RetryChainIsBounded | src/org/minima/system/network/p2p/P2PMessageProcessor.java:304-309 | redelivering an untracked DISCONNECT schedules exactly 3 − attempt retries (none from attempt 3 on), numbered attempt+1, attempt+2, … |
| P2PDecisions.ThreeRetriesFromFirstAttempt | src/org/minima/system/network/p2p/P2PMessageProcessor.java:304-309 | starting from attempt 0, the retries are numbered exactly 1, 2, 3 |
| P2PDecisions.LoopTier | src/org/minima/system/network/p2p/P2PMessageProcessor.java:371-379 | rendezvous join iff the rendezvous is incomplete; entry-node join iff complete and fewer than 3 out-links; scale-out iff 3 ≤ out-links < desired links; otherwise no join |
| P2PDecisions.LoopDelay | src/org/minima/system/network/p2p/P2PMessageProcessor.java:369-376 | the rendezvous and entry tiers get a delay in [6000, 9000); the other tiers get one in [300000, 330000) |
| P2PDecisions.EveryDelayInRangeIsReachable | src/org/minima/system/network/p2p/P2PMessageProcessor.java:369-376 | every delay in a tier's range comes from some pair of random draws, so the range is exact |
| P2PDecisions.SwapCaseOf | src/org/minima/system/network/p2p/P2PMessageProcessor.java:319-326 | the first branch is taken iff the request is a swap-client request; the conditional branch iff it is not, is conditional, and in-links exceed the desired links |
| P2PDecisions.HandlerOf | src/org/minima/system/network/p2p/P2PMessageProcessor.java:319-326 | the swap-client branch calls onSwapClientsReq; the conditional and the fallback branch both call onSwapReq |
| P2PDecisions.SwapHandlerFor | src/org/minima/system/network/p2p/P2PMessageProcessor.java:319-326 | onSwapClientsReq answers iff the request is a swap-client request; onSwapReq answers iff it is not |
| P2PDecisions.ConditionalGateIsNoOp | src/org/minima/system/network/p2p/P2PMessageProcessor.java:321-326 | the handler chosen does not depend on the in-link count or the desired link count |
| P2PDecisions.WalkRouteOf | src/org/minima/system/network/p2p/P2PMessageProcessor.java:356-361 | an empty path faults; otherwise the walk has returned iff the path's first address is the node's own, and is forwarded iff it is not |
| P2PDecisions.Unknown | src/org/minima/system/network/p2p/P2PMessageProcessor.java:392-393 | keeps exactly the addresses not already mapped, and never lengthens the list; it distributes over concatenation, so order and repetitions are kept (UnknownOfConcat) |
| P2PDecisions.Distinct | src/org/minima/system/network/p2p/P2PMessageProcessor.java:394-394 | the result has no repetitions, has the same members as the input, and is no longer than it; it keeps first occurrences in order (DistinctKeepsFirstOccurrences) |
| P2PDecisions.FirstIndex | src/org/minima/system/network/p2p/P2PMessageProcessor.java:392-394 | the position of an address's first occurrence: it holds the address and no earlier position does |
| P2PDecisions.UnknownOfConcat | src/org/minima/system/network/p2p/P2PMessageProcessor.java:392-393 | filtering a concatenation is the concatenation of the filtered parts: the stream filter keeps order and multiplicity |
| P2PDecisions.UnknownKeepsFirstOrder | src/org/minima/system/network/p2p/P2PMessageProcessor.java:392-393 | two kept addresses first occur in the filtered list in the same relative order as in the input (both directions) |
| P2PDecisions.FirstIndexOfConcat | src/org/minima/system/network/p2p/P2PMessageProcessor.java:394-394 | appending elements does not move the first occurrence of an address already present |
| P2PDecisions.FirstIndexPastPrefix | src/org/minima/system/network/p2p/P2PMessageProcessor.java:394-394 | an address that occurs only in the appended part first occurs past the original part |
| P2PDecisions.DistinctKeepsFirstOccurrences | src/org/minima/system/network/p2p/P2PMessageProcessor.java:394-394 | the distinct list lists addresses in the order of their first occurrence in the input |
| P2PDecisions.DistinctKeepsGroups | src/org/minima/system/network/p2p/P2PMessageProcessor.java:414-414 | the distinct list of a concatenation lists the first part's addresses before any address found only in the second part |
| P2PDecisions.DistinctOfNoDuplicates | src/org/minima/system/network/p2p/P2PMessageProcessor.java:394-394 | removing duplicates leaves a list that has none unchanged |
| P2PDecisions.MappingCandidates | src/org/minima/system/network/p2p/P2PMessageProcessor.java:392-395 | the new addresses of a reply: each one once, exactly the reported addresses that are not yet mapped, and no more than were reported |
| P2PDecisions.MappingCandidatesInReportOrder | src/org/minima/system/network/p2p/P2PMessageProcessor.java:392-395 | the new addresses come in the order in which the report first lists them |
| P2PNetworkMap.ConnectAll | src/org/minima/system/network/p2p/P2PMessageProcessor.java:399-403 | one P2P_CONNECT with the reason "MAPPING connection" per address, in order |
| P2PNetworkMap.ConnectAllTargets | src/org/minima/system/network/p2p/P2PMessageProcessor.java:399-403 | a mapping CONNECT goes to an address iff that address is listed |
| P2PNetworkMap.ConnectAllOnce | src/org/minima/system/network/p2p/P2PMessageProcessor.java:394-403 | a list without repetitions gives CONNECTs without repetitions |
| P2PNetworkMap.TagAll | src/org/minima/system/network/p2p/P2PMessageProcessor.java:399-403 | the map with each listed address tagged MAPPING in turn; specified by TagAllTags |
| P2PNetworkMap.TagAllTags | src/org/minima/system/network/p2p/P2PMessageProcessor.java:399-403 | tagging adds exactly the listed addresses, marks each MAPPING, and keeps every other connection reason |
| P2PNetworkMap.EnumerationLength | src/org/minima/system/network/p2p/P2PMessageProcessor.java:414-415 | a duplicate-free listing of a set is as long as the set |
| P2PNetworkMap.MapNetworkStep | src/org/minima/system/network/p2p/P2PMessageProcessor.java:387-409 | after a reply, the map holds the reporter's report; its request is withdrawn, so an outstanding request set shrinks by exactly one; all links stay as they were |
| P2PNetworkMap.StoreReport | src/org/minima/system/network/p2p/P2PMessageProcessor.java:390-391 | the reply is stored under its reporter, every other entry is kept, the reporter's request is withdrawn and nothing else changes |
| P2PNetworkMap.FanOutTargets | src/org/minima/system/network/p2p/P2PMessageProcessor.java:392-398 | no fan-out once 1000 or more nodes are mapped; below that, exactly the reply's new addresses |
| P2PNetworkMap.CompletionSignal | src/org/minima/system/network/p2p/P2PMessageProcessor.java:405-407 | the crawl-complete response is posted iff no mapping request is outstanding, and then exactly once |
| P2PNetworkMap.MapStepKeepsOtherEntries | src/org/minima/system/network/p2p/P2PMessageProcessor.java:390-390 | a reply adds only the reporter's key and leaves every other entry as it was |
| P2PNetworkMap.MapStepParts | src/org/minima/system/network/p2p/P2PMessageProcessor.java:398-407 | every message of a reply but the last is a mapping CONNECT; only the crawl-complete response can be last instead; there are at most as many messages as reported addresses plus one |
| P2PNetworkMap.MapStepFanOutTargets | src/org/minima/system/network/p2p/P2PMessageProcessor.java:392-404 | a reply connects to an address iff it is reported, not yet mapped, and fewer than 1000 nodes are mapped |
| P2PNetworkMap.MapStepConnectsOnce | src/org/minima/system/network/p2p/P2PMessageProcessor.java:394-403 | no CONNECT of a reply is repeated |
| P2PNetworkMap.MapStepConnectsInReportOrder | src/org/minima/system/network/p2p/P2PMessageProcessor.java:392-403 | the CONNECTs of a reply come before any other message and follow the order in which the report first lists their addresses |
| P2PNetworkMap.MapStepTags | src/org/minima/system/network/p2p/P2PMessageProcessor.java:399-403 | a reply tags MAPPING exactly the addresses it connects to, and keeps every other connection reason |
| P2PNetworkMap.MapStepCompletion | src/org/minima/system/network/p2p/P2PMessageProcessor.java:405-407 | a reply posts the crawl-complete response iff no mapping request is outstanding afterwards |
| P2PNetworkMap.RunWithdrawsReporters | src/org/minima/system/network/p2p/P2PMessageProcessor.java:391-391 | after a run of replies, the outstanding requests are the earlier ones minus the reporters |
| P2PNetworkMap.RunMapsReporters | src/org/minima/system/network/p2p/P2PMessageProcessor.java:390-390 | after a run of replies, the map's keys are the earlier keys plus the reporters |
| P2PNetworkMap.CrawlCompletesWhenAllReply | src/org/minima/system/network/p2p/P2PMessageProcessor.java:405-407 | once every outstanding request has a reply, nothing is outstanding and the crawl-complete response has been posted |
| P2PNetworkMap.MapGrowsPastCap | src/org/minima/system/network/p2p/P2PMessageProcessor.java:398-398 | with 1000 or more nodes mapped, a new reporter still adds an entry, and no CONNECT is posted |
| P2PProcessor.ConnectStep | src/org/minima/system/network/p2p/P2PMessageProcessor.java:251-264 | nothing is posted iff the address is the node's own. Such an address is removed from the random sample and nothing else changes. Any other address gets one NETWORK_CONNECT with the state unchanged |
| P2PProcessor.DisconnectStep | src/org/minima/system/network/p2p/P2PMessageProcessor.java:294-314 | the state is unchanged and at most one message is posted. A tracked link gets a NETWORK_DISCONNECT by uid. An untracked one below attempt 3 gets a 1000 ms retry timer with attempt+1 and the reason "… attempt: n"; otherwise nothing is posted |
| P2PProcessor.RetryReason | src/org/minima/system/network/p2p/P2PMessageProcessor.java:308-308 | the retried reason is the old reason, then " attempt: ", then the attempt number in decimal |
| P2PDecisions.NatToString | src/org/minima/system/network/p2p/P2PMessageProcessor.java:308-308 | the decimal digits of a natural number: at least one, all digits, a leading zero only for zero |
| P2PDecisions.NatToStringRoundTrip | src/org/minima/system/network/p2p/P2PMessageProcessor.java:308-308 | the digits read back as the number they were rendered from |
| P2PDecisions.IntToString | src/org/minima/system/network/p2p/P2PMessageProcessor.java:308-308 | Java's decimal rendering of an int: a leading minus sign iff the value is negative, then the digits of its magnitude |
| P2PDecisions.IntToStringRoundTrip | src/org/minima/system/network/p2p/P2PMessageProcessor.java:308-308 | the rendering of an int reads back as that int |
| P2PDecisions.DecimalValue | src/org/minima/system/network/p2p/P2PMessageProcessor.java:308-308 | the number a string of decimal digits denotes, the reference the round trips are stated against |
| P2PProcessor.DisconnectFollowsRetryChain | src/org/minima/system/network/p2p/P2PMessageProcessor.java:304-309 | an untracked DISCONNECT schedules nothing iff the retry chain is exhausted; otherwise it schedules the chain's next attempt |
| P2PProcessor.OnConnectedStep | src/org/minima/system/network/p2p/P2PMessageProcessor.java:266-273 | an outgoing connection's address joins the out-links; an incoming one changes nothing; nothing else changes and nothing is posted |
| P2PProcessor.RendezvousStep | src/org/minima/system/network/p2p/P2PMessageProcessor.java:241-249 | once the rendezvous is complete nothing changes; before that, the startup collaborator's state is adopted; nothing is posted |
| P2PProcessor.OnGreetedStep | src/org/minima/system/network/p2p/P2PMessageProcessor.java:234-239 | the greeting collaborator's state is adopted and every message it returns is posted, in order |
| P2PProcessor.OnDisconnectedStep | src/org/minima/system/network/p2p/P2PMessageProcessor.java:276-291 | an incoming link is repaired by onInLinkDisconnected and an outgoing one by onOutLinkDisconnected; the chosen collaborator's state is adopted and its result is posted when it is not null |
| P2PProcessor.WalkLinksStep | src/org/minima/system/network/p2p/P2PMessageProcessor.java:340-351 | an in-link walk goes to onInLinkWalkMsg and an out-link walk to onOutLinkWalkMsg; the chosen collaborator's state is adopted and its result is posted when it is not null |
| P2PProcessor.WalkResponseStep | src/org/minima/system/network/p2p/P2PMessageProcessor.java:353-365 | faults iff the path is empty. A path starting at this node is finalized by onReturnedWalkMsg; any other goes to onWalkLinkResponseMsg. Either way that collaborator's state is adopted and its result is posted when it is not null |
| P2PProcessor.SwapLinkStep | src/org/minima/system/network/p2p/P2PMessageProcessor.java:316-331 | a swap-client request goes to onSwapClientsReq and every other request to onSwapReq; the chosen collaborator's state is adopted and its result is posted when it is not null |
| P2PProcessor.DoSwapStep | src/org/minima/system/network/p2p/P2PMessageProcessor.java:333-338 | the swap collaborator's state is adopted with the peer's connection reason set to DO_SWAP and every other connection entry kept; every message of the swap is posted |
| P2PProcessor.LoopStep | src/org/minima/system/network/p2p/P2PMessageProcessor.java:367-384 | posts the tier's join messages, then exactly one LOOP timer whose delay is in the tier's range; expired entries are dropped after the join |
| P2PProcessor.JoinEffect | src/org/minima/system/network/p2p/P2PMessageProcessor.java:371-379 | the rendezvous, entry-node and scale-out tiers call joinRendezvousNode, joinEntryNode and joinScaleOutLinks; the no-join tier calls none and changes nothing |
| P2PProcessor.MappingTargets | src/org/minima/system/network/p2p/P2PMessageProcessor.java:414-415 | an address is a target iff it is in the random sample, the out-links or the in-links |
| P2PProcessor.VisitOrder | src/org/minima/system/network/p2p/P2PMessageProcessor.java:414-415 | the visiting order of a print request: the random sample, the out-links and the in-links, each listed in some order, concatenated, first occurrences kept |
| P2PProcessor.VisitOrderEnumerates | src/org/minima/system/network/p2p/P2PMessageProcessor.java:414-415 | such an order visits every target exactly once |
| P2PProcessor.VisitOrderGroups | src/org/minima/system/network/p2p/P2PMessageProcessor.java:414-415 | such an order visits the random sample first, then the out-links not in it, then the remaining in-links |
| P2PProcessor.PrintRequestStep | src/org/minima/system/network/p2p/P2PMessageProcessor.java:411-426 | posts one message per distinct target of the random sample, out-links and in-links, then the 29000 ms completion timer last |
| P2PProcessor.PrintRequestConnectsTargets | src/org/minima/system/network/p2p/P2PMessageProcessor.java:414-420 | a mapping CONNECT goes to an address iff it is a target; every message but the last is such a CONNECT; no message repeats |
| P2PProcessor.PrintRequestTagsTargets | src/org/minima/system/network/p2p/P2PMessageProcessor.java:416-419 | every target is tagged MAPPING and other reasons are kept; links, the network map and the outstanding requests are unchanged |
| P2PProcessor.ReportsAlong | src/org/minima/system/network/p2p/P2PMessageProcessor.java:435-436 | one node entry per visited key: the report stored under that key |
| P2PProcessor.AnswerHasOneNodePerEntry | src/org/minima/system/network/p2p/P2PMessageProcessor.java:435-438 | the answer has exactly one node per network-map entry: every stored report appears, and nothing else does |
| P2PProcessor.PrintResponseOut | src/org/minima/system/network/p2p/P2PMessageProcessor.java:429-447 | without a pending request nothing is posted; with one, exactly one answer is posted, to that request, holding the stored report of each visited key in visiting order |
| P2PProcessor.QuietKindsChangeNothing | src/org/minima/system/network/p2p/P2PMessageProcessor.java:206-207 | SHUTDOWN and unknown kinds leave the processor unchanged, post nothing and raise nothing |
| P2PProcessor.DispatchIsDeterministic | src/org/minima/system/network/p2p/P2PMessageProcessor.java:152-218 | with the collaborators' results fixed, the dispatch adds no choice of its own: every kind except LOOP and the two print kinds has exactly one outcome |
| P2PProcessor.Handled | src/org/minima/system/network/p2p/P2PMessageProcessor.java:152-218 | the dispatch relation: each kind takes exactly its handler's step, only PRINT_NETWORK_MAP changes the pending request, and only an empty walk path faults |
| P2PProcessor.DefaultAddressAsWritten | src/org/minima/system/network/p2p/P2PMessageProcessor.java:91-92 | as written, the default processor's own address has port 0, because the port is read before it is assigned |
| P2PProcessor.DefaultAddressMissesSelfConnect | src/org/minima/system/network/p2p/P2PMessageProcessor.java:91-92 | with that address, a CONNECT to the node's own host and port 9001 is dialled rather than filtered |
| P2PProcessor.DefaultSelfAddress | src/org/minima/system/network/p2p/P2PMessageProcessor.java:92-92 | the intended own address: the local host with port 9001 |
| P2PProcessor.DefaultAddressFiltersSelfConnect | src/org/minima/system/network/p2p/P2PMessageProcessor.java:254-262 | with the intended address, a CONNECT to the node's own host and port 9001 is filtered |
| P2PProcessor.P2PMessageProcessor.constructor | src/org/minima/system/network/p2p/P2PMessageProcessor.java:96-111 | the state gets the address hostIP:minimaPort and 5 desired links; no print request is pending |
| P2PProcessor.P2PMessageProcessor.Default | src/org/minima/system/network/p2p/P2PMessageProcessor.java:82-94 | the state gets the local host with port 9001 (the corrected address) and 5 desired links; no print request is pending |
| P2PProcessor.P2PMessageProcessor.ProcessConnect | src/org/minima/system/network/p2p/P2PMessageProcessor.java:251-264 | the new state and the posted messages are those of ConnectStep; the pending request is kept |
| P2PProcessor.P2PMessageProcessor.ProcessDisconnect | src/org/minima/system/network/p2p/P2PMessageProcessor.java:294-314 | changes nothing and posts what DisconnectStep says |
| P2PProcessor.P2PMessageProcessor.ProcessOnConnected | src/org/minima/system/network/p2p/P2PMessageProcessor.java:266-273 | the new state and messages are those of OnConnectedStep |
| P2PProcessor.P2PMessageProcessor.ProcessOnRendezvous | src/org/minima/system/network/p2p/P2PMessageProcessor.java:241-249 | the new state and messages are those of RendezvousStep |
| P2PProcessor.P2PMessageProcessor.ProcessOnGreeted | src/org/minima/system/network/p2p/P2PMessageProcessor.java:234-239 | the greeting collaborator's state is adopted and every message it returns is posted, in order |
| P2PProcessor.P2PMessageProcessor.ProcessOnDisconnected | src/org/minima/system/network/p2p/P2PMessageProcessor.java:276-291 | the new state and messages are those of OnDisconnectedStep |
| P2PProcessor.P2PMessageProcessor.ProcessWalkLinks | src/org/minima/system/network/p2p/P2PMessageProcessor.java:340-351 | the new state and messages are those of WalkLinksStep |
| P2PProcessor.P2PMessageProcessor.ProcessWalkLinksResponse | src/org/minima/system/network/p2p/P2PMessageProcessor.java:353-365 | faults iff the path is empty, and then nothing changes and nothing is posted; otherwise the outcome is WalkResponseStep's |
| P2PProcessor.P2PMessageProcessor.ProcessSwapLink | src/org/minima/system/network/p2p/P2PMessageProcessor.java:316-331 | the three branches together give SwapLinkStep's state and messages |
| P2PProcessor.P2PMessageProcessor.ProcessDoSwap | src/org/minima/system/network/p2p/P2PMessageProcessor.java:333-338 | the new state and messages are those of DoSwapStep |
| P2PProcessor.P2PMessageProcessor.ProcessLoop | src/org/minima/system/network/p2p/P2PMessageProcessor.java:367-384 | the random draws are in range, and the outcome is LoopStep's for those draws |
| P2PProcessor.P2PMessageProcessor.ProcessNetworkMap | src/org/minima/system/network/p2p/P2PMessageProcessor.java:387-409 | the in-place updates and the loop give exactly MapNetworkStep's state and messages |
| P2PProcessor.P2PMessageProcessor.StoreNetworkMapReport | src/org/minima/system/network/p2p/P2PMessageProcessor.java:389-391 | the report is stored under its reporter, and the reporter's request is withdrawn |
| P2PProcessor.P2PMessageProcessor.ConnectForMapping | src/org/minima/system/network/p2p/P2PMessageProcessor.java:399-403 | the loop tags each address MAPPING in turn and posts its CONNECT |
| P2PProcessor.P2PMessageProcessor.ProcessPrintNetworkMapRequest | src/org/minima/system/network/p2p/P2PMessageProcessor.java:411-426 | the request becomes pending; the targets are visited in the order VisitOrder describes; the outcome is PrintRequestStep's for that order |
| P2PProcessor.ListSet | src/org/minima/system/network/p2p/P2PMessageProcessor.java:414-414 | lists the addresses of a set, each exactly once, in some order |
| P2PProcessor.P2PMessageProcessor.ProcessPrintNetworkMapResponse | src/org/minima/system/network/p2p/P2PMessageProcessor.java:429-447 | changes nothing, the pending request included. Without a pending request nothing is posted; with one, exactly one answer to it, holding one node per network-map entry (PrintResponseOut over an enumeration of the keys) |
| P2PProcessor.P2PMessageProcessor.ProcessMessage | src/org/minima/system/network/p2p/P2PMessageProcessor.java:152-218 | each kind goes to exactly its handler, unknown kinds do nothing, and the empty-path exception is caught; only PRINT_NETWORK_MAP changes the pending request |

## Left out

- P2PProcessor.P2PMessageProcessor.constructor: the first LOOP timer (10000 ms) that this constructor posts is not modelled, because a Dafny constructor returns no messages.
- The `P2PState` constructor and its loading of `p2pdata.json` are not modelled. Both processor constructors take the restored state as a parameter.
- Resolving `hostIP` through `InetAddress.getByName` is not modelled: the host is a string. When the lookup fails, the source only logs, `hostIP` stays null, and `new InetSocketAddress(null, port)` at lines 91 and 111 builds the wildcard address. That would change the node's own address, and with it the self-connect filter of CONNECT; the model does not capture this path.
- P2PProcessor.P2PMessageProcessor.Default: builds the corrected own address localhost:9001. The source as written builds port 0 (see Findings, DefaultAddressAsWritten), so this constructor's contract differs from the code on purpose.
- The links and the random sample are modelled as sets. Their Java collection types belong to P2PState, which is not part of this model.
- Collaborator randomness and clocks are not inputs of the model: each collaborator is a fixed function of the topology and its arguments. `dropExpiredMessages` likewise sees only the topology, and no expiry ledger or time.
- SHUTDOWN saves the node list with `SaveNodeList` and stops the processor's thread. Both are I/O and thread control, so SHUTDOWN is modelled as changing no topology state and posting nothing.
- The bodies of the collaborators (`JoiningFuncs`, `WalkLinksFuncs`, `SwapFuncs`, `GreetingFuncs`, `DisconnectionFuncs`, `StartupFuncs`) are not modelled. Those classes are not part of this model; each is a parameter function that may change the topology.
- `P2PState.dropExpiredMessages` and the expiry ledger are a collaborator function for the same reason. The list of expired entries it returns is unused by the processor and is not modelled.
- `java.util.Random`: each draw is an arbitrary value in its range. ProcessLoop chooses it with `:|` and reports it as a ghost out-parameter.
- The order in which one collection is iterated is not modelled, because the collection types belong to P2PState. `ListSet` lists a set in an arbitrary order, and the network-map answer reads the keys in an arbitrary order; both orders are returned as ghost values, and the step functions take them as parameters. The grouping of line 414 is modelled: the random sample, then the out-links, then the in-links, with first occurrences kept (`VisitOrder`, `VisitOrderGroups`).
- PrintResponseOut: the answer carries the node reports but not the JSON `links` array, and not the JSON rendering. The RPC response object belongs to the node's command front-end, which is not part of this model.
- The message queue, threading, and delivery of timer messages are not modelled. Each post is an element of the returned sequence, tagged by destination.
- Logging is not modelled. Exceptions other than reading the first entry of an empty walk path are not modelled either; class-cast failures cannot occur in a typed model.
- `GlobalParams` is not modelled: the processor does not read it.
- Java `int` overflow of the DISCONNECT attempt counter is not modelled. The counter only reaches 3 on the retry path.

## Findings

| source | as written | input that shows it | evidently intended | confidence | as-written member | corrected member |
|---|---|---|---|---|---|---|
| src/org/minima/system/network/p2p/P2PMessageProcessor.java:91-92 | the default constructor builds the node's own address with `getMinimaPort()` before `minimaPort` is assigned 9001, so the address has port 0 | a processor built with the default constructor on host h receives P2P_CONNECT for h:9001; the self-connect filter does not match, so the node dials itself | the own address is h:9001, as in the second constructor, which assigns the port first (lines 104 and 111) | not executed | P2PProcessor.DefaultAddressMissesSelfConnect | P2PProcessor.DefaultAddressFiltersSelfConnect |
