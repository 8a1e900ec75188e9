/**
 * The P2P message processor: one handler per message kind, each specified by a
 * step function over the topology, the dispatch that routes a message to exactly
 * one handler, and the class that owns the state and performs the steps in place.
 */
module P2PProcessor {
  import opened P2PTypes
  import opened P2PDecisions
  import opened P2PNetworkMap

  const DesiredLinks := 5
  const DefaultMinimaPort := 9001
  /** Java's value of an int field that has not been assigned yet. */
  const UnassignedPort := 0

  /** The text of a retried DISCONNECT's reason. */
  function RetryReason(reason: string, attempt: int): (r: string)
    ensures |r| > |reason| + 10
    ensures r[..|reason|] == reason
    ensures r[|reason|..|reason| + 10] == " attempt: "
    ensures r[|reason| + 10..] == IntToString(attempt)
  {
    reason + " attempt: " + IntToString(attempt)
  }

  // ---------------------------------------------------------------------------
  // One step function per handler.

  /** CONNECT: dial any address but the node's own; the own address is dropped from the random sample. */
  function ConnectStep(t: Topology, address: Address): (r: Step)
    ensures r.out == [] <==> address == t.selfAddress
    ensures address != t.selfAddress ==> r.out == [NetConnect(address)] && r.state == t
    ensures NetConnect(t.selfAddress) !in r.out
    ensures address == t.selfAddress ==>
              && address !in r.state.randomNodeSet
              && r.state.randomNodeSet + {address} == t.randomNodeSet + {address}
              && r.state == t.(randomNodeSet := r.state.randomNodeSet)
  {
    if t.selfAddress != address then Step(t, [NetConnect(address)])
    else Step(t.(randomNodeSet := t.randomNodeSet - {address}), [])
  }

  /** DISCONNECT: close a tracked link now, otherwise retry in a second, at most up to attempt 3. */
  function DisconnectStep(t: Topology, client: Client, reason: string, attempt: int): (r: Step)
    ensures r.state == t
    ensures |r.out| <= 1
    ensures Tracked(t, client.minimaAddress) ==> r.out == [NetDisconnect(client.uid)]
    ensures !Tracked(t, client.minimaAddress) && attempt < MaxDisconnectAttempts ==>
              r.out == [TimerDisconnect(DisconnectRetryDelay, client, attempt + 1, RetryReason(reason, attempt))]
    ensures !Tracked(t, client.minimaAddress) && attempt >= MaxDisconnectAttempts ==> r.out == []
  {
    match DisconnectDecision(Tracked(t, client.minimaAddress), attempt)
    case CloseConnection => Step(t, [NetDisconnect(client.uid)])
    case RetryLater(next) => Step(t, [TimerDisconnect(DisconnectRetryDelay, client, next, RetryReason(reason, attempt))])
    case Abandon => Step(t, [])
  }

  /**
   * Redelivering an untracked DISCONNECT each time its timer fires walks the retry
   * chain: the attempt it schedules is the chain's next one, and it schedules
   * nothing exactly when the chain is exhausted.
   */
  lemma DisconnectFollowsRetryChain(t: Topology, client: Client, reason: string, attempt: int)
    requires !Tracked(t, client.minimaAddress)
    ensures DisconnectStep(t, client, reason, attempt).out == [] <==> RetryChain(attempt) == []
    ensures RetryChain(attempt) != [] ==>
              DisconnectStep(t, client, reason, attempt).out[0].TimerDisconnect? &&
              DisconnectStep(t, client, reason, attempt).out[0].attempt == RetryChain(attempt)[0]
  {
    RetryChainIsBounded(attempt);
  }

  /** ON_CONNECTED: an outgoing connection becomes an out-link; an incoming one changes nothing. */
  function OnConnectedStep(t: Topology, client: Client): (r: Step)
    ensures r.out == []
    ensures client.incoming ==> r.state == t
    ensures !client.incoming ==> r.state.outLinks == t.outLinks + {client.minimaAddress}
    ensures r.state == t.(outLinks := r.state.outLinks)
  {
    if client.incoming then Step(t, []) else Step(t.(outLinks := t.outLinks + {client.minimaAddress}), [])
  }

  /** RENDEZVOUS: ignored once the rendezvous is complete, otherwise handed to the startup collaborator. */
  function RendezvousStep(f: Collaborators, t: Topology, rendezvous: RendezvousData, client: Client): (r: Step)
    ensures r.out == []
    ensures t.rendezvousComplete ==> r.state == t
    ensures !t.rendezvousComplete ==> r.state == f.processOnRendezvousMsg(t, rendezvous, client)
  {
    if t.rendezvousComplete then Step(t, []) else Step(f.processOnRendezvousMsg(t, rendezvous, client), [])
  }

  /** ON_GREETED: every message the greeting collaborator returns is posted. */
  function OnGreetedStep(f: Collaborators, t: Topology, greeting: Greeting, client: Client): (r: Step)
    ensures r.state == f.onGreetedMsg(t, greeting, client).state
    ensures r.out == f.onGreetedMsg(t, greeting, client).result
  {
    var e := f.onGreetedMsg(t, greeting, client);
    Step(e.state, e.result)
  }

  /** ON_DISCONNECTED: the repair collaborator for the link's direction runs; its one message, if any, is posted. */
  function OnDisconnectedStep(f: Collaborators, t: Topology, client: Client, clients: seq<Client>): (r: Step)
    ensures |r.out| <= 1
    ensures client.incoming ==> r.state == f.onInLinkDisconnected(t, client, clients).state
    ensures client.incoming ==> r.out == PostIfPresent(f.onInLinkDisconnected(t, client, clients).result)
    ensures !client.incoming ==> r.state == f.onOutLinkDisconnected(t, client, clients).state
    ensures !client.incoming ==> r.out == PostIfPresent(f.onOutLinkDisconnected(t, client, clients).result)
  {
    var e := if client.incoming then f.onInLinkDisconnected(t, client, clients)
             else f.onOutLinkDisconnected(t, client, clients);
    Step(e.state, PostIfPresent(e.result))
  }

  /** WALK_LINKS: the walk collaborator for the walk's direction runs; its one message, if any, is posted. */
  function WalkLinksStep(f: Collaborators, t: Topology, walk: WalkLinks, clients: seq<Client>): (r: Step)
    ensures |r.out| <= 1
    ensures walk.walkInLinks ==> r.state == f.onInLinkWalkMsg(t, walk, clients).state
    ensures walk.walkInLinks ==> r.out == PostIfPresent(f.onInLinkWalkMsg(t, walk, clients).result)
    ensures !walk.walkInLinks ==> r.state == f.onOutLinkWalkMsg(t, walk, clients).state
    ensures !walk.walkInLinks ==> r.out == PostIfPresent(f.onOutLinkWalkMsg(t, walk, clients).result)
  {
    var e := if walk.walkInLinks then f.onInLinkWalkMsg(t, walk, clients)
             else f.onOutLinkWalkMsg(t, walk, clients);
    Step(e.state, PostIfPresent(e.result))
  }

  /**
   * WALK_LINKS_RESPONSE: a walk whose path starts at this node has returned to its origin;
   * any other is forwarded. An empty path makes the path lookup fail: the failure is caught
   * at the dispatch and nothing is posted or changed. The Option is None exactly then.
   */
  function WalkResponseStep(f: Collaborators, t: Topology, walk: WalkLinks, clients: seq<Client>): (r: Option<Step>)
    ensures r.None? <==> walk.pathTaken == []
    ensures r.Some? ==> |r.value.out| <= 1
    ensures r.Some? && walk.pathTaken[0] == t.selfAddress ==>
              r.value == Step(f.onReturnedWalkMsg(t, walk).state, PostIfPresent(f.onReturnedWalkMsg(t, walk).result))
    ensures r.Some? && walk.pathTaken[0] != t.selfAddress ==>
              r.value == Step(f.onWalkLinkResponseMsg(t, walk, clients).state,
                              PostIfPresent(f.onWalkLinkResponseMsg(t, walk, clients).result))
  {
    match WalkRouteOf(t.selfAddress, walk.pathTaken)
    case EmptyPathFault => None
    case ReturnedToOrigin =>
      var e := f.onReturnedWalkMsg(t, walk);
      Some(Step(e.state, PostIfPresent(e.result)))
    case ForwardResponse =>
      var e := f.onWalkLinkResponseMsg(t, walk, clients);
      Some(Step(e.state, PostIfPresent(e.result)))
  }

  /** SWAP_LINK: a swap-client request goes to onSwapClientsReq, every other request to onSwapReq. */
  function SwapLinkStep(f: Collaborators, t: Topology, swap: SwapLink, clients: seq<Client>): (r: Step)
    ensures |r.out| <= 1
    ensures swap.swapClientReq ==> r.state == f.onSwapClientsReq(t, swap, clients).state
    ensures swap.swapClientReq ==> r.out == PostIfPresent(f.onSwapClientsReq(t, swap, clients).result)
    ensures !swap.swapClientReq ==> r.state == f.onSwapReq(t, swap, clients).state
    ensures !swap.swapClientReq ==> r.out == PostIfPresent(f.onSwapReq(t, swap, clients).result)
  {
    var e := match SwapHandlerFor(swap, |t.inLinks|, t.numLinks)
             case OnSwapClientsReq => f.onSwapClientsReq(t, swap, clients)
             case OnSwapReq => f.onSwapReq(t, swap, clients);
    Step(e.state, PostIfPresent(e.result))
  }

  /** DO_SWAP: the swap is executed, its messages posted, and the peer's connection marked DO_SWAP. */
  function DoSwapStep(f: Collaborators, t: Topology, doSwap: DoSwapData, client: Client): (r: Step)
    ensures client.minimaAddress in r.state.connectionDetailsMap
    ensures r.state.connectionDetailsMap[client.minimaAddress] == ConnectionDetails(DoSwap)
    ensures forall a :: a != client.minimaAddress ==>
              (a in r.state.connectionDetailsMap <==> a in f.executeDoSwap(t, doSwap, client).state.connectionDetailsMap)
    ensures forall a :: a != client.minimaAddress && a in r.state.connectionDetailsMap ==>
              r.state.connectionDetailsMap[a] == f.executeDoSwap(t, doSwap, client).state.connectionDetailsMap[a]
    ensures r.state == f.executeDoSwap(t, doSwap, client).state.(connectionDetailsMap := r.state.connectionDetailsMap)
    ensures r.out == f.executeDoSwap(t, doSwap, client).result
  {
    var e := f.executeDoSwap(t, doSwap, client);
    Step(e.state.(connectionDetailsMap := e.state.connectionDetailsMap[client.minimaAddress := ConnectionDetails(DoSwap)]),
         e.result)
  }

  /** The join collaborator a tier calls; NoJoin calls none. */
  function JoinEffect(f: Collaborators, tier: JoinTier, t: Topology, clients: seq<Client>): (e: Effect<seq<Msg>>)
    ensures tier == JoinRendezvous ==> e == f.joinRendezvousNode(t, clients)
    ensures tier == JoinEntryNode ==> e == f.joinEntryNode(t, clients)
    ensures tier == JoinScaleOut ==> e == f.joinScaleOutLinks(t, clients)
    ensures tier == NoJoin ==> e.state == t && e.result == []
  {
    match tier
    case JoinRendezvous => f.joinRendezvousNode(t, clients)
    case JoinEntryNode => f.joinEntryNode(t, clients)
    case JoinScaleOut => f.joinScaleOutLinks(t, clients)
    case NoJoin => Effect(t, [])
  }

  /**
   * LOOP, given the two random draws: the tier's join messages are posted, expired
   * entries are dropped, and exactly one LOOP timer is set with the tier's delay.
   */
  function LoopStep(f: Collaborators, t: Topology, clients: seq<Client>, slowDraw: int, fastDraw: int): (r: Step)
    requires 0 <= slowDraw < SlowLoopJitter && 0 <= fastDraw < FastLoopJitter
    ensures var tier := LoopTier(t.rendezvousComplete, |t.outLinks|, t.numLinks);
            var joined := JoinEffect(f, tier, t, clients);
            && |r.out| == |joined.result| + 1
            && r.out[..|joined.result|] == joined.result
            && r.out[|joined.result|].TimerLoop?
            && DelayInRange(tier, r.out[|joined.result|].delay)
            && r.state == f.dropExpiredMessages(joined.state)
  {
    var tier := LoopTier(t.rendezvousComplete, |t.outLinks|, t.numLinks);
    var joined := JoinEffect(f, tier, t, clients);
    Step(f.dropExpiredMessages(joined.state), joined.result + [TimerLoop(LoopDelay(tier, slowDraw, fastDraw))])
  }

  /** The addresses a PRINT_NETWORK_MAP request crawls: the random sample, the out-links and the in-links. */
  function MappingTargets(t: Topology): (targets: set<Address>)
    ensures forall a :: a in targets <==> a in t.randomNodeSet || a in t.outLinks || a in t.inLinks
  {
    t.randomNodeSet + t.outLinks + t.inLinks
  }

  /**
   * The order a print request visits its targets in: the random sample, then the
   * out-links, then the in-links, each collection in some order of its own, with
   * every address kept at its first occurrence.
   */
  ghost predicate VisitOrder(t: Topology, order: seq<Address>)
  {
    exists fromSample, fromOut, fromIn ::
      && IsEnumeration(fromSample, t.randomNodeSet)
      && IsEnumeration(fromOut, t.outLinks)
      && IsEnumeration(fromIn, t.inLinks)
      && order == Distinct(fromSample + fromOut + fromIn)
  }

  /** Such an order visits every target exactly once. */
  lemma VisitOrderEnumerates(t: Topology, order: seq<Address>)
    requires VisitOrder(t, order)
    ensures IsEnumeration(order, MappingTargets(t))
  {
    var fromSample, fromOut, fromIn :|
      && IsEnumeration(fromSample, t.randomNodeSet)
      && IsEnumeration(fromOut, t.outLinks)
      && IsEnumeration(fromIn, t.inLinks)
      && order == Distinct(fromSample + fromOut + fromIn);
  }

  /**
   * Such an order visits the random sample first, then the out-links not in it,
   * then the remaining in-links.
   */
  lemma VisitOrderGroups(t: Topology, order: seq<Address>)
    requires VisitOrder(t, order)
    ensures forall i, j :: 0 <= i < j < |order| && order[j] in t.randomNodeSet ==> order[i] in t.randomNodeSet
    ensures forall i, j :: 0 <= i < j < |order| && order[j] in t.randomNodeSet + t.outLinks ==>
              order[i] in t.randomNodeSet + t.outLinks
  {
    var fromSample, fromOut, fromIn :|
      && IsEnumeration(fromSample, t.randomNodeSet)
      && IsEnumeration(fromOut, t.outLinks)
      && IsEnumeration(fromIn, t.inLinks)
      && order == Distinct(fromSample + fromOut + fromIn);
    assert fromSample + fromOut + fromIn == fromSample + (fromOut + fromIn);
    assert order == Distinct(fromSample + (fromOut + fromIn));
    DistinctKeepsGroups(fromSample, fromOut + fromIn);
    DistinctKeepsGroups(fromSample + fromOut, fromIn);
    forall i, j | 0 <= i < j < |order| && order[j] in t.randomNodeSet ensures order[i] in t.randomNodeSet {
      assert order[j] in fromSample;
    }
    forall a ensures a in fromSample + fromOut <==> a in t.randomNodeSet + t.outLinks {
    }
  }

  /**
   * PRINT_NETWORK_MAP, given the order the targets are visited in: each target is
   * tagged MAPPING and connected to, then the 29-second completion timer is set.
   */
  function PrintRequestStep(t: Topology, order: seq<Address>): (r: Step)
    requires IsEnumeration(order, MappingTargets(t))
    ensures |r.out| == |MappingTargets(t)| + 1
    ensures r.out[|r.out| - 1] == TimerPrintMapResponse(PrintMapTimeout)
  {
    EnumerationLength(order, MappingTargets(t));
    Step(t.(connectionDetailsMap := TagAll(t.connectionDetailsMap, order)),
         ConnectAll(order) + [TimerPrintMapResponse(PrintMapTimeout)])
  }

  /** A print request connects, with the mapping reason, to every target exactly once and to nothing else. */
  lemma PrintRequestConnectsTargets(t: Topology, order: seq<Address>)
    requires IsEnumeration(order, MappingTargets(t))
    ensures forall a :: Connect(a, MappingReason) in PrintRequestStep(t, order).out <==> a in MappingTargets(t)
    ensures forall i :: 0 <= i < |PrintRequestStep(t, order).out| - 1 ==>
              PrintRequestStep(t, order).out[i].Connect? && PrintRequestStep(t, order).out[i].reason == MappingReason
    ensures forall i, j :: 0 <= i < j < |PrintRequestStep(t, order).out| ==>
              PrintRequestStep(t, order).out[i] != PrintRequestStep(t, order).out[j]
  {
    var connects := ConnectAll(order);
    var out := PrintRequestStep(t, order).out;
    assert out == connects + [TimerPrintMapResponse(PrintMapTimeout)];
    ConnectAllTargets(order);
    ConnectAllOnce(order);
    forall a ensures Connect(a, MappingReason) in out <==> a in order {
      assert Connect(a, MappingReason) in out <==> Connect(a, MappingReason) in connects;
    }
    forall i | 0 <= i < |out| - 1 ensures out[i].Connect? && out[i].reason == MappingReason {
      assert out[i] == connects[i];
    }
    forall i, j | 0 <= i < j < |out| ensures out[i] != out[j] {
      if j < |connects| {
        assert out[i] == connects[i] && out[j] == connects[j];
      } else {
        assert out[i] == connects[i];
      }
    }
  }

  /**
   * A print request tags every target MAPPING, keeps every other connection reason,
   * and leaves the links, the network map and the outstanding requests as they were.
   */
  lemma PrintRequestTagsTargets(t: Topology, order: seq<Address>)
    requires IsEnumeration(order, MappingTargets(t))
    ensures var s := PrintRequestStep(t, order).state;
            && SameLinks(t, s)
            && s.networkMap == t.networkMap
            && s.activeMappingRequests == t.activeMappingRequests
            && (forall a :: a in s.connectionDetailsMap <==> a in t.connectionDetailsMap || a in MappingTargets(t))
            && (forall a :: a in MappingTargets(t) ==> s.connectionDetailsMap[a] == ConnectionDetails(Mapping))
            && (forall a :: a in t.connectionDetailsMap && a !in MappingTargets(t) ==>
                             s.connectionDetailsMap[a] == t.connectionDetailsMap[a])
  {
    TagAllTags(t.connectionDetailsMap, order);
  }

  /** The reports of the network map along `order`. */
  function ReportsAlong(networkMap: map<Address, NetworkMap>, order: seq<Address>): (nodes: seq<NetworkMap>)
    requires forall a :: a in order ==> a in networkMap
    ensures |nodes| == |order|
    ensures forall i :: 0 <= i < |order| ==> nodes[i] == networkMap[order[i]]
  {
    if order == [] then [] else [networkMap[order[0]]] + ReportsAlong(networkMap, order[1..])
  }

  /** Along an enumeration of its keys, the answer holds one node entry per network-map entry. */
  lemma AnswerHasOneNodePerEntry(networkMap: map<Address, NetworkMap>, order: seq<Address>)
    requires IsEnumeration(order, networkMap.Keys)
    ensures |ReportsAlong(networkMap, order)| == |networkMap|
    ensures forall a :: a in networkMap ==> networkMap[a] in ReportsAlong(networkMap, order)
    ensures forall n :: n in ReportsAlong(networkMap, order) ==> n in networkMap.Values
  {
    EnumerationLength(order, networkMap.Keys);
    var nodes := ReportsAlong(networkMap, order);
    forall a | a in networkMap ensures networkMap[a] in nodes {
      var k :| 0 <= k < |order| && order[k] == a;
      assert nodes[k] == networkMap[a];
    }
  }

  /** PRINT_NETWORK_MAP_RESPONSE: nothing without a pending request, otherwise its answer. */
  function PrintResponseOut(pending: Option<RpcRequest>, networkMap: map<Address, NetworkMap>, order: seq<Address>): (out: seq<Msg>)
    requires forall a :: a in order ==> a in networkMap
    ensures pending.None? ==> out == []
    ensures pending.Some? ==> |out| == 1 && out[0].MapAnswer? && out[0].request == pending.value
    ensures pending.Some? ==> |out[0].nodes| == |order| &&
                              forall i :: 0 <= i < |order| ==> out[0].nodes[i] == networkMap[order[i]]
    ensures pending.Some? ==> out[0].nodes == ReportsAlong(networkMap, order)
  {
    match pending
    case None => []
    case Some(request) => [MapAnswer(request, ReportsAlong(networkMap, order))]
  }

  // ---------------------------------------------------------------------------
  // The dispatch: which step a message kind takes.

  datatype ProcessorState = ProcessorState(topology: Topology, pendingPrintReq: Option<RpcRequest>)

  /**
   * Processing `m` in state `s` may lead to `s'`, posting `out`; `fault` is an
   * exception caught at the dispatch. Every kind but PRINT_NETWORK_MAP keeps the
   * pending request; unknown kinds, INIT among them, change nothing.
   */
  ghost predicate Handled(f: Collaborators, s: ProcessorState, m: Inbound, clients: seq<Client>,
                          s': ProcessorState, out: seq<Msg>, fault: bool)
  {
    var t := s.topology;
    var result := Step(s'.topology, out);
    && (m.PrintNetworkMapMsg? || s'.pendingPrintReq == s.pendingPrintReq)
    && (fault <==> m.WalkLinksResponseMsg? && m.response.pathTaken == [])
    && match m
       case SendMessage(target, message) => result == Step(t, [SendTo(target, message)])
       case Shutdown => result == Step(t, [])
       case OnGreeted(greeting, client) => result == OnGreetedStep(f, t, greeting, client)
       case RendezvousMsg(rendezvous, client) => result == RendezvousStep(f, t, rendezvous, client)
       case OnConnected(client) => result == OnConnectedStep(t, client)
       case OnDisconnected(client) => result == OnDisconnectedStep(f, t, client, clients)
       case ConnectMsg(address, _) => result == ConnectStep(t, address)
       case DisconnectMsg(client, reason, attempt) => result == DisconnectStep(t, client, reason, attempt)
       case LoopMsg =>
         exists slow, fast :: 0 <= slow < SlowLoopJitter && 0 <= fast < FastLoopJitter &&
                              result == LoopStep(f, t, clients, slow, fast)
       case WalkLinksMsg(walk) => result == WalkLinksStep(f, t, walk, clients)
       case WalkLinksResponseMsg(walk) =>
         result == (match WalkResponseStep(f, t, walk, clients) case None => Step(t, []) case Some(step) => step)
       case SwapLinkMsg(swap) => result == SwapLinkStep(f, t, swap, clients)
       case DoSwapMsg(doSwap, client) => result == DoSwapStep(f, t, doSwap, client)
       case MapNetworkMsg(report) => result == MapNetworkStep(t, report)
       case PrintNetworkMapMsg(request) =>
         && s'.pendingPrintReq == Some(request)
         && exists order :: VisitOrder(t, order) && IsEnumeration(order, MappingTargets(t)) &&
                            result == PrintRequestStep(t, order)
       case PrintNetworkMapResponseMsg =>
         && s'.topology == t
         && exists order :: IsEnumeration(order, t.networkMap.Keys) && out == PrintResponseOut(s.pendingPrintReq, t.networkMap, order)
       case UnknownMsg(_) => result == Step(t, [])
  }

  /** SHUTDOWN and unknown kinds leave the processor as it was and post nothing. */
  lemma QuietKindsChangeNothing(f: Collaborators, s: ProcessorState, m: Inbound, clients: seq<Client>,
                                s': ProcessorState, out: seq<Msg>, fault: bool)
    requires m.Shutdown? || m.UnknownMsg?
    requires Handled(f, s, m, clients, s', out, fault)
    ensures s' == s && out == [] && !fault
  {
  }

  /**
   * The dispatch adds no choice of its own: with the collaborators' results fixed by
   * `f`, every kind but LOOP, whose delay is random, and the two print kinds, whose
   * order of visit is unspecified, has exactly one outcome. Randomness or a clock
   * inside a collaborator is fixed by `f` too and is not an input of this model.
   */
  lemma DispatchIsDeterministic(f: Collaborators, s: ProcessorState, m: Inbound, clients: seq<Client>,
                                s1: ProcessorState, out1: seq<Msg>, fault1: bool,
                                s2: ProcessorState, out2: seq<Msg>, fault2: bool)
    requires !m.LoopMsg? && !m.PrintNetworkMapMsg? && !m.PrintNetworkMapResponseMsg?
    requires Handled(f, s, m, clients, s1, out1, fault1)
    requires Handled(f, s, m, clients, s2, out2, fault2)
    ensures s1 == s2 && out1 == out2 && fault1 == fault2
  {
    assert Step(s1.topology, out1) == Step(s2.topology, out2);
  }

  // ---------------------------------------------------------------------------
  // The default constructor's own address.

  /** As written, the default constructor builds its address before it assigns the port, so the port is 0. */
  function DefaultAddressAsWritten(localHost: string): (a: Address)
    ensures a.host == localHost && a.port == UnassignedPort
  {
    Address(localHost, UnassignedPort)
  }

  /** As written, a CONNECT to the node's own listening address is not recognised as a self-connection. */
  lemma DefaultAddressMissesSelfConnect(t: Topology, localHost: string)
    requires t.selfAddress == DefaultAddressAsWritten(localHost)
    ensures ConnectStep(t, Address(localHost, DefaultMinimaPort)).out == [NetConnect(Address(localHost, DefaultMinimaPort))]
  {
  }

  /** The address the default constructor evidently means: the port it assigns. */
  function DefaultSelfAddress(localHost: string): (a: Address)
    ensures a.host == localHost && a.port == DefaultMinimaPort
  {
    Address(localHost, DefaultMinimaPort)
  }

  /** With the intended address, a CONNECT to the node's own listening address is filtered. */
  lemma DefaultAddressFiltersSelfConnect(t: Topology, localHost: string)
    requires t.selfAddress == DefaultSelfAddress(localHost)
    ensures ConnectStep(t, Address(localHost, DefaultMinimaPort)).out == []
  {
  }

  // ---------------------------------------------------------------------------
  // The processor.

  class P2PMessageProcessor {
    var selfAddress: Address
    var outLinks: set<Address>
    var inLinks: set<Address>
    var clientLinks: set<Address>
    var randomNodeSet: set<Address>
    var rendezvousComplete: bool
    var numLinks: int
    var networkMap: map<Address, NetworkMap>
    var activeMappingRequests: set<Address>
    var connectionDetailsMap: map<Address, ConnectionDetails>
    /** The PRINT_NETWORK_MAP request waiting for its answer. */
    var pendingPrintReq: Option<RpcRequest>
    const funcs: Collaborators

    /** The topology the fields hold. */
    function Topo(): Topology
      reads this
    {
      Topology(selfAddress, outLinks, inLinks, clientLinks, randomNodeSet, rendezvousComplete,
               numLinks, networkMap, activeMappingRequests, connectionDetailsMap)
    }

    function State(): ProcessorState
      reads this
    {
      ProcessorState(Topo(), pendingPrintReq)
    }

    /**
     * The processor for `hostIP:minimaPort`. `restored` is the P2PState as its own
     * constructor leaves it; the processor gives it its address and 5 desired links.
     */
    constructor (restored: Topology, hostIP: string, minimaPort: int, funcs: Collaborators)
      ensures Topo() == restored.(selfAddress := Address(hostIP, minimaPort), numLinks := DesiredLinks)
      ensures pendingPrintReq == None
      ensures this.funcs == funcs
    {
      selfAddress := Address(hostIP, minimaPort);
      outLinks := restored.outLinks;
      inLinks := restored.inLinks;
      clientLinks := restored.clientLinks;
      randomNodeSet := restored.randomNodeSet;
      rendezvousComplete := restored.rendezvousComplete;
      numLinks := DesiredLinks;
      networkMap := restored.networkMap;
      activeMappingRequests := restored.activeMappingRequests;
      connectionDetailsMap := restored.connectionDetailsMap;
      pendingPrintReq := None;
      this.funcs := funcs;
    }

    /** The default processor on the local host, with the port it assigns. */
    constructor Default(restored: Topology, localHost: string, funcs: Collaborators)
      ensures Topo() == restored.(selfAddress := DefaultSelfAddress(localHost), numLinks := DesiredLinks)
      ensures pendingPrintReq == None
      ensures this.funcs == funcs
    {
      selfAddress := DefaultSelfAddress(localHost);
      outLinks := restored.outLinks;
      inLinks := restored.inLinks;
      clientLinks := restored.clientLinks;
      randomNodeSet := restored.randomNodeSet;
      rendezvousComplete := restored.rendezvousComplete;
      numLinks := DesiredLinks;
      networkMap := restored.networkMap;
      activeMappingRequests := restored.activeMappingRequests;
      connectionDetailsMap := restored.connectionDetailsMap;
      pendingPrintReq := None;
      this.funcs := funcs;
    }

    /** Takes over the topology a collaborator left behind. */
    method Adopt(t: Topology)
      modifies this
      ensures Topo() == t
      ensures pendingPrintReq == old(pendingPrintReq)
    {
      selfAddress, outLinks, inLinks, clientLinks := t.selfAddress, t.outLinks, t.inLinks, t.clientLinks;
      randomNodeSet, rendezvousComplete, numLinks := t.randomNodeSet, t.rendezvousComplete, t.numLinks;
      networkMap, activeMappingRequests := t.networkMap, t.activeMappingRequests;
      connectionDetailsMap := t.connectionDetailsMap;
    }

    method ProcessConnect(address: Address, reason: string) returns (out: seq<Msg>)
      modifies this
      ensures Step(Topo(), out) == ConnectStep(old(Topo()), address)
      ensures pendingPrintReq == old(pendingPrintReq)
    {
      if selfAddress != address {
        out := [NetConnect(address)];
      } else {
        randomNodeSet := randomNodeSet - {address};
        out := [];
      }
    }

    method ProcessDisconnect(client: Client, reason: string, attempt: int) returns (out: seq<Msg>)
      ensures Step(Topo(), out) == DisconnectStep(Topo(), client, reason, attempt)
    {
      var a := client.minimaAddress;
      if a in outLinks || a in inLinks || a in clientLinks {
        out := [NetDisconnect(client.uid)];
      } else if attempt < MaxDisconnectAttempts {
        out := [TimerDisconnect(DisconnectRetryDelay, client, attempt + 1, RetryReason(reason, attempt))];
      } else {
        out := [];
      }
    }

    method ProcessOnConnected(client: Client) returns (out: seq<Msg>)
      modifies this
      ensures Step(Topo(), out) == OnConnectedStep(old(Topo()), client)
      ensures pendingPrintReq == old(pendingPrintReq)
    {
      if !client.incoming {
        outLinks := outLinks + {client.minimaAddress};
      }
      out := [];
    }

    method ProcessOnRendezvous(rendezvous: RendezvousData, client: Client) returns (out: seq<Msg>)
      modifies this
      ensures Step(Topo(), out) == RendezvousStep(funcs, old(Topo()), rendezvous, client)
      ensures pendingPrintReq == old(pendingPrintReq)
    {
      out := [];
      if rendezvousComplete {
        return;
      }
      Adopt(funcs.processOnRendezvousMsg(Topo(), rendezvous, client));
    }

    method ProcessOnGreeted(greeting: Greeting, client: Client) returns (out: seq<Msg>)
      modifies this
      ensures Step(Topo(), out) == OnGreetedStep(funcs, old(Topo()), greeting, client)
      ensures pendingPrintReq == old(pendingPrintReq)
    {
      var e := funcs.onGreetedMsg(Topo(), greeting, client);
      Adopt(e.state);
      out := e.result;
    }

    method ProcessOnDisconnected(client: Client, clients: seq<Client>) returns (out: seq<Msg>)
      modifies this
      ensures Step(Topo(), out) == OnDisconnectedStep(funcs, old(Topo()), client, clients)
      ensures pendingPrintReq == old(pendingPrintReq)
    {
      var e;
      if client.incoming {
        e := funcs.onInLinkDisconnected(Topo(), client, clients);
      } else {
        e := funcs.onOutLinkDisconnected(Topo(), client, clients);
      }
      Adopt(e.state);
      out := PostIfPresent(e.result);
    }

    method ProcessWalkLinks(walk: WalkLinks, clients: seq<Client>) returns (out: seq<Msg>)
      modifies this
      ensures Step(Topo(), out) == WalkLinksStep(funcs, old(Topo()), walk, clients)
      ensures pendingPrintReq == old(pendingPrintReq)
    {
      var e;
      if walk.walkInLinks {
        e := funcs.onInLinkWalkMsg(Topo(), walk, clients);
      } else {
        e := funcs.onOutLinkWalkMsg(Topo(), walk, clients);
      }
      Adopt(e.state);
      out := PostIfPresent(e.result);
    }

    /** `fault` reports the failed lookup of an empty path, which the dispatch catches. */
    method ProcessWalkLinksResponse(walk: WalkLinks, clients: seq<Client>) returns (out: seq<Msg>, fault: bool)
      modifies this
      ensures fault <==> walk.pathTaken == []
      ensures fault ==> out == [] && Topo() == old(Topo())
      ensures !fault ==> WalkResponseStep(funcs, old(Topo()), walk, clients) == Some(Step(Topo(), out))
      ensures pendingPrintReq == old(pendingPrintReq)
    {
      if walk.pathTaken == [] {
        return [], true;
      }
      var e;
      if selfAddress == walk.pathTaken[0] {
        e := funcs.onReturnedWalkMsg(Topo(), walk);
      } else {
        e := funcs.onWalkLinkResponseMsg(Topo(), walk, clients);
      }
      Adopt(e.state);
      out, fault := PostIfPresent(e.result), false;
    }

    method ProcessSwapLink(swap: SwapLink, clients: seq<Client>) returns (out: seq<Msg>)
      modifies this
      ensures Step(Topo(), out) == SwapLinkStep(funcs, old(Topo()), swap, clients)
      ensures pendingPrintReq == old(pendingPrintReq)
    {
      var e;
      if swap.swapClientReq {
        e := funcs.onSwapClientsReq(Topo(), swap, clients);
      } else if swap.conditionalSwapReq && |inLinks| > numLinks {
        // more in-links than desired
        e := funcs.onSwapReq(Topo(), swap, clients);
      } else {
        e := funcs.onSwapReq(Topo(), swap, clients);
      }
      Adopt(e.state);
      out := PostIfPresent(e.result);
    }

    method ProcessDoSwap(doSwap: DoSwapData, client: Client) returns (out: seq<Msg>)
      modifies this
      ensures Step(Topo(), out) == DoSwapStep(funcs, old(Topo()), doSwap, client)
      ensures pendingPrintReq == old(pendingPrintReq)
    {
      var e := funcs.executeDoSwap(Topo(), doSwap, client);
      Adopt(e.state);
      out := e.result;
      connectionDetailsMap := connectionDetailsMap[client.minimaAddress := ConnectionDetails(DoSwap)];
    }

    /** `slowDraw` and `fastDraw` are the random draws the delay was built from. */
    method ProcessLoop(clients: seq<Client>) returns (out: seq<Msg>, ghost slowDraw: int, ghost fastDraw: int)
      modifies this
      ensures 0 <= slowDraw < SlowLoopJitter && 0 <= fastDraw < FastLoopJitter
      ensures Step(Topo(), out) == LoopStep(funcs, old(Topo()), clients, slowDraw, fastDraw)
      ensures pendingPrintReq == old(pendingPrintReq)
    {
      var slow :| 0 <= slow < SlowLoopJitter;
      var loopDelay := SlowLoopBase + slow;
      slowDraw, fastDraw := slow, 0;
      ghost var tier := LoopTier(rendezvousComplete, |outLinks|, numLinks);
      ghost var joined := JoinEffect(funcs, tier, Topo(), clients);
      var posted: seq<Msg> := [];
      if !rendezvousComplete {
        var e := funcs.joinRendezvousNode(Topo(), clients);
        Adopt(e.state);
        posted := e.result;
        var fast :| 0 <= fast < FastLoopJitter;
        loopDelay, fastDraw := FastLoopBase + fast, fast;
      } else if |outLinks| < EntryNodeThreshold {
        var e := funcs.joinEntryNode(Topo(), clients);
        Adopt(e.state);
        posted := e.result;
        var fast :| 0 <= fast < FastLoopJitter;
        loopDelay, fastDraw := FastLoopBase + fast, fast;
      } else if |outLinks| < numLinks {
        var e := funcs.joinScaleOutLinks(Topo(), clients);
        Adopt(e.state);
        posted := e.result;
      }
      assert Topo() == joined.state && posted == joined.result;
      Adopt(funcs.dropExpiredMessages(Topo()));
      out := posted + [TimerLoop(loopDelay)];
    }

    method ProcessNetworkMap(report: NetworkMap) returns (out: seq<Msg>)
      modifies this`networkMap, this`activeMappingRequests, this`connectionDetailsMap
      ensures Step(Topo(), out) == MapNetworkStep(old(Topo()), report)
    {
      StoreNetworkMapReport(report);
      ghost var stored := Topo();
      var newAddresses := MappingCandidates(report.addresses, networkMap.Keys);
      ghost var targets := FanOutTargets(stored, report);
      var connects := [];
      if |networkMap| < NetworkMapCap && newAddresses != [] {
        assert targets == newAddresses;
        connects := ConnectForMapping(newAddresses);
      } else {
        assert targets == [];
      }
      assert connects == ConnectAll(targets);
      assert connectionDetailsMap == TagAll(stored.connectionDetailsMap, targets);
      if activeMappingRequests == {} {
        out := connects + [PrintMapResponse];
      } else {
        out := connects;
      }
    }

    /** Stores a reply and withdraws its reporter's request. */
    method StoreNetworkMapReport(report: NetworkMap)
      modifies this`networkMap, this`activeMappingRequests
      ensures Topo() == StoreReport(old(Topo()), report)
    {
      networkMap := networkMap[report.nodeAddress := report];
      activeMappingRequests := activeMappingRequests - {report.nodeAddress};
    }

    /** Connects to each address in turn, tagging its connection as a mapping one. */
    method ConnectForMapping(addrs: seq<Address>) returns (out: seq<Msg>)
      modifies this`connectionDetailsMap
      ensures connectionDetailsMap == TagAll(old(connectionDetailsMap), addrs)
      ensures out == ConnectAll(addrs)
    {
      out := [];
      for i := 0 to |addrs|
        invariant connectionDetailsMap == TagAll(old(connectionDetailsMap), addrs[..i])
        invariant out == ConnectAll(addrs[..i])
      {
        connectionDetailsMap := connectionDetailsMap[addrs[i] := ConnectionDetails(Mapping)];
        out := out + [Connect(addrs[i], MappingReason)];
        assert addrs[..i + 1][..i] == addrs[..i];
        assert ConnectAll(addrs[..i + 1]) == ConnectAll(addrs[..i]) + [Connect(addrs[i], MappingReason)];
      }
      assert addrs[..|addrs|] == addrs;
    }

    /** `order` is the order the targets were visited in. */
    method ProcessPrintNetworkMapRequest(request: RpcRequest) returns (out: seq<Msg>, ghost order: seq<Address>)
      modifies this`pendingPrintReq, this`connectionDetailsMap
      ensures pendingPrintReq == Some(request)
      ensures VisitOrder(old(Topo()), order)
      ensures IsEnumeration(order, MappingTargets(old(Topo())))
      ensures Step(Topo(), out) == PrintRequestStep(old(Topo()), order)
    {
      ghost var before := Topo();
      pendingPrintReq := Some(request);
      var fromSample := ListSet(randomNodeSet);
      var fromOut := ListSet(outLinks);
      var fromIn := ListSet(inLinks);
      var addresses := Distinct(fromSample + fromOut + fromIn);
      assert VisitOrder(before, addresses);
      VisitOrderEnumerates(before, addresses);
      var connects := ConnectForMapping(addresses);
      order := addresses;
      out := connects + [TimerPrintMapResponse(PrintMapTimeout)];
      assert Topo() == before.(connectionDetailsMap := TagAll(before.connectionDetailsMap, order));
    }

    /** `order` is the order the network map's entries were read in. */
    method ProcessPrintNetworkMapResponse() returns (out: seq<Msg>, ghost order: seq<Address>)
      ensures pendingPrintReq.None? ==> out == []
      ensures pendingPrintReq.Some? ==>
                |out| == 1 && out[0].MapAnswer? && out[0].request == pendingPrintReq.value && |out[0].nodes| == |networkMap|
      ensures IsEnumeration(order, networkMap.Keys)
      ensures out == PrintResponseOut(pendingPrintReq, networkMap, order)
    {
      out, order := [], [];
      if pendingPrintReq.None? {
        // nothing to answer
        order := EnumerateKeys(networkMap.Keys);
        return;
      }
      var nodes: seq<NetworkMap> := [];
      var remaining := networkMap.Keys;
      while remaining != {}
        invariant remaining <= networkMap.Keys
        invariant NoDuplicates(order)
        invariant forall a :: a in order <==> a in networkMap && a !in remaining
        invariant nodes == ReportsAlong(networkMap, order)
        decreases |remaining|
      {
        var key :| key in remaining;
        nodes := nodes + [networkMap[key]];
        order := order + [key];
        remaining := remaining - {key};
      }
      EnumerationLength(order, networkMap.Keys);
      out := [MapAnswer(pendingPrintReq.value, nodes)];
    }

    /**
     * Routes one message to its handler. The exception of an empty walk path is caught
     * here and reported as `fault`; the processor goes on with the next message.
     */
    method ProcessMessage(m: Inbound, clients: seq<Client>) returns (out: seq<Msg>, fault: bool)
      modifies this
      ensures Handled(funcs, old(State()), m, clients, State(), out, fault)
    {
      fault := false;
      match m
      case SendMessage(target, message) =>
        out := [SendTo(target, message)];
      case Shutdown =>
        out := [];
      case OnGreeted(greeting, client) =>
        out := ProcessOnGreeted(greeting, client);
      case RendezvousMsg(rendezvous, client) =>
        out := ProcessOnRendezvous(rendezvous, client);
      case OnConnected(client) =>
        out := ProcessOnConnected(client);
      case OnDisconnected(client) =>
        out := ProcessOnDisconnected(client, clients);
      case ConnectMsg(address, reason) =>
        out := ProcessConnect(address, reason);
      case DisconnectMsg(client, reason, attempt) =>
        out := ProcessDisconnect(client, reason, attempt);
      case LoopMsg =>
        ghost var slow, fast;
        out, slow, fast := ProcessLoop(clients);
      case WalkLinksMsg(walk) =>
        out := ProcessWalkLinks(walk, clients);
      case WalkLinksResponseMsg(walk) =>
        out, fault := ProcessWalkLinksResponse(walk, clients);
      case SwapLinkMsg(swap) =>
        out := ProcessSwapLink(swap, clients);
      case DoSwapMsg(doSwap, client) =>
        out := ProcessDoSwap(doSwap, client);
      case MapNetworkMsg(report) =>
        out := ProcessNetworkMap(report);
      case PrintNetworkMapMsg(request) =>
        ghost var order;
        out, order := ProcessPrintNetworkMapRequest(request);
      case PrintNetworkMapResponseMsg =>
        ghost var order;
        out, order := ProcessPrintNetworkMapResponse();
      case UnknownMsg(_) =>
        out := [];
    }
  }

  /** Lists the addresses of a set, in some order, each once: the stream of a Java collection. */
  method ListSet(s: set<Address>) returns (order: seq<Address>)
    ensures IsEnumeration(order, s)
  {
    var remaining := s;
    order := [];
    while remaining != {}
      invariant remaining <= s
      invariant NoDuplicates(order)
      invariant forall a :: a in order <==> a in s && a !in remaining
      decreases |remaining|
    {
      var a :| a in remaining;
      order := order + [a];
      remaining := remaining - {a};
    }
  }

  /** Some enumeration of a finite set of addresses. */
  ghost function EnumerateKeys(s: set<Address>): (order: seq<Address>)
    ensures IsEnumeration(order, s)
    decreases |s|
  {
    if s == {} then []
    else
      var a :| a in s;
      var rest := EnumerateKeys(s - {a});
      assert a !in rest;
      [a] + rest
  }
}
