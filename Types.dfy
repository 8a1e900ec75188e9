/**
 * Values exchanged by the P2P message processor: addresses, peer clients,
 * protocol payloads, the messages it consumes and emits, the topology state
 * it owns, and the collaborator functions it delegates to.
 */
module P2PTypes {

  datatype Option<+T> = None | Some(value: T)

  /** A socket address (host and port); two addresses are equal when both parts are. */
  datatype Address = Address(host: string, port: int)

  /** A live peer connection as the transport layer presents it. */
  datatype Client = Client(uid: string, minimaAddress: Address, incoming: bool)

  /** Payloads this processor only passes through to collaborators. */
  type Greeting = string
  type RendezvousData = string
  type DoSwapData = string
  type RpcRequest = string

  /** A walk message: its direction flag and the path of addresses visited so far. */
  datatype WalkLinks = WalkLinks(walkInLinks: bool, pathTaken: seq<Address>)

  /** A swap-link request and the two flags that select its handler. */
  datatype SwapLink = SwapLink(swapClientReq: bool, conditionalSwapReq: bool)

  /** A peer's network-map reply: its own address and the addresses it reports. */
  datatype NetworkMap = NetworkMap(nodeAddress: Address, addresses: seq<Address>)

  /** Why a connection was opened; reasons set by collaborators are kept by name. */
  datatype ConnectionReason = Mapping | DoSwap | OtherReason(name: string)

  datatype ConnectionDetails = ConnectionDetails(reason: ConnectionReason)

  /** Messages the processor emits, wherever they are delivered. */
  datatype Msg =
    | Connect(address: Address, reason: string)                 // P2P_CONNECT to this processor
    | NetConnect(address: Address)                              // NETWORK_CONNECT to the network handler
    | NetDisconnect(uid: string)                                // NETWORK_DISCONNECT to the network handler
    | TimerDisconnect(delay: int, client: Client, attempt: int, reason: string)
    | TimerLoop(delay: int)                                     // P2P_LOOP after `delay` ms
    | PrintMapResponse                                          // P2P_PRINT_NETWORK_MAP_RESPONSE, now
    | TimerPrintMapResponse(delay: int)                         // the same, after `delay` ms
    | MapAnswer(request: RpcRequest, nodes: seq<NetworkMap>)    // the answer to a pending RPC request
    | SendTo(client: Client, message: Msg)                      // a message delivered to one peer
    | Opaque(kind: string)                                      // a message built by a collaborator

  /** Messages the processor consumes, one variant per message kind of its dispatch. */
  datatype Inbound =
    | SendMessage(target: Client, message: Msg)
    | Shutdown
    | OnGreeted(greeting: Greeting, greeted: Client)
    | RendezvousMsg(rendezvous: RendezvousData, sender: Client)
    | OnConnected(connected: Client)
    | OnDisconnected(disconnected: Client)
    | ConnectMsg(address: Address, reason: string)
    | DisconnectMsg(peer: Client, reason: string, attempt: int)
    | LoopMsg
    | WalkLinksMsg(walk: WalkLinks)
    | WalkLinksResponseMsg(response: WalkLinks)
    | SwapLinkMsg(swap: SwapLink)
    | DoSwapMsg(doSwap: DoSwapData, swapPeer: Client)
    | MapNetworkMsg(report: NetworkMap)
    | PrintNetworkMapMsg(request: RpcRequest)
    | PrintNetworkMapResponseMsg
    | UnknownMsg(kind: string)

  /** The node's topology state (the shared P2PState). */
  datatype Topology = Topology(
    selfAddress: Address,
    outLinks: set<Address>,
    inLinks: set<Address>,
    clientLinks: set<Address>,
    randomNodeSet: set<Address>,
    rendezvousComplete: bool,
    numLinks: int,
    networkMap: map<Address, NetworkMap>,
    activeMappingRequests: set<Address>,
    connectionDetailsMap: map<Address, ConnectionDetails>)

  /** What a collaborator leaves behind: the state it may have changed and its result. */
  datatype Effect<R> = Effect(state: Topology, result: R)

  /**
   * The collaborator functions whose bodies are not part of this model. Each sees the
   * current topology and may change it; the processor only decides which one runs and
   * what it does with the result.
   */
  datatype Collaborators = Collaborators(
    onGreetedMsg: (Topology, Greeting, Client) -> Effect<seq<Msg>>,
    processOnRendezvousMsg: (Topology, RendezvousData, Client) -> Topology,
    onInLinkDisconnected: (Topology, Client, seq<Client>) -> Effect<Option<Msg>>,
    onOutLinkDisconnected: (Topology, Client, seq<Client>) -> Effect<Option<Msg>>,
    onInLinkWalkMsg: (Topology, WalkLinks, seq<Client>) -> Effect<Option<Msg>>,
    onOutLinkWalkMsg: (Topology, WalkLinks, seq<Client>) -> Effect<Option<Msg>>,
    onReturnedWalkMsg: (Topology, WalkLinks) -> Effect<Option<Msg>>,
    onWalkLinkResponseMsg: (Topology, WalkLinks, seq<Client>) -> Effect<Option<Msg>>,
    onSwapClientsReq: (Topology, SwapLink, seq<Client>) -> Effect<Option<Msg>>,
    onSwapReq: (Topology, SwapLink, seq<Client>) -> Effect<Option<Msg>>,
    executeDoSwap: (Topology, DoSwapData, Client) -> Effect<seq<Msg>>,
    joinRendezvousNode: (Topology, seq<Client>) -> Effect<seq<Msg>>,
    joinEntryNode: (Topology, seq<Client>) -> Effect<seq<Msg>>,
    joinScaleOutLinks: (Topology, seq<Client>) -> Effect<seq<Msg>>,
    dropExpiredMessages: Topology -> Topology)

  /** What a handler leaves behind: the new topology and the messages it posted, in order. */
  datatype Step = Step(state: Topology, out: seq<Msg>)

  /** Posting an optional collaborator result: nothing for null, the message otherwise. */
  function PostIfPresent(m: Option<Msg>): (out: seq<Msg>)
    ensures |out| <= 1
    ensures out == [] <==> m.None?
    ensures m.Some? ==> out == [m.value]
  {
    match m
    case None => []
    case Some(msg) => [msg]
  }
}
