/**
 * The client's protocol-engine state (`ClientState`) as a value, the outside world it
 * consults, and the state a freshly built client starts in.
 *
 * Channels, the routing oracle and the codec are outside the model. What the engine hands
 * them is logged in the state (`wire`, `controller`, `wakeups`, `routingHandler`); what they
 * answer comes from an `Env`: one uninterpreted answer per consultation, indexed by `tick`,
 * the number of consultations so far. Any behaviour of the environment is some `Env`.
 */
module State {
  import opened Wrappers
  import opened Wire
  import opened Forge
  import opened Database

  datatype Status = Starting | Idle | Running | Terminated

  /** Waiters and cached chunks are keyed by content id and chunk index. */
  type ChunkKey = (FileHash, U32)

  /** The sending end of a one-shot notification channel held by a blocked HTTP request. */
  datatype Waiter = Waiter(handle: nat)

  /** Calls made to the routing oracle, which only records what it is told. */
  datatype RoutingCall =
    | NodesCongestion(header: SourceRoutingHeader)
    | UpdateGraph(response: FloodResponse)
    | NodeNack(node: NodeId)

  /** One packet handed to a neighbour's channel, and whether the channel took it. */
  datatype Delivery = Delivery(to: NodeId, packet: Packet, delivered: bool)

  /** One event handed to the simulation controller's channel, and whether it took it. */
  datatype Handed = Handed(event: DroneEvent, delivered: bool)

  /** One notification sent to a waiter. */
  datatype Wakeup = Wakeup(key: ChunkKey, waiter: Waiter, found: bool)

  /**
   * The answers of everything outside the engine: channel sends, controller sends, the
   * codec's session ids, disassembly and assembly, and the routing oracle's best path.
   */
  datatype Env = Env(
    linkOk: nat -> bool,
    controllerOk: nat -> bool,
    sessionId: nat -> nat,
    bestPath: (nat, NodeId, NodeId) -> Option<Route>,
    disassemble: (nat, MessageType) -> Option<Disassembly>,
    assemble: (nat, seq<Fragment>) -> Option<MessageType>,
    store: StoreEnv)

  /** The routing oracle's path at a tick, as a plain function of its arguments. */
  function PathAt(env: Env, t: nat, src: NodeId, dst: NodeId): Option<Route> {
    env.bestPath(t, src, dst)
  }

  /** The codec's disassembly at a tick, as a plain function of its arguments. */
  function CutAt(env: Env, t: nat, message: MessageType): Option<Disassembly> {
    env.disassemble(t, message)
  }

  /** The codec's reassembly at a tick, as a plain function of its arguments. */
  function AssembleAt(env: Env, t: nat, fragments: seq<Fragment>): Option<MessageType> {
    env.assemble(t, fragments)
  }

  /** The fields of `ClientState` the handlers read and write, apart from the delivery ledger. */
  datatype Node = Node(
    id: NodeId,
    floodId: nat,
    serversId: seq<NodeId>,
    serverId: NodeId,
    terminated: bool,
    status: Status,
    senders: map<NodeId, Channel>,
    innerSenders: map<ChunkKey, Waiter>,
    db: Store,
    packetsMap: map<(NodeId, nat), seq<Fragment>>,
    songMap: map<ChunkKey, seq<Byte>>)

  /**
   * What the engine handed to the outside world, in order, and how many answers it has
   * consulted the environment for.
   */
  datatype Log = Log(
    routingHandler: seq<RoutingCall>,
    wire: seq<Delivery>,
    controller: seq<Handed>,
    wakeups: seq<Wakeup>,
    tick: nat)

  /** The engine: the client's state, its delivery ledger (`packets_history`), and the log. */
  datatype Engine = Engine(node: Node, packetsHistory: map<(nat, nat), Packet>, log: Log)

  predicate NoDuplicates(s: seq<NodeId>) {
    forall i, j :: 0 <= i < j < |s| ==> s[i] != s[j]
  }

  /** A packet the delivery ledger can retransmit: its route names a destination. */
  predicate Routed(p: Packet) {
    p.routingHeader.hops != []
  }

  /** The key a packet is filed under in the delivery ledger. */
  function LedgerKey(p: Packet): (k: (nat, nat))
    ensures k.1 == p.sessionId
    ensures p.packType.FloodRequestPacket? || p.packType.FloodResponsePacket? ==> k.0 == 0
    ensures p.packType.MsgFragment? ==> k.0 == p.packType.fragment.fragmentIndex
  {
    (GetFragmentIndex(p), p.sessionId)
  }

  /** Every packet in the delivery ledger has a destination and is filed under its own key. */
  predicate LedgerSound(history: map<(nat, nat), Packet>) {
    forall k :: k in history ==> Routed(history[k]) && LedgerKey(history[k]) == k
  }

  /**
   * `a` and `b` agree on every field of `ClientState`: they differ at most in what was
   * handed to the outside world and in the number of consultations.
   */
  predicate SameEngine(a: Engine, b: Engine) {
    a.node == b.node && a.packetsHistory == b.packetsHistory
  }

  /**
   * What holds of every state the engine reaches: the store is well filed, every ledger
   * entry has a destination and sits under its own key, the server list has no duplicates, and every waiter told
   * that its chunk arrived can find it in the chunk cache.
   */
  ghost predicate Invariant(e: Engine) {
    && WellFiled(e.node.db.entries)
    && LedgerSound(e.packetsHistory)
    && NoDuplicates(e.node.serversId)
    && (forall i :: 0 <= i < |e.log.wakeups| && e.log.wakeups[i].found ==> e.log.wakeups[i].key in e.node.songMap)
  }

  /** The state `ClientAudio::new` builds around the given neighbours and the store it opens. */
  function New(id: NodeId, senders: map<NodeId, Channel>, existing: map<Key, Stored>): (e: Engine)
    ensures e.node.id == id && e.node.floodId == 0 && e.node.status == Starting && !e.node.terminated
    ensures e.node.senders == senders
    ensures e.node.serversId == [] && e.node.innerSenders == map[] && e.node.packetsMap == map[]
    ensures e.packetsHistory == map[] && e.node.songMap == map[]
    ensures e.node.db.entries == existing
    ensures WellFiled(existing) ==> Invariant(e)
  {
    Engine(Node(id, 0, [], 0, false, Starting, senders, map[], Store(existing, 0), map[], map[]),
           map[], Log([], [], [], [], 0))
  }

  /** The HTTP port of a client: one per node id, in 8000..8255. */
  function HttpPort(id: NodeId): (port: nat)
    ensures 8000 <= port <= 8255
    ensures port - 8000 == id
  {
    8000 + id
  }
}
