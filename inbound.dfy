/**
 * The packet entry point (packet_handler.rs): every packet's route is reported to the
 * routing oracle; a packet that is not a flood request and does not end at this client is
 * dropped; the rest are dispatched on their kind.
 */
module Inbound {
  import opened Wrappers
  import opened Wire
  import opened State
  import opened Commands
  import opened Acks
  import opened Flooding
  import opened Nacks
  import opened Fragments

  /**
   * The servers loop of a flood response: each server of the path trace that is not yet
   * known is appended, in trace order.
   */
  function AddServers(servers: seq<NodeId>, trace: seq<(NodeId, NodeType)>): (r: seq<NodeId>)
    ensures |servers| <= |r| && r[..|servers|] == servers
    ensures NoDuplicates(servers) ==> NoDuplicates(r)
  {
    if trace == [] then servers
    else
      var s := AddServers(servers, trace[..|trace| - 1]);
      var last := trace[|trace| - 1];
      if last.1 == Server && last.0 !in s then s + [last.0] else s
  }

  /** A node is a known server afterwards exactly when it was one before or the trace names it as a server. */
  lemma {:induction false} AddServersMembers(servers: seq<NodeId>, trace: seq<(NodeId, NodeType)>, id: NodeId)
    ensures id in AddServers(servers, trace) <==> id in servers || (id, Server) in trace
  {
    if trace != [] {
      var init := trace[..|trace| - 1];
      AddServersMembers(servers, init, id);
      assert trace == init + [trace[|trace| - 1]];
    }
  }

  /** Whether the client handles a packet: flood requests always; anything else must end here. */
  predicate ForThisNode(id: NodeId, p: Packet)
    ensures ForThisNode(id, p) <==>
              p.packType.FloodRequestPacket? || (p.routingHeader.hops != [] && p.routingHeader.hops[|p.routingHeader.hops| - 1] == id)
  {
    p.packType.FloodRequestPacket? || p.routingHeader.LastHop() == Some(id)
  }

  /** Whether `p` is an ack for the ledger entry under `k`. */
  predicate Acknowledges(p: Packet, k: (nat, nat)) {
    p.packType.Ack? && k == (p.packType.ackIndex, p.sessionId)
  }

  /** The state once the packet's route is reported to the routing oracle as a congestion observation. */
  function Observed(e: Engine, p: Packet): Engine {
    e.(log := e.log.(routingHandler := e.log.routingHandler + [NodesCongestion(p.routingHeader)]))
  }

  /** A flood response updates the oracle's graph, then the known servers. */
  function FloodResponseHandler(e: Engine, resp: FloodResponse): (r: Engine)
    ensures r.node == e.node.(serversId := AddServers(e.node.serversId, resp.pathTrace))
    ensures r.packetsHistory == e.packetsHistory
    ensures r.log == e.log.(routingHandler := e.log.routingHandler + [UpdateGraph(resp)])
  {
    e.(node := e.node.(serversId := AddServers(e.node.serversId, resp.pathTrace)),
       log := e.log.(routingHandler := e.log.routingHandler + [UpdateGraph(resp)]))
  }

  /**
   * The handler a packet for this client goes to, by its kind. A nack is charged to the
   * node it came from, the first hop of its route.
   */
  function HandleKind(env: Env, e: Engine, p: Packet): (r: Engine)
    requires LedgerSound(e.packetsHistory) && ForThisNode(e.node.id, p)
    ensures LedgerSound(r.packetsHistory)
    ensures forall k :: k in e.packetsHistory && !Acknowledges(p, k) ==> k in r.packetsHistory
    ensures forall k :: Acknowledges(p, k) ==> k !in r.packetsHistory
    ensures r.node.id == e.node.id && r.node.senders == e.node.senders && r.node.terminated == e.node.terminated
    ensures r.node.serverId == e.node.serverId && r.node.innerSenders == e.node.innerSenders
    ensures |r.log.routingHandler| >= |e.log.routingHandler|
    ensures r.log.routingHandler[..|e.log.routingHandler|] == e.log.routingHandler
  {
    match p.packType
    case MsgFragment(f) => FragmentHandler(env, e, f, p)
    case FloodResponsePacket(resp) => FloodResponseHandler(e, resp)
    case FloodRequestPacket(req) => HandleFloodRequest(env, e, req)
    case Ack(index) => AckHandler(e, p.sessionId, index)
    case NackPacket(nack) => NackHandler(env, e, nack, p.sessionId, p.routingHeader.hops[0])
  }

  /**
   * `packet_handler`: every packet's route is reported to the oracle first; a packet for
   * another node then changes nothing else, and the client keeps its id, neighbours,
   * server, waiters and crash flag whatever the packet.
   */
  function PacketHandler(env: Env, e: Engine, p: Packet): (r: Engine)
    requires LedgerSound(e.packetsHistory)
    ensures !ForThisNode(e.node.id, p) ==> r == Observed(e, p)
    ensures LedgerSound(r.packetsHistory)
    ensures forall k :: k in e.packetsHistory && !Acknowledges(p, k) ==> k in r.packetsHistory
    ensures forall k :: ForThisNode(e.node.id, p) && Acknowledges(p, k) ==> k !in r.packetsHistory
    ensures r.node.id == e.node.id && r.node.senders == e.node.senders && r.node.terminated == e.node.terminated
    ensures r.node.serverId == e.node.serverId && r.node.innerSenders == e.node.innerSenders
    ensures |r.log.routingHandler| > |e.log.routingHandler|
    ensures r.log.routingHandler[|e.log.routingHandler|] == NodesCongestion(p.routingHeader)
  {
    var e1 := Observed(e, p);
    if !ForThisNode(e.node.id, p) then e1
    else
      var r := HandleKind(env, e1, p);
      assert r.log.routingHandler[|e.log.routingHandler|] == r.log.routingHandler[..|e1.log.routingHandler|][|e.log.routingHandler|];
      r
  }

  /**
   * A packet that ends elsewhere changes nothing of the client's state: only the oracle
   * hears of its route.
   */
  lemma ForeignPacketDropped(env: Env, e: Engine, p: Packet)
    requires LedgerSound(e.packetsHistory)
    requires !p.packType.FloodRequestPacket? && p.routingHeader.LastHop() != Some(e.node.id)
    ensures SameEngine(e, PacketHandler(env, e, p))
    ensures PacketHandler(env, e, p).log == e.log.(routingHandler := e.log.routingHandler + [NodesCongestion(p.routingHeader)])
  {
  }

  /**
   * After a flood response for this client, the known servers are the old ones followed
   * by the new servers of the trace: a node is known exactly when it was, or the trace
   * names it as a server, and no id is known twice.
   */
  lemma FloodResponseRecordsServers(env: Env, e: Engine, p: Packet, id: NodeId)
    requires LedgerSound(e.packetsHistory) && NoDuplicates(e.node.serversId)
    requires p.packType.FloodResponsePacket? && p.routingHeader.LastHop() == Some(e.node.id)
    ensures var s := PacketHandler(env, e, p).node.serversId;
            && s[..|e.node.serversId|] == e.node.serversId
            && NoDuplicates(s)
            && (id in s <==> id in e.node.serversId || (id, Server) in p.packType.response.pathTrace)
  {
    AddServersMembers(e.node.serversId, p.packType.response.pathTrace, id);
  }

  /** A `Dropped` nack for a filed packet penalises the node the nack came from: the first hop of its route. */
  lemma NackPenalisesReporter(env: Env, e: Engine, p: Packet)
    requires LedgerSound(e.packetsHistory)
    requires p.packType.NackPacket? && p.packType.nack.nackType.Dropped?
    requires p.routingHeader.LastHop() == Some(e.node.id)
    requires (p.packType.nack.fragmentIndex, p.sessionId) in e.packetsHistory
    ensures PacketHandler(env, e, p).log.routingHandler
            == e.log.routingHandler + [NodesCongestion(p.routingHeader), NodeNack(p.routingHeader.hops[0])]
  {
  }

  /** Handling a packet keeps the engine invariant. */
  lemma PacketHandlerKeepsInvariant(env: Env, e: Engine, p: Packet)
    requires Invariant(e)
    ensures Invariant(PacketHandler(env, e, p))
  {
    var e1 := Observed(e, p);
    assert Invariant(e1);
    if ForThisNode(e.node.id, p) {
      match p.packType
      case MsgFragment(f) =>
        FragmentHandlerKeepsInvariant(env, e1, f, p);
      case FloodResponsePacket(resp) =>
      case FloodRequestPacket(req) =>
      case Ack(index) =>
      case NackPacket(nack) =>
    }
  }
}
