/**
 * Negative acknowledgements (nack_handler.rs): a nack names a packet of the delivery
 * ledger; depending on why it was refused, the engine penalises the reporting node,
 * floods the network again, and sends the packet again along a fresh path.
 */
module Nacks {
  import opened Wrappers
  import opened Wire
  import opened State
  import opened Dispatch
  import opened Flooding

  /** The node a ledger packet was bound for: the last hop of its route. */
  function Destination(p: Packet): (d: NodeId)
    requires Routed(p)
    ensures p.routingHeader.LastHop() == Some(d)
  {
    p.routingHeader.hops[|p.routingHeader.hops| - 1]
  }

  /**
   * `retransmit_packet` as written: asks the routing oracle for a path from this client
   * to the packet's destination and sends the re-routed packet to the path's hop under
   * the cursor, `hops[hop_index]`.
   */
  function RetransmitPacketAsWritten(env: Env, e: Engine, p: Packet): (r: Engine)
    requires Routed(p)
    ensures env.bestPath(e.log.tick, e.node.id, Destination(p)).None? ==> r == e.(log := e.log.(tick := e.log.tick + 1))
  {
    var e1 := e.(log := e.log.(tick := e.log.tick + 1));
    match env.bestPath(e.log.tick, e.node.id, Destination(p))
    case None => e1
    case Some(srh) => SendPacketsVec(env, e1, [p.(routingHeader := srh)], srh.hops[srh.hopIndex]).0
  }

  /**
   * The oracle's paths start at the node that asked (the convention `send_message` relies
   * on when it sends to the path's next hop). Retransmission as written then hands the
   * packet to the client's own id, which is not a neighbour: nothing is sent, and the
   * ledger keeps the packet's stale route.
   */
  lemma RetransmitAsWrittenSendsToSelf(env: Env, e: Engine, p: Packet)
    requires Routed(p) && e.node.id !in e.node.senders
    requires env.bestPath(e.log.tick, e.node.id, Destination(p)).Some?
    requires var srh := env.bestPath(e.log.tick, e.node.id, Destination(p)).value; srh.hops[srh.hopIndex] == e.node.id
    ensures RetransmitPacketAsWritten(env, e, p) == e.(log := e.log.(tick := e.log.tick + 1))
  {
  }

  /**
   * As written, with a path, the re-routed packet is offered to the hop under the path's
   * cursor; if that node is a neighbour whose channel takes it, the ledger entry under the
   * packet's key is replaced by the re-routed packet, and otherwise the ledger is unchanged.
   */
  lemma RetransmitAsWrittenRoutes(env: Env, e: Engine, p: Packet)
    requires Routed(p) && env.bestPath(e.log.tick, e.node.id, Destination(p)).Some?
    ensures var srh := env.bestPath(e.log.tick, e.node.id, Destination(p)).value;
            var hop := srh.hops[srh.hopIndex];
            var q := p.(routingHeader := srh);
            var r := RetransmitPacketAsWritten(env, e, p);
            && r.log.wire == e.log.wire + (if hop in e.node.senders then [Delivery(hop, q, env.linkOk(e.log.tick + 1))] else [])
            && (hop in e.node.senders && env.linkOk(e.log.tick + 1) ==> r.packetsHistory == e.packetsHistory[LedgerKey(p) := q])
            && (!(hop in e.node.senders && env.linkOk(e.log.tick + 1)) ==> r.packetsHistory == e.packetsHistory)
  {
    var srh := env.bestPath(e.log.tick, e.node.id, Destination(p)).value;
    var e1 := e.(log := e.log.(tick := e.log.tick + 1));
    var hop := srh.hops[srh.hopIndex];
    if hop in e.node.senders {
      SendOne(env, e1, p.(routingHeader := srh), hop);
    }
  }

  /** A concrete instance: path [1, 2, 3] from client 1, whose only neighbour is 2. */
  lemma RetransmitAsWrittenExample(env: Env, p: Packet)
    requires p.routingHeader.hops == [1, 3]
    requires env.bestPath(0, 1, 3) == Some(SourceRoutingHeader([1, 2, 3], 0))
    ensures var e := Engine(Node(1, 0, [], 0, false, Running, map[2 := Channel(0)], map[], Database.Store(map[], 0),
                                 map[], map[]), map[LedgerKey(p) := p], Log([], [], [], [], 0));
            && RetransmitPacketAsWritten(env, e, p).log.wire == []
            && RetransmitPacketAsWritten(env, e, p).packetsHistory[LedgerKey(p)] == p
  {
    var e := Engine(Node(1, 0, [], 0, false, Running, map[2 := Channel(0)], map[], Database.Store(map[], 0),
                         map[], map[]), map[LedgerKey(p) := p], Log([], [], [], [], 0));
    assert Destination(p) == 3;
    RetransmitAsWrittenSendsToSelf(env, e, p);
  }

  /**
   * `retransmit_packet`, sending to the path's next hop as `send_message` does: the
   * packet takes the new route, and if the next hop's channel takes it, it is filed
   * again under the same key with the new route.
   */
  function RetransmitPacket(env: Env, e: Engine, p: Packet): (r: Engine)
    requires Routed(p)
    ensures env.bestPath(e.log.tick, e.node.id, Destination(p)).None? ==> r == e.(log := e.log.(tick := e.log.tick + 1))
    ensures r.node == e.node
    ensures r.log.wakeups == e.log.wakeups && r.log.routingHandler == e.log.routingHandler
    ensures forall k :: k in e.packetsHistory ==> k in r.packetsHistory
    ensures LedgerSound(e.packetsHistory) ==> LedgerSound(r.packetsHistory)
  {
    var e1 := e.(log := e.log.(tick := e.log.tick + 1));
    match env.bestPath(e.log.tick, e.node.id, Destination(p))
    case None => e1
    case Some(srh) => SendPacketsVec(env, e1, [p.(routingHeader := srh)], srh.hops[srh.hopIndex + 1]).0
  }

  /** With a path, retransmission is a one-packet batch, on the new route, to the path's next hop. */
  lemma RetransmitSends(env: Env, e: Engine, p: Packet, srh: Route)
    requires Routed(p) && env.bestPath(e.log.tick, e.node.id, Destination(p)) == Some(srh)
    ensures RetransmitPacket(env, e, p)
              == SendPacketsVec(env, e.(log := e.log.(tick := e.log.tick + 1)), [p.(routingHeader := srh)], srh.hops[srh.hopIndex + 1]).0
  {
  }

  /**
   * With a path, the packet goes to the path's next hop with the path as its route; if
   * that hop's channel takes it, the ledger entry under the packet's key is replaced by
   * the re-routed packet, and otherwise the ledger is unchanged.
   */
  lemma RetransmitRoutes(env: Env, e: Engine, p: Packet)
    requires Routed(p) && env.bestPath(e.log.tick, e.node.id, Destination(p)).Some?
    ensures var srh := env.bestPath(e.log.tick, e.node.id, Destination(p)).value;
            var hop := srh.hops[srh.hopIndex + 1];
            var q := p.(routingHeader := srh);
            var r := RetransmitPacket(env, e, p);
            && r.log.wire == e.log.wire + (if hop in e.node.senders then [Delivery(hop, q, env.linkOk(e.log.tick + 1))] else [])
            && (hop in e.node.senders && env.linkOk(e.log.tick + 1) ==> r.packetsHistory == e.packetsHistory[LedgerKey(p) := q])
            && (!(hop in e.node.senders && env.linkOk(e.log.tick + 1)) ==> r.packetsHistory == e.packetsHistory)
  {
    var srh := env.bestPath(e.log.tick, e.node.id, Destination(p)).value;
    var e1 := e.(log := e.log.(tick := e.log.tick + 1));
    var hop := srh.hops[srh.hopIndex + 1];
    if hop in e.node.senders {
      SendOne(env, e1, p.(routingHeader := srh), hop);
    }
  }

  /**
   * What retransmitting `p` leaves on the wire and in the ledger, for client `id` with
   * neighbours `senders` consulting the routing oracle at `t`, starting from `wire` and `history`: without a path
   * nothing is sent and the ledger is kept; with one, the re-routed packet is offered to
   * the path's next hop when that hop is a neighbour, and refiled under its own key when
   * the channel takes it.
   */
  predicate Resent(env: Env, t: nat, id: NodeId, senders: map<NodeId, Channel>, wire: seq<Delivery>, history: map<(nat, nat), Packet>, p: Packet, r: Engine)
    requires Routed(p)
  {
    match PathAt(env, t, id, Destination(p))
    case None => r.log.wire == wire && r.packetsHistory == history
    case Some(srh) =>
      var hop := srh.hops[srh.hopIndex + 1];
      var q := p.(routingHeader := srh);
      && r.log.wire == wire + (if hop in senders then [Delivery(hop, q, env.linkOk(t + 1))] else [])
      && r.packetsHistory == (if hop in senders && env.linkOk(t + 1) then history[LedgerKey(p) := q] else history)
  }

  /** Retransmission from any engine has the effect `Resent` describes. */
  lemma RetransmitEffect(env: Env, e: Engine, p: Packet)
    requires Routed(p)
    ensures Resent(env, e.log.tick, e.node.id, e.node.senders, e.log.wire, e.packetsHistory, p, RetransmitPacket(env, e, p))
  {
    if env.bestPath(e.log.tick, e.node.id, Destination(p)).Some? {
      RetransmitRoutes(env, e, p);
    }
  }

  /**
   * `nack_handler`: the nacked packet is read from the ledger (never removed from it).
   * `Dropped` penalises the reporting node and retransmits; `ErrorInRouting` floods again
   * and retransmits; the other kinds, and a nack for a packet the ledger does not hold,
   * change nothing.
   */
  function NackHandler(env: Env, e: Engine, nack: Nack, sessionId: nat, nodeId: NodeId): (r: Engine)
    requires LedgerSound(e.packetsHistory)
    ensures (nack.fragmentIndex, sessionId) !in e.packetsHistory ==> r == e
    ensures nack.nackType.DestinationIsDrone? || nack.nackType.UnexpectedRecipient? ==> r == e
    ensures forall k :: k in e.packetsHistory ==> k in r.packetsHistory
    ensures LedgerSound(r.packetsHistory)
    ensures r.node.floodId == e.node.floodId
              + (if (nack.fragmentIndex, sessionId) in e.packetsHistory && nack.nackType.ErrorInRouting? then 1 else 0)
    ensures r.log.routingHandler == e.log.routingHandler
              + (if (nack.fragmentIndex, sessionId) in e.packetsHistory && nack.nackType.Dropped? then [NodeNack(nodeId)] else [])
    ensures r.node == e.node.(floodId := r.node.floodId)
    ensures r.log.wakeups == e.log.wakeups
  {
    var key := (nack.fragmentIndex, sessionId);
    if key !in e.packetsHistory then e
    else
      var p := e.packetsHistory[key];
      match nack.nackType
      case Dropped => RetransmitPacket(env, e.(log := e.log.(routingHandler := e.log.routingHandler + [NodeNack(nodeId)])), p)
      case ErrorInRouting(_) => RetransmitPacket(env, InitFloodRequest(env, e), p)
      case DestinationIsDrone => e
      case UnexpectedRecipient(_) => e
  }

  /** A `Dropped` nack for a filed packet sends that packet again at once. */
  lemma NackDroppedResends(env: Env, e: Engine, nack: Nack, sessionId: nat, nodeId: NodeId)
    requires LedgerSound(e.packetsHistory) && nack.nackType.Dropped?
    requires (nack.fragmentIndex, sessionId) in e.packetsHistory
    ensures Resent(env, e.log.tick, e.node.id, e.node.senders, e.log.wire, e.packetsHistory, e.packetsHistory[(nack.fragmentIndex, sessionId)],
                   NackHandler(env, e, nack, sessionId, nodeId))
  {
    var p := e.packetsHistory[(nack.fragmentIndex, sessionId)];
    RetransmitEffect(env, e.(log := e.log.(routingHandler := e.log.routingHandler + [NodeNack(nodeId)])), p);
  }

  /**
   * An `ErrorInRouting` nack for a filed packet floods every neighbour and then sends the
   * packet again: the resend follows the flood requests on the wire and consults the
   * oracle after them.
   */
  lemma NackErrorInRoutingResends(env: Env, e: Engine, nack: Nack, sessionId: nat, nodeId: NodeId)
    requires LedgerSound(e.packetsHistory) && nack.nackType.ErrorInRouting?
    requires (nack.fragmentIndex, sessionId) in e.packetsHistory
    ensures Resent(env, e.log.tick + 1 + 2 * |e.node.senders|, e.node.id, e.node.senders,
                   e.log.wire + FloodWire(env, e.log.tick + 1, Neighbours(e.node.senders), NextFlood(env, e)),
                   e.packetsHistory, e.packetsHistory[(nack.fragmentIndex, sessionId)],
                   NackHandler(env, e, nack, sessionId, nodeId))
  {
    var p := e.packetsHistory[(nack.fragmentIndex, sessionId)];
    var f := InitFloodRequest(env, e);
    InitFloodRequestSends(env, e);
    InitFloodRequestTick(env, e);
    ResentAfter(env, f, p, e.log.tick + 1 + 2 * |e.node.senders|, e.node.id, e.node.senders,
                e.log.wire + FloodWire(env, e.log.tick + 1, Neighbours(e.node.senders), NextFlood(env, e)), e.packetsHistory);
    assert NackHandler(env, e, nack, sessionId, nodeId) == RetransmitPacket(env, f, p);
  }

  /** `RetransmitEffect`, for an engine whose consultations, neighbours, wire and ledger are given. */
  lemma ResentAfter(env: Env, f: Engine, p: Packet, t: nat, id: NodeId, senders: map<NodeId, Channel>,
                    wire: seq<Delivery>, history: map<(nat, nat), Packet>)
    requires Routed(p) && f.log.tick == t && f.node.id == id && f.node.senders == senders
    requires f.log.wire == wire && f.packetsHistory == history
    ensures Resent(env, t, id, senders, wire, history, p, RetransmitPacket(env, f, p))
  {
    RetransmitEffect(env, f, p);
  }

  /** A retransmitted packet is filed again under the key it was nacked for. */
  lemma NackRefilesSameKey(env: Env, e: Engine, nack: Nack, sessionId: nat, nodeId: NodeId)
    requires LedgerSound(e.packetsHistory)
    requires (nack.fragmentIndex, sessionId) in e.packetsHistory
    ensures LedgerKey(e.packetsHistory[(nack.fragmentIndex, sessionId)]) == (nack.fragmentIndex, sessionId)
    ensures NackHandler(env, e, nack, sessionId, nodeId).packetsHistory.Keys == e.packetsHistory.Keys
  {
    var p := e.packetsHistory[(nack.fragmentIndex, sessionId)];
    match nack.nackType
    case Dropped =>
      RetransmitKeepsKeys(env, e.(log := e.log.(routingHandler := e.log.routingHandler + [NodeNack(nodeId)])), p);
    case ErrorInRouting(_) =>
      RetransmitKeepsKeys(env, InitFloodRequest(env, e), p);
    case DestinationIsDrone =>
    case UnexpectedRecipient(_) =>
  }

  /** Retransmitting a filed packet changes at most the entry under its own key. */
  lemma RetransmitKeepsKeys(env: Env, e: Engine, p: Packet)
    requires Routed(p) && LedgerKey(p) in e.packetsHistory
    ensures RetransmitPacket(env, e, p).packetsHistory.Keys == e.packetsHistory.Keys
  {
    if env.bestPath(e.log.tick, e.node.id, Destination(p)).Some? {
      RetransmitRoutes(env, e, p);
    }
  }
}
