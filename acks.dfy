/**
 * Acknowledgements (ack_handler.rs): an ack that arrives clears the delivery ledger, and
 * every fragment that arrives is acknowledged back along its own route.
 */
module Acks {
  import opened Wrappers
  import opened Wire
  import opened State
  import opened Commands
  import opened Dispatch

  /** An ack for `(fragmentIndex, sessionId)` arrived: that packet is no longer awaited. */
  function AckHandler(e: Engine, sessionId: nat, fragmentIndex: nat): (r: Engine)
    ensures (fragmentIndex, sessionId) !in r.packetsHistory
    ensures forall k :: k in r.packetsHistory <==> k in e.packetsHistory && k != (fragmentIndex, sessionId)
    ensures forall k :: k in r.packetsHistory ==> r.packetsHistory[k] == e.packetsHistory[k]
    ensures (fragmentIndex, sessionId) !in e.packetsHistory ==> r == e
    ensures r == e.(packetsHistory := r.packetsHistory)
    ensures LedgerSound(e.packetsHistory) ==> LedgerSound(r.packetsHistory)
  {
    e.(packetsHistory := e.packetsHistory - {(fragmentIndex, sessionId)})
  }

  /** A packet sent alone and then acknowledged leaves the ledger as it found it. */
  lemma AckUndoesSend(env: Env, e: Engine, p: Packet, hop: NodeId)
    requires hop in e.node.senders && LedgerKey(p) !in e.packetsHistory
    ensures AckHandler(SendPacketsVec(env, e, [p], hop).0, p.sessionId, GetFragmentIndex(p)).packetsHistory
            == e.packetsHistory
  {
    SendOne(env, e, p, hop);
    if env.linkOk(e.log.tick) {
      var h := e.packetsHistory[LedgerKey(p) := p];
      assert h - {LedgerKey(p)} == e.packetsHistory;
    }
  }

  /** The header an ack travels on: the fragment's route reversed, cursor past this node. */
  function AckHeader(h: SourceRoutingHeader): (r: SourceRoutingHeader)
    ensures r.hops == Reverse(h.hops)
    ensures h.hopIndex < |h.hops| ==> 0 < r.hopIndex <= |h.hops| && r.hops[r.hopIndex - 1] == h.hops[h.hopIndex]
  {
    h.GetReversed().IncreaseHopIndex()
  }

  /** The check `send_ack` makes before reading the ack's next hop. */
  predicate AckGuardAsWritten(h: SourceRoutingHeader)
    ensures AckGuardAsWritten(h) <==> h.hopIndex == |h.hops| - 1 || (h.hops == [] && h.hopIndex == 0)
  {
    AckHeader(h).hopIndex == 1
  }

  /** The check `send_ack` needs: the cursor is on hop 1, and hop 1 exists. */
  predicate AckGuard(h: SourceRoutingHeader)
    ensures AckGuard(h) <==> AckGuardAsWritten(h) && 2 <= |h.hops|
  {
    AckHeader(h).hopIndex == 1 && 1 < |AckHeader(h).hops|
  }

  /**
   * A fragment is acknowledged exactly when it reached the end of a route of two or more
   * hops, and the ack goes back to the node it came from.
   */
  lemma AckGuardMeaning(h: SourceRoutingHeader)
    ensures AckGuard(h) <==> 2 <= |h.hops| && h.hopIndex == |h.hops| - 1
    ensures AckGuard(h) ==> AckHeader(h).hops[1] == h.hops[|h.hops| - 2]
  {
    if AckGuard(h) {
      ReverseAt(h.hops, 1);
    }
  }

  /** On routes of two or more hops the check as written is the check that is needed. */
  lemma AckGuardsAgree(h: SourceRoutingHeader)
    requires 2 <= |h.hops|
    ensures AckGuardAsWritten(h) <==> AckGuard(h)
  {
  }

  /**
   * A fragment whose route is this node alone passes the check as written, yet the
   * reversed route has no hop 1 to send the ack to.
   */
  lemma OneHopPassesAckGuard(self: NodeId)
    ensures var h := SourceRoutingHeader([self], 0);
            AckGuardAsWritten(h) && !AckGuard(h) && |AckHeader(h).hops| == 1
  {
    assert Reverse([self]) == [self] by {
      assert [self][1..] == [];
    }
  }

  /** The ack for a fragment. */
  function AckFor(p: Packet, fragmentIndex: nat): (a: Packet)
    ensures a.packType == Ack(fragmentIndex) && a.sessionId == p.sessionId
    ensures LedgerKey(a) == (fragmentIndex, p.sessionId)
    ensures a.routingHeader.hops == Reverse(p.routingHeader.hops)
  {
    NewAck(AckHeader(p.routingHeader), p.sessionId, fragmentIndex)
  }

  /**
   * `send_ack`: the ack goes through `send_packets_vec` to the previous hop (so it is
   * filed in the ledger like any packet sent); if that fails, the fragment itself is
   * handed to the controller as a shortcut. A fragment that fails the check gets no ack.
   */
  function SendAck(env: Env, e: Engine, p: Packet, fragmentIndex: nat): (r: Engine)
    ensures !AckGuard(p.routingHeader) ==> r == e
    ensures r.node == e.node
    ensures r.log.wakeups == e.log.wakeups && r.log.routingHandler == e.log.routingHandler
    ensures LedgerSound(e.packetsHistory) ==> LedgerSound(r.packetsHistory)
    ensures forall k :: k in e.packetsHistory ==> k in r.packetsHistory
  {
    if !AckGuard(p.routingHeader) then e
    else
      var ack := AckFor(p, fragmentIndex);
      assert Routed(ack);
      var s := SendPacketsVec(env, e, [ack], AckHeader(p.routingHeader).hops[1]);
      if s.1.Ok? then s.0 else ScSendPacket(env, s.0, ControllerShortcut(p)).0
  }

  /** The previous hop of a fragment that passes the check, where its ack goes. */
  function AckHop(h: SourceRoutingHeader): NodeId
    requires AckGuard(h)
  {
    AckGuardMeaning(h);
    h.hops[|h.hops| - 2]
  }

  /** An ack the previous hop's channel takes is filed in the ledger and reported. */
  lemma SendAckTaken(env: Env, e: Engine, p: Packet, fragmentIndex: nat)
    requires AckGuard(p.routingHeader)
    requires AckHop(p.routingHeader) in e.node.senders && env.linkOk(e.log.tick)
    ensures var ack := AckFor(p, fragmentIndex);
            var r := SendAck(env, e, p, fragmentIndex);
            && r.log.wire == e.log.wire + [Delivery(AckHop(p.routingHeader), ack, true)]
            && r.packetsHistory == e.packetsHistory[(fragmentIndex, p.sessionId) := ack]
            && r.log.controller == e.log.controller + [Handed(PacketSent(ack), env.controllerOk(e.log.tick + 1))]
  {
    AckGuardMeaning(p.routingHeader);
    SendOne(env, e, AckFor(p, fragmentIndex), AckHop(p.routingHeader));
  }

  /**
   * An ack that cannot be sent (no channel to the previous hop, or the channel refuses
   * it) leaves the ledger alone, and the fragment goes to the controller instead.
   */
  lemma SendAckShortcut(env: Env, e: Engine, p: Packet, fragmentIndex: nat)
    requires AckGuard(p.routingHeader)
    requires AckHop(p.routingHeader) !in e.node.senders || !env.linkOk(e.log.tick)
    ensures var hop := AckHop(p.routingHeader);
            var r := SendAck(env, e, p, fragmentIndex);
            && r.log.wire == e.log.wire + (if hop in e.node.senders then [Delivery(hop, AckFor(p, fragmentIndex), false)] else [])
            && r.packetsHistory == e.packetsHistory
            && |r.log.controller| == |e.log.controller| + 1
            && r.log.controller[|e.log.controller|] == Handed(ControllerShortcut(p), env.controllerOk(e.log.tick + (if hop in e.node.senders then 1 else 0)))
  {
    var hop := AckHop(p.routingHeader);
    AckGuardMeaning(p.routingHeader);
    if hop in e.node.senders {
      SendOne(env, e, AckFor(p, fragmentIndex), hop);
    }
  }
}
