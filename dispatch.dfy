/**
 * Sending packets to neighbours and the delivery ledger (the sending half of
 * packet_handler.rs): every packet that leaves through `send_packets_vec` is filed in
 * `packets_history` under its fragment index and session id until it is acknowledged.
 */
module Dispatch {
  import opened Wrappers
  import opened Wire
  import opened State
  import opened Commands

  /** The channel of a neighbour, or an error naming the missing neighbour. */
  function GetSender(nodeId: NodeId, senders: map<NodeId, Channel>): (r: Result<Channel, Failure>)
    ensures r.Ok? <==> nodeId in senders
    ensures r.Ok? ==> r.value == senders[nodeId]
    ensures r.Err? ==> r.error == NoNeighbour(nodeId)
  {
    if nodeId in senders then Ok(senders[nodeId]) else Err(NoNeighbour(nodeId))
  }

  /** The name of a packet's kind, as it appears in the log. */
  function GetPacketType(pt: PacketType): (name: string)
    ensures name in {"Ack", "Nack", "Flood request", "Flood response", "Fragment"}
  {
    match pt
    case Ack(_) => "Ack"
    case NackPacket(_) => "Nack"
    case FloodRequestPacket(_) => "Flood request"
    case FloodResponsePacket(_) => "Flood response"
    case MsgFragment(_) => "Fragment"
  }

  predicate SameKind(a: PacketType, b: PacketType) {
    && a.Ack? == b.Ack? && a.NackPacket? == b.NackPacket?
    && a.FloodRequestPacket? == b.FloodRequestPacket?
    && a.FloodResponsePacket? == b.FloodResponsePacket? && a.MsgFragment? == b.MsgFragment?
  }

  /** Two packet kinds get the same name exactly when they are the same kind. */
  lemma PacketTypeNamesDistinct(a: PacketType, b: PacketType)
    ensures GetPacketType(a) == GetPacketType(b) <==> SameKind(a, b)
  {
  }

  /** Hands one packet to a neighbour's channel; the answer says whether it was taken. */
  function SendPacket(env: Env, e: Engine, to: NodeId, p: Packet): (r: (Engine, bool))
    ensures SameEngine(e, r.0)
    ensures r.0.log.wire == e.log.wire + [Delivery(to, p, r.1)]
    ensures r.0.log.controller == e.log.controller && r.0.log.wakeups == e.log.wakeups
  {
    var ok := env.linkOk(e.log.tick);
    (e.(log := e.log.(wire := e.log.wire + [Delivery(to, p, ok)], tick := e.log.tick + 1)), ok)
  }

  /** The ledger after filing each packet in turn; a later packet replaces an earlier one. */
  function RecordAll(h: map<(nat, nat), Packet>, ps: seq<Packet>): map<(nat, nat), Packet>
    decreases |ps|
  {
    if ps == [] then h else RecordAll(h[LedgerKey(ps[0]) := ps[0]], ps[1..])
  }

  predicate Mentions(ps: seq<Packet>, key: (nat, nat)) {
    exists i :: 0 <= i < |ps| && LedgerKey(ps[i]) == key
  }

  /**
   * After filing a batch, a key is in the ledger exactly when it was there or some packet
   * of the batch has it; a key no packet has keeps its entry; and the last packet with a
   * key is the one filed under it.
   */
  lemma {:induction false} RecordAllLookup(h: map<(nat, nat), Packet>, ps: seq<Packet>, key: (nat, nat))
    ensures key in RecordAll(h, ps) <==> key in h || Mentions(ps, key)
    ensures !Mentions(ps, key) && key in h ==> RecordAll(h, ps)[key] == h[key]
    ensures forall i :: 0 <= i < |ps| && LedgerKey(ps[i]) == key && !Mentions(ps[i + 1..], key) ==>
              RecordAll(h, ps)[key] == ps[i]
    decreases |ps|
  {
    if ps != [] {
      var h' := h[LedgerKey(ps[0]) := ps[0]];
      RecordAllLookup(h', ps[1..], key);
      assert Mentions(ps, key) <==> LedgerKey(ps[0]) == key || Mentions(ps[1..], key) by {
        if Mentions(ps, key) {
          var i :| 0 <= i < |ps| && LedgerKey(ps[i]) == key;
          if i > 0 {
            assert LedgerKey(ps[1..][i - 1]) == key;
          }
        }
        if Mentions(ps[1..], key) {
          var i :| 0 <= i < |ps[1..]| && LedgerKey(ps[1..][i]) == key;
          assert LedgerKey(ps[i + 1]) == key;
        }
      }
      forall i | 0 <= i < |ps| && LedgerKey(ps[i]) == key && !Mentions(ps[i + 1..], key)
        ensures RecordAll(h, ps)[key] == ps[i]
      {
        if i > 0 {
          assert ps[1..][i - 1 + 1..] == ps[i + 1..];
          assert ps[1..][i - 1] == ps[i];
        }
      }
    }
  }

  /** The leading packets of a batch, sent from tick `t`, that the channel takes. */
  function SentPrefix(env: Env, t: nat, ps: seq<Packet>): (done: seq<Packet>)
    ensures |done| <= |ps|
    decreases |ps|
  {
    if ps == [] || !env.linkOk(t) then [] else [ps[0]] + SentPrefix(env, t + 2, ps[1..])
  }

  lemma {:induction false} SentPrefixIsPrefix(env: Env, t: nat, ps: seq<Packet>)
    ensures SentPrefix(env, t, ps) == ps[..|SentPrefix(env, t, ps)|]
    decreases |ps|
  {
    if ps != [] && env.linkOk(t) {
      SentPrefixIsPrefix(env, t + 2, ps[1..]);
    }
  }

  /** The successful deliveries of a batch, in order. */
  function Delivered(hop: NodeId, ps: seq<Packet>): (d: seq<Delivery>)
    ensures |d| == |ps|
  {
    if ps == [] then [] else [Delivery(hop, ps[0], true)] + Delivered(hop, ps[1..])
  }

  /** The `PacketSent` reports of a delivered batch, whose i-th report is consultation t + 2i + 1. */
  function Reports(env: Env, t: nat, ps: seq<Packet>): (h: seq<Handed>)
    ensures |h| == |ps|
    decreases |ps|
  {
    if ps == [] then [] else [Handed(PacketSent(ps[0]), env.controllerOk(t + 1))] + Reports(env, t + 2, ps[1..])
  }

  /**
   * The loop of `send_packets_vec`: send, file in the ledger, report; the first packet the
   * channel refuses ends the batch with an error.
   */
  function SendEach(env: Env, e: Engine, ps: seq<Packet>, hop: NodeId): (r: (Engine, Result<(), Failure>))
    ensures r.1.Err? ==> r.1.error == SendFailed(hop)
    ensures r.0.node == e.node
    ensures LedgerSound(e.packetsHistory) && (forall i :: 0 <= i < |ps| ==> Routed(ps[i])) ==>
              LedgerSound(r.0.packetsHistory)
    ensures forall k :: k in e.packetsHistory ==> k in r.0.packetsHistory
    ensures r.0.log.wakeups == e.log.wakeups && r.0.log.routingHandler == e.log.routingHandler
    decreases |ps|
  {
    if ps == [] then (e, Ok(()))
    else if !env.linkOk(e.log.tick) then (SendPacket(env, e, hop, ps[0]).0, Err(SendFailed(hop)))
    else SendEach(env, Take(env, e, hop, ps[0]), ps[1..], hop)
  }

  /** A packet the channel took: filed in the ledger, then reported. */
  function Take(env: Env, e: Engine, hop: NodeId, p: Packet): (r: Engine)
    requires env.linkOk(e.log.tick)
    ensures r == e.(packetsHistory := e.packetsHistory[LedgerKey(p) := p], log := e.log.(wire := e.log.wire + [Delivery(hop, p, true)], controller := e.log.controller + [Handed(PacketSent(p), env.controllerOk(e.log.tick + 1))], tick := e.log.tick + 2))
  {
    var e1 := SendPacket(env, e, hop, p).0;
    EventDispatcher(env, e1.(packetsHistory := e1.packetsHistory[LedgerKey(p) := p]), p)
  }

  /** `send_packets_vec`: a batch for a next hop that is not a neighbour is refused whole. */
  function SendPacketsVec(env: Env, e: Engine, ps: seq<Packet>, hop: NodeId): (r: (Engine, Result<(), Failure>))
    ensures hop !in e.node.senders ==> r == (e, Err(NoNeighbour(hop)))
    ensures r.1.Err? ==> r.1.error in {NoNeighbour(hop), SendFailed(hop)}
    ensures r.0.node == e.node
    ensures LedgerSound(e.packetsHistory) && (forall i :: 0 <= i < |ps| ==> Routed(ps[i])) ==>
              LedgerSound(r.0.packetsHistory)
    ensures forall k :: k in e.packetsHistory ==> k in r.0.packetsHistory
    ensures r.0.log.wakeups == e.log.wakeups && r.0.log.routingHandler == e.log.routingHandler
  {
    match GetSender(hop, e.node.senders)
    case Err(err) => (e, Err(err))
    case Ok(_) => SendEach(env, e, ps, hop)
  }

  /** What the channel is handed during a batch, refusal included. */
  function Attempts(env: Env, t: nat, hop: NodeId, ps: seq<Packet>): seq<Delivery>
    decreases |ps|
  {
    if ps == [] then []
    else if !env.linkOk(t) then [Delivery(hop, ps[0], false)]
    else [Delivery(hop, ps[0], true)] + Attempts(env, t + 2, hop, ps[1..])
  }

  /** How many consultations a batch makes: two per packet taken, one for a refusal. */
  function Ticks(env: Env, t: nat, ps: seq<Packet>): nat
    decreases |ps|
  {
    if ps == [] then 0 else if !env.linkOk(t) then 1 else 2 + Ticks(env, t + 2, ps[1..])
  }

  /**
   * The whole outcome of a batch: the channel takes a prefix `done` of it; the call
   * succeeds exactly when that is the whole batch; the packets of `done` are delivered,
   * filed and reported in order; the packet after them, if any, is the one refused;
   * nothing after it is touched.
   */
  lemma SendEachBatch(env: Env, e: Engine, ps: seq<Packet>, hop: NodeId)
    ensures var done := SentPrefix(env, e.log.tick, ps);
            var k := |done|;
            var r := SendEach(env, e, ps, hop);
            && done == ps[..k]
            && (r.1.Ok? <==> k == |ps|)
            && r.0.packetsHistory == RecordAll(e.packetsHistory, done)
            && r.0.log.tick == e.log.tick + 2 * k + (if k < |ps| then 1 else 0)
            && r.0.log.wire == e.log.wire + Delivered(hop, done)
                             + (if k < |ps| then [Delivery(hop, ps[k], false)] else [])
            && r.0.log.controller == e.log.controller + Reports(env, e.log.tick, done)
  {
    SentPrefixIsPrefix(env, e.log.tick, ps);
    SendEachTrace(env, e, ps, hop);
    AttemptsSplit(env, e.log.tick, hop, ps);
    assert Traced(env, e, ps, hop);
  }

  /** A batch, packet by packet: the result and the ledger. */
  ghost predicate Filing(env: Env, e: Engine, ps: seq<Packet>, hop: NodeId) {
    var r := SendEach(env, e, ps, hop);
    && (r.1.Ok? <==> |SentPrefix(env, e.log.tick, ps)| == |ps|)
    && r.0.packetsHistory == RecordAll(e.packetsHistory, SentPrefix(env, e.log.tick, ps))
    && r.0.log.tick == e.log.tick + Ticks(env, e.log.tick, ps)
  }

  /** A batch, packet by packet: what is handed to the channel and to the controller. */
  ghost predicate Handing(env: Env, e: Engine, ps: seq<Packet>, hop: NodeId) {
    var r := SendEach(env, e, ps, hop);
    && r.0.log.wire == e.log.wire + Attempts(env, e.log.tick, hop, ps)
    && r.0.log.controller == e.log.controller + Reports(env, e.log.tick, SentPrefix(env, e.log.tick, ps))
  }

  ghost predicate Traced(env: Env, e: Engine, ps: seq<Packet>, hop: NodeId) {
    Filing(env, e, ps, hop) && Handing(env, e, ps, hop)
  }

  lemma {:induction false} SendEachTrace(env: Env, e: Engine, ps: seq<Packet>, hop: NodeId)
    ensures Traced(env, e, ps, hop)
    decreases |ps|
  {
    if ps == [] {
      TraceEmpty(env, e, hop);
    } else if !env.linkOk(e.log.tick) {
      TraceRefused(env, e, ps, hop);
    } else {
      SendEachTrace(env, Take(env, e, hop, ps[0]), ps[1..], hop);
      TakenFiling(env, e, ps, hop);
      TakenHanding(env, e, ps, hop);
    }
  }

  lemma TraceEmpty(env: Env, e: Engine, hop: NodeId)
    ensures Traced(env, e, [], hop)
  {
    assert SendEach(env, e, [], hop) == (e, Ok(()));
    assert SentPrefix(env, e.log.tick, []) == [];
    assert e.log.controller + [] == e.log.controller && e.log.wire + [] == e.log.wire;
  }

  lemma TraceRefused(env: Env, e: Engine, ps: seq<Packet>, hop: NodeId)
    requires ps != [] && !env.linkOk(e.log.tick)
    ensures Traced(env, e, ps, hop)
  {
    var r := SendEachRefused(env, e, ps, hop);
    assert SentPrefix(env, e.log.tick, ps) == [] && Ticks(env, e.log.tick, ps) == 1;
    assert Attempts(env, e.log.tick, hop, ps) == [Delivery(hop, ps[0], false)];
    assert Reports(env, e.log.tick, []) == [] && e.log.controller + [] == e.log.controller;
  }

  lemma TakenFiling(env: Env, e: Engine, ps: seq<Packet>, hop: NodeId)
    requires ps != [] && env.linkOk(e.log.tick)
    requires Filing(env, Take(env, e, hop, ps[0]), ps[1..], hop)
    ensures Filing(env, e, ps, hop)
  {
    var e3 := Take(env, e, hop, ps[0]);
    var rest := SentPrefix(env, e3.log.tick, ps[1..]);
    assert SentPrefix(env, e.log.tick, ps) == [ps[0]] + rest;
    BatchCons(env, e.log.tick, e.packetsHistory, hop, ps[0], rest);
    assert Ticks(env, e.log.tick, ps) == 2 + Ticks(env, e3.log.tick, ps[1..]);
  }

  lemma TakenHanding(env: Env, e: Engine, ps: seq<Packet>, hop: NodeId)
    requires ps != [] && env.linkOk(e.log.tick)
    requires Handing(env, Take(env, e, hop, ps[0]), ps[1..], hop)
    ensures Handing(env, e, ps, hop)
  {
    var e3 := Take(env, e, hop, ps[0]);
    var rest := SentPrefix(env, e3.log.tick, ps[1..]);
    assert SentPrefix(env, e.log.tick, ps) == [ps[0]] + rest;
    BatchCons(env, e.log.tick, e.packetsHistory, hop, ps[0], rest);
    var taken := Delivery(hop, ps[0], true);
    var later := Attempts(env, e3.log.tick, hop, ps[1..]);
    assert Attempts(env, e.log.tick, hop, ps) == [taken] + later;
    AppendThenConcat(e.log.wire, taken, later);
    var report := Handed(PacketSent(ps[0]), env.controllerOk(e.log.tick + 1));
    var reports := Reports(env, e3.log.tick, rest);
    AppendThenConcat(e.log.controller, report, reports);
  }

  /** Appending one item and then a tail is appending the item-led tail. */
  lemma AppendThenConcat<T>(a: seq<T>, x: T, b: seq<T>)
    ensures (a + [x]) + b == a + ([x] + b)
  {
  }

  /** The attempts of a batch are the deliveries of its taken prefix, then the refusal. */
  lemma {:induction false} AttemptsSplit(env: Env, t: nat, hop: NodeId, ps: seq<Packet>)
    ensures var done := SentPrefix(env, t, ps);
            && Attempts(env, t, hop, ps) == Delivered(hop, done)
                 + (if |done| < |ps| then [Delivery(hop, ps[|done|], false)] else [])
            && Ticks(env, t, ps) == 2 * |done| + (if |done| < |ps| then 1 else 0)
    decreases |ps|
  {
    if ps != [] && env.linkOk(t) {
      AttemptsSplit(env, t + 2, hop, ps[1..]);
      var rest := SentPrefix(env, t + 2, ps[1..]);
      assert SentPrefix(env, t, ps) == [ps[0]] + rest;
      assert Delivered(hop, [ps[0]] + rest) == [Delivery(hop, ps[0], true)] + Delivered(hop, rest) by {
        assert ([ps[0]] + rest)[1..] == rest;
      }
      if |rest| < |ps| - 1 {
        assert ps[|rest| + 1] == ps[1..][|rest|];
      }
    }
  }

  /** Filing, delivering and reporting a batch starts with its first packet. */
  lemma BatchCons(env: Env, t: nat, h: map<(nat, nat), Packet>, hop: NodeId, p: Packet, rest: seq<Packet>)
    ensures RecordAll(h, [p] + rest) == RecordAll(h[LedgerKey(p) := p], rest)
    ensures Reports(env, t, [p] + rest) == [Handed(PacketSent(p), env.controllerOk(t + 1))] + Reports(env, t + 2, rest)
  {
    assert ([p] + rest)[1..] == rest;
  }

  /** A batch whose first packet the channel refuses. */
  lemma SendEachRefused(env: Env, e: Engine, ps: seq<Packet>, hop: NodeId) returns (r: Engine)
    requires ps != [] && !env.linkOk(e.log.tick)
    ensures SendEach(env, e, ps, hop) == (r, Err(SendFailed(hop)))
    ensures r == e.(log := e.log.(wire := e.log.wire + [Delivery(hop, ps[0], false)], tick := e.log.tick + 1))
  {
    r := SendPacket(env, e, hop, ps[0]).0;
  }

  /**
   * The ledger after a batch: every packet before the refused one is filed, and a key that
   * was absent and belongs to no packet before the refused one stays absent; in particular
   * a complete batch files every packet.
   */
  lemma BatchLedger(env: Env, e: Engine, ps: seq<Packet>, hop: NodeId)
    requires hop in e.node.senders
    ensures var k := |SentPrefix(env, e.log.tick, ps)|;
            var r := SendPacketsVec(env, e, ps, hop);
            && (forall i :: 0 <= i < k ==> LedgerKey(ps[i]) in r.0.packetsHistory)
            && (forall key :: key !in e.packetsHistory && !Mentions(ps[..k], key) ==> key !in r.0.packetsHistory)
            && (r.1.Ok? ==> forall i :: 0 <= i < |ps| ==> LedgerKey(ps[i]) in r.0.packetsHistory)
  {
    var k := |SentPrefix(env, e.log.tick, ps)|;
    SendEachBatch(env, e, ps, hop);
    forall key
      ensures key in RecordAll(e.packetsHistory, ps[..k]) <==> key in e.packetsHistory || Mentions(ps[..k], key)
    {
      RecordAllLookup(e.packetsHistory, ps[..k], key);
    }
    forall i | 0 <= i < k
      ensures Mentions(ps[..k], LedgerKey(ps[i]))
    {
      assert LedgerKey(ps[..k][i]) == LedgerKey(ps[i]);
    }
  }

  /** A batch of one packet for a neighbour: taken (filed and reported), or refused. */
  lemma SendOne(env: Env, e: Engine, p: Packet, hop: NodeId)
    requires hop in e.node.senders
    ensures env.linkOk(e.log.tick) ==> SendPacketsVec(env, e, [p], hop) == (Take(env, e, hop, p), Ok(()))
    ensures !env.linkOk(e.log.tick) ==>
              SendPacketsVec(env, e, [p], hop)
              == (e.(log := e.log.(wire := e.log.wire + [Delivery(hop, p, false)], tick := e.log.tick + 1)), Err(SendFailed(hop)))
  {
    assert [p][1..] == [];
    if env.linkOk(e.log.tick) {
      assert SendEach(env, Take(env, e, hop, p), [], hop) == (Take(env, e, hop, p), Ok(()));
    }
  }
}
