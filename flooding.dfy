/**
 * Network discovery (flood_handler.rs): starting a flood towards every neighbour, and
 * answering a flood request that reaches this client with a flood response that walks the
 * request's path back.
 */
module Flooding {
  import opened Wrappers
  import opened Wire
  import opened State
  import opened Commands
  import opened Dispatch

  /** `get_flood_id`: the next flood id, which is also remembered as the latest. */
  function GetFloodId(e: Engine): (r: (Engine, nat))
    ensures r.1 == e.node.floodId + 1 && r.0.node.floodId == r.1
    ensures r.1 > e.node.floodId
    ensures r.0 == e.(node := e.node.(floodId := r.1))
  {
    (e.(node := e.node.(floodId := e.node.floodId + 1)), e.node.floodId + 1)
  }

  /** Successive flood ids are distinct: an engine never reuses one. */
  lemma FloodIdsIncrease(e: Engine)
    ensures GetFloodId(GetFloodId(e).0).1 > GetFloodId(e).1 > e.node.floodId
  {
  }

  /** The ids in `s` from `n` up, in ascending order (the order neighbours are flooded in). */
  function IdsFrom(s: set<NodeId>, n: nat): (ids: seq<NodeId>)
    requires n <= 256
    ensures forall i, j :: 0 <= i < j < |ids| ==> ids[i] < ids[j]
    ensures forall i :: 0 <= i < |ids| ==> n <= ids[i] && ids[i] in s
    ensures forall x :: x in s && n <= x ==> x in ids
    decreases 256 - n
  {
    if n == 256 then []
    else if n in s then [n as NodeId] + IdsFrom(s, n + 1)
    else IdsFrom(s, n + 1)
  }

  /** The neighbours of an engine, each once, in ascending id order. */
  function Neighbours(senders: map<NodeId, Channel>): (ids: seq<NodeId>)
    ensures forall x :: x in senders <==> x in ids
    ensures forall i, j :: 0 <= i < j < |ids| ==> ids[i] < ids[j]
  {
    IdsFrom(senders.Keys, 0)
  }

  /** The flood request packet sent to every neighbour: an empty route, since drones route floods. */
  function FloodPacket(sessionId: nat, req: FloodRequest): Packet {
    Packet(SourceRoutingHeader([], 0), sessionId, FloodRequestPacket(req))
  }

  /**
   * The loop of `init_flood_request`: hands `p` to each neighbour in turn and reports it.
   * A refused send is only logged; flood requests are not filed in the ledger.
   */
  function FloodEach(env: Env, e: Engine, ids: seq<NodeId>, p: Packet): (r: Engine)
    ensures SameEngine(e, r)
    ensures r.log.wakeups == e.log.wakeups && r.log.routingHandler == e.log.routingHandler
    ensures r.log.tick == e.log.tick + 2 * |ids|
    decreases |ids|
  {
    if ids == [] then e else FloodEach(env, FloodOne(env, e, ids[0], p), ids[1..], p)
  }

  /** One neighbour of the loop: the packet is handed to its channel, then reported. */
  function FloodOne(env: Env, e: Engine, to: NodeId, p: Packet): (r: Engine)
    ensures r == e.(log := e.log.(wire := e.log.wire + [Delivery(to, p, env.linkOk(e.log.tick))], controller := e.log.controller + [Handed(PacketSent(p), env.controllerOk(e.log.tick + 1))], tick := e.log.tick + 2))
  {
    EventDispatcher(env, SendPacket(env, e, to, p).0, p)
  }

  /** What the loop hands the channels, from consultation `t`: the i-th neighbour at t + 2i. */
  function FloodWire(env: Env, t: nat, ids: seq<NodeId>, p: Packet): (w: seq<Delivery>)
    ensures |w| == |ids|
    decreases |ids|
  {
    if ids == [] then [] else [Delivery(ids[0], p, env.linkOk(t))] + FloodWire(env, t + 2, ids[1..], p)
  }

  lemma {:induction false} FloodWireAt(env: Env, t: nat, ids: seq<NodeId>, p: Packet)
    ensures forall i :: 0 <= i < |ids| ==> FloodWire(env, t, ids, p)[i] == Delivery(ids[i], p, env.linkOk(t + 2 * i))
    decreases |ids|
  {
    if ids != [] {
      FloodWireAt(env, t + 2, ids[1..], p);
      forall i | 1 <= i < |ids|
        ensures FloodWire(env, t, ids, p)[i] == Delivery(ids[i], p, env.linkOk(t + 2 * i))
      {
        assert FloodWire(env, t, ids, p)[i] == FloodWire(env, t + 2, ids[1..], p)[i - 1];
        assert t + 2 * i == (t + 2) + 2 * (i - 1);
      }
    }
  }

  /** What the loop reports to the controller: the i-th report at consultation t + 2i + 1. */
  function FloodReports(env: Env, t: nat, n: nat, p: Packet): (h: seq<Handed>)
    ensures |h| == n
    decreases n
  {
    if n == 0 then [] else [Handed(PacketSent(p), env.controllerOk(t + 1))] + FloodReports(env, t + 2, n - 1, p)
  }

  lemma {:induction false} FloodReportsAt(env: Env, t: nat, n: nat, p: Packet)
    ensures forall i :: 0 <= i < n ==> FloodReports(env, t, n, p)[i] == Handed(PacketSent(p), env.controllerOk(t + 2 * i + 1))
    decreases n
  {
    if n > 0 {
      FloodReportsAt(env, t + 2, n - 1, p);
      forall i | 1 <= i < n
        ensures FloodReports(env, t, n, p)[i] == Handed(PacketSent(p), env.controllerOk(t + 2 * i + 1))
      {
        assert FloodReports(env, t, n, p)[i] == FloodReports(env, t + 2, n - 1, p)[i - 1];
        assert t + 2 * i + 1 == (t + 2) + 2 * (i - 1) + 1;
      }
    }
  }

  /** The loop appends exactly its deliveries to what was handed out before. */
  lemma {:induction false} FloodEachWire(env: Env, e: Engine, ids: seq<NodeId>, p: Packet)
    ensures FloodEach(env, e, ids, p).log.wire == e.log.wire + FloodWire(env, e.log.tick, ids, p)
    decreases |ids|
  {
    if ids == [] {
      assert e.log.wire + [] == e.log.wire;
    } else {
      var e1 := FloodOne(env, e, ids[0], p);
      FloodEachWire(env, e1, ids[1..], p);
      AppendThenConcat(e.log.wire, Delivery(ids[0], p, env.linkOk(e.log.tick)), FloodWire(env, e1.log.tick, ids[1..], p));
    }
  }

  /** The loop appends exactly its reports to what the controller was handed before. */
  lemma {:induction false} FloodEachReports(env: Env, e: Engine, ids: seq<NodeId>, p: Packet)
    ensures FloodEach(env, e, ids, p).log.controller == e.log.controller + FloodReports(env, e.log.tick, |ids|, p)
    decreases |ids|
  {
    if ids == [] {
      assert e.log.controller + [] == e.log.controller;
    } else {
      var e1 := FloodOne(env, e, ids[0], p);
      FloodEachReports(env, e1, ids[1..], p);
      AppendThenConcat(e.log.controller, Handed(PacketSent(p), env.controllerOk(e.log.tick + 1)),
                       FloodReports(env, e1.log.tick, |ids| - 1, p));
    }
  }

  /** The flood request an engine sends out next. */
  function NextFlood(env: Env, e: Engine): (q: Packet)
    ensures q.packType.FloodRequestPacket? && q.packType.request.floodId == GetFloodId(e).1
    ensures q.packType.request.initiatorId == e.node.id && q.packType.request.pathTrace == [(e.node.id, Client)]
    ensures LedgerKey(q) == (0, env.sessionId(e.log.tick))
    ensures q.routingHeader == SourceRoutingHeader([], 0)
  {
    FloodPacket(env.sessionId(e.log.tick), FloodRequest(e.node.floodId + 1, e.node.id, [(e.node.id, Client)]))
  }

  /**
   * `init_flood_request`: takes the next flood id and a session id, and sends one flood
   * request naming this client as initiator and first node of the path to every neighbour.
   */
  function InitFloodRequest(env: Env, e: Engine): (r: Engine)
    ensures r.node.floodId == e.node.floodId + 1
    ensures r.node == e.node.(floodId := r.node.floodId) && r.packetsHistory == e.packetsHistory
    ensures r.log.wakeups == e.log.wakeups && r.log.routingHandler == e.log.routingHandler
  {
    var e1 := GetFloodId(e).0;
    FloodEach(env, e1.(log := e1.log.(tick := e1.log.tick + 1)), Neighbours(e.node.senders), NextFlood(env, e))
  }

  /**
   * What a flood hands out: the next flood request to each neighbour in ascending order,
   * and one report of it per neighbour.
   */
  lemma InitFloodRequestSends(env: Env, e: Engine)
    ensures var r := InitFloodRequest(env, e);
            && r.log.wire == e.log.wire + FloodWire(env, e.log.tick + 1, Neighbours(e.node.senders), NextFlood(env, e))
            && r.log.controller == e.log.controller + FloodReports(env, e.log.tick + 1, |e.node.senders|, NextFlood(env, e))
  {
    var e1 := GetFloodId(e).0;
    var e2 := e1.(log := e1.log.(tick := e1.log.tick + 1));
    NeighboursCount(e.node.senders);
    FloodFrom(env, e, e2, Neighbours(e.node.senders), NextFlood(env, e));
  }

  /** A flood consults the environment once for its session id and twice per neighbour. */
  lemma InitFloodRequestTick(env: Env, e: Engine)
    ensures InitFloodRequest(env, e).log.tick == e.log.tick + 1 + 2 * |e.node.senders|
  {
    NeighboursCount(e.node.senders);
  }

  /** The loop run from a state that has handed out what `e` has, one consultation later. */
  lemma FloodFrom(env: Env, e: Engine, e2: Engine, ids: seq<NodeId>, p: Packet)
    requires e2.log.tick == e.log.tick + 1 && e2.log.wire == e.log.wire && e2.log.controller == e.log.controller
    ensures FloodEach(env, e2, ids, p).log.wire == e.log.wire + FloodWire(env, e.log.tick + 1, ids, p)
    ensures FloodEach(env, e2, ids, p).log.controller == e.log.controller + FloodReports(env, e.log.tick + 1, |ids|, p)
  {
    FloodEachWire(env, e2, ids, p);
    FloodEachReports(env, e2, ids, p);
  }

  /** A map has as many neighbours listed as it has keys. */
  lemma NeighboursCount(senders: map<NodeId, Channel>)
    ensures |Neighbours(senders)| == |senders|
  {
    var ids := Neighbours(senders);
    DistinctCount(ids, senders.Keys);
  }

  /** A list of distinct ids covering exactly a set has the set's size. */
  lemma {:induction false} DistinctCount(ids: seq<NodeId>, s: set<NodeId>)
    requires forall i, j :: 0 <= i < j < |ids| ==> ids[i] < ids[j]
    requires forall x :: x in s <==> x in ids
    ensures |ids| == |s|
    decreases |ids|
  {
    if ids != [] {
      var rest := ids[1..];
      forall x
        ensures x in s - {ids[0]} <==> x in rest
      {
        if x in rest {
          var k :| 0 <= k < |rest| && rest[k] == x;
          assert ids[k + 1] == x;
        }
        if x in s - {ids[0]} {
          var k :| 0 <= k < |ids| && ids[k] == x;
          assert k != 0;
          assert rest[k - 1] == x;
        }
      }
      DistinctCount(rest, s - {ids[0]});
    }
  }

  /**
   * Every neighbour, and nothing else, is sent the flood request, exactly once; the
   * request carries the new flood id, this client as initiator and a path trace holding
   * only this client.
   */
  lemma FloodReachesEveryNeighbourOnce(env: Env, e: Engine, n: NodeId)
    ensures var w := FloodWire(env, e.log.tick + 1, Neighbours(e.node.senders), NextFlood(env, e));
            && (n in e.node.senders <==> exists i :: 0 <= i < |w| && w[i].to == n)
            && (forall i, j :: 0 <= i < j < |w| ==> w[i].to != w[j].to)
            && (forall i :: 0 <= i < |w| ==> w[i].packet == NextFlood(env, e))
  {
    var ids := Neighbours(e.node.senders);
    var w := FloodWire(env, e.log.tick + 1, ids, NextFlood(env, e));
    FloodWireAt(env, e.log.tick + 1, ids, NextFlood(env, e));
    if n in e.node.senders {
      var k :| 0 <= k < |ids| && ids[k] == n;
      assert w[k].to == n;
    }
  }

  /**
   * `build_flood_response`: this client joins the request's path trace, and the response
   * walks that trace backwards, its cursor already past this client. It is addressed to
   * the node the request came from, or to node 0 when the trace was empty.
   */
  function BuildFloodResponse(nodeId: NodeId, req: FloodRequest): (r: (NodeId, Packet))
    ensures var trace := req.pathTrace + [(nodeId, Client)];
            && r.1.routingHeader.hops == Reverse(TraceIds(trace))
            && r.1.routingHeader.hopIndex == 1
            && r.1.packType == FloodResponsePacket(FloodResponse(req.floodId, trace))
    ensures r.1.routingHeader.hops[0] == nodeId
    ensures req.pathTrace != [] ==> r.0 == req.pathTrace[|req.pathTrace| - 1].0
    ensures req.pathTrace == [] ==> r.0 == 0
  {
    var extended := req.(pathTrace := req.pathTrace + [(nodeId, Client)]);
    var packet := GenerateResponse(extended, 1);
    var packet' := packet.(routingHeader := packet.routingHeader.IncreaseHopIndex());
    var hops := packet'.routingHeader.hops;
    ReverseAt(TraceIds(extended.pathTrace), 0);
    if |hops| > 1 then ReverseAt(TraceIds(extended.pathTrace), 1); (hops[1], packet')
    else (0, packet')
  }

  /** Walked backwards, the response's route is the extended path trace of the request. */
  lemma FloodResponseRetracesRequest(nodeId: NodeId, req: FloodRequest)
    ensures Reverse(BuildFloodResponse(nodeId, req).1.routingHeader.hops)
            == TraceIds(req.pathTrace + [(nodeId, Client)])
  {
    ReverseReverse(TraceIds(req.pathTrace + [(nodeId, Client)]));
  }

  /**
   * `send_flood_response`: the response goes straight to its destination's channel; if
   * the channel refuses it, to the controller as a shortcut. Only a missing neighbour or a
   * refusal by both is an error. Flood responses are neither filed nor reported.
   */
  function SendFloodResponse(env: Env, e: Engine, dest: NodeId, p: Packet): (r: (Engine, Result<(), Failure>))
    ensures SameEngine(e, r.0) && r.0.log.wakeups == e.log.wakeups && r.0.log.routingHandler == e.log.routingHandler
    ensures dest !in e.node.senders ==> r == (e, Err(NoNeighbour(dest)))
    ensures dest in e.node.senders ==> r.0.log.wire == e.log.wire + [Delivery(dest, p, env.linkOk(e.log.tick))]
    ensures dest in e.node.senders && env.linkOk(e.log.tick) ==> r == (e.(log := e.log.(wire := r.0.log.wire, tick := e.log.tick + 1)), Ok(()))
    ensures dest in e.node.senders && !env.linkOk(e.log.tick) ==>
              && r.0.log.controller == e.log.controller + [Handed(ControllerShortcut(p), env.controllerOk(e.log.tick + 1))]
              && (r.1.Ok? <==> env.controllerOk(e.log.tick + 1))
              && (r.1.Err? ==> r.1.error == ShortcutFailed)
  {
    match GetSender(dest, e.node.senders)
    case Err(err) => (e, Err(err))
    case Ok(_) =>
      var (e1, sent) := SendPacket(env, e, dest, p);
      if sent then (e1, Ok(()))
      else
        var (e2, shortcut) := ScSendPacket(env, e1, ControllerShortcut(p));
        (e2, if shortcut then Ok(()) else Err(ShortcutFailed))
  }

  /** `handle_flood_request`: answer the request; a failure is only logged. */
  function HandleFloodRequest(env: Env, e: Engine, req: FloodRequest): (r: Engine)
    ensures SameEngine(e, r) && r.log.wakeups == e.log.wakeups && r.log.routingHandler == e.log.routingHandler
    ensures var (dest, p) := BuildFloodResponse(e.node.id, req);
            r == SendFloodResponse(env, e, dest, p).0
  {
    var (dest, p) := BuildFloodResponse(e.node.id, req);
    SendFloodResponse(env, e, dest, p).0
  }
}
