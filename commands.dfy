/**
 * The simulation controller's side of the engine (command_handler.rs): neighbour-table
 * commands, the crash command, and the events the engine reports back.
 */
module Commands {
  import opened Wrappers
  import opened Wire
  import opened State

  /** Hands an event to the controller's channel; the answer says whether it was taken. */
  function ScSendPacket(env: Env, e: Engine, ev: DroneEvent): (r: (Engine, bool))
    ensures SameEngine(e, r.0)
    ensures r.1 == env.controllerOk(e.log.tick) && r.0.log.tick == e.log.tick + 1
    ensures r.0.log.controller == e.log.controller + [Handed(ev, r.1)]
    ensures r.0.log.wire == e.log.wire && r.0.log.wakeups == e.log.wakeups && r.0.log.routingHandler == e.log.routingHandler
  {
    var ok := env.controllerOk(e.log.tick);
    (e.(log := e.log.(controller := e.log.controller + [Handed(ev, ok)], tick := e.log.tick + 1)), ok)
  }

  /** Reports a sent packet to the controller. A failed report is only logged. */
  function EventDispatcher(env: Env, e: Engine, p: Packet): (r: Engine)
    ensures SameEngine(e, r)
    ensures |r.log.controller| == |e.log.controller| + 1 && r.log.controller[|e.log.controller|].event == PacketSent(p)
    ensures r.log.wire == e.log.wire && r.log.wakeups == e.log.wakeups && r.log.routingHandler == e.log.routingHandler
  {
    ScSendPacket(env, e, PacketSent(p)).0
  }

  /** Drops a neighbour; it is an error if there was none with that id. */
  function RemoveSender(e: Engine, id: NodeId): (r: (Engine, Result<(), Failure>))
    ensures id !in r.0.node.senders && r.0.node.senders == e.node.senders - {id}
    ensures r.1.Ok? <==> id in e.node.senders
    ensures r.1.Err? ==> r.1.error == SenderNotFound(id)
    ensures r.0 == e.(node := e.node.(senders := r.0.node.senders))
  {
    var res := if id in e.node.senders then Ok(()) else Err(SenderNotFound(id));
    (e.(node := e.node.(senders := e.node.senders - {id})), res)
  }

  /**
   * Adds a neighbour. The new channel is stored even when the id was already present;
   * that case is then reported as an error.
   */
  function AddSender(e: Engine, id: NodeId, ch: Channel): (r: (Engine, Result<(), Failure>))
    ensures id in r.0.node.senders && r.0.node.senders[id] == ch
    ensures r.0.node.senders == e.node.senders[id := ch]
    ensures r.1.Ok? <==> id !in e.node.senders
    ensures r.1.Err? ==> r.1.error == SenderExists(id)
    ensures r.0 == e.(node := e.node.(senders := r.0.node.senders))
  {
    var res := if id in e.node.senders then Err(SenderExists(id)) else Ok(());
    (e.(node := e.node.(senders := e.node.senders[id := ch])), res)
  }

  /** One controller command; errors are only logged, and a crashed engine ignores commands. */
  function CommandHandler(e: Engine, c: DroneCommand): (r: Engine)
    ensures e.node.terminated ==> r == e
    ensures !e.node.terminated && c.Crash? ==> r == e.(node := e.node.(terminated := true))
    ensures c.SetPacketDropRate? ==> r == e
    ensures !e.node.terminated && c.RemoveSender? ==> r == e.(node := e.node.(senders := e.node.senders - {c.removed}))
    ensures !e.node.terminated && c.AddSender? ==> r == e.(node := e.node.(senders := e.node.senders[c.added := c.sender]))
  {
    if e.node.terminated then e
    else match c
      case RemoveSender(id) => RemoveSender(e, id).0
      case AddSender(id, ch) => AddSender(e, id, ch).0
      case Crash => e.(node := e.node.(terminated := true))
      case SetPacketDropRate => e
  }

  /** A command changes the neighbour table or the crash flag, and nothing else. */
  lemma CommandTouchesOnlyNeighbours(e: Engine, c: DroneCommand)
    ensures CommandHandler(e, c) == e.(node := e.node.(senders := CommandHandler(e, c).node.senders, terminated := CommandHandler(e, c).node.terminated))
    ensures CommandHandler(e, c).node.terminated <==> e.node.terminated || c.Crash?
    ensures Invariant(e) ==> Invariant(CommandHandler(e, c))
  {
  }
}
