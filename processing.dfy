/**
 * One iteration of the message loop (message_handler.rs): a terminated client leaves the
 * loop; otherwise at most one controller command is handled, then at most one packet.
 */
module Processing {
  import opened Wrappers
  import opened Wire
  import opened State
  import opened Commands
  import opened Inbound

  /** What a non-blocking receive yields. */
  datatype Poll<T> = Got(item: T) | Empty | Disconnected

  /**
   * One pass of the loop body on what the two queues yield; `None` when the loop exits
   * instead. A receive error is only logged.
   */
  function Step(env: Env, e: Engine, cmd: Poll<DroneCommand>, pkt: Poll<Packet>): (r: Option<Engine>)
    requires LedgerSound(e.packetsHistory)
    ensures r.None? <==> e.node.terminated
    ensures r.Some? ==> r.value.node.id == e.node.id && LedgerSound(r.value.packetsHistory)
    ensures r.Some? ==> forall k :: k in e.packetsHistory && !(pkt.Got? && Acknowledges(pkt.item, k)) ==> k in r.value.packetsHistory
    ensures r.Some? && !cmd.Got? && !pkt.Got? ==> r.value == e
    ensures r.Some? && !pkt.Got? ==> r.value.packetsHistory == e.packetsHistory && r.value.log == e.log
  {
    if e.node.terminated then None
    else
      var e1 := if cmd.Got? then CommandHandler(e, cmd.item) else e;
      Some(if pkt.Got? then PacketHandler(env, e1, pkt.item) else e1)
  }

  /**
   * A crash command stops the loop only at the next iteration: the packet received in the
   * same iteration is still handled, by the crashed engine.
   */
  lemma CrashStillHandlesPacket(env: Env, e: Engine, p: Packet, next: Poll<DroneCommand>, nextPacket: Poll<Packet>)
    requires LedgerSound(e.packetsHistory) && !e.node.terminated
    ensures var r := Step(env, e, Got(Crash), Got(p));
            && r == Some(PacketHandler(env, e.(node := e.node.(terminated := true)), p))
            && r.value.node.terminated
            && Step(env, r.value, next, nextPacket).None?
  {
  }

  /** The command is handled before the packet: the packet sees the neighbour table the command left. */
  lemma CommandBeforePacket(env: Env, e: Engine, c: DroneCommand, p: Packet)
    requires LedgerSound(e.packetsHistory) && !e.node.terminated
    ensures var r := Step(env, e, Got(c), Got(p));
            var e1 := CommandHandler(e, c);
            && LedgerSound(e1.packetsHistory)
            && r == Some(PacketHandler(env, e1, p))
            && r.value.node.senders == e1.node.senders
  {
    CommandTouchesOnlyNeighbours(e, c);
  }

  /** Every iteration keeps the engine invariant. */
  lemma StepKeepsInvariant(env: Env, e: Engine, cmd: Poll<DroneCommand>, pkt: Poll<Packet>)
    requires Invariant(e)
    ensures Step(env, e, cmd, pkt).Some? ==> Invariant(Step(env, e, cmd, pkt).value)
  {
    if !e.node.terminated {
      var e1 := if cmd.Got? then CommandHandler(e, cmd.item) else e;
      if cmd.Got? {
        CommandTouchesOnlyNeighbours(e, cmd.item);
      }
      if pkt.Got? {
        PacketHandlerKeepsInvariant(env, e1, pkt.item);
      }
    }
  }

  /** What the two queues yield at one iteration. */
  type Polls = (Poll<DroneCommand>, Poll<Packet>)

  /**
   * The loop over a finite run of iterations: each one in turn, until an iteration finds
   * the client terminated and leaves the loop.
   */
  function Run(env: Env, e: Engine, polls: seq<Polls>): (r: Engine)
    requires LedgerSound(e.packetsHistory)
    ensures LedgerSound(r.packetsHistory)
    ensures r.node.id == e.node.id
    ensures e.node.terminated ==> r == e
    decreases |polls|
  {
    if polls == [] then e
    else match Step(env, e, polls[0].0, polls[0].1)
      case None => e
      case Some(e1) => Run(env, e1, polls[1..])
  }

  /** Whether some iteration of a run receives an ack for the ledger entry under `k`. */
  predicate AckPolled(polls: seq<Polls>, k: (nat, nat)) {
    exists i :: 0 <= i < |polls| && polls[i].1.Got? && Acknowledges(polls[i].1.item, k)
  }

  /**
   * A ledger entry stays filed through every iteration of the loop until one of them
   * receives an ack for it: a run that polls no such ack ends with the key still filed.
   */
  lemma {:induction false} LedgerKeptUntilAck(env: Env, e: Engine, polls: seq<Polls>, k: (nat, nat))
    requires LedgerSound(e.packetsHistory) && k in e.packetsHistory && !AckPolled(polls, k)
    ensures k in Run(env, e, polls).packetsHistory
    decreases |polls|
  {
    if polls != [] {
      var s := Step(env, e, polls[0].0, polls[0].1);
      if s.Some? {
        LedgerKeptUntilAck(env, s.value, polls[1..], k);
      }
    }
  }

  /** Every run of the loop keeps the engine invariant. */
  lemma {:induction false} RunKeepsInvariant(env: Env, e: Engine, polls: seq<Polls>)
    requires Invariant(e)
    ensures Invariant(Run(env, e, polls))
    decreases |polls|
  {
    if polls != [] {
      StepKeepsInvariant(env, e, polls[0].0, polls[0].1);
      var s := Step(env, e, polls[0].0, polls[0].1);
      if s.Some? {
        RunKeepsInvariant(env, s.value, polls[1..]);
      }
    }
  }

  /**
   * A crash ends the loop after the iteration that handles it: that iteration's packet is
   * still handled, and nothing the queues yield afterwards is.
   */
  lemma CrashEndsRun(env: Env, e: Engine, pkt: Poll<Packet>, rest: seq<Polls>)
    requires LedgerSound(e.packetsHistory) && !e.node.terminated
    ensures Step(env, e, Got(Crash), pkt).Some?
    ensures Run(env, e, [(Got(Crash), pkt)] + rest) == Step(env, e, Got(Crash), pkt).value
    ensures Run(env, e, [(Got(Crash), pkt)] + rest).node.terminated
  {
    var polls := [(Got(Crash), pkt)] + rest;
    assert polls[1..] == rest;
    var e1 := Step(env, e, Got(Crash), pkt).value;
    assert e1.node.terminated;
  }
}
