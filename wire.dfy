/**
 * The packet format of the overlay network: source-routing headers, packets and the
 * controller's commands and events. These types belong to the simulator's shared crate
 * (wg_internal), whose source is not part of this model; the operations below give the
 * behaviour the engine relies on.
 */
module Wire {
  import opened Wrappers

  /** Node ids are `u8`. */
  type NodeId = x: int | 0 <= x < 256

  type Byte = x: int | 0 <= x < 256

  type U16 = x: int | 0 <= x < 0x1_0000

  type U32 = x: int | 0 <= x < 0x1_0000_0000

  /** Sequence reversal, used both for hop lists and for path traces. */
  function Reverse<T>(s: seq<T>): (r: seq<T>)
    ensures |r| == |s|
  {
    if s == [] then [] else Reverse(s[1..]) + [s[0]]
  }

  lemma {:induction false} ReverseAt<T>(s: seq<T>, i: nat)
    requires i < |s|
    ensures Reverse(s)[i] == s[|s| - 1 - i]
  {
    if i < |s| - 1 {
      ReverseAt(s[1..], i);
    }
  }

  lemma ReverseReverse<T>(s: seq<T>)
    ensures Reverse(Reverse(s)) == s
  {
    forall i | 0 <= i < |s|
      ensures Reverse(Reverse(s))[i] == s[i]
    {
      ReverseAt(Reverse(s), i);
      ReverseAt(s, |s| - 1 - i);
    }
  }

  /**
   * A source-routing header: the full hop list and a cursor on the hop that should be
   * holding the packet now.
   */
  datatype SourceRoutingHeader = SourceRoutingHeader(hops: seq<NodeId>, hopIndex: nat)
  {
    function CurrentHop(): Option<NodeId> {
      if hopIndex < |hops| then Some(hops[hopIndex]) else None
    }

    function NextHop(): Option<NodeId> {
      if hopIndex + 1 < |hops| then Some(hops[hopIndex + 1]) else None
    }

    function LastHop(): Option<NodeId> {
      if hops == [] then None else Some(hops[|hops| - 1])
    }

    function IncreaseHopIndex(): SourceRoutingHeader {
      this.(hopIndex := hopIndex + 1)
    }

    /**
     * The same route walked backwards. The cursor is mirrored, so it still points at
     * the same node; a cursor already off the route stays off it.
     */
    function GetReversed(): (r: SourceRoutingHeader)
      ensures |r.hops| == |hops|
      ensures hopIndex < |hops| ==> r.hopIndex < |hops| && r.hops[r.hopIndex] == hops[hopIndex]
      ensures hopIndex >= |hops| ==> r.hopIndex >= |hops|
    {
      if hopIndex < |hops| then
        ReverseAt(hops, |hops| - 1 - hopIndex);
        SourceRoutingHeader(Reverse(hops), |hops| - 1 - hopIndex)
      else
        SourceRoutingHeader(Reverse(hops), hopIndex)
    }
  }

  /** Reversing twice gives back the header that was reversed. */
  lemma ReversedTwice(h: SourceRoutingHeader)
    ensures h.GetReversed().GetReversed() == h
  {
    ReverseReverse(h.hops);
  }

  /** A route the routing oracle may hand out: the cursor and the hop after it exist. */
  type Route = h: SourceRoutingHeader | h.hopIndex + 1 < |h.hops|
    witness SourceRoutingHeader([0, 0], 0)

  datatype NodeType = Client | Drone | Server

  datatype Fragment = Fragment(fragmentIndex: nat, totalNFragments: nat, data: seq<Byte>)

  datatype NackType =
    | ErrorInRouting(node: NodeId)
    | DestinationIsDrone
    | Dropped
    | UnexpectedRecipient(node: NodeId)

  datatype Nack = Nack(fragmentIndex: nat, nackType: NackType)

  datatype FloodRequest = FloodRequest(floodId: nat, initiatorId: NodeId, pathTrace: seq<(NodeId, NodeType)>)

  datatype FloodResponse = FloodResponse(floodId: nat, pathTrace: seq<(NodeId, NodeType)>)

  /** The five payload kinds a packet can carry. */
  datatype PacketType =
    | MsgFragment(fragment: Fragment)
    | Ack(ackIndex: nat)
    | NackPacket(nack: Nack)
    | FloodRequestPacket(request: FloodRequest)
    | FloodResponsePacket(response: FloodResponse)

  /** Session ids and fragment indices are `u64`; they are unbounded naturals here. */
  datatype Packet = Packet(routingHeader: SourceRoutingHeader, sessionId: nat, packType: PacketType)

  /** The fragment index a packet is filed under: flood packets have none and use 0. */
  function GetFragmentIndex(p: Packet): nat {
    match p.packType
    case MsgFragment(f) => f.fragmentIndex
    case Ack(i) => i
    case NackPacket(n) => n.fragmentIndex
    case FloodRequestPacket(_) => 0
    case FloodResponsePacket(_) => 0
  }

  function NewAck(header: SourceRoutingHeader, sessionId: nat, fragmentIndex: nat): Packet {
    Packet(header, sessionId, Ack(fragmentIndex))
  }

  function TraceIds(trace: seq<(NodeId, NodeType)>): (ids: seq<NodeId>)
    ensures |ids| == |trace|
    ensures forall i :: 0 <= i < |trace| ==> ids[i] == trace[i].0
  {
    if trace == [] then [] else [trace[0].0] + TraceIds(trace[1..])
  }

  /**
   * The flood response to a request: its route is the request's path trace walked
   * backwards, with the cursor on its first hop (the responder itself).
   */
  function GenerateResponse(req: FloodRequest, sessionId: nat): Packet {
    Packet(SourceRoutingHeader(Reverse(TraceIds(req.pathTrace)), 0), sessionId,
           FloodResponsePacket(FloodResponse(req.floodId, req.pathTrace)))
  }

  /** A neighbour's packet channel, identified by an opaque handle. */
  datatype Channel = Channel(handle: nat)

  /** Commands of the simulation controller. */
  datatype DroneCommand =
    | RemoveSender(removed: NodeId)
    | AddSender(added: NodeId, sender: Channel)
    | SetPacketDropRate
    | Crash

  /** Events sent to the simulation controller. */
  datatype DroneEvent =
    | PacketSent(sent: Packet)
    | PacketDropped(dropped: Packet)
    | ControllerShortcut(shortcut: Packet)
}
