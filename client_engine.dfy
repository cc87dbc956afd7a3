/**
 * The client's state as the record every handler updates in place (`ClientState`,
 * client.rs), with one method per handler. Each method leaves the record in the state the
 * corresponding function of the other modules computes from the state it found, so every
 * property proved about those functions holds of the record.
 */
module Client {
  import opened Wrappers
  import opened Wire
  import opened Forge
  import opened Database
  import opened State
  import Text
  import Commands
  import Dispatch
  import Acks
  import Flooding
  import Nacks
  import Messages
  import Fragments
  import Inbound
  import Processing
  import Endpoints

  class ClientState {
    /** The answers of the channels, the controller, the routing oracle, the codec and the store. */
    const env: Env
    const id: NodeId
    var floodId: nat
    var serversId: seq<NodeId>
    var serverId: NodeId
    var terminated: bool
    var status: Status
    var senders: map<NodeId, Channel>
    var innerSenders: map<ChunkKey, Waiter>
    const db: AudioDatabase
    var packetsMap: map<(NodeId, nat), seq<Fragment>>
    var songMap: map<ChunkKey, seq<Byte>>
    var packetsHistory: map<(nat, nat), Packet>
    // What was handed to the outside world, and how many answers were consulted.
    var routingHandler: seq<RoutingCall>
    var wire: seq<Delivery>
    var controller: seq<Handed>
    var wakeups: seq<Wakeup>
    var tick: nat

    /** The record as a value. */
    function Snapshot(): Engine
      reads this, db
    {
      Engine(Node(id, floodId, serversId, serverId, terminated, status, senders, innerSenders,
                  db.Contents(), packetsMap, songMap),
             packetsHistory, Log(routingHandler, wire, controller, wakeups, tick))
    }

    /** The store answers from the same environment, and the engine invariant holds. */
    ghost predicate Valid()
      reads this, db
    {
      db.senv == env.store && Invariant(Snapshot())
    }

    /** `ClientAudio::new`: a client around its neighbours and the store it opens. */
    constructor (env: Env, id: NodeId, senders: map<NodeId, Channel>, existing: map<Key, Stored>)
      requires WellFiled(existing)
      ensures Valid() && fresh(db) && this.env == env
      ensures Snapshot() == New(id, senders, existing)
    {
      this.env := env;
      this.id := id;
      floodId := 0;
      serversId := [];
      serverId := 0;
      terminated := false;
      status := Starting;
      this.senders := senders;
      innerSenders := map[];
      db := new AudioDatabase(env.store, existing);
      packetsMap := map[];
      songMap := map[];
      packetsHistory := map[];
      routingHandler := [];
      wire := [];
      controller := [];
      wakeups := [];
      tick := 0;
    }

    /** `send_packet`: hands one packet to a neighbour's channel. */
    method SendPacket(to: NodeId, p: Packet) returns (sent: bool)
      modifies this
      ensures (Snapshot(), sent) == Dispatch.SendPacket(env, old(Snapshot()), to, p)
    {
      sent := env.linkOk(tick);
      wire := wire + [Delivery(to, p, sent)];
      tick := tick + 1;
    }

    /** `sc_send_packet`: hands one event to the controller's channel. */
    method ScSendPacket(ev: DroneEvent) returns (sent: bool)
      modifies this
      ensures (Snapshot(), sent) == Commands.ScSendPacket(env, old(Snapshot()), ev)
    {
      sent := env.controllerOk(tick);
      controller := controller + [Handed(ev, sent)];
      tick := tick + 1;
    }

    /** `event_dispatcher`: reports a sent packet to the controller. */
    method EventDispatcher(p: Packet)
      modifies this
      ensures Snapshot() == Commands.EventDispatcher(env, old(Snapshot()), p)
    {
      var _ := ScSendPacket(PacketSent(p));
    }

    /** `remove_sender`. */
    method RemoveSender(nid: NodeId) returns (res: Result<(), Failure>)
      modifies this
      ensures (Snapshot(), res) == Commands.RemoveSender(old(Snapshot()), nid)
    {
      res := if nid in senders then Ok(()) else Err(SenderNotFound(nid));
      senders := senders - {nid};
    }

    /** `add_sender`: the channel is stored even when the id was present. */
    method AddSender(nid: NodeId, ch: Channel) returns (res: Result<(), Failure>)
      modifies this
      ensures (Snapshot(), res) == Commands.AddSender(old(Snapshot()), nid, ch)
    {
      res := if nid in senders then Err(SenderExists(nid)) else Ok(());
      senders := senders[nid := ch];
    }

    /** `command_handler`. */
    method CommandHandler(c: DroneCommand)
      modifies this
      ensures Snapshot() == Commands.CommandHandler(old(Snapshot()), c)
    {
      if !terminated {
        match c
        case RemoveSender(nid) =>
          var _ := RemoveSender(nid);
        case AddSender(nid, ch) =>
          var _ := AddSender(nid, ch);
        case Crash =>
          terminated := true;
        case SetPacketDropRate =>
      }
    }

    /** `send_packets_vec`: sends, files and reports each packet until a channel refuses one. */
    method SendPacketsVec(ps: seq<Packet>, hop: NodeId) returns (res: Result<(), Failure>)
      modifies this
      ensures (Snapshot(), res) == Dispatch.SendPacketsVec(env, old(Snapshot()), ps, hop)
    {
      var sender := Dispatch.GetSender(hop, senders);
      if sender.Err? {
        return Err(sender.error);
      }
      var i := 0;
      while i < |ps|
        invariant i <= |ps|
        invariant Dispatch.SendEach(env, Snapshot(), ps[i..], hop) == Dispatch.SendEach(env, old(Snapshot()), ps, hop)
      {
        assert ps[i..][1..] == ps[i + 1..];
        var sent := SendPacket(hop, ps[i]);
        if !sent {
          return Err(SendFailed(hop));
        }
        packetsHistory := packetsHistory[LedgerKey(ps[i]) := ps[i]];
        EventDispatcher(ps[i]);
        i := i + 1;
      }
      res := Ok(());
    }

    /** `get_flood_id`. */
    method GetFloodId() returns (fid: nat)
      modifies this
      ensures (Snapshot(), fid) == Flooding.GetFloodId(old(Snapshot()))
    {
      floodId := floodId + 1;
      fid := floodId;
    }

    /** `init_flood_request`: one flood request to every neighbour, each one reported. */
    method InitFloodRequest()
      modifies this
      ensures old(Valid()) ==> Valid()
      ensures Snapshot() == Flooding.InitFloodRequest(env, old(Snapshot()))
    {
      ghost var e0 := Snapshot();
      var fid := GetFloodId();
      ghost var e1 := Snapshot();
      var sessionId := env.sessionId(tick);
      tick := tick + 1;
      var p := Flooding.FloodPacket(sessionId, FloodRequest(fid, id, [(id, Client)]));
      ghost var e2 := e1.(log := e1.log.(tick := e1.log.tick + 1));
      assert Snapshot() == e2;
      assert p == Flooding.NextFlood(env, e0) && senders == e0.node.senders;
      assert Flooding.InitFloodRequest(env, e0) == Flooding.FloodEach(env, e2, Flooding.Neighbours(senders), p);
      FloodEach(Flooding.Neighbours(senders), p);
    }

    /** The loop of `init_flood_request`: a refused send is only logged, and reported all the same. */
    method FloodEach(ids: seq<NodeId>, p: Packet)
      modifies this
      ensures Snapshot() == Flooding.FloodEach(env, old(Snapshot()), ids, p)
    {
      var i := 0;
      while i < |ids|
        invariant i <= |ids|
        invariant Flooding.FloodEach(env, Snapshot(), ids[i..], p) == Flooding.FloodEach(env, old(Snapshot()), ids, p)
      {
        assert ids[i..][1..] == ids[i + 1..];
        var _ := SendPacket(ids[i], p);
        EventDispatcher(p);
        i := i + 1;
      }
    }

    /** `send_flood_response`: to the destination's channel, else to the controller. */
    method SendFloodResponse(dest: NodeId, p: Packet) returns (res: Result<(), Failure>)
      modifies this
      ensures (Snapshot(), res) == Flooding.SendFloodResponse(env, old(Snapshot()), dest, p)
    {
      var sender := Dispatch.GetSender(dest, senders);
      if sender.Err? {
        return Err(sender.error);
      }
      var sent := SendPacket(dest, p);
      if sent {
        return Ok(());
      }
      var shortcut := ScSendPacket(ControllerShortcut(p));
      res := if shortcut then Ok(()) else Err(ShortcutFailed);
    }

    /** `handle_flood_request`. */
    method HandleFloodRequest(req: FloodRequest)
      modifies this
      ensures Snapshot() == Flooding.HandleFloodRequest(env, old(Snapshot()), req)
    {
      var response := Flooding.BuildFloodResponse(id, req);
      var _ := SendFloodResponse(response.0, response.1);
    }

    /** `ack_handler`. */
    method AckHandler(sessionId: nat, fragmentIndex: nat)
      modifies this
      ensures Snapshot() == Acks.AckHandler(old(Snapshot()), sessionId, fragmentIndex)
    {
      packetsHistory := packetsHistory - {(fragmentIndex, sessionId)};
    }

    /** `send_ack`, with the guard that only lets through a route the ack can follow back. */
    method SendAck(p: Packet, fragmentIndex: nat)
      modifies this
      ensures Snapshot() == Acks.SendAck(env, old(Snapshot()), p, fragmentIndex)
    {
      var header := Acks.AckHeader(p.routingHeader);
      if !Acks.AckGuard(p.routingHeader) {
        return;
      }
      var res := SendPacketsVec([Acks.AckFor(p, fragmentIndex)], header.hops[1]);
      if res.Err? {
        var _ := ScSendPacket(ControllerShortcut(p));
      }
    }

    /** `retransmit_packet`, sending to the new path's next hop. */
    method RetransmitPacket(p: Packet)
      requires Routed(p)
      modifies this
      ensures Snapshot() == Nacks.RetransmitPacket(env, old(Snapshot()), p)
    {
      ghost var e0 := Snapshot();
      var path := PathAt(env, tick, id, Nacks.Destination(p));
      tick := tick + 1;
      if path.None? {
        return;
      }
      var srh := path.value;
      Nacks.RetransmitSends(env, e0, p, srh);
      assert Snapshot() == e0.(log := e0.log.(tick := e0.log.tick + 1));
      var _ := SendPacketsVec([p.(routingHeader := srh)], srh.hops[srh.hopIndex + 1]);
    }

    /** `nack_handler`. */
    method NackHandler(nack: Nack, sessionId: nat, nodeId: NodeId)
      requires LedgerSound(packetsHistory)
      modifies this
      ensures Snapshot() == Nacks.NackHandler(env, old(Snapshot()), nack, sessionId, nodeId)
    {
      var key := (nack.fragmentIndex, sessionId);
      if key !in packetsHistory {
        return;
      }
      var p := packetsHistory[key];
      match nack.nackType
      case Dropped =>
        routingHandler := routingHandler + [NodeNack(nodeId)];
        RetransmitPacket(p);
      case ErrorInRouting(_) =>
        InitFloodRequest();
        RetransmitPacket(p);
      case DestinationIsDrone =>
      case UnexpectedRecipient(_) =>
    }

    /** The flood-response branch of `packet_handler`: the oracle's graph, then the servers loop. */
    method FloodResponseHandler(resp: FloodResponse)
      modifies this
      ensures Snapshot() == Inbound.FloodResponseHandler(old(Snapshot()), resp)
    {
      routingHandler := routingHandler + [UpdateGraph(resp)];
      ghost var e1 := Snapshot();
      var trace := resp.pathTrace;
      var i := 0;
      while i < |trace|
        invariant i <= |trace|
        invariant serversId == Inbound.AddServers(old(serversId), trace[..i])
        invariant Snapshot() == e1.(node := e1.node.(serversId := serversId))
      {
        assert trace[..i + 1][..i] == trace[..i];
        if trace[i].1 == Server && trace[i].0 !in serversId {
          serversId := serversId + [trace[i].0];
        }
        i := i + 1;
      }
      assert trace[..i] == trace;
    }

    /** The store answers from the same environment and is well filed. */
    ghost predicate StoreReady()
      reads this, db
    {
      db.senv == env.store && db.Valid()
    }

    /** `handle_node_message`. */
    method HandleNodeMessage(m: MessageType)
      requires StoreReady()
      modifies this, db
      ensures StoreReady()
      ensures Snapshot() == Fragments.HandleNodeMessage(env, old(Snapshot()), m)
    {
      match m
      case ChunkResponse(hash, index, data) =>
        var key := (hash, index);
        if key in innerSenders {
          songMap := songMap[key := data];
          wakeups := wakeups + [Wakeup(key, innerSenders[key], true)];
        }
      case ResponseFileList(files) =>
        InsertSongs(files);
        status := Running;
      case _ =>
    }

    /** The loop of the file-list response: each song's metadata is inserted, each video skipped. */
    method InsertSongs(files: seq<FileMetadata>)
      requires StoreReady()
      modifies db
      ensures StoreReady()
      ensures db.Contents() == Fragments.InsertSongs(env.store, old(db.Contents()), files)
    {
      var i := 0;
      while i < |files|
        invariant i <= |files|
        invariant db.Valid()
        invariant db.Contents() == Fragments.InsertSongs(env.store, old(db.Contents()), files[..i])
      {
        assert files[..i + 1][..i] == files[..i];
        match files[i] {
          case Song(song) =>
            var _ := db.InsertSongMeta(song);
          case Video(_) =>
        }
        i := i + 1;
      }
      assert files[..i] == files;
    }

    /** `fragment_handler`: buffer, acknowledge, and assemble once the buffer is complete. */
    method FragmentHandler(f: Fragment, p: Packet)
      requires Routed(p) && StoreReady()
      modifies this, db
      ensures StoreReady()
      ensures Snapshot() == Fragments.FragmentHandler(env, old(Snapshot()), f, p)
    {
      ghost var e0 := Snapshot();
      var key := Fragments.BufferKey(p);
      var buffer := Fragments.BufferOf(packetsMap, key) + [f];
      packetsMap := packetsMap[key := buffer];
      assert Snapshot() == Fragments.Buffered(e0, f, p);
      SendAck(p, f.fragmentIndex);
      ghost var e2 := Snapshot();
      if |buffer| == f.totalNFragments {
        var assembled := AssembleAt(env, tick, buffer);
        tick := tick + 1;
        assert Snapshot() == e2.(log := e2.log.(tick := e2.log.tick + 1));
        if assembled.Some? {
          HandleNodeMessage(assembled.value);
        }
      }
    }
  
    /** `packet_handler`: the route is reported, a packet for another node dropped, the rest dispatched. */
    method PacketHandler(p: Packet)
      requires StoreReady() && LedgerSound(packetsHistory)
      modifies this, db
      ensures StoreReady()
      ensures Snapshot() == Inbound.PacketHandler(env, old(Snapshot()), p)
    {
      routingHandler := routingHandler + [NodesCongestion(p.routingHeader)];
      if Inbound.ForThisNode(id, p) {
        HandleKind(p);
      }
    }

    /** The match of `packet_handler` on the packet's kind. */
    method HandleKind(p: Packet)
      requires StoreReady() && LedgerSound(packetsHistory) && Inbound.ForThisNode(id, p)
      modifies this, db
      ensures StoreReady()
      ensures Snapshot() == Inbound.HandleKind(env, old(Snapshot()), p)
    {
      ghost var e0 := Snapshot();
      ghost var target := Inbound.HandleKind(env, e0, p);
      match p.packType
      case MsgFragment(f) =>
        assert target == Fragments.FragmentHandler(env, e0, f, p);
        FragmentHandler(f, p);
      case FloodResponsePacket(resp) =>
        assert target == Inbound.FloodResponseHandler(e0, resp);
        FloodResponseHandler(resp);
      case FloodRequestPacket(req) =>
        assert target == Flooding.HandleFloodRequest(env, e0, req);
        HandleFloodRequest(req);
      case Ack(index) =>
        assert target == Acks.AckHandler(e0, p.sessionId, index);
        AckHandler(p.sessionId, index);
      case NackPacket(nack) =>
        assert target == Nacks.NackHandler(env, e0, nack, p.sessionId, p.routingHeader.hops[0]);
        NackHandler(nack, p.sessionId, p.routingHeader.hops[0]);
    }

    /**
     * One iteration of the message loop: leave it if terminated, else at most one command,
     * then at most one packet.
     */
    method Step(cmd: Processing.Poll<DroneCommand>, pkt: Processing.Poll<Packet>) returns (running: bool)
      requires Valid()
      modifies this, db
      ensures Valid()
      ensures Processing.Step(env, old(Snapshot()), cmd, pkt) == if running then Some(Snapshot()) else None
      ensures !running ==> Snapshot() == old(Snapshot())
    {
      ghost var e0 := Snapshot();
      if terminated {
        return false;
      }
      if cmd.Got? {
        Commands.CommandTouchesOnlyNeighbours(e0, cmd.item);
        CommandHandler(cmd.item);
      }
      if pkt.Got? {
        Inbound.PacketHandlerKeepsInvariant(env, Snapshot(), pkt.item);
        PacketHandler(pkt.item);
      }
      running := true;
    }

    /** The message loop over what the queues yield, until the client is found terminated. */
    method Run(polls: seq<Processing.Polls>)
      requires Valid()
      modifies this, db
      ensures Valid()
      ensures Snapshot() == Processing.Run(env, old(Snapshot()), polls)
    {
      var i := 0;
      while i < |polls|
        invariant i <= |polls| && Valid()
        invariant Processing.Run(env, Snapshot(), polls[i..]) == Processing.Run(env, old(Snapshot()), polls)
      {
        assert polls[i..][1..] == polls[i + 1..];
        var running := Step(polls[i].0, polls[i].1);
        if !running {
          return;
        }
        i := i + 1;
      }
    }

    /** `send_message`: the path, then the rest along it. */
    method SendMessage(message: MessageType, src: NodeId, dst: NodeId)
      modifies this
      ensures Snapshot() == Messages.SendMessage(env, old(Snapshot()), message, src, dst)
    {
      var path := PathAt(env, tick, src, dst);
      tick := tick + 1;
      if path.None? {
        return;
      }
      SendOnPath(message, path.value);
    }

    /** The disassembly along a known path and the batch to its next hop. */
    method SendOnPath(message: MessageType, srh: Route)
      modifies this
      ensures Snapshot() == Messages.SendOnPath(env, old(Snapshot()), message, srh)
    {
      ghost var e0 := Snapshot();
      var frames := CutAt(env, tick, message);
      tick := tick + 1;
      ghost var e1 := Snapshot();
      assert e1 == e0.(log := e0.log.(tick := e0.log.tick + 1));
      if frames.None? {
        return;
      }
      var batch := Messages.Frames(srh, frames.value);
      var hop := srh.hops[srh.hopIndex + 1];
      assert Messages.SendOnPath(env, e0, message, srh) == Dispatch.SendPacketsVec(env, e1, batch, hop).0;
      var _ := SendPacketsVec(batch, hop);
    }

    /** `send_subscribe`: the stored songs, announced to the server. */
    method SendSubscribe()
      requires Valid()
      modifies this
      ensures Valid()
      ensures Snapshot() == Messages.SendSubscribe(env, old(Snapshot()))
    {
      var songs := db.ListSongs();
      if songs.Err? {
        return;
      }
      SendMessage(SubscribeClient(id, SongClient, Messages.SongFiles(songs.value)), id, serverId);
    }

    /** `send_unsubscribe`. */
    method SendUnsubscribe()
      requires Valid()
      modifies this
      ensures Valid()
      ensures Snapshot() == Messages.SendUnsubscribe(env, old(Snapshot()))
    {
      SendMessage(UnsubscribeClient(id), id, serverId);
    }

    /** `send_request_filelist`. */
    method SendRequestFilelist()
      requires Valid()
      modifies this
      ensures Valid()
      ensures Snapshot() == Messages.SendRequestFilelist(env, old(Snapshot()))
    {
      SendMessage(RequestFileList(id), id, serverId);
    }

    /** `get_song` up to its wait: serve from the store, or register the waiter. */
    method RequestSegment(songId: string, segment: string, w: Waiter) returns (r: Result<Endpoints.SongLookup, Failure>)
      requires Valid()
      modifies this
      ensures Valid()
      ensures (Snapshot(), r) == Endpoints.RequestSegment(old(Snapshot()), songId, segment, w)
    {
      var parsed := Text.ParseUnsigned(songId, 0x1_0000);
      if parsed.None? {
        return Err(BadSegmentName);
      }
      var index := Endpoints.SegmentIndex(segment);
      if index.Err? {
        return Err(index.error);
      }
      var payload := db.GetSongSegment(parsed.value, index.value);
      if payload.Ok? {
        return Ok(Endpoints.Served(payload.value));
      }
      var key := (parsed.value, 0);
      innerSenders := innerSenders[key := w];
      r := Ok(Endpoints.Pending(key));
    }

    /** `get_song` after its wait, on the notification `found`. */
    method FinishGetSong(key: ChunkKey, found: bool) returns (r: Result<seq<Byte>, Failure>)
      ensures r == Endpoints.FinishGetSong(Snapshot(), key, found)
    {
      if found && key in songMap {
        r := Ok(songMap[key]);
      } else {
        r := Err(NotFound);
      }
    }

    /** `audio_files`. */
    method AudioFiles() returns (songs: seq<SongMetaData>)
      ensures songs == Endpoints.AudioFiles(Snapshot())
    {
      var res := db.ListSongs();
      songs := if res.Ok? then res.value else [];
    }

    /** `is_ready`. */
    method IsReady() returns (ready: bool)
      ensures ready == Endpoints.IsReady(Snapshot())
    {
      ready := status == Running;
    }
  }
}
