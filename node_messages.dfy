/**
 * Messages the client originates (node_messages.rs): subscribing with its catalogue,
 * unsubscribing and asking for the file list, all sent to the designated server along a
 * path the routing oracle chooses, as fragments the codec cuts the message into.
 */
module Messages {
  import opened Wrappers
  import opened Wire
  import opened Forge
  import opened Database
  import opened State
  import opened Dispatch

  /** The packets of a disassembled message: one per fragment, each on the route, all in one session. */
  function Frames(srh: Route, d: Disassembly): (ps: seq<Packet>)
    ensures |ps| == |d.fragments|
    ensures forall i :: 0 <= i < |ps| ==> ps[i] == Packet(srh, d.sessionId, MsgFragment(d.fragments[i]))
  {
    FramesOf(srh, d.sessionId, d.fragments)
  }

  /** The packets carrying the given fragments, in order, on one route and in one session. */
  function FramesOf(srh: Route, sessionId: nat, fragments: seq<Fragment>): (ps: seq<Packet>)
    ensures |ps| == |fragments|
    ensures forall i :: 0 <= i < |ps| ==> ps[i] == Packet(srh, sessionId, MsgFragment(fragments[i]))
  {
    if fragments == [] then []
    else [Packet(srh, sessionId, MsgFragment(fragments[0]))] + FramesOf(srh, sessionId, fragments[1..])
  }

  /**
   * `send_message`: ask for a path from `src` to `dst` and send the message along it.
   * Without a path nothing is sent.
   */
  function SendMessage(env: Env, e: Engine, message: MessageType, src: NodeId, dst: NodeId): (r: Engine)
    ensures env.bestPath(e.log.tick, src, dst).None? ==> r == e.(log := e.log.(tick := e.log.tick + 1))
    ensures env.bestPath(e.log.tick, src, dst).Some? && env.disassemble(e.log.tick + 1, message).None? ==>
              r == e.(log := e.log.(tick := e.log.tick + 2))
    ensures r.node == e.node
    ensures r.log.wakeups == e.log.wakeups && r.log.routingHandler == e.log.routingHandler
    ensures forall k :: k in e.packetsHistory ==> k in r.packetsHistory
    ensures LedgerSound(e.packetsHistory) ==> LedgerSound(r.packetsHistory)
  {
    var e1 := e.(log := e.log.(tick := e.log.tick + 1));
    match env.bestPath(e.log.tick, src, dst)
    case None => e1
    case Some(srh) => SendOnPath(env, e1, message, srh)
  }

  /**
   * The rest of `send_message` once a path is known: have the codec cut the message into
   * frames on that path and send them as one batch to the path's next hop. When the codec
   * fails, nothing is sent.
   */
  function SendOnPath(env: Env, e: Engine, message: MessageType, srh: Route): (r: Engine)
    ensures env.disassemble(e.log.tick, message).None? ==> r == e.(log := e.log.(tick := e.log.tick + 1))
    ensures r.node == e.node
    ensures r.log.wakeups == e.log.wakeups && r.log.routingHandler == e.log.routingHandler
    ensures forall k :: k in e.packetsHistory ==> k in r.packetsHistory
    ensures LedgerSound(e.packetsHistory) ==> LedgerSound(r.packetsHistory)
  {
    var e1 := e.(log := e.log.(tick := e.log.tick + 1));
    match env.disassemble(e.log.tick, message)
    case None => e1
    case Some(d) => SendPacketsVec(env, e1, Frames(srh, d), srh.hops[srh.hopIndex + 1]).0
  }

  /**
   * With a path and a disassembly, the frames go in order to the path's next hop: the
   * channel takes a prefix of them, which is filed in the ledger, and refuses the frame
   * after it, if any; a next hop that is not a neighbour gets nothing.
   */
  lemma SendMessageBatch(env: Env, e: Engine, message: MessageType, src: NodeId, dst: NodeId)
    requires env.bestPath(e.log.tick, src, dst).Some? && env.disassemble(e.log.tick + 1, message).Some?
    ensures var srh := env.bestPath(e.log.tick, src, dst).value;
            var frames := Frames(srh, env.disassemble(e.log.tick + 1, message).value);
            var hop := srh.hops[srh.hopIndex + 1];
            var done := SentPrefix(env, e.log.tick + 2, frames);
            var r := SendMessage(env, e, message, src, dst);
            && (hop !in e.node.senders ==> r.log.wire == e.log.wire && r.packetsHistory == e.packetsHistory)
            && (hop in e.node.senders ==>
                  && done == frames[..|done|]
                  && r.packetsHistory == RecordAll(e.packetsHistory, done)
                  && r.log.wire == e.log.wire + Delivered(hop, done)
                                   + (if |done| < |frames| then [Delivery(hop, frames[|done|], false)] else []))
  {
    var srh := env.bestPath(e.log.tick, src, dst).value;
    var frames := Frames(srh, env.disassemble(e.log.tick + 1, message).value);
    var hop := srh.hops[srh.hopIndex + 1];
    var e2 := e.(log := e.log.(tick := e.log.tick + 2));
    if hop in e.node.senders {
      assert SendMessage(env, e, message, src, dst) == SendEach(env, e2, frames, hop).0;
      BatchAfter(env, e, e2, frames, hop);
    }
  }

  /** `SendEachBatch` for a batch sent once two consultations have passed. */
  lemma BatchAfter(env: Env, e: Engine, e2: Engine, ps: seq<Packet>, hop: NodeId)
    requires e2 == e.(log := e.log.(tick := e.log.tick + 2))
    ensures var done := SentPrefix(env, e.log.tick + 2, ps);
            var r := SendEach(env, e2, ps, hop).0;
            && done == ps[..|done|]
            && r.packetsHistory == RecordAll(e.packetsHistory, done)
            && r.log.wire == e.log.wire + Delivered(hop, done)
                             + (if |done| < |ps| then [Delivery(hop, ps[|done|], false)] else [])
  {
    SendEachBatch(env, e2, ps, hop);
  }

  /** The file list a subscription announces: every song, wrapped as song metadata. */
  function SongFiles(songs: seq<SongMetaData>): (files: seq<FileMetadata>)
    ensures |files| == |songs|
    ensures forall i :: 0 <= i < |songs| ==> files[i] == Song(songs[i])
  {
    if songs == [] then [] else [Song(songs[0])] + SongFiles(songs[1..])
  }

  /**
   * `send_subscribe`: announce the stored songs to the server as a song client; if the
   * catalogue cannot be read, nothing is sent.
   */
  function SendSubscribe(env: Env, e: Engine): (r: Engine)
    ensures ReadCatalogue(e.node.db.entries).Err? ==> r == e
    ensures r.node == e.node
    ensures r.log.wakeups == e.log.wakeups && r.log.routingHandler == e.log.routingHandler
    ensures forall k :: k in e.packetsHistory ==> k in r.packetsHistory
    ensures LedgerSound(e.packetsHistory) ==> LedgerSound(r.packetsHistory)
  {
    match ReadCatalogue(e.node.db.entries)
    case Err(_) => e
    case Ok(songs) =>
      SendMessage(env, e, SubscribeClient(e.node.id, SongClient, SongFiles(songs)), e.node.id, e.node.serverId)
  }

  /**
   * On a well-filed store the subscription goes from this client to its server, and names
   * a file exactly when it is a song whose metadata the store holds under its id.
   */
  lemma SubscribeAnnouncesCatalogue(env: Env, e: Engine, f: FileMetadata)
    requires WellFiled(e.node.db.entries)
    ensures var files := SongFiles(Catalogue(e.node.db.entries));
            && SendSubscribe(env, e) == SendMessage(env, e, SubscribeClient(e.node.id, SongClient, files), e.node.id, e.node.serverId)
            && (f in files <==> f.Song? && MetaKey(f.song.id) in e.node.db.entries && e.node.db.entries[MetaKey(f.song.id)] == Meta(f.song))
  {
    var entries := e.node.db.entries;
    ReadCatalogueOfWellFiled(entries);
    var songs := Catalogue(entries);
    var files := SongFiles(songs);
    if f in files {
      var i :| 0 <= i < |files| && files[i] == f;
      CatalogueMembers(entries, songs[i]);
    }
    if f.Song? {
      CatalogueMembers(entries, f.song);
      if f.song in songs {
        var i :| 0 <= i < |songs| && songs[i] == f.song;
        assert files[i] == f;
      }
    }
  }

  /** `send_unsubscribe`: this client asks its server to drop its subscription. */
  function SendUnsubscribe(env: Env, e: Engine): (r: Engine)
    ensures env.bestPath(e.log.tick, e.node.id, e.node.serverId).None? ==> r == e.(log := e.log.(tick := e.log.tick + 1))
    ensures env.bestPath(e.log.tick, e.node.id, e.node.serverId).Some? && env.disassemble(e.log.tick + 1, UnsubscribeClient(e.node.id)).None? ==>
              r == e.(log := e.log.(tick := e.log.tick + 2))
    ensures r.node == e.node
    ensures r.log.wakeups == e.log.wakeups && r.log.routingHandler == e.log.routingHandler
    ensures forall k :: k in e.packetsHistory ==> k in r.packetsHistory
    ensures LedgerSound(e.packetsHistory) ==> LedgerSound(r.packetsHistory)
  {
    SendMessage(env, e, UnsubscribeClient(e.node.id), e.node.id, e.node.serverId)
  }

  /** `send_request_filelist`: this client asks its server for the file list. */
  function SendRequestFilelist(env: Env, e: Engine): (r: Engine)
    ensures env.bestPath(e.log.tick, e.node.id, e.node.serverId).None? ==> r == e.(log := e.log.(tick := e.log.tick + 1))
    ensures env.bestPath(e.log.tick, e.node.id, e.node.serverId).Some? && env.disassemble(e.log.tick + 1, RequestFileList(e.node.id)).None? ==>
              r == e.(log := e.log.(tick := e.log.tick + 2))
    ensures r.node == e.node
    ensures r.log.wakeups == e.log.wakeups && r.log.routingHandler == e.log.routingHandler
    ensures forall k :: k in e.packetsHistory ==> k in r.packetsHistory
    ensures LedgerSound(e.packetsHistory) ==> LedgerSound(r.packetsHistory)
  {
    SendMessage(env, e, RequestFileList(e.node.id), e.node.id, e.node.serverId)
  }

  /** `send_update_filelist` does nothing. */
  function SendUpdateFilelist(e: Engine): (r: Engine)
    ensures r == e
  {
    e
  }
}
