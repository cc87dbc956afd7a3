/**
 * Reassembly (fragment_handler.rs): fragments are buffered per origin and session, each
 * one is acknowledged, and a buffer that reaches the announced fragment count is handed
 * to the codec; the message it yields is either a chunk for a waiting HTTP request or the
 * server's file list.
 */
module Fragments {
  import opened Wrappers
  import opened Wire
  import opened Forge
  import opened Database
  import opened State
  import opened Acks

  /** The number of songs in a file list. */
  function SongCount(files: seq<FileMetadata>): (n: nat)
    ensures n <= |files|
  {
    if files == [] then 0 else SongCount(files[..|files| - 1]) + (if files[|files| - 1].Song? then 1 else 0)
  }

  /**
   * The loop of the file-list response: every song's metadata is inserted in order (a
   * failed insert is only logged), every video is skipped.
   */
  function InsertSongs(senv: StoreEnv, st: Store, files: seq<FileMetadata>): (r: Store)
    ensures r.writes == st.writes + SongCount(files)
    ensures WellFiled(st.entries) ==> WellFiled(r.entries)
    ensures forall k :: k in st.entries ==> k in r.entries
  {
    if files == [] then st
    else
      var st1 := InsertSongs(senv, st, files[..|files| - 1]);
      match files[|files| - 1]
      case Song(song) => StoreSongMeta(senv, st1, song).0
      case Video(_) => st1
  }

  /** Inserting the songs of a list leaves every key that is not one of their metadata keys alone. */
  lemma {:induction false} InsertSongsTouchOnlyTheirKeys(senv: StoreEnv, st: Store, files: seq<FileMetadata>, k: Key)
    requires forall i :: 0 <= i < |files| && files[i].Song? ==> k != MetaKey(AssignedId(senv, files[i].song))
    ensures k in InsertSongs(senv, st, files).entries <==> k in st.entries
    ensures k in st.entries ==> InsertSongs(senv, st, files).entries[k] == st.entries[k]
  {
    if files != [] {
      InsertSongsTouchOnlyTheirKeys(senv, st, files[..|files| - 1], k);
    }
  }

  /** With a store that takes every write, every song of the list has metadata under its id afterwards. */
  lemma {:induction false} InsertSongsStoreEverySong(senv: StoreEnv, st: Store, files: seq<FileMetadata>, i: nat)
    requires forall n :: st.writes <= n < st.writes + SongCount(files) ==> senv.writeOk(n)
    requires i < |files| && files[i].Song?
    ensures MetaKey(AssignedId(senv, files[i].song)) in InsertSongs(senv, st, files).entries
  {
    var init := files[..|files| - 1];
    var st1 := InsertSongs(senv, st, init);
    if i < |files| - 1 {
      assert init[i] == files[i];
      InsertSongsStoreEverySong(senv, st, init, i);
    } else {
      assert senv.writeOk(st1.writes);
    }
  }

  /**
   * `handle_node_message`: a chunk for which an HTTP request waits is cached under its
   * content id and chunk index and the waiter is told it arrived; a chunk nobody waits for
   * is dropped. A file list is stored song by song, after which the client is running,
   * whether or not every insert succeeded. Any other message changes nothing.
   */
  function HandleNodeMessage(env: Env, e: Engine, m: MessageType): (r: Engine)
    ensures m.ChunkResponse? && (m.fileHash, m.chunkIndex) in e.node.innerSenders ==>
              && r.node.songMap == e.node.songMap[(m.fileHash, m.chunkIndex) := m.chunkData]
              && r.log.wakeups == e.log.wakeups + [Wakeup((m.fileHash, m.chunkIndex), e.node.innerSenders[(m.fileHash, m.chunkIndex)], true)]
              && r.node.db == e.node.db && r.node.status == e.node.status
    ensures m.ChunkResponse? && (m.fileHash, m.chunkIndex) !in e.node.innerSenders ==> r == e
    ensures m.ResponseFileList? ==>
              r.node.status == Running && r.node.db == InsertSongs(env.store, e.node.db, m.fileList)
              && r.node.songMap == e.node.songMap && r.log == e.log
    ensures !m.ChunkResponse? && !m.ResponseFileList? ==> r == e
    ensures r.node == e.node.(songMap := r.node.songMap, db := r.node.db, status := r.node.status)
    ensures r.packetsHistory == e.packetsHistory && r.log == e.log.(wakeups := r.log.wakeups)
  {
    match m
    case ChunkResponse(hash, index, data) =>
      var key := (hash, index);
      if key in e.node.innerSenders then
        e.(node := e.node.(songMap := e.node.songMap[key := data]),
           log := e.log.(wakeups := e.log.wakeups + [Wakeup(key, e.node.innerSenders[key], true)]))
      else e
    case ResponseFileList(files) =>
      e.(node := e.node.(db := InsertSongs(env.store, e.node.db, files), status := Running))
    case _ => e
  }

  /** The reassembly buffer key of a packet: the node that started it and its session. */
  function BufferKey(p: Packet): (k: (NodeId, nat))
    requires Routed(p)
    ensures p.routingHeader.hops[..1] == [k.0] && k.1 == p.sessionId
  {
    (p.routingHeader.hops[0], p.sessionId)
  }

  /** The fragments buffered under a key so far (`or_default`: none yet is the empty buffer). */
  function BufferOf(m: map<(NodeId, nat), seq<Fragment>>, key: (NodeId, nat)): seq<Fragment> {
    if key in m then m[key] else []
  }

  /** The state once a fragment is pushed onto its buffer. */
  function Buffered(e: Engine, f: Fragment, p: Packet): Engine
    requires Routed(p)
  {
    var key := BufferKey(p);
    e.(node := e.node.(packetsMap := e.node.packetsMap[key := BufferOf(e.node.packetsMap, key) + [f]]))
  }

  /**
   * `fragment_handler`: push the fragment, acknowledge it, and when the buffer then holds
   * exactly the announced number of fragments, consult the codec and handle the message it
   * assembles. The buffer stays in place afterwards.
   */
  function FragmentHandler(env: Env, e: Engine, f: Fragment, p: Packet): (r: Engine)
    requires Routed(p)
    ensures BufferKey(p) in r.node.packetsMap
    ensures r.node.packetsMap[BufferKey(p)] == BufferOf(e.node.packetsMap, BufferKey(p)) + [f]
    ensures forall k :: k != BufferKey(p) ==> (k in r.node.packetsMap <==> k in e.node.packetsMap)
    ensures forall k :: k != BufferKey(p) && k in e.node.packetsMap ==> r.node.packetsMap[k] == e.node.packetsMap[k]
    ensures |BufferOf(e.node.packetsMap, BufferKey(p))| + 1 != f.totalNFragments ==>
              r == SendAck(env, Buffered(e, f, p), p, f.fragmentIndex)
    ensures r.node == e.node.(packetsMap := r.node.packetsMap, songMap := r.node.songMap, db := r.node.db, status := r.node.status)
    ensures LedgerSound(e.packetsHistory) ==> LedgerSound(r.packetsHistory)
    ensures forall k :: k in e.packetsHistory ==> k in r.packetsHistory
    ensures r.log.routingHandler == e.log.routingHandler
  {
    var key := BufferKey(p);
    var buffer := BufferOf(e.node.packetsMap, key) + [f];
    var e2 := SendAck(env, Buffered(e, f, p), p, f.fragmentIndex);
    if |buffer| == f.totalNFragments then
      var e3 := e2.(log := e2.log.(tick := e2.log.tick + 1));
      match env.assemble(e2.log.tick, buffer)
      case None => e3
      case Some(m) => HandleNodeMessage(env, e3, m)
    else e2
  }

  /**
   * When the buffer reaches the announced count, the codec is consulted on the whole
   * buffer, after the ack, and what it assembles is handled.
   */
  lemma FragmentCompletesMessage(env: Env, e: Engine, f: Fragment, p: Packet)
    requires Routed(p)
    requires |BufferOf(e.node.packetsMap, BufferKey(p))| + 1 == f.totalNFragments
    ensures var e2 := SendAck(env, Buffered(e, f, p), p, f.fragmentIndex);
            var e3 := e2.(log := e2.log.(tick := e2.log.tick + 1));
            var buffer := BufferOf(e.node.packetsMap, BufferKey(p)) + [f];
            && (env.assemble(e2.log.tick, buffer).None? ==> FragmentHandler(env, e, f, p) == e3)
            && (env.assemble(e2.log.tick, buffer).Some? ==>
                  FragmentHandler(env, e, f, p) == HandleNodeMessage(env, e3, env.assemble(e2.log.tick, buffer).value))
  {
  }

  /**
   * The buffer is never cleared, so once it has reached the announced count, later
   * fragments of the same session only grow it and never reach the codec again.
   */
  lemma NoReassemblyAfterCompletion(env: Env, e: Engine, f: Fragment, p: Packet)
    requires Routed(p)
    requires |BufferOf(e.node.packetsMap, BufferKey(p))| >= f.totalNFragments
    ensures FragmentHandler(env, e, f, p) == SendAck(env, Buffered(e, f, p), p, f.fragmentIndex)
    ensures |FragmentHandler(env, e, f, p).node.packetsMap[BufferKey(p)]| > f.totalNFragments
  {
  }

  /** The waiter of a chunk response is only told the chunk arrived once it can find it cached. */
  lemma ChunkCachedBeforeWakeup(env: Env, e: Engine, m: MessageType)
    requires forall i :: 0 <= i < |e.log.wakeups| && e.log.wakeups[i].found ==> e.log.wakeups[i].key in e.node.songMap
    ensures var r := HandleNodeMessage(env, e, m);
            forall i :: 0 <= i < |r.log.wakeups| && r.log.wakeups[i].found ==> r.log.wakeups[i].key in r.node.songMap
  {
  }

  /** Reassembly keeps the store well filed and every waiter told of a chunk able to find it. */
  lemma FragmentHandlerKeepsInvariant(env: Env, e: Engine, f: Fragment, p: Packet)
    requires Routed(p) && Invariant(e)
    ensures Invariant(FragmentHandler(env, e, f, p))
  {
    var key := BufferKey(p);
    var buffer := BufferOf(e.node.packetsMap, key) + [f];
    var e2 := SendAck(env, Buffered(e, f, p), p, f.fragmentIndex);
    assert Invariant(e2);
    if |buffer| == f.totalNFragments {
      var e3 := e2.(log := e2.log.(tick := e2.log.tick + 1));
      if env.assemble(e2.log.tick, buffer).Some? {
        ChunkCachedBeforeWakeup(env, e3, env.assemble(e2.log.tick, buffer).value);
      }
    }
  }
}
