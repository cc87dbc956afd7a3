/**
 * The HTTP side of the client (client_endpoints.rs): serving a song segment from the
 * store or registering a waiter for it, reading back a chunk once the waiter is told, the
 * catalogue listing and the readiness flag.
 */
module Endpoints {
  import opened Wrappers
  import opened Wire
  import opened Text
  import opened Forge
  import opened Database
  import opened State
  import opened Fragments

  /**
   * The segment number of a request name as `get_song` computes it: a playlist is 0;
   * otherwise `.ts` endings are trimmed, `segment` is deleted, and the rest is read as a
   * `u16` and incremented in `u16` arithmetic. A name that does not parse, or a number
   * whose increment overflows, panics in the source and is an error here.
   */
  function SegmentIndexAsWritten(segment: string): (r: Result<U32, Failure>)
    ensures EndsWith(segment, ".m3u8") ==> r == Ok(0)
    ensures r.Ok? ==> r.value < 0x1_0000
  {
    if EndsWith(segment, ".m3u8") then Ok(0) else Increment(ParseUnsigned(RequestNumber(segment), 0x1_0000), 0x1_0000)
  }

  /**
   * The segment number of a request name read as `init` reads file names: the number is a
   * `u32` and so is its increment, as the store's segment keys are.
   */
  function SegmentIndex(segment: string): (r: Result<U32, Failure>)
    ensures EndsWith(segment, ".m3u8") ==> r == Ok(0)
  {
    if EndsWith(segment, ".m3u8") then Ok(0) else Increment(ParseUnsigned(RequestNumber(segment), 0x1_0000_0000), 0x1_0000_0000)
  }

  /** The parsed number plus one, in an unsigned type with `bound` values; no number or an overflow is an error. */
  function Increment(parsed: Option<nat>, bound: nat): (r: Result<U32, Failure>)
    requires bound <= 0x1_0000_0000
    ensures r.Ok? <==> parsed.Some? && parsed.value + 1 < bound
    ensures r.Ok? ==> r.value == parsed.value + 1
  {
    match parsed
    case None => Err(BadSegmentName)
    case Some(n) => if n + 1 < bound then Ok(n + 1) else Err(BadSegmentName)
  }

  /** The digits a request name is read from: `.ts` endings trimmed, `segment` deleted. */
  function RequestNumber(segment: string): (digits: string)
    ensures |digits| <= |segment|
  {
    RemoveAll(TrimEndMatches(segment, ".ts"), "segment")
  }

  /** The name of the file holding segment N - 1. */
  function SegmentName(n: nat): string {
    "segment" + DecimalString(n) + ".ts"
  }

  /** What a request name `segment<digits>.ts` is read as. */
  lemma RequestNameParts(n: nat)
    ensures !EndsWith(SegmentName(n), ".m3u8")
    ensures RequestNumber(SegmentName(n)) == DecimalString(n)
  {
    var digits := DecimalString(n);
    var name := SegmentName(n);
    var stem := "segment" + digits;
    assert name[|name| - 1] == 's';
    assert name == stem + ".ts";
    assert name[..|name| - 3] == stem;
    assert stem[|stem| - 1] == digits[|digits| - 1];
    assert !EndsWith(stem, ".ts") by {
      assert IsDigit(stem[|stem| - 1]);
    }
    assert TrimEndMatches(name, ".ts") == stem;
    assert stem[..7] == "segment";
    assert stem[7..] == digits;
    RemoveAllAbsent(digits, "segment");
  }

  /** A decimal spelling reads back as its number exactly when that fits the bound. */
  lemma ParseDecimalBound(n: nat, bound: nat)
    ensures ParseUnsigned(DecimalString(n), bound) == if n < bound then Some(n) else None
  {
    DecimalRoundTrip(n);
    assert DecimalString(n)[0] != '+' by {
      assert IsDigit(DecimalString(n)[0]);
    }
  }

  /**
   * As written, no segment from `segment65535.ts` on can be requested, although `init`
   * files each of them: the number overflows `u16`, or its `u16` increment does.
   */
  lemma HighSegmentsUnreachable(n: nat)
    requires 0xFFFF <= n && n + 1 < 0x1_0000_0000
    ensures SegmentOfFile(SegmentName(n)) == Ok(n + 1)
    ensures SegmentIndexAsWritten(SegmentName(n)).Err?
  {
    SegmentFileNumber(n);
    RequestNameParts(n);
    ParseDecimalBound(n, 0x1_0000);
  }

  /** Read as `init` reads it, a request name asks for exactly the segment its file was filed under. */
  lemma RequestMatchesFiling(n: nat)
    requires n + 1 < 0x1_0000_0000
    ensures SegmentIndex(SegmentName(n)) == SegmentOfFile(SegmentName(n)) == Ok(n + 1)
  {
    SegmentFileNumber(n);
    RequestNameParts(n);
    ParseDecimalBound(n, 0x1_0000_0000);
  }

  /** The two readings agree wherever the `u16` one does not overflow. */
  lemma SegmentIndexAgrees(n: nat)
    requires n + 1 < 0x1_0000
    ensures SegmentIndexAsWritten(SegmentName(n)) == Ok(n + 1)
    ensures SegmentIndex(SegmentName(n)) == Ok(n + 1)
  {
    var name := SegmentName(n);
    assert !EndsWith(name, ".m3u8") && ParseUnsigned(RequestNumber(name), 0x1_0000) == Some(n) by {
      RequestNameParts(n);
      ParseDecimalBound(n, 0x1_0000);
    }
    assert ParseUnsigned(RequestNumber(name), 0x1_0000_0000) == Some(n) by {
      RequestNameParts(n);
      ParseDecimalBound(n, 0x1_0000_0000);
    }
  }

  /** The outcome of the first half of `get_song`. */
  datatype SongLookup = Served(payload: seq<Byte>) | Pending(key: ChunkKey)

  /**
   * `get_song` up to its wait: a segment the store holds is served without touching the
   * waiters; otherwise the request's waiter is registered under the song id and chunk 0,
   * whatever segment was asked for. An id or segment name that does not parse is an error
   * (the source panics).
   */
  function RequestSegment(e: Engine, id: string, segment: string, w: Waiter): (r: (Engine, Result<SongLookup, Failure>))
    ensures ParseUnsigned(id, 0x1_0000).None? || SegmentIndex(segment).Err? ==> r == (e, Err(BadSegmentName))
    ensures r.1.Ok? && r.1.value.Served? ==>
              r.0 == e && SegmentKey(ParseUnsigned(id, 0x1_0000).value, SegmentIndex(segment).value) in e.node.db.entries
              && e.node.db.entries[SegmentKey(ParseUnsigned(id, 0x1_0000).value, SegmentIndex(segment).value)] == Payload(r.1.value.payload)
    ensures r.1.Ok? && r.1.value.Pending? ==>
              && r.1.value.key == (ParseUnsigned(id, 0x1_0000).value, 0)
              && r.0 == e.(node := e.node.(innerSenders := e.node.innerSenders[r.1.value.key := w]))
    ensures ParseUnsigned(id, 0x1_0000).Some? && SegmentIndex(segment).Ok? ==> r.1.Ok?
    ensures ParseUnsigned(id, 0x1_0000).Some? && SegmentIndex(segment).Ok?
            && LookupSongSegment(e.node.db.entries, ParseUnsigned(id, 0x1_0000).value, SegmentIndex(segment).value).Ok? ==>
              r == (e, Ok(Served(LookupSongSegment(e.node.db.entries, ParseUnsigned(id, 0x1_0000).value, SegmentIndex(segment).value).value)))
  {
    match ParseUnsigned(id, 0x1_0000)
    case None => (e, Err(BadSegmentName))
    case Some(songId) =>
      match SegmentIndex(segment)
      case Err(err) => (e, Err(err))
      case Ok(index) =>
        match LookupSongSegment(e.node.db.entries, songId, index)
        case Ok(payload) => (e, Ok(Served(payload)))
        case Err(_) =>
          var key := (songId, 0);
          (e.(node := e.node.(innerSenders := e.node.innerSenders[key := w])), Ok(Pending(key)))
  }

  /**
   * `get_song` after its wait: a `true` notification serves the cached chunk under the
   * waiter's key; a `false` one is "not found". A missing chunk after `true` panics in the
   * source and is an error here.
   */
  function FinishGetSong(e: Engine, key: ChunkKey, found: bool): (r: Result<seq<Byte>, Failure>)
    ensures r.Ok? <==> found && key in e.node.songMap
    ensures r.Ok? ==> r.value == e.node.songMap[key]
    ensures r.Err? ==> r.error == NotFound
  {
    if found && key in e.node.songMap then Ok(e.node.songMap[key]) else Err(NotFound)
  }

  /** In any state the engine reaches, a waiter told its chunk arrived is served it. */
  lemma WokenRequestIsServed(e: Engine, i: nat)
    requires Invariant(e) && i < |e.log.wakeups| && e.log.wakeups[i].found
    ensures FinishGetSong(e, e.log.wakeups[i].key, true) == Ok(e.node.songMap[e.log.wakeups[i].key])
  {
  }

  /** `audio_files`: the catalogue, or an empty list when it cannot be read. */
  function AudioFiles(e: Engine): (songs: seq<SongMetaData>)
    ensures ReadCatalogue(e.node.db.entries).Err? ==> songs == []
  {
    match ReadCatalogue(e.node.db.entries)
    case Ok(songs) => songs
    case Err(_) => []
  }

  /** On a well-filed store the listing names exactly the songs stored under their ids. */
  lemma AudioFilesListsStore(e: Engine, song: SongMetaData)
    requires WellFiled(e.node.db.entries)
    ensures song in AudioFiles(e) <==> MetaKey(song.id) in e.node.db.entries && e.node.db.entries[MetaKey(song.id)] == Meta(song)
  {
    ReadCatalogueOfWellFiled(e.node.db.entries);
    CatalogueMembers(e.node.db.entries, song);
  }

  /** `is_ready`. */
  function IsReady(e: Engine): (ready: bool)
    ensures ready <==> e.node.status == Running
  {
    e.node.status == Running
  }

  /** The client is ready once a file list arrives, whatever happened to its inserts. */
  lemma ReadyAfterFileList(env: Env, e: Engine, files: seq<FileMetadata>)
    ensures IsReady(HandleNodeMessage(env, e, ResponseFileList(files)))
  {
  }
}
