/**
 * The local content store: song metadata and song segments in an ordered key-value map
 * (sled). Metadata lives under the 2-byte big-endian song id; a segment lives under the
 * 4-byte big-endian segment number followed by the 2-byte big-endian song id. Values are
 * kept as typed records; their bincode serialisation is not modelled.
 */
module Database {
  import opened Wrappers
  import opened Wire
  import opened Forge
  import opened Text

  type Key = seq<Byte>

  datatype Stored = Meta(song: SongMetaData) | Payload(bytes: seq<Byte>)

  /** `id.to_be_bytes()` for a `u16`. */
  function BigEndian2(x: U16): (b: seq<Byte>)
    ensures |b| == 2 && (b[0] as int) * 0x100 + b[1] == x
  {
    [x / 0x100, x % 0x100]
  }

  /** `segment.to_be_bytes()` for a `u32`. */
  function BigEndian4(x: U32): (b: seq<Byte>)
    ensures |b| == 4 && (((b[0] as int) * 0x100 + b[1]) * 0x100 + b[2]) * 0x100 + b[3] == x
  {
    [x / 0x100_0000, (x / 0x1_0000) % 0x100, (x / 0x100) % 0x100, x % 0x100]
  }

  /** The key of a song's metadata record. */
  function MetaKey(id: U16): (k: Key)
    ensures |k| == 2 && k == BigEndian2(id)
  {
    BigEndian2(id)
  }

  /** The key of one segment of a song: segment number first, then the song id. */
  function SegmentKey(id: U16, segment: U32): (k: Key)
    ensures |k| == 6 && k[..4] == BigEndian4(segment) && k[4..] == BigEndian2(id)
  {
    BigEndian4(segment) + BigEndian2(id)
  }

  /** Distinct songs and segments get distinct keys, and no segment key is a metadata key. */
  lemma KeysAreInjective(a: U16, s: U32, b: U16, t: U32)
    ensures MetaKey(a) == MetaKey(b) <==> a == b
    ensures SegmentKey(a, s) == SegmentKey(b, t) <==> a == b && s == t
    ensures MetaKey(a) != SegmentKey(b, t)
  {
    if SegmentKey(a, s) == SegmentKey(b, t) {
      assert BigEndian4(s) == SegmentKey(a, s)[..4] == BigEndian4(t);
      assert BigEndian2(a) == SegmentKey(a, s)[4..] == BigEndian2(b);
    }
  }

  /**
   * The store invariant: every metadata record sits under its own song id, every other
   * record under a 6-byte segment key.
   */
  ghost predicate WellFiled(entries: map<Key, Stored>) {
    forall k :: k in entries ==>
      match entries[k]
      case Meta(song) => k == MetaKey(song.id)
      case Payload(_) => |k| == 6
  }

  /** The uninterpreted parts of the store: whether the n-th write succeeds, and `compact_hash_u16`. */
  datatype StoreEnv = StoreEnv(writeOk: nat -> bool, compactHash: SongMetaData -> U16)

  /** The store's contents and the number of writes attempted so far. */
  datatype Store = Store(entries: map<Key, Stored>, writes: nat)

  /** The id `insert_song_meta` files a song under: its own, or its hash when that is 0. */
  function AssignedId(senv: StoreEnv, song: SongMetaData): U16 {
    if song.id == 0 then senv.compactHash(song) else song.id
  }

  /** `insert_song_meta`: an id of 0 is replaced by the song's hash; the id used is returned. */
  function StoreSongMeta(senv: StoreEnv, st: Store, song: SongMetaData): (r: (Store, Result<U16, Failure>))
    ensures r.0.writes == st.writes + 1
    ensures r.1.Ok? <==> senv.writeOk(st.writes)
    ensures r.1.Ok? ==> r.1.value == AssignedId(senv, song) && (song.id != 0 ==> r.1.value == song.id)
    ensures r.1.Ok? ==> r.0.entries == st.entries[MetaKey(r.1.value) := Meta(song.(id := r.1.value))]
    ensures r.1.Err? ==> r.0.entries == st.entries && r.1.error == InsertFailed
  {
    var id := AssignedId(senv, song);
    if senv.writeOk(st.writes) then
      (Store(st.entries[MetaKey(id) := Meta(song.(id := id))], st.writes + 1), Ok(id))
    else
      (st.(writes := st.writes + 1), Err(InsertFailed))
  }

  /** `insert_song_segment`. */
  function StoreSongSegment(senv: StoreEnv, st: Store, id: U16, segment: U32, payload: seq<Byte>): (r: (Store, Result<(), Failure>))
    ensures r.0.writes == st.writes + 1
    ensures r.1.Ok? <==> senv.writeOk(st.writes)
    ensures r.1.Ok? ==> r.0.entries == st.entries[SegmentKey(id, segment) := Payload(payload)]
    ensures r.1.Err? ==> r.0.entries == st.entries && r.1.error == InsertFailed
  {
    if senv.writeOk(st.writes) then
      (Store(st.entries[SegmentKey(id, segment) := Payload(payload)], st.writes + 1), Ok(()))
    else
      (st.(writes := st.writes + 1), Err(InsertFailed))
  }

  /** `get_song_meta`. */
  function LookupSongMeta(entries: map<Key, Stored>, id: U16): (r: Result<SongMetaData, Failure>)
    ensures r.Ok? <==> MetaKey(id) in entries && entries[MetaKey(id)].Meta?
    ensures r.Ok? ==> entries[MetaKey(id)] == Meta(r.value)
    ensures r.Err? ==> r.error == (if MetaKey(id) in entries then Deserialise else NotFound)
  {
    if MetaKey(id) !in entries then Err(NotFound)
    else match entries[MetaKey(id)]
      case Meta(song) => Ok(song)
      case Payload(_) => Err(Deserialise)
  }

  /** `get_song_segment`. */
  function LookupSongSegment(entries: map<Key, Stored>, id: U16, segment: U32): (r: Result<seq<Byte>, Failure>)
    ensures r.Ok? <==> SegmentKey(id, segment) in entries && entries[SegmentKey(id, segment)].Payload?
    ensures r.Ok? ==> entries[SegmentKey(id, segment)] == Payload(r.value)
    ensures SegmentKey(id, segment) !in entries ==> r == Err(NotFound)
  {
    if SegmentKey(id, segment) !in entries then Err(NotFound)
    else match entries[SegmentKey(id, segment)]
      case Payload(bytes) => Ok(bytes)
      case Meta(_) => Err(Deserialise)
  }

  /** Inserting a segment and reading it back gives the payload; other segments are untouched. */
  lemma SegmentRoundTrip(senv: StoreEnv, st: Store, id: U16, segment: U32, payload: seq<Byte>, id': U16, segment': U32)
    ensures var (st', res) := StoreSongSegment(senv, st, id, segment, payload);
      && (res.Ok? ==> LookupSongSegment(st'.entries, id, segment) == Ok(payload))
      && ((id', segment') != (id, segment) || res.Err? ==>
            LookupSongSegment(st'.entries, id', segment') == LookupSongSegment(st.entries, id', segment'))
  {
    KeysAreInjective(id, segment, id', segment');
  }

  /** Inserting metadata and reading it back under the returned id gives the stored song. */
  lemma MetaRoundTrip(senv: StoreEnv, st: Store, song: SongMetaData, other: U16)
    ensures var (st', res) := StoreSongMeta(senv, st, song);
      && (res.Ok? ==> LookupSongMeta(st'.entries, res.value) == Ok(song.(id := res.value)))
      && (res.Ok? && song.id != 0 ==> res.value == song.id)
      && (res.Err? || other != res.value ==> LookupSongMeta(st'.entries, other) == LookupSongMeta(st.entries, other))
  {
    var (st', res) := StoreSongMeta(senv, st, song);
    if res.Ok? {
      KeysAreInjective(other, 0, res.value, 0);
    }
  }

  /** Both writes keep every record filed under its own key. */
  lemma WritesKeepFiling(senv: StoreEnv, st: Store, song: SongMetaData, id: U16, segment: U32, payload: seq<Byte>)
    requires WellFiled(st.entries)
    ensures WellFiled(StoreSongMeta(senv, st, song).0.entries)
    ensures WellFiled(StoreSongSegment(senv, st, id, segment, payload).0.entries)
  {
  }

  /** The keys `get_all_songs_meta` reads back as songs: those whose first byte is not zero. */
  predicate ListedKey(k: Key) {
    |k| > 0 && k[0] != 0
  }

  /** The metadata of songs with ids below `n`, in ascending id order (the store's key order). */
  function CatalogueUpTo(entries: map<Key, Stored>, n: nat): seq<SongMetaData>
    requires n <= 0x1_0000
  {
    if n == 0 then []
    else
      var k := MetaKey(n - 1);
      CatalogueUpTo(entries, n - 1) + (if k in entries && entries[k].Meta? then [entries[k].song] else [])
  }

  /** The whole catalogue: every stored song's metadata, in ascending id order. */
  function Catalogue(entries: map<Key, Stored>): seq<SongMetaData> {
    CatalogueUpTo(entries, 0x1_0000)
  }

  /** The songs listed below id `n` are exactly the stored metadata records with an id below `n`. */
  lemma {:induction false} CatalogueUpToMembers(entries: map<Key, Stored>, n: nat, song: SongMetaData)
    requires n <= 0x1_0000
    requires WellFiled(entries)
    ensures song in CatalogueUpTo(entries, n) <==> song.id < n && MetaKey(song.id) in entries && entries[MetaKey(song.id)] == Meta(song)
  {
    if n > 0 {
      var k := MetaKey(n - 1);
      var prev := CatalogueUpTo(entries, n - 1);
      var last := if k in entries && entries[k].Meta? then [entries[k].song] else [];
      assert CatalogueUpTo(entries, n) == prev + last;
      assert song in prev <==> song.id < n - 1 && MetaKey(song.id) in entries && entries[MetaKey(song.id)] == Meta(song) by {
        CatalogueUpToMembers(entries, n - 1, song);
      }
      assert song in last <==> song.id == n - 1 && k in entries && entries[k] == Meta(song) by {
        KeysAreInjective(song.id, 0, n - 1, 0);
        if k in entries && entries[k].Meta? {
          assert k == MetaKey(entries[k].song.id);
          KeysAreInjective(entries[k].song.id, 0, n - 1, 0);
        }
      }
    }
  }

  /** A song is in the catalogue exactly when its metadata is stored under its id. */
  lemma CatalogueMembers(entries: map<Key, Stored>, song: SongMetaData)
    requires WellFiled(entries)
    ensures song in Catalogue(entries) <==> MetaKey(song.id) in entries && entries[MetaKey(song.id)] == Meta(song)
  {
    CatalogueUpToMembers(entries, 0x1_0000, song);
  }

  /**
   * Reading the catalogue back, as the listing does once it reads only metadata keys: a
   * metadata key holding anything but metadata cannot be read back and fails the listing.
   */
  function ReadCatalogueUpTo(entries: map<Key, Stored>, n: nat): (r: Result<seq<SongMetaData>, Failure>)
    requires n <= 0x1_0000
    ensures r.Ok? ==> r.value == CatalogueUpTo(entries, n)
    ensures r.Err? ==> r.error == Deserialise
  {
    if n == 0 then Ok([])
    else
      match ReadCatalogueUpTo(entries, n - 1)
      case Err(err) => Err(err)
      case Ok(songs) =>
        var k := MetaKey(n - 1);
        if k !in entries then Ok(songs)
        else
          match entries[k]
          case Meta(song) => Ok(songs + [song])
          case Payload(_) => Err(Deserialise)
  }

  /** The catalogue as the corrected listing reads it: every metadata key, in id order. */
  function ReadCatalogue(entries: map<Key, Stored>): (r: Result<seq<SongMetaData>, Failure>)
    ensures r.Ok? ==> r.value == Catalogue(entries)
    ensures r.Err? ==> r.error == Deserialise
  {
    ReadCatalogueUpTo(entries, 0x1_0000)
  }

  /** The read fails exactly when some metadata key below `n` holds a segment payload. */
  lemma {:induction false} ReadCatalogueUpToFails(entries: map<Key, Stored>, n: nat)
    requires n <= 0x1_0000
    ensures ReadCatalogueUpTo(entries, n).Err? <==>
              exists id: U16 :: id < n && MetaKey(id) in entries && entries[MetaKey(id)].Payload?
  {
    if n > 0 {
      ReadCatalogueUpToFails(entries, n - 1);
      var k := MetaKey(n - 1);
      if k in entries && entries[k].Payload? {
        assert n - 1 < n && MetaKey(n - 1) in entries && entries[MetaKey(n - 1)].Payload?;
      }
    }
  }

  /** On a well-filed store the catalogue always reads back. */
  lemma ReadCatalogueOfWellFiled(entries: map<Key, Stored>)
    requires WellFiled(entries)
    ensures ReadCatalogue(entries) == Ok(Catalogue(entries))
  {
    ReadCatalogueUpToFails(entries, 0x1_0000);
  }

  lemma {:induction false} ReadCatalogueStaysFailed(entries: map<Key, Stored>, m: nat, n: nat)
    requires m <= n <= 0x1_0000 && ReadCatalogueUpTo(entries, m).Err?
    ensures ReadCatalogueUpTo(entries, n).Err?
    decreases n - m
  {
    if m < n {
      ReadCatalogueStaysFailed(entries, m, n - 1);
    }
  }

  /** Metadata of a song whose id is below 256 starts with a zero byte, so the listing skips it. */
  lemma LowIdsAreNotListed(id: U16)
    requires id < 0x100
    ensures !ListedKey(MetaKey(id))
  {
  }

  /** A directory entry as `read_dir` yields it. */
  datatype DirEntry = Unreadable | Entry(name: string, isFile: bool)

  /**
   * The metadata-file search of `init`: the single `.json` file of the directory.
   * An unreadable entry, a second `.json` file or none at all is an error.
   */
  function FindMetadataFile(dir: seq<DirEntry>, found: Option<string>): (r: Result<string, Failure>)
    ensures r.Ok? && found.Some? ==> r.value == found.value
    ensures r.Ok? && found.None? ==>
              Extension(r.value) == Some("json") && exists i :: 0 <= i < |dir| && dir[i] == Entry(r.value, true)
    ensures r.Err? ==> r.error in {NoJsonFile, UnreadableEntry, TooManyJsonFiles}
  {
    if dir == [] then
      (if found.Some? then Ok(found.value) else Err(NoJsonFile))
    else match dir[0]
      case Unreadable => Err(UnreadableEntry)
      case Entry(name, isFile) =>
        if isFile && Extension(name) == Some("json") then
          if found.Some? then Err(TooManyJsonFiles) else FindMetadataFile(dir[1..], Some(name))
        else FindMetadataFile(dir[1..], found)
  }

  predicate IsJsonFile(e: DirEntry) {
    e.Entry? && e.isFile && Extension(e.name) == Some("json")
  }

  /** The number of `.json` files among the entries. */
  function JsonCount(dir: seq<DirEntry>): nat {
    if dir == [] then 0 else (if IsJsonFile(dir[0]) then 1 else 0) + JsonCount(dir[1..])
  }

  /** With every entry readable, the search succeeds exactly when there is one `.json` file, and finds it. */
  lemma {:induction false} FindMetadataFileCount(dir: seq<DirEntry>, found: Option<string>)
    requires forall i :: 0 <= i < |dir| ==> dir[i].Entry?
    ensures FindMetadataFile(dir, found).Ok? <==> JsonCount(dir) + (if found.Some? then 1 else 0) == 1
    ensures FindMetadataFile(dir, found).Ok? ==>
      (found.Some? && FindMetadataFile(dir, found).value == found.value) ||
      (exists i :: 0 <= i < |dir| && IsJsonFile(dir[i]) && dir[i].name == FindMetadataFile(dir, found).value)
    ensures JsonCount(dir) + (if found.Some? then 1 else 0) == 0 ==> FindMetadataFile(dir, found) == Err(NoJsonFile)
    ensures JsonCount(dir) + (if found.Some? then 1 else 0) > 1 ==> FindMetadataFile(dir, found) == Err(TooManyJsonFiles)
  {
    if dir != [] {
      var found' := if IsJsonFile(dir[0]) then Some(dir[0].name) else found;
      FindMetadataFileCount(dir[1..], found');
      var r := FindMetadataFile(dir[1..], found');
      if r.Ok? && !(found'.Some? && r.value == found'.value) {
        var i :| 0 <= i < |dir[1..]| && IsJsonFile(dir[1..][i]) && dir[1..][i].name == r.value;
        assert IsJsonFile(dir[i + 1]) && dir[i + 1].name == r.value;
      }
    }
  }

  /**
   * The segment number `init` files a song-directory file under: a playlist (`.m3u8`) is
   * segment 0 and `segmentN.ts` is segment N + 1. Any other extension is an error; a `.ts`
   * name that does not parse, or whose number overflows, is one too (the source panics).
   */
  function SegmentOfFile(name: string): (r: Result<U32, Failure>)
    ensures Extension(name) == Some("m3u8") ==> r == Ok(0)
    ensures Extension(name) != Some("m3u8") && Extension(name) != Some("ts") ==> r == Err(InvalidExtension)
  {
    match Extension(name)
    case Some(ext) =>
      if ext == "m3u8" then Ok(0)
      else if ext == "ts" then
        match ParseUnsigned(RemoveAll(FileStem(name), "segment"), 0x1_0000_0000)
        case Some(n) => if n + 1 < 0x1_0000_0000 then Ok(n + 1) else Err(BadSegmentName)
        case None => Err(BadSegmentName)
      else Err(InvalidExtension)
    case None => Err(InvalidExtension)
  }

  lemma {:induction false} ExtensionOfDottedName(stem: string, ext: string)
    requires stem != [] && forall i :: 0 <= i < |ext| ==> ext[i] != '.'
    ensures Extension(stem + "." + ext) == Some(ext)
    ensures FileStem(stem + "." + ext) == stem
  {
    var name := stem + "." + ext;
    assert name[|stem|] == '.';
    var d := LastDot(name);
    assert d == Some(|stem|);
    assert name[|stem| + 1..] == ext;
    assert name[..|stem|] == stem;
  }

  /** `segmentN.ts` is filed as segment N + 1, for every N below 2^32 - 1. */
  lemma SegmentFileNumber(n: nat)
    requires n + 1 < 0x1_0000_0000
    ensures SegmentOfFile("segment" + DecimalString(n) + ".ts") == Ok(n + 1)
  {
    var digits := DecimalString(n);
    SegmentNameParts(digits);
    ParseDecimal(n, 0x1_0000_0000);
  }

  /** The pieces `init` takes out of a name `segment<digits>.ts`. */
  lemma SegmentNameParts(digits: string)
    requires AllDigits(digits)
    ensures Extension("segment" + digits + ".ts") == Some("ts")
    ensures RemoveAll(FileStem("segment" + digits + ".ts"), "segment") == digits
  {
    assert "segment" + digits + ".ts" == ("segment" + digits) + "." + "ts";
    ExtensionOfDottedName("segment" + digits, "ts");
    assert ("segment" + digits)[..7] == "segment";
    assert ("segment" + digits)[7..] == digits;
    RemoveAllAbsent(digits, "segment");
  }

  /** Any `<stem>.m3u8` file is segment 0. */
  lemma PlaylistIsSegmentZero(stem: string)
    requires stem != []
    ensures SegmentOfFile(stem + ".m3u8") == Ok(0)
  {
    assert stem + ".m3u8" == stem + "." + "m3u8";
    ExtensionOfDottedName(stem, "m3u8");
  }

  /** The metadata-file search of `init` as the loop it is in the source. */
  method LocateMetadataFile(dir: seq<DirEntry>) returns (r: Result<string, Failure>)
    ensures r == FindMetadataFile(dir, None)
  {
    var found: Option<string> := None;
    var i := 0;
    while i < |dir|
      invariant 0 <= i <= |dir|
      invariant FindMetadataFile(dir[i..], found) == FindMetadataFile(dir, None)
    {
      assert dir[i..][1..] == dir[i + 1..];
      match dir[i] {
        case Unreadable =>
          return Err(UnreadableEntry);
        case Entry(name, isFile) =>
          if isFile && Extension(name) == Some("json") {
            if found.Some? {
              return Err(TooManyJsonFiles);
            }
            found := Some(name);
          }
      }
      i := i + 1;
    }
    if found.None? {
      return Err(NoJsonFile);
    }
    r := Ok(found.value);
  }

  /** The store object: a key-value map that can be read and written through a shared reference. */
  class AudioDatabase {
    const senv: StoreEnv
    var entries: map<Key, Stored>
    var writes: nat

    ghost predicate Valid()
      reads this
    {
      WellFiled(entries)
    }

    function Contents(): Store
      reads this
    {
      Store(entries, writes)
    }

    /** `AudioDatabase::new`: opens the store with whatever it already holds. */
    constructor (senv: StoreEnv, existing: map<Key, Stored>)
      requires WellFiled(existing)
      ensures Valid() && this.senv == senv && Contents() == Store(existing, 0)
    {
      this.senv := senv;
      entries := existing;
      writes := 0;
    }

    method InsertSongMeta(song: SongMetaData) returns (r: Result<U16, Failure>)
      requires Valid()
      modifies this
      ensures Valid()
      ensures (Contents(), r) == StoreSongMeta(senv, old(Contents()), song)
    {
      var song := song;
      if song.id == 0 {
        song := song.(id := senv.compactHash(song));
      }
      var ok := senv.writeOk(writes);
      writes := writes + 1;
      if ok {
        entries := entries[MetaKey(song.id) := Meta(song)];
        r := Ok(song.id);
      } else {
        r := Err(InsertFailed);
      }
    }

    method InsertSongSegment(id: U16, segment: U32, payload: seq<Byte>) returns (r: Result<(), Failure>)
      requires Valid()
      modifies this
      ensures Valid()
      ensures (Contents(), r) == StoreSongSegment(senv, old(Contents()), id, segment, payload)
    {
      var key := BigEndian4(segment) + BigEndian2(id);
      var ok := senv.writeOk(writes);
      writes := writes + 1;
      if ok {
        entries := entries[key := Payload(payload)];
        r := Ok(());
      } else {
        r := Err(InsertFailed);
      }
    }

    method GetSongMeta(id: U16) returns (r: Result<SongMetaData, Failure>)
      ensures r == LookupSongMeta(entries, id)
    {
      var key := BigEndian2(id);
      if key !in entries {
        return Err(NotFound);
      }
      match entries[key] {
        case Meta(song) => r := Ok(song);
        case Payload(_) => r := Err(Deserialise);
      }
    }

    method GetSongSegment(id: U16, segment: U32) returns (r: Result<seq<Byte>, Failure>)
      ensures r == LookupSongSegment(entries, id, segment)
    {
      var key := BigEndian4(segment) + BigEndian2(id);
      if key !in entries {
        return Err(NotFound);
      }
      match entries[key] {
        case Payload(bytes) => r := Ok(bytes);
        case Meta(_) => r := Err(Deserialise);
      }
    }

    /**
     * `get_all_songs_meta` as written: every record whose key does not start with a zero
     * byte is read back as song metadata; a record that is not metadata is an error. The
     * store's iteration order is not modelled, so `keys` reports the order used.
     */
    method GetAllSongsMeta() returns (r: Result<seq<SongMetaData>, Failure>, ghost keys: seq<Key>)
      requires Valid()
      ensures r.Err? <==> exists k :: k in entries && ListedKey(k) && entries[k].Payload?
      ensures r.Err? ==> r.error == Deserialise
      ensures r.Ok? ==> |keys| == |r.value|
      ensures r.Ok? ==> forall i :: 0 <= i < |keys| ==>
        keys[i] in entries && ListedKey(keys[i]) && entries[keys[i]] == Meta(r.value[i])
      ensures r.Ok? ==> forall k :: k in entries && ListedKey(k) ==> k in keys
      ensures r.Ok? ==> forall i, j :: 0 <= i < j < |keys| ==> keys[i] != keys[j]
    {
      var songs: seq<SongMetaData> := [];
      keys := [];
      var remaining := entries.Keys;
      while remaining != {}
        invariant remaining <= entries.Keys
        invariant |keys| == |songs|
        invariant forall i :: 0 <= i < |keys| ==>
          keys[i] in entries && ListedKey(keys[i]) && entries[keys[i]] == Meta(songs[i]) && keys[i] !in remaining
        invariant forall k :: k in entries && ListedKey(k) && k !in remaining ==> k in keys && entries[k].Meta?
        invariant forall i, j :: 0 <= i < j < |keys| ==> keys[i] != keys[j]
        decreases remaining
      {
        var k :| k in remaining;
        remaining := remaining - {k};
        if |k| > 0 && k[0] != 0 {
          match entries[k] {
            case Meta(song) =>
              songs := songs + [song];
              keys := keys + [k];
            case Payload(_) =>
              return Err(Deserialise), keys;
          }
        }
      }
      r := Ok(songs);
    }

    /** The listing with the filter the store layout calls for: every metadata key, in id order. */
    method ListSongs() returns (r: Result<seq<SongMetaData>, Failure>)
      ensures r == ReadCatalogue(entries)
    {
      var songs := [];
      for id := 0 to 0x1_0000
        invariant ReadCatalogueUpTo(entries, id) == Ok(songs)
      {
        var key := BigEndian2(id);
        if key in entries {
          match entries[key] {
            case Meta(song) =>
              songs := songs + [song];
            case Payload(_) =>
              ReadCatalogueStaysFailed(entries, id + 1, 0x1_0000);
              return Err(Deserialise);
          }
        }
      }
      r := Ok(songs);
    }
  }
}
