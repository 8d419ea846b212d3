/** The hand-written container reader: end record, central directory, one entry. */
module ZipReader {
  import opened Prelude
  import opened ByteFields
  import opened ZipFormat

  const MAX_COMMENT_BYTES: nat := 65535
  const MAX_ENTRY_COUNT: nat := 1000
  const MAX_CONTENT_TYPES_BYTES: nat := 1024 * 1024

  /** The library calls the reader makes; None stands for an exception. */
  datatype Runtime = Runtime(
    decode: seq<byte> -> Option<string>,
    inflate: seq<byte> -> Option<seq<byte>>)

  datatype ZipEntry = ZipEntry(
    fileName: string, flags: nat, compressionMethod: nat,
    compressedSize: nat, uncompressedSize: nat, localHeaderOffset: nat)

  datatype ZipError =
    | EndRecordNotFound
    | UnsupportedDirectory
    | InvalidDirectoryEntry
    | TruncatedDirectoryEntry
    | UndecodableName
    | InvalidDirectorySize
    | UnsupportedEntry
    | InvalidLocalHeader
    | TruncatedEntry
    | InvalidEntrySize
    | UnsupportedMethod
    | InflateFailed

  // ---- End of central directory -------------------------------------------

  /** An end record whose comment reaches exactly the end of the file. */
  predicate IsEndRecord(body: seq<byte>, at: int) {
    && 0 <= at && at + END_BYTES <= |body|
    && U32LE(body, at) == END_SIGNATURE
    && at + END_BYTES + U16LE(body, at + 20) == |body|
  }

  function FirstPossibleOffset(body: seq<byte>): (first: int) {
    if |body| - END_BYTES - MAX_COMMENT_BYTES > 0 then |body| - END_BYTES - MAX_COMMENT_BYTES else 0
  }

  /** The last end record at or before `at`. */
  function LastEndRecord(body: seq<byte>, at: int): (found: Option<nat>)
    requires at + END_BYTES <= |body|
    ensures found.Some? ==> IsEndRecord(body, found.value) && FirstPossibleOffset(body) <= found.value <= at
    ensures forall k :: FirstPossibleOffset(body) <= k <= at && IsEndRecord(body, k) ==> found.Some? && k <= found.value
    decreases at - FirstPossibleOffset(body)
  {
    if at < FirstPossibleOffset(body) then None
    else if IsEndRecord(body, at) then Some(at)
    else LastEndRecord(body, at - 1)
  }

  /** The backward scan. The comment length is 16 bits wide, so no end record lies before the scanned range. */
  method FindEndOfCentralDirectory(body: seq<byte>) returns (found: Option<nat>)
    ensures found == LastEndRecord(body, |body| - END_BYTES)
    ensures found.None? <==> forall k :: !IsEndRecord(body, k)
    ensures found.Some? ==> IsEndRecord(body, found.value) && forall k :: k > found.value ==> !IsEndRecord(body, k)
  {
    var firstPossibleOffset := FirstPossibleOffset(body);
    var offset := |body| - END_BYTES;
    while offset >= firstPossibleOffset
      invariant offset <= |body| - END_BYTES
      invariant LastEndRecord(body, offset) == LastEndRecord(body, |body| - END_BYTES)
      invariant forall k :: k > offset ==> !IsEndRecord(body, k)
    {
      if U32LE(body, offset) == END_SIGNATURE && offset + END_BYTES + U16LE(body, offset + 20) == |body| {
        return Some(offset);
      }
      offset := offset - 1;
    }
    found := None;
  }

  // ---- Central directory ---------------------------------------------------

  /** Where the entry that starts at `at` ends. */
  function EntryEnd(body: seq<byte>, at: nat): (end: nat)
    requires at + CENTRAL_BYTES <= |body|
    ensures at + CENTRAL_BYTES <= end
  {
    at + CENTRAL_BYTES + U16LE(body, at + 28) + U16LE(body, at + 30) + U16LE(body, at + 32)
  }

  /** `entry` is what the central directory record at [at, end) says. */
  ghost predicate IsEntry(rt: Runtime, body: seq<byte>, at: nat, end: nat, entry: ZipEntry) {
    && at + 46 <= end <= |body|
    && U32LE(body, at) == 0x02014b50
    && end == at + 46 + U16LE(body, at + 28) + U16LE(body, at + 30) + U16LE(body, at + 32)
    && rt.decode(body[at + 46..at + 46 + U16LE(body, at + 28)]) == Some(entry.fileName)
    && entry.flags == U16LE(body, at + 8)
    && entry.compressionMethod == U16LE(body, at + 10)
    && entry.compressedSize == U32LE(body, at + 20)
    && entry.uncompressedSize == U32LE(body, at + 24)
    && entry.localHeaderOffset == U32LE(body, at + 42)
  }

  /** The entries cover [start, end) one after the other, without gap or overlap:
      entry i is the record at [cuts[i], cuts[i + 1]). */
  ghost predicate Tiles(rt: Runtime, body: seq<byte>, start: nat, end: nat, cuts: seq<nat>, entries: seq<ZipEntry>) {
    && |cuts| == |entries| + 1
    && cuts[0] == start && cuts[|entries|] == end
    && forall i :: 0 <= i < |entries| ==> IsEntry(rt, body, cuts[i], cuts[i + 1], entries[i])
  }

  /** The record at `at`, which must end by `end`. */
  function ParseEntry(rt: Runtime, body: seq<byte>, at: nat, end: nat): (r: Result<ZipEntry, ZipError>)
    requires end <= |body|
    ensures r.Ok? ==> at + CENTRAL_BYTES <= end && EntryEnd(body, at) <= end
  {
    if at + CENTRAL_BYTES > end || U32LE(body, at) != CENTRAL_SIGNATURE then Err(InvalidDirectoryEntry)
    else if EntryEnd(body, at) > end then Err(TruncatedDirectoryEntry)
    else
      var name := rt.decode(body[at + 46..at + 46 + U16LE(body, at + 28)]);
      if name.None? then Err(UndecodableName)
      else Ok(ZipEntry(name.value, U16LE(body, at + 8), U16LE(body, at + 10),
                       U32LE(body, at + 20), U32LE(body, at + 24), U32LE(body, at + 42)))
  }

  /** Reads `count` consecutive entries that must fill [at, end). */
  function ParseEntries(rt: Runtime, body: seq<byte>, at: nat, end: nat, count: nat): (r: Result<seq<ZipEntry>, ZipError>)
    requires end <= |body|
    ensures r.Ok? ==> |r.value| == count
    decreases count
  {
    if count == 0 then
      if at == end then Ok([]) else Err(InvalidDirectorySize)
    else
      var first := ParseEntry(rt, body, at, end);
      if first.Err? then Err(first.error)
      else
        var rest := ParseEntries(rt, body, EntryEnd(body, at), end, count - 1);
        if rest.Err? then rest else Ok([first.value] + rest.value)
  }

  lemma EntryIffParsed(rt: Runtime, body: seq<byte>, at: nat, end: nat, next: nat, entry: ZipEntry)
    requires end <= |body|
    ensures ParseEntry(rt, body, at, end) == Ok(entry) && next == EntryEnd(body, at)
       <==> IsEntry(rt, body, at, next, entry) && next <= end
  {
  }

  lemma {:induction false} ParsedTiles(rt: Runtime, body: seq<byte>, at: nat, end: nat, entries: seq<ZipEntry>)
    returns (cuts: seq<nat>)
    requires end <= |body| && ParseEntries(rt, body, at, end, |entries|) == Ok(entries)
    ensures Tiles(rt, body, at, end, cuts, entries)
    decreases |entries|
  {
    hide IsEntry, ParseEntry, EntryEnd;
    if entries == [] {
      cuts := [at];
    } else {
      var next := EntryEnd(body, at);
      EntryIffParsed(rt, body, at, end, next, entries[0]);
      assert entries[1..] == ParseEntries(rt, body, next, end, |entries| - 1).value;
      var rest := ParsedTiles(rt, body, next, end, entries[1..]);
      cuts := [at] + rest;
      forall i | 0 <= i < |entries| ensures IsEntry(rt, body, cuts[i], cuts[i + 1], entries[i]) {
        if i > 0 { assert IsEntry(rt, body, rest[i - 1], rest[i], entries[1..][i - 1]); }
      }
    }
  }

  lemma {:induction false} TilesParse(rt: Runtime, body: seq<byte>, at: nat, end: nat, cuts: seq<nat>, entries: seq<ZipEntry>)
    requires end <= |body| && Tiles(rt, body, at, end, cuts, entries)
    ensures ParseEntries(rt, body, at, end, |entries|) == Ok(entries)
    decreases |entries|
  {
    hide IsEntry, ParseEntry, EntryEnd;
    if entries != [] {
      var tail, rest := entries[1..], cuts[1..];
      assert entries == [entries[0]] + tail;
      assert IsEntry(rt, body, cuts[0], cuts[1], entries[0]);
      forall i | 0 <= i < |tail| ensures IsEntry(rt, body, rest[i], rest[i + 1], tail[i]) {
        assert IsEntry(rt, body, cuts[i + 1], cuts[i + 2], entries[i + 1]);
      }
      CutsAscend(rt, body, cuts[1], end, rest, tail);
      EntryIffParsed(rt, body, at, end, cuts[1], entries[0]);
      TilesParse(rt, body, cuts[1], end, rest, tail);
    }
  }

  /** Parsing succeeds with exactly those entries that tile the directory. */
  lemma ParsedIffTiled(rt: Runtime, body: seq<byte>, at: nat, end: nat, entries: seq<ZipEntry>)
    requires end <= |body|
    ensures ParseEntries(rt, body, at, end, |entries|) == Ok(entries)
       <==> exists cuts :: Tiles(rt, body, at, end, cuts, entries)
  {
    if ParseEntries(rt, body, at, end, |entries|) == Ok(entries) {
      var cuts := ParsedTiles(rt, body, at, end, entries);
    } else if cuts :| Tiles(rt, body, at, end, cuts, entries) {
      TilesParse(rt, body, at, end, cuts, entries);
    }
  }

  /** A tiled range runs forward. */
  lemma {:induction false} CutsAscend(rt: Runtime, body: seq<byte>, start: nat, end: nat, cuts: seq<nat>, entries: seq<ZipEntry>)
    requires Tiles(rt, body, start, end, cuts, entries)
    ensures start + CENTRAL_BYTES * |entries| <= end
    decreases |entries|
  {
    if entries != [] {
      var n := |entries| - 1;
      assert IsEntry(rt, body, cuts[n], cuts[n + 1], entries[n]);
      assert Tiles(rt, body, start, cuts[n], cuts[..n + 1], entries[..n]);
      CutsAscend(rt, body, start, cuts[n], cuts[..n + 1], entries[..n]);
    }
  }

  /** The directory the end record at `at` announces is one the reader supports. */
  predicate SupportedDirectory(body: seq<byte>, at: nat)
    requires at + END_BYTES <= |body|
  {
    && U16LE(body, at + 4) == 0
    && U16LE(body, at + 6) == 0
    && U16LE(body, at + 8) == U16LE(body, at + 10)
    && 1 <= U16LE(body, at + 10) <= MAX_ENTRY_COUNT
    && U16LE(body, at + 10) != 0xffff
    && U32LE(body, at + 12) != 0xffffffff
    && U32LE(body, at + 16) != 0xffffffff
    && U32LE(body, at + 16) + U32LE(body, at + 12) <= |body|
  }

  function ZipEntries(rt: Runtime, body: seq<byte>): (r: Result<seq<ZipEntry>, ZipError>) {
    var end := LastEndRecord(body, |body| - END_BYTES);
    if end.None? then Err(EndRecordNotFound)
    else if !SupportedDirectory(body, end.value) then Err(UnsupportedDirectory)
    else
      var start := U32LE(body, end.value + 16);
      ParseEntries(rt, body, start, start + U32LE(body, end.value + 12), U16LE(body, end.value + 10))
  }

  /** An end record, said by its bytes: the comment it announces is the rest of the file. */
  ghost predicate EndsAt(body: seq<byte>, at: nat) {
    && at + 22 <= |body|
    && body[at] == 0x50 && body[at + 1] == 0x4b && body[at + 2] == 0x05 && body[at + 3] == 0x06
    && |body| - (at + 22) == body[at + 20] as int + 256 * body[at + 21] as int
  }

  lemma EndRecordBytes(body: seq<byte>, at: nat)
    ensures IsEndRecord(body, at) <==> EndsAt(body, at)
  {
  }

  lemma EndRecordsSame(body: seq<byte>)
    ensures forall k: int :: IsEndRecord(body, k) <==> k >= 0 && EndsAt(body, k)
  {
    hide IsEndRecord, EndsAt;
    forall k: int ensures IsEndRecord(body, k) <==> k >= 0 && EndsAt(body, k) {
      if k >= 0 { EndRecordBytes(body, k); } else { NoneBeforeStart(body, k); }
    }
  }

  lemma NoneBeforeStart(body: seq<byte>, k: int)
    requires k < 0
    ensures !IsEndRecord(body, k)
  {
  }

  lemma EndIsInside(body: seq<byte>, at: nat)
    requires EndsAt(body, at)
    ensures at + END_BYTES <= |body|
  {
  }

  /** The last end record announces a directory on one disk with 1 to 1000 entries and no reserved value, inside the file,
      which the entries cover. */
  ghost predicate DirectoryAt(rt: Runtime, body: seq<byte>, at: nat, cuts: seq<nat>, entries: seq<ZipEntry>) {
    && EndsAt(body, at)
    && (forall k: nat :: k > at ==> !EndsAt(body, k))
    && U16LE(body, at + 4) == 0 && U16LE(body, at + 6) == 0
    && U16LE(body, at + 8) == U16LE(body, at + 10) == |entries|
    && 1 <= |entries| <= 1000
    && U32LE(body, at + 12) < 0xffffffff && U32LE(body, at + 16) < 0xffffffff
    && U32LE(body, at + 16) + U32LE(body, at + 12) <= |body|
    && Tiles(rt, body, U32LE(body, at + 16), U32LE(body, at + 16) + U32LE(body, at + 12), cuts, entries)
  }

  /** The scanned range is long enough: no end record lies before it. */
  lemma LastIsFound(body: seq<byte>, at: nat)
    requires IsEndRecord(body, at) && forall k: int :: k > at ==> !IsEndRecord(body, k)
    ensures LastEndRecord(body, |body| - END_BYTES) == Some(at)
  {
    assert FirstPossibleOffset(body) <= at <= |body| - END_BYTES;
  }

  lemma DirectoryAccepted(rt: Runtime, body: seq<byte>, at: nat, cuts: seq<nat>, entries: seq<ZipEntry>)
    requires DirectoryAt(rt, body, at, cuts, entries)
    ensures ZipEntries(rt, body) == Ok(entries)
  {
    hide U16LE, U32LE, ParseEntries, ParseEntry, IsEntry, EndsAt, IsEndRecord;
    EndRecordsSame(body);
    EndIsInside(body, at);
    LastIsFound(body, at);
    var start := U32LE(body, at + 16);
    TilesParse(rt, body, start, start + U32LE(body, at + 12), cuts, entries);
  }

  lemma AcceptedDirectory(rt: Runtime, body: seq<byte>, entries: seq<ZipEntry>) returns (at: nat, cuts: seq<nat>)
    requires ZipEntries(rt, body) == Ok(entries)
    ensures DirectoryAt(rt, body, at, cuts, entries)
  {
    hide U16LE, U32LE, ParseEntries, ParseEntry, IsEntry, EndsAt;
    EndRecordsSame(body);
    at := LastEndRecord(body, |body| - END_BYTES).value;
    var start := U32LE(body, at + 16);
    cuts := ParsedTiles(rt, body, start, start + U32LE(body, at + 12), entries);
  }

  /** For every byte string: the reader accepts exactly when the last end record that reaches the end of
      the file announces a supported directory which the returned entries, as many as it says, tile. */
  lemma AcceptedIffTiled(rt: Runtime, body: seq<byte>, entries: seq<ZipEntry>)
    ensures ZipEntries(rt, body) == Ok(entries) <==>
      exists at: nat, cuts :: DirectoryAt(rt, body, at, cuts, entries)
  {
    if at: nat, cuts :| DirectoryAt(rt, body, at, cuts, entries) {
      DirectoryAccepted(rt, body, at, cuts, entries);
    } else if ZipEntries(rt, body) == Ok(entries) {
      var at, cuts := AcceptedDirectory(rt, body, entries);
    }
  }

  /** The loop over the central directory. */
  method ReadDirectory(rt: Runtime, body: seq<byte>, centralDirectoryOffset: nat, centralDirectoryEnd: nat, totalEntries: nat)
    returns (r: Result<seq<ZipEntry>, ZipError>)
    requires centralDirectoryEnd <= |body|
    ensures r == ParseEntries(rt, body, centralDirectoryOffset, centralDirectoryEnd, totalEntries)
  {
    hide U16LE, U32LE;
    var entries: seq<ZipEntry> := [];
    var offset: nat := centralDirectoryOffset;
    PrependNone(ParseEntries(rt, body, centralDirectoryOffset, centralDirectoryEnd, totalEntries));
    for index := 0 to totalEntries
      invariant ParseEntries(rt, body, centralDirectoryOffset, centralDirectoryEnd, totalEntries)
        == Prepend(entries, ParseEntries(rt, body, offset, centralDirectoryEnd, totalEntries - index))
    {
      if offset + CENTRAL_BYTES > centralDirectoryEnd || U32LE(body, offset) != CENTRAL_SIGNATURE {
        return Err(InvalidDirectoryEntry);
      }
      var fileNameLength := U16LE(body, offset + 28);
      var extraFieldLength := U16LE(body, offset + 30);
      var commentLength := U16LE(body, offset + 32);
      var entryEnd := offset + CENTRAL_BYTES + fileNameLength + extraFieldLength + commentLength;
      if entryEnd > centralDirectoryEnd {
        return Err(TruncatedDirectoryEntry);
      }
      var fileName := rt.decode(body[offset + 46..offset + 46 + fileNameLength]);
      if fileName.None? {
        return Err(UndecodableName);
      }
      var entry := ZipEntry(fileName.value, U16LE(body, offset + 8), U16LE(body, offset + 10),
                            U32LE(body, offset + 20), U32LE(body, offset + 24), U32LE(body, offset + 42));
      assert ParseEntry(rt, body, offset, centralDirectoryEnd) == Ok(entry) && entryEnd == EntryEnd(body, offset);
      PrependOne(entries, entry, ParseEntries(rt, body, entryEnd, centralDirectoryEnd, totalEntries - index - 1));
      entries := entries + [entry];
      offset := entryEnd;
    }
    if offset != centralDirectoryEnd {
      return Err(InvalidDirectorySize);
    }
    assert entries + [] == entries;
    r := Ok(entries);
  }

  method ReadZipEntries(rt: Runtime, body: seq<byte>) returns (r: Result<seq<ZipEntry>, ZipError>)
    ensures r == ZipEntries(rt, body)
  {
    hide U16LE, U32LE, ParseEntries, ParseEntry, IsEndRecord;
    var end := FindEndOfCentralDirectory(body);
    if end.None? {
      return Err(EndRecordNotFound);
    }
    var endOffset := end.value;
    var diskNumber := U16LE(body, endOffset + 4);
    var centralDirectoryDisk := U16LE(body, endOffset + 6);
    var entriesOnDisk := U16LE(body, endOffset + 8);
    var totalEntries := U16LE(body, endOffset + 10);
    var centralDirectorySize := U32LE(body, endOffset + 12);
    var centralDirectoryOffset := U32LE(body, endOffset + 16);
    if diskNumber != 0 || centralDirectoryDisk != 0 || entriesOnDisk != totalEntries
       || totalEntries < 1 || totalEntries > MAX_ENTRY_COUNT || totalEntries == 0xffff
       || centralDirectorySize == 0xffffffff || centralDirectoryOffset == 0xffffffff
       || centralDirectoryOffset + centralDirectorySize > |body| {
      return Err(UnsupportedDirectory);
    }
    r := ReadDirectory(rt, body, centralDirectoryOffset, centralDirectoryOffset + centralDirectorySize, totalEntries);
  }

  ghost function Prepend(entries: seq<ZipEntry>, r: Result<seq<ZipEntry>, ZipError>): Result<seq<ZipEntry>, ZipError> {
    if r.Err? then r else Ok(entries + r.value)
  }

  lemma PrependNone(rest: Result<seq<ZipEntry>, ZipError>)
    ensures Prepend([], rest) == rest
  {
    if rest.Ok? {
      assert [] + rest.value == rest.value;
    }
  }

  lemma PrependOne(entries: seq<ZipEntry>, entry: ZipEntry, rest: Result<seq<ZipEntry>, ZipError>)
    ensures rest.Ok? ==>
      Prepend(entries, Ok([entry] + rest.value)) == Prepend(entries + [entry], rest)
  {
    if rest.Ok? {
      assert entries + ([entry] + rest.value) == (entries + [entry]) + rest.value;
    }
  }

  // ---- One entry -----------------------------------------------------------

  /** At `at` lie a local header, a name, an extra field of any length, and then the bytes `packed`. */
  ghost predicate LocalFileAt(body: seq<byte>, at: nat, compressionMethod: nat, packed: seq<byte>) {
    && at + 30 <= |body|
    && body[at] == 0x50 && body[at + 1] == 0x4b && body[at + 2] == 0x03 && body[at + 3] == 0x04
    && body[at + 6] % 2 == 0
    && body[at + 8] as int + 256 * body[at + 9] as int == compressionMethod
    && var name := body[at + 26] as int + 256 * body[at + 27] as int;
       var extra := body[at + 28] as int + 256 * body[at + 29] as int;
       at + 30 + name + extra + |packed| <= |body| && body[at + 30 + name + extra..at + 30 + name + extra + |packed|] == packed
  }

  /** `data` is what the entry stands for: its bytes as they lie there, or inflated. */
  ghost predicate Unpacks(rt: Runtime, entry: ZipEntry, packed: seq<byte>, data: seq<byte>) {
    && |packed| == entry.compressedSize && |data| == entry.uncompressedSize
    && ((entry.compressionMethod == 0 && data == packed) || (entry.compressionMethod == 8 && rt.inflate(packed) == Some(data)))
  }

  /** The checks of the reader on the local header, said by its bytes. */
  lemma LocalHeaderBytes(body: seq<byte>, at: nat)
    requires at + 30 <= |body|
    ensures U32LE(body, at) == LOCAL_SIGNATURE <==> body[at] == 0x50 && body[at + 1] == 0x4b && body[at + 2] == 0x03 && body[at + 3] == 0x04
    ensures U16LE(body, at + 6) % 2 == body[at + 6] % 2
    ensures U16LE(body, at + 8) == body[at + 8] as int + 256 * body[at + 9] as int
    ensures U16LE(body, at + 26) == body[at + 26] as int + 256 * body[at + 27] as int
    ensures U16LE(body, at + 28) == body[at + 28] as int + 256 * body[at + 29] as int
  {
  }

  ghost predicate WithinLimits(entry: ZipEntry) {
    entry.flags % 2 == 0 && entry.compressedSize <= 1048576 && entry.uncompressedSize <= 1048576
  }

  lemma ReadIsUnpacked(rt: Runtime, body: seq<byte>, entry: ZipEntry, data: seq<byte>) returns (packed: seq<byte>)
    requires ReadZipEntry(rt, body, entry) == Ok(data)
    ensures WithinLimits(entry) && LocalFileAt(body, entry.localHeaderOffset, entry.compressionMethod, packed) && Unpacks(rt, entry, packed, data)
  {
    hide U16LE, U32LE;
    var at := entry.localHeaderOffset;
    LocalHeaderBytes(body, at);
    var from := at + 30 + U16LE(body, at + 26) + U16LE(body, at + 28);
    packed := body[from..from + entry.compressedSize];
  }

  lemma UnpackedIsRead(rt: Runtime, body: seq<byte>, entry: ZipEntry, data: seq<byte>, packed: seq<byte>)
    requires WithinLimits(entry) && LocalFileAt(body, entry.localHeaderOffset, entry.compressionMethod, packed) && Unpacks(rt, entry, packed, data)
    ensures ReadZipEntry(rt, body, entry) == Ok(data)
  {
    hide U16LE, U32LE;
    var at := entry.localHeaderOffset;
    LocalHeaderBytes(body, at);
    var from := at + 30 + U16LE(body, at + 26) + U16LE(body, at + 28);
    assert body[from..from + entry.compressedSize] == packed;
  }

  /** For every byte string and entry: the reader returns `data` exactly if neither size exceeds 1 MiB, nothing is encrypted,
      and the bytes behind the entry's local header unpack to it. */
  lemma EntryIffUnpacked(rt: Runtime, body: seq<byte>, entry: ZipEntry, data: seq<byte>)
    ensures ReadZipEntry(rt, body, entry) == Ok(data) <==>
      && entry.flags % 2 == 0 && entry.compressedSize <= 1048576 && entry.uncompressedSize <= 1048576
      && exists packed :: LocalFileAt(body, entry.localHeaderOffset, entry.compressionMethod, packed) && Unpacks(rt, entry, packed, data)
  {
    hide ReadZipEntry, LocalFileAt, Unpacks;
    if ReadZipEntry(rt, body, entry) == Ok(data) {
      var packed := ReadIsUnpacked(rt, body, entry, data);
    } else if packed :| LocalFileAt(body, entry.localHeaderOffset, entry.compressionMethod, packed) && Unpacks(rt, entry, packed, data) {
      if WithinLimits(entry) { UnpackedIsRead(rt, body, entry, data, packed); }
    }
  }

  function ReadZipEntry(rt: Runtime, body: seq<byte>, entry: ZipEntry): (r: Result<seq<byte>, ZipError>)
    ensures r.Ok? ==> |r.value| == entry.uncompressedSize <= MAX_CONTENT_TYPES_BYTES
  {
    if entry.flags % 2 != 0
       || entry.compressedSize > MAX_CONTENT_TYPES_BYTES
       || entry.uncompressedSize > MAX_CONTENT_TYPES_BYTES
       || entry.localHeaderOffset + LOCAL_BYTES > |body| then Err(UnsupportedEntry)
    else
      var at := entry.localHeaderOffset;
      if U32LE(body, at) != LOCAL_SIGNATURE
         || U16LE(body, at + 6) % 2 != 0
         || U16LE(body, at + 8) != entry.compressionMethod then Err(InvalidLocalHeader)
      else
        var dataOffset := at + LOCAL_BYTES + U16LE(body, at + 26) + U16LE(body, at + 28);
        var dataEnd := dataOffset + entry.compressedSize;
        if dataEnd > |body| then Err(TruncatedEntry)
        else
          var compressed := body[dataOffset..dataEnd];
          if entry.compressionMethod == 0 then
            if entry.compressedSize != entry.uncompressedSize then Err(InvalidEntrySize) else Ok(compressed)
          else if entry.compressionMethod == 8 then
            var inflated := rt.inflate(compressed);
            if inflated.None? then Err(InflateFailed)
            else if |inflated.value| != entry.uncompressedSize then Err(InvalidEntrySize)
            else Ok(inflated.value)
          else Err(UnsupportedMethod)
  }
}
