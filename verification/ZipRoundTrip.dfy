/** Reading what the writer wrote. */
module ZipRoundTrip {
  import opened Prelude
  import opened ByteFields
  import opened ZipFormat
  import W = ZipWriter
  import R = ZipReader

  /** The window of `b` that starts at `at` holds `part`. */
  ghost predicate Holds(b: seq<byte>, at: nat, part: seq<byte>) {
    at + |part| <= |b| && b[at..at + |part|] == part
  }

  lemma HoldsInside(b: seq<byte>, at: nat, part: seq<byte>, inner: nat, piece: seq<byte>)
    requires Holds(b, at, part) && Holds(part, inner, piece)
    ensures Holds(b, at + inner, piece)
  {
    forall k | 0 <= k < |piece| ensures b[at + inner..at + inner + |piece|][k] == piece[k] {
      assert piece[k] == part[inner..inner + |piece|][k] == part[inner + k] == b[at..at + |part|][inner + k];
    }
  }

  lemma EncodablePrefix(files: seq<W.File>, i: nat)
    requires W.Encodable(files) && i <= |files|
    ensures (forall f :: f in files[..i] ==> W.Fits(f)) && W.OffsetsFit(files[..i])
    ensures |W.Locals(files[..i])| <= |W.Locals(files)|
  {
    W.LocalsGrow(files, i);
    if i > 0 {
      W.LocalsGrow(files, i - 1);
      assert files[..i][..i - 1] == files[..i - 1];
    }
  }

  /** The local half holds the part of file i at the offset the writer had reached. */
  lemma {:induction false} LocalInPlace(files: seq<W.File>, i: nat)
    requires (forall f :: f in files ==> W.Fits(f)) && i < |files|
    ensures Holds(W.Locals(files), |W.Locals(files[..i])|, W.LocalPart(files[i]))
    decreases |files|
  {
    hide W.LocalPart;
    var n := |files| - 1;
    var before := files[..n];
    if i < n {
      LocalInPlace(before, i);
      assert before[..i] == files[..i];
      HoldsInside(W.Locals(files), 0, W.Locals(before), |W.Locals(files[..i])|, W.LocalPart(files[i]));
    }
  }

  /** The central half likewise, with that offset in the header. */
  lemma {:induction false} CentralInPlace(files: seq<W.File>, i: nat)
    requires W.Encodable(files) && i < |files|
    ensures (forall f :: f in files[..i] ==> W.Fits(f)) && W.OffsetsFit(files[..i])
    ensures |W.Locals(files[..i])| < U32_LIMIT
    ensures Holds(W.Central(files), |W.Central(files[..i])|, W.CentralPart(files[i], |W.Locals(files[..i])|))
    decreases |files|
  {
    hide W.LocalPart, W.CentralPart, W.Locals;
    EncodablePrefix(files, i);
    var n := |files| - 1;
    if i < n {
      var before := files[..n];
      EncodablePrefix(files, n);
      assert W.Central(files) == W.Central(before) + W.CentralPart(files[n], |W.Locals(before)|);
      CentralInPlace(before, i);
      assert before[..i] == files[..i];
      HoldsInside(W.Central(files), 0, W.Central(before), |W.Central(files[..i])|,
                  W.CentralPart(files[i], |W.Locals(files[..i])|));
    }
  }

  lemma CentralStep(files: seq<W.File>, i: nat)
    requires W.Encodable(files) && i < |files|
    ensures (forall f :: f in files[..i] ==> W.Fits(f)) && W.OffsetsFit(files[..i])
    ensures (forall f :: f in files[..i + 1] ==> W.Fits(f)) && W.OffsetsFit(files[..i + 1])
    ensures |W.Central(files[..i + 1])| == |W.Central(files[..i])| + CENTRAL_BYTES + |files[i].name|
  {
    EncodablePrefix(files, i);
    EncodablePrefix(files, i + 1);
    assert files[..i + 1][..i] == files[..i];
  }

  /** The directory entry the reader should report for file i. */
  ghost function EntryOf(rt: R.Runtime, files: seq<W.File>, i: nat): R.ZipEntry
    requires W.Encodable(files) && i < |files| && rt.decode(files[i].name).Some?
  {
    EncodablePrefix(files, i);
    R.ZipEntry(rt.decode(files[i].name).value, 0, 0, |files[i].data|, |files[i].data|, |W.Locals(files[..i])|)
  }

  /** The names of file i and of those after it are valid UTF-8. */
  ghost predicate NamesDecode(rt: R.Runtime, files: seq<W.File>, i: nat) {
    forall k :: i <= k < |files| ==> rt.decode(files[k].name).Some?
  }

  ghost function EntriesOf(rt: R.Runtime, files: seq<W.File>, i: nat): (entries: seq<R.ZipEntry>)
    requires W.Encodable(files) && i <= |files| && NamesDecode(rt, files, i)
    ensures |entries| == |files| - i
    ensures forall k :: 0 <= k < |entries| ==> entries[k] == EntryOf(rt, files, i + k)
    decreases |files| - i
  {
    if i == |files| then [] else [EntryOf(rt, files, i)] + EntriesOf(rt, files, i + 1)
  }

  /** Where the three parts of the archive lie. */
  lemma Halves(files: seq<W.File>)
    requires W.Encodable(files)
    ensures var b := W.Archive(files); var l := |W.Locals(files)|; var c := |W.Central(files)|;
      && |b| == l + c + END_BYTES
      && Holds(b, 0, W.Locals(files)) && Holds(b, l, W.Central(files))
      && Holds(b, l + c, EndRecord(|files|, c, l))
  {
    hide W.Locals, W.Central, EndRecord;
  }

  /** What the reader finds at a directory record. */
  lemma RecordRead(rt: R.Runtime, b: seq<byte>, at: nat, end: nat, f: W.File, localOffset: nat)
    requires W.Fits(f) && localOffset < U32_LIMIT && end <= |b|
    requires Holds(b, at, W.CentralPart(f, localOffset)) && at + CENTRAL_BYTES + |f.name| <= end
    ensures R.EntryEnd(b, at) == at + CENTRAL_BYTES + |f.name|
    ensures R.ParseEntry(rt, b, at, end) ==
      var name := rt.decode(f.name);
      if name.None? then Err(R.UndecodableName) else Ok(R.ZipEntry(name.value, 0, 0, |f.data|, |f.data|, localOffset))
  {
    hide U16LE, U32LE, CentralHeader;
    var part := W.CentralPart(f, localOffset);
    HoldsInside(b, at, part, 0, CentralHeader(f.checksum, |f.data|, |f.name|, localOffset));
    HoldsInside(b, at, part, CENTRAL_BYTES, f.name);
    CentralHeaderIn(b, at, f.checksum, |f.data|, |f.name|, localOffset);
  }

  /** What the reader finds at the directory record of file i. */
  lemma EntryRead(rt: R.Runtime, files: seq<W.File>, i: nat)
    requires W.Encodable(files) && i < |files|
    ensures (forall f :: f in files[..i] ==> W.Fits(f)) && W.OffsetsFit(files[..i])
    ensures var b := W.Archive(files);
      var at := |W.Locals(files)| + |W.Central(files[..i])|;
      var end := |W.Locals(files)| + |W.Central(files)|;
      && end <= |b| && at + CENTRAL_BYTES + |files[i].name| <= end
      && R.EntryEnd(b, at) == at + CENTRAL_BYTES + |files[i].name|
      && R.ParseEntry(rt, b, at, end) ==
           if rt.decode(files[i].name).None? then Err(R.UndecodableName) else Ok(EntryOf(rt, files, i))
  {
    hide W.Locals, W.Central, W.CentralPart, EndRecord, W.Archive, W.Encodable, R.ParseEntry, R.EntryEnd;
    EncodablePrefix(files, |files|);
    assert files[..|files|] == files;
    var b := W.Archive(files);
    Halves(files);
    CentralInPlace(files, i);
    var locals, before := |W.Locals(files)|, |W.Central(files[..i])|;
    var part := W.CentralPart(files[i], |W.Locals(files[..i])|);
    HoldsInside(b, locals, W.Central(files), before, part);
    RecordRead(rt, b, locals + before, locals + |W.Central(files)|, files[i], |W.Locals(files[..i])|);
  }

  /** Reading the directory from file i on. */
  lemma {:induction false} DirectoryRead(rt: R.Runtime, files: seq<W.File>, i: nat)
    requires W.Encodable(files) && i <= |files|
    ensures (forall f :: f in files[..i] ==> W.Fits(f)) && W.OffsetsFit(files[..i])
    ensures var b := W.Archive(files);
      var at := |W.Locals(files)| + |W.Central(files[..i])|;
      var end := |W.Locals(files)| + |W.Central(files)|;
      && end <= |b|
      && R.ParseEntries(rt, b, at, end, |files| - i) ==
           if NamesDecode(rt, files, i) then Ok(EntriesOf(rt, files, i)) else Err(R.UndecodableName)
    decreases |files| - i
  {
    hide W.Locals, W.Central, W.Archive, R.EntryEnd, R.ParseEntry, EntryOf;
    EncodablePrefix(files, i);
    Halves(files);
    if i == |files| {
      assert files[..i] == files;
    } else {
      EntryRead(rt, files, i);
      CentralStep(files, i);
      DirectoryRead(rt, files, i + 1);
    }
  }

  /** The sizes that the reader takes for "ZIP64, look elsewhere". */
  ghost predicate ReservedOffset(files: seq<W.File>)
    requires W.Encodable(files)
  {
    |W.Locals(files)| == 0xffffffff
  }

  lemma {:induction false} CentralSize(files: seq<W.File>)
    requires (forall f :: f in files ==> W.Fits(f)) && W.OffsetsFit(files)
    ensures |W.Central(files)| <= (CENTRAL_BYTES + 0xffff) * |files|
  {
    if files != [] {
      var before := files[..|files| - 1];
      CentralSize(before);
      assert W.Fits(files[|files| - 1]);
    }
  }

  /** For every list of files whose values fit their fields, the reader accepts the archive exactly when it
      has 1 to 1000 files with decodable names and the directory does not start at the reserved offset
      0xffffffff; it then reports one entry per file, in order, with its name, sizes and local offset. */
  lemma DirectoryRoundTrip(rt: R.Runtime, files: seq<W.File>)
    requires W.Encodable(files)
    ensures R.ZipEntries(rt, W.Archive(files)).Ok? <==>
      1 <= |files| <= R.MAX_ENTRY_COUNT && NamesDecode(rt, files, 0) && !ReservedOffset(files)
    ensures R.ZipEntries(rt, W.Archive(files)).Ok? ==>
      NamesDecode(rt, files, 0) && R.ZipEntries(rt, W.Archive(files)) == Ok(EntriesOf(rt, files, 0))
  {
    hide U16LE, U32LE, W.Locals, W.Central, W.Archive, EndRecord, R.ParseEntries;
    EncodablePrefix(files, |files|);
    assert files[..|files|] == files;
    var b := W.Archive(files);
    var l, c := |W.Locals(files)|, |W.Central(files)|;
    Halves(files);
    EndRecordIn(b, l + c, |files|, c, l);
    assert R.IsEndRecord(b, l + c) && R.LastEndRecord(b, |b| - END_BYTES) == Some(l + c);
    CentralSize(files);
    DirectoryRead(rt, files, 0);
    EmptyCentral(files);
  }

  /** An archive that meets the reserved offset: one file without name and with 0xffffffff - 30 bytes. The reader refuses
      it although every field holds its value and the name can be decoded. */
  lemma ReservedOffsetRefused(rt: R.Runtime) returns (files: seq<W.File>)
    requires rt.decode([]).Some?
    ensures W.Encodable(files) && 1 <= |files| <= R.MAX_ENTRY_COUNT && NamesDecode(rt, files, 0)
    ensures R.ZipEntries(rt, W.Archive(files)).Err?
  {
    hide LocalHeader, CentralHeader, W.Archive;
    var f := W.File([], Zeros(0xffffffff - LOCAL_BYTES), 0);
    files := [f];
    assert files[..0] == [] && W.Locals(files) == W.LocalPart(f);
    assert W.Central(files) == W.CentralPart(f, 0);
    hide W.Locals, W.Central;
    DirectoryRoundTrip(rt, files);
  }

  lemma EmptyCentral(files: seq<W.File>)
    ensures W.Locals(files[..0]) == [] && W.OffsetsFit(files[..0]) && W.Central(files[..0]) == []
  {
  }

  /** The reader finds the contents of file i from its entry: exactly its bytes, unless it exceeds the limit of 1 MiB. */
  lemma EntryRoundTrip(rt: R.Runtime, files: seq<W.File>, i: nat)
    requires W.Encodable(files) && i < |files| && rt.decode(files[i].name).Some?
    ensures R.ReadZipEntry(rt, W.Archive(files), EntryOf(rt, files, i)) ==
      if |files[i].data| <= R.MAX_CONTENT_TYPES_BYTES then Ok(files[i].data) else Err(R.UnsupportedEntry)
  {
    hide U16LE, U32LE, W.Locals, W.Central, W.Archive, EndRecord, LocalHeader, W.CentralPart;
    var b := W.Archive(files);
    var f := files[i];
    Halves(files);
    LocalInPlace(files, i);
    var at := |W.Locals(files[..i])|;
    var part := W.LocalPart(f);
    HoldsInside(b, 0, W.Locals(files), at, part);
    var header := LocalHeader(f.checksum, |f.data|, |f.name|);
    HoldsInside(b, at, part, 0, header);
    HoldsInside(b, at, part, LOCAL_BYTES + |f.name|, f.data);
    LocalHeaderIn(b, at, f.checksum, |f.data|, |f.name|);
  }

  /** A local header as other writers make it: any method, and an extra field. */
  function PackedHeader(compressionMethod: nat, checksum: nat, packedSize: nat, size: nat, nameLength: nat, extraLength: nat): (h: seq<byte>)
    requires compressionMethod < U16_LIMIT && checksum < U32_LIMIT && packedSize < U32_LIMIT && size < U32_LIMIT
    requires nameLength < U16_LIMIT && extraLength < U16_LIMIT
    ensures |h| == LOCAL_BYTES
  {
    PutU32LE(LOCAL_SIGNATURE) + PutU16LE(20) + Zeros(2) + PutU16LE(compressionMethod) + Zeros(2 + 2)
    + PutU32LE(checksum) + PutU32LE(packedSize) + PutU32LE(size) + PutU16LE(nameLength) + PutU16LE(extraLength)
  }

  lemma PackedHeaderBytes(m: nat, checksum: nat, packedSize: nat, size: nat, nameLength: nat, extraLength: nat)
    requires m < U16_LIMIT && checksum < U32_LIMIT && packedSize < U32_LIMIT && size < U32_LIMIT
    requires nameLength < U16_LIMIT && extraLength < U16_LIMIT
    ensures var h := PackedHeader(m, checksum, packedSize, size, nameLength, extraLength);
      && h[0] == 0x50 && h[1] == 0x4b && h[2] == 0x03 && h[3] == 0x04 && h[6] == 0
      && h[8] as int + 256 * h[9] as int == m && h[26] as int + 256 * h[27] as int == nameLength
      && h[28] as int + 256 * h[29] as int == extraLength
  {
    var h := PackedHeader(m, checksum, packedSize, size, nameLength, extraLength);
    var f0, f8, f26, f28 := PutU32LE(LOCAL_SIGNATURE), PutU16LE(m), PutU16LE(nameLength), PutU16LE(extraLength);
    assert h[0] == f0[0] && h[1] == f0[1] && h[2] == f0[2] && h[3] == f0[3] && h[6] == 0;
    assert h[8] == f8[0] && h[9] == f8[1] && h[26] == f26[0] && h[27] == f26[1] && h[28] == f28[0] && h[29] == f28[1];
  }

  /** Wherever it lies, a file with an extra field of any length is read back: as it is if stored, inflated if deflated. */
  lemma PackedRoundTrip(rt: R.Runtime, before: seq<byte>, checksum: nat, name: seq<byte>, extra: seq<byte>, packed: seq<byte>,
                        data: seq<byte>, after: seq<byte>, entry: R.ZipEntry)
    requires entry.compressionMethod in {0, 8} && checksum < U32_LIMIT && |name| < U16_LIMIT && |extra| < U16_LIMIT
    requires |packed| == entry.compressedSize <= 1048576 && |data| == entry.uncompressedSize <= 1048576
    requires entry.flags == 0 && entry.localHeaderOffset == |before|
    requires if entry.compressionMethod == 0 then packed == data else rt.inflate(packed) == Some(data)
    ensures R.ReadZipEntry(rt,
      before + PackedHeader(entry.compressionMethod, checksum, |packed|, |data|, |name|, |extra|) + name + extra + packed + after, entry) == Ok(data)
  {
    hide PackedHeader, R.ReadZipEntry;
    var m, at := entry.compressionMethod, |before|;
    var h := PackedHeader(m, checksum, |packed|, |data|, |name|, |extra|);
    var body := before + h + name + extra + packed + after;
    PackedHeaderBytes(m, checksum, |packed|, |data|, |name|, |extra|);
    assert forall i :: 0 <= i < 30 ==> body[at + i] == h[i];
    var from := at + 30 + |name| + |extra|;
    assert body[from..from + |packed|] == packed;
    assert body[at + 0] == h[0] && body[at + 1] == h[1] && body[at + 2] == h[2] && body[at + 3] == h[3] && body[at + 6] == h[6];
    assert body[at + 8] == h[8] && body[at + 9] == h[9] && body[at + 26] == h[26] && body[at + 27] == h[27];
    assert body[at + 28] == h[28] && body[at + 29] == h[29];
    assert R.LocalFileAt(body, at, m, packed);
    R.EntryIffUnpacked(rt, body, entry, data);
  }
}
