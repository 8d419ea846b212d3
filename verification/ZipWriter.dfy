/** The archive writer: every file stored without compression, then the central
    directory, then the end record. */
module ZipWriter {
  import opened Prelude
  import opened ByteFields
  import opened ZipFormat

  /** One file to archive; `checksum` is its CRC-32, which the reader never looks at. */
  datatype File = File(name: seq<byte>, data: seq<byte>, checksum: nat)

  /** The value ranges that writeUInt16LE and writeUInt32LE accept for one file. */
  predicate Fits(f: File) {
    |f.name| < U16_LIMIT && |f.data| < U32_LIMIT && f.checksum < U32_LIMIT
  }

  function LocalPart(f: File): (p: seq<byte>)
    requires Fits(f)
    ensures |p| == LOCAL_BYTES + |f.name| + |f.data|
  {
    LocalHeader(f.checksum, |f.data|, |f.name|) + f.name + f.data
  }

  function CentralPart(f: File, localOffset: nat): (p: seq<byte>)
    requires Fits(f) && localOffset < U32_LIMIT
    ensures |p| == CENTRAL_BYTES + |f.name|
  {
    CentralHeader(f.checksum, |f.data|, |f.name|, localOffset) + f.name
  }

  /** The local parts of all files, one after the other. */
  function Locals(files: seq<File>): (p: seq<byte>)
    requires forall f :: f in files ==> Fits(f)
  {
    if files == [] then []
    else Locals(files[..|files| - 1]) + LocalPart(files[|files| - 1])
  }

  /** The last local offset fits a 32-bit field; the earlier ones are smaller. */
  predicate OffsetsFit(files: seq<File>)
    requires forall f :: f in files ==> Fits(f)
  {
    files != [] ==> |Locals(files[..|files| - 1])| < U32_LIMIT
  }

  /** The central directory: one header per file, pointing at its local part. */
  function Central(files: seq<File>): (p: seq<byte>)
    requires (forall f :: f in files ==> Fits(f)) && OffsetsFit(files)
  {
    if files == [] then []
    else
      var before := files[..|files| - 1];
      Central(before) + CentralPart(files[|files| - 1], |Locals(before)|)
  }

  /** No field of any of the three records overflows. */
  predicate Encodable(files: seq<File>) {
    && |files| < U16_LIMIT
    && (forall f :: f in files ==> Fits(f))
    && |Locals(files)| < U32_LIMIT
    && |Central(files)| < U32_LIMIT
  }

  function Archive(files: seq<File>): (body: seq<byte>)
    requires Encodable(files)
  {
    Locals(files) + Central(files) + EndRecord(|files|, |Central(files)|, |Locals(files)|)
  }

  /** The bytes written so far once a field joins them at offset `at`, skipped fields being zero. */
  function Joined(done: seq<byte>, at: nat, field: seq<byte>): seq<byte>
    requires |done| <= at
  {
    (if at == |done| then done else done + Zeros(at - |done|)) + field
  }

  method Put16(h: array<byte>, ghost done: seq<byte>, v: nat, at: nat) returns (ghost joined: seq<byte>)
    requires v < U16_LIMIT && |done| <= at && at + 2 <= h.Length && h[..] == done + Zeros(h.Length - |done|)
    modifies h
    ensures joined == Joined(done, at, PutU16LE(v)) && h[..] == joined + Zeros(h.Length - |joined|)
  {
    WriteU16LE(h, v, at);
    joined := Joined(done, at, PutU16LE(v));
  }

  method Put32(h: array<byte>, ghost done: seq<byte>, v: nat, at: nat) returns (ghost joined: seq<byte>)
    requires v < U32_LIMIT && |done| <= at && at + 4 <= h.Length && h[..] == done + Zeros(h.Length - |done|)
    modifies h
    ensures joined == Joined(done, at, PutU32LE(v)) && h[..] == joined + Zeros(h.Length - |joined|)
  {
    WriteU32LE(h, v, at);
    joined := Joined(done, at, PutU32LE(v));
  }

  method BuildLocalHeader(f: File) returns (header: seq<byte>)
    requires Fits(f)
    ensures header == LocalHeader(f.checksum, |f.data|, |f.name|)
  {
    hide PutU16LE, PutU32LE;
    var h := new byte[LOCAL_BYTES](_ => 0);
    ghost var p := Put32(h, [], LOCAL_SIGNATURE, 0);
    p := Put16(h, p, 20, 4);
    p := Put32(h, p, f.checksum, 14);
    p := Put32(h, p, |f.data|, 18);
    p := Put32(h, p, |f.data|, 22);
    p := Put16(h, p, |f.name|, 26);
    header := h[..];
  }

  method BuildCentralHeader(f: File, localOffset: nat) returns (header: seq<byte>)
    requires Fits(f) && localOffset < U32_LIMIT
    ensures header == CentralHeader(f.checksum, |f.data|, |f.name|, localOffset)
  {
    hide PutU16LE, PutU32LE;
    var h := new byte[CENTRAL_BYTES](_ => 0);
    ghost var p := Put32(h, [], CENTRAL_SIGNATURE, 0);
    assert p == PutU32LE(CENTRAL_SIGNATURE);
    p := Put16(h, p, 20, 4);
    p := Put16(h, p, 20, 6);
    p := Put32(h, p, f.checksum, 16);
    p := Put32(h, p, |f.data|, 20);
    p := Put32(h, p, |f.data|, 24);
    p := Put16(h, p, |f.name|, 28);
    p := Put32(h, p, localOffset, 42);
    header := h[..];
  }

  method BuildEndRecord(count: nat, size: nat, offset: nat) returns (header: seq<byte>)
    requires count < U16_LIMIT && size < U32_LIMIT && offset < U32_LIMIT
    ensures header == EndRecord(count, size, offset)
  {
    hide PutU16LE, PutU32LE;
    var h := new byte[END_BYTES](_ => 0);
    ghost var p := Put32(h, [], END_SIGNATURE, 0);
    p := Put16(h, p, count, 8);
    p := Put16(h, p, count, 10);
    p := Put32(h, p, size, 12);
    p := Put32(h, p, offset, 16);
    header := h[..];
  }

  /** Adding one file appends its two parts. */
  lemma Append(files: seq<File>, f: File)
    requires (forall g :: g in files ==> Fits(g)) && OffsetsFit(files) && Fits(f) && |Locals(files)| < U32_LIMIT
    ensures (forall g :: g in files + [f] ==> Fits(g)) && OffsetsFit(files + [f])
    ensures Locals(files + [f]) == Locals(files) + LocalPart(f)
    ensures Central(files + [f]) == Central(files) + CentralPart(f, |Locals(files)|)
  {
    assert (files + [f])[..|files|] == files;
  }

  lemma {:induction false} LocalsGrow(files: seq<File>, i: nat)
    requires i <= |files| && forall f :: f in files ==> Fits(f)
    ensures |Locals(files[..i])| <= |Locals(files)|
  {
    if i < |files| {
      var before := files[..|files| - 1];
      LocalsGrow(before, i);
      assert before[..i] == files[..i];
    } else {
      assert files[..i] == files;
    }
  }

  lemma NotEncodable(files: seq<File>, i: nat)
    requires i < |files| && forall f :: f in files[..i] ==> Fits(f)
    requires !Fits(files[i]) || |Locals(files[..i])| >= U32_LIMIT
    ensures !Encodable(files)
  {
    assert files[i] in files;
    if Encodable(files) {
      LocalsGrow(files, i);
    }
  }

  /** Writes the archive, or nothing when a value does not fit its field (the
      buffer write throws a RangeError). */
  method CreateStoredZip(files: seq<File>) returns (body: Option<seq<byte>>)
    ensures body == if Encodable(files) then Some(Archive(files)) else None
  {
    hide LocalHeader, CentralHeader, EndRecord;
    var localParts: seq<byte>, centralParts: seq<byte> := [], [];
    var localOffset := 0;
    for i := 0 to |files|
      invariant forall f :: f in files[..i] ==> Fits(f)
      invariant OffsetsFit(files[..i])
      invariant localParts == Locals(files[..i]) && localOffset == |localParts|
      invariant centralParts == Central(files[..i])
    {
      var f := files[i];
      if !Fits(f) || localOffset >= U32_LIMIT {
        NotEncodable(files, i);
        return None;
      }
      Append(files[..i], f);
      assert files[..i + 1] == files[..i] + [f];
      var localHeader := BuildLocalHeader(f);
      localParts := localParts + (localHeader + f.name + f.data);
      var centralHeader := BuildCentralHeader(f, localOffset);
      centralParts := centralParts + (centralHeader + f.name);
      localOffset := localOffset + |localHeader| + |f.name| + |f.data|;
    }
    assert files[..|files|] == files;
    if |files| >= U16_LIMIT || |centralParts| >= U32_LIMIT || localOffset >= U32_LIMIT {
      return None;
    }
    var end := BuildEndRecord(|files|, |centralParts|, localOffset);
    body := Some(localParts + centralParts + end);
  }
}
