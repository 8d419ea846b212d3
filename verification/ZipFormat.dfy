/** The three ZIP records the writer emits and the reader looks for, field by field
    as PKWARE APPNOTE sections 4.3.7, 4.3.12 and 4.3.16 lay them out. */
module ZipFormat {
  import opened ByteFields

  const LOCAL_SIGNATURE: nat := 0x04034b50
  const CENTRAL_SIGNATURE: nat := 0x02014b50
  const END_SIGNATURE: nat := 0x06054b50
  const LOCAL_BYTES: nat := 30
  const CENTRAL_BYTES: nat := 46
  const END_BYTES: nat := 22

  /** Fields left at zero. */
  function Zeros(n: nat): (z: seq<byte>)
    ensures |z| == n && forall i :: 0 <= i < n ==> z[i] == 0
  {
    seq(n, _ => 0)
  }

  /** Section 4.3.7 for a stored file without extra field. */
  function LocalHeader(checksum: nat, size: nat, nameLength: nat): (h: seq<byte>)
    requires checksum < U32_LIMIT && size < U32_LIMIT && nameLength < U16_LIMIT
    ensures |h| == LOCAL_BYTES
  {
    PutU32LE(LOCAL_SIGNATURE)
    + PutU16LE(20)          // version needed
    + Zeros(2 + 2 + 2 + 2)  // flags, compression method, modification time and date
    + PutU32LE(checksum)
    + PutU32LE(size) + PutU32LE(size)
    + PutU16LE(nameLength)
    + Zeros(2)              // extra field length
  }

  /** Section 4.3.12 for a stored file without extra field or comment. */
  function CentralHeader(checksum: nat, size: nat, nameLength: nat, localOffset: nat): (h: seq<byte>)
    requires checksum < U32_LIMIT && size < U32_LIMIT && nameLength < U16_LIMIT && localOffset < U32_LIMIT
    ensures |h| == CENTRAL_BYTES
  {
    PutU32LE(CENTRAL_SIGNATURE)
    + PutU16LE(20) + PutU16LE(20)  // version made by, version needed
    + Zeros(2 + 2 + 2 + 2)         // flags, compression method, modification time and date
    + PutU32LE(checksum)
    + PutU32LE(size) + PutU32LE(size)
    + PutU16LE(nameLength)
    + Zeros(2 + 2 + 2 + 2 + 4)     // extra and comment length, disk, internal and external attributes
    + PutU32LE(localOffset)
  }

  /** Section 4.3.16 for a single-disk archive without comment. */
  function EndRecord(count: nat, size: nat, offset: nat): (h: seq<byte>)
    requires count < U16_LIMIT && size < U32_LIMIT && offset < U32_LIMIT
    ensures |h| == END_BYTES
  {
    PutU32LE(END_SIGNATURE)
    + Zeros(2 + 2)                 // this disk, central directory disk
    + PutU16LE(count) + PutU16LE(count)
    + PutU32LE(size)
    + PutU32LE(offset)
    + Zeros(2)                     // comment length
  }

  // The fields of each record at the offsets the reader uses.

  lemma LocalHeaderContents(checksum: nat, size: nat, nameLength: nat)
    requires checksum < U32_LIMIT && size < U32_LIMIT && nameLength < U16_LIMIT
    ensures U32LE(LocalHeader(checksum, size, nameLength), 0) == LOCAL_SIGNATURE
    ensures U16LE(LocalHeader(checksum, size, nameLength), 6) == 0
    ensures U16LE(LocalHeader(checksum, size, nameLength), 8) == 0
    ensures U16LE(LocalHeader(checksum, size, nameLength), 26) == nameLength
    ensures U16LE(LocalHeader(checksum, size, nameLength), 28) == 0
  {
    var h := LocalHeader(checksum, size, nameLength);
    var f0 := PutU32LE(LOCAL_SIGNATURE);
    assert h[0] == f0[0] && h[1] == f0[1] && h[2] == f0[2] && h[3] == f0[3];
    assert h[6] == 0 && h[7] == 0;
    assert h[8] == 0 && h[9] == 0;
    var f26 := PutU16LE(nameLength);
    assert h[26] == f26[0] && h[27] == f26[1];
    assert h[28] == 0 && h[29] == 0;
  }

  lemma CentralHeaderContents(checksum: nat, size: nat, nameLength: nat, localOffset: nat)
    requires checksum < U32_LIMIT && size < U32_LIMIT && nameLength < U16_LIMIT && localOffset < U32_LIMIT
    ensures U32LE(CentralHeader(checksum, size, nameLength, localOffset), 0) == CENTRAL_SIGNATURE
    ensures U16LE(CentralHeader(checksum, size, nameLength, localOffset), 8) == 0
    ensures U16LE(CentralHeader(checksum, size, nameLength, localOffset), 10) == 0
    ensures U32LE(CentralHeader(checksum, size, nameLength, localOffset), 20) == size
    ensures U32LE(CentralHeader(checksum, size, nameLength, localOffset), 24) == size
    ensures U16LE(CentralHeader(checksum, size, nameLength, localOffset), 28) == nameLength
    ensures U16LE(CentralHeader(checksum, size, nameLength, localOffset), 30) == 0
    ensures U16LE(CentralHeader(checksum, size, nameLength, localOffset), 32) == 0
    ensures U32LE(CentralHeader(checksum, size, nameLength, localOffset), 42) == localOffset
  {
    var h := CentralHeader(checksum, size, nameLength, localOffset);
    var f0 := PutU32LE(CENTRAL_SIGNATURE);
    assert h[0] == f0[0] && h[1] == f0[1] && h[2] == f0[2] && h[3] == f0[3];
    assert h[8] == 0 && h[9] == 0;
    assert h[10] == 0 && h[11] == 0;
    var f20 := PutU32LE(size);
    assert h[20] == f20[0] && h[21] == f20[1] && h[22] == f20[2] && h[23] == f20[3];
    var f24 := PutU32LE(size);
    assert h[24] == f24[0] && h[25] == f24[1] && h[26] == f24[2] && h[27] == f24[3];
    var f28 := PutU16LE(nameLength);
    assert h[28] == f28[0] && h[29] == f28[1];
    assert h[30] == 0 && h[31] == 0;
    assert h[32] == 0 && h[33] == 0;
    var f42 := PutU32LE(localOffset);
    assert h[42] == f42[0] && h[43] == f42[1] && h[44] == f42[2] && h[45] == f42[3];
  }

  lemma EndRecordContents(count: nat, size: nat, offset: nat)
    requires count < U16_LIMIT && size < U32_LIMIT && offset < U32_LIMIT
    ensures U32LE(EndRecord(count, size, offset), 0) == END_SIGNATURE
    ensures U16LE(EndRecord(count, size, offset), 4) == 0
    ensures U16LE(EndRecord(count, size, offset), 6) == 0
    ensures U16LE(EndRecord(count, size, offset), 8) == count
    ensures U16LE(EndRecord(count, size, offset), 10) == count
    ensures U32LE(EndRecord(count, size, offset), 12) == size
    ensures U32LE(EndRecord(count, size, offset), 16) == offset
    ensures U16LE(EndRecord(count, size, offset), 20) == 0
  {
    var h := EndRecord(count, size, offset);
    var f0 := PutU32LE(END_SIGNATURE);
    assert h[0] == f0[0] && h[1] == f0[1] && h[2] == f0[2] && h[3] == f0[3];
    assert h[4] == 0 && h[5] == 0;
    assert h[6] == 0 && h[7] == 0;
    var f8 := PutU16LE(count);
    assert h[8] == f8[0] && h[9] == f8[1];
    var f10 := PutU16LE(count);
    assert h[10] == f10[0] && h[11] == f10[1];
    var f12 := PutU32LE(size);
    assert h[12] == f12[0] && h[13] == f12[1] && h[14] == f12[2] && h[15] == f12[3];
    var f16 := PutU32LE(offset);
    assert h[16] == f16[0] && h[17] == f16[1] && h[18] == f16[2] && h[19] == f16[3];
    assert h[20] == 0 && h[21] == 0;
  }

  // The same fields for a record found inside an archive.

  lemma LocalHeaderIn(b: seq<byte>, at: nat, checksum: nat, size: nat, nameLength: nat)
    requires checksum < U32_LIMIT && size < U32_LIMIT && nameLength < U16_LIMIT
    requires at + LOCAL_BYTES <= |b| && b[at..at + LOCAL_BYTES] == LocalHeader(checksum, size, nameLength)
    ensures U32LE(b, at) == LOCAL_SIGNATURE
    ensures U16LE(b, at + 6) == 0
    ensures U16LE(b, at + 8) == 0
    ensures U16LE(b, at + 26) == nameLength
    ensures U16LE(b, at + 28) == 0
  {
    LocalHeaderContents(checksum, size, nameLength);
    U32Window(b, at, at + LOCAL_BYTES, 0);
    U16Window(b, at, at + LOCAL_BYTES, 6);
    U16Window(b, at, at + LOCAL_BYTES, 8);
    U16Window(b, at, at + LOCAL_BYTES, 26);
    U16Window(b, at, at + LOCAL_BYTES, 28);
  }

  lemma CentralHeaderIn(b: seq<byte>, at: nat, checksum: nat, size: nat, nameLength: nat, localOffset: nat)
    requires checksum < U32_LIMIT && size < U32_LIMIT && nameLength < U16_LIMIT && localOffset < U32_LIMIT
    requires at + CENTRAL_BYTES <= |b| && b[at..at + CENTRAL_BYTES] == CentralHeader(checksum, size, nameLength, localOffset)
    ensures U32LE(b, at) == CENTRAL_SIGNATURE
    ensures U16LE(b, at + 8) == 0
    ensures U16LE(b, at + 10) == 0
    ensures U32LE(b, at + 20) == size
    ensures U32LE(b, at + 24) == size
    ensures U16LE(b, at + 28) == nameLength
    ensures U16LE(b, at + 30) == 0
    ensures U16LE(b, at + 32) == 0
    ensures U32LE(b, at + 42) == localOffset
  {
    CentralHeaderContents(checksum, size, nameLength, localOffset);
    U32Window(b, at, at + CENTRAL_BYTES, 0);
    U16Window(b, at, at + CENTRAL_BYTES, 8);
    U16Window(b, at, at + CENTRAL_BYTES, 10);
    U32Window(b, at, at + CENTRAL_BYTES, 20);
    U32Window(b, at, at + CENTRAL_BYTES, 24);
    U16Window(b, at, at + CENTRAL_BYTES, 28);
    U16Window(b, at, at + CENTRAL_BYTES, 30);
    U16Window(b, at, at + CENTRAL_BYTES, 32);
    U32Window(b, at, at + CENTRAL_BYTES, 42);
  }

  lemma EndRecordIn(b: seq<byte>, at: nat, count: nat, size: nat, offset: nat)
    requires count < U16_LIMIT && size < U32_LIMIT && offset < U32_LIMIT
    requires at + END_BYTES <= |b| && b[at..at + END_BYTES] == EndRecord(count, size, offset)
    ensures U32LE(b, at) == END_SIGNATURE
    ensures U16LE(b, at + 4) == 0
    ensures U16LE(b, at + 6) == 0
    ensures U16LE(b, at + 8) == count
    ensures U16LE(b, at + 10) == count
    ensures U32LE(b, at + 12) == size
    ensures U32LE(b, at + 16) == offset
    ensures U16LE(b, at + 20) == 0
  {
    EndRecordContents(count, size, offset);
    U32Window(b, at, at + END_BYTES, 0);
    U16Window(b, at, at + END_BYTES, 4);
    U16Window(b, at, at + END_BYTES, 6);
    U16Window(b, at, at + END_BYTES, 8);
    U16Window(b, at, at + END_BYTES, 10);
    U32Window(b, at, at + END_BYTES, 12);
    U32Window(b, at, at + END_BYTES, 16);
    U16Window(b, at, at + END_BYTES, 20);
  }
}
