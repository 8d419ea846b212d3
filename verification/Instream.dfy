/** The clamd INSTREAM protocol: length-prefixed chunks closed by a zero length. */
module Instream {
  import opened Prelude
  import opened ByteFields

  const CHUNK_BYTES: nat := 64 * 1024
  /** "zINSTREAM" and a zero byte. */
  const COMMAND: seq<byte> := [122, 73, 78, 83, 84, 82, 69, 65, 77, 0]
  const TERMINATOR: seq<byte> := [0, 0, 0, 0]

  function Min(a: nat, b: nat): nat { if a < b then a else b }

  /** The chunks of the body from `offset` on. */
  function Chunks(body: seq<byte>, offset: nat): (chunks: seq<seq<byte>>)
    ensures forall c :: c in chunks ==> 0 < |c| <= CHUNK_BYTES
    decreases |body| - offset
  {
    if offset >= |body| then []
    else [body[offset..Min(offset + CHUNK_BYTES, |body|)]] + Chunks(body, offset + CHUNK_BYTES)
  }

  function Frames(chunks: seq<seq<byte>>): seq<byte>
    requires forall c :: c in chunks ==> |c| < U32_LIMIT
  {
    if chunks == [] then [] else PutU32BE(|chunks[0]|) + chunks[0] + Frames(chunks[1..])
  }

  /** The daemon's side: the announced chunks up to the first zero length, and what follows it. */
  function Decode(stream: seq<byte>): (r: Option<(seq<seq<byte>>, seq<byte>)>)
    decreases |stream|
  {
    if |stream| < 4 then None
    else
      var n := U32BE(stream, 0);
      if n == 0 then Some(([], stream[4..]))
      else if |stream| < 4 + n then None
      else
        var rest := Decode(stream[4 + n..]);
        if rest.None? then None else Some(([stream[4..4 + n]] + rest.value.0, rest.value.1))
  }

  function Join(chunks: seq<seq<byte>>): seq<byte> {
    if chunks == [] then [] else chunks[0] + Join(chunks[1..])
  }

  lemma LengthRead(length: seq<byte>, rest: seq<byte>)
    requires |length| == 4
    ensures U32BE(length + rest, 0) == U32BE(length, 0) && (length + rest)[4..] == rest
  {
  }

  /** The daemon takes one chunk off a stream. */
  lemma DecodeChunk(chunk: seq<byte>, rest: seq<byte>)
    requires 0 < |chunk| < U32_LIMIT
    ensures var r, all := Decode(rest), Decode(PutU32BE(|chunk|) + (chunk + rest));
      r.Some? ==> all == Some(([chunk] + r.value.0, r.value.1))
  {
    hide PutU32BE, U32BE;
    var stream := PutU32BE(|chunk|) + (chunk + rest);
    LengthRead(PutU32BE(|chunk|), chunk + rest);
    assert stream[4..4 + |chunk|] == stream[4..][..|chunk|] == chunk;
    assert stream[4 + |chunk|..] == stream[4..][|chunk|..] == rest;
  }

  lemma DecodeEnd(after: seq<byte>)
    ensures Decode(TERMINATOR + after) == Some(([], after))
  {
    LengthRead(TERMINATOR, after);
  }

  lemma FramesCons(chunk: seq<byte>, tail: seq<seq<byte>>, rest: seq<byte>)
    requires |chunk| < U32_LIMIT && forall c :: c in tail ==> |c| < U32_LIMIT
    ensures Frames([chunk] + tail) + rest == PutU32BE(|chunk|) + (chunk + (Frames(tail) + rest))
  {
    hide PutU32BE;
    assert ([chunk] + tail)[1..] == tail;
  }

  /** Any list of non-empty chunks survives framing, whatever follows the terminator. */
  lemma {:induction false} FramesDecode(chunks: seq<seq<byte>>, after: seq<byte>)
    requires forall c :: c in chunks ==> 0 < |c| < U32_LIMIT
    ensures Decode(Frames(chunks) + (TERMINATOR + after)) == Some((chunks, after))
  {
    hide PutU32BE, Decode, Frames;
    if chunks == [] {
      EmptyFrames();
      DecodeEnd(after);
      assert [] + (TERMINATOR + after) == TERMINATOR + after;
    } else {
      var head, tail := chunks[0], chunks[1..];
      assert chunks == [head] + tail;
      FramesDecode(tail, after);
      DecodeChunk(head, Frames(tail) + (TERMINATOR + after));
      FramesCons(head, tail, TERMINATOR + after);
    }
  }

  /** The chunks put together are the rest of the body. */
  lemma {:induction false} ChunksJoin(body: seq<byte>, offset: nat)
    requires offset <= |body|
    ensures Join(Chunks(body, offset)) == body[offset..]
    decreases |body| - offset
  {
    if offset < |body| {
      var next := Min(offset + CHUNK_BYTES, |body|);
      assert Chunks(body, offset + CHUNK_BYTES) == Chunks(body, next);
      ChunksJoin(body, next);
      assert body[offset..] == body[offset..next] + body[next..];
    }
  }

  /** There are as few chunks as possible. */
  lemma {:induction false} ChunkCount(body: seq<byte>, offset: nat)
    requires offset <= |body|
    ensures |body| - offset <= CHUNK_BYTES * |Chunks(body, offset)| < |body| - offset + CHUNK_BYTES
    decreases |body| - offset
  {
    if offset < |body| {
      var next := Min(offset + CHUNK_BYTES, |body|);
      assert Chunks(body, offset + CHUNK_BYTES) == Chunks(body, next);
      ChunkCount(body, next);
      assert |Chunks(body, offset)| == 1 + |Chunks(body, next)|;
    }
  }

  /** For every body: the daemon decodes exactly its bytes, in ceil(n / 65536) chunks of which none is
      empty, so that the only zero length on the wire is the terminator. */
  lemma DaemonReceivesBody(body: seq<byte>, after: seq<byte>)
    ensures var chunks := Chunks(body, 0);
      && Decode(Frames(chunks) + (TERMINATOR + after)) == Some((chunks, after))
      && Join(chunks) == body
      && |chunks| == (|body| + 65535) / 65536
      && forall c :: c in chunks ==> 0 < |c| <= 65536
  {
    FramesDecode(Chunks(body, 0), after);
    ChunksJoin(body, 0);
    ChunkCount(body, 0);
  }

  class Socket {
    var sent: seq<byte>

    constructor ()
      ensures sent == []
    {
      sent := [];
    }

    method Write(chunk: seq<byte>)
      modifies this
      ensures sent == old(sent) + chunk
    {
      sent := sent + chunk;
    }
  }

  lemma FramesAppend(chunks: seq<seq<byte>>, c: seq<byte>)
    requires (forall d :: d in chunks ==> |d| < U32_LIMIT) && |c| < U32_LIMIT
    ensures Frames(chunks + [c]) == Frames(chunks) + (PutU32BE(|c|) + c)
  {
    hide PutU32BE;
    if chunks == [] {
      assert chunks + [c] == [c] && Frames([]) == [];
    } else {
      FramesAppend(chunks[1..], c);
      assert (chunks + [c])[1..] == chunks[1..] + [c];
    }
  }

  lemma NextChunk(body: seq<byte>, offset: nat)
    ensures Chunks(body, offset) ==
      if offset >= |body| then [] else [body[offset..Min(offset + CHUNK_BYTES, |body|)]] + Chunks(body, offset + CHUNK_BYTES)
  {
  }

  lemma EmptyFrames()
    ensures Frames([]) == []
  {
  }

  /** What has been sent once `written` are out: the command and their frames. */
  ghost function Sent(before: seq<byte>, written: seq<seq<byte>>): seq<byte>
    requires forall c :: c in written ==> |c| < U32_LIMIT
  {
    before + COMMAND + Frames(written)
  }

  /** One more length and chunk on the wire is one more frame. */
  lemma SentOneMore(before: seq<byte>, written: seq<seq<byte>>, chunk: seq<byte>)
    requires (forall c :: c in written ==> |c| < U32_LIMIT) && |chunk| < U32_LIMIT
    ensures Sent(before, written) + PutU32BE(|chunk|) + chunk == Sent(before, written + [chunk])
  {
    hide PutU32BE, Frames, COMMAND;
    FramesAppend(written, chunk);
    var head, frame := before + COMMAND, PutU32BE(|chunk|) + chunk;
    assert head + Frames(written) + PutU32BE(|chunk|) + chunk == head + (Frames(written) + frame);
  }

  lemma ChunksOneMore(body: seq<byte>, written: seq<seq<byte>>, offset: nat)
    requires offset < |body|
    ensures var chunk := body[offset..Min(offset + CHUNK_BYTES, |body|)];
      written + Chunks(body, offset) == (written + [chunk]) + Chunks(body, offset + CHUNK_BYTES)
  {
    NextChunk(body, offset);
  }

  lemma SentNothing(before: seq<byte>)
    ensures Sent(before, []) == before + COMMAND
  {
    EmptyFrames();
  }

  method WriteInstream(socket: Socket, body: seq<byte>)
    modifies socket
    ensures socket.sent == old(socket.sent) + [122, 73, 78, 83, 84, 82, 69, 65, 77, 0] + Frames(Chunks(body, 0)) + [0, 0, 0, 0]
  {
    ghost var before := socket.sent;
    ghost var all := Chunks(body, 0);
    SentNothing(before);
    socket.Write(COMMAND);
    ghost var written: seq<seq<byte>> := [];
    var offset := 0;
    assert written + Chunks(body, offset) == all;
    hide PutU32BE, Frames, Chunks, Sent, COMMAND, TERMINATOR;
    while offset < |body|
      invariant forall c :: c in written ==> |c| < U32_LIMIT
      invariant written + Chunks(body, offset) == all
      invariant socket.sent == Sent(before, written)
    {
      var chunk := body[offset..Min(offset + CHUNK_BYTES, |body|)];
      ChunksOneMore(body, written, offset);
      SentOneMore(before, written, chunk);
      socket.Write(PutU32BE(|chunk|));
      socket.Write(chunk);
      written := written + [chunk];
      offset := offset + CHUNK_BYTES;
    }
    NextChunk(body, offset);
    assert written == all;
    socket.Write(TERMINATOR);
    SentAll(before, all);
  }

  lemma SentAll(before: seq<byte>, chunks: seq<seq<byte>>)
    requires forall c :: c in chunks ==> |c| < U32_LIMIT
    ensures Sent(before, chunks) == before + COMMAND + Frames(chunks)
  {
  }

  /** A frame is the length of its chunk, most significant byte first, and the chunk. */
  lemma FrameBytes(chunk: seq<byte>)
    requires |chunk| < U32_LIMIT
    ensures var f := Frames([chunk]);
      && |f| == 4 + |chunk| && f[4..] == chunk
      && 16777216 * f[0] as int + 65536 * f[1] as int + 256 * f[2] as int + f[3] as int == |chunk|
  {
    assert [chunk][1..] == [];
  }
}
