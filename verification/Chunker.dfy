/** Splitting a file into chunks from a byte offset, and the binary layout in which a
    chunk travels. */
module Chunker {
  import opened Bytes
  import Framing

  const CHUNK_SIZE: nat := 64 * 1024
  const MAX_INCOMING_FILE_SIZE: nat := 2 * 1024 * 1024 * 1024
  const HEADER_SIZE: nat := 28

  datatype Chunk = Chunk(index: nat, offset: nat, data: seq<byte>)

  function Min(a: nat, b: nat): nat { if a <= b then a else b }

  /** The chunk a sender positioned at `pos` reads next. */
  function ChunkAt(src: seq<byte>, pos: nat, index: nat, size: nat): (c: Chunk)
    requires pos <= |src|
  {
    Chunk(index, pos, src[pos..Min(pos + size, |src|)])
  }

  function ChunkList(src: seq<byte>, pos: nat, index: nat, size: nat): seq<Chunk>
    requires pos <= |src| && size > 0
    decreases |src| - pos
  {
    if pos == |src| then []
    else
      var c := ChunkAt(src, pos, index, size);
      [c] + ChunkList(src, pos + |c.data|, index + 1, size)
  }

  /** read_chunks: None is the ValueError for an offset past the end of the file. */
  method ReadChunks(src: seq<byte>, startOffset: nat, size: nat) returns (r: Option<seq<Chunk>>)
    requires size > 0
    ensures r.None? <==> startOffset > |src|
    ensures r.Some? ==> r.value == ChunkList(src, startOffset, startOffset / size, size)
  {
    if startOffset > |src| {
      return None;
    }
    var current: nat, sequence: nat := startOffset, startOffset / size;
    var chunks: seq<Chunk> := [];
    while true
      invariant current <= |src|
      invariant chunks + ChunkList(src, current, sequence, size)
             == ChunkList(src, startOffset, startOffset / size, size)
      decreases |src| - current
    {
      var chunk := src[current..Min(current + size, |src|)];
      if chunk == [] {
        break;
      }
      chunks := chunks + [Chunk(sequence, current, chunk)];
      current, sequence := current + |chunk|, sequence + 1;
    }
    return Some(chunks);
  }

  function Payloads(chunks: seq<Chunk>): seq<seq<byte>> {
    seq(|chunks|, i requires 0 <= i < |chunks| => chunks[i].data)
  }

  /** The chunks put together are exactly the file from the start offset on. */
  lemma {:induction false} ChunksReassemble(src: seq<byte>, pos: nat, index: nat, size: nat)
    requires pos <= |src| && size > 0
    ensures Flatten(Payloads(ChunkList(src, pos, index, size))) == src[pos..]
    decreases |src| - pos
  {
    if pos < |src| {
      var c := ChunkAt(src, pos, index, size);
      var rest := ChunkList(src, pos + |c.data|, index + 1, size);
      ChunksReassemble(src, pos + |c.data|, index + 1, size);
      assert Payloads([c] + rest)[1..] == Payloads(rest);
      assert src[pos..] == c.data + src[pos + |c.data|..];
    }
  }

  /** Every chunk of a file streamed from an aligned offset sits at a multiple of the chunk
      size, is numbered by that multiple, is non-empty, and is full unless it ends the file. */
  lemma {:induction false} ChunksAreAligned(src: seq<byte>, pos: nat, i: nat)
    requires pos <= |src| && pos % CHUNK_SIZE == 0
    requires i < |ChunkList(src, pos, pos / CHUNK_SIZE, CHUNK_SIZE)|
    ensures var c := ChunkList(src, pos, pos / CHUNK_SIZE, CHUNK_SIZE)[i];
            && c.offset == pos + i * CHUNK_SIZE < |src|
            && c.offset % CHUNK_SIZE == 0 && c.index == c.offset / CHUNK_SIZE
            && c == ChunkAt(src, c.offset, c.index, CHUNK_SIZE)
            && 0 < |c.data| <= CHUNK_SIZE
            && (|c.data| < CHUNK_SIZE ==> c.offset + |c.data| == |src|)
    decreases |src| - pos
  {
    var c := ChunkAt(src, pos, pos / CHUNK_SIZE, CHUNK_SIZE);
    if i > 0 {
      assert |c.data| == CHUNK_SIZE;
      ChunksAreAligned(src, pos + CHUNK_SIZE, i - 1);
    }
  }

  // ---- file_data payloads -------------------------------------------

  datatype FileData = FileData(transferId: seq<byte>, sequence: int, offset: int, data: seq<byte>)

  predicate FitsHeader(m: FileData) {
    |m.transferId| == 16 && 0 <= m.sequence <= 0xFFFF_FFFF && 0 <= m.offset <= 0xFFFF_FFFF_FFFF_FFFF
  }

  /** encode_file_data: None is the ProtocolError for a field that does not fit. */
  function EncodeFileData(m: FileData): (r: Option<seq<byte>>)
    ensures r.Some? <==> FitsHeader(m)
    ensures r.Some? ==> |r.value| == HEADER_SIZE + |m.data|
  {
    Pow256Values();
    if !FitsHeader(m) then None
    else Some(m.transferId + Pack(4, m.sequence) + Pack(8, m.offset) + m.data)
  }

  /** decode_file_data: None is the ProtocolError for a payload shorter than its header. */
  function DecodeFileData(payload: seq<byte>): (r: Option<FileData>)
    ensures r.None? <==> |payload| < HEADER_SIZE
    ensures r.Some? ==> FitsHeader(r.value)
  {
    Pow256Values();
    if |payload| < HEADER_SIZE then None
    else Some(FileData(payload[..16], Unpack(payload[16..20]), Unpack(payload[20..28]), payload[28..]))
  }

  lemma DecodeEncodeFileData(m: FileData)
    requires FitsHeader(m)
    ensures DecodeFileData(EncodeFileData(m).value) == Some(m)
  {
    Pow256Values();
    var p := EncodeFileData(m).value;
    UnpackPack(4, m.sequence);
    UnpackPack(8, m.offset);
    assert p[..16] == m.transferId;
    assert p[16..20] == Pack(4, m.sequence);
    assert p[20..28] == Pack(8, m.offset);
    assert p[28..] == m.data;
  }

  lemma EncodeDecodeFileData(payload: seq<byte>)
    requires |payload| >= HEADER_SIZE
    ensures EncodeFileData(DecodeFileData(payload).value) == Some(payload)
  {
    PackUnpack(payload[16..20]);
    PackUnpack(payload[20..28]);
    assert payload == payload[..16] + payload[16..20] + payload[20..28] + payload[28..];
  }

  /** Every chunk of a file the receiver would accept fits the header fields, and its payload,
      with the transport's overhead on top, fits one frame. */
  lemma ChunkFitsWire(tid: seq<byte>, src: seq<byte>, pos: nat, i: nat)
    requires |tid| == 16 && |src| <= MAX_INCOMING_FILE_SIZE
    requires pos <= |src| && pos % CHUNK_SIZE == 0
    requires i < |ChunkList(src, pos, pos / CHUNK_SIZE, CHUNK_SIZE)|
    ensures var c := ChunkList(src, pos, pos / CHUNK_SIZE, CHUNK_SIZE)[i];
            var m := FileData(tid, c.index, c.offset, c.data);
            && FitsHeader(m)
            && 8 + 16 + 1 + |EncodeFileData(m).value| <= Framing.MAX_MESSAGE_SIZE
            && DecodeFileData(EncodeFileData(m).value) == Some(m)
  {
    ChunksAreAligned(src, pos, i);
    var c := ChunkList(src, pos, pos / CHUNK_SIZE, CHUNK_SIZE)[i];
    DecodeEncodeFileData(FileData(tid, c.index, c.offset, c.data));
  }
}
