/** The chunked transfer coding of section 4.1 of RFC 7230, without extensions and trailers. */
module ChunkedCoding {
  import opened Basics
  import opened Seqs
  import opened Parse
  import opened ChunkHeader

  function Header(size: nat): (h: seq<byte>)
    ensures |h| == |Hex(size)| + 2
  {
    Hex(size) + CRNL
  }

  function Chunk(c: seq<byte>): seq<byte> {
    Header(|c|) + (c + CRNL)
  }

  /** "0\r\n\r\n" */
  const LAST: seq<byte> := [48, 13, 10, 13, 10]

  function Encode(chunks: seq<seq<byte>>): seq<byte> {
    FlatMap(chunks, Chunk)
  }

  function Whole(c: seq<byte>): seq<byte> {
    c
  }

  function Concat(chunks: seq<seq<byte>>): seq<byte> {
    FlatMap(chunks, Whole)
  }

  lemma PushChunk(chunks: seq<seq<byte>>, c: seq<byte>)
    ensures Encode(chunks + [c]) == Encode(chunks) + Chunk(c)
    ensures Concat(chunks + [c]) == Concat(chunks) + c
  {
    FlatMapPush(chunks, c, Chunk);
    FlatMapPush(chunks, c, Whole);
  }
}
