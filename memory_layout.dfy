// The bytes behind `std::span<const std::byte>` views of vertex and index
// arrays: every 4-byte float or std::uint32_t laid out little-endian, the
// elements of an array one after another with no padding.

module MemoryLayout {
  import opened Common
  import opened GpuStructs

  /** A 32-bit word: the bit pattern of a float or a std::uint32_t. */
  type Word = u32

  /** The four bytes of a word in memory, lowest first. */
  function WordBytes(w: Word): (b: seq<byte>)
    ensures |b| == 4
  {
    var q1 := w / 0x100;
    var q2 := q1 / 0x100;
    var q3 := q2 / 0x100;
    [(w % 0x100) as byte, (q1 % 0x100) as byte, (q2 % 0x100) as byte, q3 as byte]
  }

  /** Reads a word back from its four bytes. */
  function WordFromBytes(b: seq<byte>): Word
    requires |b| == 4
  {
    (b[0] as int + 0x100 * b[1] as int + 0x1_0000 * b[2] as int + 0x100_0000 * b[3] as int) as Word
  }

  lemma WordRoundTrip(w: Word)
    ensures WordFromBytes(WordBytes(w)) == w
  {
    var q1 := w / 0x100;
    var q2 := q1 / 0x100;
    var q3 := q2 / 0x100;
    assert w == w % 0x100 + 0x100 * q1;
    assert q1 == q1 % 0x100 + 0x100 * q2;
    assert q2 == q2 % 0x100 + 0x100 * q3;
  }

  /** An array of words as bytes. */
  function WordsBytes(ws: seq<Word>): (b: seq<byte>)
    ensures |b| == 4 * |ws|
    decreases |ws|
  {
    if ws == [] then [] else WordBytes(ws[0]) + WordsBytes(ws[1..])
  }

  /** Reads an array of words back from bytes. */
  function WordsFromBytes(b: seq<byte>): (ws: seq<Word>)
    requires |b| % 4 == 0
    ensures |ws| == |b| / 4
    decreases |b|
  {
    if b == [] then [] else [WordFromBytes(b[..4])] + WordsFromBytes(b[4..])
  }

  lemma {:induction false} WordsRoundTrip(ws: seq<Word>)
    ensures WordsFromBytes(WordsBytes(ws)) == ws
    decreases |ws|
  {
    if ws != [] {
      var b := WordsBytes(ws);
      assert b[..4] == WordBytes(ws[0]);
      assert b[4..] == WordsBytes(ws[1..]);
      WordRoundTrip(ws[0]);
      WordsRoundTrip(ws[1..]);
    }
  }

  /** The floats of each vertex in field order, vertex after vertex. */
  function VertexWords(vs: seq<Vertex>): (ws: seq<Word>)
    ensures |ws| == 11 * |vs|
    decreases |vs|
  {
    if vs == [] then [] else Components(vs[0]) + VertexWords(vs[1..])
  }

  /** The vertex whose fields are the eleven floats `ws`. */
  function VertexFromWords(ws: seq<Word>): (v: Vertex)
    requires |ws| == 11
    ensures Components(v) == ws
  {
    Vertex(Vec3(ws[0], ws[1], ws[2]), Vec3(ws[3], ws[4], ws[5]), Vec3(ws[6], ws[7], ws[8]), Vec2(ws[9], ws[10]))
  }

  function VerticesFromWords(ws: seq<Word>): (vs: seq<Vertex>)
    requires |ws| % 11 == 0
    ensures |vs| == |ws| / 11
    decreases |ws|
  {
    if ws == [] then [] else [VertexFromWords(ws[..11])] + VerticesFromWords(ws[11..])
  }

  lemma {:induction false} VertexWordsRoundTrip(vs: seq<Vertex>)
    ensures VerticesFromWords(VertexWords(vs)) == vs
    decreases |vs|
  {
    if vs != [] {
      var ws := VertexWords(vs);
      assert ws[..11] == Components(vs[0]);
      assert ws[11..] == VertexWords(vs[1..]);
      ComponentsDetermineVertex(VertexFromWords(ws[..11]), vs[0]);
      VertexWordsRoundTrip(vs[1..]);
    }
  }

  /** The bytes of `vertices.data()`, `vertices.size() * sizeof(Vertex)` of them. */
  function VertexBytes(vs: seq<Vertex>): (b: seq<byte>)
    ensures |b| == SizeOfVertex * |vs|
  {
    WordsBytes(VertexWords(vs))
  }

  /** Reads an array of vertices back from bytes. */
  function DecodeVertices(b: seq<byte>): seq<Vertex>
    requires |b| % SizeOfVertex == 0
  {
    var m := |b| / SizeOfVertex;
    assert |b| == 4 * (11 * m);
    VerticesFromWords(WordsFromBytes(b))
  }

  /** The vertex buffer's bytes hold exactly the vertices written into it. */
  lemma VertexBytesRoundTrip(vs: seq<Vertex>)
    ensures DecodeVertices(VertexBytes(vs)) == vs
  {
    WordsRoundTrip(VertexWords(vs));
    VertexWordsRoundTrip(vs);
  }

  /** The bytes of an index array, `indices.size() * sizeof(Index)` of them. */
  function IndexBytes(indices: seq<u32>): (b: seq<byte>)
    ensures |b| == SizeOfIndex * |indices|
  {
    WordsBytes(indices)
  }

  /** Reads an index array back from bytes. */
  function DecodeIndices(b: seq<byte>): seq<u32>
    requires |b| % SizeOfIndex == 0
  {
    WordsFromBytes(b)
  }

  /** The index buffer's bytes hold exactly the indices written into it. */
  lemma IndexBytesRoundTrip(indices: seq<u32>)
    ensures DecodeIndices(IndexBytes(indices)) == indices
  {
    WordsRoundTrip(indices);
  }
}
