// src/render/render_structs.cpp: building an indexed mesh from a loaded OBJ
// file (`Object::readVerticesFromFile`), and the `Object` that owns the
// vertex and index buffers of a mesh and records its bind and draw commands.
//
// The parsed OBJ data (tinyobj's attribute arrays and per-shape index lists)
// is taken as given. An out-of-range `.at()` throws std::out_of_range, which
// nothing catches, so it is modelled as a fatal outcome.

module RenderStructs {
  import opened Common
  import opened GpuStructs
  import opened Vma
  import opened Commands
  import EarlyBuffers

  /** tinyobj::index_t: a negative index means the attribute is absent. */
  datatype MeshIndex = MeshIndex(vertexIndex: int, normalIndex: int, texcoordIndex: int)

  /** tinyobj::attrib_t: flat arrays, three floats per position, color and normal, two per texcoord. */
  datatype Attributes = Attributes(vertices: seq<Float>, colors: seq<Float>, normals: seq<Float>, texcoords: seq<Float>)

  /** tinyobj::shape_t, reduced to its mesh's index list. */
  datatype Shape = Shape(indices: seq<MeshIndex>)

  /** The bit patterns of 0.0f and 1.0f. */
  const FloatZero: Float := 0x0000_0000
  const FloatOne: Float := 0x3F80_0000

  /** glm::vec3 {xs.at(base), xs.at(base + 1), xs.at(base + 2)}, or None where `.at()` throws. */
  function Vec3At(xs: seq<Float>, base: int): (r: Option<Vec3>)
    ensures r.Some? <==> 0 <= base && base + 2 < |xs|
    ensures r.Some? ==> r.value == Vec3(xs[base], xs[base + 1], xs[base + 2])
  {
    if 0 <= base && base + 2 < |xs| then Some(Vec3(xs[base], xs[base + 1], xs[base + 2])) else None
  }

  /** glm::vec2 {xs.at(base), xs.at(base + 1)}, or None where `.at()` throws. */
  function Vec2At(xs: seq<Float>, base: int): (r: Option<Vec2>)
    ensures r.Some? <==> 0 <= base && base + 1 < |xs|
    ensures r.Some? ==> r.value == Vec2(xs[base], xs[base + 1])
  {
    if 0 <= base && base + 1 < |xs| then Some(Vec2(xs[base], xs[base + 1])) else None
  }

  /** Every attribute the index refers to lies inside its array. */
  predicate InRange(attrib: Attributes, index: MeshIndex)
  {
    (index.vertexIndex >= 0 ==>
      3 * index.vertexIndex + 2 < |attrib.vertices| && 3 * index.vertexIndex + 2 < |attrib.colors|) &&
    (index.normalIndex >= 0 ==> 3 * index.normalIndex + 2 < |attrib.normals|) &&
    (index.texcoordIndex >= 0 ==> 2 * index.texcoordIndex + 1 < |attrib.texcoords|)
  }

  /**
   * The vertex built for one mesh index. An absent position gives position
   * (0, 0, 0) and color (1, 1, 1); an absent normal gives a zero normal; an
   * absent texcoord gives uv (0, 0). An index past the end of its array is fatal.
   */
  function BuildVertex(attrib: Attributes, index: MeshIndex): (r: Result<Vertex>)
    ensures r.Ok? <==> InRange(attrib, index)
    ensures r.Err? ==> r.reason == IndexOutOfRange
    ensures r.Ok? && index.vertexIndex < 0 ==>
      r.value.position == Vec3(FloatZero, FloatZero, FloatZero) && r.value.color == Vec3(FloatOne, FloatOne, FloatOne)
    ensures r.Ok? && index.vertexIndex >= 0 ==>
      var b := 3 * index.vertexIndex;
      r.value.position == Vec3(attrib.vertices[b], attrib.vertices[b + 1], attrib.vertices[b + 2]) &&
      r.value.color == Vec3(attrib.colors[b], attrib.colors[b + 1], attrib.colors[b + 2])
    ensures r.Ok? && index.normalIndex < 0 ==> r.value.normal == Vec3(FloatZero, FloatZero, FloatZero)
    ensures r.Ok? && index.normalIndex >= 0 ==>
      var b := 3 * index.normalIndex;
      r.value.normal == Vec3(attrib.normals[b], attrib.normals[b + 1], attrib.normals[b + 2])
    ensures r.Ok? && index.texcoordIndex < 0 ==> r.value.uv == Vec2(FloatZero, FloatZero)
    ensures r.Ok? && index.texcoordIndex >= 0 ==>
      var b := 2 * index.texcoordIndex;
      r.value.uv == Vec2(attrib.texcoords[b], attrib.texcoords[b + 1])
  {
    var position := if index.vertexIndex >= 0 then Vec3At(attrib.vertices, 3 * index.vertexIndex) else Some(Vec3(FloatZero, FloatZero, FloatZero));
    var color := if index.vertexIndex >= 0 then Vec3At(attrib.colors, 3 * index.vertexIndex) else Some(Vec3(FloatOne, FloatOne, FloatOne));
    var normal := if index.normalIndex >= 0 then Vec3At(attrib.normals, 3 * index.normalIndex) else Some(Vec3(FloatZero, FloatZero, FloatZero));
    var uv := if index.texcoordIndex >= 0 then Vec2At(attrib.texcoords, 2 * index.texcoordIndex) else Some(Vec2(FloatZero, FloatZero));
    if position.Some? && color.Some? && normal.Some? && uv.Some? then
      Ok(Vertex(position.value, color.value, normal.value, uv.value))
    else
      Err(IndexOutOfRange)
  }

  /** The index lists of all shapes, one after the other. */
  function Flatten(shapes: seq<Shape>): seq<MeshIndex>
  {
    if |shapes| == 0 then [] else Flatten(shapes[..|shapes| - 1]) + shapes[|shapes| - 1].indices
  }

  lemma FlattenNext(shapes: seq<Shape>, s: nat)
    requires s < |shapes|
    ensures Flatten(shapes[..s + 1]) == Flatten(shapes[..s]) + shapes[s].indices
  {
    assert shapes[..s + 1][..s] == shapes[..s];
  }

  /** Every mesh index builds a vertex. */
  predicate AllInRange(attrib: Attributes, indices: seq<MeshIndex>)
  {
    forall k | 0 <= k < |indices| :: InRange(attrib, indices[k])
  }

  /** The vertex built for each mesh index, in order. */
  function BuiltVertices(attrib: Attributes, indices: seq<MeshIndex>): (vs: seq<Vertex>)
    requires AllInRange(attrib, indices)
    ensures |vs| == |indices|
    ensures forall k | 0 <= k < |indices| :: BuildVertex(attrib, indices[k]) == Ok(vs[k])
  {
    seq(|indices|, k requires 0 <= k < |indices| && AllInRange(attrib, indices) => BuildVertex(attrib, indices[k]).value)
  }

  /** The distinct vertices of `vs`, in order of first occurrence. */
  function Unique(vs: seq<Vertex>): (u: seq<Vertex>)
    ensures forall v | v in u :: v in vs
  {
    if |vs| == 0 then []
    else
      var prior := Unique(vs[..|vs| - 1]);
      if vs[|vs| - 1] in prior then prior else prior + [vs[|vs| - 1]]
  }

  /** No vertex appears twice. */
  predicate Distinct(vs: seq<Vertex>)
  {
    forall i, j | 0 <= i < j < |vs| :: vs[i] != vs[j]
  }

  /** Unique keeps exactly the vertices of its input, each once. */
  lemma {:induction false} UniqueSpec(vs: seq<Vertex>)
    ensures Distinct(Unique(vs))
    ensures forall v :: v in Unique(vs) <==> v in vs
    ensures |Unique(vs)| <= |vs|
  {
    if |vs| > 0 {
      var init := vs[..|vs| - 1];
      UniqueSpec(init);
      forall v
        ensures v in vs <==> v in init || v == vs[|vs| - 1]
      {
        assert vs == init + [vs[|vs| - 1]];
      }
    }
  }

  /** Unique of a longer sequence extends Unique of its prefix. */
  lemma {:induction false} UniquePrefix(vs: seq<Vertex>, n: nat)
    requires n <= |vs|
    ensures Unique(vs[..n]) <= Unique(vs)
    decreases |vs| - n
  {
    if n < |vs| {
      UniquePrefix(vs[..|vs| - 1], n);
      assert vs[..|vs| - 1][..n] == vs[..n];
    } else {
      assert vs[..n] == vs;
    }
  }

  /** Vertices appear in Unique in the order of their first occurrence in the input. */
  lemma UniqueFirstOccurrenceOrder(vs: seq<Vertex>, i: nat, j: nat)
    requires i < j < |Unique(vs)|
    ensures FirstIndex(vs, Unique(vs)[i]) < FirstIndex(vs, Unique(vs)[j])
  {
    UniqueSpec(vs);
    var a := Unique(vs)[i];
    var b := Unique(vs)[j];
    var fb := FirstIndex(vs, b);
    UniquePrefix(vs, fb + 1);
    assert vs[..fb + 1] == vs[..fb] + [b];
    UniqueSpec(vs[..fb]);
    assert b !in vs[..fb];
    assert Unique(vs[..fb + 1]) == Unique(vs[..fb]) + [b] by {
      assert vs[..fb + 1][..fb] == vs[..fb];
    }
    var k := |Unique(vs[..fb])|;
    assert Unique(vs)[j] == b == Unique(vs)[k];
    assert j == k;
    assert a in Unique(vs[..fb]) by {
      assert Unique(vs[..fb + 1])[i] == a;
    }
    assert a in vs[..fb];
    FirstIndexBound(vs, a, fb);
  }

  /** The first position of `v` in `s`. */
  function FirstIndex(s: seq<Vertex>, v: Vertex): (i: nat)
    requires v in s
    ensures i < |s| && s[i] == v
    ensures forall j | 0 <= j < i :: s[j] != v
  {
    if s[0] == v then 0 else 1 + FirstIndex(s[1..], v)
  }

  lemma FirstIndexBound(s: seq<Vertex>, v: Vertex, n: nat)
    requires n <= |s| && v in s[..n]
    ensures FirstIndex(s, v) < n
  {
    var k :| 0 <= k < n && s[..n][k] == v;
    assert s[k] == v;
  }

  /** An index holding `v` with no earlier `v` is the first index of `v`. */
  lemma FirstIndexIs(s: seq<Vertex>, v: Vertex, i: nat)
    requires i < |s| && s[i] == v
    requires forall j | 0 <= j < i :: s[j] != v
    ensures FirstIndex(s, v) == i
  {
  }

  /** Appending to a sequence does not move the first position of an element already in it. */
  lemma FirstIndexAppend(s: seq<Vertex>, y: Vertex, x: Vertex)
    requires x in s
    ensures x in s + [y] && FirstIndex(s + [y], x) == FirstIndex(s, x)
  {
    var i := FirstIndex(s, x);
    FirstIndexIs(s + [y], x, i);
  }

  /** In a sequence without repeats, the first position of an element is its only position. */
  lemma FirstIndexOfDistinct(s: seq<Vertex>, i: nat)
    requires Distinct(s) && i < |s|
    ensures FirstIndex(s, s[i]) == i
  {
  }

  /** The result of `readVerticesFromFile`. */
  datatype Mesh = Mesh(vertices: seq<Vertex>, indices: seq<u32>)

  /**
   * One index per built vertex, naming the first position in `vertices` of a
   * vertex equal to it, cut to 32 bits.
   */
  ghost predicate IndexedBy(built: seq<Vertex>, vertices: seq<Vertex>, indices: seq<u32>)
  {
    |indices| == |built| &&
    forall k | 0 <= k < |built| :: built[k] in vertices && indices[k] == ToU32(FirstIndex(vertices, built[k]))
  }

  /** `uniqueVertices` maps exactly the vertices in `vertices`, each to its first position. */
  ghost predicate PositionMap(uniqueVertices: map<Vertex, nat>, vertices: seq<Vertex>)
  {
    (forall v :: v in uniqueVertices <==> v in vertices) &&
    (forall v | v in uniqueVertices :: uniqueVertices[v] == FirstIndex(vertices, v))
  }

  /**
   * The state of the deduplication loop after the vertices `built`: the
   * unique vertices in order, one index per built vertex naming the first
   * equal vertex, the map from each vertex to that position, and whether the
   * vertex count has reached the 32-bit limit.
   */
  ghost predicate DedupState(built: seq<Vertex>, vertices: seq<Vertex>, indices: seq<u32>,
                             uniqueVertices: map<Vertex, nat>, warned: bool)
  {
    vertices == Unique(built) &&
    IndexedBy(built, vertices, indices) &&
    PositionMap(uniqueVertices, vertices) &&
    (warned <==> |vertices| >= U32Max)
  }

  /** A vertex seen before adds only its earlier position as the next index. */
  lemma DedupStepSeen(built: seq<Vertex>, vertices: seq<Vertex>, indices: seq<u32>,
                      uniqueVertices: map<Vertex, nat>, warned: bool, v: Vertex)
    requires DedupState(built, vertices, indices, uniqueVertices, warned)
    requires v in uniqueVertices
    ensures DedupState(built + [v], vertices, indices + [ToU32(uniqueVertices[v])], uniqueVertices, warned)
  {
    assert (built + [v])[..|built|] == built;
  }

  lemma UniqueStepNew(built: seq<Vertex>, v: Vertex)
    requires v !in Unique(built)
    ensures Unique(built + [v]) == Unique(built) + [v]
  {
    assert (built + [v])[..|built|] == built;
  }

  lemma IndexedByStepNew(built: seq<Vertex>, vertices: seq<Vertex>, indices: seq<u32>, v: Vertex)
    requires IndexedBy(built, vertices, indices) && v !in vertices
    ensures IndexedBy(built + [v], vertices + [v], indices + [ToU32(|vertices|)])
  {
    var built', vertices', indices' := built + [v], vertices + [v], indices + [ToU32(|vertices|)];
    forall k | 0 <= k < |built'|
      ensures built'[k] in vertices' && indices'[k] == ToU32(FirstIndex(vertices', built'[k]))
    {
      if k < |built| {
        FirstIndexAppend(vertices, v, built[k]);
      } else {
        FirstIndexIs(vertices', v, |vertices|);
      }
    }
  }

  lemma PositionMapStepNew(uniqueVertices: map<Vertex, nat>, vertices: seq<Vertex>, v: Vertex)
    requires PositionMap(uniqueVertices, vertices) && v !in vertices
    ensures PositionMap(uniqueVertices[v := |vertices|], vertices + [v])
  {
    var uniqueVertices', vertices' := uniqueVertices[v := |vertices|], vertices + [v];
    forall u | u in uniqueVertices'
      ensures u in vertices' && uniqueVertices'[u] == FirstIndex(vertices', u)
    {
      if u == v {
        FirstIndexIs(vertices', v, |vertices|);
      } else {
        FirstIndexAppend(vertices, v, u);
      }
    }
  }

  /** A vertex seen for the first time is appended and its new position becomes the next index. */
  lemma DedupStepNew(built: seq<Vertex>, vertices: seq<Vertex>, indices: seq<u32>,
                     uniqueVertices: map<Vertex, nat>, warned: bool, v: Vertex)
    requires DedupState(built, vertices, indices, uniqueVertices, warned)
    requires v !in uniqueVertices
    ensures DedupState(built + [v], vertices + [v], indices + [ToU32(|vertices|)],
                       uniqueVertices[v := |vertices|], |vertices + [v]| >= U32Max)
  {
    UniqueStepNew(built, v);
    IndexedByStepNew(built, vertices, indices, v);
    PositionMapStepNew(uniqueVertices, vertices, v);
  }

  /** Building one more in-range mesh index appends its vertex. */
  lemma BuiltStep(attrib: Attributes, done: seq<MeshIndex>, index: MeshIndex)
    requires AllInRange(attrib, done) && InRange(attrib, index)
    ensures AllInRange(attrib, done + [index])
    ensures BuiltVertices(attrib, done + [index]) == BuiltVertices(attrib, done) + [BuildVertex(attrib, index).value]
  {
  }

  /** An out-of-range mesh index inside the flattened list makes the whole list out of range. */
  lemma OutOfRangeSpoilsAll(attrib: Attributes, shapes: seq<Shape>, s: nat, i: nat)
    requires s < |shapes| && i < |shapes[s].indices|
    requires !InRange(attrib, shapes[s].indices[i])
    ensures !AllInRange(attrib, Flatten(shapes))
  {
    FlattenNext(shapes, s);
    FlattenPrefixOf(shapes, s + 1);
    var k := |Flatten(shapes[..s])| + i;
    assert Flatten(shapes)[k] == shapes[s].indices[i];
  }

  /**
   * `readVerticesFromFile` after tinyobj has parsed the file: for every mesh
   * index of every shape in order, build the vertex; append it the first time
   * an equal vertex is seen, remembering its position in `uniqueVertices`; emit
   * that position, cut to 32 bits, as the index. `warned` is whether the
   * too-many-vertices warning fired, which never stops the loop.
   */
  method ReadVertices(attrib: Attributes, shapes: seq<Shape>) returns (r: Result<Mesh>, warned: bool)
    ensures r.Ok? <==> AllInRange(attrib, Flatten(shapes))
    ensures r.Err? ==> r.reason == IndexOutOfRange
    ensures r.Ok? ==>
      var built := BuiltVertices(attrib, Flatten(shapes));
      r.value.vertices == Unique(built) &&
      |r.value.indices| == |built| &&
      (forall k | 0 <= k < |built| ::
        built[k] in r.value.vertices && r.value.indices[k] == ToU32(FirstIndex(r.value.vertices, built[k]))) &&
      (warned <==> |r.value.vertices| >= U32Max)
  {
    var vertices: seq<Vertex> := [];
    var indices: seq<u32> := [];
    var uniqueVertices: map<Vertex, nat> := map[];
    warned := false;
    ghost var done: seq<MeshIndex> := [];
    ghost var built: seq<Vertex> := [];

    for s := 0 to |shapes|
      invariant done == Flatten(shapes[..s])
      invariant AllInRange(attrib, done) && built == BuiltVertices(attrib, done)
      invariant DedupState(built, vertices, indices, uniqueVertices, warned)
    {
      var shape := shapes[s];
      FlattenNext(shapes, s);
      for i := 0 to |shape.indices|
        invariant done == Flatten(shapes[..s]) + shape.indices[..i]
        invariant AllInRange(attrib, done) && built == BuiltVertices(attrib, done)
        invariant DedupState(built, vertices, indices, uniqueVertices, warned)
      {
        var index := shape.indices[i];
        var vertex := BuildVertex(attrib, index);
        if vertex.Err? {
          OutOfRangeSpoilsAll(attrib, shapes, s, i);
          return Err(IndexOutOfRange), warned;
        }
        var v := vertex.value;
        if v !in uniqueVertices {
          DedupStepNew(built, vertices, indices, uniqueVertices, warned, v);
          uniqueVertices := uniqueVertices[v := |vertices|];
          vertices := vertices + [v];
        } else {
          DedupStepSeen(built, vertices, indices, uniqueVertices, warned, v);
        }
        warned := |vertices| >= U32Max;
        indices := indices + [ToU32(uniqueVertices[v])];
        BuiltStep(attrib, done, index);
        SliceStep(Flatten(shapes[..s]), shape.indices, i);
        done := done + [index];
        built := built + [v];
      }
      assert shape.indices[..|shape.indices|] == shape.indices;
    }
    assert shapes[..|shapes|] == shapes;
    r := Ok(Mesh(vertices, indices));
  }

  lemma SliceStep(prefix: seq<MeshIndex>, xs: seq<MeshIndex>, i: nat)
    requires i < |xs|
    ensures prefix + xs[..i + 1] == (prefix + xs[..i]) + [xs[i]]
  {
    assert xs[..i + 1] == xs[..i] + [xs[i]];
  }

  lemma FlattenPrefixOf(shapes: seq<Shape>, n: nat)
    requires n <= |shapes|
    ensures Flatten(shapes[..n]) <= Flatten(shapes)
    decreases |shapes| - n
  {
    if n < |shapes| {
      FlattenPrefixOf(shapes[..|shapes| - 1], n);
      assert shapes[..|shapes| - 1][..n] == shapes[..n];
    } else {
      assert shapes[..n] == shapes;
    }
  }

  /**
   * What `readVerticesFromFile` promises its callers: one index per mesh
   * index; vertices pairwise distinct; and, while the vertex count fits in 32
   * bits, every index is in range and names a vertex equal to the one built
   * for that mesh index.
   */
  lemma IndicesResolve(attrib: Attributes, shapes: seq<Shape>, mesh: Mesh)
    requires AllInRange(attrib, Flatten(shapes))
    requires
      var built := BuiltVertices(attrib, Flatten(shapes));
      mesh.vertices == Unique(built) && |mesh.indices| == |built| &&
      forall k | 0 <= k < |built| ::
        built[k] in mesh.vertices && mesh.indices[k] == ToU32(FirstIndex(mesh.vertices, built[k]))
    requires |mesh.vertices| <= U32Max
    ensures Distinct(mesh.vertices)
    ensures |mesh.indices| == |Flatten(shapes)|
    ensures forall k | 0 <= k < |mesh.indices| ::
      mesh.indices[k] as int < |mesh.vertices| &&
      Ok(mesh.vertices[mesh.indices[k]]) == BuildVertex(attrib, Flatten(shapes)[k])
  {
    var built := BuiltVertices(attrib, Flatten(shapes));
    UniqueSpec(built);
    forall k | 0 <= k < |mesh.indices|
      ensures mesh.indices[k] as int < |mesh.vertices|
      ensures Ok(mesh.vertices[mesh.indices[k]]) == BuildVertex(attrib, Flatten(shapes)[k])
    {
      assert built[k] in built;
      var p := FirstIndex(mesh.vertices, built[k]);
      assert mesh.indices[k] as int == p;
    }
  }
}
