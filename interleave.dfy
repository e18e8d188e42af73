/**
 * The attribute interleaver of set_up_model: for each vertex of a mesh's range
 * it emits position, material colour and texcoord (or zero) as eight floats,
 * and a dense local index.
 */
module Interleave {
  import opened SimpleModels

  /** Modulus of `std::uint32_t`. */
  const U32_MOD: nat := 0x1_0000_0000

  type U32 = x: int | 0 <= x < U32_MOD

  /** `static_cast<uint32_t>` and unsigned wrap-around. */
  function ToU32(n: nat): U32
  {
    n % U32_MOD
  }

  /** Floats per interleaved vertex: position (3), colour (3), texcoord (2). */
  const VertexStride: nat := 8

  /** One vertex as the vertex shader reads it. */
  datatype Vertex = Vertex(position: Vec3, color: Vec3, texcoord: Vec2)

  /** The fixed per-vertex layout. */
  function Encode(v: Vertex): (block: seq<Float>)
    ensures |block| == VertexStride
  {
    [v.position.x, v.position.y, v.position.z,
     v.color.x, v.color.y, v.color.z,
     v.texcoord.x, v.texcoord.y]
  }

  /** Reads one vertex back out of an eight-float block. */
  function Decode(block: seq<Float>): (v: Vertex)
    requires |block| == VertexStride
    ensures Encode(v) == block
  {
    Vertex(Vec3(block[0], block[1], block[2]),
           Vec3(block[3], block[4], block[5]),
           Vec2(block[6], block[7]))
  }

  lemma DecodeEncode(v: Vertex)
    ensures Decode(Encode(v)) == v
  {
  }

  /**
   * The attributes the interleaver emits for absolute vertex `i`: position from
   * the mesh's pool, the material's diffuse colour, and the texcoord at the same
   * absolute index or (0,0) for an untextured mesh.
   */
  function SourceVertex(model: SimpleModel, mesh: MeshInfo, i: nat): Vertex
    requires MeshInRange(model, mesh)
    requires mesh.vertexStartIndex <= i < mesh.vertexStartIndex + mesh.vertexCount
  {
    Vertex(PositionPool(model, mesh)[i],
           model.materials[mesh.materialIndex].diffuseColor,
           if mesh.textured then model.dataTextured.texcoords[i] else Vec2(Zero, Zero))
  }

  /** The interleaved block of the first `n` vertices of the mesh. */
  function InterleavedPrefix(model: SimpleModel, mesh: MeshInfo, n: nat): seq<Float>
    requires MeshInRange(model, mesh) && n <= mesh.vertexCount
  {
    if n == 0 then []
    else InterleavedPrefix(model, mesh, n - 1) + Encode(SourceVertex(model, mesh, mesh.vertexStartIndex + n - 1))
  }

  /** The whole interleaved vertex block of a mesh. */
  function Interleaved(model: SimpleModel, mesh: MeshInfo): seq<Float>
    requires MeshInRange(model, mesh)
  {
    InterleavedPrefix(model, mesh, mesh.vertexCount)
  }

  /** The index block of the first `n` vertices: a running uint32 counter. */
  function LocalIndices(n: nat): seq<U32>
  {
    if n == 0 then [] else LocalIndices(n - 1) + [ToU32(n - 1)]
  }

  lemma {:induction false} InterleavedPrefixLength(model: SimpleModel, mesh: MeshInfo, n: nat)
    requires MeshInRange(model, mesh) && n <= mesh.vertexCount
    ensures |InterleavedPrefix(model, mesh, n)| == VertexStride * n
  {
    if n > 0 {
      InterleavedPrefixLength(model, mesh, n - 1);
    }
  }

  /** Block `k` of any longer prefix is the encoding of local vertex `k`. */
  lemma {:induction false} InterleavedPrefixBlock(model: SimpleModel, mesh: MeshInfo, n: nat, k: nat)
    requires MeshInRange(model, mesh) && n <= mesh.vertexCount && k < n
    ensures |InterleavedPrefix(model, mesh, n)| == VertexStride * n
    ensures InterleavedPrefix(model, mesh, n)[VertexStride * k .. VertexStride * k + VertexStride]
         == Encode(SourceVertex(model, mesh, mesh.vertexStartIndex + k))
  {
    InterleavedPrefixLength(model, mesh, n);
    InterleavedPrefixLength(model, mesh, n - 1);
    var prev := InterleavedPrefix(model, mesh, n - 1);
    var last := Encode(SourceVertex(model, mesh, mesh.vertexStartIndex + n - 1));
    assert InterleavedPrefix(model, mesh, n) == prev + last;
    if k < n - 1 {
      InterleavedPrefixBlock(model, mesh, n - 1, k);
      SliceOfConcatLeft(prev, last, VertexStride * k, VertexStride * k + VertexStride);
    } else {
      assert VertexStride * k == |prev| && VertexStride * k + VertexStride == |prev| + |last|;
      SliceOfConcatRight(prev, last);
    }
  }

  lemma SliceOfConcatLeft<T>(a: seq<T>, b: seq<T>, lo: nat, hi: nat)
    requires lo <= hi <= |a|
    ensures (a + b)[lo..hi] == a[lo..hi]
  {
  }

  lemma SliceOfConcatRight<T>(a: seq<T>, b: seq<T>)
    ensures (a + b)[|a|..|a| + |b|] == b
  {
  }

  /** The eight slots of a block that encodes `v`. */
  lemma BlockSlots(data: seq<Float>, k: nat, v: Vertex)
    requires 8 * k + 8 <= |data| && data[8 * k .. 8 * k + 8] == Encode(v)
    ensures data[8 * k] == v.position.x && data[8 * k + 1] == v.position.y && data[8 * k + 2] == v.position.z
    ensures data[8 * k + 3] == v.color.x && data[8 * k + 4] == v.color.y && data[8 * k + 5] == v.color.z
    ensures data[8 * k + 6] == v.texcoord.x && data[8 * k + 7] == v.texcoord.y
  {
    var block := data[8 * k .. 8 * k + 8];
    assert data[8 * k] == block[0] && data[8 * k + 1] == block[1] && data[8 * k + 2] == block[2];
    assert data[8 * k + 3] == block[3] && data[8 * k + 4] == block[4] && data[8 * k + 5] == block[5];
    assert data[8 * k + 6] == block[6] && data[8 * k + 7] == block[7];
  }

  /** The interleaved block holds exactly eight floats per vertex. */
  lemma InterleavedLength(model: SimpleModel, mesh: MeshInfo)
    requires MeshInRange(model, mesh)
    ensures |Interleaved(model, mesh)| == VertexStride * mesh.vertexCount
  {
    InterleavedPrefixLength(model, mesh, mesh.vertexCount);
  }

  /**
   * Slot layout of local vertex `k`: floats 8k..8k+2 are the position at the
   * absolute index vertexStartIndex + k of the mesh's pool, 8k+3..8k+5 the
   * material's diffuse colour, 8k+6..8k+7 the texcoord at that same absolute
   * index, or two zeros for an untextured mesh.
   */
  lemma InterleavedLayout(model: SimpleModel, mesh: MeshInfo, k: nat)
    requires MeshInRange(model, mesh) && k < mesh.vertexCount
    ensures var data := Interleaved(model, mesh);
            var i := mesh.vertexStartIndex + k;
            var p := PositionPool(model, mesh)[i];
            var c := model.materials[mesh.materialIndex].diffuseColor;
            && |data| == VertexStride * mesh.vertexCount
            && data[8 * k] == p.x && data[8 * k + 1] == p.y && data[8 * k + 2] == p.z
            && data[8 * k + 3] == c.x && data[8 * k + 4] == c.y && data[8 * k + 5] == c.z
            && (mesh.textured ==>
                  data[8 * k + 6] == model.dataTextured.texcoords[i].x
                  && data[8 * k + 7] == model.dataTextured.texcoords[i].y)
            && (!mesh.textured ==> data[8 * k + 6] == Zero && data[8 * k + 7] == Zero)
  {
    InterleavedPrefixBlock(model, mesh, mesh.vertexCount, k);
    var i := mesh.vertexStartIndex + k;
    BlockSlots(Interleaved(model, mesh), k, SourceVertex(model, mesh, i));
  }

  /** Reading local vertex `k` back out of the block gives the source attributes. */
  lemma DecodeInterleaved(model: SimpleModel, mesh: MeshInfo, k: nat)
    requires MeshInRange(model, mesh) && k < mesh.vertexCount
    ensures |Interleaved(model, mesh)| == VertexStride * mesh.vertexCount
    ensures Decode(Interleaved(model, mesh)[VertexStride * k .. VertexStride * k + VertexStride])
         == SourceVertex(model, mesh, mesh.vertexStartIndex + k)
  {
    InterleavedPrefixBlock(model, mesh, mesh.vertexCount, k);
    DecodeEncode(SourceVertex(model, mesh, mesh.vertexStartIndex + k));
  }

  /** The colour triplet is the same for every pair of vertices of a mesh. */
  lemma ColorConstant(model: SimpleModel, mesh: MeshInfo, j: nat, k: nat)
    requires MeshInRange(model, mesh) && j < mesh.vertexCount && k < mesh.vertexCount
    ensures |Interleaved(model, mesh)| == VertexStride * mesh.vertexCount
    ensures Interleaved(model, mesh)[8 * j + 3 .. 8 * j + 6] == Interleaved(model, mesh)[8 * k + 3 .. 8 * k + 6]
  {
    InterleavedLayout(model, mesh, j);
    InterleavedLayout(model, mesh, k);
    var data := Interleaved(model, mesh);
    assert data[8 * j + 3 .. 8 * j + 6] == [data[8 * j + 3], data[8 * j + 4], data[8 * j + 5]];
    assert data[8 * k + 3 .. 8 * k + 6] == [data[8 * k + 3], data[8 * k + 4], data[8 * k + 5]];
  }

  /** Entry `k` of the index block is the counter value `k`, wrapped to 32 bits. */
  lemma {:induction false} LocalIndicesAt(n: nat)
    ensures |LocalIndices(n)| == n
    ensures forall k :: 0 <= k < n ==> LocalIndices(n)[k] == k % U32_MOD
  {
    if n > 0 {
      LocalIndicesAt(n - 1);
    }
  }

  /**
   * While the counter does not wrap, the index block is exactly 0, 1, ..., n-1:
   * no gaps and no index used twice.
   */
  lemma LocalIndicesDense(n: nat)
    requires n <= U32_MOD
    ensures |LocalIndices(n)| == n
    ensures forall k :: 0 <= k < n ==> LocalIndices(n)[k] == k
    ensures forall j, k :: 0 <= j < k < n ==> LocalIndices(n)[j] != LocalIndices(n)[k]
  {
    LocalIndicesAt(n);
  }

  lemma AppendEight<T>(s: seq<T>, a: T, b: T, c: T, d: T, e: T, f: T, g: T, h: T)
    ensures s + [a] + [b] + [c] + [d] + [e] + [f] + [g] + [h] == s + [a, b, c, d, e, f, g, h]
  {
  }

  lemma ToU32Succ(n: nat)
    ensures ToU32(ToU32(n) + 1) == ToU32(n + 1)
  {
  }

  /**
   * The interleaving loop of set_up_model: walks the vertex range, appending
   * eight floats and one index per vertex.
   */
  method InterleaveMesh(model: SimpleModel, mesh: MeshInfo) returns (vertexData: seq<Float>, indexData: seq<U32>)
    requires MeshInRange(model, mesh)
    ensures vertexData == Interleaved(model, mesh)
    ensures indexData == LocalIndices(mesh.vertexCount)
  {
    vertexData, indexData := [], [];
    var index: U32 := 0;
    var dataPos := PositionPool(model, mesh);
    var dataTexcoords := model.dataTextured.texcoords;
    var dataCol := model.materials[mesh.materialIndex].diffuseColor;
    var i := mesh.vertexStartIndex;
    while i < mesh.vertexStartIndex + mesh.vertexCount
      invariant mesh.vertexStartIndex <= i <= mesh.vertexStartIndex + mesh.vertexCount
      invariant vertexData == InterleavedPrefix(model, mesh, i - mesh.vertexStartIndex)
      invariant indexData == LocalIndices(i - mesh.vertexStartIndex)
      invariant index == ToU32(i - mesh.vertexStartIndex)
    {
      ghost var before := vertexData;
      ghost var t := if mesh.textured then dataTexcoords[i] else Vec2(Zero, Zero);
      vertexData := vertexData + [dataPos[i].x];
      vertexData := vertexData + [dataPos[i].y];
      vertexData := vertexData + [dataPos[i].z];
      vertexData := vertexData + [dataCol.x];
      vertexData := vertexData + [dataCol.y];
      vertexData := vertexData + [dataCol.z];
      if mesh.textured {
        vertexData := vertexData + [dataTexcoords[i].x];
        vertexData := vertexData + [dataTexcoords[i].y];
      } else {
        vertexData := vertexData + [Zero];
        vertexData := vertexData + [Zero];
      }
      AppendEight(before, dataPos[i].x, dataPos[i].y, dataPos[i].z, dataCol.x, dataCol.y, dataCol.z, t.x, t.y);
      assert Encode(SourceVertex(model, mesh, i))
          == [dataPos[i].x, dataPos[i].y, dataPos[i].z, dataCol.x, dataCol.y, dataCol.z, t.x, t.y];
      assert InterleavedPrefix(model, mesh, i + 1 - mesh.vertexStartIndex)
          == before + Encode(SourceVertex(model, mesh, i));
      ToU32Succ(i - mesh.vertexStartIndex);
      indexData := indexData + [index];
      index := ToU32(index + 1);
      i := i + 1;
    }
  }

  /** 1.0f. */
  const One: Float := Float(0x3F80_0000)

  /**
   * A three-vertex untextured triangle with material colour (1,0,0) and
   * positions (0,0,0), (1,0,0), (0,1,0).
   */
  const Triangle: SimpleModel := SimpleModel(
    [Material(Vec3(One, Zero, Zero), "")],
    [MeshInfo(false, 0, 0, 3)],
    Attributes([], []),
    Attributes([Vec3(Zero, Zero, Zero), Vec3(One, Zero, Zero), Vec3(Zero, One, Zero)], []))

  /** The three vertices of the triangle, all with the material's red colour. */
  const Red: Vec3 := Vec3(One, Zero, Zero)
  const V0: Vertex := Vertex(Vec3(Zero, Zero, Zero), Red, Vec2(Zero, Zero))
  const V1: Vertex := Vertex(Vec3(One, Zero, Zero), Red, Vec2(Zero, Zero))
  const V2: Vertex := Vertex(Vec3(Zero, One, Zero), Red, Vec2(Zero, Zero))

  lemma TriangleInterleavesVertices()
    ensures MeshInRange(Triangle, Triangle.meshes[0])
    ensures Interleaved(Triangle, Triangle.meshes[0]) == Encode(V0) + Encode(V1) + Encode(V2)
  {
    var mesh := Triangle.meshes[0];
    assert SourceVertex(Triangle, mesh, 0) == V0;
    assert SourceVertex(Triangle, mesh, 1) == V1;
    assert SourceVertex(Triangle, mesh, 2) == V2;
    assert InterleavedPrefix(Triangle, mesh, 1) == Encode(V0);
    assert InterleavedPrefix(Triangle, mesh, 2) == Encode(V0) + Encode(V1);
  }

  /** The triangle interleaves to 24 floats and the index block 0, 1, 2. */
  lemma TriangleScenario()
    ensures MeshInRange(Triangle, Triangle.meshes[0])
    ensures Interleaved(Triangle, Triangle.meshes[0])
         == [Zero, Zero, Zero, One, Zero, Zero, Zero, Zero,
             One, Zero, Zero, One, Zero, Zero, Zero, Zero,
             Zero, One, Zero, One, Zero, Zero, Zero, Zero]
    ensures LocalIndices(3) == [0, 1, 2]
  {
    TriangleInterleavesVertices();
    TriangleBlocks();
    TriangleIndices();
  }

  lemma TriangleBlocks()
    ensures Encode(V0) == [Zero, Zero, Zero, One, Zero, Zero, Zero, Zero]
    ensures Encode(V1) == [One, Zero, Zero, One, Zero, Zero, Zero, Zero]
    ensures Encode(V2) == [Zero, One, Zero, One, Zero, Zero, Zero, Zero]
  {
  }

  lemma TriangleIndices()
    ensures LocalIndices(3) == [0, 1, 2]
  {
  }
}
