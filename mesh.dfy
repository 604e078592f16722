/**
 * Meshes (Source/Rendering/Mesh.h, Mesh.cpp): the vertex and index lists, the
 * built-in cube, the copy of the first imported mesh keeping only its
 * triangles, the CreateBuffers guard and the indexed draw.
 *
 * Vertex components are the float values copied unchanged, so they are
 * reals here; nothing computes with them. Assimp's importer is not part of
 * this model: what it returns is a parameter. CreateBuffers creates no GPU
 * resource in the source, so the vertex and index buffer views stay the
 * zero views they are constructed with.
 */
module Meshes {
  import opened Types
  import opened Rhi

  datatype Float3 = Float3(x: real, y: real, z: real)
  datatype Float2 = Float2(x: real, y: real)

  /** Vertex: position, normal, texture coordinate. */
  datatype Vertex = Vertex(position: Float3, normal: Float3, texCoord: Float2)

  function V(px: real, py: real, pz: real, nx: real, ny: real, nz: real, u: real, v: real): Vertex
  {
    Vertex(Float3(px, py, pz), Float3(nx, ny, nz), Float2(u, v))
  }

  /** The cube's 24 vertices: four per face, front, back, top, bottom, right, left. */
  const CubeVertices: seq<Vertex> := [
    V(-1.0, -1.0, 1.0, 0.0, 0.0, 1.0, 0.0, 1.0), V(1.0, -1.0, 1.0, 0.0, 0.0, 1.0, 1.0, 1.0),
    V(1.0, 1.0, 1.0, 0.0, 0.0, 1.0, 1.0, 0.0), V(-1.0, 1.0, 1.0, 0.0, 0.0, 1.0, 0.0, 0.0),

    V(1.0, -1.0, -1.0, 0.0, 0.0, -1.0, 0.0, 1.0), V(-1.0, -1.0, -1.0, 0.0, 0.0, -1.0, 1.0, 1.0),
    V(-1.0, 1.0, -1.0, 0.0, 0.0, -1.0, 1.0, 0.0), V(1.0, 1.0, -1.0, 0.0, 0.0, -1.0, 0.0, 0.0),

    V(-1.0, 1.0, 1.0, 0.0, 1.0, 0.0, 0.0, 1.0), V(1.0, 1.0, 1.0, 0.0, 1.0, 0.0, 1.0, 1.0),
    V(1.0, 1.0, -1.0, 0.0, 1.0, 0.0, 1.0, 0.0), V(-1.0, 1.0, -1.0, 0.0, 1.0, 0.0, 0.0, 0.0),

    V(-1.0, -1.0, -1.0, 0.0, -1.0, 0.0, 0.0, 1.0), V(1.0, -1.0, -1.0, 0.0, -1.0, 0.0, 1.0, 1.0),
    V(1.0, -1.0, 1.0, 0.0, -1.0, 0.0, 1.0, 0.0), V(-1.0, -1.0, 1.0, 0.0, -1.0, 0.0, 0.0, 0.0),

    V(1.0, -1.0, 1.0, 1.0, 0.0, 0.0, 0.0, 1.0), V(1.0, -1.0, -1.0, 1.0, 0.0, 0.0, 1.0, 1.0),
    V(1.0, 1.0, -1.0, 1.0, 0.0, 0.0, 1.0, 0.0), V(1.0, 1.0, 1.0, 1.0, 0.0, 0.0, 0.0, 0.0),

    V(-1.0, -1.0, -1.0, -1.0, 0.0, 0.0, 0.0, 1.0), V(-1.0, -1.0, 1.0, -1.0, 0.0, 0.0, 1.0, 1.0),
    V(-1.0, 1.0, 1.0, -1.0, 0.0, 0.0, 1.0, 0.0), V(-1.0, 1.0, -1.0, -1.0, 0.0, 0.0, 0.0, 0.0)
  ]

  /** The cube's 36 indices, as listed: two triangles per face. */
  const CubeIndices: seq<u32> := [
    0, 1, 2, 2, 3, 0,
    4, 5, 6, 6, 7, 4,
    8, 9, 10, 10, 11, 8,
    12, 13, 14, 14, 15, 12,
    16, 17, 18, 18, 19, 16,
    20, 21, 22, 22, 23, 20
  ]

  /** The two triangles of a quad whose corners are vertices 4f .. 4f + 3. */
  function QuadIndices(f: nat): (s: seq<u32>)
    requires f < 6
    ensures |s| == 6
  {
    [4 * f, 4 * f + 1, 4 * f + 2, 4 * f + 2, 4 * f + 3, 4 * f]
  }

  /** Face f's six entries of the index list. */
  lemma CubeQuad(f: nat)
    requires f < 6
    ensures |CubeIndices| == 36 && CubeIndices[6 * f..6 * f + 6] == QuadIndices(f)
  {
    if f == 0 { FrontQuad(); }
    else if f == 1 { BackQuad(); }
    else if f == 2 { TopQuad(); }
    else if f == 3 { BottomQuad(); }
    else if f == 4 { RightQuad(); }
    else { LeftQuad(); }
  }

  lemma FrontQuad()
    ensures |CubeIndices| == 36 && CubeIndices[0..6] == QuadIndices(0)
  {
    assert CubeIndices[0] == 0 && CubeIndices[1] == 1 && CubeIndices[2] == 2;
    assert CubeIndices[3] == 2 && CubeIndices[4] == 3 && CubeIndices[5] == 0;
  }

  lemma BackQuad()
    ensures |CubeIndices| == 36 && CubeIndices[6..12] == QuadIndices(1)
  {
    assert CubeIndices[6] == 4 && CubeIndices[7] == 5 && CubeIndices[8] == 6;
    assert CubeIndices[9] == 6 && CubeIndices[10] == 7 && CubeIndices[11] == 4;
  }

  lemma TopQuad()
    ensures |CubeIndices| == 36 && CubeIndices[12..18] == QuadIndices(2)
  {
    assert CubeIndices[12] == 8 && CubeIndices[13] == 9 && CubeIndices[14] == 10;
    assert CubeIndices[15] == 10 && CubeIndices[16] == 11 && CubeIndices[17] == 8;
  }

  lemma BottomQuad()
    ensures |CubeIndices| == 36 && CubeIndices[18..24] == QuadIndices(3)
  {
    assert CubeIndices[18] == 12 && CubeIndices[19] == 13 && CubeIndices[20] == 14;
    assert CubeIndices[21] == 14 && CubeIndices[22] == 15 && CubeIndices[23] == 12;
  }

  lemma RightQuad()
    ensures |CubeIndices| == 36 && CubeIndices[24..30] == QuadIndices(4)
  {
    assert CubeIndices[24] == 16 && CubeIndices[25] == 17 && CubeIndices[26] == 18;
    assert CubeIndices[27] == 18 && CubeIndices[28] == 19 && CubeIndices[29] == 16;
  }

  lemma LeftQuad()
    ensures |CubeIndices| == 36 && CubeIndices[30..36] == QuadIndices(5)
  {
    assert CubeIndices[30] == 20 && CubeIndices[31] == 21 && CubeIndices[32] == 22;
    assert CubeIndices[33] == 22 && CubeIndices[34] == 23 && CubeIndices[35] == 20;
  }

  /**
   * The index list is six quads in vertex order: face f is drawn as the
   * triangles (4f, 4f+1, 4f+2) and (4f+2, 4f+3, 4f), so it uses only its own
   * four vertices; the count is a whole number of triangles.
   */
  lemma CubeIndicesAreQuads()
    ensures |CubeVertices| == 24 && |CubeIndices| == 36 && |CubeIndices| % 3 == 0
    ensures forall f: nat, k :: f < 6 && 0 <= k < 6 ==>
              CubeIndices[6 * f..6 * f + 6][k] == QuadIndices(f)[k] && 4 * f <= QuadIndices(f)[k] < 4 * f + 4
  {
    forall f: nat | f < 6
      ensures CubeIndices[6 * f..6 * f + 6] == QuadIndices(f)
    {
      CubeQuad(f);
    }
  }

  function Dot(a: Float3, b: Float3): real
  {
    a.x * b.x + a.y * b.y + a.z * b.z
  }

  /** The outward normal of each face, in the order the faces are listed. */
  function FaceNormal(f: nat): Float3
    requires f < 6
  {
    [Float3(0.0, 0.0, 1.0), Float3(0.0, 0.0, -1.0), Float3(0.0, 1.0, 0.0),
     Float3(0.0, -1.0, 0.0), Float3(1.0, 0.0, 0.0), Float3(-1.0, 0.0, 0.0)][f]
  }

  /** Vertex i lies on face i / 4: it carries that face's normal and lies on its plane (position . normal == 1). */
  lemma CubeVertexOnFace(i: nat)
    requires i < 24
    ensures |CubeVertices| == 24
    ensures CubeVertices[i].normal == FaceNormal(i / 4)
    ensures Dot(CubeVertices[i].position, CubeVertices[i].normal) == 1.0
  {
    var f := i / 4;
    var quad := CubeVertices[4 * f..4 * f + 4];
    assert CubeVertices[i] == quad[i - 4 * f];
    if f == 0 {
      assert quad == CubeVertices[0..4];
    } else if f == 1 {
      assert quad == CubeVertices[4..8];
    } else if f == 2 {
      assert quad == CubeVertices[8..12];
    } else if f == 3 {
      assert quad == CubeVertices[12..16];
    } else if f == 4 {
      assert quad == CubeVertices[16..20];
    } else {
      assert quad == CubeVertices[20..24];
    }
  }

  /**
   * The four vertices of a face share that face's outward normal, every
   * vertex lies on the plane at distance 1 its normal points to, and the six
   * faces have six different normals.
   */
  lemma CubeFacesAreFlat()
    ensures forall i :: 0 <= i < |CubeVertices| ==>
              CubeVertices[i].normal == FaceNormal(i / 4) && Dot(CubeVertices[i].position, CubeVertices[i].normal) == 1.0
    ensures forall f: nat, g: nat :: f < g < 6 ==> FaceNormal(f) != FaceNormal(g)
  {
    forall i | 0 <= i < |CubeVertices|
      ensures CubeVertices[i].normal == FaceNormal(i / 4) && Dot(CubeVertices[i].position, CubeVertices[i].normal) == 1.0
    {
      CubeVertexOnFace(i);
    }
  }

  /** An aiVector3D; texture coordinates use x and y. */
  datatype AiVector = AiVector(x: real, y: real, z: real)

  /**
   * The first mesh of an imported scene: positions, optional normals and
   * optional first texture-coordinate channel (one entry per vertex), and
   * faces as lists of vertex indices.
   */
  datatype AiMesh = AiMesh(
    positions: seq<AiVector>, normals: Option<seq<AiVector>>, texCoords: Option<seq<AiVector>>,
    faces: seq<seq<u32>>)

  /** Assimp gives the normal and texture-coordinate arrays one entry per vertex. */
  predicate WellFormed(m: AiMesh)
  {
    (m.normals.Some? ==> |m.normals.value| == |m.positions|) &&
    (m.texCoords.Some? ==> |m.texCoords.value| == |m.positions|)
  }

  /** What ReadFile returns: null, or a scene with its incomplete flag, root node and meshes. */
  datatype AiScene = NoScene | AiScene(incomplete: bool, hasRoot: bool, meshes: seq<AiMesh>)

  /** Vertex i of the imported mesh: normal (0, 1, 0) and texture coordinate (0, 0) when missing. */
  function ImportedVertex(m: AiMesh, i: nat): Vertex
    requires WellFormed(m) && i < |m.positions|
  {
    var p := m.positions[i];
    var n := if m.normals.Some? then Float3(m.normals.value[i].x, m.normals.value[i].y, m.normals.value[i].z)
             else Float3(0.0, 1.0, 0.0);
    var t := if m.texCoords.Some? then Float2(m.texCoords.value[i].x, m.texCoords.value[i].y)
             else Float2(0.0, 0.0);
    Vertex(Float3(p.x, p.y, p.z), n, t)
  }

  /** The indices of the faces that are triangles, in face order; other faces are dropped. */
  function TriangleIndices(faces: seq<seq<u32>>): (s: seq<u32>)
  {
    if faces == [] then []
    else
      var last := faces[|faces| - 1];
      TriangleIndices(faces[..|faces| - 1]) + (if |last| == 3 then last else [])
  }

  /** The faces with exactly three indices, in order. */
  function Triangles(faces: seq<seq<u32>>): (ts: seq<seq<u32>>)
    ensures forall t :: 0 <= t < |ts| ==> |ts[t]| == 3
  {
    if faces == [] then []
    else
      var last := faces[|faces| - 1];
      Triangles(faces[..|faces| - 1]) + (if |last| == 3 then [last] else [])
  }

  /**
   * The copied index list holds the triangles one after another: its length
   * is three times their number and entries 3t .. 3t + 2 are triangle t.
   */
  lemma {:induction false} TriangleIndicesAreTriangles(faces: seq<seq<u32>>)
    ensures |TriangleIndices(faces)| == 3 * |Triangles(faces)|
    ensures forall t, k :: 0 <= t < |Triangles(faces)| && 0 <= k < 3 ==>
              TriangleIndices(faces)[3 * t + k] == Triangles(faces)[t][k]
  {
    if faces != [] {
      var init := faces[..|faces| - 1];
      TriangleIndicesAreTriangles(init);
      var ts, xs := Triangles(faces), TriangleIndices(faces);
      forall t, k | 0 <= t < |ts| && 0 <= k < 3
        ensures xs[3 * t + k] == ts[t][k]
      {
        if t < |Triangles(init)| {
          assert xs[3 * t + k] == TriangleIndices(init)[3 * t + k];
          assert ts[t] == Triangles(init)[t];
        }
      }
    }
  }

  /** Triangles keeps every three-index face and nothing else. */
  lemma {:induction false} TrianglesAreTheTriangularFaces(faces: seq<seq<u32>>)
    ensures forall t :: 0 <= t < |Triangles(faces)| ==> Triangles(faces)[t] in faces
    ensures forall f :: f in faces && |f| == 3 ==> f in Triangles(faces)
  {
    if faces != [] {
      var init := faces[..|faces| - 1];
      TrianglesAreTheTriangularFaces(init);
      assert faces == init + [faces[|faces| - 1]];
    }
  }

  /** The mesh: vertices, indices, their 32-bit counts and the (never filled) buffer views. */
  class Mesh {
    var vertices: seq<Vertex>
    var indices: seq<u32>
    var vertexCount: u32
    var indexCount: u32
    var needsUpload: bool
    const vertexBufferView: VertexBufferView
    const indexBufferView: IndexBufferView

    /** Mesh(): no vertices, no indices, counts 0, zero views. */
    constructor ()
      ensures vertices == [] && indices == [] && vertexCount == 0 && indexCount == 0 && !needsUpload
      ensures vertexBufferView == VertexBufferView(0, 0, 0) && indexBufferView == IndexBufferView(0, 0, Unknown)
    {
      vertices, indices := [], [];
      vertexCount, indexCount := 0, 0;
      needsUpload := false;
      vertexBufferView := VertexBufferView(0, 0, 0);
      indexBufferView := IndexBufferView(0, 0, Unknown);
    }

    /** The counts are the list sizes cast to 32 bits. */
    ghost predicate CountsMatch()
      reads this
    {
      vertexCount == Wrap32(|vertices|) && indexCount == Wrap32(|indices|)
    }

    /** CreateBuffers: fails exactly when the renderer is null or either list is empty. */
    method CreateBuffers(hasRenderer: bool) returns (ok: bool)
      ensures ok <==> hasRenderer && |vertices| > 0 && |indices| > 0
    {
      if !hasRenderer || |vertices| == 0 || |indices| == 0 {
        return false;
      }
      ok := true;
    }

    /** CreateCubeVertices: the lists become the cube's. */
    method CreateCubeVertices()
      modifies this`vertices, this`indices
      ensures vertices == CubeVertices && indices == CubeIndices
    {
      vertices := CubeVertices;
      indices := CubeIndices;
    }

    /** CreateCube: 24 vertices, 36 indices; it succeeds exactly when there is a renderer. */
    method CreateCube(hasRenderer: bool) returns (ok: bool)
      modifies this`vertices, this`indices, this`vertexCount, this`indexCount
      ensures vertices == CubeVertices && indices == CubeIndices
      ensures vertexCount == 24 && indexCount == 36 && CountsMatch()
      ensures ok == hasRenderer
    {
      vertices, indices := [], [];
      CreateCubeVertices();
      vertexCount := Wrap32(|vertices|);
      indexCount := Wrap32(|indices|);
      ok := CreateBuffers(hasRenderer);
    }

    /**
     * LoadFromFile after the import: a missing or incomplete scene, one with
     * no root node or no mesh fails and leaves the mesh as it was; otherwise
     * the first mesh's vertices are copied with defaults for missing normals
     * and texture coordinates, its triangular faces' indices are copied in
     * order, and the result is CreateBuffers'.
     */
    method LoadFromFile(scene: AiScene, hasRenderer: bool) returns (ok: bool)
      requires scene.AiScene? && |scene.meshes| > 0 ==> WellFormed(scene.meshes[0])
      modifies this`vertices, this`indices, this`vertexCount, this`indexCount
      ensures scene == NoScene || scene.incomplete || !scene.hasRoot || |scene.meshes| == 0 ==>
                !ok && vertices == old(vertices) && indices == old(indices) &&
                vertexCount == old(vertexCount) && indexCount == old(indexCount)
      ensures scene.AiScene? && !scene.incomplete && scene.hasRoot && |scene.meshes| > 0 ==>
                var m := scene.meshes[0];
                |vertices| == |m.positions| &&
                (forall i :: 0 <= i < |vertices| ==> vertices[i] == ImportedVertex(m, i)) &&
                indices == TriangleIndices(m.faces) && CountsMatch() &&
                (ok <==> hasRenderer && |m.positions| > 0 && |indices| > 0)
    {
      if scene == NoScene || scene.incomplete || !scene.hasRoot {
        return false;
      }
      if |scene.meshes| == 0 {
        return false;
      }
      var mesh := scene.meshes[0];
      vertices, indices := [], [];
      var i := 0;
      while i < |mesh.positions|
        invariant 0 <= i <= |mesh.positions| && |vertices| == i && indices == []
        invariant forall j :: 0 <= j < i ==> vertices[j] == ImportedVertex(mesh, j)
      {
        vertices := vertices + [ImportedVertex(mesh, i)];
        i := i + 1;
      }
      var f := 0;
      assert mesh.faces[..0] == [];
      while f < |mesh.faces|
        invariant 0 <= f <= |mesh.faces|
        invariant indices == TriangleIndices(mesh.faces[..f])
        invariant |vertices| == |mesh.positions|
        invariant forall j :: 0 <= j < |vertices| ==> vertices[j] == ImportedVertex(mesh, j)
      {
        assert mesh.faces[..f + 1][..f] == mesh.faces[..f];
        var face := mesh.faces[f];
        if |face| == 3 {
          indices := indices + [face[0], face[1], face[2]];
          assert [face[0], face[1], face[2]] == face;
        }
        f := f + 1;
      }
      assert mesh.faces[..f] == mesh.faces;
      vertexCount := Wrap32(|vertices|);
      indexCount := Wrap32(|indices|);
      ok := CreateBuffers(hasRenderer);
    }

    /**
     * Draw: nothing on a null command list or with no indices; otherwise the
     * vertex view at slot 0, the index view, a triangle list and one indexed
     * draw of all the indices.
     */
    method Draw(commandList: CommandList?)
      modifies commandList
      ensures commandList != null ==>
                commandList.commands == old(commandList.commands) + DrawCommands(indexCount, vertexBufferView, indexBufferView)
    {
      if commandList == null || indexCount == 0 {
        return;
      }
      commandList.Record(IASetVertexBuffers(0, vertexBufferView.location, vertexBufferView.sizeInBytes,
                                            vertexBufferView.strideInBytes));
      commandList.Record(IASetIndexBuffer(indexBufferView.location, indexBufferView.sizeInBytes,
                                          ConvertFormat(indexBufferView.format)));
      commandList.Record(IASetPrimitiveTopology(D3D_PRIMITIVE_TOPOLOGY_TRIANGLELIST));
      commandList.Record(DrawIndexedInstanced(indexCount, 1, 0, 0, 0));
    }

    /** The vertex count is the vertex list's length, reduced to 32 bits. */
    function GetVertexCount(): (r: u32)
      reads this
      requires CountsMatch()
      ensures r == Wrap32(|vertices|)
      ensures |vertices| < U32_MODULUS ==> r == |vertices|
    {
      vertexCount
    }

    /** The index count is the index list's length, reduced to 32 bits. */
    function GetIndexCount(): (r: u32)
      reads this
      requires CountsMatch()
      ensures r == Wrap32(|indices|)
      ensures |indices| < U32_MODULUS ==> r == |indices|
    {
      indexCount
    }
  }

  /** The commands Draw records for a mesh with `indexCount` indices. */
  function DrawCommands(indexCount: u32, vb: VertexBufferView, ib: IndexBufferView): seq<Command>
  {
    if indexCount == 0 then []
    else [IASetVertexBuffers(0, vb.location, vb.sizeInBytes, vb.strideInBytes),
          IASetIndexBuffer(ib.location, ib.sizeInBytes, ConvertFormat(ib.format)),
          IASetPrimitiveTopology(D3D_PRIMITIVE_TOPOLOGY_TRIANGLELIST),
          DrawIndexedInstanced(indexCount, 1, 0, 0, 0)]
  }

  /**
   * A draw is either nothing or exactly one indexed draw of all indices, one
   * instance from index 0, as its last command, after a triangle-list topology.
   */
  lemma DrawIsOneIndexedDraw(indexCount: u32, vb: VertexBufferView, ib: IndexBufferView)
    ensures var cs := DrawCommands(indexCount, vb, ib);
            (cs == [] <==> indexCount == 0) &&
            (cs != [] ==> |cs| == 4 && cs[3] == DrawIndexedInstanced(indexCount, 1, 0, 0, 0) &&
                          cs[2] == IASetPrimitiveTopology(ConvertTopology(TriangleList)) &&
                          forall i :: 0 <= i < 3 ==> !cs[i].DrawIndexedInstanced?)
  {
  }
}
