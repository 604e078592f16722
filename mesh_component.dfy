/**
 * The mesh component (Source/Core/Entity/MeshComponent.cpp,
 * MeshComponent.h): a component that owns a mesh and a material and, each
 * frame, picks one of three pipelines (emissive, textured, basic) and
 * writes the per-object constants before drawing.
 *
 * The renderer calls Render makes (AllocateObjectIndex,
 * UpdateModelConstants, UpdateMaterialConstants, the three BindFor...
 * pipelines, Mesh::UploadData) have no definition in the repository, so
 * Render returns the calls it makes, in order; the index AllocateObjectIndex
 * hands out is a parameter. Colours are triples of IEEE-754 bit patterns.
 */
module MeshComponents {
  import opened Types
  import Meshes
  import Materials
  import SceneGraph
  import TL = TextureLoader

  /** An XMFLOAT3 colour, each channel as its 32-bit float bit pattern. */
  datatype Rgb = Rgb(r: u32, g: u32, b: u32)

  /** 1.0f. */
  const One: u32 := 0x3F80_0000
  /** 0.7f. */
  const PointSeven: u32 := 0x3F33_3333

  const White: Rgb := Rgb(One, One, One)
  const Gray: Rgb := Rgb(PointSeven, PointSeven, PointSeven)

  /** A call Render makes, with the object index it passes. */
  datatype RenderCall =
    | UploadMesh
    | AllocateObjectIndex
    | UpdateModelConstants(objectIndex: u32)
    | UpdateMaterialConstants(color: Rgb, objectIndex: u32)
    | BindForEmissiveMeshRendering(objectIndex: u32)
    | BindForTexturedMeshRendering(objectIndex: u32)
    | BindMaterial
    | BindForMeshRendering(objectIndex: u32)
    | DrawMesh(indexCount: u32)

  /** The calls that select a pipeline. */
  predicate IsPipelineBind(c: RenderCall)
  {
    c.BindForEmissiveMeshRendering? || c.BindForTexturedMeshRendering? || c.BindForMeshRendering?
  }

  /** A call made through the RHI context by the context overload of Render. */
  datatype ContextCall = ContextBindMaterial | ContextBindMesh | ContextDrawIndexed(indexCount: u32)

  /** The number of times c occurs in calls. */
  function Occurrences(calls: seq<RenderCall>, c: RenderCall): (n: nat)
    ensures n <= |calls|
    ensures n == 0 <==> c !in calls
  {
    if calls == [] then 0
    else (if calls[0] == c then 1 else 0) + Occurrences(calls[1..], c)
  }

  /** Occurrences over a concatenation is the sum over the parts. */
  lemma {:induction false} OccurrencesAppend(a: seq<RenderCall>, b: seq<RenderCall>, c: RenderCall)
    ensures Occurrences(a + b, c) == Occurrences(a, c) + Occurrences(b, c)
  {
    if a == [] {
      assert a + b == b;
    } else {
      assert (a + b)[1..] == a[1..] + b;
      OccurrencesAppend(a[1..], b, c);
    }
  }

  lemma PairOccurrences(a: RenderCall, b: RenderCall, c: RenderCall)
    ensures Occurrences([a, b], c) == (if a == c then 1 else 0) + (if b == c then 1 else 0)
  {
    assert [a, b][1..] == [b];
    assert [b][1..] == [];
  }

  /** A call found once in the middle part and in no other part occurs once in the whole. */
  lemma CountOnce(upload: seq<RenderCall>, head: seq<RenderCall>, pipeline: seq<RenderCall>, tail: seq<RenderCall>, c: RenderCall)
    requires c !in upload && c !in pipeline && c !in tail && Occurrences(head, c) == 1
    ensures Occurrences(upload + head + pipeline + tail, c) == 1
  {
    OccurrencesAppend(upload + head + pipeline, tail, c);
    OccurrencesAppend(upload + head, pipeline, c);
    OccurrencesAppend(upload, head, c);
  }

  /** std::string::find(part) != npos. */
  predicate Finds(s: string, part: string)
  {
    TL.Contains(s, part)
  }

  /** A material whose name mentions "Light" or "Emissive" is rendered as a light source. */
  predicate EmissiveName(n: string)
  {
    Finds(n, "Light") || Finds(n, "Emissive")
  }

  class MeshComponent {
    var mesh: Meshes.Mesh?
    var material: Materials.Material?
    var isVisible: bool
    var castsShadows: bool
    /** m_color (XMFLOAT3), as bit patterns. */
    var color: Rgb
    /** Component::m_owner. */
    var owner: SceneGraph.Entity?
    /** m_cachedTransform (mutable, filled by the const GetTransformComponent). */
    var cachedTransform: SceneGraph.Component?

    /** A material in use keeps its own invariant. */
    ghost predicate Valid()
      reads this`material, material
    {
      material != null ==> material.Valid()
    }

    /** MeshComponent(): no mesh, no material, visible, casting shadows, white, no owner. */
    constructor ()
      ensures Valid()
      ensures mesh == null && material == null && isVisible && castsShadows
      ensures color == White && owner == null && cachedTransform == null
    {
      mesh := null;
      material := null;
      isVisible := true;
      castsShadows := true;
      color := White;
      owner := null;
      cachedTransform := null;
    }

    /** The transform GetTransformComponent yields: the cached one, else the owner's, else none. */
    function Transform(): (t: SceneGraph.Component?)
      reads this, owner
    {
      if cachedTransform != null then cachedTransform
      else if owner == null then null
      else owner.GetComponent(SceneGraph.TransformType)
    }

    /**
     * GetTransformComponent: a cached transform is returned as is; otherwise
     * the owner's TransformComponent is looked up and cached.
     */
    method GetTransformComponent() returns (t: SceneGraph.Component?)
      modifies this`cachedTransform
      ensures t == old(Transform())
      ensures old(cachedTransform) != null ==> cachedTransform == old(cachedTransform)
      ensures old(cachedTransform) == null ==> cachedTransform == t
    {
      if cachedTransform != null {
        return cachedTransform;
      }
      if owner == null {
        return null;
      }
      cachedTransform := owner.GetComponent(SceneGraph.TransformType);
      t := cachedTransform;
    }

    /** m_material && m_material->IsValid(). */
    predicate HasMaterial()
      reads this`material, material
    {
      material != null && material.IsValid()
    }

    /** The render is emissive: a valid material whose name marks it as a light. */
    predicate IsEmissive()
      reads this`material, material
    {
      HasMaterial() && EmissiveName(material.name)
    }

    /** The render is textured: a valid material holding a "DiffuseTexture". */
    predicate HasTextures()
      reads this`material, material
    {
      HasMaterial() && material.GetTexture("DiffuseTexture").Some?
    }

    /** The rgb written for a material: its Float4 "Color" when it has one, white otherwise. */
    function MaterialColor(): (c: Rgb)
      requires Valid() && material != null
      reads this`material, material
    {
      var p := material.GetParameter("Color", Materials.Float4);
      if p.Some? && p.value.Float4Value? then Rgb(p.value.x, p.value.y, p.value.z) else White
    }

    /** Render's early returns: invisible, no mesh, no renderer, no transform, no owner or no scene. */
    predicate Skips(hasRenderer: bool)
      reads this, owner
    {
      !isVisible || mesh == null || !hasRenderer || Transform() == null || owner == null || owner.scene == null
    }

    /** The pipeline part of Render: emissive, else textured, else basic. */
    function PipelineCalls(objectIndex: u32): seq<RenderCall>
      requires Valid()
      reads this`material, material
    {
      if IsEmissive() then
        [UpdateMaterialConstants(MaterialColor(), objectIndex), BindForEmissiveMeshRendering(objectIndex)]
      else if HasTextures() then
        [BindForTexturedMeshRendering(objectIndex), BindMaterial]
      else
        [UpdateMaterialConstants(if HasMaterial() then MaterialColor() else Gray, objectIndex),
         BindForMeshRendering(objectIndex)]
    }

    /** Every call Render(renderer) makes, in order, when AllocateObjectIndex returns objectIndex. */
    function RenderCalls(hasRenderer: bool, objectIndex: u32): seq<RenderCall>
      requires Valid()
      reads this, owner, mesh, material
    {
      if Skips(hasRenderer) then []
      else
        (if mesh.needsUpload then [UploadMesh] else []) +
        [AllocateObjectIndex, UpdateModelConstants(objectIndex)] +
        PipelineCalls(objectIndex) +
        [DrawMesh(mesh.indexCount)]
    }

    /**
     * Render(renderer): the calls RenderCalls describes; the transform
     * lookup fills the cache as GetTransformComponent does.
     */
    method Render(hasRenderer: bool, objectIndex: u32) returns (calls: seq<RenderCall>)
      requires Valid()
      modifies this`cachedTransform
      ensures calls == old(RenderCalls(hasRenderer, objectIndex))
      ensures old(cachedTransform) != null ==> cachedTransform == old(cachedTransform)
    {
      if !isVisible || mesh == null || !hasRenderer {
        return [];
      }
      var transform := GetTransformComponent();
      if transform == null {
        return [];
      }
      if owner == null || owner.scene == null {
        return [];
      }
      calls := if mesh.needsUpload then [UploadMesh] else [];
      calls := calls + [AllocateObjectIndex, UpdateModelConstants(objectIndex)];
      var pipeline := RenderPipeline(objectIndex);
      calls := calls + pipeline + [DrawMesh(mesh.indexCount)];
    }

    /** The pipeline choice inside Render: emissive, textured or basic, with the colour each one writes. */
    method RenderPipeline(objectIndex: u32) returns (calls: seq<RenderCall>)
      requires Valid()
      ensures calls == PipelineCalls(objectIndex)
    {
      calls := [];
      var hasMaterial := material != null && material.IsValid();
      var hasTextures := hasMaterial && material.GetTexture("DiffuseTexture").Some?;
      var isEmissive := hasMaterial && (Finds(material.name, "Light") || Finds(material.name, "Emissive"));
      if isEmissive {
        var materialColor := material.GetParameter("Color", Materials.Float4);
        if materialColor.Some? && materialColor.value.Float4Value? {
          var v := materialColor.value;
          calls := calls + [UpdateMaterialConstants(Rgb(v.x, v.y, v.z), objectIndex)];
        } else {
          calls := calls + [UpdateMaterialConstants(White, objectIndex)];
        }
        calls := calls + [BindForEmissiveMeshRendering(objectIndex)];
      } else if hasTextures {
        calls := calls + [BindForTexturedMeshRendering(objectIndex), BindMaterial];
      } else {
        if hasMaterial {
          var materialColor := material.GetParameter("Color", Materials.Float4);
          if materialColor.Some? && materialColor.value.Float4Value? {
            var v := materialColor.value;
            calls := calls + [UpdateMaterialConstants(Rgb(v.x, v.y, v.z), objectIndex)];
          } else {
            calls := calls + [UpdateMaterialConstants(White, objectIndex)];
          }
        } else {
          calls := calls + [UpdateMaterialConstants(Gray, objectIndex)];
        }
        calls := calls + [BindForMeshRendering(objectIndex)];
      }
    }

    /**
     * Render(context): nothing when invisible, without a mesh or without a
     * transform; otherwise a valid material is bound, then the mesh, then
     * one indexed draw of the mesh's indices.
     */
    method RenderWithContext() returns (calls: seq<ContextCall>)
      modifies this`cachedTransform
      ensures !isVisible || mesh == null || old(Transform()) == null ==> calls == []
      ensures isVisible && mesh != null && old(Transform()) != null ==>
                calls == (if HasMaterial() then [ContextBindMaterial] else []) +
                         [ContextBindMesh, ContextDrawIndexed(mesh.indexCount)]
    {
      if !isVisible || mesh == null {
        return [];
      }
      var transform := GetTransformComponent();
      if transform == null {
        return [];
      }
      calls := [];
      if material != null && material.IsValid() {
        calls := calls + [ContextBindMaterial];
      }
      calls := calls + [ContextBindMesh, ContextDrawIndexed(mesh.indexCount)];
    }

    method SetMesh(m: Meshes.Mesh?)
      modifies this`mesh
      ensures mesh == m
    {
      mesh := m;
    }

    method SetMaterial(m: Materials.Material?)
      requires m != null ==> m.Valid()
      modifies this`material
      ensures material == m && Valid()
    {
      material := m;
    }

    /**
     * CreateCube: without a renderer false, and the mesh is kept; otherwise a
     * new cube mesh, reset to null if its creation fails.
     */
    method CreateCube(hasRenderer: bool) returns (ok: bool)
      modifies this`mesh
      ensures !hasRenderer ==> !ok && mesh == old(mesh)
      ensures hasRenderer && ok ==> mesh != null && fresh(mesh) &&
                                    mesh.vertices == Meshes.CubeVertices && mesh.indices == Meshes.CubeIndices
      ensures hasRenderer && !ok ==> mesh == null
    {
      if !hasRenderer {
        return false;
      }
      var m := new Meshes.Mesh();
      ok := m.CreateCube(hasRenderer);
      mesh := if ok then m else null;
    }

    /**
     * LoadFromFile: without a renderer false, and the mesh is kept; otherwise
     * a new mesh loaded from the imported scene, reset to null on failure.
     */
    method LoadFromFile(hasRenderer: bool, scene: Meshes.AiScene) returns (ok: bool)
      requires scene.AiScene? && |scene.meshes| > 0 ==> Meshes.WellFormed(scene.meshes[0])
      modifies this`mesh
      ensures !hasRenderer ==> !ok && mesh == old(mesh)
      ensures hasRenderer && ok ==> scene.AiScene? && |scene.meshes| > 0 && mesh != null && fresh(mesh) && |mesh.indices| > 0 &&
                                    mesh.indices == Meshes.TriangleIndices(scene.meshes[0].faces)
      ensures hasRenderer && !ok ==> mesh == null
      ensures hasRenderer && (scene.NoScene? || scene.incomplete || !scene.hasRoot || |scene.meshes| == 0) ==> !ok
    {
      if !hasRenderer {
        return false;
      }
      var m := new Meshes.Mesh();
      ok := m.LoadFromFile(scene, hasRenderer);
      mesh := if ok then m else null;
    }
  }

  /** Render does nothing exactly when one of its guards fails. */
  lemma RenderSkipsExactlyOnGuards(c: MeshComponent, hasRenderer: bool, objectIndex: u32)
    requires c.Valid()
    ensures c.RenderCalls(hasRenderer, objectIndex) == [] <==> c.Skips(hasRenderer)
    ensures c.Skips(hasRenderer) ==> AllocateObjectIndex !in c.RenderCalls(hasRenderer, objectIndex)
  {
    if !c.Skips(hasRenderer) {
      assert AllocateObjectIndex in c.RenderCalls(hasRenderer, objectIndex);
    }
  }

  /** The calls of a render that is not skipped, split at the pipeline. */
  lemma RenderShape(c: MeshComponent, hasRenderer: bool, objectIndex: u32)
    requires c.Valid() && !c.Skips(hasRenderer)
    ensures var upload := if c.mesh.needsUpload then [UploadMesh] else [];
            var pipeline := c.PipelineCalls(objectIndex);
            c.RenderCalls(hasRenderer, objectIndex) ==
              upload + [AllocateObjectIndex, UpdateModelConstants(objectIndex)] + pipeline + [DrawMesh(c.mesh.indexCount)] &&
            |pipeline| == 2 && IsPipelineBind(pipeline[0]) != IsPipelineBind(pipeline[1]) &&
            AllocateObjectIndex !in pipeline && !pipeline[0].DrawMesh? && !pipeline[1].DrawMesh? &&
            !pipeline[0].UpdateModelConstants? && !pipeline[1].UpdateModelConstants?
  {
  }

  /**
   * Somewhere in calls the index is allocated and the model constants are
   * written to it by the very next call, with no pipeline bound up to there.
   */
  ghost predicate ModelConstantsFollowAllocation(calls: seq<RenderCall>, objectIndex: u32)
  {
    exists i: nat :: AllocatedAt(calls, objectIndex, i)
  }

  /** calls[i] allocates, calls[i + 1] writes the model constants to objectIndex, and no pipeline is bound up to there. */
  predicate AllocatedAt(calls: seq<RenderCall>, objectIndex: u32, i: nat)
  {
    i + 1 < |calls| && calls[i] == AllocateObjectIndex && calls[i + 1] == UpdateModelConstants(objectIndex) &&
    forall j :: 0 <= j < i + 2 ==> !IsPipelineBind(calls[j])
  }

  /**
   * Exactly one object index is allocated per render, the model constants
   * are written once, to that index, right after it, and before any
   * pipeline is bound.
   */
  lemma {:induction false} OneObjectIndexPerRender(c: MeshComponent, hasRenderer: bool, objectIndex: u32)
    requires c.Valid() && !c.Skips(hasRenderer)
    ensures Occurrences(c.RenderCalls(hasRenderer, objectIndex), AllocateObjectIndex) == 1
    ensures Occurrences(c.RenderCalls(hasRenderer, objectIndex), UpdateModelConstants(objectIndex)) == 1
    ensures ModelConstantsFollowAllocation(c.RenderCalls(hasRenderer, objectIndex), objectIndex)
  {
    RenderShape(c, hasRenderer, objectIndex);
    var upload := if c.mesh.needsUpload then [UploadMesh] else [];
    CallsAllocateOnce(upload, c.PipelineCalls(objectIndex), c.mesh.indexCount, objectIndex);
    assert AllocatedAt(c.RenderCalls(hasRenderer, objectIndex), objectIndex, |upload|);
  }

  /** The shape RenderShape gives allocates once, right before the one model-constants write. */
  lemma CallsAllocateOnce(upload: seq<RenderCall>, pipeline: seq<RenderCall>, indexCount: u32, objectIndex: u32)
    requires upload == [] || upload == [UploadMesh]
    requires |pipeline| == 2 && AllocateObjectIndex !in pipeline
    requires !pipeline[0].UpdateModelConstants? && !pipeline[1].UpdateModelConstants?
    ensures var calls := upload + [AllocateObjectIndex, UpdateModelConstants(objectIndex)] + pipeline + [DrawMesh(indexCount)];
            Occurrences(calls, AllocateObjectIndex) == 1 && Occurrences(calls, UpdateModelConstants(objectIndex)) == 1 &&
            AllocatedAt(calls, objectIndex, |upload|)
  {
    var head := [AllocateObjectIndex, UpdateModelConstants(objectIndex)];
    var tail := [DrawMesh(indexCount)];
    PairOccurrences(AllocateObjectIndex, UpdateModelConstants(objectIndex), AllocateObjectIndex);
    CountOnce(upload, head, pipeline, tail, AllocateObjectIndex);
    PairOccurrences(AllocateObjectIndex, UpdateModelConstants(objectIndex), UpdateModelConstants(objectIndex));
    CountOnce(upload, head, pipeline, tail, UpdateModelConstants(objectIndex));
    var calls := upload + head + pipeline + tail;
    assert calls[|upload|] == AllocateObjectIndex && calls[|upload| + 1] == UpdateModelConstants(objectIndex);
    assert forall j :: 0 <= j < |upload| + 2 ==> !IsPipelineBind(calls[j]);
  }

  /** The emissive pipeline is bound exactly when the material is valid and named as a light. */
  lemma EmissivePath(c: MeshComponent, hasRenderer: bool, objectIndex: u32)
    requires c.Valid()
    ensures BindForEmissiveMeshRendering(objectIndex) in c.RenderCalls(hasRenderer, objectIndex) <==>
              !c.Skips(hasRenderer) && c.material != null && EmissiveName(c.material.name)
  {
  }

  /**
   * The textured pipeline is bound exactly when the render is not emissive
   * and the material has a "DiffuseTexture"; then the material binds its
   * own textures and no material constants are written.
   */
  lemma TexturedPath(c: MeshComponent, hasRenderer: bool, objectIndex: u32)
    requires c.Valid()
    ensures var calls := c.RenderCalls(hasRenderer, objectIndex);
            (BindForTexturedMeshRendering(objectIndex) in calls <==>
               !c.Skips(hasRenderer) && c.material != null && !EmissiveName(c.material.name) &&
               "DiffuseTexture" in c.material.textures) &&
            (BindForTexturedMeshRendering(objectIndex) in calls ==>
               BindMaterial in calls && forall k :: 0 <= k < |calls| ==> !calls[k].UpdateMaterialConstants?)
  {
  }

  /** The basic pipeline is bound exactly when neither of the others is. */
  lemma BasicPath(c: MeshComponent, hasRenderer: bool, objectIndex: u32)
    requires c.Valid()
    ensures var calls := c.RenderCalls(hasRenderer, objectIndex);
            BindForMeshRendering(objectIndex) in calls <==>
              !c.Skips(hasRenderer) && BindForEmissiveMeshRendering(objectIndex) !in calls &&
              BindForTexturedMeshRendering(objectIndex) !in calls
  {
    PipelineBindFromPipeline(c, hasRenderer, objectIndex, BindForMeshRendering(objectIndex));
    PipelineBindFromPipeline(c, hasRenderer, objectIndex, BindForEmissiveMeshRendering(objectIndex));
    PipelineBindFromPipeline(c, hasRenderer, objectIndex, BindForTexturedMeshRendering(objectIndex));
  }

  /** A pipeline bind is among the render calls exactly when the render goes ahead and the pipeline calls hold it. */
  lemma PipelineBindFromPipeline(c: MeshComponent, hasRenderer: bool, objectIndex: u32, x: RenderCall)
    requires c.Valid() && IsPipelineBind(x)
    ensures x in c.RenderCalls(hasRenderer, objectIndex) <==> !c.Skips(hasRenderer) && x in c.PipelineCalls(objectIndex)
  {
    if !c.Skips(hasRenderer) {
      RenderShape(c, hasRenderer, objectIndex);
    }
  }

  /**
   * The colour written with the material constants, always to the
   * allocated index: the material's Float4 "Color" rgb when it has one,
   * white for a material without it, gray 0.7 without a material.
   */
  lemma MaterialColourDefaults(c: MeshComponent, hasRenderer: bool, objectIndex: u32, rgb: Rgb, index: u32)
    requires c.Valid()
    requires UpdateMaterialConstants(rgb, index) in c.RenderCalls(hasRenderer, objectIndex)
    ensures index == objectIndex
    ensures c.material == null ==> rgb == Gray
    ensures c.material != null ==> rgb == ColorParameter(c.material)
  {
    var m := c.material;
    if m != null {
      var p := m.GetParameter("Color", Materials.Float4);
      match m.FindParameter("Color")
      case Some(i) =>
        if m.params[i].ptype == Materials.Float4 {
          assert p == Materials.Read(m.params[i].value, Materials.Float4);
        }
      case None =>
    }
  }

  /**
   * The rgb of a material's "Color": the first three channels when it is a
   * Float4 parameter, white when it is missing or of another type.
   */
  function ColorParameter(m: Materials.Material): Rgb
    requires m.Valid()
    reads m
  {
    var i := m.FindParameter("Color");
    if i.Some? && m.params[i.value].ptype == Materials.Float4 then
      var v := Materials.Read(m.params[i.value].value, Materials.Float4).value;
      Rgb(v.x, v.y, v.z)
    else White
  }

  /** A pending upload is the first call, and the draw of all the mesh's indices is the last and only draw. */
  lemma {:induction false} UploadFirstDrawLast(c: MeshComponent, hasRenderer: bool, objectIndex: u32)
    requires c.Valid() && !c.Skips(hasRenderer)
    ensures var calls := c.RenderCalls(hasRenderer, objectIndex);
            |calls| > 0 &&
            (c.mesh.needsUpload <==> calls[0] == UploadMesh) &&
            calls[|calls| - 1] == DrawMesh(c.mesh.indexCount) &&
            forall k :: 0 <= k < |calls| - 1 ==> !calls[k].DrawMesh?
  {
    RenderShape(c, hasRenderer, objectIndex);
    var calls := c.RenderCalls(hasRenderer, objectIndex);
    var upload := if c.mesh.needsUpload then [UploadMesh] else [];
    var pipeline := c.PipelineCalls(objectIndex);
    forall k | 0 <= k < |calls| - 1
      ensures !calls[k].DrawMesh?
    {
      if k < |upload| {
      } else if k < |upload| + 2 {
        assert calls[k] == [AllocateObjectIndex, UpdateModelConstants(objectIndex)][k - |upload|];
      } else {
        assert calls[k] == pipeline[k - |upload| - 2];
      }
    }
  }
}
