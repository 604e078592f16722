/**
 * The rendering-hardware-interface layer: the engine's resource enums
 * (Source/Rendering/RHI/RHITypes.h), the Direct3D command list the engine
 * records into, and the Direct3D 12 implementation of the context
 * (Source/Rendering/RHI/DX12RHIContext.cpp).
 *
 * DXGI formats and Direct3D topologies are their numeric values from the
 * Windows SDK headers (dxgiformat.h, d3dcommon.h).
 */
module Rhi {
  import opened Types

  datatype ResourceFormat =
    | R32G32B32_Float | R32G32B32A32_Float | R32G32_Float | R32_Float
    | R8G8B8A8_Unorm | R8G8B8A8_Unorm_sRGB | R16_Uint | R32_Uint | D32_Float
    | BC1_Unorm | BC2_Unorm | BC3_Unorm | BC7_Unorm | Unknown

  datatype PrimitiveTopology = TriangleList | TriangleStrip | LineList | LineStrip | PointList

  datatype TextureFilter = Point | Linear | Anisotropic

  datatype TextureAddressMode = Wrap | Mirror | Clamp | Border

  /** DXGI_FORMAT values. */
  const DXGI_FORMAT_UNKNOWN: u32 := 0
  const DXGI_FORMAT_R32G32B32A32_FLOAT: u32 := 2
  const DXGI_FORMAT_R32G32B32_FLOAT: u32 := 6
  const DXGI_FORMAT_R32G32_FLOAT: u32 := 16
  const DXGI_FORMAT_R8G8B8A8_UNORM: u32 := 28
  const DXGI_FORMAT_R8G8B8A8_UNORM_SRGB: u32 := 29
  const DXGI_FORMAT_D32_FLOAT: u32 := 40
  const DXGI_FORMAT_R32_FLOAT: u32 := 41
  const DXGI_FORMAT_R32_UINT: u32 := 42
  const DXGI_FORMAT_R16_UINT: u32 := 57
  const DXGI_FORMAT_BC1_UNORM: u32 := 71
  const DXGI_FORMAT_BC2_UNORM: u32 := 74
  const DXGI_FORMAT_BC3_UNORM: u32 := 77
  const DXGI_FORMAT_BC7_UNORM: u32 := 98

  /** D3D_PRIMITIVE_TOPOLOGY values. */
  const D3D_PRIMITIVE_TOPOLOGY_POINTLIST: u32 := 1
  const D3D_PRIMITIVE_TOPOLOGY_LINELIST: u32 := 2
  const D3D_PRIMITIVE_TOPOLOGY_LINESTRIP: u32 := 3
  const D3D_PRIMITIVE_TOPOLOGY_TRIANGLELIST: u32 := 4
  const D3D_PRIMITIVE_TOPOLOGY_TRIANGLESTRIP: u32 := 5

  /** The formats a vertex, index or depth view can carry through the context. */
  predicate IsBufferFormat(f: ResourceFormat)
  {
    f in {R32G32B32_Float, R32G32B32A32_Float, R32G32_Float, R32_Float,
          R8G8B8A8_Unorm, R16_Uint, R32_Uint, D32_Float}
  }

  /** DX12RHIContext::ConvertTopology: five topologies to five distinct Direct3D topologies. */
  function ConvertTopology(t: PrimitiveTopology): (r: u32)
    ensures r != 0
  {
    match t
    case TriangleList => D3D_PRIMITIVE_TOPOLOGY_TRIANGLELIST
    case TriangleStrip => D3D_PRIMITIVE_TOPOLOGY_TRIANGLESTRIP
    case LineList => D3D_PRIMITIVE_TOPOLOGY_LINELIST
    case LineStrip => D3D_PRIMITIVE_TOPOLOGY_LINESTRIP
    case PointList => D3D_PRIMITIVE_TOPOLOGY_POINTLIST
  }

  lemma ConvertTopologyInjective(a: PrimitiveTopology, b: PrimitiveTopology)
    ensures ConvertTopology(a) == ConvertTopology(b) ==> a == b
  {
  }

  /**
   * DX12RHIContext::ConvertFormat: the eight buffer formats map to their DXGI
   * format; sRGB, the block-compressed formats and Unknown map to UNKNOWN.
   */
  function ConvertFormat(f: ResourceFormat): (r: u32)
    ensures r != DXGI_FORMAT_UNKNOWN <==> IsBufferFormat(f)
  {
    match f
    case R32G32B32_Float => DXGI_FORMAT_R32G32B32_FLOAT
    case R32G32B32A32_Float => DXGI_FORMAT_R32G32B32A32_FLOAT
    case R32G32_Float => DXGI_FORMAT_R32G32_FLOAT
    case R32_Float => DXGI_FORMAT_R32_FLOAT
    case R8G8B8A8_Unorm => DXGI_FORMAT_R8G8B8A8_UNORM
    case R16_Uint => DXGI_FORMAT_R16_UINT
    case R32_Uint => DXGI_FORMAT_R32_UINT
    case D32_Float => DXGI_FORMAT_D32_FLOAT
    case _ => DXGI_FORMAT_UNKNOWN
  }

  lemma ConvertFormatInjectiveOnBufferFormats(a: ResourceFormat, b: ResourceFormat)
    requires IsBufferFormat(a) && IsBufferFormat(b)
    ensures ConvertFormat(a) == ConvertFormat(b) ==> a == b
  {
  }

  /** Views the engine hands to the context (RHITypes.h). A null pointer is None. */
  datatype VertexBufferView = VertexBufferView(location: nat, sizeInBytes: u32, strideInBytes: u32)
  datatype IndexBufferView = IndexBufferView(location: nat, sizeInBytes: u32, format: ResourceFormat)
  datatype ConstantBufferView = ConstantBufferView(location: nat, sizeInBytes: u32)
  /** A texture view whose shader-resource pointer, when set, points at a GPU handle with this ptr. */
  datatype TextureView = TextureView(shaderResourceView: Option<nat>, slot: u32)
  datatype SamplerView = SamplerView(samplerResource: Option<nat>, slot: u32)
  datatype Rect = Rect(left: i32, top: i32, right: i32, bottom: i32)

  /** A command recorded into a Direct3D 12 graphics command list. */
  datatype Command =
    | IASetVertexBuffers(slot: u32, location: nat, sizeInBytes: u32, strideInBytes: u32)
    | IASetIndexBuffer(location: nat, sizeInBytes: u32, dxgiFormat: u32)
    | SetGraphicsRootConstantBufferView(rootParameterIndex: u32, location: nat)
    | SetGraphicsRootDescriptorTable(rootParameterIndex: u32, gpuPtr: nat)
    | SetDescriptorHeaps(count: nat)
    | IASetPrimitiveTopology(topology: u32)
    | RSSetScissorRects(rect: Rect)
    | DrawIndexedInstanced(indexCount: u32, instanceCount: u32, startIndex: u32,
                           baseVertex: i32, startInstance: u32)
    | DrawInstanced(vertexCount: u32, instanceCount: u32, startVertex: u32, startInstance: u32)

  /** The commands a null-safe descriptor-table bind records: nothing for a null handle or ptr 0. */
  function DescriptorTableFor(rootParameterIndex: u32, gpuHandle: Option<nat>): (cs: seq<Command>)
    ensures |cs| <= 1
    ensures |cs| == 1 <==> gpuHandle.Some? && gpuHandle.value != 0
    ensures |cs| == 1 ==> cs[0] == SetGraphicsRootDescriptorTable(rootParameterIndex, gpuHandle.value)
  {
    if gpuHandle.Some? && gpuHandle.value != 0 then [SetGraphicsRootDescriptorTable(rootParameterIndex, gpuHandle.value)]
    else []
  }

  /** An ID3D12GraphicsCommandList, reduced to the commands recorded so far. */
  class CommandList {
    var commands: seq<Command>

    constructor ()
      ensures commands == []
    {
      commands := [];
    }

    method Record(c: Command)
      modifies this
      ensures commands == old(commands) + [c]
    {
      commands := commands + [c];
    }
  }

  /** DX12RHIContext: records into the renderer's command list, which may be null. */
  class DX12RHIContext {
    var commandList: CommandList?

    constructor (list: CommandList?)
      ensures commandList == list
    {
      commandList := list;
    }

    /** SetVertexBuffer: copies location, size and stride unchanged into one view at `slot`. */
    method SetVertexBuffer(slot: u32, view: VertexBufferView)
      requires commandList != null
      modifies commandList
      ensures commandList.commands == old(commandList.commands) +
                [IASetVertexBuffers(slot, view.location, view.sizeInBytes, view.strideInBytes)]
    {
      commandList.Record(IASetVertexBuffers(slot, view.location, view.sizeInBytes, view.strideInBytes));
    }

    /** SetIndexBuffer: copies location and size; the format goes through ConvertFormat. */
    method SetIndexBuffer(view: IndexBufferView)
      requires commandList != null
      modifies commandList
      ensures commandList.commands == old(commandList.commands) +
                [IASetIndexBuffer(view.location, view.sizeInBytes, ConvertFormat(view.format))]
    {
      commandList.Record(IASetIndexBuffer(view.location, view.sizeInBytes, ConvertFormat(view.format)));
    }

    /** SetConstantBuffer: binds the view's GPU address at the root parameter index. */
    method SetConstantBuffer(rootParameterIndex: u32, view: ConstantBufferView)
      requires commandList != null
      modifies commandList
      ensures commandList.commands == old(commandList.commands) +
                [SetGraphicsRootConstantBufferView(rootParameterIndex, view.location)]
    {
      commandList.Record(SetGraphicsRootConstantBufferView(rootParameterIndex, view.location));
    }

    /** SetTexture (view overload): binds only when the shader-resource pointer is set. */
    method SetTexture(slot: u32, view: TextureView)
      requires commandList != null
      modifies commandList
      ensures view.shaderResourceView.None? ==> commandList.commands == old(commandList.commands)
      ensures view.shaderResourceView.Some? ==>
                commandList.commands == old(commandList.commands) +
                  [SetGraphicsRootDescriptorTable(slot, view.shaderResourceView.value)]
    {
      if view.shaderResourceView.Some? {
        commandList.Record(SetGraphicsRootDescriptorTable(slot, view.shaderResourceView.value));
      }
    }

    /** SetSampler (view overload): binds only when the sampler pointer is set. */
    method SetSampler(slot: u32, view: SamplerView)
      requires commandList != null
      modifies commandList
      ensures view.samplerResource.None? ==> commandList.commands == old(commandList.commands)
      ensures view.samplerResource.Some? ==>
                commandList.commands == old(commandList.commands) +
                  [SetGraphicsRootDescriptorTable(slot, view.samplerResource.value)]
    {
      if view.samplerResource.Some? {
        commandList.Record(SetGraphicsRootDescriptorTable(slot, view.samplerResource.value));
      }
    }

    /**
     * SetTexture (GPU handle overload): nothing without a command list, with a
     * null handle, or with a handle whose ptr is 0.
     */
    method SetTextureHandle(slot: u32, gpuHandle: Option<nat>)
      modifies commandList
      ensures commandList != null ==>
                commandList.commands == old(commandList.commands) + DescriptorTableFor(slot, gpuHandle)
    {
      if commandList == null {
        return;
      }
      if gpuHandle.None? {
        return;
      }
      if gpuHandle.value == 0 {
        return;
      }
      commandList.Record(SetGraphicsRootDescriptorTable(slot, gpuHandle.value));
    }

    /** SetSampler (GPU handle overload): binds whenever the handle pointer is non-null. */
    method SetSamplerHandle(slot: u32, gpuHandle: Option<nat>)
      requires commandList != null
      modifies commandList
      ensures gpuHandle.None? ==> commandList.commands == old(commandList.commands)
      ensures gpuHandle.Some? ==>
                commandList.commands == old(commandList.commands) + [SetGraphicsRootDescriptorTable(slot, gpuHandle.value)]
    {
      if gpuHandle.Some? {
        commandList.Record(SetGraphicsRootDescriptorTable(slot, gpuHandle.value));
      }
    }

    method SetPrimitiveTopology(topology: PrimitiveTopology)
      requires commandList != null
      modifies commandList
      ensures commandList.commands == old(commandList.commands) + [IASetPrimitiveTopology(ConvertTopology(topology))]
    {
      commandList.Record(IASetPrimitiveTopology(ConvertTopology(topology)));
    }

    /** SetScissorRect: the four edges are copied unchanged. */
    method SetScissorRect(rect: Rect)
      requires commandList != null
      modifies commandList
      ensures commandList.commands == old(commandList.commands) + [RSSetScissorRects(rect)]
    {
      commandList.Record(RSSetScissorRects(rect));
    }

    /** DrawIndexed: always exactly one instance, starting at instance 0. */
    method DrawIndexed(indexCount: u32, startIndexLocation: u32, baseVertexLocation: i32)
      requires commandList != null
      modifies commandList
      ensures commandList.commands == old(commandList.commands) +
                [DrawIndexedInstanced(indexCount, 1, startIndexLocation, baseVertexLocation, 0)]
    {
      commandList.Record(DrawIndexedInstanced(indexCount, 1, startIndexLocation, baseVertexLocation, 0));
    }

    /** Draw: always exactly one instance, starting at instance 0. */
    method Draw(vertexCount: u32, startVertexLocation: u32)
      requires commandList != null
      modifies commandList
      ensures commandList.commands == old(commandList.commands) +
                [DrawInstanced(vertexCount, 1, startVertexLocation, 0)]
    {
      commandList.Record(DrawInstanced(vertexCount, 1, startVertexLocation, 0));
    }
  }
}
