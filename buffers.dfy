/**
 * GPU buffers bound through the context: the constant buffer
 * (Source/Rendering/Bindable/ConstantBuffer.h), the vertex buffer
 * (Source/Rendering/Bindable/VertexBuffer.h) and the index buffer
 * (Source/Rendering/Bindable/IndexBuffer.cpp).
 *
 * The renderer's CreateConstantBuffer / CreateVertexBuffer /
 * CreateIndexBuffer are not part of this model: their outcome (success, the
 * resource's GPU virtual address, whether the memory was mapped) is a
 * parameter, and a failed creation is taken to leave the resource null.
 * `sizeof(T)` of the template argument is a parameter too.
 */
module Buffers {
  import opened Types
  import opened Rhi

  /** Constant buffers are allocated in multiples of this many bytes. */
  const ConstantBufferAlignment: nat := 256

  /** (size + 255) & ~255: the smallest multiple of 256 that holds `size` bytes. */
  function AlignedSize(size: nat): (r: nat)
    ensures r % ConstantBufferAlignment == 0
    ensures size <= r < size + ConstantBufferAlignment
  {
    (size + 255) / 256 * 256
  }

  /** Masking off the low eight bits rounds down to a multiple of 256, so AlignedSize is the mask expression. */
  lemma MaskIsRoundDown(x: bv64)
    ensures x & !255 == x / 256 * 256
  {
  }

  /** The 64-bit mask expression itself is the smallest multiple of 256 at or above any 32-bit size. */
  lemma MaskedAlignment(size: bv64)
    requires size < 0x1_0000_0000
    ensures var r := (size + 255) & !255; r % 256 == 0 && size <= r && r < size + 256
  {
  }

  /** Any multiple of 256 that holds `size` bytes is at least AlignedSize(size). */
  lemma AlignedSizeIsSmallest(size: nat, m: nat)
    requires m % ConstantBufferAlignment == 0 && size <= m
    ensures AlignedSize(size) <= m
  {
  }

  /** The bytes a buffer of `count` elements of `stride` bytes occupies, truncated to 32 bits by the view. */
  function ViewSize(count: nat, stride: nat): (r: u32)
    ensures count * stride < U32_MODULUS ==> r == count * stride
  {
    Wrap32(count * stride)
  }

  /** The cast keeps only the low 32 bits: 2^30 indices of 4 bytes give a view of 0 bytes. */
  lemma ViewSizeTruncates()
    ensures ViewSize(0x4000_0000, 4) == 0
    ensures ViewSize(0x4000_0001, 4) == 4
  {
  }

  /** ConstantBuffer<T>: one buffer of AlignedSize(sizeof(T)) bytes, kept mapped. */
  class ConstantBuffer<T> {
    var hasBuffer: bool
    var view: ConstantBufferView
    /** m_mappedData is non-null. */
    var mapped: bool
    /** The value last written to the mapped memory, if any. */
    var contents: Option<T>
    const rootParameterIndex: u32
    const debugName: string

    predicate IsValid()
      reads this
    {
      hasBuffer
    }

    /**
     * ConstantBuffer(renderer, rootParameterIndex, debugName): creates the
     * buffer; a failure leaves it invalid.
     */
    constructor (sizeOfT: nat, rootIndex: u32, name: string, createOk: bool, location: nat, mapOk: bool)
      requires AlignedSize(sizeOfT) < U32_MODULUS
      ensures rootParameterIndex == rootIndex && debugName == name
      ensures IsValid() <==> createOk
      ensures createOk ==> view == ConstantBufferView(location, AlignedSize(sizeOfT)) && mapped == mapOk
      ensures !createOk ==> view == ConstantBufferView(0, 0) && !mapped
      ensures contents == None
    {
      rootParameterIndex := rootIndex;
      debugName := name;
      hasBuffer, mapped := false, false;
      view := ConstantBufferView(0, 0);
      contents := None;
      new;
      var _ := CreateBuffer(sizeOfT, createOk, location, mapOk);
    }

    /** CreateBuffer: the view's size is the aligned size; a renderer failure fills nothing. */
    method CreateBuffer(sizeOfT: nat, createOk: bool, location: nat, mapOk: bool) returns (ok: bool)
      requires AlignedSize(sizeOfT) < U32_MODULUS
      modifies this`hasBuffer, this`view, this`mapped
      ensures ok == createOk && hasBuffer == (old(hasBuffer) || createOk)
      ensures createOk ==> view == ConstantBufferView(location, AlignedSize(sizeOfT)) && mapped == mapOk
      ensures !createOk ==> view == old(view) && mapped == old(mapped)
    {
      var alignedSize := AlignedSize(sizeOfT);
      if !createOk {
        return false;
      }
      hasBuffer := true;
      mapped := mapOk;
      view := ConstantBufferView(location, alignedSize);
      ok := true;
    }

    /** Update: overwrites the mapped value when the buffer is valid and mapped; otherwise nothing. */
    method Update(data: T)
      modifies this`contents
      ensures contents == if IsValid() && mapped then Some(data) else old(contents)
    {
      if !IsValid() || !mapped {
        return;
      }
      contents := Some(data);
    }

    /** Bind: the view's address at the configured root parameter; nothing when invalid. */
    method Bind(context: DX12RHIContext)
      requires IsValid() ==> context.commandList != null
      modifies context.commandList
      ensures context.commandList != null ==>
                context.commandList.commands == old(context.commandList.commands) +
                  (if IsValid() then [SetGraphicsRootConstantBufferView(rootParameterIndex, view.location)] else [])
    {
      if !IsValid() {
        return;
      }
      context.SetConstantBuffer(rootParameterIndex, view);
    }
  }

  /** VertexBuffer<V>: a buffer of the vertices, bound at input slot 0. */
  class VertexBuffer<V> {
    var hasBuffer: bool
    var view: VertexBufferView
    /** m_vertexCount: the input length cast to 32 bits, whatever creation does. */
    const vertexCount: u32
    const stride: u32
    const debugName: string

    predicate IsValid()
      reads this
    {
      hasBuffer
    }

    /** VertexBuffer(renderer, vertices, debugName) with sizeof(V) == stride. */
    constructor (vertices: seq<V>, sizeOfV: u32, name: string, createOk: bool, location: nat)
      ensures vertexCount == Wrap32(|vertices|) && stride == sizeOfV && debugName == name
      ensures IsValid() <==> |vertices| > 0 && createOk
      ensures IsValid() ==> view == VertexBufferView(location, ViewSize(|vertices|, sizeOfV), sizeOfV)
      ensures !IsValid() ==> view == VertexBufferView(0, 0, 0)
    {
      vertexCount := Wrap32(|vertices|);
      stride := sizeOfV;
      debugName := name;
      hasBuffer := false;
      view := VertexBufferView(0, 0, 0);
      new;
      var _ := CreateBuffer(vertices, createOk, location);
    }

    /** CreateBuffer: an empty list fails; a renderer failure fails with no view filled. */
    method CreateBuffer(vertices: seq<V>, createOk: bool, location: nat) returns (ok: bool)
      modifies this`hasBuffer, this`view
      ensures ok <==> |vertices| > 0 && createOk
      ensures hasBuffer == (old(hasBuffer) || ok)
      ensures ok ==> view == VertexBufferView(location, ViewSize(|vertices|, stride), stride)
      ensures !ok ==> view == old(view)
    {
      if |vertices| == 0 {
        return false;
      }
      if !createOk {
        return false;
      }
      hasBuffer := true;
      view := VertexBufferView(location, ViewSize(|vertices|, stride), stride);
      ok := true;
    }

    function GetVertexCount(): (r: u32)
      reads this
      ensures r == vertexCount
    {
      vertexCount
    }

    /** Bind: the view at slot 0, only when valid. */
    method Bind(context: DX12RHIContext)
      requires IsValid() ==> context.commandList != null
      modifies context.commandList
      ensures context.commandList != null ==>
                context.commandList.commands == old(context.commandList.commands) +
                  (if IsValid() then [IASetVertexBuffers(0, view.location, view.sizeInBytes, view.strideInBytes)] else [])
    {
      if !IsValid() {
        return;
      }
      context.SetVertexBuffer(0, view);
    }
  }

  /** Bytes per index: the indices are uint32. */
  const IndexSize: nat := 4

  /** IndexBuffer: a buffer of 32-bit indices. */
  class IndexBuffer {
    var hasBuffer: bool
    var view: IndexBufferView
    /** m_indexCount: the input length cast to 32 bits, whatever creation does. */
    const indexCount: u32
    const debugName: string

    predicate IsValid()
      reads this
    {
      hasBuffer
    }

    /** IndexBuffer(renderer, indices, debugName). */
    constructor (indices: seq<u32>, name: string, createOk: bool, location: nat)
      ensures indexCount == Wrap32(|indices|) && debugName == name
      ensures IsValid() <==> |indices| > 0 && createOk
      ensures IsValid() ==> view == IndexBufferView(location, ViewSize(|indices|, IndexSize), R32_Uint)
      ensures !IsValid() ==> view == IndexBufferView(0, 0, R32_Uint)
    {
      indexCount := Wrap32(|indices|);
      debugName := name;
      hasBuffer := false;
      view := IndexBufferView(0, 0, R32_Uint);
      new;
      var _ := CreateBuffer(indices, createOk, location);
    }

    /** CreateBuffer: an empty list fails; otherwise count * 4 bytes in R32_Uint format. */
    method CreateBuffer(indices: seq<u32>, createOk: bool, location: nat) returns (ok: bool)
      modifies this`hasBuffer, this`view
      ensures ok <==> |indices| > 0 && createOk
      ensures hasBuffer == (old(hasBuffer) || ok)
      ensures ok ==> view == IndexBufferView(location, ViewSize(|indices|, IndexSize), R32_Uint)
      ensures !ok ==> view == old(view)
    {
      if |indices| == 0 {
        return false;
      }
      if !createOk {
        return false;
      }
      hasBuffer := true;
      view := IndexBufferView(location, ViewSize(|indices|, IndexSize), R32_Uint);
      ok := true;
    }

    function GetIndexCount(): (r: u32)
      reads this
      ensures r == indexCount
    {
      indexCount
    }

    /** Bind: the view, only when valid. */
    method Bind(context: DX12RHIContext)
      requires IsValid() ==> context.commandList != null
      modifies context.commandList
      ensures context.commandList != null ==>
                context.commandList.commands == old(context.commandList.commands) +
                  (if IsValid() then [IASetIndexBuffer(view.location, view.sizeInBytes, ConvertFormat(view.format))] else [])
    {
      if !IsValid() {
        return;
      }
      context.SetIndexBuffer(view);
    }
  }

  /** A bound index buffer reaches the command list as DXGI_FORMAT_R32_UINT. */
  lemma IndexFormatReachesCommandList()
    ensures ConvertFormat(R32_Uint) == DXGI_FORMAT_R32_UINT
  {
  }
}
