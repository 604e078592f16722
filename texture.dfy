/**
 * GPU textures (Source/Rendering/Bindable/Texture.cpp, Texture.h): format
 * conversion, the creation and upload bookkeeping, and the bind guards.
 *
 * The Direct3D calls are outcomes given as parameters (`DeviceOutcome`);
 * image decoding is done by the TextureLoader module.
 */
module Texture {
  import opened Types
  import opened Rhi

  /** Texture::ConvertToD3D12Format: every engine format has its DXGI twin; Unknown maps to UNKNOWN. */
  function ConvertToD3D12Format(f: ResourceFormat): (r: u32)
    ensures r == DXGI_FORMAT_UNKNOWN <==> f == Unknown
  {
    match f
    case R32G32B32_Float => DXGI_FORMAT_R32G32B32_FLOAT
    case R32G32B32A32_Float => DXGI_FORMAT_R32G32B32A32_FLOAT
    case R32G32_Float => DXGI_FORMAT_R32G32_FLOAT
    case R32_Float => DXGI_FORMAT_R32_FLOAT
    case R8G8B8A8_Unorm => DXGI_FORMAT_R8G8B8A8_UNORM
    case R8G8B8A8_Unorm_sRGB => DXGI_FORMAT_R8G8B8A8_UNORM_SRGB
    case R16_Uint => DXGI_FORMAT_R16_UINT
    case R32_Uint => DXGI_FORMAT_R32_UINT
    case D32_Float => DXGI_FORMAT_D32_FLOAT
    case BC1_Unorm => DXGI_FORMAT_BC1_UNORM
    case BC2_Unorm => DXGI_FORMAT_BC2_UNORM
    case BC3_Unorm => DXGI_FORMAT_BC3_UNORM
    case BC7_Unorm => DXGI_FORMAT_BC7_UNORM
    case Unknown => DXGI_FORMAT_UNKNOWN
  }

  /** Texture::ConvertFromD3D12Format: the inverse table; any other DXGI format gives Unknown. */
  function ConvertFromD3D12Format(code: u32): (f: ResourceFormat)
    ensures f != Unknown ==> ConvertToD3D12Format(f) == code
  {
    if code == DXGI_FORMAT_R32G32B32_FLOAT then R32G32B32_Float
    else if code == DXGI_FORMAT_R32G32B32A32_FLOAT then R32G32B32A32_Float
    else if code == DXGI_FORMAT_R32G32_FLOAT then R32G32_Float
    else if code == DXGI_FORMAT_R32_FLOAT then R32_Float
    else if code == DXGI_FORMAT_R8G8B8A8_UNORM then R8G8B8A8_Unorm
    else if code == DXGI_FORMAT_R8G8B8A8_UNORM_SRGB then R8G8B8A8_Unorm_sRGB
    else if code == DXGI_FORMAT_R16_UINT then R16_Uint
    else if code == DXGI_FORMAT_R32_UINT then R32_Uint
    else if code == DXGI_FORMAT_D32_FLOAT then D32_Float
    else if code == DXGI_FORMAT_BC1_UNORM then BC1_Unorm
    else if code == DXGI_FORMAT_BC2_UNORM then BC2_Unorm
    else if code == DXGI_FORMAT_BC3_UNORM then BC3_Unorm
    else if code == DXGI_FORMAT_BC7_UNORM then BC7_Unorm
    else Unknown
  }

  /** Every engine format except Unknown survives the trip to DXGI and back. */
  lemma FormatRoundTrip(f: ResourceFormat)
    requires f != Unknown
    ensures ConvertFromD3D12Format(ConvertToD3D12Format(f)) == f
  {
  }

  /** A DXGI format outside the table comes back as Unknown, and Unknown goes to UNKNOWN. */
  lemma UnknownFormats(code: u32)
    ensures ConvertToD3D12Format(Unknown) == DXGI_FORMAT_UNKNOWN
    ensures ConvertFromD3D12Format(DXGI_FORMAT_UNKNOWN) == Unknown
    ensures (forall f :: ConvertToD3D12Format(f) != code) ==> ConvertFromD3D12Format(code) == Unknown
  {
  }

  /**
   * The context's buffer-format table agrees with the texture table on the
   * eight buffer formats and drops the rest to UNKNOWN.
   */
  lemma ContextFormatAgreesWithTextureFormat(f: ResourceFormat)
    ensures ConvertFormat(f) == if IsBufferFormat(f) then ConvertToD3D12Format(f) else DXGI_FORMAT_UNKNOWN
  {
  }

  /** The upload size: width * height * 4 bytes, computed in 32-bit arithmetic whatever the format. */
  function StagingSize(width: u32, height: u32): (r: u32)
    ensures width * height * 4 < U32_MODULUS ==> r == width * height * 4
    ensures (width * height * 4 - r) % U32_MODULUS == 0
  {
    Wrap32(width * height * 4)
  }

  /** The parts of RHITextureDesc the texture keeps. */
  datatype TextureDesc = TextureDesc(width: u32, height: u32, mipLevels: u32,
                                     format: ResourceFormat, debugName: string)

  const DefaultTextureDesc: TextureDesc := TextureDesc(1, 1, 1, R8G8B8A8_Unorm, "Texture")

  /** Outcomes of the Direct3D calls CreateTexture makes. */
  datatype DeviceOutcome = DeviceOutcome(
    resourceOk: bool,    // CreateCommittedResource
    heapOk: bool,        // CreateDescriptorHeap for the SRV
    srvGpuPtr: nat,      // GPU address of that heap's first descriptor
    uploadBufferOk: bool,// CreateBuffer for the upload heap
    mapOk: bool,         // Map of the upload buffer
    copyOk: bool)        // CopyUploadToTexture

  /** The fallback colour as written: 0xFF00FFFF. */
  const FallbackColorAsWritten: u32 := 0xFF00_FFFF
  /** The colour the fallback is meant to be (magenta, 255/0/255/255), as a little-endian 32-bit value. */
  const FallbackColor: u32 := 0xFFFF_00FF

  /** As written, the one fallback pixel reads R=255, G=255, B=0, A=255: yellow, not magenta. */
  lemma FallbackPixelAsWrittenIsYellow()
    ensures LittleEndian32(FallbackColorAsWritten) == [255, 255, 0, 255]
  {
  }

  /** The corrected value gives the magenta pixel the rest of the engine uses for "missing". */
  lemma FallbackPixelIsMagenta()
    ensures LittleEndian32(FallbackColor) == [255, 0, 255, 255]
  {
  }

  /** The 1x1 R8G8B8A8 description used when loading from a file fails. */
  function FallbackDesc(debugName: string): (d: TextureDesc)
    ensures d.width == 1 && d.height == 1 && d.format == R8G8B8A8_Unorm && d.mipLevels == 1
    ensures d.debugName == debugName + "_Fallback"
    ensures StagingSize(d.width, d.height) == |LittleEndian32(FallbackColor)|
  {
    TextureDesc(1, 1, 1, R8G8B8A8_Unorm, debugName + "_Fallback")
  }

  class Texture {
    var desc: TextureDesc
    var debugName: string
    /** m_d3d12Texture is non-null. */
    var hasD3DTexture: bool
    /** m_texture.textureResource is non-null: what IsValid reports. */
    var textureResource: bool
    var hasUploadBuffer: bool
    var hasSrvHeap: bool
    var srvGpuPtr: nat
    var slot: u32
    var needsUpload: bool
    /** The bytes last copied into the upload buffer. */
    var staged: seq<u8>

    /** IsValid: the RHI texture has a resource. */
    predicate IsValid()
      reads this
    {
      textureResource
    }

    /** Texture(desc, initialData, debugName): an empty name is replaced by the description's. */
    constructor (d: TextureDesc, initialData: Option<seq<u8>>, name: string, dev: DeviceOutcome)
      requires initialData.Some? ==> |initialData.value| >= StagingSize(d.width, d.height)
      ensures debugName == (if name == [] then d.debugName else name)
      ensures desc == d && slot == 0
      ensures IsValid() <==> dev.resourceOk
      ensures IsValid() && initialData.None? ==> !needsUpload
    {
      debugName := if name == [] then d.debugName else name;
      desc := d;
      hasD3DTexture, textureResource, hasUploadBuffer, hasSrvHeap := false, false, false, false;
      srvGpuPtr, slot := 0, 0;
      needsUpload := false;
      staged := [];
      new;
      var _ := CreateTexture(d, initialData, dev);
    }

    /**
     * Texture(filePath, ...): `loaded` is the image the loader returned. When
     * it is invalid, or creating the texture from it fails, a 1x1 fallback is
     * created instead (with the outcomes `fallbackDev`).
     */
    constructor FromFile(loaded: Option<(u32, u32, seq<u8>)>, generateMips: bool, name: string,
                         dev: DeviceOutcome, fallbackDev: DeviceOutcome)
      requires loaded.Some? ==> |loaded.value.2| >= StagingSize(loaded.value.0, loaded.value.1)
      ensures debugName == name && slot == 0
      ensures var loadedOk := loaded.Some? && dev.resourceOk && dev.heapOk && dev.uploadBufferOk;
              desc == if loadedOk
                      then TextureDesc(loaded.value.0, loaded.value.1, if generateMips then 0 else 1, R8G8B8A8_Unorm, name)
                      else FallbackDesc(name)
      ensures IsValid() <==> (loaded.Some? && dev.resourceOk) || fallbackDev.resourceOk
      ensures var loadedOk := loaded.Some? && dev.resourceOk && dev.heapOk && dev.uploadBufferOk;
              !loadedOk && fallbackDev.resourceOk && fallbackDev.heapOk && fallbackDev.uploadBufferOk && fallbackDev.mapOk ==>
                staged == LittleEndian32(FallbackColor) && needsUpload == !fallbackDev.copyOk
    {
      debugName := name;
      desc := DefaultTextureDesc;
      hasD3DTexture, textureResource, hasUploadBuffer, hasSrvHeap := false, false, false, false;
      srvGpuPtr, slot := 0, 0;
      needsUpload := false;
      staged := [];
      new;
      var ok := LoadFromFile(loaded, generateMips, dev);
      if !ok {
        var _ := CreateTexture(FallbackDesc(debugName), Some(LittleEndian32(FallbackColor)), fallbackDev);
      }
    }

    /** LoadFromFile: an invalid image fails; otherwise an R8G8B8A8 texture of the image's size. */
    method LoadFromFile(loaded: Option<(u32, u32, seq<u8>)>, generateMips: bool, dev: DeviceOutcome) returns (ok: bool)
      requires loaded.Some? ==> |loaded.value.2| >= StagingSize(loaded.value.0, loaded.value.1)
      modifies this
      ensures debugName == old(debugName) && slot == old(slot)
      ensures loaded.None? ==> !ok && unchanged(this)
      ensures loaded.Some? ==> desc == TextureDesc(loaded.value.0, loaded.value.1,
                                                  if generateMips then 0 else 1, R8G8B8A8_Unorm, debugName)
      ensures loaded.Some? && dev.resourceOk ==> IsValid()
      ensures !dev.resourceOk ==> textureResource == old(textureResource)
      ensures ok <==> loaded.Some? && dev.resourceOk && dev.heapOk && dev.uploadBufferOk
    {
      if loaded.None? {
        return false;
      }
      var (w, h, pixels) := loaded.value;
      var d := TextureDesc(w, h, if generateMips then 0 else 1, R8G8B8A8_Unorm, debugName);
      ok := CreateTexture(d, Some(pixels), dev);
    }

    /**
     * CreateTexture: records the description; a failed resource creation
     * fails (and, as ComPtr's address-of does, drops the old Direct3D
     * resource); a failed SRV fails with the texture valid; with initial data
     * the staging bytes are copied and the upload state follows the copy;
     * without data nothing is pending.
     */
    method CreateTexture(d: TextureDesc, initialData: Option<seq<u8>>, dev: DeviceOutcome) returns (ok: bool)
      requires initialData.Some? ==> |initialData.value| >= StagingSize(d.width, d.height)
      modifies this
      ensures desc == d && debugName == old(debugName) && slot == old(slot)
      ensures hasD3DTexture == dev.resourceOk
      ensures !dev.resourceOk ==> !ok && textureResource == old(textureResource)
      ensures !ok || (initialData.Some? && !dev.mapOk) ==> needsUpload == old(needsUpload)
      ensures dev.resourceOk ==> IsValid() && hasSrvHeap == dev.heapOk
      ensures dev.resourceOk && dev.heapOk ==> srvGpuPtr == dev.srvGpuPtr
      ensures ok <==> dev.resourceOk && dev.heapOk && (initialData.Some? ==> dev.uploadBufferOk)
      ensures dev.resourceOk && dev.heapOk && initialData.None? ==> !needsUpload
      ensures ok && initialData.Some? && dev.mapOk ==>
                staged == initialData.value[..StagingSize(d.width, d.height)] && needsUpload == !dev.copyOk
      ensures ok && initialData.Some? && !dev.mapOk ==> needsUpload == old(needsUpload)
    {
      desc := d;
      hasD3DTexture := dev.resourceOk;
      if !dev.resourceOk {
        return false;
      }
      textureResource := true;
      ok := CreateShaderResourceView(dev);
      if !ok {
        return;
      }
      if initialData.Some? {
        var size := StagingSize(d.width, d.height);
        hasUploadBuffer := dev.uploadBufferOk;
        if !dev.uploadBufferOk {
          return false;
        }
        if dev.mapOk {
          staged := initialData.value[..size];
          if dev.copyOk {
            needsUpload := false;
          } else {
            needsUpload := true;
          }
        }
      } else {
        needsUpload := false;
      }
    }

    /** CreateShaderResourceView: needs its heap; takes the heap's first GPU descriptor. */
    method CreateShaderResourceView(dev: DeviceOutcome) returns (ok: bool)
      modifies this`hasSrvHeap, this`srvGpuPtr
      ensures hasSrvHeap == dev.heapOk
      ensures dev.heapOk ==> srvGpuPtr == dev.srvGpuPtr
      ensures !dev.heapOk ==> srvGpuPtr == old(srvGpuPtr)
      ensures ok <==> dev.heapOk && hasD3DTexture
    {
      hasSrvHeap := dev.heapOk;
      if !dev.heapOk {
        return false;
      }
      srvGpuPtr := dev.srvGpuPtr;
      if !hasD3DTexture {
        return false;
      }
      ok := true;
    }

    /** UploadTextureData: needs both buffers; clears the pending flag only after a successful copy. */
    method UploadTextureData(copyOk: bool)
      modifies this`needsUpload
      ensures needsUpload == if hasUploadBuffer && hasD3DTexture && copyOk then false else old(needsUpload)
    {
      if !hasUploadBuffer || !hasD3DTexture {
        return;
      }
      if !copyOk {
        return;
      }
      needsUpload := false;
    }

    /** ForceUpload: nothing unless an upload is pending and both buffers exist. */
    method ForceUpload(copyOk: bool) returns (uploadSize: Option<u32>)
      modifies this`needsUpload
      ensures !old(needsUpload) || !hasUploadBuffer || !hasD3DTexture ==>
                uploadSize == None && needsUpload == old(needsUpload)
      ensures old(needsUpload) && hasUploadBuffer && hasD3DTexture ==>
                uploadSize == Some(StagingSize(desc.width, desc.height)) && needsUpload == !copyOk
    {
      if !needsUpload {
        return None;
      }
      if !hasUploadBuffer || !hasD3DTexture {
        return None;
      }
      var size := StagingSize(desc.width, desc.height);
      UploadTextureData(copyOk);
      uploadSize := Some(size);
    }

    /**
     * UpdateData: the accepted calls are those on a valid texture, with data,
     * for mip 0 and with at least width * height * 4 bytes. Even an accepted
     * call does not change the texture (the update is not implemented).
     */
    method UpdateData(data: Option<seq<u8>>, dataSize: u32, mipLevel: u32) returns (accepted: bool)
      ensures accepted <==> IsValid() && data.Some? && mipLevel == 0 &&
                            dataSize >= StagingSize(desc.width, desc.height)
    {
      if !IsValid() || data.None? {
        return false;
      }
      if mipLevel != 0 {
        return false;
      }
      var expectedSize := StagingSize(desc.width, desc.height);
      if dataSize < expectedSize {
        return false;
      }
      accepted := true;
    }

    /** Cleanup: releases the heap, the upload buffer and the resource; the texture is invalid. */
    method Cleanup()
      modifies this`hasSrvHeap, this`hasUploadBuffer, this`hasD3DTexture, this`textureResource
      ensures !IsValid() && !hasSrvHeap && !hasUploadBuffer && !hasD3DTexture
    {
      hasSrvHeap, hasUploadBuffer, hasD3DTexture := false, false, false;
      textureResource := false;
    }

    method SetSlot(s: u32)
      modifies this`slot
      ensures slot == s
    {
      slot := s;
    }

    /**
     * Bind: nothing for an invalid texture, without a command list or without
     * an SRV heap; otherwise the heap is set, and the texture's descriptor is
     * bound at its slot when its GPU address is not 0.
     */
    method Bind(context: DX12RHIContext)
      modifies context.commandList
      ensures context.commandList != null ==>
                context.commandList.commands == old(context.commandList.commands) +
                  BindCommands(IsValid(), hasSrvHeap, srvGpuPtr, slot)
    {
      if !IsValid() {
        return;
      }
      if hasSrvHeap {
        if context.commandList == null {
          return;
        }
        context.commandList.Record(SetDescriptorHeaps(1));
      } else {
        return;
      }
      if srvGpuPtr != 0 {
        context.SetTextureHandle(slot, Some(srvGpuPtr));
      }
    }
  }

  /** The commands Texture::Bind records into an existing command list. */
  function BindCommands(valid: bool, hasSrvHeap: bool, gpuPtr: nat, slot: u32): (cs: seq<Command>)
  {
    if !valid || !hasSrvHeap then []
    else [SetDescriptorHeaps(1)] + DescriptorTableFor(slot, Some(gpuPtr))
  }

  /** Bind binds a descriptor iff the texture is valid, has its heap, and a non-zero GPU address. */
  lemma BindGuards(valid: bool, hasSrvHeap: bool, gpuPtr: nat, slot: u32)
    ensures (exists i :: 0 <= i < |BindCommands(valid, hasSrvHeap, gpuPtr, slot)| &&
               BindCommands(valid, hasSrvHeap, gpuPtr, slot)[i].SetGraphicsRootDescriptorTable?)
            <==> valid && hasSrvHeap && gpuPtr != 0
    ensures valid && hasSrvHeap && gpuPtr != 0 ==>
              BindCommands(valid, hasSrvHeap, gpuPtr, slot) ==
                [SetDescriptorHeaps(1), SetGraphicsRootDescriptorTable(slot, gpuPtr)]
  {
    var cs := BindCommands(valid, hasSrvHeap, gpuPtr, slot);
    if valid && hasSrvHeap && gpuPtr != 0 {
      assert cs[1].SetGraphicsRootDescriptorTable?;
    }
  }
}
