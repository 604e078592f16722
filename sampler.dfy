/**
 * Texture samplers (Source/Rendering/Bindable/Sampler.cpp, Sampler.h): the
 * filter and address-mode tables, the factory presets, creation and the
 * bind guard.
 *
 * D3D12_FILTER and D3D12_TEXTURE_ADDRESS_MODE are their numeric values from
 * d3d12.h. A filter value packs the mip filter in bits 0-1, the mag filter in
 * bits 2-3 and the min filter in bits 4-5 (0 = point, 1 = linear); 0x40 marks
 * anisotropic and 0x80 the comparison reduction. The descriptor heap
 * creation is an outcome given as a parameter; the float fields of the
 * description (LOD bias and range) are not modelled.
 */
module Samplers {
  import opened Types
  import opened Rhi

  const D3D12_FILTER_MIN_MAG_MIP_POINT: u32 := 0x00
  const D3D12_FILTER_MIN_MAG_POINT_MIP_LINEAR: u32 := 0x01
  const D3D12_FILTER_MIN_MAG_LINEAR_MIP_POINT: u32 := 0x14
  const D3D12_FILTER_MIN_MAG_MIP_LINEAR: u32 := 0x15
  const D3D12_FILTER_ANISOTROPIC: u32 := 0x55
  const D3D12_FILTER_COMPARISON_MIN_MAG_MIP_POINT: u32 := 0x80
  const D3D12_FILTER_COMPARISON_MIN_MAG_LINEAR_MIP_POINT: u32 := 0x94
  const D3D12_FILTER_COMPARISON_MIN_MAG_MIP_LINEAR: u32 := 0x95
  const D3D12_FILTER_COMPARISON_ANISOTROPIC: u32 := 0xD5

  const D3D12_TEXTURE_ADDRESS_MODE_WRAP: u32 := 1
  const D3D12_TEXTURE_ADDRESS_MODE_MIRROR: u32 := 2
  const D3D12_TEXTURE_ADDRESS_MODE_CLAMP: u32 := 3
  const D3D12_TEXTURE_ADDRESS_MODE_BORDER: u32 := 4

  const D3D12_COMPARISON_FUNC_NEVER: u32 := 1

  /** The low bit of a filter's two-bit field: 0 for point, 1 for linear. */
  function FilterBit(f: TextureFilter): nat
  {
    if f == Linear then 1 else 0
  }

  /** The reading of a D3D12_FILTER value the hardware makes (the D3D12_DECODE_* macros). */
  function DecodeMin(filter: u32): nat { filter / 16 % 4 }
  function DecodeMag(filter: u32): nat { filter / 4 % 4 }
  function DecodeMip(filter: u32): nat { filter % 4 }
  predicate DecodeIsComparison(filter: u32) { filter / 128 % 2 == 1 }
  predicate DecodeIsAnisotropic(filter: u32) { filter / 64 % 2 == 1 }

  /**
   * Sampler::ConvertFilter: the decision table, tried in order. The
   * comparison branch has no point-point-linear row, so that combination
   * falls through to its linear-linear-point default.
   */
  function ConvertFilter(min: TextureFilter, mag: TextureFilter, mip: TextureFilter, isComparison: bool): (r: u32)
    ensures DecodeIsComparison(r) <==> isComparison
    ensures DecodeIsAnisotropic(r) <==> (min == Anisotropic || mag == Anisotropic)
  {
    if isComparison then
      if min == Point && mag == Point && mip == Point then D3D12_FILTER_COMPARISON_MIN_MAG_MIP_POINT
      else if min == Linear && mag == Linear && mip == Linear then D3D12_FILTER_COMPARISON_MIN_MAG_MIP_LINEAR
      else if min == Anisotropic || mag == Anisotropic then D3D12_FILTER_COMPARISON_ANISOTROPIC
      else D3D12_FILTER_COMPARISON_MIN_MAG_LINEAR_MIP_POINT
    else
      if min == Point && mag == Point && mip == Point then D3D12_FILTER_MIN_MAG_MIP_POINT
      else if min == Linear && mag == Linear && mip == Linear then D3D12_FILTER_MIN_MAG_MIP_LINEAR
      else if min == Anisotropic || mag == Anisotropic then D3D12_FILTER_ANISOTROPIC
      else if min == Point && mag == Point && mip == Linear then D3D12_FILTER_MIN_MAG_POINT_MIP_LINEAR
      else if min == Linear && mag == Linear && mip == Point then D3D12_FILTER_MIN_MAG_LINEAR_MIP_POINT
      else D3D12_FILTER_MIN_MAG_LINEAR_MIP_POINT
  }

  /** The rows the table spells out: all point, all linear, linear-linear-point, and (regular table only) point-point-linear. */
  predicate IsExactRow(min: TextureFilter, mag: TextureFilter, mip: TextureFilter, isComparison: bool)
  {
    (min == Point && mag == Point && mip == Point) ||
    (min == Linear && mag == Linear && mip == Linear) ||
    (min == Linear && mag == Linear && mip == Point) ||
    (!isComparison && min == Point && mag == Point && mip == Linear)
  }

  /**
   * Without anisotropy, the filter the hardware decodes is the requested
   * one exactly on the table's rows; every other point/linear mix is read as
   * linear min and mag with a point mip.
   */
  lemma ConvertFilterDecodes(min: TextureFilter, mag: TextureFilter, mip: TextureFilter, isComparison: bool)
    requires min != Anisotropic && mag != Anisotropic
    ensures var r := ConvertFilter(min, mag, mip, isComparison);
            IsExactRow(min, mag, mip, isComparison) ==>
              DecodeMin(r) == FilterBit(min) && DecodeMag(r) == FilterBit(mag) && DecodeMip(r) == FilterBit(mip)
    ensures var r := ConvertFilter(min, mag, mip, isComparison);
            !IsExactRow(min, mag, mip, isComparison) ==>
              DecodeMin(r) == 1 && DecodeMag(r) == 1 && DecodeMip(r) == 0
  {
  }

  /** The mip filter plays no part in the anisotropic test. */
  lemma AnisotropyIgnoresMip(min: TextureFilter, mag: TextureFilter, mip1: TextureFilter, mip2: TextureFilter, isComparison: bool)
    requires min == Anisotropic || mag == Anisotropic
    ensures ConvertFilter(min, mag, mip1, isComparison) == ConvertFilter(min, mag, mip2, isComparison)
    ensures ConvertFilter(min, mag, mip1, isComparison) ==
              (if isComparison then D3D12_FILTER_COMPARISON_ANISOTROPIC else D3D12_FILTER_ANISOTROPIC)
  {
  }

  /**
   * The comparison table is the regular one with the comparison bit set,
   * except for point-point-linear, which it does not list.
   */
  lemma ComparisonMirrorsRegular(min: TextureFilter, mag: TextureFilter, mip: TextureFilter)
    ensures !(min == Point && mag == Point && mip == Linear) ==>
              ConvertFilter(min, mag, mip, true) == ConvertFilter(min, mag, mip, false) + 0x80
    ensures min == Point && mag == Point && mip == Linear ==>
              ConvertFilter(min, mag, mip, true) == D3D12_FILTER_COMPARISON_MIN_MAG_LINEAR_MIP_POINT
  {
  }

  /** Sampler::ConvertAddressMode: four modes to four distinct Direct3D modes. */
  function ConvertAddressMode(mode: TextureAddressMode): (r: u32)
    ensures D3D12_TEXTURE_ADDRESS_MODE_WRAP <= r <= D3D12_TEXTURE_ADDRESS_MODE_BORDER
  {
    match mode
    case Wrap => D3D12_TEXTURE_ADDRESS_MODE_WRAP
    case Mirror => D3D12_TEXTURE_ADDRESS_MODE_MIRROR
    case Clamp => D3D12_TEXTURE_ADDRESS_MODE_CLAMP
    case Border => D3D12_TEXTURE_ADDRESS_MODE_BORDER
  }

  lemma ConvertAddressModeInjective(a: TextureAddressMode, b: TextureAddressMode)
    ensures ConvertAddressMode(a) == ConvertAddressMode(b) ==> a == b
  {
  }

  /** RHISamplerDesc without its float fields. */
  datatype SamplerDesc = SamplerDesc(
    minFilter: TextureFilter, magFilter: TextureFilter, mipFilter: TextureFilter,
    addressU: TextureAddressMode, addressV: TextureAddressMode, addressW: TextureAddressMode,
    maxAnisotropy: u32, debugName: string)

  const DefaultSamplerDesc: SamplerDesc := SamplerDesc(Linear, Linear, Linear, Wrap, Wrap, Wrap, 16, "Sampler")

  /** D3D12_SAMPLER_DESC without its float fields. */
  datatype D3D12SamplerDesc = D3D12SamplerDesc(
    filter: u32, addressU: u32, addressV: u32, addressW: u32, maxAnisotropy: u32, comparisonFunc: u32)

  /** The Direct3D description CreateSampler fills in: never a comparison filter. */
  function ToD3D12(d: SamplerDesc): (r: D3D12SamplerDesc)
    ensures !DecodeIsComparison(r.filter) && r.comparisonFunc == D3D12_COMPARISON_FUNC_NEVER
    ensures r.filter == ConvertFilter(d.minFilter, d.magFilter, d.mipFilter, false)
    ensures r.maxAnisotropy == d.maxAnisotropy
  {
    D3D12SamplerDesc(ConvertFilter(d.minFilter, d.magFilter, d.mipFilter, false),
                     ConvertAddressMode(d.addressU), ConvertAddressMode(d.addressV),
                     ConvertAddressMode(d.addressW), d.maxAnisotropy, D3D12_COMPARISON_FUNC_NEVER)
  }

  /** The factory presets: a default description with the named filters and one address mode on all axes. */
  datatype Preset = LinearWrap | LinearClamp | PointWrap | PointClamp | AnisotropicWrap | ShadowComparison

  function PresetDesc(p: Preset, maxAnisotropy: u32, name: string): (d: SamplerDesc)
    ensures d.addressU == d.addressV == d.addressW
    ensures d.debugName == name
    ensures p != AnisotropicWrap ==> d.maxAnisotropy == DefaultSamplerDesc.maxAnisotropy
  {
    match p
    case LinearWrap => SamplerDesc(Linear, Linear, Linear, Wrap, Wrap, Wrap, 16, name)
    case LinearClamp => SamplerDesc(Linear, Linear, Linear, Clamp, Clamp, Clamp, 16, name)
    case PointWrap => SamplerDesc(Point, Point, Point, Wrap, Wrap, Wrap, 16, name)
    case PointClamp => SamplerDesc(Point, Point, Point, Clamp, Clamp, Clamp, 16, name)
    case AnisotropicWrap => SamplerDesc(Anisotropic, Anisotropic, Anisotropic, Wrap, Wrap, Wrap, maxAnisotropy, name)
    case ShadowComparison => SamplerDesc(Linear, Linear, Point, Border, Border, Border, 16, name)
  }

  /** The Direct3D filter and address mode each preset produces. */
  lemma PresetsAsNamed(maxAnisotropy: u32, name: string)
    ensures ToD3D12(PresetDesc(LinearWrap, maxAnisotropy, name)).filter == D3D12_FILTER_MIN_MAG_MIP_LINEAR
    ensures ToD3D12(PresetDesc(LinearWrap, maxAnisotropy, name)).addressU == D3D12_TEXTURE_ADDRESS_MODE_WRAP
    ensures ToD3D12(PresetDesc(LinearClamp, maxAnisotropy, name)).filter == D3D12_FILTER_MIN_MAG_MIP_LINEAR
    ensures ToD3D12(PresetDesc(LinearClamp, maxAnisotropy, name)).addressU == D3D12_TEXTURE_ADDRESS_MODE_CLAMP
    ensures ToD3D12(PresetDesc(PointWrap, maxAnisotropy, name)).filter == D3D12_FILTER_MIN_MAG_MIP_POINT
    ensures ToD3D12(PresetDesc(PointWrap, maxAnisotropy, name)).addressU == D3D12_TEXTURE_ADDRESS_MODE_WRAP
    ensures ToD3D12(PresetDesc(PointClamp, maxAnisotropy, name)).filter == D3D12_FILTER_MIN_MAG_MIP_POINT
    ensures ToD3D12(PresetDesc(PointClamp, maxAnisotropy, name)).addressU == D3D12_TEXTURE_ADDRESS_MODE_CLAMP
    ensures ToD3D12(PresetDesc(AnisotropicWrap, maxAnisotropy, name)).filter == D3D12_FILTER_ANISOTROPIC
    ensures ToD3D12(PresetDesc(AnisotropicWrap, maxAnisotropy, name)).maxAnisotropy == maxAnisotropy
  {
  }

  /**
   * The shadow preset is not a comparison sampler: it gets the plain
   * linear-min/mag, point-mip filter with border addressing.
   */
  lemma ShadowPresetIsNotComparison(name: string)
    ensures var r := ToD3D12(PresetDesc(ShadowComparison, 16, name));
            r.filter == D3D12_FILTER_MIN_MAG_LINEAR_MIP_POINT && !DecodeIsComparison(r.filter) &&
            r.addressU == r.addressV == r.addressW == D3D12_TEXTURE_ADDRESS_MODE_BORDER
  {
  }

  class Sampler {
    var desc: SamplerDesc
    /** m_sampler.samplerResource is non-null. */
    var hasResource: bool
    var hasHeap: bool
    /** m_samplerGpuHandle.ptr. */
    var gpuPtr: nat
    /** The description given to ID3D12Device::CreateSampler, once created. */
    var created: Option<D3D12SamplerDesc>
    var slot: u32
    const debugName: string

    predicate IsValid()
      reads this
    {
      hasResource
    }

    /** Sampler(renderer, desc, debugName): an empty name takes the description's. */
    constructor (d: SamplerDesc, name: string, heapOk: bool, heapGpuPtr: nat)
      ensures debugName == (if name == [] then d.debugName else name)
      ensures desc == d && slot == 0
      ensures IsValid() <==> heapOk
      ensures heapOk ==> gpuPtr == heapGpuPtr && created == Some(ToD3D12(d))
      ensures !heapOk ==> gpuPtr == 0 && created == None
    {
      debugName := if name == [] then d.debugName else name;
      desc := d;
      hasResource, hasHeap := false, false;
      gpuPtr, slot := 0, 0;
      created := None;
      new;
      var _ := CreateSampler(d, heapOk, heapGpuPtr);
    }

    /** CreateSampler: records the description; without a heap it fails before creating anything. */
    method CreateSampler(d: SamplerDesc, heapOk: bool, heapGpuPtr: nat) returns (ok: bool)
      modifies this`desc, this`hasHeap, this`gpuPtr, this`created, this`hasResource
      ensures desc == d && ok == heapOk
      ensures !heapOk ==> hasHeap == old(hasHeap) && gpuPtr == old(gpuPtr) &&
                          created == old(created) && hasResource == old(hasResource)
      ensures heapOk ==> hasHeap && hasResource && gpuPtr == heapGpuPtr && created == Some(ToD3D12(d))
    {
      desc := d;
      if !heapOk {
        return false;
      }
      hasHeap := true;
      gpuPtr := heapGpuPtr;
      created := Some(ToD3D12(d));
      hasResource := true;
      ok := true;
    }

    /** Cleanup: releases the heap; the sampler is invalid (the GPU handle is kept). */
    method Cleanup()
      modifies this`hasHeap, this`hasResource
      ensures !hasHeap && !IsValid()
    {
      hasHeap := false;
      hasResource := false;
    }

    method SetSlot(s: u32)
      modifies this`slot
      ensures slot == s
    {
      slot := s;
    }

    /** Bind: the sampler's descriptor table at its slot, only when valid and the GPU ptr is not 0. */
    method Bind(context: DX12RHIContext)
      requires IsValid() && gpuPtr != 0 ==> context.commandList != null
      modifies context.commandList
      ensures context.commandList != null ==>
                context.commandList.commands == old(context.commandList.commands) +
                  (if IsValid() && gpuPtr != 0 then [SetGraphicsRootDescriptorTable(slot, gpuPtr)] else [])
    {
      if !IsValid() {
        return;
      }
      if gpuPtr != 0 {
        context.SetSamplerHandle(slot, Some(gpuPtr));
      }
    }
  }
}
