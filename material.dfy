/**
 * Materials (Source/Rendering/Material.h, Material.cpp): the parameter
 * layout in the constant buffer, the type-checked setters and getters with
 * their dirty flag, the copy of the values into the mapped buffer, texture
 * assignment and the factory descriptions.
 *
 * Floats are kept as their 32-bit patterns: the material never computes
 * with them, it only stores, reads back and copies them. A parameter's value
 * is the 16 bytes of the MaterialParameterValue union (XMFLOAT4 is its
 * widest member); a setter overwrites the bytes of the member it writes and
 * leaves the rest. The renderer's CreateConstantBuffer is an outcome given
 * as a parameter, and the mapped memory is an array of the buffer's size.
 */
module Materials {
  import opened Types
  import Rhi
  import Tex = Texture
  import Samplers

  datatype ParameterType = Float | Float2 | Float3 | Float4 | Int | Bool | Texture2D | TextureCube | UnknownType

  /** A value a setter writes: floats as their bit patterns. */
  datatype ParamValue =
    | FloatValue(x: u32)
    | Float2Value(x: u32, y: u32)
    | Float3Value(x: u32, y: u32, z: u32)
    | Float4Value(x: u32, y: u32, z: u32, w: u32)
    | IntValue(i: i32)
    | BoolValue(b: bool)

  function TypeOf(v: ParamValue): ParameterType
  {
    match v
    case FloatValue(_) => Float
    case Float2Value(_, _) => Float2
    case Float3Value(_, _, _) => Float3
    case Float4Value(_, _, _, _) => Float4
    case IntValue(_) => Int
    case BoolValue(_) => Bool
  }

  /** The union's bytes. */
  type UnionBytes = s: seq<u8> | |s| == 16 witness [0, 0, 0, 0, 0, 0, 0, 0, 0, 0, 0, 0, 0, 0, 0, 0]

  /** MaterialParameterValue(): floatValue 0.0f, whose bytes are all zero. */
  const ZeroUnion: UnionBytes := [0, 0, 0, 0, 0, 0, 0, 0, 0, 0, 0, 0, 0, 0, 0, 0]

  /** The bytes a setter stores at the start of the union: an int32 in two's complement, a bool as one byte 1/0. */
  function ValueBytes(v: ParamValue): (b: seq<u8>)
    ensures |b| <= 16
  {
    match v
    case FloatValue(x) => LittleEndian32(x)
    case Float2Value(x, y) => LittleEndian32(x) + LittleEndian32(y)
    case Float3Value(x, y, z) => LittleEndian32(x) + LittleEndian32(y) + LittleEndian32(z)
    case Float4Value(x, y, z, w) => LittleEndian32(x) + LittleEndian32(y) + LittleEndian32(z) + LittleEndian32(w)
    case IntValue(i) => LittleEndian32(Wrap32(i))
    case BoolValue(b) => [if b then 1 else 0]
  }

  /** Writing one member of the union: its bytes first, the union's other bytes kept. */
  function Store(u: UnionBytes, v: ParamValue): (r: UnionBytes)
    ensures r[..|ValueBytes(v)|] == ValueBytes(v)
    ensures r[|ValueBytes(v)|..] == u[|ValueBytes(v)|..]
  {
    ValueBytes(v) + u[|ValueBytes(v)|..]
  }

  /** The types GetParameter has an overload for. */
  predicate HasGetter(t: ParameterType)
  {
    t == Float || t == Float3 || t == Float4
  }

  function Word(u: UnionBytes, k: nat): (r: u32)
    requires k < 4
  {
    FromLittleEndian32(u[4 * k..4 * k + 4])
  }

  /** Reading the union as the member of type t, for the types with a getter. */
  function Read(u: UnionBytes, t: ParameterType): (r: Option<ParamValue>)
    ensures r.Some? <==> HasGetter(t)
    ensures r.Some? ==> TypeOf(r.value) == t
  {
    match t
    case Float => Some(FloatValue(Word(u, 0)))
    case Float3 => Some(Float3Value(Word(u, 0), Word(u, 1), Word(u, 2)))
    case Float4 => Some(Float4Value(Word(u, 0), Word(u, 1), Word(u, 2), Word(u, 3)))
    case _ => None
  }

  /** A value stored through a setter reads back unchanged through the matching getter. */
  lemma SetThenGet(u: UnionBytes, v: ParamValue)
    requires HasGetter(TypeOf(v))
    ensures Read(Store(u, v), TypeOf(v)) == Some(v)
  {
    var s := Store(u, v);
    match v
    case FloatValue(x) =>
      assert s[0..4] == LittleEndian32(x);
      LittleEndian32RoundTrip(x);
    case Float3Value(x, y, z) =>
      assert s[0..4] == LittleEndian32(x);
      assert s[4..8] == LittleEndian32(y);
      assert s[8..12] == LittleEndian32(z);
      LittleEndian32RoundTrip(x);
      LittleEndian32RoundTrip(y);
      LittleEndian32RoundTrip(z);
    case Float4Value(x, y, z, w) =>
      assert s[0..4] == LittleEndian32(x);
      assert s[4..8] == LittleEndian32(y);
      assert s[8..12] == LittleEndian32(z);
      assert s[12..16] == LittleEndian32(w);
      LittleEndian32RoundTrip(x);
      LittleEndian32RoundTrip(y);
      LittleEndian32RoundTrip(z);
      LittleEndian32RoundTrip(w);
  }

  /** MaterialParameter: the offset is a byte position in the parameter buffer. */
  datatype MaterialParameter = MaterialParameter(
    name: string, ptype: ParameterType, value: UnionBytes,
    offset: nat, size: u32, textureSlot: u32, samplerSlot: u32)

  /** MaterialParameter(): no name, type Unknown, offset, size and slots 0. */
  const DefaultParameter: MaterialParameter := MaterialParameter("", UnknownType, ZeroUnion, 0, 0, 0, 0)

  /** The bytes of a value of type t the buffer copy writes: 4, 8, 12 or 16, and none for textures and Unknown. */
  function Width(t: ParameterType): nat
  {
    match t
    case Float => 4
    case Float2 => 8
    case Float3 => 12
    case Float4 => 16
    case Int => 4
    case Bool => 4
    case _ => 0
  }

  /** MaterialParameter(name, float): type Float, size sizeof(float). */
  function FloatParameter(name: string, x: u32): (p: MaterialParameter)
    ensures p.name == name && p.ptype == Float && p.size == 4 == Width(Float)
    ensures Read(p.value, Float) == Some(FloatValue(x))
  {
    SetThenGet(ZeroUnion, FloatValue(x));
    MaterialParameter(name, Float, Store(ZeroUnion, FloatValue(x)), 0, 4, 0, 0)
  }

  /** MaterialParameter(name, XMFLOAT3): type Float3, size 12. */
  function Float3Parameter(name: string, x: u32, y: u32, z: u32): (p: MaterialParameter)
    ensures p.name == name && p.ptype == Float3 && p.size == 12 == Width(Float3)
    ensures Read(p.value, Float3) == Some(Float3Value(x, y, z))
  {
    SetThenGet(ZeroUnion, Float3Value(x, y, z));
    MaterialParameter(name, Float3, Store(ZeroUnion, Float3Value(x, y, z)), 0, 12, 0, 0)
  }

  /** MaterialParameter(name, XMFLOAT4): type Float4, size 16. */
  function Float4Parameter(name: string, x: u32, y: u32, z: u32, w: u32): (p: MaterialParameter)
    ensures p.name == name && p.ptype == Float4 && p.size == 16 == Width(Float4)
    ensures Read(p.value, Float4) == Some(Float4Value(x, y, z, w))
  {
    SetThenGet(ZeroUnion, Float4Value(x, y, z, w));
    MaterialParameter(name, Float4, Store(ZeroUnion, Float4Value(x, y, z, w)), 0, 16, 0, 0)
  }

  /** The bytes UpdateParameterBuffer copies for a parameter: a bool goes out as an int32 1 or 0. */
  function Encoded(p: MaterialParameter): (b: seq<u8>)
    ensures |b| == Width(p.ptype)
  {
    match p.ptype
    case Float => p.value[..4]
    case Float2 => p.value[..8]
    case Float3 => p.value[..12]
    case Float4 => p.value[..16]
    case Int => p.value[..4]
    case Bool => LittleEndian32(if p.value[0] != 0 then 1 else 0)
    case _ => []
  }

  /** What a setter wrote reaches the buffer unchanged; a bool as the 32-bit integer 1 or 0. */
  lemma EncodedAfterSet(p: MaterialParameter, v: ParamValue)
    requires p.ptype == TypeOf(v)
    ensures Encoded(p.(value := Store(p.value, v))) ==
              if v.BoolValue? then LittleEndian32(if v.b then 1 else 0) else ValueBytes(v)
  {
  }

  /** (x + 15) & ~15: the next multiple of 16. */
  function Align16(x: nat): (r: nat)
    ensures r % 16 == 0 && x <= r < x + 16
  {
    (x + 15) / 16 * 16
  }

  /** The mask form of the source rounds down to a multiple of 16 exactly as Align16 does. */
  lemma Align16IsMask(x: bv32)
    ensures x & !15 == x / 16 * 16
  {
  }

  /** The running offset after laying out `ps`: each parameter starts at the next 16-byte boundary. */
  function LayoutEnd(ps: seq<MaterialParameter>): nat
  {
    if |ps| == 0 then 0 else Align16(LayoutEnd(ps[..|ps| - 1])) + ps[|ps| - 1].size
  }

  /** The constructor's layout: the parameters with their offsets filled in. */
  function Layout(ps: seq<MaterialParameter>): (r: seq<MaterialParameter>)
    ensures |r| == |ps|
  {
    if |ps| == 0 then []
    else
      var prefix := ps[..|ps| - 1];
      Layout(prefix) + [ps[|ps| - 1].(offset := Align16(LayoutEnd(prefix)))]
  }

  /** m_parameterBufferSize: the running offset rounded up to 16. */
  function ParameterBufferSize(ps: seq<MaterialParameter>): (r: nat)
    ensures r % 16 == 0 && LayoutEnd(ps) <= r
  {
    Align16(LayoutEnd(ps))
  }

  /** Offsets on 16-byte boundaries, each parameter's bytes before the next one's and inside `total`. */
  ghost predicate WellLaidOut(ps: seq<MaterialParameter>, total: nat)
  {
    (forall i :: 0 <= i < |ps| ==> ps[i].offset % 16 == 0 && ps[i].offset + ps[i].size <= total) &&
    (forall i, j :: 0 <= i < j < |ps| ==> ps[i].offset + ps[i].size <= ps[j].offset)
  }

  /** The layout changes nothing but the offsets, and is well laid out within the buffer size. */
  lemma {:induction false} LayoutIsWellLaidOut(ps: seq<MaterialParameter>)
    ensures forall i :: 0 <= i < |ps| ==> Layout(ps)[i] == ps[i].(offset := Layout(ps)[i].offset)
    ensures WellLaidOut(Layout(ps), LayoutEnd(ps))
    ensures WellLaidOut(Layout(ps), ParameterBufferSize(ps))
  {
    if |ps| > 0 {
      var prefix := ps[..|ps| - 1];
      LayoutIsWellLaidOut(prefix);
      var l := Layout(ps);
      assert l[..|ps| - 1] == Layout(prefix);
      var e := LayoutEnd(prefix);
      forall i | 0 <= i < |ps| - 1
        ensures l[i].offset + l[i].size <= e
      {
        assert l[i] == Layout(prefix)[i];
      }
    }
  }

  /** CalculateParameterBufferSize, as written: the sum of the sizes rounded up to 16, without the padding between parameters. */
  function CalculateParameterBufferSize(ps: seq<MaterialParameter>): (r: nat)
    ensures r % 16 == 0
  {
    Align16(SumOfSizes(ps))
  }

  function SumOfSizes(ps: seq<MaterialParameter>): nat
  {
    if |ps| == 0 then 0 else SumOfSizes(ps[..|ps| - 1]) + ps[|ps| - 1].size
  }

  /** The padding only adds bytes: the summed size never exceeds the laid-out size. */
  lemma {:induction false} CalculatedSizeNeverExceedsLayout(ps: seq<MaterialParameter>)
    ensures SumOfSizes(ps) <= LayoutEnd(ps)
    ensures CalculateParameterBufferSize(ps) <= ParameterBufferSize(ps)
  {
    if |ps| > 0 {
      CalculatedSizeNeverExceedsLayout(ps[..|ps| - 1]);
    }
    Align16Monotone(SumOfSizes(ps), LayoutEnd(ps));
  }

  lemma Align16Monotone(a: nat, b: nat)
    requires a <= b
    ensures Align16(a) <= Align16(b)
  {
    assert (a + 15) / 16 <= (b + 15) / 16;
  }

  /** Name lookup: each name maps to the index of its last occurrence. */
  function NameIndex(names: seq<string>): map<string, nat>
  {
    if |names| == 0 then map[]
    else NameIndex(names[..|names| - 1])[names[|names| - 1] := |names| - 1]
  }

  function Names(ps: seq<MaterialParameter>): (r: seq<string>)
    ensures |r| == |ps| && forall i :: 0 <= i < |ps| ==> r[i] == ps[i].name
  {
    seq(|ps|, i requires 0 <= i < |ps| => ps[i].name)
  }

  /** Every name is found, at an index holding it, and no later index holds it: a later duplicate shadows an earlier one. */
  lemma {:induction false} NameIndexFindsLastOccurrence(names: seq<string>)
    ensures forall n :: n in NameIndex(names) <==> n in names
    ensures forall n :: n in NameIndex(names) ==>
              NameIndex(names)[n] < |names| && names[NameIndex(names)[n]] == n &&
              forall j :: NameIndex(names)[n] < j < |names| ==> names[j] != n
  {
    if |names| > 0 {
      var prefix := names[..|names| - 1];
      NameIndexFindsLastOccurrence(prefix);
      forall n ensures n in names <==> n in prefix || n == names[|names| - 1] {
        if n in names {
          var k :| 0 <= k < |names| && names[k] == n;
          if k < |names| - 1 {
            assert prefix[k] == n;
          }
        }
      }
    }
  }

  /** The constructor's name-to-index loop. */
  method BuildNameIndex(ps: seq<MaterialParameter>) returns (m: map<string, nat>)
    ensures m == NameIndex(Names(ps))
  {
    m := map[];
    var i := 0;
    while i < |ps|
      invariant 0 <= i <= |ps|
      invariant m == NameIndex(Names(ps)[..i])
    {
      assert Names(ps)[..i + 1][..i] == Names(ps)[..i];
      m := m[ps[i].name := i];
      i := i + 1;
    }
    assert Names(ps)[..|ps|] == Names(ps);
  }

  /** The constructor's layout loop: a running offset aligned before each parameter, then rounded up for the total. */
  method ComputeLayout(ps: seq<MaterialParameter>) returns (laid: seq<MaterialParameter>, bufferSize: nat)
    ensures laid == Layout(ps) && bufferSize == ParameterBufferSize(ps)
  {
    laid := [];
    var currentOffset := 0;
    var i := 0;
    while i < |ps|
      invariant 0 <= i <= |ps|
      invariant laid == Layout(ps[..i]) && currentOffset == LayoutEnd(ps[..i])
    {
      assert ps[..i + 1][..i] == ps[..i];
      currentOffset := Align16(currentOffset);
      laid := laid + [ps[i].(offset := currentOffset)];
      currentOffset := currentOffset + ps[i].size;
      i := i + 1;
    }
    assert ps[..|ps|] == ps;
    bufferSize := Align16(currentOffset);
  }

  /** `bytes` copied into `buf` at `at`; bytes that would fall past the end are not kept. */
  function Overwrite(buf: seq<u8>, at: nat, bytes: seq<u8>): (r: seq<u8>)
    ensures |r| == |buf|
    ensures forall k :: 0 <= k < |buf| && !(at <= k < at + |bytes|) ==> r[k] == buf[k]
    ensures forall k :: 0 <= k < |bytes| && at + k < |buf| ==> r[at + k] == bytes[k]
  {
    seq(|buf|, k requires 0 <= k < |buf| => if at <= k < at + |bytes| then bytes[k - at] else buf[k])
  }

  /** One copy into the parameter buffer: the bytes and the offset they go to. */
  datatype Copy = Copy(at: nat, bytes: seq<u8>)

  /** The copies UpdateParameterBuffer makes: each parameter's encoded value at its offset, in order. */
  function CopiesOf(ps: seq<MaterialParameter>): (cs: seq<Copy>)
    ensures |cs| == |ps|
    ensures forall i :: 0 <= i < |ps| ==> cs[i] == Copy(ps[i].offset, Encoded(ps[i]))
  {
    seq(|ps|, i requires 0 <= i < |ps| => Copy(ps[i].offset, Encoded(ps[i])))
  }

  /** The buffer after the first n copies, in order. */
  function ApplyCopies(buf: seq<u8>, cs: seq<Copy>, n: nat): (r: seq<u8>)
    requires n <= |cs|
    ensures |r| == |buf|
  {
    if n == 0 then buf else Overwrite(ApplyCopies(buf, cs, n - 1), cs[n - 1].at, cs[n - 1].bytes)
  }

  /** The buffer after copying every parameter, in order, at its offset. */
  function WriteAll(buf: seq<u8>, ps: seq<MaterialParameter>): (r: seq<u8>)
    ensures |r| == |buf|
  {
    ApplyCopies(buf, CopiesOf(ps), |ps|)
  }

  /** Each parameter's slot is wide enough for the bytes its type writes. */
  predicate SizesCoverValues(ps: seq<MaterialParameter>)
  {
    forall i :: 0 <= i < |ps| ==> Width(ps[i].ptype) <= ps[i].size
  }

  /**
   * After the copy, a well laid-out buffer holds every parameter's encoded
   * value at its offset: the slots do not overlap and fit the buffer.
   */
  lemma BufferHoldsEveryParameter(buf: seq<u8>, ps: seq<MaterialParameter>, i: nat, k: nat)
    requires WellLaidOut(ps, |buf|) && SizesCoverValues(ps)
    requires i < |ps| && k < Width(ps[i].ptype)
    ensures ps[i].offset + k < |buf|
    ensures WriteAll(buf, ps)[ps[i].offset + k] == Encoded(ps[i])[k]
  {
    var cs := CopiesOf(ps);
    CopiesDoNotOverlap(ps, |buf|, i, cs);
    CopyHeld(buf, cs, |cs|, i, k);
  }

  /** In a good layout, copy i fits the buffer and every later copy starts at or after its end. */
  lemma CopiesDoNotOverlap(ps: seq<MaterialParameter>, total: nat, i: nat, cs: seq<Copy>)
    requires WellLaidOut(ps, total) && SizesCoverValues(ps)
    requires i < |ps| && cs == CopiesOf(ps)
    ensures cs[i] == Copy(ps[i].offset, Encoded(ps[i])) && |cs[i].bytes| == Width(ps[i].ptype)
    ensures cs[i].at + |cs[i].bytes| <= total
    ensures forall j :: i < j < |cs| ==> cs[i].at + |cs[i].bytes| <= cs[j].at
  {
    forall j | i < j < |cs|
      ensures cs[i].at + |cs[i].bytes| <= cs[j].at
    {
      assert ps[i].offset + ps[i].size <= ps[j].offset;
    }
  }

  /**
   * Induction on the number n of copies made: copy i < n is held once the
   * first n are, when no later copy starts before its end.
   */
  lemma {:induction false} CopyHeld(buf: seq<u8>, cs: seq<Copy>, n: nat, i: nat, k: nat)
    requires i < n <= |cs| && k < |cs[i].bytes| && cs[i].at + |cs[i].bytes| <= |buf|
    requires forall j :: i < j < n ==> cs[i].at + |cs[i].bytes| <= cs[j].at
    ensures ApplyCopies(buf, cs, n)[cs[i].at + k] == cs[i].bytes[k]
    decreases n
  {
    if i < n - 1 {
      CopyHeld(buf, cs, n - 1, i, k);
      OverwriteKeepsBefore(ApplyCopies(buf, cs, n - 1), cs[n - 1].at, cs[n - 1].bytes, cs[i].at + k);
    }
  }

  lemma OverwriteKeepsBefore(buf: seq<u8>, at: nat, bytes: seq<u8>, k: nat)
    requires k < at && k < |buf|
    ensures Overwrite(buf, at, bytes)[k] == buf[k]
  {
  }

  lemma PrefixWellLaidOut(ps: seq<MaterialParameter>, total: nat, n: nat)
    requires WellLaidOut(ps, total) && SizesCoverValues(ps) && n <= |ps|
    ensures WellLaidOut(ps[..n], total) && SizesCoverValues(ps[..n])
  {
    var q := ps[..n];
    assert forall i :: 0 <= i < n ==> q[i] == ps[i];
  }

  /** The laid-out parameters keep their names and fit the buffer the layout sizes. */
  lemma LayoutKeepsNames(ps: seq<MaterialParameter>, laid: seq<MaterialParameter>, size: nat)
    requires laid == Layout(ps) && size == ParameterBufferSize(ps)
    ensures Names(laid) == Names(ps) && WellLaidOut(laid, size)
  {
    LayoutIsWellLaidOut(ps);
    assert Names(laid) == Names(ps);
  }

  /** Where the shared default sampler comes from when SetTexture is given none. */
  datatype SamplerRef =
    | ProvidedSampler(id: nat)
    | CreatedSampler(desc: Samplers.SamplerDesc)

  /** MaterialDesc. */
  datatype MaterialDesc = MaterialDesc(
    name: string, vertexShaderPath: string, pixelShaderPath: string,
    parameters: seq<MaterialParameter>,
    isTransparent: bool, castsShadows: bool, receivesShadows: bool)

  /** MaterialDesc defaults: "Material", opaque, casting and receiving shadows. */
  const DefaultMaterialDesc: MaterialDesc := MaterialDesc("Material", "", "", [], false, true, true)

  /** What Texture::Bind looks at: whether the texture is valid, has its SRV heap, and its GPU address. */
  datatype TextureBindState = TextureBindState(valid: bool, hasSrvHeap: bool, gpuPtr: nat)

  /** The bind state of every named texture. */
  function BindStates(textures: map<string, Tex.Texture>): (m: map<string, TextureBindState>)
    reads textures.Values`textureResource, textures.Values`hasSrvHeap, textures.Values`srvGpuPtr
    ensures m.Keys == textures.Keys
    ensures forall k :: k in m ==> m[k].valid == textures[k].textureResource
  {
    map k | k in textures :: TextureBindState(textures[k].textureResource, textures[k].hasSrvHeap, textures[k].srvGpuPtr)
  }

  /** The commands binding one parameter's texture: only a Texture2D parameter with a valid texture binds one. */
  function TextureStep(p: MaterialParameter, states: map<string, TextureBindState>): seq<Rhi.Command>
  {
    if p.ptype == Texture2D && p.name in states && states[p.name].valid
    then Tex.BindCommands(true, states[p.name].hasSrvHeap, states[p.name].gpuPtr, p.textureSlot)
    else []
  }

  /** The commands binding each parameter's texture, in parameter order. */
  function TextureBindCommands(ps: seq<MaterialParameter>, states: map<string, TextureBindState>): seq<Rhi.Command>
  {
    if |ps| == 0 then [] else TextureBindCommands(ps[..|ps| - 1], states) + TextureStep(ps[|ps| - 1], states)
  }

  /** A texture is bound only for a Texture2D parameter, at that parameter's texture slot. */
  lemma {:induction false} TexturesBindAtTheirSlots(ps: seq<MaterialParameter>, states: map<string, TextureBindState>)
    ensures forall c :: c in TextureBindCommands(ps, states) && c.SetGraphicsRootDescriptorTable? ==>
              exists i :: 0 <= i < |ps| && ps[i].ptype == Texture2D && ps[i].textureSlot == c.rootParameterIndex
  {
    if |ps| > 0 {
      var prefix := ps[..|ps| - 1];
      var p := ps[|ps| - 1];
      TexturesBindAtTheirSlots(prefix, states);
      forall c | c in TextureBindCommands(ps, states) && c.SetGraphicsRootDescriptorTable?
        ensures exists i :: 0 <= i < |ps| && ps[i].ptype == Texture2D && ps[i].textureSlot == c.rootParameterIndex
      {
        if c in TextureBindCommands(prefix, states) {
          var i :| 0 <= i < |prefix| && prefix[i].ptype == Texture2D && prefix[i].textureSlot == c.rootParameterIndex;
          assert ps[i] == prefix[i];
        } else {
          assert c in TextureStep(p, states);
          assert ps[|ps| - 1] == p;
        }
      }
    }
  }

  /** Parameter p binds texture t: a Texture2D parameter whose name holds t, which is valid. */
  predicate BindsTexture(p: MaterialParameter, textures: map<string, Tex.Texture>,
                         states: map<string, TextureBindState>, t: Tex.Texture)
  {
    p.ptype == Texture2D && p.name in textures && p.name in states && states[p.name].valid && textures[p.name] == t
  }

  /** The slot Bind's loop leaves texture t at: the last binding parameter's texture slot, if any parameter binds t. */
  function BoundSlot(ps: seq<MaterialParameter>, textures: map<string, Tex.Texture>,
                     states: map<string, TextureBindState>, t: Tex.Texture): Option<u32>
  {
    if |ps| == 0 then None
    else if BindsTexture(ps[|ps| - 1], textures, states, t) then Some(ps[|ps| - 1].textureSlot)
    else BoundSlot(ps[..|ps| - 1], textures, states, t)
  }

  /** The slot of texture t after binding ps: its bound slot, or the slot it had before. */
  function SlotAfterBind(ps: seq<MaterialParameter>, textures: map<string, Tex.Texture>,
                         states: map<string, TextureBindState>, t: Tex.Texture, before: u32): u32
  {
    match BoundSlot(ps, textures, states, t)
    case Some(s) => s
    case None => before
  }

  /**
   * The texture slot Bind leaves is the last SetSlot call's: no parameter binds t
   * exactly when there is no slot, and otherwise the slot is that of a binding
   * parameter after which no parameter binds t.
   */
  lemma {:induction false} BoundSlotIsLastBinding(ps: seq<MaterialParameter>, textures: map<string, Tex.Texture>,
                                                  states: map<string, TextureBindState>, t: Tex.Texture)
    ensures BoundSlot(ps, textures, states, t).None? <==>
              forall i :: 0 <= i < |ps| ==> !BindsTexture(ps[i], textures, states, t)
    ensures BoundSlot(ps, textures, states, t).Some? ==>
              exists i :: 0 <= i < |ps| && BindsTexture(ps[i], textures, states, t) &&
                          BoundSlot(ps, textures, states, t).value == ps[i].textureSlot &&
                          forall j :: i < j < |ps| ==> !BindsTexture(ps[j], textures, states, t)
  {
    if |ps| > 0 {
      var prefix := ps[..|ps| - 1];
      BoundSlotIsLastBinding(prefix, textures, states, t);
      if !BindsTexture(ps[|ps| - 1], textures, states, t) {
        assert forall i :: 0 <= i < |prefix| ==> prefix[i] == ps[i];
        if BoundSlot(prefix, textures, states, t).Some? {
          var i :| 0 <= i < |prefix| && BindsTexture(prefix[i], textures, states, t) &&
                   BoundSlot(prefix, textures, states, t).value == prefix[i].textureSlot &&
                   forall j :: i < j < |prefix| ==> !BindsTexture(prefix[j], textures, states, t);
          assert BindsTexture(ps[i], textures, states, t);
        }
      }
    }
  }

  lemma BoundSlotStep(ps: seq<MaterialParameter>, textures: map<string, Tex.Texture>,
                      states: map<string, TextureBindState>, t: Tex.Texture, i: nat, before: u32)
    requires i < |ps|
    ensures SlotAfterBind(ps[..i + 1], textures, states, t, before) ==
              if BindsTexture(ps[i], textures, states, t) then ps[i].textureSlot
              else SlotAfterBind(ps[..i], textures, states, t, before)
  {
    assert ps[..i + 1][..i] == ps[..i];
  }

  class Material {
    const name: string
    const isTransparent: bool
    const castsShadows: bool
    const receivesShadows: bool
    var params: seq<MaterialParameter>
    var nameToIndex: map<string, nat>
    /** m_parameterBufferSize. */
    const bufferSize: nat
    /** m_mappedParameterData is non-null. */
    const mapped: bool
    /** The mapped parameter memory. */
    const buffer: array<u8>
    var textures: map<string, Tex.Texture>
    var samplers: map<string, SamplerRef>
    var needsUpdate: bool
    var initialized: bool

    ghost predicate Valid()
      reads this
    {
      buffer.Length == bufferSize &&
      nameToIndex == NameIndex(Names(params)) &&
      WellLaidOut(params, bufferSize)
    }

    /** IsValid, as written, holds for every material. */
    predicate IsValid(): (valid: bool)
      ensures valid
    {
      true
    }

    /**
     * Material(renderer, desc): the name map, the layout, and a buffer only
     * when the layout is not empty; the parameters start dirty.
     */
    constructor (desc: MaterialDesc, createOk: bool)
      ensures Valid()
      ensures name == desc.name && isTransparent == desc.isTransparent
      ensures castsShadows == desc.castsShadows && receivesShadows == desc.receivesShadows
      ensures params == Layout(desc.parameters) && bufferSize == ParameterBufferSize(desc.parameters)
      ensures mapped <==> bufferSize > 0 && createOk
      ensures fresh(buffer) && textures == map[] && samplers == map[]
      ensures needsUpdate && initialized
    {
      var index := BuildNameIndex(desc.parameters);
      var laid, size := ComputeLayout(desc.parameters);
      var zeroed := ZeroedBuffer(size);
      LayoutKeepsNames(desc.parameters, laid, size);
      name, isTransparent := desc.name, desc.isTransparent;
      castsShadows, receivesShadows := desc.castsShadows, desc.receivesShadows;
      params, nameToIndex, bufferSize, buffer := laid, index, size, zeroed;
      mapped, textures, samplers := size > 0 && createOk, map[], map[];
      needsUpdate, initialized := true, true;
    }

    /** FindParameter: the parameter the name map points at, if the name is known. */
    function FindParameter(n: string): (r: Option<nat>)
      reads this
      requires Valid()
      ensures r.Some? ==> r.value < |params| && params[r.value].name == n &&
                          forall j :: r.value < j < |params| ==> params[j].name != n
      ensures r.None? <==> forall i :: 0 <= i < |params| ==> params[i].name != n
    {
      NameIndexFindsLastOccurrence(Names(params));
      if n in nameToIndex then Some(nameToIndex[n]) else None
    }

    /** GetParameter: the stored value when the name exists with a matching type; nothing otherwise. */
    function GetParameter(n: string, t: ParameterType): (r: Option<ParamValue>)
      reads this
      requires Valid() && HasGetter(t)
      ensures r.Some? <==> FindParameter(n).Some? && params[FindParameter(n).value].ptype == t
      ensures r.Some? ==> TypeOf(r.value) == t
    {
      match FindParameter(n)
      case None => None
      case Some(i) => if params[i].ptype == t then Read(params[i].value, t) else None
    }

    /** SetParameter: writes the value and marks the parameters dirty only for a known name of matching type. */
    method SetParameter(n: string, v: ParamValue)
      requires Valid()
      modifies this`params, this`needsUpdate
      ensures Valid()
      ensures var i := old(FindParameter(n));
              if i.Some? && old(params)[i.value].ptype == TypeOf(v) then
                params == old(params)[i.value := old(params)[i.value].(value := Store(old(params)[i.value].value, v))] &&
                needsUpdate
              else
                params == old(params) && needsUpdate == old(needsUpdate)
    {
      var i := FindParameter(n);
      if i.Some? && params[i.value].ptype == TypeOf(v) {
        var p := params[i.value];
        params := params[i.value := p.(value := Store(p.value, v))];
        assert Names(params) == Names(old(params));
        needsUpdate := true;
      }
    }

    /**
     * SetTexture: ignored unless the name is a Texture2D parameter. A given
     * texture is stored; a given sampler is stored, and a texture without one
     * gets a new linear-wrap sampler named after the parameter.
     */
    method SetTexture(n: string, texture: Option<Tex.Texture>, sampler: Option<nat>)
      requires Valid()
      modifies this`textures, this`samplers
      ensures var i := FindParameter(n);
              if i.Some? && params[i.value].ptype == Texture2D then
                textures == (if texture.Some? then old(textures)[n := texture.value] else old(textures)) &&
                samplers == (if sampler.Some? then old(samplers)[n := ProvidedSampler(sampler.value)]
                             else if texture.Some? then
                               old(samplers)[n := CreatedSampler(Samplers.PresetDesc(Samplers.LinearWrap, 16, n + "_Sampler"))]
                             else old(samplers))
              else
                textures == old(textures) && samplers == old(samplers)
    {
      var i := FindParameter(n);
      if i.Some? && params[i.value].ptype == Texture2D {
        if texture.Some? {
          textures := textures[n := texture.value];
        }
        if sampler.Some? {
          samplers := samplers[n := ProvidedSampler(sampler.value)];
        } else if texture.Some? {
          samplers := samplers[n := CreatedSampler(Samplers.PresetDesc(Samplers.LinearWrap, 16, n + "_Sampler"))];
        }
      }
    }

    /** GetTexture: the texture stored under the name, if any. */
    function GetTexture(n: string): (r: Option<Tex.Texture>)
      reads this
      ensures r.Some? <==> n in textures
      ensures r.Some? ==> r.value == textures[n]
    {
      if n in textures then Some(textures[n]) else None
    }

    /** UpdateParameterBuffer: without mapped memory or with an empty layout nothing is written. */
    method UpdateParameterBuffer()
      modifies buffer
      ensures buffer[..] == if mapped && bufferSize > 0 then WriteAll(old(buffer[..]), params) else old(buffer[..])
    {
      if !mapped || bufferSize == 0 {
        return;
      }
      var copies := CopiesOf(params);
      var i := 0;
      while i < |copies|
        invariant 0 <= i <= |copies|
        invariant buffer[..] == ApplyCopies(old(buffer[..]), copies, i)
      {
        CopyNext(buffer, copies, i, old(buffer[..]));
        i := i + 1;
      }
    }

    /** UpdateParameters: flushes the values only when they are dirty, then they are clean. */
    method UpdateParameters()
      modifies this`needsUpdate, buffer
      ensures !needsUpdate
      ensures buffer[..] == if old(needsUpdate) && mapped && bufferSize > 0 then WriteAll(old(buffer[..]), params)
                            else old(buffer[..])
    {
      if needsUpdate {
        UpdateParameterBuffer();
        needsUpdate := false;
      }
    }

    /**
     * Bind: flushes dirty values, then binds, in parameter order, the texture
     * of every Texture2D parameter that has a valid one, at the parameter's
     * texture slot. Samplers are static and not bound.
     */
    method Bind(context: Rhi.DX12RHIContext)
      modifies this`needsUpdate, buffer, textures.Values`slot, context.commandList
      ensures !needsUpdate
      ensures buffer[..] == if old(needsUpdate) && mapped && bufferSize > 0 then WriteAll(old(buffer[..]), params)
                            else old(buffer[..])
      ensures context.commandList != null ==>
                context.commandList.commands == old(context.commandList.commands) + TextureBindCommands(params, old(BindStates(textures)))
      ensures forall t :: t in textures.Values ==>
                t.slot == SlotAfterBind(params, textures, old(BindStates(textures)), t, old(t.slot))
    {
      if !IsValid() {
        return;
      }
      UpdateParameters();
      BindTextures(params, textures, context);
    }
  }

  /** Bind's loop over the parameters; the textures' bind states stay as they were. */
  method BindTextures(params: seq<MaterialParameter>, textures: map<string, Tex.Texture>, context: Rhi.DX12RHIContext)
    modifies textures.Values`slot, context.commandList
    ensures context.commandList != null ==>
              context.commandList.commands == old(context.commandList.commands) + TextureBindCommands(params, old(BindStates(textures)))
    ensures BindStates(textures) == old(BindStates(textures))
    ensures forall t :: t in textures.Values ==>
              t.slot == SlotAfterBind(params, textures, old(BindStates(textures)), t, old(t.slot))
  {
    ghost var states := BindStates(textures);
    ghost var before := map t | t in textures.Values :: t.slot;
    ghost var initial := if context.commandList != null then context.commandList.commands else [];
    var i := 0;
    while i < |params|
      invariant 0 <= i <= |params|
      invariant BindStates(textures) == states
      invariant forall t :: t in textures.Values ==> t.slot == SlotAfterBind(params[..i], textures, states, t, before[t])
      invariant context.commandList != null ==>
                  context.commandList.commands == initial + TextureBindCommands(params[..i], states)
    {
      BindNext(params, i, textures, context, states, before, initial);
      i := i + 1;
    }
    assert params[..|params|] == params;
  }

  /** One pass of Bind's loop: parameter i's bind is recorded and its texture's slot set on top of the first i. */
  method BindNext(params: seq<MaterialParameter>, i: nat, textures: map<string, Tex.Texture>, context: Rhi.DX12RHIContext,
                  ghost states: map<string, TextureBindState>, ghost before: map<Tex.Texture, u32>, ghost initial: seq<Rhi.Command>)
    requires i < |params| && BindStates(textures) == states
    requires forall t :: t in textures.Values ==> t in before && t.slot == SlotAfterBind(params[..i], textures, states, t, before[t])
    requires context.commandList != null ==>
               context.commandList.commands == initial + TextureBindCommands(params[..i], states)
    modifies textures.Values`slot, context.commandList
    ensures BindStates(textures) == states
    ensures forall t :: t in textures.Values ==> t.slot == SlotAfterBind(params[..i + 1], textures, states, t, before[t])
    ensures context.commandList != null ==>
              context.commandList.commands == initial + TextureBindCommands(params[..i + 1], states)
  {
    BindParameterTexture(params[i], textures, context);
    BindCommandsStep(params, states, i);
    forall t | t in textures.Values
      ensures SlotAfterBind(params[..i + 1], textures, states, t, before[t]) ==
                if BindsTexture(params[i], textures, states, t) then params[i].textureSlot
                else SlotAfterBind(params[..i], textures, states, t, before[t])
    {
      BoundSlotStep(params, textures, states, t, i, before[t]);
    }
    if context.commandList != null {
      AppendAssoc(initial, TextureBindCommands(params[..i], states), TextureStep(params[i], states));
    }
  }

  lemma BindCommandsStep(params: seq<MaterialParameter>, states: map<string, TextureBindState>, i: nat)
    requires i < |params|
    ensures TextureBindCommands(params[..i + 1], states) ==
              TextureBindCommands(params[..i], states) + TextureStep(params[i], states)
  {
    assert params[..i + 1][..i] == params[..i];
  }

  /** One iteration of Bind's loop: a Texture2D parameter's valid texture takes the parameter's slot and binds. */
  method BindParameterTexture(p: MaterialParameter, textures: map<string, Tex.Texture>, context: Rhi.DX12RHIContext)
    modifies textures.Values`slot, context.commandList
    ensures context.commandList != null ==>
              context.commandList.commands == old(context.commandList.commands) + TextureStep(p, old(BindStates(textures)))
    ensures BindStates(textures) == old(BindStates(textures))
    ensures forall t :: t in textures.Values ==>
              t.slot == if BindsTexture(p, textures, old(BindStates(textures)), t) then p.textureSlot else old(t.slot)
  {
    if p.ptype == Texture2D && p.name in textures && textures[p.name].textureResource {
      var t := textures[p.name];
      t.SetSlot(p.textureSlot);
      t.Bind(context);
    }
  }

  /** Makes copy i of cs, the one after the first i copies already applied to base. */
  method CopyNext(dest: array<u8>, cs: seq<Copy>, i: nat, ghost base: seq<u8>)
    requires i < |cs| && dest[..] == ApplyCopies(base, cs, i)
    modifies dest
    ensures dest[..] == ApplyCopies(base, cs, i + 1)
  {
    CopyBytes(dest, cs[i].at, cs[i].bytes);
  }

  /** memcpy into the mapped memory; bytes past its end are not kept. */
  method CopyBytes(dest: array<u8>, at: nat, bytes: seq<u8>)
    modifies dest
    ensures dest[..] == Overwrite(old(dest[..]), at, bytes)
  {
    var k := 0;
    while k < |bytes|
      invariant 0 <= k <= |bytes|
      invariant dest[..] == Overwrite(old(dest[..]), at, bytes[..k])
    {
      if at + k < dest.Length {
        dest[at + k] := bytes[k];
      }
      k := k + 1;
    }
    assert bytes[..|bytes|] == bytes;
  }

  /** 1.0f, 0.5f and 0.0f as IEEE-754 single-precision bit patterns. */
  const One: u32 := 0x3F80_0000
  const Half: u32 := 0x3F00_0000
  const Zero: u32 := 0

  /** Material::CreateUnlit: one Float4 "Color" parameter (white by default). */
  function UnlitDesc(r: u32, g: u32, b: u32, a: u32, name: string): (d: MaterialDesc)
    ensures d.name == name && |d.parameters| == 1 && d.parameters[0].name == "Color"
    ensures d.vertexShaderPath == "Shaders/UnlitVS.hlsl" && d.pixelShaderPath == "Shaders/UnlitPS.hlsl"
    ensures d.parameters[0].ptype == Float4 && Read(d.parameters[0].value, Float4) == Some(Float4Value(r, g, b, a))
  {
    MaterialDesc(name, "Shaders/UnlitVS.hlsl", "Shaders/UnlitPS.hlsl",
                 [Float4Parameter("Color", r, g, b, a)], false, true, true)
  }

  /** Material::CreateLit: Float4 "Albedo", Float "Metallic" and Float "Roughness" (defaults white, 0, 0.5). */
  function LitDesc(r: u32, g: u32, b: u32, a: u32, metallic: u32, roughness: u32, name: string): (d: MaterialDesc)
    ensures d.name == name && Names(d.parameters) == ["Albedo", "Metallic", "Roughness"]
  {
    MaterialDesc(name, "Shaders/LitVS.hlsl", "Shaders/LitPS.hlsl",
                 [Float4Parameter("Albedo", r, g, b, a), FloatParameter("Metallic", metallic),
                  FloatParameter("Roughness", roughness)], false, true, true)
  }

  /** Material::CreateTextured: one Texture2D "DiffuseTexture" parameter at texture slot 3. */
  function TexturedDesc(name: string): (d: MaterialDesc)
    ensures d.name == name && |d.parameters| == 1
    ensures d.parameters[0].name == "DiffuseTexture" && d.parameters[0].ptype == Texture2D
    ensures d.parameters[0].textureSlot == 3 && d.parameters[0].size == 0
  {
    MaterialDesc(name, "Shaders/TexturedVS.hlsl", "Shaders/TexturedPS.hlsl",
                 [DefaultParameter.(name := "DiffuseTexture", ptype := Texture2D, textureSlot := 3, samplerSlot := 0)],
                 false, true, true)
  }

  /** Material::CreateDefault: an unlit magenta material. */
  function DefaultDesc(name: string): (d: MaterialDesc)
    ensures d.name == name && d.vertexShaderPath == "Shaders/UnlitVS.hlsl" && d.pixelShaderPath == "Shaders/UnlitPS.hlsl"
    ensures |d.parameters| == 1 && d.parameters[0].name == "Color" && d.parameters[0].ptype == Float4
    ensures Read(d.parameters[0].value, Float4) == Some(Float4Value(One, Zero, One, One))
  {
    UnlitDesc(One, Zero, One, One, name)
  }

  /**
   * A parameter whose size is left at its default 0 (every type but Float,
   * Float3 and Float4) takes no room in the layout, yet UpdateParameterBuffer
   * copies sizeof(type) bytes for it: an Int after a Float starts at the
   * buffer's end, so its four bytes lie past the 16-byte buffer.
   */
  lemma ZeroSizedIntOverrunsBuffer(x: u32)
    ensures var ps := [FloatParameter("f", x), DefaultParameter.(name := "i", ptype := Int)];
            var laid := Layout(ps);
            WellLaidOut(laid, ParameterBufferSize(ps)) && !SizesCoverValues(laid) &&
            ParameterBufferSize(ps) == 16 && laid[1].offset == 16 &&
            laid[1].offset + |Encoded(laid[1])| == 20
  {
    var ps := [FloatParameter("f", x), DefaultParameter.(name := "i", ptype := Int)];
    LayoutIsWellLaidOut(ps);
    assert ps[..1] == [ps[0]];
    assert LayoutEnd(ps[..1]) == 4;
  }

  /**
   * The factories' layouts: an unlit material needs 16 bytes; a lit one puts
   * Albedo, Metallic and Roughness at 0, 16 and 32 in 48 bytes; a textured
   * one has no constant data, so no buffer.
   */
  lemma FactoryLayouts(r: u32, g: u32, b: u32, a: u32, metallic: u32, roughness: u32, name: string)
    ensures ParameterBufferSize(UnlitDesc(r, g, b, a, name).parameters) == 16
    ensures var ps := Layout(LitDesc(r, g, b, a, metallic, roughness, name).parameters);
            ps[0].offset == 0 && ps[1].offset == 16 && ps[2].offset == 32
    ensures ParameterBufferSize(LitDesc(r, g, b, a, metallic, roughness, name).parameters) == 48
    ensures ParameterBufferSize(TexturedDesc(name).parameters) == 0
  {
    var unlit := UnlitDesc(r, g, b, a, name).parameters;
    assert unlit[..0] == [];
    assert LayoutEnd(unlit) == 16;
    var tex := TexturedDesc(name).parameters;
    assert tex[..0] == [];
    assert LayoutEnd(tex) == 0;
    LitLayout(LitDesc(r, g, b, a, metallic, roughness, name).parameters);
  }

  lemma LitLayout(lit: seq<MaterialParameter>)
    requires |lit| == 3 && lit[0].size == 16 && lit[1].size == 4 && lit[2].size == 4
    ensures var ps := Layout(lit); ps[0].offset == 0 && ps[1].offset == 16 && ps[2].offset == 32
    ensures LayoutEnd(lit) == 36 && ParameterBufferSize(lit) == 48 && SumOfSizes(lit) == 24
  {
    var l1, l2 := lit[..1], lit[..2];
    assert l2[..1] == l1;
    assert l1[..0] == [];
    assert LayoutEnd(l1) == 16 && SumOfSizes(l1) == 16;
    assert Align16(16) == 16;
    assert LayoutEnd(l2) == 20 && SumOfSizes(l2) == 20;
    assert Align16(20) == 32;
    assert Align16(36) == 48;
    assert Layout(l1)[0].offset == 0;
    assert Layout(l2)[1].offset == 16;
  }

  /**
   * As written, CalculateParameterBufferSize leaves out the padding the
   * constructor inserts: for the lit factory it gives 32 bytes where the
   * layout needs 48.
   */
  lemma CalculatedSizeTooSmallForLit(name: string)
    ensures var ps := LitDesc(One, One, One, One, Zero, Half, name).parameters;
            CalculateParameterBufferSize(ps) == 32 && ParameterBufferSize(ps) == 48
  {
    LitLayout(LitDesc(One, One, One, One, Zero, Half, name).parameters);
    assert Align16(24) == 32;
  }
}
