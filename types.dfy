/**
 * Fixed-width integer ranges, optional values and the engine's resource
 * handle (Source/Core/Utilities/Types.h).
 */
module Types {

  /** uint8, uint16 and uint32 values of the C++ source. */
  type u8 = x: int | 0 <= x < 0x100
  type u16 = x: int | 0 <= x < 0x1_0000
  type u32 = x: int | 0 <= x < 0x1_0000_0000
  /** int32 values of the C++ source. */
  type i32 = x: int | -0x8000_0000 <= x < 0x8000_0000

  const U32_MODULUS: int := 0x1_0000_0000

  datatype Option<T> = None | Some(value: T)

  /** A new buffer of n zero bytes. */
  method ZeroedBuffer(n: nat) returns (a: array<u8>)
    ensures fresh(a) && a.Length == n && forall i :: 0 <= i < n ==> a[i] == 0
  {
    a := new u8[n](_ => 0);
  }

  /** Appending is associative; the step lemmas of the recording loops regroup with it. */
  lemma AppendAssoc<T>(a: seq<T>, b: seq<T>, c: seq<T>)
    ensures a + b + c == a + (b + c)
  {
  }

  function Min(a: int, b: int): (r: int)
    ensures r <= a && r <= b && (r == a || r == b)
  {
    if a <= b then a else b
  }

  function Max(a: int, b: int): (r: int)
    ensures r >= a && r >= b && (r == a || r == b)
  {
    if a >= b then a else b
  }

  /** Unsigned 32-bit arithmetic: the value C++ keeps of an exact result. */
  function Wrap32(x: int): (r: u32)
    ensures 0 <= x < U32_MODULUS ==> r == x
    ensures (x - r) % U32_MODULUS == 0
  {
    x % U32_MODULUS
  }

  /**
   * The four bytes of a 32-bit value as a little-endian machine stores them,
   * least significant first.
   */
  function LittleEndian32(v: u32): (b: seq<u8>)
    ensures |b| == 4
  {
    var q1 := v / 0x100;
    var q2 := q1 / 0x100;
    [v % 0x100, q1 % 0x100, q2 % 0x100, q2 / 0x100]
  }

  /** The 32-bit value four little-endian bytes hold. */
  function FromLittleEndian32(b: seq<u8>): (v: u32)
    requires |b| == 4
  {
    b[0] as int + 0x100 * (b[1] as int + 0x100 * (b[2] as int + 0x100 * b[3] as int))
  }

  /** Reading back the stored bytes gives the value that was stored. */
  lemma LittleEndian32RoundTrip(v: u32)
    ensures FromLittleEndian32(LittleEndian32(v)) == v
  {
    var q1 := v / 0x100;
    var q2 := q1 / 0x100;
    assert v == v % 0x100 + 0x100 * q1;
    assert q1 == q1 % 0x100 + 0x100 * q2;
    assert q2 == q2 % 0x100 + 0x100 * (q2 / 0x100);
  }

  /** The two bytes of a 16-bit value, least significant first. */
  function LittleEndian16(v: u16): (b: seq<u8>)
    ensures |b| == 2
  {
    [v % 0x100, v / 0x100]
  }

  /** The 16-bit value two little-endian bytes hold. */
  function FromLittleEndian16(b: seq<u8>): (v: u16)
    requires |b| == 2
  {
    b[0] as int + 0x100 * b[1] as int
  }

  lemma LittleEndian16RoundTrip(v: u16)
    ensures FromLittleEndian16(LittleEndian16(v)) == v
  {
  }

  /** An int32 read from its 32-bit two's-complement pattern. */
  function ToInt32(u: u32): (v: i32)
    ensures Wrap32(v) == u
  {
    if u < 0x8000_0000 then u else u - U32_MODULUS
  }

  /** The two's-complement pattern is undone by reading it back as an int32. */
  lemma Int32RoundTrip(v: i32)
    ensures ToInt32(Wrap32(v)) == v
  {
  }

  /**
   * A generational resource handle. Index 0 is reserved for "no resource",
   * so a default handle (index 0, generation 0) is invalid.
   */
  datatype Handle = Handle(index: u32, generation: u32)

  const DefaultHandle: Handle := Handle(0, 0)

  /** Handle::IsValid: only the index decides validity. */
  predicate HandleIsValid(h: Handle)
  {
    h.index != 0
  }

  /** Handle::operator== compares the index and the generation. */
  predicate HandleEquals(a: Handle, b: Handle): (r: bool)
    ensures r <==> a == b
  {
    a.index == b.index && a.generation == b.generation
  }

  lemma DefaultHandleInvalid()
    ensures !HandleIsValid(DefaultHandle)
  {
  }

  /** Validity ignores the generation: re-issuing an index keeps it valid. */
  lemma ValidityIgnoresGeneration(index: u32, g1: u32, g2: u32)
    ensures HandleIsValid(Handle(index, g1)) == HandleIsValid(Handle(index, g2))
    ensures HandleIsValid(Handle(index, g1)) <==> index != 0
  {
  }

  /** Handle equality is an equivalence relation. */
  lemma HandleEqualityIsEquivalence(a: Handle, b: Handle, c: Handle)
    ensures HandleEquals(a, a)
    ensures HandleEquals(a, b) ==> HandleEquals(b, a)
    ensures HandleEquals(a, b) && HandleEquals(b, c) ==> HandleEquals(a, c)
  {
  }

  /** BIT(x) = 1u << x, for the shift amounts C++ defines (x < 32): a single set bit. */
  function Bit(x: nat): (r: bv32)
    requires x < 32
    ensures r != 0 && r & (r - 1) == 0
    ensures r >> x == 1
  {
    (1 as bv32) << x
  }

  /** Distinct shift amounts give flags that share no bit. */
  lemma BitsAreDisjoint(x: nat, y: nat)
    requires x < 32 && y < 32 && x != y
    ensures Bit(x) & Bit(y) == 0
  {
  }
}
