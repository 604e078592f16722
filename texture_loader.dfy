/**
 * Image loading and procedural images (Source/Core/Utilities/TextureLoader.h,
 * TextureLoader.cpp): the packed BMP headers, their validation, the 4-byte
 * row padding, BGR(A) to RGBA conversion, the in-place vertical flip, the
 * checkerboard / solid / gradient generators and the dispatch on the file
 * name.
 *
 * The file contents are given as a byte sequence (None when the file cannot
 * be opened). Images are RGBA, four bytes per pixel, rows top to bottom.
 * Sizes and offsets are exact here; the source computes them in 32 bits
 * (see GetDataSize).
 */
module TextureLoader {
  import opened Types

  /** BMPFileHeader, packed: 14 bytes. */
  datatype BMPFileHeader = BMPFileHeader(
    bfType: u16, bfSize: u32, bfReserved1: u16, bfReserved2: u16, bfOffBits: u32)

  /** BMPInfoHeader, packed: 40 bytes. */
  datatype BMPInfoHeader = BMPInfoHeader(
    biSize: u32, biWidth: i32, biHeight: i32, biPlanes: u16, biBitCount: u16,
    biCompression: u32, biSizeImage: u32, biXPelsPerMeter: i32, biYPelsPerMeter: i32,
    biClrUsed: u32, biClrImportant: u32)

  const FileHeaderSize: nat := 14
  const InfoHeaderSize: nat := 40

  /** The file header's bytes in declaration order, without padding. */
  function EncodeFileHeader(h: BMPFileHeader): (b: seq<u8>)
    ensures |b| == FileHeaderSize
  {
    LittleEndian16(h.bfType) + LittleEndian32(h.bfSize) + LittleEndian16(h.bfReserved1) +
    LittleEndian16(h.bfReserved2) + LittleEndian32(h.bfOffBits)
  }

  /** Reading the file header from the first 14 bytes. */
  function ParseFileHeader(b: seq<u8>): BMPFileHeader
    requires |b| >= FileHeaderSize
  {
    BMPFileHeader(FromLittleEndian16(b[0..2]), FromLittleEndian32(b[2..6]), FromLittleEndian16(b[6..8]),
                  FromLittleEndian16(b[8..10]), FromLittleEndian32(b[10..14]))
  }

  /** The info header's bytes in declaration order, without padding. */
  function EncodeInfoHeader(h: BMPInfoHeader): (b: seq<u8>)
    ensures |b| == InfoHeaderSize
  {
    LittleEndian32(h.biSize) + LittleEndian32(Wrap32(h.biWidth)) + LittleEndian32(Wrap32(h.biHeight)) +
    LittleEndian16(h.biPlanes) + LittleEndian16(h.biBitCount) + LittleEndian32(h.biCompression) +
    LittleEndian32(h.biSizeImage) + LittleEndian32(Wrap32(h.biXPelsPerMeter)) +
    LittleEndian32(Wrap32(h.biYPelsPerMeter)) + LittleEndian32(h.biClrUsed) + LittleEndian32(h.biClrImportant)
  }

  /** Reading the info header from 40 bytes. */
  function ParseInfoHeader(b: seq<u8>): BMPInfoHeader
    requires |b| >= InfoHeaderSize
  {
    BMPInfoHeader(
      FromLittleEndian32(b[0..4]), ToInt32(FromLittleEndian32(b[4..8])), ToInt32(FromLittleEndian32(b[8..12])),
      FromLittleEndian16(b[12..14]), FromLittleEndian16(b[14..16]), FromLittleEndian32(b[16..20]),
      FromLittleEndian32(b[20..24]), ToInt32(FromLittleEndian32(b[24..28])), ToInt32(FromLittleEndian32(b[28..32])),
      FromLittleEndian32(b[32..36]), FromLittleEndian32(b[36..40]))
  }

  /** The packed layout is read back field for field. */
  lemma FileHeaderRoundTrip(h: BMPFileHeader)
    ensures ParseFileHeader(EncodeFileHeader(h)) == h
  {
    var b := EncodeFileHeader(h);
    assert b[0..2] == LittleEndian16(h.bfType);
    assert b[2..6] == LittleEndian32(h.bfSize);
    assert b[6..8] == LittleEndian16(h.bfReserved1);
    assert b[8..10] == LittleEndian16(h.bfReserved2);
    assert b[10..14] == LittleEndian32(h.bfOffBits);
    LittleEndian16RoundTrip(h.bfType);
    LittleEndian32RoundTrip(h.bfSize);
    LittleEndian16RoundTrip(h.bfReserved1);
    LittleEndian16RoundTrip(h.bfReserved2);
    LittleEndian32RoundTrip(h.bfOffBits);
  }

  /** The signed fields come back through their two's-complement patterns. */
  lemma SignedFieldRoundTrip(v: i32)
    ensures ToInt32(FromLittleEndian32(LittleEndian32(Wrap32(v)))) == v
  {
    LittleEndian32RoundTrip(Wrap32(v));
    Int32RoundTrip(v);
  }

  lemma InfoHeaderRoundTrip(h: BMPInfoHeader)
    ensures ParseInfoHeader(EncodeInfoHeader(h)) == h
  {
    var b := EncodeInfoHeader(h);
    assert b[0..4] == LittleEndian32(h.biSize);
    assert b[4..8] == LittleEndian32(Wrap32(h.biWidth));
    assert b[8..12] == LittleEndian32(Wrap32(h.biHeight));
    assert b[12..14] == LittleEndian16(h.biPlanes);
    assert b[14..16] == LittleEndian16(h.biBitCount);
    assert b[16..20] == LittleEndian32(h.biCompression);
    assert b[20..24] == LittleEndian32(h.biSizeImage);
    assert b[24..28] == LittleEndian32(Wrap32(h.biXPelsPerMeter));
    assert b[28..32] == LittleEndian32(Wrap32(h.biYPelsPerMeter));
    assert b[32..36] == LittleEndian32(h.biClrUsed);
    assert b[36..40] == LittleEndian32(h.biClrImportant);
    LittleEndian32RoundTrip(h.biSize);
    SignedFieldRoundTrip(h.biWidth);
    SignedFieldRoundTrip(h.biHeight);
    LittleEndian16RoundTrip(h.biPlanes);
    LittleEndian16RoundTrip(h.biBitCount);
    LittleEndian32RoundTrip(h.biCompression);
    LittleEndian32RoundTrip(h.biSizeImage);
    SignedFieldRoundTrip(h.biXPelsPerMeter);
    SignedFieldRoundTrip(h.biYPelsPerMeter);
    LittleEndian32RoundTrip(h.biClrUsed);
    LittleEndian32RoundTrip(h.biClrImportant);
  }

  /** 'BM' read as a little-endian 16-bit value. */
  const BitmapSignature: u16 := 0x4D42

  /** The signature value is the characters 'B', 'M' in file order. */
  lemma SignatureIsBM()
    ensures LittleEndian16(BitmapSignature) == ['B' as int, 'M' as int]
  {
  }

  /** ValidateBMPHeaders: the 'BM' signature, 24 or 32 bits per pixel, no compression. */
  predicate ValidateBMPHeaders(fileHeader: BMPFileHeader, infoHeader: BMPInfoHeader)
  {
    fileHeader.bfType == BitmapSignature &&
    (infoHeader.biBitCount == 24 || infoHeader.biBitCount == 32) &&
    infoHeader.biCompression == 0
  }

  /**
   * Any header pair with the signature, a supported depth and no compression
   * survives the trip through the file bytes and is accepted; changing any
   * one of the three makes it rejected.
   */
  lemma ValidationSeesTheFileFields(f: BMPFileHeader, i: BMPInfoHeader)
    ensures var b := EncodeFileHeader(f) + EncodeInfoHeader(i);
            ValidateBMPHeaders(ParseFileHeader(b), ParseInfoHeader(b[FileHeaderSize..])) <==>
              f.bfType == 0x4D42 && (i.biBitCount == 24 || i.biBitCount == 32) && i.biCompression == 0
  {
    var b := EncodeFileHeader(f) + EncodeInfoHeader(i);
    assert b[..FileHeaderSize] == EncodeFileHeader(f);
    assert b[FileHeaderSize..] == EncodeInfoHeader(i);
    assert b[0..2] == EncodeFileHeader(f)[0..2];
    assert b[2..6] == EncodeFileHeader(f)[2..6];
    assert b[6..8] == EncodeFileHeader(f)[6..8];
    assert b[8..10] == EncodeFileHeader(f)[8..10];
    assert b[10..14] == EncodeFileHeader(f)[10..14];
    FileHeaderRoundTrip(f);
    InfoHeaderRoundTrip(i);
  }

  /** ((bits + 31) / 32) * 4: the bytes of a row of `bits` bits padded to a multiple of 4. */
  function PaddedRowBytes(bits: nat): (r: nat)
    ensures r % 4 == 0
    ensures bits <= 8 * r < bits + 32
  {
    (bits + 31) / 32 * 4
  }

  /** The stride of a BMP row of `width` pixels of `bitCount` bits. */
  function RowStride(bitCount: nat, width: nat): nat
  {
    PaddedRowBytes(bitCount * width)
  }

  /** For the accepted depths a row's pixel bytes fit in its stride, and the padding is under 4 bytes. */
  lemma RowStrideHoldsRow(bitCount: nat, width: nat)
    requires bitCount == 24 || bitCount == 32
    ensures RowStride(bitCount, width) % 4 == 0
    ensures width * (bitCount / 8) <= RowStride(bitCount, width) < width * (bitCount / 8) + 4
  {
    assert bitCount * width == 8 * (width * (bitCount / 8));
  }

  /** One RGBA pixel. */
  datatype Pixel = Pixel(r: u8, g: u8, b: u8, a: u8)

  function Bytes(p: Pixel): (s: seq<u8>)
    ensures |s| == 4
  {
    [p.r, p.g, p.b, p.a]
  }

  type Positive = n: nat | n >= 1 witness 1

  /** What a generator or the BMP conversion puts at each pixel. */
  datatype Fill =
    | Solid(color: Pixel)
    | Checker(cellSize: Positive)
    | Gradient(width: nat, height: nat)
    | FromBmp(source: seq<u8>, rowSize: nat, bitCount: nat)

  /** A source byte; bytes past the end of the read data are the zeros the buffer started with. */
  function ByteAt(s: seq<u8>, i: nat): u8
  {
    if i < |s| then s[i] else 0
  }

  const White: Pixel := Pixel(255, 255, 255, 255)
  const Black: Pixel := Pixel(0, 0, 0, 255)
  const Magenta: Pixel := Pixel(255, 0, 255, 255)

  /** (v * 255) / extent in uint32 arithmetic, cast to uint8. */
  function GradientChannel(v: nat, extent: nat): u8
  {
    if extent == 0 then 0 else (Wrap32(v * 255) / extent) % 256
  }

  function PixelOf(f: Fill, x: nat, y: nat): Pixel
  {
    match f
    case Solid(c) => c
    case Checker(cs) => if (x / cs + y / cs) % 2 == 0 then White else Black
    case Gradient(w, h) => Pixel(GradientChannel(x, w), GradientChannel(y, h), 128, 255)
    case FromBmp(src, rowSize, bitCount) =>
      var o := y * rowSize + x * (bitCount / 8);
      if bitCount == 24 then Pixel(ByteAt(src, o + 2), ByteAt(src, o + 1), ByteAt(src, o), 255)
      else if bitCount == 32 then Pixel(ByteAt(src, o + 2), ByteAt(src, o + 1), ByteAt(src, o), ByteAt(src, o + 3))
      else Pixel(0, 0, 0, 0)
  }

  /** The first `x` pixels of row `y`, left to right. */
  function RowBytes(x: nat, y: nat, f: Fill): (s: seq<u8>)
    ensures |s| == 4 * x
  {
    if x == 0 then [] else RowBytes(x - 1, y, f) + Bytes(PixelOf(f, x - 1, y))
  }

  /** The first `h` rows of a `w`-pixel-wide image, top to bottom. */
  function Raster(w: nat, h: nat, f: Fill): seq<u8>
  {
    if h == 0 then [] else Raster(w, h - 1, f) + RowBytes(w, h - 1, f)
  }

  lemma {:induction false} RasterLength(w: nat, h: nat, f: Fill)
    ensures |Raster(w, h, f)| == 4 * w * h
  {
    if h > 0 {
      RasterLength(w, h - 1, f);
      assert |Raster(w, h, f)| == |Raster(w, h - 1, f)| + |RowBytes(w, h - 1, f)|;
      OneMoreRow(w, h - 1);
    }
  }

  lemma OneMoreRow(w: nat, k: nat)
    ensures 4 * w * k + 4 * w == 4 * w * (k + 1)
  {
  }

  /** Fewer rows give a shorter raster. */
  lemma {:induction false} RasterPrefixShorter(w: nat, y: nat, h: nat, f: Fill)
    requires y <= h
    ensures |Raster(w, y, f)| <= |Raster(w, h, f)|
  {
    if y < h {
      RasterPrefixShorter(w, y, h - 1, f);
    }
  }

  /** The byte offset (y * width + x) * 4 of a pixel. */
  function PixelOffset(w: nat, x: nat, y: nat): nat
  {
    (y * w + x) * 4
  }

  lemma {:induction false} RowBytesPixel(x: nat, y: nat, f: Fill, i: nat, c: nat)
    requires i < x && c < 4
    ensures RowBytes(x, y, f)[4 * i + c] == Bytes(PixelOf(f, i, y))[c]
  {
    if i < x - 1 {
      RowBytesPixel(x - 1, y, f, i, c);
    }
  }

  /** Pixel (x, y) of a raster sits at byte offset (y * width + x) * 4, as the source addresses it. */
  lemma {:induction false} RasterPixel(w: nat, h: nat, f: Fill, x: nat, y: nat, c: nat)
    requires x < w && y < h && c < 4
    ensures |Raster(w, h, f)| == 4 * w * h
    ensures PixelOffset(w, x, y) + c < 4 * w * h
    ensures Raster(w, h, f)[PixelOffset(w, x, y) + c] == Bytes(PixelOf(f, x, y))[c]
  {
    RasterLength(w, h, f);
    RowBeforeLater(w, x, y, h);
    if y == h - 1 {
      LastRowPixel(w, h, f, x, c, PixelOffset(w, x, y) + c);
    } else {
      RowBeforeLater(w, x, y, h - 1);
      RasterPixel(w, h - 1, f, x, y, c);
      EarlierRowByte(w, h, f, PixelOffset(w, x, y) + c);
    }
  }

  /** Byte m of the last row of a raster is byte m - 4 * w * (h - 1) of that row. */
  lemma LastRowPixel(w: nat, h: nat, f: Fill, x: nat, c: nat, m: nat)
    requires 0 < h && x < w && c < 4 && m == PixelOffset(w, x, h - 1) + c
    ensures m < |Raster(w, h, f)| && Raster(w, h, f)[m] == Bytes(PixelOf(f, x, h - 1))[c]
  {
    var prior, row := Raster(w, h - 1, f), RowBytes(w, h - 1, f);
    assert Raster(w, h, f) == prior + row;
    RasterLength(w, h - 1, f);
    OffsetSplit(w, x, h - 1);
    RowBytesPixel(w, h - 1, f, x, c);
    var i := 4 * x + c;
    assert m == |prior| + i && i < |row|;
    assert (prior + row)[|prior| + i] == row[i];
  }

  /** Adding a row keeps every earlier byte. */
  lemma EarlierRowByte(w: nat, h: nat, f: Fill, m: nat)
    requires 0 < h && m < 4 * w * (h - 1)
    ensures |Raster(w, h - 1, f)| == 4 * w * (h - 1) && m < |Raster(w, h, f)|
    ensures Raster(w, h, f)[m] == Raster(w, h - 1, f)[m]
  {
    RasterLength(w, h - 1, f);
    assert Raster(w, h, f) == Raster(w, h - 1, f) + RowBytes(w, h - 1, f);
  }

  lemma OffsetSplit(w: nat, x: nat, y: nat)
    ensures PixelOffset(w, x, y) == 4 * w * y + 4 * x
  {
  }

  /** A pixel of row y lies before row h whenever y < h. */
  lemma RowBeforeLater(w: nat, x: nat, y: nat, h: nat)
    requires x < w && y < h
    ensures PixelOffset(w, x, y) + 4 <= 4 * w * h
  {
    assert y * w + x < (y + 1) * w;
    assert (y + 1) * w <= h * w;
  }

  /** a <= b scales by any non-negative factor. */
  lemma MulMono(a: nat, b: nat, r: nat)
    requires a <= b
    ensures a * r <= b * r
  {
    assert b * r == a * r + (b - a) * r;
  }

  /** Division by r recovers the row and the column of a * r + k when k < r. */
  lemma DivModUnique(a: nat, r: nat, k: nat)
    requires k < r
    ensures (a * r + k) / r == a && (a * r + k) % r == k
  {
    var m := a * r + k;
    var q, rem := m / r, m % r;
    assert m == q * r + rem;
    if q > a {
      MulMono(a + 1, q, r);
    } else if q < a {
      MulMono(q + 1, a, r);
    }
  }

  /** The row of an offset inside the first h rows is below h. */
  lemma DivBelow(m: nat, r: nat, h: nat)
    requires 0 < r && m < h * r
    ensures m / r < h && m / r * r + m % r == m
  {
    if m / r >= h {
      MulMono(h, m / r, r);
    }
  }

  /** max(1, min(width, height) / 8). */
  function CheckerCellSize(w: nat, h: nat): Positive
  {
    Max(1, Min(w, h) / 8)
  }

  /**
   * The checkerboard alternates: moving one cell right or down flips the
   * colour, the alpha is always opaque, and the fallback sizes give 8 cells
   * along each side.
   */
  lemma CheckerAlternates(cs: Positive, x: nat, y: nat)
    ensures PixelOf(Checker(cs), x + cs, y) != PixelOf(Checker(cs), x, y)
    ensures PixelOf(Checker(cs), x, y + cs) != PixelOf(Checker(cs), x, y)
    ensures PixelOf(Checker(cs), x, y).a == 255
    ensures PixelOf(Checker(cs), 0, 0) == White
  {
    NextCell(cs, x);
    NextCell(cs, y);
  }

  /** Moving by one cell moves to the next cell index. */
  lemma NextCell(cs: Positive, v: nat)
    ensures (v + cs) / cs == v / cs + 1
  {
    assert v == v / cs * cs + v % cs;
    assert v + cs == (v / cs + 1) * cs + v % cs;
    DivModUnique(v / cs + 1, cs, v % cs);
  }

  lemma FallbackCellSizes()
    ensures CheckerCellSize(64, 64) == 8 && CheckerCellSize(128, 128) == 16 && CheckerCellSize(256, 256) == 32
    ensures forall w: nat, h: nat :: w < 16 || h < 16 ==> CheckerCellSize(w, h) == 1
  {
  }

  /** Each gradient channel is v * 255 / extent while the product fits 32 bits, so it runs from 0 and stays below 255. */
  lemma GradientRange(v: nat, extent: nat)
    requires v < extent && extent * 255 < U32_MODULUS
    ensures GradientChannel(v, extent) == v * 255 / extent
    ensures GradientChannel(v, extent) < 255
    ensures GradientChannel(0, extent) == 0
  {
    var p := v * 255;
    ScaledBelow(v, extent, p);
    DivBelow(p, extent, 255);
    ChannelIsQuotient(v, extent, p, p / extent);
  }

  lemma ScaledBelow(v: nat, extent: nat, p: nat)
    requires v < extent && p == v * 255
    ensures p < 255 * extent && p < extent * 255
  {
    MulMono(v + 1, extent, 255);
  }

  lemma ChannelIsQuotient(v: nat, extent: nat, p: nat, q: nat)
    requires 0 < extent && p == v * 255 && p < U32_MODULUS && q == p / extent && q < 255
    ensures GradientChannel(v, extent) == q && GradientChannel(0, extent) == 0
  {
    assert Wrap32(p) == p;
  }

  /** n copies of a pixel. */
  function Repeat(p: Pixel, n: nat): (s: seq<u8>)
    ensures |s| == 4 * n
  {
    if n == 0 then [] else Repeat(p, n - 1) + Bytes(p)
  }

  lemma {:induction false} RepeatAppend(p: Pixel, n: nat, m: nat)
    ensures Repeat(p, n) + Repeat(p, m) == Repeat(p, n + m)
  {
    if m > 0 {
      RepeatAppend(p, n, m - 1);
    }
  }

  lemma {:induction false} SolidRow(x: nat, y: nat, c: Pixel)
    ensures RowBytes(x, y, Solid(c)) == Repeat(c, x)
  {
    if x > 0 {
      SolidRow(x - 1, y, c);
    }
  }

  /** A solid raster is w * h copies of the colour: the flat loop and the row-by-row reading agree. */
  lemma {:induction false} SolidRasterIsRepeat(w: nat, h: nat, c: Pixel)
    ensures Raster(w, h, Solid(c)) == Repeat(c, w * h)
  {
    if h > 0 {
      SolidRasterIsRepeat(w, h - 1, c);
      SolidRow(w, h - 1, c);
      RepeatAppend(c, w * (h - 1), w);
      assert w * (h - 1) + w == w * h;
    }
  }

  /** TextureImageData. */
  datatype ImageData = ImageData(width: u32, height: u32, channels: u32, pixels: Option<seq<u8>>)

  /** A default TextureImageData: 0 x 0, 4 channels, no pixels. */
  const DefaultImage: ImageData := ImageData(0, 0, 4, None)

  /** TextureImageData::IsValid. */
  predicate IsValid(img: ImageData)
  {
    img.pixels.Some? && img.width > 0 && img.height > 0
  }

  /** TextureImageData::GetDataSize as written: width * height * channels in 32-bit arithmetic. */
  function GetDataSize(img: ImageData): (r: u32)
    ensures img.width * img.height * img.channels < U32_MODULUS ==> r == img.width * img.height * img.channels
  {
    ProductFits(img.width, img.height, img.channels);
    Wrap32(Wrap32(img.width * img.height) * img.channels)
  }

  /** When a * b * c fits 32 bits, so does a * b, and neither wrap changes anything. */
  lemma ProductFits(a: nat, b: nat, c: nat)
    ensures a * b * c < U32_MODULUS ==> Wrap32(Wrap32(a * b) * c) == a * b * c
  {
    if a * b * c < U32_MODULUS && c > 0 {
      MulMono(1, c, a * b);
      assert a * b * c == c * (a * b);
    }
  }

  /** The byte count the pixel buffer needs: width * height * channels, exactly. */
  function DataSize(img: ImageData): (r: nat)
    ensures img.channels == 4 ==> r == 4 * img.width * img.height
  {
    img.width * img.height * img.channels
  }

  /** A 65536 x 65536 RGBA image needs 16 GiB, but the 32-bit product is 0. */
  lemma GetDataSizeWraps()
    ensures GetDataSize(ImageData(0x1_0000, 0x1_0000, 4, None)) == 0
    ensures DataSize(ImageData(0x1_0000, 0x1_0000, 4, None)) == 0x4_0000_0000
  {
  }

  lemma DefaultImageIsInvalid()
    ensures !IsValid(DefaultImage) && DataSize(DefaultImage) == 0
  {
  }

  /** An RGBA image of the given fill. */
  function ImageOf(w: u32, h: u32, f: Fill): (img: ImageData)
    ensures img.pixels.Some? && |img.pixels.value| == DataSize(img)
    ensures IsValid(img) <==> w > 0 && h > 0
  {
    RasterLength(w, h, f);
    ImageData(w, h, 4, Some(Raster(w, h, f)))
  }

  /** CreateTestPattern: a checkerboard for "checkerboard", solid magenta for any other name. */
  function TestPattern(w: u32, h: u32, pattern: string): ImageData
  {
    if pattern == "checkerboard" then ImageOf(w, h, Checker(CheckerCellSize(w, h)))
    else ImageOf(w, h, Solid(Magenta))
  }

  /** The nested pixel loops of the generators, writing left to right, top to bottom. */
  method FillRaster(w: nat, h: nat, f: Fill) returns (pixels: seq<u8>)
    ensures pixels == Raster(w, h, f)
  {
    RasterLength(w, h, f);
    var a := ZeroedBuffer(4 * w * h);
    var p := 0;
    var y := 0;
    while y < h
      invariant 0 <= y <= h
      invariant p == |Raster(w, y, f)| <= a.Length && a[..p] == Raster(w, y, f)
    {
      RasterPrefixShorter(w, y + 1, h, f);
      assert |Raster(w, y + 1, f)| == p + 4 * w;
      FillRow(a, p, w, y, f);
      p := p + 4 * w;
      y := y + 1;
    }
    assert a[..] == a[..p];
    pixels := a[..];
  }

  /** The inner loop: row y, written from byte p on. */
  method FillRow(a: array<u8>, p: nat, w: nat, y: nat, f: Fill)
    requires p + 4 * w <= a.Length
    modifies a
    ensures a[..p + 4 * w] == old(a[..p]) + RowBytes(w, y, f)
    ensures a[p + 4 * w..] == old(a[p + 4 * w..])
  {
    ghost var prior, tail := a[..p], a[p + 4 * w..];
    var q := p;
    var x := 0;
    while x < w
      invariant 0 <= x <= w && q == p + 4 * x
      invariant a[..q] == prior + RowBytes(x, y, f)
      invariant a[p + 4 * w..] == tail
    {
      WriteRowPixel(a, q, p + 4 * w, prior, x, y, f);
      q := q + 4;
      x := x + 1;
    }
  }

  /** Pixel x of row y written after the row's first x pixels. */
  method WriteRowPixel(a: array<u8>, q: nat, end: nat, ghost prior: seq<u8>, x: nat, y: nat, f: Fill)
    requires q + 4 <= end <= a.Length && a[..q] == prior + RowBytes(x, y, f)
    modifies a
    ensures a[..q + 4] == prior + RowBytes(x + 1, y, f)
    ensures a[end..] == old(a[end..])
  {
    ghost var before := a[..];
    WritePixel(a, q, PixelOf(f, x, y));
    RowGrows(prior, x, y, f);
    SuffixKept(before, a[..], q + 4, end);
  }

  /** One more pixel appended to a row prefix. */
  lemma RowGrows(prior: seq<u8>, x: nat, y: nat, f: Fill)
    ensures prior + RowBytes(x, y, f) + Bytes(PixelOf(f, x, y)) == prior + RowBytes(x + 1, y, f)
  {
    AppendAssoc(prior, RowBytes(x, y, f), Bytes(PixelOf(f, x, y)));
  }

  /** Two sequences that agree from i on agree from any later j on. */
  lemma SuffixKept(s: seq<u8>, t: seq<u8>, i: nat, j: nat)
    requires i <= j <= |s| == |t| && t[i..] == s[i..]
    ensures t[j..] == s[j..]
  {
    assert t[j..] == t[i..][j - i..];
    assert s[j..] == s[i..][j - i..];
  }

  /** The four byte stores of one pixel. */
  method WritePixel(a: array<u8>, p: nat, px: Pixel)
    requires p + 4 <= a.Length
    modifies a
    ensures a[..p + 4] == old(a[..p]) + Bytes(px)
    ensures a[p + 4..] == old(a[p + 4..])
  {
    a[p], a[p + 1], a[p + 2], a[p + 3] := px.r, px.g, px.b, px.a;
  }

  /** CreateSolidColor: one loop over the w * h pixels. */
  method CreateSolidColor(w: u32, h: u32, r: u8, g: u8, b: u8, a: u8) returns (img: ImageData)
    ensures img == ImageOf(w, h, Solid(Pixel(r, g, b, a)))
  {
    var c := Pixel(r, g, b, a);
    var pixels := FillSolid(w * h, c);
    SolidRasterIsRepeat(w, h, c);
    img := ImageData(w, h, 4, Some(pixels));
  }

  method FillSolid(count: nat, c: Pixel) returns (pixels: seq<u8>)
    ensures pixels == Repeat(c, count)
  {
    var buf := new u8[4 * count](_ => 0);
    var i := 0;
    while i < count
      invariant 0 <= i <= count
      invariant buf[..4 * i] == Repeat(c, i)
    {
      WritePixel(buf, 4 * i, c);
      i := i + 1;
    }
    assert buf[..] == buf[..4 * count];
    pixels := buf[..];
  }

  method CreateTestPattern(w: u32, h: u32, pattern: string) returns (img: ImageData)
    ensures img == TestPattern(w, h, pattern)
  {
    if pattern == "checkerboard" {
      var pixels := FillRaster(w, h, Checker(CheckerCellSize(w, h)));
      return ImageData(w, h, 4, Some(pixels));
    }
    img := CreateSolidColor(w, h, 255, 0, 255, 255);
  }

  /** CreateGradient: red follows x, green follows y, blue 128, opaque. */
  method CreateGradient(w: u32, h: u32) returns (img: ImageData)
    ensures img == ImageOf(w, h, Gradient(w, h))
  {
    var pixels := FillRaster(w, h, Gradient(w, h));
    img := ImageData(w, h, 4, Some(pixels));
  }

  /** The offset of row y in rows of r bytes, y * r, counted row by row. */
  function RowStart(y: nat, r: nat): nat
  {
    if y == 0 then 0 else RowStart(y - 1, r) + r
  }

  lemma {:induction false} RowStartIsProduct(y: nat, r: nat)
    ensures RowStart(y, r) == y * r
  {
    if y > 0 {
      RowStartIsProduct(y - 1, r);
      assert (y - 1) * r + r == y * r;
    }
  }

  /** A row ends at or before the start of any later row. */
  lemma {:induction false} RowStartMono(y: nat, z: nat, r: nat)
    requires y < z
    ensures RowStart(y, r) + r <= RowStart(z, r)
  {
    if y < z - 1 {
      RowStartMono(y, z - 1, r);
    }
  }

  /** Byte k of row y, for rows of r bytes. */
  function At(s: seq<u8>, r: nat, y: nat, k: nat): u8
  {
    ByteAt(s, RowStart(y, r) + k)
  }

  /** The rows h - 1, h - 2, ..., h - n of s, in that order. */
  function FlipRows(s: seq<u8>, r: nat, h: nat, n: nat): (t: seq<u8>)
    requires n <= h && RowStart(h, r) <= |s|
    ensures |t| == RowStart(n, r)
  {
    if n == 0 then []
    else
      RowStartMono(h - n, h, r);
      FlipRows(s, r, h, n - 1) + s[RowStart(h - n, r)..RowStart(h - n, r) + r]
  }

  /** The image upside down: the first h rows of r bytes in reverse order; bytes after them stay. */
  function Flipped(s: seq<u8>, r: nat, h: nat): (t: seq<u8>)
    requires RowStart(h, r) <= |s|
    ensures |t| == |s|
  {
    FlipRows(s, r, h, h) + s[RowStart(h, r)..]
  }

  lemma {:induction false} FlipRowsAt(s: seq<u8>, r: nat, h: nat, n: nat, y: nat, k: nat)
    requires n <= h && RowStart(h, r) <= |s| && y < n && k < r
    ensures RowStart(y, r) + k < RowStart(n, r) && RowStart(h - 1 - y, r) + k < RowStart(h, r)
    ensures FlipRows(s, r, h, n)[RowStart(y, r) + k] == s[RowStart(h - 1 - y, r) + k]
  {
    RowStartMono(y, n, r);
    RowStartMono(h - 1 - y, h, r);
    RowStartMono(h - n, h, r);
    var prev := FlipRows(s, r, h, n - 1);
    var row := s[RowStart(h - n, r)..RowStart(h - n, r) + r];
    assert FlipRows(s, r, h, n) == prev + row;
    if y < n - 1 {
      FlipRowsAt(s, r, h, n - 1, y, k);
      RowStartMono(y, n - 1, r);
      assert (prev + row)[RowStart(y, r) + k] == prev[RowStart(y, r) + k];
    } else {
      assert (prev + row)[|prev| + k] == row[k];
    }
  }

  /** Row y of the flipped image is row h - 1 - y of the original. */
  lemma FlippedAt(s: seq<u8>, r: nat, h: nat, y: nat, k: nat)
    requires RowStart(h, r) <= |s| && y < h && k < r
    ensures At(Flipped(s, r, h), r, y, k) == At(s, r, h - 1 - y, k)
  {
    FlippedIndex(s, r, h, y, k, RowStart(y, r) + k, RowStart(h - 1 - y, r) + k);
  }

  /** Byte m, at row y and column k of the flipped image, is byte src, at row h - 1 - y and column k of s. */
  lemma FlippedIndex(s: seq<u8>, r: nat, h: nat, y: nat, k: nat, m: nat, src: nat)
    requires RowStart(h, r) <= |s| && y < h && k < r
    requires m == RowStart(y, r) + k && src == RowStart(h - 1 - y, r) + k
    ensures m < |s| && src < |s| && Flipped(s, r, h)[m] == s[src]
  {
    FlipRowsAt(s, r, h, h, y, k);
    FlippedTakesRows(s, r, h, m);
  }

  lemma FlippedTakesRows(s: seq<u8>, r: nat, h: nat, m: nat)
    requires RowStart(h, r) <= |s| && m < RowStart(h, r)
    ensures Flipped(s, r, h)[m] == FlipRows(s, r, h, h)[m]
  {
    var rows, rest := FlipRows(s, r, h, h), s[RowStart(h, r)..];
    assert Flipped(s, r, h) == rows + rest;
  }

  /** Row by row the flipped image is the original upside down; the bytes after the rows are kept. */
  lemma FlippedRows(s: seq<u8>, r: nat, h: nat)
    requires RowStart(h, r) <= |s|
    ensures forall y, k :: 0 <= y < h && 0 <= k < r ==> At(Flipped(s, r, h), r, y, k) == At(s, r, h - 1 - y, k)
    ensures forall m :: RowStart(h, r) <= m < |s| ==> Flipped(s, r, h)[m] == s[m]
  {
    forall y, k | 0 <= y < h && 0 <= k < r
      ensures At(Flipped(s, r, h), r, y, k) == At(s, r, h - 1 - y, k)
    {
      FlippedAt(s, r, h, y, k);
    }
    forall m | RowStart(h, r) <= m < |s|
      ensures Flipped(s, r, h)[m] == s[m]
    {
      FlippedKeepsRest(s, r, h, m);
    }
  }

  lemma FlippedKeepsRest(s: seq<u8>, r: nat, h: nat, m: nat)
    requires RowStart(h, r) <= m < |s|
    ensures Flipped(s, r, h)[m] == s[m]
  {
    var rows, rest := FlipRows(s, r, h, h), s[RowStart(h, r)..];
    assert Flipped(s, r, h) == rows + rest;
    assert (rows + rest)[m] == rest[m - RowStart(h, r)];
  }

  /** Every offset inside the first h rows is some row's start plus a column. */
  lemma {:induction false} Decompose(m: nat, r: nat, h: nat) returns (y: nat, k: nat)
    requires m < RowStart(h, r)
    ensures y < h && k < r && m == RowStart(y, r) + k
  {
    if m < RowStart(h - 1, r) {
      y, k := Decompose(m, r, h - 1);
    } else {
      y, k := h - 1, m - RowStart(h - 1, r);
    }
  }

  /** Two images that agree row by row on the first h rows and on the bytes after them are equal. */
  lemma RowsDetermine(t: seq<u8>, u: seq<u8>, r: nat, h: nat)
    requires |t| == |u| && RowStart(h, r) <= |t|
    requires forall y, k :: 0 <= y < h && 0 <= k < r ==> At(t, r, y, k) == At(u, r, y, k)
    requires forall m :: RowStart(h, r) <= m < |t| ==> t[m] == u[m]
    ensures t == u
  {
    forall m | 0 <= m < |t|
      ensures t[m] == u[m]
    {
      if m < RowStart(h, r) {
        var y, k := Decompose(m, r, h);
        assert At(t, r, y, k) == At(u, r, y, k);
      }
    }
  }

  /** Flipping twice gives the image back. */
  lemma FlipTwiceIsIdentity(s: seq<u8>, r: nat, h: nat)
    requires RowStart(h, r) <= |s|
    ensures Flipped(Flipped(s, r, h), r, h) == s
  {
    var t := Flipped(s, r, h);
    FlippedRows(s, r, h);
    FlippedRows(t, r, h);
    forall y, k | 0 <= y < h && 0 <= k < r
      ensures At(Flipped(t, r, h), r, y, k) == At(s, r, y, k)
    {
      assert At(Flipped(t, r, h), r, y, k) == At(t, r, h - 1 - y, k);
    }
    RowsDetermine(Flipped(t, r, h), s, r, h);
  }

  /** In an odd-height image the middle row stays where it is. */
  lemma MiddleRowStays(s: seq<u8>, r: nat, h: nat, k: nat)
    requires RowStart(h, r) <= |s| && h % 2 == 1 && k < r
    ensures At(Flipped(s, r, h), r, h / 2, k) == At(s, r, h / 2, k)
  {
    FlippedRows(s, r, h);
  }

  /** An offset RowStart(y) + k with k < r lies in row i exactly when y == i. */
  lemma RowOffset(y: nat, k: nat, r: nat, i: nat)
    requires k < r
    ensures RowStart(i, r) <= RowStart(y, r) + k < RowStart(i, r) + r <==> y == i
  {
    if y < i {
      RowStartMono(y, i, r);
    } else if y > i {
      RowStartMono(i, y, r);
    }
  }

  /** The source byte for offset m once the r bytes at top and at bottom are exchanged. */
  function SwapSource(m: nat, top: nat, bottom: nat, r: nat): nat
    requires top <= bottom
  {
    if top <= m < top + r then m + (bottom - top)
    else if bottom <= m < bottom + r then m - (bottom - top)
    else m
  }

  /** t is s with the r bytes at top and the r bytes at bottom exchanged. */
  ghost predicate BytesSwapped(s: seq<u8>, t: seq<u8>, top: nat, bottom: nat, r: nat)
  {
    top + r <= bottom && bottom + r <= |s| == |t| &&
    forall m :: 0 <= m < |t| ==> t[m] == s[SwapSource(m, top, bottom, r)]
  }

  /** Exchanges the r bytes at top with the r bytes at bottom. */
  method SwapBytes(a: array<u8>, top: nat, bottom: nat, r: nat)
    requires top + r <= bottom && bottom + r <= a.Length
    modifies a
    ensures BytesSwapped(old(a[..]), a[..], top, bottom, r)
  {
    ghost var s := a[..];
    var k := 0;
    while k < r
      invariant 0 <= k <= r
      invariant forall m :: 0 <= m < a.Length ==> a[m] == s[SwapSource(m, top, bottom, k)]
    {
      a[top + k], a[bottom + k] := a[bottom + k], a[top + k];
      k := k + 1;
    }
  }

  /** Row y's source row when rows i and j are exchanged. */
  function SwapRow(y: nat, i: nat, j: nat): nat
  {
    if y == i then j else if y == j then i else y
  }

  /** Row by row, t is s with rows i and j exchanged; the bytes after the h rows are kept. */
  ghost predicate RowsSwapped(s: seq<u8>, t: seq<u8>, r: nat, h: nat, i: nat, j: nat)
  {
    |s| == |t| && RowStart(h, r) <= |s| &&
    (forall y, k :: 0 <= y < h && 0 <= k < r ==> At(t, r, y, k) == At(s, r, SwapRow(y, i, j), k)) &&
    (forall m :: RowStart(h, r) <= m < |t| ==> t[m] == s[m])
  }

  /** Swapping rows i and j (the source copies through a temporary row). */
  method SwapRows(a: array<u8>, r: nat, h: nat, i: nat, j: nat)
    requires i < j < h && RowStart(h, r) <= a.Length
    modifies a
    ensures RowsSwapped(old(a[..]), a[..], r, h, i, j)
  {
    var top, bottom := i * r, j * r;
    RowStartIsProduct(i, r);
    RowStartIsProduct(j, r);
    RowStartMono(i, j, r);
    RowStartMono(j, h, r);
    SwapBytes(a, top, bottom, r);
    SwappedBytesAreSwappedRows(old(a[..]), a[..], r, h, i, j);
  }

  /** The byte-level swap of rows i and j, read row by row. */
  lemma SwappedBytesAreSwappedRows(s: seq<u8>, t: seq<u8>, r: nat, h: nat, i: nat, j: nat)
    requires i < j < h && RowStart(h, r) <= |s|
    requires BytesSwapped(s, t, RowStart(i, r), RowStart(j, r), r)
    ensures RowsSwapped(s, t, r, h, i, j)
  {
    forall y, c | 0 <= y < h && 0 <= c < r
      ensures At(t, r, y, c) == At(s, r, SwapRow(y, i, j), c)
    {
      SwappedAt(s, t, r, h, i, j, y, c);
    }
    forall m | RowStart(h, r) <= m < |t|
      ensures t[m] == s[m]
    {
      RowStartMono(j, h, r);
      assert t[m] == s[SwapSource(m, RowStart(i, r), RowStart(j, r), r)];
    }
  }

  lemma SwappedAt(s: seq<u8>, t: seq<u8>, r: nat, h: nat, i: nat, j: nat, y: nat, c: nat)
    requires i < j < h && RowStart(h, r) <= |s| && y < h && c < r
    requires BytesSwapped(s, t, RowStart(i, r), RowStart(j, r), r)
    ensures At(t, r, y, c) == At(s, r, SwapRow(y, i, j), c)
  {
    SwappedIndex(s, t, r, h, i, j, y, c, RowStart(y, r) + c, RowStart(SwapRow(y, i, j), r) + c);
  }

  /** Byte m, at row y and column c of t, is byte src, at row SwapRow(y, i, j) and column c of s. */
  lemma SwappedIndex(s: seq<u8>, t: seq<u8>, r: nat, h: nat, i: nat, j: nat, y: nat, c: nat, m: nat, src: nat)
    requires i < j < h && RowStart(h, r) <= |s| && y < h && c < r
    requires BytesSwapped(s, t, RowStart(i, r), RowStart(j, r), r)
    requires m == RowStart(y, r) + c && src == RowStart(SwapRow(y, i, j), r) + c
    ensures m < |t| && src < |s| && t[m] == s[src]
  {
    RowStartMono(y, h, r);
    var top, bottom := RowStart(i, r), RowStart(j, r);
    assert src == SwapSource(m, top, bottom, r) by {
      RowOffset(y, c, r, i);
      RowOffset(y, c, r, j);
      if y == i {
        assert src == bottom + c;
      } else if y == j {
        assert src == top + c;
      }
    }
  }

  /** t holds s with its first n rows and its last n rows flipped into place, the rest untouched. */
  ghost predicate FlippedUpTo(s: seq<u8>, t: seq<u8>, r: nat, h: nat, n: nat)
  {
    |s| == |t| && RowStart(h, r) <= |s| &&
    (forall y, k :: 0 <= y < h && 0 <= k < r ==>
       At(t, r, y, k) == At(s, r, if y < n || h - 1 - n < y then h - 1 - y else y, k)) &&
    (forall m :: RowStart(h, r) <= m < |t| ==> t[m] == s[m])
  }

  lemma FlipStep(s: seq<u8>, t: seq<u8>, u: seq<u8>, r: nat, h: nat, n: nat)
    requires n < h / 2
    requires FlippedUpTo(s, t, r, h, n) && RowsSwapped(t, u, r, h, n, h - 1 - n)
    ensures FlippedUpTo(s, u, r, h, n + 1)
  {
    forall y, k | 0 <= y < h && 0 <= k < r
      ensures At(u, r, y, k) == At(s, r, if y < n + 1 || h - 1 - (n + 1) < y then h - 1 - y else y, k)
    {
      assert At(u, r, y, k) == At(t, r, SwapRow(y, n, h - 1 - n), k);
    }
  }

  lemma FlipDone(s: seq<u8>, t: seq<u8>, r: nat, h: nat)
    requires FlippedUpTo(s, t, r, h, h / 2)
    ensures t == Flipped(s, r, h)
  {
    FlippedRows(s, r, h);
    forall y, k | 0 <= y < h && 0 <= k < r
      ensures At(t, r, y, k) == At(Flipped(s, r, h), r, y, k)
    {
      assert At(t, r, y, k) == At(s, r, if y < h / 2 || h - 1 - h / 2 < y then h - 1 - y else y, k);
    }
    RowsDetermine(t, Flipped(s, r, h), r, h);
  }

  /** FlipImageVertically: swaps row y with row height - 1 - y for y < height / 2. */
  method FlipImageVertically(data: array<u8>, width: nat, height: nat, channels: nat)
    requires height * (width * channels) <= data.Length
    modifies data
    ensures RowStart(height, width * channels) <= data.Length
    ensures data[..] == Flipped(old(data[..]), width * channels, height)
  {
    var rowSize := width * channels;
    RowStartIsProduct(height, rowSize);
    SwapRowPairs(data, rowSize, height);
  }

  /** The loop of FlipImageVertically: row y trades places with row h - 1 - y for every y < h / 2. */
  method SwapRowPairs(data: array<u8>, rowSize: nat, height: nat)
    requires RowStart(height, rowSize) <= data.Length
    modifies data
    ensures data[..] == Flipped(old(data[..]), rowSize, height)
  {
    ghost var s := data[..];
    var y := 0;
    while y < height / 2
      invariant 0 <= y <= height / 2
      invariant FlippedUpTo(s, data[..], rowSize, height, y)
    {
      ghost var before := data[..];
      SwapRows(data, rowSize, height, y, height - 1 - y);
      FlipStep(s, before, data[..], rowSize, height, y);
      y := y + 1;
    }
    FlipDone(s, data[..], rowSize, height);
  }

  /** The bytes each source pixel occupies: bitCount / 8. */
  function BytesPerPixel(bitCount: nat): nat
  {
    bitCount / 8
  }

  /**
   * For the accepted depths the conversion of pixel (x, y) reads only bytes
   * of row y's pixels, never the row padding or another row.
   */
  lemma ConversionReadsInsideRow(bitCount: nat, width: nat, x: nat, y: nat)
    requires bitCount == 24 || bitCount == 32
    requires x < width
    ensures var rowSize := RowStride(bitCount, width);
            var o := y * rowSize + x * BytesPerPixel(bitCount);
            y * rowSize <= o && o + BytesPerPixel(bitCount) <= y * rowSize + width * BytesPerPixel(bitCount) <= y * rowSize + rowSize
  {
    RowStrideHoldsRow(bitCount, width);
    MulMono(x + 1, width, BytesPerPixel(bitCount));
  }

  /**
   * ConvertToRGBA: BGR (24-bit) or BGRA (32-bit) source rows of RowStride
   * bytes become RGBA rows of 4 * width bytes, alpha 255 for 24-bit; for
   * any other depth the loops store nothing.
   */
  method ConvertToRGBA(src: seq<u8>, dst: array<u8>, width: nat, height: nat, bitCount: nat)
    requires 4 * width * height <= dst.Length
    modifies dst
    ensures bitCount == 24 || bitCount == 32 ==>
              dst[..4 * width * height] == Raster(width, height, FromBmp(src, RowStride(bitCount, width), bitCount))
    ensures bitCount == 24 || bitCount == 32 ==> dst[4 * width * height..] == old(dst[4 * width * height..])
    ensures bitCount != 24 && bitCount != 32 ==> dst[..] == old(dst[..])
  {
    if bitCount != 24 && bitCount != 32 {
      return;
    }
    var f := FromBmp(src, RowStride(bitCount, width), bitCount);
    RasterLength(width, height, f);
    var p := 0;
    var y := 0;
    while y < height
      invariant 0 <= y <= height
      invariant p == |Raster(width, y, f)| <= 4 * width * height
      invariant dst[..p] == Raster(width, y, f)
      invariant dst[4 * width * height..] == old(dst[4 * width * height..])
    {
      RasterPrefixShorter(width, y + 1, height, f);
      assert |Raster(width, y + 1, f)| == p + 4 * width;
      FillRow(dst, p, width, y, f);
      assert dst[4 * width * height..] == dst[p + 4 * width..][4 * width * height - (p + 4 * width)..];
      p := p + 4 * width;
      y := y + 1;
    }
  }

  /** abs() of a 32-bit width or height, cast to uint32 (|-2^31| is 2^31). */
  function Abs32(v: i32): (r: u32)
    ensures r == v || r == -(v as int)
  {
    if v < 0 then -(v as int) else v
  }

  /** The two headers as read from the front of the file; bytes past its end read as 0. */
  function HeaderBytes(file: seq<u8>): (b: seq<u8>)
    ensures |b| == FileHeaderSize + InfoHeaderSize
    ensures |file| >= FileHeaderSize + InfoHeaderSize ==> b == file[..FileHeaderSize + InfoHeaderSize]
  {
    seq<u8>(FileHeaderSize + InfoHeaderSize, i requires 0 <= i < FileHeaderSize + InfoHeaderSize => ByteAt(file, i))
  }

  /** `size` bytes read from `offset` into a zeroed buffer: whatever lies past the end of the file stays 0. */
  function SourceData(file: seq<u8>, offset: nat, size: nat): (d: seq<u8>)
    ensures |d| == size
    ensures forall i :: 0 <= i < size ==> d[i] == ByteAt(file, offset + i)
  {
    seq<u8>(size, i requires 0 <= i < size => ByteAt(file, offset + i))
  }

  /** The pixel rows as stored in the file, converted to RGBA, in file order. */
  function Decoded(file: seq<u8>, ih: BMPInfoHeader, offset: nat): (d: seq<u8>)
    ensures |d| == 4 * Abs32(ih.biWidth) * Abs32(ih.biHeight)
  {
    var w, h := Abs32(ih.biWidth), Abs32(ih.biHeight);
    var rowSize := RowStride(ih.biBitCount, w);
    RasterLength(w, h, FromBmp(SourceData(file, offset, rowSize * h), rowSize, ih.biBitCount));
    Raster(w, h, FromBmp(SourceData(file, offset, rowSize * h), rowSize, ih.biBitCount))
  }

  /**
   * What LoadBMP returns for the file contents (None: the file cannot be
   * opened): the default image when the file cannot be opened or its headers
   * are rejected; otherwise |biWidth| x |biHeight| RGBA pixels, turned
   * upside down when biHeight is positive (rows stored bottom to top).
   */
  function BmpImage(file: Option<seq<u8>>): (img: ImageData)
    ensures img.channels == 4
    ensures img.pixels.Some? ==> |img.pixels.value| == DataSize(img)
  {
    match file
    case None => DefaultImage
    case Some(bytes) =>
      var header := HeaderBytes(bytes);
      var fh, ih := ParseFileHeader(header), ParseInfoHeader(header[FileHeaderSize..]);
      if !ValidateBMPHeaders(fh, ih) then DefaultImage
      else Oriented(bytes, ih, fh.bfOffBits)
  }

  /** The decoded |biWidth| x |biHeight| image, turned upside down when biHeight is positive. */
  function Oriented(bytes: seq<u8>, ih: BMPInfoHeader, offset: nat): (img: ImageData)
    ensures img.channels == 4 && img.pixels.Some? && |img.pixels.value| == DataSize(img)
  {
    var w, h := Abs32(ih.biWidth), Abs32(ih.biHeight);
    var decoded := Decoded(bytes, ih, offset);
    RowStartIsProduct(h, 4 * w);
    ImageData(w, h, 4, Some(if ih.biHeight > 0 then Flipped(decoded, 4 * w, h) else decoded))
  }

  /** LoadBMP: read the headers, validate them, convert the rows to RGBA, flip bottom-up files. */
  method LoadBMP(file: Option<seq<u8>>) returns (img: ImageData)
    ensures img == BmpImage(file)
  {
    if file.None? {
      return DefaultImage;
    }
    var bytes := file.value;
    var header := HeaderBytes(bytes);
    var fileHeader := ParseFileHeader(header);
    var infoHeader := ParseInfoHeader(header[FileHeaderSize..]);
    if !ValidateBMPHeaders(fileHeader, infoHeader) {
      return DefaultImage;
    }
    var width, height := Abs32(infoHeader.biWidth), Abs32(infoHeader.biHeight);
    var pixels := DecodePixels(bytes, infoHeader, fileHeader.bfOffBits);
    if infoHeader.biHeight > 0 {
      FlipRGBA(pixels, width, height);
    }
    img := ImageData(width, height, 4, Some(pixels[..]));
  }

  /** The middle of LoadBMP: the source rows read into a zeroed buffer, converted into a new RGBA buffer. */
  method DecodePixels(bytes: seq<u8>, infoHeader: BMPInfoHeader, offset: nat) returns (pixels: array<u8>)
    requires infoHeader.biBitCount == 24 || infoHeader.biBitCount == 32
    ensures fresh(pixels) && pixels[..] == Decoded(bytes, infoHeader, offset)
  {
    var width, height := Abs32(infoHeader.biWidth) as nat, Abs32(infoHeader.biHeight) as nat;
    var rowSize := RowStride(infoHeader.biBitCount, width);
    var sourceData := SourceData(bytes, offset, rowSize * height);
    pixels := RgbaFromSource(sourceData, width, height, infoHeader.biBitCount);
    DecodedIsRaster(bytes, infoHeader, offset, FromBmp(sourceData, rowSize, infoHeader.biBitCount));
  }

  /** A zeroed buffer of width * height RGBA pixels, filled by ConvertToRGBA. */
  method RgbaFromSource(src: seq<u8>, width: nat, height: nat, bitCount: nat) returns (pixels: array<u8>)
    requires bitCount == 24 || bitCount == 32
    ensures fresh(pixels) && pixels[..] == Raster(width, height, FromBmp(src, RowStride(bitCount, width), bitCount))
  {
    var size := 4 * width * height;
    pixels := ZeroedBuffer(size);
    ConvertToRGBA(src, pixels, width, height, bitCount);
    AllRows(pixels[..], size);
  }

  lemma DecodedIsRaster(bytes: seq<u8>, ih: BMPInfoHeader, offset: nat, f: Fill)
    requires f == FromBmp(SourceData(bytes, offset, RowStride(ih.biBitCount, Abs32(ih.biWidth)) * Abs32(ih.biHeight)),
                          RowStride(ih.biBitCount, Abs32(ih.biWidth)), ih.biBitCount)
    ensures Decoded(bytes, ih, offset) == Raster(Abs32(ih.biWidth), Abs32(ih.biHeight), f)
  {
  }

  lemma AllRows(s: seq<u8>, n: nat)
    requires n == |s|
    ensures s[..n] == s
  {
  }

  /** FlipImageVertically on RGBA pixels: 4 channels of width pixels per row. */
  method FlipRGBA(pixels: array<u8>, width: nat, height: nat)
    requires pixels.Length == 4 * width * height
    modifies pixels
    ensures RowStart(height, 4 * width) == pixels.Length
    ensures pixels[..] == Flipped(old(pixels[..]), 4 * width, height)
  {
    assert 4 * width * height == height * (width * 4);
    RowStartIsProduct(height, 4 * width);
    FlipImageVertically(pixels, width, height, 4);
  }

  /** A file that cannot be opened, or whose headers are rejected, gives the invalid default image. */
  lemma BmpRejects(file: Option<seq<u8>>)
    requires file.None? ||
             !ValidateBMPHeaders(ParseFileHeader(HeaderBytes(file.value)),
                                 ParseInfoHeader(HeaderBytes(file.value)[FileHeaderSize..]))
    ensures BmpImage(file) == DefaultImage && !IsValid(BmpImage(file))
  {
  }

  /** h rows of w pixels fill 4 * w * h bytes. */
  lemma RowsFill(w: nat, h: nat)
    ensures RowStart(h, 4 * w) == 4 * w * h
  {
    RowStartIsProduct(h, 4 * w);
    assert 4 * w * h == h * (4 * w);
  }

  /** Row y's start in a raster of w pixels is where the source's (y * w + x) * 4 addressing puts it. */
  lemma RowStartIsPixelOffset(w: nat, x: nat, y: nat)
    ensures RowStart(y, 4 * w) + 4 * x == PixelOffset(w, x, y)
  {
    RowStartIsProduct(y, 4 * w);
    assert y * (4 * w) + 4 * x == (y * w + x) * 4;
  }

  /**
   * Each loaded pixel is the BMP pixel of the same column from row
   * height - 1 - y of the file when biHeight is positive, from row y when it
   * is negative: byte c of pixel (x, y) is channel c of the converted pixel.
   */
  lemma BmpPixel(bytes: seq<u8>, fh: BMPFileHeader, ih: BMPInfoHeader, x: nat, y: nat, c: nat)
    requires fh == ParseFileHeader(HeaderBytes(bytes))
    requires ih == ParseInfoHeader(HeaderBytes(bytes)[FileHeaderSize..])
    requires ValidateBMPHeaders(fh, ih)
    requires x < Abs32(ih.biWidth) && y < Abs32(ih.biHeight) && c < 4
    ensures var img := BmpImage(Some(bytes));
            var w, h := Abs32(ih.biWidth), Abs32(ih.biHeight);
            var rowSize := RowStride(ih.biBitCount, w);
            var f := FromBmp(SourceData(bytes, fh.bfOffBits, rowSize * h), rowSize, ih.biBitCount);
            img.width == w && img.height == h && img.pixels.Some? &&
            PixelOffset(w, x, y) + c < |img.pixels.value| &&
            img.pixels.value[PixelOffset(w, x, y) + c] == Bytes(PixelOf(f, x, if ih.biHeight > 0 then h - 1 - y else y))[c]
  {
    assert BmpImage(Some(bytes)) == Oriented(bytes, ih, fh.bfOffBits);
    OrientedPixel(bytes, ih, fh.bfOffBits, x, y, c);
  }

  /** Byte c of pixel (x, y) of the oriented image is byte c of pixel (x, y) or (x, h - 1 - y) of the file rows. */
  lemma OrientedPixel(bytes: seq<u8>, ih: BMPInfoHeader, offset: nat, x: nat, y: nat, c: nat)
    requires x < Abs32(ih.biWidth) && y < Abs32(ih.biHeight) && c < 4
    ensures var img := Oriented(bytes, ih, offset);
            var w, h := Abs32(ih.biWidth), Abs32(ih.biHeight);
            var rowSize := RowStride(ih.biBitCount, w);
            var f := FromBmp(SourceData(bytes, offset, rowSize * h), rowSize, ih.biBitCount);
            img.width == w && img.height == h &&
            PixelOffset(w, x, y) + c < |img.pixels.value| &&
            img.pixels.value[PixelOffset(w, x, y) + c] == Bytes(PixelOf(f, x, if ih.biHeight > 0 then h - 1 - y else y))[c]
  {
    var w, h := Abs32(ih.biWidth), Abs32(ih.biHeight);
    var rowSize := RowStride(ih.biBitCount, w);
    var f := FromBmp(SourceData(bytes, offset, rowSize * h), rowSize, ih.biBitCount);
    var decoded := Decoded(bytes, ih, offset);
    assert decoded == Raster(w, h, f);
    RasterLength(w, h, f);
    RowsFill(w, h);
    RasterOrientedPixel(Oriented(bytes, ih, offset).pixels.value, decoded, w, h, f, ih.biHeight > 0, x, y, c);
  }

  /** Byte c of pixel (x, y) of a raster taken upside down or as it is. */
  lemma RasterOrientedPixel(p: seq<u8>, d: seq<u8>, w: nat, h: nat, f: Fill, flip: bool, x: nat, y: nat, c: nat)
    requires x < w && y < h && c < 4
    requires d == Raster(w, h, f) && |d| == 4 * w * h && RowStart(h, 4 * w) == 4 * w * h
    requires p == if flip then Flipped(d, 4 * w, h) else d
    ensures PixelOffset(w, x, y) + c < |p|
    ensures p[PixelOffset(w, x, y) + c] == Bytes(PixelOf(f, x, if flip then h - 1 - y else y))[c]
  {
    RasterPixel(w, h, f, x, if flip then h - 1 - y else y, c);
    if flip {
      FlippedPixel(d, w, h, x, y, c);
    }
  }

  /** Pixel (x, y) of the flipped RGBA image is pixel (x, h - 1 - y) of the original. */
  lemma FlippedPixel(d: seq<u8>, w: nat, h: nat, x: nat, y: nat, c: nat)
    requires |d| == 4 * w * h && x < w && y < h && c < 4
    ensures RowStart(h, 4 * w) <= |d|
    ensures PixelOffset(w, x, y) + c < |d| && PixelOffset(w, x, h - 1 - y) + c < |d|
    ensures Flipped(d, 4 * w, h)[PixelOffset(w, x, y) + c] == d[PixelOffset(w, x, h - 1 - y) + c]
  {
    RowsFill(w, h);
    RowStartIsPixelOffset(w, x, y);
    RowStartIsPixelOffset(w, x, h - 1 - y);
    FlippedIndex(d, 4 * w, h, y, 4 * x + c, PixelOffset(w, x, y) + c, PixelOffset(w, x, h - 1 - y) + c);
  }

  /** std::string::ends_with: the last |suffix| characters of s are suffix. */
  predicate EndsWith(s: string, suffix: string)
  {
    |suffix| <= |s| && s[|s| - |suffix|..] == suffix
  }

  lemma EndsWithIffSuffix(s: string, suffix: string)
    ensures EndsWith(s, suffix) <==> exists p :: s == p + suffix
  {
    if EndsWith(s, suffix) {
      assert s == s[..|s| - |suffix|] + suffix;
    }
    if p :| s == p + suffix {
      assert s[|s| - |suffix|..] == suffix;
    }
  }

  /** find(part) != npos: part occurs in s, tried at every starting position from the left. */
  predicate Contains(s: string, part: string)
    decreases |s|
  {
    (|part| <= |s| && s[..|part|] == part) || (|s| > 0 && Contains(s[1..], part))
  }

  /** part occurs in s starting at position i. */
  predicate OccursAt(s: string, part: string, i: nat)
  {
    i + |part| <= |s| && s[i..i + |part|] == part
  }

  /** Contains says exactly that part occurs at some position of s. */
  lemma ContainsIffOccurs(s: string, part: string)
    ensures Contains(s, part) <==> exists i: nat :: OccursAt(s, part, i)
  {
    if Contains(s, part) {
      ContainsHasOccurrence(s, part);
    }
    if i: nat :| OccursAt(s, part, i) {
      OccurrenceIsContained(s, part, i);
    }
  }

  lemma {:induction false} ContainsHasOccurrence(s: string, part: string)
    requires Contains(s, part)
    decreases |s|
    ensures exists i: nat :: OccursAt(s, part, i)
  {
    if |part| <= |s| && s[..|part|] == part {
      assert OccursAt(s, part, 0);
    } else {
      ContainsHasOccurrence(s[1..], part);
      var i: nat :| OccursAt(s[1..], part, i);
      assert s[i + 1..i + 1 + |part|] == s[1..][i..i + |part|];
      assert OccursAt(s, part, i + 1);
    }
  }

  lemma {:induction false} OccurrenceIsContained(s: string, part: string, i: nat)
    requires OccursAt(s, part, i)
    decreases i
    ensures Contains(s, part)
  {
    if i > 0 {
      assert s[1..][i - 1..i - 1 + |part|] == s[i..i + |part|];
      OccurrenceIsContained(s[1..], part, i - 1);
    }
  }

  /** The loaders, chosen by the file name's extension. */
  datatype ImageFormat = Bmp | Dds | Unsupported

  /** ".bmp" or ".BMP" selects the BMP loader, ".dds" or ".DDS" the DDS loader; the test is case-exact. */
  function FormatOf(path: string): ImageFormat
  {
    if EndsWith(path, ".bmp") || EndsWith(path, ".BMP") then Bmp
    else if EndsWith(path, ".dds") || EndsWith(path, ".DDS") then Dds
    else Unsupported
  }

  /** Mixed-case extensions are not recognised. */
  lemma FormatIsCaseExact()
    ensures FormatOf("wall.bmp") == Bmp && FormatOf("wall.BMP") == Bmp
    ensures FormatOf("wall.dds") == Dds && FormatOf("wall.DDS") == Dds
    ensures FormatOf("wall.Bmp") == Unsupported && FormatOf("wall.png") == Unsupported
  {
    assert "wall.bmp"[4..] == ".bmp";
    assert "wall.BMP"[4..] == ".BMP";
    assert "wall.dds"[4..] == ".dds";
    assert "wall.DDS"[4..] == ".DDS";
  }

  /** Side of the DDS fallbacks for brick textures, of the other DDS fallbacks, and of the unsupported-format fallback. */
  const BrickSide: u32 := 256
  const DdsSide: u32 := 128
  const UnsupportedSide: u32 := 64

  /**
   * LoadDDS reads nothing: a path containing "bricks" gets a 256 x 256 image,
   * solid (128, 128, 255, 255) when it also contains "nmap" and a checkerboard
   * otherwise; any other path a 128 x 128 checkerboard.
   */
  function DdsImage(path: string): ImageData
  {
    if Contains(path, "bricks") then
      if Contains(path, "nmap") then ImageOf(BrickSide, BrickSide, Solid(Pixel(128, 128, 255, 255)))
      else TestPattern(BrickSide, BrickSide, "checkerboard")
    else TestPattern(DdsSide, DdsSide, "checkerboard")
  }

  method LoadDDS(path: string) returns (img: ImageData)
    ensures img == DdsImage(path)
  {
    if Contains(path, "bricks") {
      if Contains(path, "nmap") {
        img := CreateSolidColor(BrickSide, BrickSide, 128, 128, 255, 255);
      } else {
        img := CreateTestPattern(BrickSide, BrickSide, "checkerboard");
      }
    } else {
      img := CreateTestPattern(DdsSide, DdsSide, "checkerboard");
    }
  }

  /** What LoadFromFile returns for a path and the file's contents (None: it cannot be opened). */
  function LoadedImage(path: string, file: Option<seq<u8>>): ImageData
  {
    match FormatOf(path)
    case Bmp => BmpImage(file)
    case Dds => DdsImage(path)
    case Unsupported => TestPattern(UnsupportedSide, UnsupportedSide, "checkerboard")
  }

  /** LoadFromFile: the BMP loader, the DDS fallback, or a 64 x 64 checkerboard for anything else. */
  method LoadFromFile(path: string, file: Option<seq<u8>>) returns (img: ImageData)
    ensures img == LoadedImage(path, file)
  {
    if EndsWith(path, ".bmp") || EndsWith(path, ".BMP") {
      img := LoadBMP(file);
    } else if EndsWith(path, ".dds") || EndsWith(path, ".DDS") {
      img := LoadDDS(path);
    } else {
      img := CreateTestPattern(UnsupportedSide, UnsupportedSide, "checkerboard");
    }
  }

  /**
   * Only the BMP path can fail: a DDS or unsupported path always yields a
   * valid square RGBA image (256, 128 or 64 pixels a side), whatever the file.
   */
  lemma OnlyBmpCanFail(path: string, file: Option<seq<u8>>)
    requires FormatOf(path) != Bmp
    ensures var img := LoadedImage(path, file);
            IsValid(img) && img.width == img.height && img.channels == 4 &&
            |img.pixels.value| == 4 * img.width * img.height &&
            img.width == (if FormatOf(path) == Unsupported then 64
                          else if Contains(path, "bricks") then 256 else 128)
  {
  }

  /** A brick normal map's fallback is the flat normal (128, 128, 255) at every pixel. */
  lemma NormalMapFallback(path: string, x: nat, y: nat, c: nat)
    requires Contains(path, "bricks") && Contains(path, "nmap")
    requires x < 256 && y < 256 && c < 4
    ensures var img := DdsImage(path);
            img.pixels.Some? && PixelOffset(256, x, y) + c < |img.pixels.value| &&
            img.pixels.value[PixelOffset(256, x, y) + c] == [128, 128, 255, 255][c]
  {
    RasterPixel(BrickSide, BrickSide, Solid(Pixel(128, 128, 255, 255)), x, y, c);
  }

  /** Pixel (x, y) of a checkerboard test pattern: white or black by the parity of its cell, opaque. */
  lemma CheckerPixel(w: u32, h: u32, x: nat, y: nat, c: nat)
    requires x < w && y < h && c < 4
    ensures var img := TestPattern(w, h, "checkerboard");
            var cs := CheckerCellSize(w, h);
            img.pixels.Some? && PixelOffset(w, x, y) + c < |img.pixels.value| &&
            img.pixels.value[PixelOffset(w, x, y) + c] ==
              (if c == 3 || (x / cs + y / cs) % 2 == 0 then 255 else 0)
  {
    RasterPixel(w, h, Checker(CheckerCellSize(w, h)), x, y, c);
  }

  /** The unsupported-format fallback is a checkerboard of 8 x 8 cells of 8 pixels. */
  lemma UnsupportedIsCheckerboard(path: string, file: Option<seq<u8>>, x: nat, y: nat, c: nat)
    requires FormatOf(path) == Unsupported && x < UnsupportedSide && y < UnsupportedSide && c < 3
    ensures var img := LoadedImage(path, file);
            img.pixels.Some? && PixelOffset(UnsupportedSide, x, y) + c < |img.pixels.value| &&
            img.pixels.value[PixelOffset(UnsupportedSide, x, y) + c] == (if (x / 8 + y / 8) % 2 == 0 then 255 else 0)
  {
    UnsupportedLoadsPattern(path, file);
    FallbackPixel(LoadedImage(path, file), x, y, c);
  }

  /** Pixel (x, y) of the 64 x 64 fallback checkerboard: cells of 8 pixels. */
  lemma FallbackPixel(img: ImageData, x: nat, y: nat, c: nat)
    requires img == TestPattern(UnsupportedSide, UnsupportedSide, "checkerboard")
    requires x < UnsupportedSide && y < UnsupportedSide && c < 3
    ensures img.pixels.Some? && PixelOffset(UnsupportedSide, x, y) + c < |img.pixels.value| &&
            img.pixels.value[PixelOffset(UnsupportedSide, x, y) + c] == (if (x / 8 + y / 8) % 2 == 0 then 255 else 0)
  {
    var f := Checker(CheckerCellSize(UnsupportedSide, UnsupportedSide));
    assert f == Checker(8);
    RasterPixel(UnsupportedSide, UnsupportedSide, f, x, y, c);
    EightPixelCells(x, y, c, f);
  }

  lemma UnsupportedLoadsPattern(path: string, file: Option<seq<u8>>)
    requires FormatOf(path) == Unsupported
    ensures LoadedImage(path, file) == TestPattern(UnsupportedSide, UnsupportedSide, "checkerboard")
  {
  }

  lemma EightPixelCells(x: nat, y: nat, c: nat, f: Fill)
    requires f == Checker(8) && c < 3
    ensures Bytes(PixelOf(f, x, y))[c] == (if (x / 8 + y / 8) % 2 == 0 then 255 else 0)
  {
  }
}
