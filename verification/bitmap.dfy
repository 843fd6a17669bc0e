/** The BMP loader: the packed Windows file and info headers read little-endian from the
    start of the file, the two header checks, the pixel byte count, and the in-place swap
    of the first and third byte of every 3-byte pixel (BGR to RGB). */
module Bitmap {
  import opened Wrappers

  type byte = x: int | 0 <= x < 256

  /** The packed BITMAPFILEHEADER: WORD, DWORD, WORD, WORD, DWORD with no padding. */
  const FileHeaderSize: nat := 2 + 4 + 2 + 2 + 4
  /** The packed BITMAPINFOHEADER: 11 fields, 40 bytes. */
  const InfoHeaderSize: nat := 40
  /** "BM" read as a little-endian WORD. */
  const BitmapMagic: nat := 0x4D42
  /** The fewest bits per pixel the loader accepts. */
  const MinBitCount: nat := 24

  datatype FileHeader = FileHeader(
    bfType: nat,
    bfSize: nat,
    bfReserved1: nat,
    bfReserved2: nat,
    bfOffBits: nat)

  datatype InfoHeader = InfoHeader(
    biSize: nat,
    biWidth: int,
    biHeight: int,
    biPlanes: nat,
    biBitCount: nat,
    biCompression: nat,
    biSizeImage: nat,
    biXPelsPerMeter: int,
    biYPelsPerMeter: int,
    biClrUsed: nat,
    biClrImportant: nat)

  function Pow256(n: nat): (r: nat)
    ensures r > 0
  {
    if n == 0 then 1 else 256 * Pow256(n - 1)
  }

  /** The unsigned value of little-endian bytes. */
  function FromLittleEndian(b: seq<byte>): (r: nat)
    ensures r < Pow256(|b|)
  {
    if b == [] then 0 else b[0] + 256 * FromLittleEndian(b[1..])
  }

  /** The `n` little-endian bytes of `x`. */
  function ToLittleEndian(x: nat, n: nat): (r: seq<byte>)
    ensures |r| == n
  {
    if n == 0 then [] else [x % 256] + ToLittleEndian(x / 256, n - 1)
  }

  /** The `n`-byte unsigned field at offset `at`. */
  function Unsigned(b: seq<byte>, at: nat, n: nat): nat
    requires at + n <= |b|
  {
    FromLittleEndian(b[at .. at + n])
  }

  /** A 4-byte two's-complement LONG at offset `at`. */
  function Signed32(b: seq<byte>, at: nat): int
    requires at + 4 <= |b|
  {
    var u := Unsigned(b, at, 4);
    if u >= 0x8000_0000 then u - 0x1_0000_0000 else u
  }

  function DecodeFileHeader(b: seq<byte>): FileHeader
    requires |b| >= FileHeaderSize
  {
    FileHeader(Unsigned(b, 0, 2), Unsigned(b, 2, 4), Unsigned(b, 6, 2), Unsigned(b, 8, 2), Unsigned(b, 10, 4))
  }

  /** The info header that starts at offset `at`. */
  function DecodeInfoHeader(b: seq<byte>, at: nat): InfoHeader
    requires at + InfoHeaderSize <= |b|
  {
    InfoHeader(Unsigned(b, at, 4), Signed32(b, at + 4), Signed32(b, at + 8), Unsigned(b, at + 12, 2),
               Unsigned(b, at + 14, 2), Unsigned(b, at + 16, 4), Unsigned(b, at + 20, 4),
               Signed32(b, at + 24), Signed32(b, at + 28), Unsigned(b, at + 32, 4), Unsigned(b, at + 36, 4))
  }

  /** The bytes of the pixel array as the loader sizes it: three per pixel, with no row
      padding. */
  function PixelBytes(info: InfoHeader): (r: int)
    ensures r % 3 == 0
    ensures r > 0 <==> (info.biWidth > 0 <==> info.biHeight > 0) && info.biWidth != 0 && info.biHeight != 0
  {
    var pixels := info.biWidth * info.biHeight;
    assert pixels * 3 == 3 * pixels;
    pixels * 3
  }

  /** Why loading stopped. `Truncated` and `NegativeSize` stand for reads past the end of the
      file and for an allocation of a negative size, which the loader does not check. */
  datatype LoadError = CannotOpen | NotBitmap | BitCountTooLow | Truncated | NegativeSize

  datatype Checked =
    | Accepted(fileHeader: FileHeader, infoHeader: InfoHeader, nBytes: nat)
    | Rejected(error: LoadError)

  /** The guards before the pixel read, in the loader's order: the magic number is checked
      before the info header is read. A seek past the end of the file is harmless when no
      pixel bytes are read after it. */
  function CheckHeaders(file: seq<byte>): (r: Checked)
    ensures |file| < FileHeaderSize ==> r == Rejected(Truncated)
    ensures |file| >= FileHeaderSize && Unsigned(file, 0, 2) != BitmapMagic ==> r == Rejected(NotBitmap)
    ensures r.Accepted? <==>
      && |file| >= FileHeaderSize + InfoHeaderSize
      && Unsigned(file, 0, 2) == BitmapMagic
      && Unsigned(file, FileHeaderSize + 14, 2) >= MinBitCount
      && PixelBytes(DecodeInfoHeader(file, FileHeaderSize)) >= 0
      && (PixelBytes(DecodeInfoHeader(file, FileHeaderSize)) == 0 ||
          Unsigned(file, 10, 4) + PixelBytes(DecodeInfoHeader(file, FileHeaderSize)) <= |file|)
    ensures r.Accepted? ==>
      && r.fileHeader == DecodeFileHeader(file)
      && r.infoHeader == DecodeInfoHeader(file, FileHeaderSize)
      && r.fileHeader.bfType == BitmapMagic
      && r.infoHeader.biBitCount >= MinBitCount
      && r.nBytes == PixelBytes(r.infoHeader)
      && (r.nBytes == 0 || r.fileHeader.bfOffBits + r.nBytes <= |file|)
  {
    if |file| < FileHeaderSize then Rejected(Truncated)
    else
      var fileHeader := DecodeFileHeader(file);
      if fileHeader.bfType != BitmapMagic then Rejected(NotBitmap)
      else if |file| < FileHeaderSize + InfoHeaderSize then Rejected(Truncated)
      else
        var infoHeader := DecodeInfoHeader(file, FileHeaderSize);
        if infoHeader.biBitCount < MinBitCount then Rejected(BitCountTooLow)
        else
          var nBytes := PixelBytes(infoHeader);
          if nBytes < 0 then Rejected(NegativeSize)
          else if nBytes > 0 && fileHeader.bfOffBits + nBytes > |file| then Rejected(Truncated)
          else Accepted(fileHeader, infoHeader, nBytes)
  }

  /** The pixel bytes with the first and third byte of every 3-byte group exchanged. */
  function SwappedRB(s: seq<byte>): (r: seq<byte>)
    requires |s| % 3 == 0
    ensures |r| == |s|
  {
    if s == [] then []
    else
      var k := |s| - 3;
      SwappedRB(s[..k]) + [s[k + 2], s[k + 1], s[k]]
  }

  /** Swaps the red and blue byte of every pixel in place. */
  method SwapRedBlue(a: array<byte>)
    requires a.Length % 3 == 0
    modifies a
    ensures a[..] == SwappedRB(old(a[..]))
  {
    ghost var original := a[..];
    ghost var target := SwappedRB(original);
    ghost var pixels := a.Length / 3;
    ghost var p := 0;
    var i := 0;
    while i < a.Length
      invariant a.Length == 3 * pixels
      invariant 0 <= p <= pixels && i == 3 * p
      invariant forall k :: 0 <= k < i ==> a[k] == target[k]
      invariant forall k :: i <= k < a.Length ==> a[k] == original[k]
    {
      SwappedRBPixel(original, p);
      var tmp := a[i];
      a[i] := a[i + 2];
      a[i + 2] := tmp;
      i := i + 3;
      p := p + 1;
    }
    assert a[..] == target;
  }

  /** The `n` bytes of the file from `offset` on; none when `n` is 0, wherever the offset lies. */
  function PixelData(file: seq<byte>, offset: nat, n: nat): (r: seq<byte>)
    requires n == 0 || offset + n <= |file|
    ensures |r| == n
    ensures forall k :: 0 <= k < n ==> r[k] == file[offset + k]
  {
    if n == 0 then [] else file[offset .. offset + n]
  }

  /** A new buffer holding the `n` bytes of the file from `offset` on. */
  method ReadPixels(file: seq<byte>, offset: nat, n: nat) returns (pixels: array<byte>)
    requires n == 0 || offset + n <= |file|
    ensures fresh(pixels)
    ensures pixels[..] == PixelData(file, offset, n)
  {
    pixels := new byte[n](k requires 0 <= k < n => file[offset + k]);
  }

  /** A decoded bitmap: the two headers and the pixel buffer. */
  datatype LoadResult =
    | Loaded(fileHeader: FileHeader, infoHeader: InfoHeader, pixels: array<byte>)
    | Failed(error: LoadError)

  /** Opens, checks and reads a bitmap; the pixel bytes start at bfOffBits and are
      converted from BGR to RGB order. */
  method LoadBitmap(file: Option<seq<byte>>) returns (r: LoadResult)
    ensures file.None? ==> r == Failed(CannotOpen)
    ensures file.Some? && CheckHeaders(file.value).Rejected? ==> r == Failed(CheckHeaders(file.value).error)
    ensures file.Some? && CheckHeaders(file.value).Accepted? ==>
      var c := CheckHeaders(file.value);
      && r.Loaded?
      && r.fileHeader == c.fileHeader && r.infoHeader == c.infoHeader
      && fresh(r.pixels)
      && r.pixels[..] == SwappedRB(PixelData(file.value, c.fileHeader.bfOffBits, c.nBytes))
  {
    if file.None? {
      return Failed(CannotOpen);
    }
    var bytes := file.value;
    var c := CheckHeaders(bytes);
    if c.Rejected? {
      return Failed(c.error);
    }
    var offset, nBytes := c.fileHeader.bfOffBits, c.nBytes;
    assert (nBytes == 0 || offset + nBytes <= |bytes|) && nBytes % 3 == 0;
    var pixels := ReadPixels(bytes, offset, nBytes);
    SwapRedBlue(pixels);
    assert pixels[..] == SwappedRB(PixelData(bytes, offset, nBytes));
    return Loaded(c.fileHeader, c.infoHeader, pixels);
  }

  /** Pixel `p` of the swapped buffer holds the bytes of pixel `p` of the input with the
      first and third exchanged and the middle one in place. */
  lemma {:induction false} SwappedRBPixel(s: seq<byte>, p: nat)
    requires |s| % 3 == 0 && 3 * p + 3 <= |s|
    ensures SwappedRB(s)[3 * p] == s[3 * p + 2]
    ensures SwappedRB(s)[3 * p + 1] == s[3 * p + 1]
    ensures SwappedRB(s)[3 * p + 2] == s[3 * p]
  {
    var last := |s| - 3;
    var front := s[..last];
    assert SwappedRB(s) == SwappedRB(front) + [s[last + 2], s[last + 1], s[last]];
    if 3 * p < last {
      SwappedRBPixel(front, p);
      assert front[3 * p] == s[3 * p] && front[3 * p + 1] == s[3 * p + 1] && front[3 * p + 2] == s[3 * p + 2];
    }
  }

  /** Swapping twice restores the buffer. */
  lemma {:induction false} SwappedRBInvolution(s: seq<byte>)
    requires |s| % 3 == 0
    ensures SwappedRB(SwappedRB(s)) == s
  {
    if s != [] {
      var k := |s| - 3;
      var r := SwappedRB(s);
      assert r[..k] == SwappedRB(s[..k]);
      SwappedRBInvolution(s[..k]);
      assert s == s[..k] + [s[k], s[k + 1], s[k + 2]];
    }
  }

  /** Decoding the little-endian bytes of a value that fits gives the value back. */
  lemma {:induction false} LittleEndianRoundTrip(x: nat, n: nat)
    requires x < Pow256(n)
    ensures FromLittleEndian(ToLittleEndian(x, n)) == x
  {
    if n > 0 {
      LittleEndianRoundTrip(x / 256, n - 1);
      assert ToLittleEndian(x, n)[1..] == ToLittleEndian(x / 256, n - 1);
    }
  }

  /** The bytes a writer of BMP files emits for a file header whose fields fit their widths. */
  function EncodeFileHeader(h: FileHeader): (r: seq<byte>)
    requires h.bfType < Pow256(2) && h.bfSize < Pow256(4) && h.bfReserved1 < Pow256(2)
    requires h.bfReserved2 < Pow256(2) && h.bfOffBits < Pow256(4)
    ensures |r| == FileHeaderSize
  {
    ToLittleEndian(h.bfType, 2) + ToLittleEndian(h.bfSize, 4) + ToLittleEndian(h.bfReserved1, 2)
      + ToLittleEndian(h.bfReserved2, 2) + ToLittleEndian(h.bfOffBits, 4)
  }

  /** The packed layout: every field of the file header is read back from the offset the
      writer put it at, whatever follows the header. */
  lemma FileHeaderRoundTrip(h: FileHeader, rest: seq<byte>)
    requires h.bfType < Pow256(2) && h.bfSize < Pow256(4) && h.bfReserved1 < Pow256(2)
    requires h.bfReserved2 < Pow256(2) && h.bfOffBits < Pow256(4)
    ensures DecodeFileHeader(EncodeFileHeader(h) + rest) == h
  {
    var b := EncodeFileHeader(h) + rest;
    assert b[0..2] == ToLittleEndian(h.bfType, 2);
    assert b[2..6] == ToLittleEndian(h.bfSize, 4);
    assert b[6..8] == ToLittleEndian(h.bfReserved1, 2);
    assert b[8..10] == ToLittleEndian(h.bfReserved2, 2);
    assert b[10..14] == ToLittleEndian(h.bfOffBits, 4);
    LittleEndianRoundTrip(h.bfType, 2);
    LittleEndianRoundTrip(h.bfSize, 4);
    LittleEndianRoundTrip(h.bfReserved1, 2);
    LittleEndianRoundTrip(h.bfReserved2, 2);
    LittleEndianRoundTrip(h.bfOffBits, 4);
  }

  /** The 4-byte two's-complement pattern of a LONG. */
  function TwosComplement32(x: int): (r: nat)
    requires -0x8000_0000 <= x < 0x8000_0000
    ensures r < Pow256(4)
    ensures (r >= 0x8000_0000 <==> x < 0) && (if r >= 0x8000_0000 then r - 0x1_0000_0000 else r) == x
  {
    assert Pow256(4) == 0x1_0000_0000;
    if x < 0 then x + 0x1_0000_0000 else x
  }

  /** Every field of an info header fits its width: DWORD and WORD fields are unsigned,
      LONG fields are 32-bit signed. */
  predicate InfoHeaderFits(h: InfoHeader) {
    && h.biSize < Pow256(4) && h.biPlanes < Pow256(2) && h.biBitCount < Pow256(2)
    && h.biCompression < Pow256(4) && h.biSizeImage < Pow256(4)
    && h.biClrUsed < Pow256(4) && h.biClrImportant < Pow256(4)
    && -0x8000_0000 <= h.biWidth < 0x8000_0000 && -0x8000_0000 <= h.biHeight < 0x8000_0000
    && -0x8000_0000 <= h.biXPelsPerMeter < 0x8000_0000 && -0x8000_0000 <= h.biYPelsPerMeter < 0x8000_0000
  }

  /** The bytes a writer of BMP files emits for an info header: DWORD, LONG, LONG, WORD, WORD
      and six 4-byte fields, with no padding. */
  function EncodeInfoHeader(h: InfoHeader): (r: seq<byte>)
    requires InfoHeaderFits(h)
    ensures |r| == InfoHeaderSize
  {
    EncodeInfoFront(h) + EncodeInfoBack(h)
  }

  /** biSize to biBitCount: 4 + 4 + 4 + 2 + 2 bytes. */
  function EncodeInfoFront(h: InfoHeader): (r: seq<byte>)
    requires InfoHeaderFits(h)
    ensures |r| == 16
  {
    ToLittleEndian(h.biSize, 4) + ToLittleEndian(TwosComplement32(h.biWidth), 4)
      + ToLittleEndian(TwosComplement32(h.biHeight), 4) + ToLittleEndian(h.biPlanes, 2)
      + ToLittleEndian(h.biBitCount, 2)
  }

  /** biCompression to biClrImportant: six 4-byte fields. */
  function EncodeInfoBack(h: InfoHeader): (r: seq<byte>)
    requires InfoHeaderFits(h)
    ensures |r| == 24
  {
    ToLittleEndian(h.biCompression, 4) + ToLittleEndian(h.biSizeImage, 4)
      + ToLittleEndian(TwosComplement32(h.biXPelsPerMeter), 4)
      + ToLittleEndian(TwosComplement32(h.biYPelsPerMeter), 4) + ToLittleEndian(h.biClrUsed, 4)
      + ToLittleEndian(h.biClrImportant, 4)
  }

  /** A field of `n` bytes at offset `o` of an encoding `e` is read back as the value
      written there, wherever the encoding starts and whatever follows it. */
  lemma FieldRoundTrip(pre: seq<byte>, e: seq<byte>, rest: seq<byte>, o: nat, x: nat, n: nat)
    requires x < Pow256(n) && o + n <= |e| && e[o .. o + n] == ToLittleEndian(x, n)
    ensures Unsigned(pre + e + rest, |pre| + o, n) == x
  {
    var b := pre + e + rest;
    assert b[|pre| + o .. |pre| + o + n] == e[o .. o + n];
    LittleEndianRoundTrip(x, n);
  }

  /** A LONG written in two's complement is read back with its sign. */
  lemma SignedFieldRoundTrip(pre: seq<byte>, e: seq<byte>, rest: seq<byte>, o: nat, x: int)
    requires -0x8000_0000 <= x < 0x8000_0000 && o + 4 <= |e|
    requires e[o .. o + 4] == ToLittleEndian(TwosComplement32(x), 4)
    ensures Signed32(pre + e + rest, |pre| + o) == x
  {
    FieldRoundTrip(pre, e, rest, o, TwosComplement32(x), 4);
  }

  /** The first five fields are read back from offsets 0, 4, 8, 12 and 14 of the header. */
  lemma InfoFrontRoundTrip(pre: seq<byte>, h: InfoHeader, rest: seq<byte>)
    requires InfoHeaderFits(h)
    ensures var b, at := pre + EncodeInfoFront(h) + rest, |pre|;
      && Unsigned(b, at, 4) == h.biSize && Signed32(b, at + 4) == h.biWidth
      && Signed32(b, at + 8) == h.biHeight && Unsigned(b, at + 12, 2) == h.biPlanes
      && Unsigned(b, at + 14, 2) == h.biBitCount
  {
    var e := EncodeInfoFront(h);
    assert e[0..4] == ToLittleEndian(h.biSize, 4);
    assert e[4..8] == ToLittleEndian(TwosComplement32(h.biWidth), 4);
    assert e[8..12] == ToLittleEndian(TwosComplement32(h.biHeight), 4);
    assert e[12..14] == ToLittleEndian(h.biPlanes, 2);
    assert e[14..16] == ToLittleEndian(h.biBitCount, 2);
    FieldRoundTrip(pre, e, rest, 0, h.biSize, 4);
    SignedFieldRoundTrip(pre, e, rest, 4, h.biWidth);
    SignedFieldRoundTrip(pre, e, rest, 8, h.biHeight);
    FieldRoundTrip(pre, e, rest, 12, h.biPlanes, 2);
    FieldRoundTrip(pre, e, rest, 14, h.biBitCount, 2);
  }

  /** The last six fields are read back from offsets 16 to 36 of the header, 4 bytes apart. */
  lemma InfoBackRoundTrip(pre: seq<byte>, h: InfoHeader, rest: seq<byte>)
    requires InfoHeaderFits(h) && |pre| >= 16
    ensures var b, at := pre + EncodeInfoBack(h) + rest, |pre| - 16;
      && Unsigned(b, at + 16, 4) == h.biCompression && Unsigned(b, at + 20, 4) == h.biSizeImage
      && Signed32(b, at + 24) == h.biXPelsPerMeter && Signed32(b, at + 28) == h.biYPelsPerMeter
      && Unsigned(b, at + 32, 4) == h.biClrUsed && Unsigned(b, at + 36, 4) == h.biClrImportant
  {
    var e := EncodeInfoBack(h);
    assert e[0..4] == ToLittleEndian(h.biCompression, 4);
    assert e[4..8] == ToLittleEndian(h.biSizeImage, 4);
    assert e[8..12] == ToLittleEndian(TwosComplement32(h.biXPelsPerMeter), 4);
    assert e[12..16] == ToLittleEndian(TwosComplement32(h.biYPelsPerMeter), 4);
    assert e[16..20] == ToLittleEndian(h.biClrUsed, 4);
    assert e[20..24] == ToLittleEndian(h.biClrImportant, 4);
    FieldRoundTrip(pre, e, rest, 0, h.biCompression, 4);
    FieldRoundTrip(pre, e, rest, 4, h.biSizeImage, 4);
    SignedFieldRoundTrip(pre, e, rest, 8, h.biXPelsPerMeter);
    SignedFieldRoundTrip(pre, e, rest, 12, h.biYPelsPerMeter);
    FieldRoundTrip(pre, e, rest, 16, h.biClrUsed, 4);
    FieldRoundTrip(pre, e, rest, 20, h.biClrImportant, 4);
  }

  /** The packed layout of the info header: wherever it starts and whatever follows it,
      every field, the bit count at offset 14 among them, is read back from the offset the
      writer put it at. */
  lemma InfoHeaderRoundTrip(pre: seq<byte>, h: InfoHeader, rest: seq<byte>)
    requires InfoHeaderFits(h)
    ensures DecodeInfoHeader(pre + EncodeInfoHeader(h) + rest, |pre|) == h
  {
    var front, back := EncodeInfoFront(h), EncodeInfoBack(h);
    var b := pre + EncodeInfoHeader(h) + rest;
    assert b == pre + front + (back + rest);
    assert b == (pre + front) + back + rest;
    InfoFrontRoundTrip(pre, h, back + rest);
    InfoBackRoundTrip(pre + front, h, rest);
  }

  /** A file that starts with a well-formed file header and info header, whose image has no
      pixels, is accepted with both headers as written, wherever bfOffBits points: nothing
      is read after the seek. */
  lemma EmptyImageAccepted(fh: FileHeader, ih: InfoHeader, rest: seq<byte>)
    requires fh.bfType == BitmapMagic && fh.bfSize < Pow256(4) && fh.bfReserved1 < Pow256(2)
    requires fh.bfReserved2 < Pow256(2) && fh.bfOffBits < Pow256(4)
    requires InfoHeaderFits(ih) && ih.biBitCount >= MinBitCount && ih.biWidth == 0
    ensures CheckHeaders(EncodeFileHeader(fh) + EncodeInfoHeader(ih) + rest) == Accepted(fh, ih, 0)
  {
    var file := EncodeFileHeader(fh) + EncodeInfoHeader(ih) + rest;
    assert file == EncodeFileHeader(fh) + (EncodeInfoHeader(ih) + rest);
    FileHeaderRoundTrip(fh, EncodeInfoHeader(ih) + rest);
    InfoHeaderRoundTrip(EncodeFileHeader(fh), ih, rest);
  }
}
