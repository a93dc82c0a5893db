/** `VolumeInput`: a 3D data texture filled from a Shadertoy `.bin` volume
    file, whose 20-byte little-endian header gives the size, the channel
    count and the sample format of the payload that follows it. */
module Volume {
  import opened Wrappers
  import opened Three

  /** The length of the header; the payload starts here. */
  const HeaderSize: nat := 20

  /** The format code of float32 samples. */
  const FloatFormatCode: nat := 10

  /** `DataView.getUint32(at, true)`. */
  function U32LE(b: seq<byte>, at: nat): nat
    requires at + 4 <= |b|
  {
    b[at] as nat + 0x100 * b[at + 1] as nat + 0x1_0000 * b[at + 2] as nat + 0x100_0000 * b[at + 3] as nat
  }

  /** `DataView.getUint16(at, true)`. */
  function U16LE(b: seq<byte>, at: nat): nat
    requires at + 2 <= |b|
  {
    b[at] as nat + 0x100 * b[at + 1] as nat
  }

  /** The four little-endian bytes of a 32-bit unsigned integer. */
  function LE32(n: nat): (r: seq<byte>)
    requires n < 0x1_0000_0000
    ensures |r| == 4 && U32LE(r, 0) == n
  {
    var q1 := n / 0x100;
    var q2 := q1 / 0x100;
    var q3 := q2 / 0x100;
    assert n == n % 0x100 + 0x100 * q1;
    assert q1 == q1 % 0x100 + 0x100 * q2;
    assert q2 == q2 % 0x100 + 0x100 * q3;
    [n % 0x100, q1 % 0x100, q2 % 0x100, q3]
  }

  /** The two little-endian bytes of a 16-bit unsigned integer. */
  function LE16(n: nat): (r: seq<byte>)
    requires n < 0x1_0000
    ensures |r| == 2 && U16LE(r, 0) == n
  {
    [n % 0x100, n / 0x100]
  }

  /** The header fields `updateData` reads; bytes 0-3 are never read. */
  datatype VolumeHeader = VolumeHeader(
    width: nat, height: nat, depth: nat, channels: byte, layout: byte, formatCode: nat)

  /** The six `DataView` reads at offsets 4, 8, 12, 16, 17 and 18; each read
      past the end of the file throws a `RangeError`, so a file shorter than
      the header fails. */
  function ReadHeader(file: seq<byte>): (r: Result<VolumeHeader, JsException>)
    ensures r.Err? <==> |file| < HeaderSize
    ensures r.Ok? ==>
              && r.value.width < 0x1_0000_0000 && r.value.height < 0x1_0000_0000
              && r.value.depth < 0x1_0000_0000 && r.value.formatCode < 0x1_0000
  {
    if |file| < HeaderSize then Err(RangeError("Offset is outside the bounds of the DataView"))
    else Ok(VolumeHeader(U32LE(file, 4), U32LE(file, 8), U32LE(file, 12), file[16], file[17], U16LE(file, 18)))
  }

  /** The number of components of a pixel format. */
  function ComponentCount(f: PixelFormat): nat
  {
    match f
    case RedFormat => 1
    case RGFormat => 2
    case RGBFormat => 3
    case RGBAFormat => 4
  }

  /** The switch on the channel count: a count of 1 to 4 selects the format
      with that many components and a matching unpack alignment; any other
      count keeps the RGBA default with alignment 4. */
  function ChannelFormat(channels: byte): (r: (PixelFormat, nat))
    ensures ComponentCount(r.0) == r.1
    ensures 1 <= channels <= 4 ==> r.1 == channels
    ensures !(1 <= channels <= 4) ==> r == (RGBAFormat, 4)
  {
    match channels
    case 1 => (RedFormat, 1)
    case 2 => (RGFormat, 2)
    case 3 => (RGBFormat, 3)
    case 4 => (RGBAFormat, 4)
    case _ => (RGBAFormat, 4)
  }

  /** The switch on the format code: only code 10 selects float samples. */
  function SampleTypeOf(formatCode: nat): (t: TextureDataType)
    ensures t == FloatType <==> formatCode == FloatFormatCode
  {
    if formatCode == FloatFormatCode then FloatType else UnsignedByteType
  }

  /** The texture's `image` and the fields `updateData` assigns with it. The
      payload is kept as raw bytes, tagged by `sampleType`. */
  datatype VolumeImage = VolumeImage(
    width: nat, height: nat, depth: nat, data: seq<byte>,
    format: PixelFormat, sampleType: TextureDataType, unpackAlignment: nat)

  /** `new DataTexture3D(new Uint8Array(4), 1, 1, 1)`: one RGBA texel of
      zero bytes. */
  const InitialImage: VolumeImage := VolumeImage(1, 1, 1, [0, 0, 0, 0], RGBAFormat, UnsignedByteType, 1)

  /** What the promise callback of `updateData` assigns, or the exception it
      throws: a short header, or a float payload whose length is not a whole
      number of float32 values (`new Float32Array(file, 20)`). */
  function Decode(file: seq<byte>): (r: Result<VolumeImage, JsException>)
    ensures r.Ok? ==> |file| >= HeaderSize && r.value.data == file[HeaderSize..]
    ensures r.Ok? ==> r.value.width == U32LE(file, 4) && r.value.height == U32LE(file, 8)
    ensures r.Ok? ==> r.value.depth == U32LE(file, 12)
    ensures r.Ok? ==> (r.value.format, r.value.unpackAlignment) == ChannelFormat(file[16])
    ensures r.Ok? ==> (r.value.sampleType == FloatType <==> U16LE(file, 18) == FloatFormatCode)
    ensures r.Ok? && r.value.sampleType == FloatType ==> |r.value.data| % 4 == 0
  {
    match ReadHeader(file)
    case Err(e) => Err(e)
    case Ok(h) =>
      var (format, alignment) := ChannelFormat(h.channels);
      var sampleType := SampleTypeOf(h.formatCode);
      if sampleType == FloatType && (|file| - HeaderSize) % 4 != 0 then
        Err(RangeError("byte length of Float32Array should be a multiple of 4"))
      else
        Ok(VolumeImage(h.width, h.height, h.depth, file[HeaderSize..], format, sampleType, alignment))
  }

  /** A decode fails exactly on a short file or a float file whose length is
      not a multiple of four (the header is), and both failures are
      `RangeError`s. */
  lemma DecodeFails(file: seq<byte>)
    ensures Decode(file).Err? <==>
      |file| < HeaderSize || (U16LE(file, 18) == FloatFormatCode && |file| % 4 != 0)
    ensures Decode(file).Err? ==> Decode(file).error.RangeError?
  {
  }

  /** A volume file with the given header, magic bytes and payload. */
  function Encode(h: VolumeHeader, magic: seq<byte>, payload: seq<byte>): (file: seq<byte>)
    requires |magic| == 4
    requires h.width < 0x1_0000_0000 && h.height < 0x1_0000_0000 && h.depth < 0x1_0000_0000
    requires h.formatCode < 0x1_0000
    ensures |file| == HeaderSize + |payload|
  {
    magic + LE32(h.width) + LE32(h.height) + LE32(h.depth) + [h.channels, h.layout] + LE16(h.formatCode) + payload
  }

  lemma EncodeFields(h: VolumeHeader, magic: seq<byte>, payload: seq<byte>)
    requires |magic| == 4
    requires h.width < 0x1_0000_0000 && h.height < 0x1_0000_0000 && h.depth < 0x1_0000_0000
    requires h.formatCode < 0x1_0000
    ensures var file := Encode(h, magic, payload);
      && file[..4] == magic
      && file[4..8] == LE32(h.width) && file[8..12] == LE32(h.height) && file[12..16] == LE32(h.depth)
      && file[16] == h.channels && file[17] == h.layout
      && file[18..20] == LE16(h.formatCode) && file[HeaderSize..] == payload
  {
    var file := Encode(h, magic, payload);
    assert file == magic + LE32(h.width) + LE32(h.height) + LE32(h.depth) + [h.channels, h.layout] + LE16(h.formatCode) + payload;
  }

  /** Reading back the header of an encoded file gives the header it was
      encoded with, whatever the magic bytes. */
  lemma ReadHeaderEncode(h: VolumeHeader, magic: seq<byte>, payload: seq<byte>)
    requires |magic| == 4
    requires h.width < 0x1_0000_0000 && h.height < 0x1_0000_0000 && h.depth < 0x1_0000_0000
    requires h.formatCode < 0x1_0000
    ensures ReadHeader(Encode(h, magic, payload)) == Ok(h)
  {
    var file := Encode(h, magic, payload);
    EncodeFields(h, magic, payload);
    assert U32LE(file, 4) == U32LE(LE32(h.width), 0) by { assert file[4..8] == LE32(h.width); }
    assert U32LE(file, 8) == U32LE(LE32(h.height), 0) by { assert file[8..12] == LE32(h.height); }
    assert U32LE(file, 12) == U32LE(LE32(h.depth), 0) by { assert file[12..16] == LE32(h.depth); }
    assert U16LE(file, 18) == U16LE(LE16(h.formatCode), 0) by { assert file[18..20] == LE16(h.formatCode); }
  }

  /** Decoding an encoded file yields the header's size, the format and
      sample type its switches select, and the payload byte for byte. */
  lemma DecodeEncode(h: VolumeHeader, magic: seq<byte>, payload: seq<byte>)
    requires |magic| == 4
    requires h.width < 0x1_0000_0000 && h.height < 0x1_0000_0000 && h.depth < 0x1_0000_0000
    requires h.formatCode < 0x1_0000
    requires h.formatCode == FloatFormatCode ==> |payload| % 4 == 0
    ensures Decode(Encode(h, magic, payload)) ==
      Ok(VolumeImage(h.width, h.height, h.depth, payload, ChannelFormat(h.channels).0,
                     SampleTypeOf(h.formatCode), ChannelFormat(h.channels).1))
  {
    ReadHeaderEncode(h, magic, payload);
    EncodeFields(h, magic, payload);
  }

  /** The magic bytes 0-3 and the layout byte 17 do not affect the decoded
      texture. */
  lemma IgnoredBytes(a: seq<byte>, b: seq<byte>)
    requires |a| == |b|
    requires forall i :: 0 <= i < |a| && !(0 <= i < 4) && i != 17 ==> a[i] == b[i]
    ensures Decode(a) == Decode(b)
  {
    if |a| >= HeaderSize {
      assert a[HeaderSize..] == b[HeaderSize..];
    }
  }

  /** The constructor's filter rule: `LinearMipMapLinearFilter` is replaced
      by `LinearFilter`; any other filter is used as given. */
  function NormaliseFilter(f: Filter): (r: Filter)
    ensures r != LinearMipmapLinearFilter
    ensures f != LinearMipmapLinearFilter ==> r == f
    ensures f == LinearMipmapLinearFilter ==> r == LinearFilter
  {
    if f == LinearMipmapLinearFilter then LinearFilter else f
  }

  /** A volume channel: the 3D texture and the image it currently holds. */
  class VolumeInput {
    /** The Shadertoy `ctype` (`volume`). */
    const ctype: string
    /** `wantURL`: where the caller should fetch the volume file from. */
    const url: string
    /** The `DataTexture3D`, as an opaque handle. */
    const texture: Texture
    const wrapS: Wrapping
    const wrapT: Wrapping
    const wrapR: Wrapping
    const minFilter: Filter
    const magFilter: Filter

    var image: VolumeImage
    var needsUpdate: bool

    constructor (ctype: string, url: string, filter: Filter, wrap: Wrapping, handle: nat)
      ensures this.ctype == ctype && this.url == url && texture == DataTexture(handle)
      ensures wrapS == wrap && wrapT == wrap && wrapR == wrap
      ensures minFilter == NormaliseFilter(filter) && magFilter == NormaliseFilter(filter)
      ensures image == InitialImage && !needsUpdate
      ensures OutputSize() == Vec3(1.0, 1.0, 1.0)
    {
      this.ctype := ctype;
      this.url := url;
      texture := DataTexture(handle);
      wrapS, wrapT, wrapR := wrap, wrap, wrap;
      minFilter, magFilter := NormaliseFilter(filter), NormaliseFilter(filter);
      image := InitialImage;
      needsUpdate := false;
    }

    /** `outputSize`: the current image's width, height and depth. */
    function OutputSize(): (r: Vec3)
      reads this`image
      ensures r == Vec3(image.width as real, image.height as real, image.depth as real)
    {
      Vec3(image.width as real, image.height as real, image.depth as real)
    }

    /** `outputTime`: a volume has no playback time. */
    function OutputTime(): (t: real)
      ensures t == 0.0
    {
      0.0
    }

    /** The completion of `updateData(url)` with the fetched bytes `file`:
        on success the image, format, type and alignment are replaced
        together; on failure nothing changes. */
    method UpdateData(file: seq<byte>) returns (outcome: Outcome<JsException>)
      modifies this`image, this`needsUpdate
      ensures outcome.Fail? <==> Decode(file).Err?
      ensures outcome.Fail? ==> outcome.error == Decode(file).error && image == old(image) && needsUpdate == old(needsUpdate)
      ensures outcome.Done? ==> image == Decode(file).value && needsUpdate
      ensures outcome.Done? ==> OutputSize() == Vec3(U32LE(file, 4) as real, U32LE(file, 8) as real, U32LE(file, 12) as real)
    {
      var decoded := Decode(file);
      match decoded
      case Err(e) =>
        outcome := Fail(e);
      case Ok(img) =>
        image := img;
        needsUpdate := true;
        outcome := Done;
    }
  }
}
