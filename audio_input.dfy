/** `AudioInput`: a fixed 1024-byte texture buffer whose first 512 bytes hold
    the latest frequency spectrum and whose last 512 bytes hold the latest
    time-domain waveform, uploaded as a 512x2 single-channel data texture. */
module Audio {
  import opened Wrappers
  import opened Three

  /** The length of `_textureData` (`512 * 2`). */
  const BufferSize: nat := 1024

  /** Where the time-domain data is written. */
  const TimeDomainOffset: nat := 512

  /** `typedArray.set(source, offset)` on a byte array, as a value: `null`
      has no elements to read (`TypeError`), a source that does not fit
      after `offset` is a `RangeError`, otherwise the bytes at
      `offset..offset+|source|` are replaced and nothing else changes. */
  function SetBytes(buf: seq<byte>, src: Option<seq<byte>>, offset: nat): (r: Result<seq<byte>, JsException>)
    ensures r.Err? <==> src.None? || offset + |src.value| > |buf|
    ensures r.Err? ==> (r.error.TypeError? <==> src.None?)
    ensures r.Ok? ==> |r.value| == |buf|
    ensures r.Ok? ==> forall i :: 0 <= i < |buf| ==>
      r.value[i] == if offset <= i < offset + |src.value| then src.value[i - offset] else buf[i]
  {
    match src
    case None => Err(TypeError("Cannot convert undefined or null to object"))
    case Some(s) =>
      if offset + |s| > |buf| then Err(RangeError("offset is out of bounds"))
      else Ok(buf[..offset] + s + buf[offset + |s|..])
  }

  /** The two writes at the end of `updateData`: the buffer they leave behind
      and whether the second of them, or already the first, throws. When the
      frequency write succeeds and the time-domain write throws, the
      frequency bytes stay written. */
  function TextureFrame(buf: seq<byte>, freq: Option<seq<byte>>, td: Option<seq<byte>>): (r: (seq<byte>, Outcome<JsException>))
    ensures |r.0| == |buf|
    ensures (r.1.Fail? && r.1.error.TypeError?) <==> freq.None? || (|freq.value| <= |buf| && td.None?)
    ensures freq.None? || |freq.value| > |buf| ==> r == (buf, Fail(SetBytes(buf, freq, 0).error))
  {
    match SetBytes(buf, freq, 0)
    case Err(e) => (buf, Fail(e))
    case Ok(afterFreq) =>
      match SetBytes(afterFreq, td, TimeDomainOffset)
      case Err(e) => (afterFreq, Fail(e))
      case Ok(afterTd) => (afterTd, Done)
  }

  /** The writes succeed exactly when both arrays are present and fit:
      the frequency data in the whole buffer, the time-domain data in its
      second half. */
  lemma TextureFrameOutcome(buf: seq<byte>, freq: Option<seq<byte>>, td: Option<seq<byte>>)
    requires |buf| == BufferSize
    ensures TextureFrame(buf, freq, td).1 == Done <==>
      freq.Some? && td.Some? && |freq.value| <= BufferSize && |td.value| <= BufferSize - TimeDomainOffset
    ensures freq.None? ==> TextureFrame(buf, freq, td) == (buf, Fail(TypeError("Cannot convert undefined or null to object")))
  {
  }

  /** After a successful write the buffer holds the frequency data from byte
      0 and the time-domain data from byte 512, the latter winning where they
      overlap; bytes covered by neither keep their previous values. */
  lemma TextureFrameLayout(buf: seq<byte>, freq: seq<byte>, td: seq<byte>)
    requires |buf| == BufferSize
    requires TextureFrame(buf, Some(freq), Some(td)).1 == Done
    ensures var out := TextureFrame(buf, Some(freq), Some(td)).0;
      && |out| == BufferSize
      && (forall i :: TimeDomainOffset <= i < TimeDomainOffset + |td| ==> out[i] == td[i - TimeDomainOffset])
      && (forall i :: 0 <= i < |freq| && !(TimeDomainOffset <= i < TimeDomainOffset + |td|) ==> out[i] == freq[i])
      && (forall i :: |freq| <= i < BufferSize && !(TimeDomainOffset <= i < TimeDomainOffset + |td|) ==> out[i] == buf[i])
  {
    var afterFreq := SetBytes(buf, Some(freq), 0).value;
    assert |afterFreq| == BufferSize;
  }

  /** When the time-domain write fails, only the frequency bytes have been
      written. */
  lemma TextureFramePartial(buf: seq<byte>, freq: seq<byte>, td: Option<seq<byte>>)
    requires |buf| == BufferSize && |freq| <= BufferSize
    requires td.None? || |td.value| > BufferSize - TimeDomainOffset
    ensures TextureFrame(buf, Some(freq), td).1.Fail?
    ensures TextureFrame(buf, Some(freq), td).0 == freq + buf[|freq|..]
  {
    var afterFreq := SetBytes(buf, Some(freq), 0).value;
    assert afterFreq == freq + buf[|freq|..];
  }

  /** Writing the same stored arrays twice leaves the buffer as one write
      does: `updateData()` with no arguments re-uploads the same bytes. */
  lemma TextureFrameIdempotent(buf: seq<byte>, freq: Option<seq<byte>>, td: Option<seq<byte>>)
    requires |buf| == BufferSize
    ensures TextureFrame(TextureFrame(buf, freq, td).0, freq, td) == TextureFrame(buf, freq, td)
  {
    var first := TextureFrame(buf, freq, td);
    if first.1 == Done {
      var out := first.0;
      var again := TextureFrame(out, freq, td).0;
      TextureFrameLayout(buf, freq.value, td.value);
      TextureFrameLayout(out, freq.value, td.value);
      assert again == out;
    } else if freq.Some? && |freq.value| <= BufferSize {
      TextureFramePartial(buf, freq.value, td);
      TextureFramePartial(first.0, freq.value, td);
      assert (freq.value + buf[|freq.value|..])[|freq.value|..] == buf[|freq.value|..];
    }
  }

  /** An audio channel: the analyser data it was last given and the byte
      buffer behind its data texture. */
  class AudioInput {
    /** The Shadertoy `ctype` (`music`, `musicstream` or `mic`). */
    const ctype: string
    /** The `DataTexture` over `textureData`, as an opaque handle. */
    const texture: Texture
    const wrapS: Wrapping
    const wrapT: Wrapping
    const minFilter: Filter
    const magFilter: Filter
    /** The texture is a 512x2 `RedFormat` texture of unsigned bytes. */
    const format: PixelFormat
    const sampleType: TextureDataType
    const textureData: array<byte>

    var time: real
    var frequencyData: Option<seq<byte>>
    var timeDomainData: Option<seq<byte>>
    var needsUpdate: bool

    predicate Valid()
      reads this
    {
      textureData.Length == BufferSize
    }

    constructor (ctype: string, filter: Filter, wrap: Wrapping, handle: nat)
      ensures Valid() && fresh(textureData)
      ensures forall i :: 0 <= i < BufferSize ==> textureData[i] == 0
      ensures this.ctype == ctype && texture == DataTexture(handle)
      ensures wrapS == wrap && wrapT == wrap && minFilter == filter && magFilter == filter
      ensures format == RedFormat && sampleType == UnsignedByteType
      ensures time == 0.0 && frequencyData.None? && timeDomainData.None? && !needsUpdate
    {
      this.ctype := ctype;
      texture := DataTexture(handle);
      wrapS, wrapT := wrap, wrap;
      minFilter, magFilter := filter, filter;
      format, sampleType := RedFormat, UnsignedByteType;
      textureData := new byte[BufferSize](_ => 0);
      time := 0.0;
      frequencyData, timeDomainData := None, None;
      needsUpdate := false;
    }

    /** `outputSize`: the texture's dimensions, which cover the buffer exactly. */
    function OutputSize(): (r: Vec3)
      ensures r.x * r.y * r.z == BufferSize as real
      ensures r.y == 2.0 && r.z == 1.0
    {
      Vec3(512.0, 2.0, 1.0)
    }

    /** `outputTime`: the time given to the last `update`. */
    function OutputTime(): (t: real)
      reads this`time
      ensures t == time
    {
      time
    }

    method Update(t: real)
      modifies this`time, this`needsUpdate
      ensures OutputTime() == t && needsUpdate
    {
      time := t;
      needsUpdate := true;
    }

    /** `updateData(audioFreqData, timeDomainData)`: a present argument
        replaces the stored array, an absent one keeps it; then both stored
        arrays are written into the buffer. */
    method UpdateData(freq: Option<seq<byte>>, td: Option<seq<byte>>) returns (outcome: Outcome<JsException>)
      requires Valid()
      modifies this`frequencyData, this`timeDomainData, textureData
      ensures frequencyData == if freq.Some? then freq else old(frequencyData)
      ensures timeDomainData == if td.Some? then td else old(timeDomainData)
      ensures (textureData[..], outcome) == TextureFrame(old(textureData[..]), frequencyData, timeDomainData)
    {
      if freq.Some? {
        frequencyData := freq;
      }
      if td.Some? {
        timeDomainData := td;
      }
      outcome := SetInto(textureData, frequencyData, 0);
      if outcome.Fail? {
        return;
      }
      outcome := SetInto(textureData, timeDomainData, TimeDomainOffset);
    }
  }

  /** `dst.set(src, offset)` in place. */
  method SetInto(dst: array<byte>, src: Option<seq<byte>>, offset: nat) returns (outcome: Outcome<JsException>)
    modifies dst
    ensures SetBytes(old(dst[..]), src, offset).Ok? ==> outcome == Done && dst[..] == SetBytes(old(dst[..]), src, offset).value
    ensures SetBytes(old(dst[..]), src, offset).Err? ==> outcome == Fail(SetBytes(old(dst[..]), src, offset).error) && dst[..] == old(dst[..])
  {
    if src.None? {
      return Fail(TypeError("Cannot convert undefined or null to object"));
    }
    var s := src.value;
    if offset + |s| > dst.Length {
      return Fail(RangeError("offset is out of bounds"));
    }
    for i := 0 to |s|
      invariant forall j :: 0 <= j < dst.Length ==>
        dst[j] == if offset <= j < offset + i then s[j - offset] else old(dst[j])
    {
      dst[offset + i] := s[i];
    }
    outcome := Done;
  }
}
