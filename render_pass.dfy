/** `RenderPass`: one Shadertoy pass, its uniforms, its fragment shader,
    its render target(s) and the inputs connected to its channels. The
    `Producer` variants stand for the inputs a channel can be connected to
    (the subclasses of `ShaderPassInput`). */
module Pass {
  import opened Wrappers
  import opened Three
  import opened Definition
  import opened Channels
  import Audio
  import Volume

  /** What `connectInputChannel` can be given: a pass, an audio or volume
      input, or a bare three.js texture, which has none of the
      `ShaderPassInput` accessors. */
  datatype Producer =
    | PassOutput(pass: RenderPass)
    | AudioOutput(audio: Audio.AudioInput)
    | VolumeOutput(volume: Volume.VolumeInput)
    | BareTexture(texture: Texture)

  /** The texture a pass publishes: its double-buffer target's texture if it
      is a `buffer` pass, its primary target's otherwise. */
  function PassTexture(ident: nat, passType: string): (t: Texture)
    ensures t == TargetTexture(DoubleBuffer(ident)) <==> passType == "buffer"
    ensures t == TargetTexture(Primary(ident)) <==> passType != "buffer"
  {
    if passType == "buffer" then TargetTexture(DoubleBuffer(ident)) else TargetTexture(Primary(ident))
  }

  /** `input.outputTexture`; a bare texture has no such property, so the
      channel uniform receives `undefined`. */
  function OutputTextureOf(p: Producer): (b: Binding)
    ensures b == UndefinedBinding <==> p.BareTexture?
    ensures b != NullBinding
  {
    match p
    case PassOutput(q) => Bound(PassTexture(q.ident, q.passType))
    case AudioOutput(a) => Bound(a.texture)
    case VolumeOutput(v) => Bound(v.texture)
    case BareTexture(_) => UndefinedBinding
  }

  /** The objects `OutputSizeOf` reads. */
  function Footprint(p: Producer): set<object>
  {
    match p
    case PassOutput(q) => {q}
    case VolumeOutput(v) => {v}
    case _ => {}
  }

  /** `input.outputSize`; `None` is the `undefined` of a bare texture. */
  function OutputSizeOf(p: Producer): (r: Option<Vec3>)
    reads Footprint(p)
    ensures r.None? <==> p.BareTexture?
  {
    match p
    case PassOutput(q) => Some(q.OutputSize())
    case AudioOutput(a) => Some(a.OutputSize())
    case VolumeOutput(v) => Some(v.OutputSize())
    case BareTexture(_) => None
  }

  function ProducerObjects(inputs: map<int, Producer>): set<object>
  {
    set c, o | c in inputs && o in Footprint(inputs[c]) :: o
  }

  /** `iChannelResolution` as `update` computes it: the size of the input
      connected on each slot, the zero vector where none is. */
  function ChannelResolutions(inputs: map<int, Producer>): (r: seq<Option<Vec3>>)
    reads ProducerObjects(inputs)
    ensures |r| == 4
    ensures forall i :: 0 <= i < 4 && i !in inputs ==> r[i] == Some(Zero3)
    ensures forall i :: 0 <= i < 4 && i in inputs ==> r[i] == OutputSizeOf(inputs[i])
  {
    seq(4, i reads ProducerObjects(inputs) =>
      if i in inputs then OutputSizeOf(inputs[i]) else Some(Zero3))
  }

  /** The value of a sampler uniform together with its GLSL type. */
  datatype ChannelUniform = ChannelUniform(sampler: SamplerType, value: Binding)

  /** The `uniforms` object of the pass's shader material. */
  datatype Uniforms = Uniforms(
    iResolution: Vec3,
    iTime: real,
    iTimeDelta: real,
    iFrame: int,
    iChannelTime: seq<real>,
    iChannelResolution: seq<Option<Vec3>>,
    iMouse: Vec4,
    iDate: Vec4,
    iSampleRate: real,
    iChannels: map<int, ChannelUniform>)

  /** The uniforms the constructor creates: a 512x512 resolution, zero
      times, frame 0, zero channel resolutions, `iMouse` and `iDate` as
      fresh `Vector4`s, and every declared slot unbound. */
  function InitialUniforms(samplers: map<int, SamplerType>): (u: Uniforms)
    ensures u.iResolution == Vec3(512.0, 512.0, 1.0)
    ensures u.iTime == 0.0 && u.iTimeDelta == 0.0 && u.iSampleRate == 0.0 && u.iFrame == 0
    ensures |u.iChannelTime| == 4 && forall i :: 0 <= i < 4 ==> u.iChannelTime[i] == 0.0
    ensures |u.iChannelResolution| == 4 && forall i :: 0 <= i < 4 ==> u.iChannelResolution[i] == Some(Zero3)
    ensures u.iMouse == DefaultVec4 && u.iDate == DefaultVec4
    ensures u.iChannels.Keys == samplers.Keys
    ensures forall c :: c in u.iChannels ==> u.iChannels[c] == ChannelUniform(samplers[c], NullBinding)
  {
    Uniforms(Vec3(512.0, 512.0, 1.0), 0.0, 0.0, 0, [0.0, 0.0, 0.0, 0.0],
             [Some(Zero3), Some(Zero3), Some(Zero3), Some(Zero3)], DefaultVec4, DefaultVec4, 0.0,
             map c | c in samplers :: ChannelUniform(samplers[c], NullBinding))
  }

  /** A JavaScript `Date`, by the getters `update` calls (`month` is
      `getMonth()`, counted from 0). */
  datatype Date = Date(fullYear: int, month: int, day: int, hours: int, minutes: int, seconds: int)

  /** The `values` object `update` is given. */
  datatype FrameValues = FrameValues(
    delta: real, time: real, mouseX: real, mouseY: real, mouseL: bool, mouseR: bool, date: Date)

  /** `pressed ? 1 : 0`. */
  function ButtonValue(pressed: bool): (r: real)
    ensures r == 1.0 <==> pressed
    ensures r == 0.0 <==> !pressed
  {
    if pressed then 1.0 else 0.0
  }

  function MouseVector(v: FrameValues): Vec4
  {
    Vec4(v.mouseX, v.mouseY, ButtonValue(v.mouseL), ButtonValue(v.mouseR))
  }

  /** `h * 60*60 + m * 60 + s`: for a clock reading it is the number of
      seconds since midnight, from which the reading can be recovered. */
  function SecondsOfDay(h: int, m: int, s: int): (r: int)
    ensures 0 <= h < 24 && 0 <= m < 60 && 0 <= s < 60 ==>
      0 <= r < 86400 && r / 3600 == h && r % 3600 / 60 == m && r % 60 == s
  {
    var r := h * 3600 + m * 60 + s;
    if 0 <= h < 24 && 0 <= m < 60 && 0 <= s < 60 then
      SecondsOfDayParts(h, m, s);
      r
    else r
  }

  lemma SecondsOfDayParts(h: int, m: int, s: int)
    requires 0 <= h < 24 && 0 <= m < 60 && 0 <= s < 60
    ensures var r := h * 3600 + m * 60 + s;
      0 <= r < 86400 && r / 3600 == h && r % 3600 / 60 == m && r % 60 == s
  {
    var r := h * 3600 + m * 60 + s;
    var low := m * 60 + s;
    assert 0 <= low < 3600;
    assert r == h * 3600 + low;
    assert r % 3600 == low && r / 3600 == h;
    assert low / 60 == m && low % 60 == s;
    assert r % 60 == s by {
      assert r == (h * 60 + m) * 60 + s;
    }
  }

  /** `iDate`: (year, month counted from 1, day of month, seconds of day). */
  function DateVector(d: Date): (v: Vec4)
    ensures 0 <= d.month < 12 ==> 1.0 <= v.y <= 12.0
    ensures 0 <= d.hours < 24 && 0 <= d.minutes < 60 && 0 <= d.seconds < 60 ==> 0.0 <= v.w < 86400.0
  {
    Vec4(d.fullYear as real, (d.month + 1) as real, d.day as real,
         SecondsOfDay(d.hours, d.minutes, d.seconds) as real)
  }

  /** The uniforms after `update(values)`, given the channel resolutions. */
  function FrameUniforms(u: Uniforms, values: FrameValues, resolutions: seq<Option<Vec3>>): Uniforms
  {
    u.(iTimeDelta := values.delta, iTime := values.time,
       iChannelTime := [values.time, values.time, values.time, values.time],
       iChannelResolution := resolutions,
       iMouse := MouseVector(values), iDate := DateVector(values.date))
  }

  /** The draws of one `render`: the pass's scene into its primary target,
      then, for a `buffer` pass, the copy into its double-buffer target. */
  function PassDraws(ident: nat, passType: string): (d: seq<Draw>)
    ensures |d| == if passType == "buffer" then 2 else 1
    ensures d[0] == Draw(Some(Primary(ident)), PassScene(ident))
    ensures passType == "buffer" ==> d[1] == Draw(Some(DoubleBuffer(ident)), CopyScene(ident))
  {
    [Draw(Some(Primary(ident)), PassScene(ident))] +
    (if passType == "buffer" then [Draw(Some(DoubleBuffer(ident)), CopyScene(ident))] else [])
  }

  /** The texture a pass publishes is the one its `render` draws into last,
      and a `buffer` pass's copy reads the frame it has just drawn. */
  lemma PublishedTextureIsLastDrawn(ident: nat, passType: string)
    ensures var d := PassDraws(ident, passType);
      d[|d| - 1].target == Some(PassTexture(ident, passType).target)
  {
  }

  /** Each common chunk followed by a newline, as `addCommonShader` appends it. */
  function CommonText(chunks: seq<string>): string
  {
    if chunks == [] then "" else CommonText(chunks[..|chunks| - 1]) + chunks[|chunks| - 1] + "\n"
  }

  /** The fragment shader of a pass: the header, the common chunks added
      before the first `render`, and, once finished, the pass code followed by
      the chunks added after it. */
  function ShaderText(header: string, common: seq<string>, finished: bool, code: string, late: seq<string>): string
  {
    header + CommonText(common) + (if finished then code + CommonText(late) else "")
  }

  lemma FinishShader(header: string, common: seq<string>, code: string)
    ensures ShaderText(header, common, false, code, []) + code == ShaderText(header, common, true, code, [])
  {
  }

  lemma AppendChunk(header: string, common: seq<string>, finished: bool, code: string, late: seq<string>, chunk: string)
    ensures var text := ShaderText(header, common, finished, code, late) + chunk + "\n";
      if finished then text == ShaderText(header, common, finished, code, late + [chunk])
      else text == ShaderText(header, common + [chunk], finished, code, late)
  {
    if finished {
      assert (late + [chunk])[..|late|] == late;
    } else {
      assert (common + [chunk])[..|common|] == common;
    }
  }

  /** The fields of a render pass that its methods change. */
  datatype PassState = PassState(
    frame: nat, uniforms: Uniforms, fragmentShader: string, shaderFinished: bool,
    renderTarget: RenderTarget, doubleBufferTarget: Option<RenderTarget>,
    channelInputs: map<int, Producer>, commonChunks: seq<string>, lateChunks: seq<string>)

  /** The state `render` leaves: the code appended once, the frame counter
      advanced, the uniform showing the frame number before the increment. */
  function Rendered(s: PassState, code: string): PassState
  {
    s.(frame := s.frame + 1, uniforms := s.uniforms.(iFrame := s.frame), shaderFinished := true,
       fragmentShader := if s.shaderFinished then s.fragmentShader else s.fragmentShader + code)
  }

  /** The state after `n` consecutive renders. */
  function RenderedTimes(s: PassState, code: string, n: nat): PassState
  {
    if n == 0 then s else Rendered(RenderedTimes(s, code, n - 1), code)
  }

  /** From a fresh pass, the `n`-th render publishes frame number `n - 1` and
      leaves the counter at `n`; the pass code is appended by the first render
      only, and nothing but the counter, `iFrame` and the shader changes. */
  lemma {:induction false} FrameCounter(s: PassState, code: string, n: nat)
    requires s.frame == 0 && n > 0
    ensures RenderedTimes(s, code, n).frame == n
    ensures RenderedTimes(s, code, n).uniforms == s.uniforms.(iFrame := n - 1)
    ensures RenderedTimes(s, code, n).shaderFinished
    ensures RenderedTimes(s, code, n).fragmentShader ==
      if s.shaderFinished then s.fragmentShader else s.fragmentShader + code
    ensures RenderedTimes(s, code, n) == s.(frame := n, uniforms := s.uniforms.(iFrame := n - 1), shaderFinished := true,
      fragmentShader := if s.shaderFinished then s.fragmentShader else s.fragmentShader + code)
  {
    if n > 1 {
      FrameCounter(s, code, n - 1);
    }
  }

  /** The state `update` leaves: new uniforms, nothing else. */
  function Updated(s: PassState, values: FrameValues, resolutions: seq<Option<Vec3>>): PassState
  {
    s.(uniforms := FrameUniforms(s.uniforms, values, resolutions))
  }

  /** The state `resize` leaves: both targets and `iResolution` at the new size. */
  function Resized(s: PassState, ident: nat, passType: string, width: int, height: int): PassState
  {
    s.(renderTarget := RenderTarget(Primary(ident), width, height),
       doubleBufferTarget := if passType == "buffer" then Some(RenderTarget(DoubleBuffer(ident), width, height)) else None,
       uniforms := s.uniforms.(iResolution := Vec3(width as real, height as real, 1.0)))
  }

  /** A render pass. `ident` is the position of its definition in the shader
      definition; it names the pass's targets and scenes. */
  class RenderPass {
    const ident: nat
    const passType: string
    const inputs: seq<PassInterface>
    const outputs: seq<OutputDescriptor>
    const code: string

    var frame: nat
    var uniforms: Uniforms
    var fragmentShader: string
    var shaderFinished: bool
    var renderTarget: RenderTarget
    var doubleBufferTarget: Option<RenderTarget>
    var channelInputs: map<int, Producer>
    /** The common chunks added before, and after, the shader was finished. */
    ghost var commonChunks: seq<string>
    ghost var lateChunks: seq<string>

    /** The preliminary shader the constructor builds from the inputs. */
    const header: string

    /** The sampler type of every channel uniform the constructor creates. */
    const samplers: map<int, SamplerType>

    /** The targets exist as the pass type demands and share one size. */
    predicate TargetsValid()
      reads this`renderTarget, this`doubleBufferTarget
    {
      && (doubleBufferTarget.Some? <==> passType == "buffer")
      && renderTarget.id == Primary(ident)
      && (doubleBufferTarget.Some? ==> doubleBufferTarget.value == renderTarget.(id := DoubleBuffer(ident)))
    }

    /** The scalar uniforms agree with the size and the frame counter. */
    predicate UniformsValid()
      reads this`uniforms, this`renderTarget, this`frame
    {
      && uniforms.iResolution == Vec3(renderTarget.width as real, renderTarget.height as real, 1.0)
      && |uniforms.iChannelTime| == 4 && |uniforms.iChannelResolution| == 4
      && uniforms.iFrame == (if frame == 0 then 0 else frame - 1)
    }

    /** Every declared slot has its uniform, bound to the texture of the
        input connected on it, or to `null`. */
    predicate ChannelsValid()
      reads this`uniforms, this`channelInputs
    {
      && uniforms.iChannels.Keys == samplers.Keys
      && (forall c :: c in uniforms.iChannels ==>
            uniforms.iChannels[c] == ChannelUniform(samplers[c],
              if c in channelInputs then OutputTextureOf(channelInputs[c]) else NullBinding))
      && channelInputs.Keys <= uniforms.iChannels.Keys
    }

    /** The fragment shader is the header, the common chunks and, once
        finished, the pass code. */
    ghost predicate ShaderValid()
      reads this`fragmentShader, this`shaderFinished, this`commonChunks, this`lateChunks
    {
      && (!shaderFinished ==> lateChunks == [])
      && fragmentShader == ShaderText(header, commonChunks, shaderFinished, code, lateChunks)
    }

    ghost function State(): PassState
      reads this
    {
      PassState(frame, uniforms, fragmentShader, shaderFinished, renderTarget, doubleBufferTarget,
                channelInputs, commonChunks, lateChunks)
    }

    ghost predicate Valid()
      reads this
    {
      TargetsValid() && UniformsValid() && ChannelsValid() && ShaderValid()
    }

    constructor (definition: PassDefinition, ident: nat)
      ensures Valid()
      ensures this.ident == ident && passType == definition.passType && code == definition.code
      ensures inputs == InputTable(definition.inputs) && outputs == definition.outputs
      ensures frame == 0 && !shaderFinished && channelInputs == map[]
      ensures header == ShaderHeader(UniformString(ChannelDecls(inputs)))
      ensures fragmentShader == header && commonChunks == [] && lateChunks == []
      ensures renderTarget == RenderTarget(Primary(ident), 512, 512)
      ensures samplers == DeclMap(ChannelDecls(inputs)) && uniforms == InitialUniforms(samplers)
    {
      var table := BuildInputTable(definition.inputs);
      var declared, text := DeclareChannels(table);
      this.ident := ident;
      passType := definition.passType;
      inputs := table;
      outputs := definition.outputs;
      code := definition.code;
      header := ShaderHeader(text);
      samplers := declared;
      frame := 0;
      uniforms := InitialUniforms(declared);
      fragmentShader := ShaderHeader(text);
      shaderFinished := false;
      renderTarget := RenderTarget(Primary(ident), 512, 512);
      doubleBufferTarget := if definition.passType == "buffer" then Some(RenderTarget(DoubleBuffer(ident), 512, 512)) else None;
      channelInputs := map[];
      commonChunks, lateChunks := [], [];
      new;
      assert fragmentShader == ShaderText(header, [], false, code, []);
    }

    /** `outputTexture`. */
    function OutputTexture(): (t: Texture)
      reads this`renderTarget, this`doubleBufferTarget
      requires TargetsValid()
      ensures t == PassTexture(ident, passType)
    {
      if doubleBufferTarget.Some? then TargetTexture(doubleBufferTarget.value.id) else TargetTexture(renderTarget.id)
    }

    /** `outputSize`: the primary target's size, which for a `buffer` pass is
        also the size of the double-buffer target whose texture it publishes. */
    function OutputSize(): (r: Vec3)
      reads this`renderTarget, this`doubleBufferTarget
      ensures r.x == renderTarget.width as real && r.y == renderTarget.height as real && r.z == 1.0
      ensures TargetsValid() && doubleBufferTarget.Some? ==>
        r == Vec3(doubleBufferTarget.value.width as real, doubleBufferTarget.value.height as real, 1.0)
    {
      Vec3(renderTarget.width as real, renderTarget.height as real, 1.0)
    }

    /** `outputTime`: the `iTime` uniform, the time of the last `update`. */
    function OutputTime(): (t: real)
      reads this`uniforms
      ensures t == uniforms.iTime
    {
      uniforms.iTime
    }

    /** `render(renderer)`: finishes the shader with the pass code on the
        first call only, publishes the frame number and advances it, and
        draws the pass (and, for a `buffer` pass, its copy). */
    method Render(renderer: Renderer)
      requires Valid()
      modifies this`frame, this`uniforms, this`fragmentShader, this`shaderFinished, renderer`target, renderer`draws
      ensures Valid() && shaderFinished
      ensures fragmentShader == if old(shaderFinished) then old(fragmentShader) else old(fragmentShader) + code
      ensures !old(shaderFinished) ==> fragmentShader == ShaderText(header, commonChunks, true, code, [])
      ensures frame == old(frame) + 1 && uniforms == old(uniforms).(iFrame := old(frame))
      ensures renderer.draws == old(renderer.draws) + PassDraws(ident, passType)
      ensures renderer.target == Some(PassTexture(ident, passType).target)
      ensures State() == Rendered(old(State()), code)
    {
      if !shaderFinished {
        FinishShader(header, commonChunks, code);
        fragmentShader := fragmentShader + code;
        shaderFinished := true;
      }
      uniforms := uniforms.(iFrame := frame);
      frame := frame + 1;
      renderer.SetRenderTarget(Some(renderTarget.id));
      renderer.Render(PassScene(ident));
      if doubleBufferTarget.Some? {
        renderer.SetRenderTarget(Some(doubleBufferTarget.value.id));
        renderer.Render(CopyScene(ident));
      }
    }

    /** `update(values)`: the per-frame uniforms. */
    method Update(values: FrameValues)
      requires Valid()
      modifies this`uniforms
      ensures Valid()
      ensures uniforms == FrameUniforms(old(uniforms), values, old(ChannelResolutions(channelInputs)))
      ensures State() == Updated(old(State()), values, old(ChannelResolutions(channelInputs)))
      ensures OutputTime() == values.time && uniforms.iTimeDelta == values.delta
      ensures forall i :: 0 <= i < 4 ==> uniforms.iChannelTime[i] == values.time
      ensures forall i :: 0 <= i < 4 && i !in channelInputs ==> uniforms.iChannelResolution[i] == Some(Zero3)
      ensures forall i :: 0 <= i < 4 && i in channelInputs ==>
        uniforms.iChannelResolution[i] == old(OutputSizeOf(channelInputs[i]))
      ensures uniforms.iMouse == Vec4(values.mouseX, values.mouseY, ButtonValue(values.mouseL), ButtonValue(values.mouseR))
      ensures uniforms.iDate == DateVector(values.date)
    {
      var channelTime := uniforms.iChannelTime;
      var channelResolution := uniforms.iChannelResolution;
      for i := 0 to 4
        invariant |channelTime| == 4 && |channelResolution| == 4
        invariant forall j :: 0 <= j < i ==> channelTime[j] == values.time
        invariant forall j :: 0 <= j < i ==> channelResolution[j] == ChannelResolutions(channelInputs)[j]
      {
        channelTime := channelTime[i := values.time];
        channelResolution := channelResolution[i := if i in channelInputs then OutputSizeOf(channelInputs[i]) else Some(Zero3)];
      }
      assert channelTime == [values.time, values.time, values.time, values.time];
      assert channelResolution == ChannelResolutions(channelInputs);
      uniforms := uniforms.(iTimeDelta := values.delta, iTime := values.time,
        iChannelTime := channelTime, iChannelResolution := channelResolution,
        iMouse := MouseVector(values), iDate := DateVector(values.date));
    }

    /** `resize(width, height)`: both targets and `iResolution` take the new size. */
    method Resize(width: int, height: int)
      requires Valid()
      modifies this`renderTarget, this`doubleBufferTarget, this`uniforms
      ensures Valid()
      ensures renderTarget == RenderTarget(Primary(ident), width, height)
      ensures doubleBufferTarget == if passType == "buffer" then Some(RenderTarget(DoubleBuffer(ident), width, height)) else None
      ensures uniforms == old(uniforms).(iResolution := Vec3(width as real, height as real, 1.0))
      ensures OutputSize() == Vec3(width as real, height as real, 1.0)
      ensures State() == Resized(old(State()), ident, passType, width, height)
    {
      renderTarget := renderTarget.(width := width, height := height);
      if doubleBufferTarget.Some? {
        doubleBufferTarget := Some(doubleBufferTarget.value.(width := width, height := height));
      }
      uniforms := uniforms.(iResolution := Vec3(width as real, height as real, 1.0));
    }

    /** `addCommonShader(code)`: appends the chunk and a newline. Before the
        first `render` the chunk lands between the header and the pass
        code; afterwards it follows the code. */
    method AddCommonShader(chunk: string)
      requires Valid()
      modifies this`fragmentShader, this`commonChunks, this`lateChunks
      ensures Valid()
      ensures fragmentShader == old(fragmentShader) + chunk + "\n"
      ensures !shaderFinished ==> commonChunks == old(commonChunks) + [chunk] && lateChunks == []
      ensures shaderFinished ==> commonChunks == old(commonChunks) && lateChunks == old(lateChunks) + [chunk]
    {
      AppendChunk(header, commonChunks, shaderFinished, code, lateChunks, chunk);
      fragmentShader := fragmentShader + chunk + "\n";
      if !shaderFinished {
        commonChunks := commonChunks + [chunk];
      } else {
        lateChunks := lateChunks + [chunk];
      }
    }

    /** `connectInputChannel(channel, input)`: binds the input's texture to
        the channel's uniform and records the input; a channel without a
        uniform makes the property write throw. */
    method ConnectInputChannel(channel: int, input: Producer) returns (outcome: Outcome<JsException>)
      requires Valid()
      modifies this`uniforms, this`channelInputs
      ensures Valid()
      ensures outcome.Fail? <==> channel !in samplers
      ensures outcome.Fail? ==> outcome.error.TypeError? && uniforms == old(uniforms) && channelInputs == old(channelInputs)
      ensures outcome.Done? ==> channelInputs == old(channelInputs)[channel := input]
      ensures outcome.Done? ==> uniforms == old(uniforms).(iChannels := old(uniforms.iChannels)[channel :=
        ChannelUniform(samplers[channel], OutputTextureOf(input))])
    {
      if channel !in uniforms.iChannels {
        return Fail(TypeError("Cannot set properties of undefined (setting 'value')"));
      }
      uniforms := uniforms.(iChannels := uniforms.iChannels[channel := uniforms.iChannels[channel].(value := OutputTextureOf(input))]);
      channelInputs := channelInputs[channel := input];
      outcome := Done;
    }
  }
}
