# three-shadertoy core, modelled in Dafny

This project models the sequential logic of `three-shadertoy`, a library that
runs Shadertoy shader definitions on top of three.js:

- **Render pass** (`RenderPass`), in modules `Channels` and `Pass`:
  - The constructor classifies each input's `ctype`, builds the `_inputs`
    dictionary and picks a GLSL sampler per input.
  - It declares every one of the slots `iChannel0..3`, giving free slots a
    dummy `sampler2D`.
  - `render` finishes the fragment shader on the first call only, advances
    the frame counter and draws once, or twice for a double-buffered pass.
  - `update` computes the per-frame uniforms; `resize` sizes the targets;
    `addCommonShader` appends code; `connectInputChannel` binds a slot.
- **Shader material** (`ShadertoyMaterial`), in module `Material`:
  - The constructor creates and resizes one pass per definition. It keeps
    the buffer passes in order and the last image pass as output, registers
    every output id and wires every input whose id resolves.
  - `render`, `update` and `resize` go over the buffer passes, then the
    output pass; `render` also flags the material for upload.
- **Volume input** (`VolumeInput`), in module `Volume`: the decoder of the
  20-byte little-endian `.bin` header, the payload view and the filter rule.
- **Audio input** (`AudioInput`), in module `Audio`: the 1024-byte texture
  buffer, written at offset 0 and offset 512.

Three.js is modelled abstractly (module `Three`):

- render targets are records of an identity and a size;
- textures are opaque handles;
- the renderer is a log of `(target, scene)` draws, so the draw order can be
  stated.

The variants of `ShaderPassInput` are the datatype `Pass.Producer`. JavaScript
exceptions are values (`Wrappers.JsException`), returned as `Result`/`Outcome`.

Where the code's own comments expect more than the code does (for example
src/RenderPass.js:233 assumes that common code has been added before the
first render), the model follows the code:

- Common code is never injected: the material never calls `addCommonShader`.
  Nothing in the modelled core creates input adapters (the constructor has a
  `TODO` there) or updates them.
- An input id that nothing resolves is skipped, not reported: it is logged,
  and construction goes on.
- `webcam` and `video` inputs get a dictionary entry of kind video. Only
  `keyboard` and unknown `ctype`s are skipped.
- A definition without an `image` pass fails with a `TypeError`, raised when
  the wiring loop reads `inputs` of the `null` output pass
  (src/ShadertoyMaterial.js:54-55). This happens after the buffer passes
  have been wired. The descriptive `Error` of lines 67-69 cannot be reached:
  the model returns that `TypeError`.
- `resize` resizes the existing targets in place instead of allocating new
  ones.

The wiring loop passes the producer's texture, not the producer, to
`connectInputChannel` (src/ShadertoyMaterial.js:63). `connectInputChannel`
then reads `outputTexture` of that texture (src/RenderPass.js:268). The model
keeps this as written:

- A connected slot holds a `BareTexture`, and its uniform is bound to
  JavaScript `undefined` (`Pass.OutputTextureOf`, `Material.Wiring`).
- The `iChannelResolution` that `update` computes for such a slot is
  `undefined` as well (`Material.DetachedResolutions`, `Material.BareResolutions`).

## Model

| member | source | states |
|---|---|---|
| Channels.ClassifyCtype | src/RenderPass.js:38-66 | a `ctype` yields an entry exactly when it is supported; `webcam`/`video` give video, `music`/`musicstream`/`mic` give audio, `texture`/`volume`/`cubemap`/`buffer` give themselves, `keyboard` and unknown types give none (each direction) |
| Channels.SamplerFor | src/RenderPass.js:101-114 | the sampler is `mediump sampler3D` exactly for volumes, `samplerCube` exactly for cubemaps, `sampler2D` otherwise |
| Channels.Put | src/RenderPass.js:68 | a dictionary assignment keeps keys unique: an existing key keeps its position and takes the new value, a new key is appended, no other entry changes |
| Channels.LastSupported | src/RenderPass.js:38-69 | the input picked for an id carries that id and a supported `ctype`; when none is picked, no input with the id has a supported `ctype` |
| Channels.LastSupportedIsLast | src/RenderPass.js:38-69 | no later input with the same id has a supported `ctype` |
| Channels.InputTable | src/RenderPass.js:38-69 | the dictionary has unique keys; each entry is the last supported input with its id, classified by its `ctype`; every id with a supported input has an entry |
| Channels.FirstSupported | src/RenderPass.js:38-69 | the position found carries the id and a supported `ctype` |
| Channels.FirstSupportedIsFirst | src/RenderPass.js:38-69 | no earlier input carries the id with a supported `ctype`, and when no position is found no input does |
| Channels.InputTableOrder | src/RenderPass.js:38-69 | the dictionary enumerates its keys in order of first insertion: ordered by the position of the first supported input with each id, whichever input ends up as the value |
| Channels.RepeatedIdSlotSampler | src/RenderPass.js:68-127 | for a volume `A`, a texture `B` and a cubemap `A` on slot 0, the dictionary is `[A (cubemap), B]` and slot 0 is a `sampler2D` |
| Channels.BuildInputTable | src/RenderPass.js:38-69 | the constructor's loop builds exactly that dictionary |
| Channels.DeclareInputs | src/RenderPass.js:94-119 | the first loop marks `channelOccupied` exactly at the occupied slots 0..3 and emits one declaration per entry, in order, as uniform entries and as text |
| Channels.DeclareChannels | src/RenderPass.js:94-127 | the two loops produce exactly the entry declarations followed by the dummy declarations, as uniform entries and as `uniformString` |
| Channels.DeclMapKeys | src/RenderPass.js:117-124 | a slot has a uniform entry exactly when some declaration names it |
| Channels.DeclMapLast | src/RenderPass.js:117-124 | a slot's uniform entry has the sampler of the last declaration naming it |
| Channels.FreeSlotsShape | src/RenderPass.js:121-127 | the dummy declarations are `sampler2D`s for exactly the free slots 0..3, each once, in ascending order |
| Channels.OccupiedSlotDeclaration | src/RenderPass.js:96-124 | a slot some dictionary entry uses has the sampler of the last entry on it |
| Channels.FreeSlotDeclaration | src/RenderPass.js:121-127 | a slot no dictionary entry uses has the dummy `sampler2D` |
| Channels.SlotDeclaration | src/RenderPass.js:96-127 | every slot 0..3 has a uniform entry: the sampler of the last dictionary entry on it (in the dictionary's order, not the inputs'), or `sampler2D` when the slot is free |
| Channels.EntryChannelsDeclared | src/RenderPass.js:116-117 | the slot of every dictionary entry has a uniform entry |
| Channels.DistinctChannelsDeclaredOnce | src/RenderPass.js:96-127 | with every input on its own slot in 0..3, exactly four declarations are emitted, one per slot |
| Channels.IntToStringInjective | src/RenderPass.js:117-118 | different slot numbers give different uniform names |
| Channels.UniformStringSplit | src/RenderPass.js:118-125 | every declaration's text appears verbatim in `uniformString`, in emission order |
| Pass.PassTexture | src/RenderPass.js:185-191 | a pass publishes its double-buffer texture exactly when it is a `buffer` pass, its primary texture otherwise |
| Pass.OutputTextureOf | src/RenderPass.js:268 | a producer's `outputTexture` is `undefined` exactly for a bare texture, and never `null` |
| Pass.OutputSizeOf | src/RenderPass.js:260 | a producer's `outputSize` is `undefined` exactly for a bare texture |
| Pass.ChannelResolutions | src/RenderPass.js:257-261 | each of the four resolutions is the connected input's `outputSize`, or the zero vector on an unconnected slot |
| Pass.InitialUniforms | src/RenderPass.js:82-124 | `iResolution` (512, 512, 1); time, delta, sample rate and frame 0; four channel times 0 and four zero resolutions; `iMouse` and `iDate` the default vector (0, 0, 0, 1); a channel uniform for exactly the declared slots, each with its sampler and bound to `null` |
| Pass.ButtonValue | src/RenderPass.js:263 | a mouse button is 1 exactly when pressed and 0 exactly when not |
| Pass.SecondsOfDay | src/RenderPass.js:264 | for a clock reading, `h*3600+m*60+s` lies in one day and gives back hours, minutes and seconds |
| Pass.DateVector | src/RenderPass.js:264 | `iDate` has the month counted from 1 (1..12) and the seconds of the day in 0..86399 |
| Pass.PassDraws | src/RenderPass.js:243-250 | a render draws the pass scene into the primary target, then, for a `buffer` pass only, the copy scene into the double-buffer target |
| Pass.PublishedTextureIsLastDrawn | src/RenderPass.js:171-191 | the texture a pass publishes is the target its render draws into last |
| Pass.FinishShader | src/RenderPass.js:233-237 | appending the pass code to an unfinished shader gives the finished shader text |
| Pass.AppendChunk | src/RenderPass.js:224-226 | a common chunk and its newline land between the header and the pass code before the first render, after the code once the shader is finished |
| Pass.FrameCounter | src/RenderPass.js:239 | from frame 0, the n-th render publishes `iFrame` n-1 and leaves the counter at n; the pass code is appended by the first render only |
| Pass.RenderPass.constructor | src/RenderPass.js:31-183 | the pass holds the input dictionary, the outputs and the code; the shader is the header with the channel declarations, unfinished; frame 0; no channel connected; a 512x512 primary target, with a double-buffer target exactly when the pass is a `buffer` pass |
| Pass.RenderPass.OutputTexture | src/RenderPass.js:185-191 | `outputTexture` is the texture the pass publishes |
| Pass.RenderPass.OutputSize | src/RenderPass.js:193-195 | `outputSize` is the primary target's width and height with depth 1, which is also the double-buffer target's size |
| Pass.RenderPass.OutputTime | src/RenderPass.js:197-199 | `outputTime` is the current `iTime` uniform |
| Pass.RenderPass.Render | src/RenderPass.js:232-251 | the code is appended on the first render only; `iFrame` shows the counter before the increment; the renderer's log grows by the pass's draws and its target is the published one; nothing else changes |
| Pass.RenderPass.Update | src/RenderPass.js:253-265 | `iTime`/`iTimeDelta` take the values; all four `iChannelTime` take the time; each resolution is the connected input's size or zero; mouse and date as given; nothing else changes |
| Pass.RenderPass.Resize | src/RenderPass.js:216-222 | both targets and `iResolution` take the new size, as does `outputSize`; nothing else changes |
| Pass.RenderPass.AddCommonShader | src/RenderPass.js:224-226 | the shader grows by the chunk and a newline, recorded as common code before the first render and as late code after it |
| Pass.RenderPass.ConnectInputChannel | src/RenderPass.js:267-270 | on a declared slot, the uniform is bound to the input's `outputTexture` and the input is recorded; on an undeclared slot a `TypeError` is thrown and nothing changes |
| Material.SizeOption | src/ShadertoyMaterial.js:13-14 | a size given in the options is used, otherwise 512 |
| Material.BufferIndices | src/ShadertoyMaterial.js:28-34 | the kept buffer passes are exactly the `buffer` definitions, in declaration order |
| Material.OutputIndex | src/ShadertoyMaterial.js:28-31 | there is an output pass exactly when some definition is an `image` pass, and it is the last one |
| Material.Register | src/ShadertoyMaterial.js:44-46 | registering a pass's outputs maps each of its output ids to that pass and keeps every other entry |
| Material.OutputTable | src/ShadertoyMaterial.js:44-46 | every id maps to the position of a definition |
| Material.OutputTableKeys | src/ShadertoyMaterial.js:44-46 | the output table holds exactly the ids some pass declares |
| Material.OutputTableLast | src/ShadertoyMaterial.js:44-46 | each id maps to the last pass declaring it |
| Material.Wiring | src/ShadertoyMaterial.js:63 | every connected slot holds the bare texture passed at line 63 |
| Material.WiringKeys | src/ShadertoyMaterial.js:55-64 | a slot is connected exactly when some input on it resolves |
| Material.WiringLast | src/ShadertoyMaterial.js:55-64 | a connected slot holds the texture of the last resolving input on it |
| Material.ResolvedInputConnected | src/ShadertoyMaterial.js:54-65 | an input whose id some pass declares is connected on its slot to the texture of the last pass declaring the id, unless a later resolving input shares the slot |
| Material.UnresolvedInputSkipped | src/ShadertoyMaterial.js:58-61 | when no input on a slot resolves, the slot stays unconnected |
| Material.FrameLog | src/ShadertoyMaterial.js:93-105 | a frame has one or two draws per pass, each into a render target, none into the canvas |
| Material.FrameLogBlock | src/ShadertoyMaterial.js:93-105 | each pass's draws form one contiguous block of a frame, after the blocks of the passes before it |
| Material.FrameLogDrawsEachOnce | src/ShadertoyMaterial.js:93-105 | with distinct passes, every pass's scene is drawn exactly once per frame |
| Material.DetachedResolutions | src/ShadertoyMaterial.js:63 | a slot's resolution is `undefined` exactly when it is connected, zero otherwise |
| Material.BareResolutions | src/ShadertoyMaterial.js:63 | for a pass wired with bare textures, `update` computes those resolutions |
| Material.TableOfTextures | src/ShadertoyMaterial.js:44-46 | the table the constructor fills resolves each id to the texture of the last pass declaring it |
| Material.BuildPasses | src/ShadertoyMaterial.js:22-47 | the first loop creates fresh built, resized and unconnected passes; it keeps the buffer passes in order and the last image pass; the table has exactly the declared ids, each resolving to the last declaring pass |
| Material.RegisterOutputs | src/ShadertoyMaterial.js:44-46 | the loop over a pass's outputs registers them |
| Material.WireInputs | src/ShadertoyMaterial.js:55-64 | one pass's loop connects exactly the resolving inputs, without failing |
| Material.WireAll | src/ShadertoyMaterial.js:54-65 | the wiring loop leaves every pass wired from the table |
| Material.DistinctPasses | src/ShadertoyMaterial.js:28-34 | the kept buffer passes and the output pass are pairwise distinct |
| Material.ShadertoyMaterial.Create | src/ShadertoyMaterial.js:8-72 | construction fails with a `TypeError` exactly when no definition is an `image` pass; otherwise the material has the given or default size, the buffer passes in order, the last image pass as output, every pass built and wired, elapsed 0, version 0 |
| Material.ShadertoyMaterial.Render | src/ShadertoyMaterial.js:93-105 | the material's `version` grows by one; the draws are the passes' draws, buffers in order and then the output pass; each pass renders once; the target is reset to the canvas |
| Material.ShadertoyMaterial.FlagForUpload | src/ShadertoyMaterial.js:94 | `needsUpdate = true` increments the material's `version` and changes nothing else |
| Material.ShadertoyMaterial.Update | src/ShadertoyMaterial.js:107-125 | the elapsed time grows by the clock delta, and every pass receives the same values, with time the elapsed time and the mouse at rest |
| Material.ShadertoyMaterial.Resize | src/ShadertoyMaterial.js:86-91 | every buffer pass and the output pass take the new size; the material's size does not change |
| Volume.ReadHeader | src/VolumeInput.js:42-48 | the reads fail exactly on a file shorter than 20 bytes, and yield 32-bit sizes and a 16-bit format code |
| Volume.ChannelFormat | src/VolumeInput.js:55-72 | 1..4 channels select the format with that many components and that alignment; any other count keeps RGBA with alignment 4 |
| Volume.SampleTypeOf | src/VolumeInput.js:74-83 | samples are float exactly for format code 10, unsigned bytes otherwise |
| Volume.Decode | src/VolumeInput.js:41-91 | a decoded image has the header's 32-bit sizes, the format and alignment the channel byte selects, float samples exactly for format code 10, and the bytes from 20 on as payload, a whole number of floats for float samples |
| Volume.DecodeFails | src/VolumeInput.js:41-83 | decoding fails, with a `RangeError`, exactly on a short file or a float file whose length is not a multiple of 4 |
| Volume.ReadHeaderEncode | src/VolumeInput.js:42-48 | the header read back from an encoded file is the header encoded |
| Volume.DecodeEncode | src/VolumeInput.js:41-91 | decoding an encoded file gives the header's size, the selected format, sample type and alignment, and the payload from byte 20 |
| Volume.IgnoredBytes | src/VolumeInput.js:42-53 | bytes 0-3 and the layout byte 17 do not affect the decoded texture |
| Volume.NormaliseFilter | src/VolumeInput.js:14-20 | `LinearMipmapLinearFilter` becomes `LinearFilter`; every other filter is kept |
| Volume.VolumeInput.constructor | src/VolumeInput.js:5-21 | wrap applies to S, T and R; both filters are normalised; the texture is 1x1x1 |
| Volume.VolumeInput.OutputSize | src/VolumeInput.js:27-29 | `outputSize` is the current image's width, height and depth |
| Volume.VolumeInput.OutputTime | src/VolumeInput.js:31-33 | `outputTime` is 0 |
| Volume.VolumeInput.UpdateData | src/VolumeInput.js:37-93 | on success the image, format, type and alignment are the decoded ones and `outputSize` is the header's size; on failure the exception is the decoder's and nothing changes |
| Audio.SetBytes | src/AudioInput.js:46-47 | `set` throws a `TypeError` on `null` and a `RangeError` when the source does not fit; otherwise it replaces exactly the bytes from the offset |
| Audio.TextureFrame | src/AudioInput.js:46-47 | the buffer keeps its length; a `TypeError` is thrown exactly when the frequency array is absent, or fits and the time-domain array is absent; when the first write throws, the buffer is unchanged |
| Audio.TextureFrameOutcome | src/AudioInput.js:46-47 | the two writes succeed exactly when both arrays are stored and fit (at most 1024 and 512 bytes) |
| Audio.TextureFrameLayout | src/AudioInput.js:46-47 | after the writes, the frequency data is at 0 and the time-domain data at 512, winning on overlap; other bytes keep their values |
| Audio.TextureFramePartial | src/AudioInput.js:46-47 | when the second write throws, the frequency bytes stay written |
| Audio.TextureFrameIdempotent | src/AudioInput.js:38-48 | writing the same stored arrays again changes nothing |
| Audio.AudioInput.constructor | src/AudioInput.js:5-19 | a 1024-byte zeroed buffer as a 512x2 red/unsigned-byte texture; time 0; no stored arrays |
| Audio.AudioInput.OutputSize | src/AudioInput.js:25-27 | the size is (512, 2, 1), covering the 1024-byte buffer |
| Audio.AudioInput.OutputTime | src/AudioInput.js:29-31 | `outputTime` is the time of the last `update` |
| Audio.AudioInput.Update | src/AudioInput.js:33-36 | `outputTime` returns the given time and the texture needs an upload |
| Audio.AudioInput.UpdateData | src/AudioInput.js:38-48 | a present argument replaces its stored array, an absent one keeps it; the buffer and the outcome are those of the two writes |
| Audio.SetInto | src/AudioInput.js:46-47 | the in-place write changes the buffer as `SetBytes` says, and leaves it unchanged when it throws |

## Left out

- Key order of JavaScript objects: the `_inputs` dictionary is modelled in
  insertion order. JavaScript enumerates integer-like keys in ascending order
  first, so for numeric input ids the declaration and wiring order can
  differ.
- Channel slots are integers. A non-integer `channel` value is not modelled.
- `Channels.ShaderHeader`: the fixed header text around the declarations is
  modelled with condensed whitespace and without the GLSL comments of
  src/RenderPass.js:131-154.
- The `OrthographicCamera`, the meshes and materials, target filters and
  formats, texture names and `dispose` are not modelled: they are GPU
  resources.
- Resource allocation: targets are records, textures are handles.
- `console.log` and `console.error` output is not modelled.
- The material's `_inputs` registry (src/ShadertoyMaterial.js:40-42) is not
  modelled: nothing reads it.
- `super(opts)` is not modelled: the `MeshBasicMaterial` options other than
  `width` and `height` (colour, transparency and the like) configure the GPU
  material only. `needsUpdate` is modelled by its effect, the `version`
  increment. The `meta`, `width` and `height` getters are plain fields.
- Input and output ids are assumed not to be names of `Object.prototype`
  properties (`toString`, `constructor`, `valueOf`, `__proto__`).
  `Channels.InputTable` (src/RenderPass.js:68) and `Material.WireInputs` /
  `Material.Wiring` (src/ShadertoyMaterial.js:58, 63) treat an id as present
  only once it has been assigned, while a JavaScript lookup of such a name
  in `{}` finds the inherited property.
- `THREE.Clock` and `new Date()` are left out: the clock's delta and the
  date are parameters of `Update`.
- Time, mouse and vector values are reals, not IEEE floats.
- Float32 reinterpretation: a float volume payload stays raw bytes tagged
  with its sample type.
- `FileLoader` and the promise of `VolumeInput.updateData` are left out: the
  model is the completion, a synchronous function of the fetched bytes. A
  failed fetch is not modelled.
- `VolumeInput.update` is not modelled: it does nothing.
- `Audio.AudioInput.UpdateData`: arrays are byte sequences. The conversion
  `Uint8Array.set` applies to numbers outside 0..255 is not modelled.
- `VideoInput`, `TextureInput`, `CubemapInput`, `ShadertoyLoader`, the GLSL
  constants of `shaders.js` and the abstract `ShaderPassInput` are not part of
  this model. The last one is folded into `Pass.Producer`.
- The material's wiring loop is modelled only inside its constructor. Only
  the resulting wiring of each pass (`Material.Wired`) is stated, not the
  order of the individual `connectInputChannel` calls.
