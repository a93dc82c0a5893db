/** The pure logic of a render pass's constructor: classifying each input's
    Shadertoy `ctype`, the dictionary of supported inputs it builds, the GLSL
    sampler type of each input, and the uniform declarations that make every
    one of the slots `iChannel0..3` declared. */
module Channels {
  import opened Wrappers
  import opened Definition

  /** The input kinds a pass distinguishes (`PassInterface.type`). */
  datatype InputKind = VideoKind | TextureKind | VolumeKind | CubemapKind | AudioKind | BufferKind

  /** The `ctype`s that produce an input entry; `keyboard` is not among them. */
  const SupportedCtypes: set<string> :=
    {"webcam", "video", "texture", "volume", "cubemap", "music", "musicstream", "mic", "buffer"}

  /** The switch on `input.ctype`; `None` is the `continue` that skips the input. */
  function ClassifyCtype(ctype: string): (r: Option<InputKind>)
    ensures r.Some? <==> ctype in SupportedCtypes
    ensures ctype == "keyboard" ==> r.None?
    ensures r == Some(VideoKind) <==> ctype == "webcam" || ctype == "video"
    ensures r == Some(AudioKind) <==> ctype == "music" || ctype == "musicstream" || ctype == "mic"
    ensures r == Some(TextureKind) <==> ctype == "texture"
    ensures r == Some(VolumeKind) <==> ctype == "volume"
    ensures r == Some(CubemapKind) <==> ctype == "cubemap"
    ensures r == Some(BufferKind) <==> ctype == "buffer"
  {
    if ctype == "webcam" || ctype == "video" then Some(VideoKind)
    else if ctype == "texture" then Some(TextureKind)
    else if ctype == "volume" then Some(VolumeKind)
    else if ctype == "cubemap" then Some(CubemapKind)
    else if ctype == "music" || ctype == "musicstream" || ctype == "mic" then Some(AudioKind)
    else if ctype == "buffer" then Some(BufferKind)
    else None
  }

  datatype SamplerType = Sampler2D | Sampler3D | SamplerCube

  /** The GLSL spelling of a sampler type. */
  function GlslType(s: SamplerType): string
  {
    match s
    case Sampler2D => "sampler2D"
    case Sampler3D => "mediump sampler3D"
    case SamplerCube => "samplerCube"
  }

  /** The switch on the input kind that picks `gl_type`: only volumes and
      cubemaps leave `sampler2D`. */
  function SamplerFor(kind: InputKind): (s: SamplerType)
    ensures s == Sampler3D <==> kind == VolumeKind
    ensures s == SamplerCube <==> kind == CubemapKind
  {
    match kind
    case VolumeKind => Sampler3D
    case CubemapKind => SamplerCube
    case _ => Sampler2D
  }

  /** An entry of the pass's `_inputs` dictionary. */
  datatype PassInterface = PassInterface(id: string, kind: InputKind, meta: InputDescriptor)

  /** A dictionary holds each key once. */
  predicate UniqueIds(t: seq<PassInterface>)
  {
    forall i, j :: 0 <= i < j < |t| ==> t[i].id != t[j].id
  }

  /** `dict[e.id] = e` on a dictionary that enumerates in insertion order: an
      existing key keeps its position and takes the new value, a new key is
      appended. */
  function Put(t: seq<PassInterface>, e: PassInterface): (r: seq<PassInterface>)
    requires UniqueIds(t)
    ensures UniqueIds(r)
    ensures |t| <= |r|
    ensures forall i :: 0 <= i < |t| ==> r[i] == (if t[i].id == e.id then e else t[i])
    ensures |r| == |t| || (|r| == |t| + 1 && r[|t|] == e && forall x :: x in t ==> x.id != e.id)
    ensures e in r
    ensures forall x :: x in r ==> x == e || (x in t && x.id != e.id)
    ensures forall x :: x in t && x.id != e.id ==> x in r
  {
    if exists x :: x in t && x.id == e.id then
      seq(|t|, i requires 0 <= i < |t| => if t[i].id == e.id then e else t[i])
    else t + [e]
  }

  /** The last input carrying `id` whose `ctype` is supported, if any. */
  function LastSupported(inputs: seq<InputDescriptor>, id: string): (r: Option<InputDescriptor>)
    ensures r.Some? ==> r.value in inputs && r.value.id == id && r.value.ctype in SupportedCtypes
    ensures r.None? ==> forall i :: 0 <= i < |inputs| && inputs[i].id == id ==> inputs[i].ctype !in SupportedCtypes
  {
    if inputs == [] then None
    else if inputs[|inputs| - 1].id == id && inputs[|inputs| - 1].ctype in SupportedCtypes then Some(inputs[|inputs| - 1])
    else LastSupported(inputs[..|inputs| - 1], id)
  }

  /** No input after the one `LastSupported` picks carries the same id and a supported ctype. */
  lemma {:induction false} LastSupportedIsLast(inputs: seq<InputDescriptor>, id: string)
    requires LastSupported(inputs, id).Some?
    ensures exists i ::
              && 0 <= i < |inputs|
              && inputs[i] == LastSupported(inputs, id).value
              && (forall j :: i < j < |inputs| && inputs[j].id == id ==> inputs[j].ctype !in SupportedCtypes)
  {
    var n := |inputs|;
    if inputs[n - 1].id == id && inputs[n - 1].ctype in SupportedCtypes {
      assert inputs[n - 1] == LastSupported(inputs, id).value;
    } else {
      var prefix := inputs[..n - 1];
      LastSupportedIsLast(prefix, id);
      var i :| 0 <= i < |prefix| && prefix[i] == LastSupported(prefix, id).value &&
        (forall j :: i < j < |prefix| && prefix[j].id == id ==> prefix[j].ctype !in SupportedCtypes);
      assert inputs[i] == LastSupported(inputs, id).value;
      forall j | i < j < n && inputs[j].id == id
        ensures inputs[j].ctype !in SupportedCtypes
      {
        if j < n - 1 { assert inputs[j] == prefix[j]; }
      }
    }
  }

  /** One iteration of the constructor's first loop. */
  function Record(t: seq<PassInterface>, input: InputDescriptor): seq<PassInterface>
    requires UniqueIds(t)
  {
    match ClassifyCtype(input.ctype)
    case None => t
    case Some(kind) => Put(t, PassInterface(input.id, kind, input))
  }

  /** The `_inputs` dictionary the constructor builds from `definition.inputs`. */
  function InputTable(inputs: seq<InputDescriptor>): (r: seq<PassInterface>)
    ensures UniqueIds(r)
    ensures forall x :: x in r ==> x.id == x.meta.id && ClassifyCtype(x.meta.ctype) == Some(x.kind)
    ensures forall x :: x in r ==> LastSupported(inputs, x.id) == Some(x.meta)
    ensures forall id :: LastSupported(inputs, id).Some? ==> exists x :: x in r && x.id == id
  {
    if inputs == [] then []
    else
      var prefix := inputs[..|inputs| - 1];
      var t := InputTable(prefix);
      var last := inputs[|inputs| - 1];
      assert forall id :: id != last.id || last.ctype !in SupportedCtypes ==>
        LastSupported(inputs, id) == LastSupported(prefix, id);
      Record(t, last)
  }

  /** The position of the first input carrying `id` whose `ctype` is
      supported, if any: the iteration that inserts `id` into the dictionary. */
  function FirstSupported(inputs: seq<InputDescriptor>, id: string): (r: Option<nat>)
    ensures r.Some? ==> r.value < |inputs| && inputs[r.value].id == id && inputs[r.value].ctype in SupportedCtypes
  {
    if inputs == [] then None
    else
      var n := |inputs| - 1;
      match FirstSupported(inputs[..n], id)
      case Some(k) => Some(k)
      case None => if inputs[n].id == id && inputs[n].ctype in SupportedCtypes then Some(n) else None
  }

  /** No input before the one `FirstSupported` finds carries the id with a
      supported `ctype`; when it finds none, no input does. */
  lemma {:induction false} FirstSupportedIsFirst(inputs: seq<InputDescriptor>, id: string)
    ensures var r := FirstSupported(inputs, id);
      forall k :: 0 <= k < |inputs| && inputs[k].id == id && inputs[k].ctype in SupportedCtypes ==>
        r.Some? && r.value <= k
  {
    if inputs != [] {
      var n := |inputs| - 1;
      FirstSupportedIsFirst(inputs[..n], id);
      forall k | 0 <= k < n ensures inputs[..n][k] == inputs[k] { }
    }
  }

  /** The entries of `t` enumerate in the order of the first supported input
      with each id. */
  predicate InsertionOrdered(t: seq<PassInterface>, inputs: seq<InputDescriptor>)
  {
    && (forall i :: 0 <= i < |t| ==> FirstSupported(inputs, t[i].id).Some?)
    && (forall i, j :: 0 <= i < j < |t| ==>
          FirstSupported(inputs, t[i].id).value < FirstSupported(inputs, t[j].id).value)
  }

  /** One more input does not move the first supported input of an id the
      inputs before it already carry. */
  lemma FirstSupportedKept(inputs: seq<InputDescriptor>, id: string)
    requires inputs != [] && FirstSupported(inputs[..|inputs| - 1], id).Some?
    ensures FirstSupported(inputs, id) == FirstSupported(inputs[..|inputs| - 1], id)
  {
  }

  /** A table whose ids stay in place stays ordered when one input is added. */
  lemma SameIdsOrdered(t: seq<PassInterface>, r: seq<PassInterface>, inputs: seq<InputDescriptor>)
    requires inputs != [] && InsertionOrdered(t, inputs[..|inputs| - 1])
    requires |r| == |t| && forall i :: 0 <= i < |t| ==> r[i].id == t[i].id
    ensures InsertionOrdered(r, inputs)
  {
    forall i | 0 <= i < |t| ensures FirstSupported(inputs, r[i].id) == FirstSupported(inputs[..|inputs| - 1], t[i].id) {
      FirstSupportedKept(inputs, t[i].id);
    }
  }

  /** A table extended by the id the last input inserts stays ordered. */
  lemma AppendedOrdered(t: seq<PassInterface>, e: PassInterface, prefix: seq<InputDescriptor>, inputs: seq<InputDescriptor>)
    requires inputs != [] && prefix == inputs[..|inputs| - 1] && InsertionOrdered(t, prefix)
    requires FirstSupported(inputs, e.id) == Some(|inputs| - 1)
    ensures InsertionOrdered(t + [e], inputs)
  {
    var r := t + [e];
    forall i | 0 <= i < |t|
      ensures r[i] == t[i] && FirstSupported(inputs, t[i].id) == FirstSupported(prefix, t[i].id)
    {
      FirstSupportedKept(inputs, t[i].id);
    }
    assert r[|t|] == e;
  }

  /** Putting a key the dictionary does not hold appends it. */
  lemma PutNew(t: seq<PassInterface>, e: PassInterface)
    requires UniqueIds(t) && forall k :: 0 <= k < |t| ==> t[k].id != e.id
    ensures Put(t, e) == t + [e]
  {
  }

  /** An id that no input before the last one supports is first supported by
      the last input, when that one supports it. */
  lemma NewIdFirst(prefix: seq<InputDescriptor>, inputs: seq<InputDescriptor>, id: string)
    requires inputs != [] && prefix == inputs[..|inputs| - 1]
    requires LastSupported(prefix, id).None?
    requires inputs[|inputs| - 1].id == id && inputs[|inputs| - 1].ctype in SupportedCtypes
    ensures FirstSupported(inputs, id) == Some(|inputs| - 1)
  {
  }

  /** Recording the last input keeps the table ordered. */
  lemma RecordOrdered(t: seq<PassInterface>, prefix: seq<InputDescriptor>, inputs: seq<InputDescriptor>)
    requires inputs != [] && prefix == inputs[..|inputs| - 1]
    requires UniqueIds(t) && InsertionOrdered(t, prefix)
    requires forall id :: LastSupported(prefix, id).Some? ==> exists x :: x in t && x.id == id
    ensures InsertionOrdered(Record(t, inputs[|inputs| - 1]), inputs)
  {
    var last := inputs[|inputs| - 1];
    match ClassifyCtype(last.ctype)
    case None =>
      SameIdsOrdered(t, t, inputs);
    case Some(kind) =>
      var e := PassInterface(last.id, kind, last);
      if k :| 0 <= k < |t| && t[k].id == last.id {
        SameIdsOrdered(t, Put(t, e), inputs);
      } else {
        assert LastSupported(prefix, last.id).None?;
        NewIdFirst(prefix, inputs, last.id);
        PutNew(t, e);
        AppendedOrdered(t, e, prefix, inputs);
      }
  }

  /** The dictionary enumerates its keys in the order in which they were
      first inserted: by the position of the first supported input with each
      id, whichever input ends up as the entry's value. */
  lemma {:induction false} InputTableOrder(inputs: seq<InputDescriptor>)
    ensures InsertionOrdered(InputTable(inputs), inputs)
  {
    if inputs != [] {
      var prefix := inputs[..|inputs| - 1];
      InputTableOrder(prefix);
      RecordOrdered(InputTable(prefix), prefix, inputs);
    }
  }

  /** The table the constructor builds, by its own loop. */
  method BuildInputTable(inputs: seq<InputDescriptor>) returns (table: seq<PassInterface>)
    ensures table == InputTable(inputs)
  {
    table := [];
    for i := 0 to |inputs|
      invariant table == InputTable(inputs[..i])
    {
      assert inputs[..i + 1][..i] == inputs[..i];
      var input := inputs[i];
      var kind := ClassifyCtype(input.ctype);
      if kind.None? {
        continue; // keyboard and unknown ctypes are not supported
      }
      table := Put(table, PassInterface(input.id, kind.value, input));
    }
    assert inputs[..|inputs|] == inputs;
  }

  /** A uniform declaration `uniform <sampler> iChannel<channel>; `. */
  datatype Decl = Decl(sampler: SamplerType, channel: int)

  function DeclOf(e: PassInterface): Decl
  {
    Decl(SamplerFor(e.kind), e.meta.channel)
  }

  /** The declarations of the first loop, one per dictionary entry, in order. */
  function InputDecls(t: seq<PassInterface>): seq<Decl>
  {
    seq(|t|, k requires 0 <= k < |t| => DeclOf(t[k]))
  }

  /** Some entry of the dictionary uses slot `c`. */
  predicate Occupied(t: seq<PassInterface>, c: int)
  {
    exists k :: 0 <= k < |t| && t[k].meta.channel == c
  }

  /** The dummy declarations for the free slots among `0..n-1`, ascending. */
  function FreeSlots(t: seq<PassInterface>, n: nat): seq<Decl>
    requires n <= 4
  {
    if n == 0 then []
    else FreeSlots(t, n - 1) + (if Occupied(t, n - 1) then [] else [Decl(Sampler2D, n - 1)])
  }

  /** Every declaration the constructor emits, in emission order. */
  function ChannelDecls(t: seq<PassInterface>): seq<Decl>
  {
    InputDecls(t) + FreeSlots(t, 4)
  }

  /** The channel entries of the `uniforms` object: a later declaration of a
      slot overwrites an earlier one. */
  function DeclMap(d: seq<Decl>): map<int, SamplerType>
  {
    if d == [] then map[] else DeclMap(d[..|d| - 1])[d[|d| - 1].channel := d[|d| - 1].sampler]
  }

  lemma DeclMapSnoc(d: seq<Decl>, x: Decl)
    ensures DeclMap(d + [x]) == DeclMap(d)[x.channel := x.sampler]
  {
    assert (d + [x])[..|d|] == d;
  }

  /** A slot has a uniform entry exactly when some declaration names it. */
  lemma {:induction false} DeclMapKeys(d: seq<Decl>)
    ensures forall c :: c in DeclMap(d) <==> exists k :: 0 <= k < |d| && d[k].channel == c
  {
    if d != [] {
      var p := d[..|d| - 1];
      DeclMapKeys(p);
      forall c | c in DeclMap(d)
        ensures exists k :: 0 <= k < |d| && d[k].channel == c
      {
        if c != d[|d| - 1].channel {
          assert c in DeclMap(p);
          var k :| 0 <= k < |p| && p[k].channel == c;
          assert d[k].channel == c;
        }
      }
      forall c | exists k :: 0 <= k < |d| && d[k].channel == c
        ensures c in DeclMap(d)
      {
        var k :| 0 <= k < |d| && d[k].channel == c;
        if k < |p| { assert p[k].channel == c; }
      }
    }
  }

  /** The entry of a slot is the sampler of the last declaration naming it. */
  lemma {:induction false} DeclMapLast(d: seq<Decl>, k: nat)
    requires k < |d|
    requires forall j :: k < j < |d| ==> d[j].channel != d[k].channel
    ensures d[k].channel in DeclMap(d) && DeclMap(d)[d[k].channel] == d[k].sampler
  {
    if k < |d| - 1 {
      var p := d[..|d| - 1];
      assert p[k] == d[k];
      DeclMapLast(p, k);
    }
  }

  function DigitChar(n: nat): char
    requires n < 10
  {
    "0123456789"[n]
  }

  function NatToString(n: nat): string
  {
    if n < 10 then [DigitChar(n)] else NatToString(n / 10) + [DigitChar(n % 10)]
  }

  /** JavaScript's rendering of an integer in a template string. */
  function IntToString(n: int): string
  {
    if n < 0 then "-" + NatToString(-n) else NatToString(n)
  }

  /** Different channel numbers give different uniform names. */
  lemma {:induction false} IntToStringInjective(a: int, b: int)
    ensures IntToString(a) == IntToString(b) ==> a == b
  {
    if IntToString(a) == IntToString(b) {
      if a < 0 && b < 0 {
        assert NatToString(-a) == IntToString(a)[1..];
        NatToStringInjective(-a, -b);
      } else if a < 0 {
        assert IntToString(a)[0] == '-';
        NatToStringStartsWithDigit(b);
      } else if b < 0 {
        assert IntToString(b)[0] == '-';
        NatToStringStartsWithDigit(a);
      } else {
        NatToStringInjective(a, b);
      }
    }
  }

  lemma {:induction false} NatToStringStartsWithDigit(n: nat)
    ensures |NatToString(n)| > 0 && NatToString(n)[0] != '-'
  {
    if n >= 10 { NatToStringStartsWithDigit(n / 10); }
  }

  lemma {:induction false} NatToStringInjective(a: nat, b: nat)
    ensures NatToString(a) == NatToString(b) ==> a == b
  {
    if NatToString(a) == NatToString(b) {
      if a >= 10 && b >= 10 {
        var sa, sb := NatToString(a), NatToString(b);
        assert sa[..|sa| - 1] == NatToString(a / 10);
        assert sb[..|sb| - 1] == NatToString(b / 10);
        NatToStringInjective(a / 10, b / 10);
        assert DigitChar(a % 10) == sa[|sa| - 1];
      } else if a >= 10 {
        NatToStringStartsWithDigit(a / 10);
      } else if b >= 10 {
        NatToStringStartsWithDigit(b / 10);
      }
    }
  }

  function DeclText(d: Decl): string
  {
    "uniform " + GlslType(d.sampler) + " iChannel" + IntToString(d.channel) + "; "
  }

  /** The concatenation of a sequence of strings. */
  function Concat(texts: seq<string>): string
  {
    if texts == [] then "" else Concat(texts[..|texts| - 1]) + texts[|texts| - 1]
  }

  lemma {:induction false} ConcatAppend(a: seq<string>, b: seq<string>)
    ensures Concat(a + b) == Concat(a) + Concat(b)
  {
    if b == [] {
      assert a + b == a;
    } else {
      assert (a + b)[..|a + b| - 1] == a + b[..|b| - 1];
      ConcatAppend(a, b[..|b| - 1]);
    }
  }

  function DeclTexts(d: seq<Decl>): seq<string>
  {
    seq(|d|, k requires 0 <= k < |d| => DeclText(d[k]))
  }

  /** The `uniformString` accumulated by the constructor's two loops. */
  function UniformString(d: seq<Decl>): string
  {
    Concat(DeclTexts(d))
  }

  lemma UniformStringSnoc(d: seq<Decl>, x: Decl)
    ensures UniformString(d + [x]) == UniformString(d) + DeclText(x)
  {
    var texts := DeclTexts(d + [x]);
    assert texts[..|d|] == DeclTexts(d);
  }

  /** Every declaration appears verbatim in the uniform string, between the
      text of the declarations before it and after it. */
  lemma UniformStringSplit(d: seq<Decl>, k: nat)
    requires k < |d|
    ensures UniformString(d) == UniformString(d[..k]) + DeclText(d[k]) + UniformString(d[k + 1..])
  {
    var texts := DeclTexts(d);
    assert texts == DeclTexts(d[..k]) + [DeclText(d[k])] + DeclTexts(d[k + 1..]);
    ConcatAppend(DeclTexts(d[..k]) + [DeclText(d[k])], DeclTexts(d[k + 1..]));
    ConcatAppend(DeclTexts(d[..k]), [DeclText(d[k])]);
    assert Concat([DeclText(d[k])]) == DeclText(d[k]) by {
      assert [DeclText(d[k])][..0] == [];
    }
  }

  /** The GLSL text that precedes the channel declarations in the fragment
      shader the constructor prepares. */
  const HeaderPrelude: string :=
    "varying vec2 _three_shadertoy_vertexUV;\n" +
    "uniform float opacity;\n" +
    "uniform vec3 iResolution;\n" +
    "uniform float iTime;\n" +
    "uniform float iTimeDelta;\n" +
    "uniform int iFrame;\n" +
    "uniform float iChannelTime[4];\n" +
    "uniform vec3 iChannelResolution[4];\n" +
    "uniform vec4 iMouse;\n" +
    "uniform vec4 iDate;\n" +
    "uniform float iSampleRate;\n"

  /** The GLSL text that follows the channel declarations. */
  const HeaderEpilogue: string :=
    "\nvoid mainImage(out vec4 fragColor, in vec2 fragCoord);\n" +
    "void main() {\n" +
    "  vec2 fragCoord = _three_shadertoy_vertexUV * iResolution.xy;\n" +
    "  mainImage(gl_FragColor, fragCoord);\n" +
    "}\n"

  /** The preliminary fragment shader, before common code and pass code. */
  function ShaderHeader(uniformString: string): string
  {
    HeaderPrelude + uniformString + HeaderEpilogue
  }

  /** The constructor's first declaration loop: one uniform per dictionary
      entry, marking its slot in `channelOccupied`. */
  method DeclareInputs(table: seq<PassInterface>) returns (channelOccupied: array<bool>, samplers: map<int, SamplerType>, text: string)
    ensures fresh(channelOccupied) && channelOccupied.Length == 4
    ensures forall c :: 0 <= c < 4 ==> channelOccupied[c] == Occupied(table, c)
    ensures samplers == DeclMap(InputDecls(table))
    ensures text == UniformString(InputDecls(table))
  {
    // Slots outside 0..3 are left out of the array; JavaScript grows the
    // array for them, but the second loop only reads the slots 0..3.
    channelOccupied := new bool[4](_ => false);
    samplers, text := map[], "";
    ghost var decls: seq<Decl> := [];
    for k := 0 to |table|
      invariant decls == InputDecls(table[..k])
      invariant samplers == DeclMap(decls)
      invariant text == UniformString(decls)
      invariant forall c :: 0 <= c < 4 ==> channelOccupied[c] == Occupied(table[..k], c)
    {
      var d := DeclOf(table[k]);
      if 0 <= d.channel < 4 {
        channelOccupied[d.channel] := true;
      }
      samplers := samplers[d.channel := d.sampler];
      text := text + DeclText(d);
      DeclMapSnoc(decls, d);
      UniformStringSnoc(decls, d);
      InputDeclsSnoc(table, k);
      decls := decls + [d];
      OccupiedSnoc(table, k);
    }
    assert table[..|table|] == table;
  }

  /** The constructor's two declaration loops: the first declares one
      uniform per dictionary entry, the second a dummy `sampler2D` for every
      free slot among `0..3`. */
  method DeclareChannels(table: seq<PassInterface>) returns (samplers: map<int, SamplerType>, text: string)
    ensures samplers == DeclMap(ChannelDecls(table))
    ensures text == UniformString(ChannelDecls(table))
  {
    var channelOccupied;
    channelOccupied, samplers, text := DeclareInputs(table);
    ghost var decls := InputDecls(table);
    assert decls + FreeSlots(table, 0) == decls;
    for i := 0 to 4
      invariant samplers == DeclMap(decls + FreeSlots(table, i))
      invariant text == UniformString(decls + FreeSlots(table, i))
      invariant forall c :: 0 <= c < 4 ==> channelOccupied[c] == Occupied(table, c)
    {
      FreeSlotsStep(table, decls, i);
      if !channelOccupied[i] {
        samplers := samplers[i := Sampler2D];
        text := text + DeclText(Decl(Sampler2D, i));
        DeclMapSnoc(decls + FreeSlots(table, i), Decl(Sampler2D, i));
        UniformStringSnoc(decls + FreeSlots(table, i), Decl(Sampler2D, i));
      }
    }
  }

  lemma FreeSlotsStep(t: seq<PassInterface>, decls: seq<Decl>, i: nat)
    requires i < 4
    ensures Occupied(t, i) ==> decls + FreeSlots(t, i + 1) == decls + FreeSlots(t, i)
    ensures !Occupied(t, i) ==> decls + FreeSlots(t, i + 1) == decls + FreeSlots(t, i) + [Decl(Sampler2D, i)]
  {
  }

  lemma InputDeclsSnoc(t: seq<PassInterface>, k: nat)
    requires k < |t|
    ensures InputDecls(t[..k + 1]) == InputDecls(t[..k]) + [DeclOf(t[k])]
  {
  }

  lemma OccupiedSnoc(t: seq<PassInterface>, k: nat)
    requires k < |t|
    ensures forall c :: Occupied(t[..k + 1], c) <==> Occupied(t[..k], c) || t[k].meta.channel == c
  {
    forall c
      ensures Occupied(t[..k + 1], c) <==> Occupied(t[..k], c) || t[k].meta.channel == c
    {
      if Occupied(t[..k], c) {
        var j :| 0 <= j < k && t[..k][j].meta.channel == c;
        assert t[..k + 1][j].meta.channel == c;
      }
      if t[k].meta.channel == c {
        assert t[..k + 1][k].meta.channel == c;
      }
      if Occupied(t[..k + 1], c) {
        var j :| 0 <= j < k + 1 && t[..k + 1][j].meta.channel == c;
        if j < k { assert t[..k][j].meta.channel == c; }
      }
    }
  }

  /** The dummy declarations: each free slot below `n` once, in ascending
      order, as a `sampler2D`. */
  lemma {:induction false} FreeSlotsShape(t: seq<PassInterface>, n: nat)
    requires n <= 4
    ensures forall i :: 0 <= i < |FreeSlots(t, n)| ==>
      var d := FreeSlots(t, n)[i]; d.sampler == Sampler2D && 0 <= d.channel < n && !Occupied(t, d.channel)
    ensures forall i, j :: 0 <= i < j < |FreeSlots(t, n)| ==> FreeSlots(t, n)[i].channel < FreeSlots(t, n)[j].channel
    ensures forall c :: 0 <= c < n && !Occupied(t, c) ==> Decl(Sampler2D, c) in FreeSlots(t, n)
  {
    if n > 0 {
      FreeSlotsShape(t, n - 1);
    }
  }

  /** An occupied slot's uniform entry has the sampler of the last entry on it. */
  lemma OccupiedSlotDeclaration(t: seq<PassInterface>, k: nat)
    requires k < |t|
    requires forall j :: k < j < |t| ==> t[j].meta.channel != t[k].meta.channel
    ensures t[k].meta.channel in DeclMap(ChannelDecls(t))
    ensures DeclMap(ChannelDecls(t))[t[k].meta.channel] == SamplerFor(t[k].kind)
  {
    var c := t[k].meta.channel;
    var free := FreeSlots(t, 4);
    var d := ChannelDecls(t);
    FreeSlotsShape(t, 4);
    assert Occupied(t, c);
    assert d[k] == DeclOf(t[k]);
    DeclMapKeys(d);
    forall j | k < j < |d|
      ensures d[j].channel != d[k].channel
    {
      if j < |t| {
        assert d[j] == DeclOf(t[j]);
      } else {
        assert d[j] == free[j - |t|];
      }
    }
    DeclMapLast(d, k);
  }

  /** A free slot's uniform entry is the dummy `sampler2D`. */
  lemma FreeSlotDeclaration(t: seq<PassInterface>, c: int)
    requires 0 <= c < 4 && !Occupied(t, c)
    ensures c in DeclMap(ChannelDecls(t)) && DeclMap(ChannelDecls(t))[c] == Sampler2D
  {
    var free := FreeSlots(t, 4);
    var d := ChannelDecls(t);
    FreeSlotsShape(t, 4);
    var p :| 0 <= p < |free| && free[p] == Decl(Sampler2D, c);
    assert d[|t| + p] == free[p];
    forall j | |t| + p < j < |d|
      ensures d[j].channel != c
    {
      assert d[j] == free[j - |t|];
    }
    DeclMapLast(d, |t| + p);
  }

  /** Whatever the inputs, every slot `0..3` has a uniform entry: the sampler
      of the last dictionary entry on that slot, or a dummy `sampler2D` if no
      entry uses it. */
  lemma SlotDeclaration(t: seq<PassInterface>, c: int)
    requires 0 <= c < 4
    ensures c in DeclMap(ChannelDecls(t))
    ensures !Occupied(t, c) ==> DeclMap(ChannelDecls(t))[c] == Sampler2D
    ensures forall k :: 0 <= k < |t| && t[k].meta.channel == c && (forall j :: k < j < |t| ==> t[j].meta.channel != c) ==>
      DeclMap(ChannelDecls(t))[c] == SamplerFor(t[k].kind)
  {
    if Occupied(t, c) {
      var k0 :| 0 <= k0 < |t| && t[k0].meta.channel == c;
      assert ChannelDecls(t)[k0].channel == c;
      DeclMapKeys(ChannelDecls(t));
      forall k | 0 <= k < |t| && t[k].meta.channel == c && (forall j :: k < j < |t| ==> t[j].meta.channel != c)
        ensures DeclMap(ChannelDecls(t))[c] == SamplerFor(t[k].kind)
      {
        OccupiedSlotDeclaration(t, k);
      }
    } else {
      FreeSlotDeclaration(t, c);
    }
  }

  /** An input id seen again keeps the dictionary position of its first
      insertion: for a volume `A`, a texture `B` and a cubemap `A`, all on
      slot 0, the three assignments leave `A`, now the cubemap, before `B`.
      The declaration of `B` is then the one left on slot 0, so the slot is a
      `sampler2D`, not the `samplerCube` of the last input. */
  lemma RepeatedIdSlotSampler()
    ensures var a := PassInterface("A", VolumeKind, InputDescriptor("A", "volume", 0));
      var b := PassInterface("B", TextureKind, InputDescriptor("B", "texture", 0));
      var c := PassInterface("A", CubemapKind, InputDescriptor("A", "cubemap", 0));
      && Put(Put(Put([], a), b), c) == [c, b]
      && 0 in DeclMap(ChannelDecls([c, b]))
      && DeclMap(ChannelDecls([c, b]))[0] == Sampler2D
  {
    var c := PassInterface("A", CubemapKind, InputDescriptor("A", "cubemap", 0));
    var b := PassInterface("B", TextureKind, InputDescriptor("B", "texture", 0));
    OccupiedSlotDeclaration([c, b], 1);
  }

  /** Every dictionary entry's slot has a uniform entry, so that
      `connectInputChannel` on it finds the uniform. */
  lemma EntryChannelsDeclared(t: seq<PassInterface>)
    ensures forall k :: 0 <= k < |t| ==> t[k].meta.channel in DeclMap(ChannelDecls(t))
  {
    DeclMapKeys(ChannelDecls(t));
    forall k | 0 <= k < |t|
      ensures t[k].meta.channel in DeclMap(ChannelDecls(t))
    {
      assert ChannelDecls(t)[k] == DeclOf(t[k]);
    }
  }

  /** The number of declarations of slot `c`. */
  function CountChannel(d: seq<Decl>, c: int): nat
  {
    if d == [] then 0 else CountChannel(d[..|d| - 1], c) + (if d[|d| - 1].channel == c then 1 else 0)
  }

  lemma {:induction false} CountConcat(a: seq<Decl>, b: seq<Decl>, c: int)
    ensures CountChannel(a + b, c) == CountChannel(a, c) + CountChannel(b, c)
  {
    if b == [] {
      assert a + b == a;
    } else {
      assert (a + b)[..|a + b| - 1] == a + b[..|b| - 1];
      CountConcat(a, b[..|b| - 1], c);
    }
  }

  lemma {:induction false} CountByChannel(d: seq<Decl>)
    requires forall k :: 0 <= k < |d| ==> 0 <= d[k].channel < 4
    ensures |d| == CountChannel(d, 0) + CountChannel(d, 1) + CountChannel(d, 2) + CountChannel(d, 3)
  {
    if d != [] {
      CountByChannel(d[..|d| - 1]);
    }
  }

  lemma {:induction false} CountInputDecls(t: seq<PassInterface>, c: int)
    requires forall i, j :: 0 <= i < j < |t| ==> t[i].meta.channel != t[j].meta.channel
    ensures CountChannel(InputDecls(t), c) == if Occupied(t, c) then 1 else 0
  {
    if t != [] {
      var p := t[..|t| - 1];
      var e := t[|t| - 1];
      assert InputDecls(t)[..|t| - 1] == InputDecls(p);
      CountInputDecls(p, c);
      if e.meta.channel == c {
        forall j | 0 <= j < |p|
          ensures p[j].meta.channel != c
        {
          assert p[j] == t[j];
        }
        assert t[|t| - 1].meta.channel == c;
      } else {
        if Occupied(p, c) {
          var j :| 0 <= j < |p| && p[j].meta.channel == c;
          assert t[j].meta.channel == c;
        }
        if Occupied(t, c) {
          var j :| 0 <= j < |t| && t[j].meta.channel == c;
          assert p[j].meta.channel == c;
        }
      }
    }
  }

  lemma {:induction false} CountFreeSlots(t: seq<PassInterface>, n: nat, c: int)
    requires n <= 4
    ensures CountChannel(FreeSlots(t, n), c) == if 0 <= c < n && !Occupied(t, c) then 1 else 0
  {
    if n > 0 {
      CountFreeSlots(t, n - 1, c);
      CountConcat(FreeSlots(t, n - 1), if Occupied(t, n - 1) then [] else [Decl(Sampler2D, n - 1)], c);
      assert CountChannel([Decl(Sampler2D, n - 1)], c) == if c == n - 1 then 1 else 0 by {
        assert [Decl(Sampler2D, n - 1)][..0] == [];
      }
    }
  }

  /** When every input lies in `0..3` on a slot of its own, the constructor
      emits exactly four declarations, one per slot. */
  lemma DistinctChannelsDeclaredOnce(t: seq<PassInterface>)
    requires forall k :: 0 <= k < |t| ==> 0 <= t[k].meta.channel < 4
    requires forall i, j :: 0 <= i < j < |t| ==> t[i].meta.channel != t[j].meta.channel
    ensures |ChannelDecls(t)| == 4
    ensures forall c :: 0 <= c < 4 ==> CountChannel(ChannelDecls(t), c) == 1
  {
    forall c | 0 <= c < 4
      ensures CountChannel(ChannelDecls(t), c) == 1
    {
      CountConcat(InputDecls(t), FreeSlots(t, 4), c);
      CountInputDecls(t, c);
      CountFreeSlots(t, 4, c);
    }
    FreeSlotsShape(t, 4);
    var d := ChannelDecls(t);
    forall k | 0 <= k < |d|
      ensures 0 <= d[k].channel < 4
    {
      if k < |t| {
        assert d[k] == DeclOf(t[k]);
      } else {
        assert d[k] == FreeSlots(t, 4)[k - |t|];
      }
    }
    CountByChannel(d);
  }
}
