/** `ShadertoyMaterial`: builds one render pass per pass definition, keeps
    the buffer passes and the image pass, connects every input to the pass
    that publishes its stream, and renders, updates and resizes the passes
    in a fixed order. */
module Material {
  import opened Wrappers
  import opened Three
  import opened Definition
  import opened Channels
  import opened Pass

  /** The size used when the options give none. */
  const DefaultSize: int := 512

  /** `("width" in opts) ? opts.width : 512`. */
  function SizeOption(o: Option<int>): (r: int)
    ensures o.Some? ==> r == o.value
    ensures o.None? ==> r == DefaultSize
  {
    if o.Some? then o.value else DefaultSize
  }

  /** The positions of the `buffer` passes, in declaration order. */
  function BufferIndices(defs: seq<PassDefinition>): (r: seq<nat>)
    ensures forall i :: 0 <= i < |r| ==> r[i] < |defs| && defs[r[i]].passType == "buffer"
    ensures forall k :: 0 <= k < |defs| && defs[k].passType == "buffer" ==> k in r
    ensures forall i, j :: 0 <= i < j < |r| ==> r[i] < r[j]
  {
    if defs == [] then []
    else BufferIndices(defs[..|defs| - 1]) + (if defs[|defs| - 1].passType == "buffer" then [|defs| - 1] else [])
  }

  /** The position of the pass that becomes the output pass: the last
      `image` pass, if there is one. */
  function OutputIndex(defs: seq<PassDefinition>): (r: Option<nat>)
    ensures r.None? <==> forall k :: 0 <= k < |defs| ==> defs[k].passType != "image"
    ensures r.Some? ==> r.value < |defs| && defs[r.value].passType == "image"
    ensures r.Some? ==> forall k :: r.value < k < |defs| ==> defs[k].passType != "image"
  {
    if defs == [] then None
    else if defs[|defs| - 1].passType == "image" then Some(|defs| - 1)
    else OutputIndex(defs[..|defs| - 1])
  }

  /** Some entry of `outs` carries `id`. */
  predicate DeclaresIn(outs: seq<OutputDescriptor>, id: string)
  {
    exists o :: o in outs && o.id == id
  }

  /** The pass definition lists `id` among its outputs. */
  predicate Declares(d: PassDefinition, id: string)
  {
    DeclaresIn(d.outputs, id)
  }

  lemma DeclaresInSnoc(outs: seq<OutputDescriptor>, o: OutputDescriptor)
    ensures forall id :: DeclaresIn(outs + [o], id) <==> DeclaresIn(outs, id) || o.id == id
  {
    forall id ensures DeclaresIn(outs + [o], id) <==> DeclaresIn(outs, id) || o.id == id {
      if DeclaresIn(outs + [o], id) {
        var x :| x in outs + [o] && x.id == id;
      }
      if DeclaresIn(outs, id) {
        var x :| x in outs && x.id == id;
        assert x in outs + [o];
      }
      if o.id == id {
        assert o in outs + [o];
      }
    }
  }

  /** `outputs[output.id] = pass` for every output of the pass at `k`. */
  function Register<V>(t: map<string, V>, outs: seq<OutputDescriptor>, k: V): (r: map<string, V>)
    ensures forall id :: id in r <==> id in t || DeclaresIn(outs, id)
    ensures forall id :: id in r ==> r[id] == if DeclaresIn(outs, id) then k else t[id]
  {
    if outs == [] then t
    else
      var p := outs[..|outs| - 1];
      var o := outs[|outs| - 1];
      assert outs == p + [o];
      DeclaresInSnoc(p, o);
      Register(t, p, k)[o.id := k]
  }

  /** The `outputs` table: each output id to the position of the pass that
      declares it; a later declaration of the same id overwrites an earlier one. */
  function OutputTable(defs: seq<PassDefinition>): (r: map<string, nat>)
    ensures forall id :: id in r ==> r[id] < |defs|
  {
    if defs == [] then map[]
    else Register(OutputTable(defs[..|defs| - 1]), defs[|defs| - 1].outputs, |defs| - 1)
  }

  /** The table holds exactly the declared ids. */
  lemma {:induction false} OutputTableKeys(defs: seq<PassDefinition>)
    ensures forall id :: id in OutputTable(defs) <==> exists k :: 0 <= k < |defs| && Declares(defs[k], id)
  {
    if defs != [] {
      var n := |defs| - 1;
      var p := defs[..n];
      OutputTableKeys(p);
      forall id ensures id in OutputTable(defs) <==> exists k :: 0 <= k < |defs| && Declares(defs[k], id) {
        if id in OutputTable(p) {
          var k :| 0 <= k < n && Declares(p[k], id);
          assert defs[k] == p[k];
        }
        if !Declares(defs[n], id) && exists k :: 0 <= k < |defs| && Declares(defs[k], id) {
          var k :| 0 <= k < |defs| && Declares(defs[k], id);
          assert p[k] == defs[k];
        }
      }
    }
  }

  /** Each id maps to the last pass that declares it. */
  lemma {:induction false} OutputTableLast(defs: seq<PassDefinition>)
    ensures forall id :: id in OutputTable(defs) ==>
      && OutputTable(defs)[id] < |defs| && Declares(defs[OutputTable(defs)[id]], id)
      && forall k :: OutputTable(defs)[id] < k < |defs| ==> !Declares(defs[k], id)
  {
    if defs != [] {
      var n := |defs| - 1;
      var p := defs[..n];
      OutputTableLast(p);
      forall id | id in OutputTable(defs) && !Declares(defs[n], id)
        ensures && OutputTable(defs)[id] < |defs| && Declares(defs[OutputTable(defs)[id]], id)
                && forall k :: OutputTable(defs)[id] < k < |defs| ==> !Declares(defs[k], id)
      {
        var j := OutputTable(p)[id];
        assert OutputTable(defs)[id] == j;
        assert p[j] == defs[j];
        forall k | j < k < n ensures !Declares(defs[k], id) {
          assert p[k] == defs[k];
        }
      }
    }
  }

  /** The texture each output id resolves to: that of the pass that
      declares it last. */
  function ProducedTextures(defs: seq<PassDefinition>): map<string, Texture>
  {
    var table := OutputTable(defs);
    OutputTableLast(defs);
    map id | id in table :: PassTexture(table[id], defs[table[id]].passType)
  }

  /** The texture a table of created passes resolves each id to. */
  function TexturesOf(outputs: map<string, RenderPass>): map<string, Texture>
  {
    map id | id in outputs :: PassTexture(outputs[id].ident, outputs[id].passType)
  }

  /** Input `e` resolves and sits on slot `c`. */
  predicate Resolves(e: PassInterface, produced: map<string, Texture>, c: int)
  {
    e.id in produced && e.meta.channel == c
  }

  /** The channels the wiring loop connects on a pass: for each dictionary
      entry in order whose id resolves, its slot gets the resolved texture,
      a later entry on the same slot overwriting an earlier one. The texture
      itself is what `connectInputChannel` receives (line 63). */
  function Wiring(entries: seq<PassInterface>, produced: map<string, Texture>): (r: map<int, Producer>)
    ensures forall c :: c in r ==> r[c].BareTexture?
  {
    if entries == [] then map[]
    else
      var w := Wiring(entries[..|entries| - 1], produced);
      var e := entries[|entries| - 1];
      if e.id in produced then w[e.meta.channel := BareTexture(produced[e.id])] else w
  }

  /** A slot is connected exactly when some entry on it resolves. */
  lemma {:induction false} WiringKeys(entries: seq<PassInterface>, produced: map<string, Texture>)
    ensures forall c :: c in Wiring(entries, produced) <==>
      exists k :: 0 <= k < |entries| && Resolves(entries[k], produced, c)
  {
    if entries != [] {
      var p := entries[..|entries| - 1];
      var e := entries[|entries| - 1];
      WiringKeys(p, produced);
      forall c | c in Wiring(entries, produced)
        ensures exists k :: 0 <= k < |entries| && Resolves(entries[k], produced, c)
      {
        if Resolves(e, produced, c) {
          assert Resolves(entries[|entries| - 1], produced, c);
        } else {
          assert c in Wiring(p, produced);
          var k :| 0 <= k < |p| && Resolves(p[k], produced, c);
          assert entries[k] == p[k];
        }
      }
      forall c | exists k :: 0 <= k < |entries| && Resolves(entries[k], produced, c)
        ensures c in Wiring(entries, produced)
      {
        var k :| 0 <= k < |entries| && Resolves(entries[k], produced, c);
        if k < |p| {
          assert p[k] == entries[k];
        }
      }
    }
  }

  /** A connected slot holds the texture of the last entry on it that resolves. */
  lemma {:induction false} WiringLast(entries: seq<PassInterface>, produced: map<string, Texture>, k: nat)
    requires k < |entries| && entries[k].id in produced
    requires forall j :: k < j < |entries| ==> !Resolves(entries[j], produced, entries[k].meta.channel)
    ensures entries[k].meta.channel in Wiring(entries, produced)
    ensures Wiring(entries, produced)[entries[k].meta.channel] == BareTexture(produced[entries[k].id])
  {
    if k < |entries| - 1 {
      var p := entries[..|entries| - 1];
      assert p[k] == entries[k];
      assert !Resolves(entries[|entries| - 1], produced, entries[k].meta.channel);
      WiringLast(p, produced, k);
    }
  }

  /** An input whose stream some pass declares is connected on its slot to
      the texture of the last pass declaring it, unless a later input on the
      same slot also resolves. */
  lemma ResolvedInputConnected(defs: seq<PassDefinition>, entries: seq<PassInterface>, k: nat, j: nat)
    requires k < |entries| && j < |defs| && Declares(defs[j], entries[k].id)
    requires forall i :: k < i < |entries| ==> !Resolves(entries[i], ProducedTextures(defs), entries[k].meta.channel)
    ensures entries[k].id in OutputTable(defs)
    ensures var source := OutputTable(defs)[entries[k].id];
      && j <= source < |defs| && Declares(defs[source], entries[k].id)
      && entries[k].meta.channel in Wiring(entries, ProducedTextures(defs))
      && Wiring(entries, ProducedTextures(defs))[entries[k].meta.channel] ==
           BareTexture(PassTexture(source, defs[source].passType))
  {
    OutputTableKeys(defs);
    OutputTableLast(defs);
    WiringLast(entries, ProducedTextures(defs), k);
  }

  /** An input whose stream no pass declares is skipped: when no input on a
      slot resolves, the slot stays unconnected. */
  lemma UnresolvedInputSkipped(defs: seq<PassDefinition>, entries: seq<PassInterface>, c: int)
    requires forall k :: 0 <= k < |entries| && entries[k].meta.channel == c ==>
      forall j :: 0 <= j < |defs| ==> !Declares(defs[j], entries[k].id)
    ensures c !in Wiring(entries, ProducedTextures(defs))
  {
    OutputTableKeys(defs);
    WiringKeys(entries, ProducedTextures(defs));
  }

  /** The draws of one `render` of the passes in order. */
  function FrameLog(passes: seq<RenderPass>): (log: seq<Draw>)
    ensures |passes| <= |log| <= 2 * |passes|
    ensures forall k :: 0 <= k < |log| ==> log[k].target.Some?
  {
    if passes == [] then []
    else FrameLog(passes[..|passes| - 1]) + PassDraws(passes[|passes| - 1].ident, passes[|passes| - 1].passType)
  }

  /** Each pass's draws form one contiguous block of the frame log, after
      the blocks of the passes before it. */
  lemma {:induction false} FrameLogBlock(passes: seq<RenderPass>, i: nat)
    requires i < |passes|
    ensures var start := |FrameLog(passes[..i])|;
      var d := PassDraws(passes[i].ident, passes[i].passType);
      && start + |d| <= |FrameLog(passes)|
      && FrameLog(passes)[start..start + |d|] == d
  {
    var n := |passes|;
    assert passes[..n][..i] == passes[..i];
    if i < n - 1 {
      var p := passes[..n - 1];
      assert p[..i] == passes[..i] && p[i] == passes[i];
      FrameLogBlock(p, i);
    } else {
      assert passes[..n - 1] == passes[..i];
    }
  }

  /** Rendering one more pass extends the log by that pass's draws. */
  lemma FrameLogStep(log: seq<Draw>, passes: seq<RenderPass>, i: nat)
    requires i < |passes|
    ensures (log + FrameLog(passes[..i])) + PassDraws(passes[i].ident, passes[i].passType) == log + FrameLog(passes[..i + 1])
  {
    assert passes[..i + 1][..i] == passes[..i];
  }

  /** The number of draws of `scene` in a log. */
  function CountScene(log: seq<Draw>, scene: Scene): nat
  {
    if log == [] then 0 else CountScene(log[..|log| - 1], scene) + (if log[|log| - 1].scene == scene then 1 else 0)
  }

  lemma {:induction false} CountSceneConcat(a: seq<Draw>, b: seq<Draw>, scene: Scene)
    ensures CountScene(a + b, scene) == CountScene(a, scene) + CountScene(b, scene)
  {
    if b == [] {
      assert a + b == a;
    } else {
      assert (a + b)[..|a + b| - 1] == a + b[..|b| - 1];
      CountSceneConcat(a, b[..|b| - 1], scene);
    }
  }

  lemma PassDrawsScene(ident: nat, passType: string, other: nat)
    ensures CountScene(PassDraws(ident, passType), PassScene(other)) == if ident == other then 1 else 0
  {
    var d := PassDraws(ident, passType);
    if passType == "buffer" {
      assert d[..1][..0] == [];
      assert CountScene(d[..1], PassScene(other)) == if ident == other then 1 else 0;
    } else {
      assert d[..0] == [];
    }
  }

  /** With distinct identities, every pass's scene is drawn exactly once per frame. */
  lemma {:induction false} FrameLogDrawsEachOnce(passes: seq<RenderPass>, i: nat)
    requires i < |passes|
    requires forall a, b :: 0 <= a < b < |passes| ==> passes[a].ident != passes[b].ident
    ensures CountScene(FrameLog(passes), PassScene(passes[i].ident)) == 1
  {
    FrameLogSceneCount(passes, passes[i].ident);
    var n := |passes|;
    if i < n - 1 {
      var p := passes[..n - 1];
      forall a, b | 0 <= a < b < |p| ensures p[a].ident != p[b].ident {
        assert p[a] == passes[a] && p[b] == passes[b];
      }
      assert p[i] == passes[i];
      assert passes[n - 1].ident != passes[i].ident;
      FrameLogDrawsEachOnce(p, i);
    } else {
      var p := passes[..n - 1];
      forall a | 0 <= a < |p| ensures p[a].ident != passes[i].ident {
        assert p[a] == passes[a];
      }
      FrameLogSceneAbsent(p, passes[i].ident);
    }
  }

  lemma FrameLogSceneCount(passes: seq<RenderPass>, ident: nat)
    requires passes != []
    ensures CountScene(FrameLog(passes), PassScene(ident)) ==
      CountScene(FrameLog(passes[..|passes| - 1]), PassScene(ident)) +
      (if passes[|passes| - 1].ident == ident then 1 else 0)
  {
    var last := passes[|passes| - 1];
    CountSceneConcat(FrameLog(passes[..|passes| - 1]), PassDraws(last.ident, last.passType), PassScene(ident));
    PassDrawsScene(last.ident, last.passType, ident);
  }

  lemma {:induction false} FrameLogSceneAbsent(passes: seq<RenderPass>, ident: nat)
    requires forall a :: 0 <= a < |passes| ==> passes[a].ident != ident
    ensures CountScene(FrameLog(passes), PassScene(ident)) == 0
  {
    if passes != [] {
      var p := passes[..|passes| - 1];
      forall a | 0 <= a < |p| ensures p[a].ident != ident {
        assert p[a] == passes[a];
      }
      FrameLogSceneAbsent(p, ident);
      FrameLogSceneCount(passes, ident);
    }
  }


  /** The state of a pass right after the material's first loop built and
      resized it from the definition at position `k`. */
  ghost predicate Built(p: RenderPass, d: PassDefinition, k: nat, width: int, height: int)
    reads p
  {
    && p.Valid()
    && p.ident == k && p.passType == d.passType && p.code == d.code
    && p.inputs == InputTable(d.inputs) && p.outputs == d.outputs
    && p.samplers == DeclMap(ChannelDecls(p.inputs))
    && p.frame == 0 && !p.shaderFinished && p.fragmentShader == p.header
    && p.commonChunks == [] && p.lateChunks == []
    && p.renderTarget == RenderTarget(Primary(k), width, height)
  }

  /** The states of the passes, in order. */
  ghost function States(passes: seq<RenderPass>): (r: seq<PassState>)
    reads passes
    ensures |r| == |passes| && forall j :: 0 <= j < |passes| ==> r[j] == passes[j].State()
  {
    seq(|passes|, j requires 0 <= j < |passes| reads passes => passes[j].State())
  }

  /** Every pass is valid and every connected slot holds a bare texture. */
  ghost predicate PassesValid(passes: seq<RenderPass>)
    reads passes
  {
    forall i :: 0 <= i < |passes| ==>
      && passes[i].Valid()
      && forall c :: c in passes[i].channelInputs ==> passes[i].channelInputs[c].BareTexture?
  }

  /** No two passes share an identity (and so no two are the same object). */
  predicate Distinct(passes: seq<RenderPass>)
  {
    forall i, j :: 0 <= i < j < |passes| ==> passes[i].ident != passes[j].ident
  }

  /** The resolutions `update` computes for a pass whose connected inputs are
      bare textures: `undefined` on a connected slot, zero elsewhere. */
  function DetachedResolutions(inputs: map<int, Producer>): (r: seq<Option<Vec3>>)
    ensures |r| == 4
    ensures forall i :: 0 <= i < 4 ==> (r[i].None? <==> i in inputs)
    ensures forall i :: 0 <= i < 4 && i !in inputs ==> r[i] == Some(Zero3)
  {
    seq(4, i => if i in inputs then None else Some(Zero3))
  }

  lemma BareResolutions(inputs: map<int, Producer>)
    requires forall c :: c in inputs ==> inputs[c].BareTexture?
    ensures ChannelResolutions(inputs) == DetachedResolutions(inputs)
  {
  }

  /** The buffer passes among `ps`, in order. */
  function BuffersOf(ps: seq<RenderPass>): seq<RenderPass>
  {
    if ps == [] then []
    else BuffersOf(ps[..|ps| - 1]) + (if ps[|ps| - 1].passType == "buffer" then [ps[|ps| - 1]] else [])
  }

  /** The last `image` pass among `ps`. */
  function LastImage(ps: seq<RenderPass>): Option<RenderPass>
  {
    if ps == [] then None
    else if ps[|ps| - 1].passType == "image" then Some(ps[|ps| - 1])
    else LastImage(ps[..|ps| - 1])
  }

  /** The `outputs` table after the passes `ps` registered their outputs in order. */
  function TableOf(ps: seq<RenderPass>): map<string, RenderPass>
  {
    if ps == [] then map[]
    else Register(TableOf(ps[..|ps| - 1]), ps[|ps| - 1].outputs, ps[|ps| - 1])
  }

  /** The pass at position `i` of `ps` was made from the definition at `i`. */
  predicate Numbered(ps: seq<RenderPass>, defs: seq<PassDefinition>)
  {
    && |ps| == |defs|
    && forall i :: 0 <= i < |ps| ==>
      ps[i].ident == i && ps[i].passType == defs[i].passType && ps[i].outputs == defs[i].outputs
  }

  /** The buffer passes are those at `BufferIndices`, in order. */
  lemma {:induction false} BuffersOfIndices(ps: seq<RenderPass>, defs: seq<PassDefinition>)
    requires Numbered(ps, defs)
    ensures |BuffersOf(ps)| == |BufferIndices(defs)|
    ensures forall i :: 0 <= i < |BuffersOf(ps)| ==> BuffersOf(ps)[i] == ps[BufferIndices(defs)[i]]
  {
    if ps != [] {
      var n := |ps| - 1;
      assert Numbered(ps[..n], defs[..n]);
      BuffersOfIndices(ps[..n], defs[..n]);
    }
  }

  /** The last image pass is the one at `OutputIndex`. */
  lemma {:induction false} LastImageIndex(ps: seq<RenderPass>, defs: seq<PassDefinition>)
    requires Numbered(ps, defs)
    ensures LastImage(ps).None? <==> OutputIndex(defs).None?
    ensures LastImage(ps).Some? ==> LastImage(ps).value == ps[OutputIndex(defs).value]
  {
    if ps != [] {
      var n := |ps| - 1;
      assert Numbered(ps[..n], defs[..n]);
      LastImageIndex(ps[..n], defs[..n]);
    }
  }

  /** The table of passes maps each id to the pass at the position `OutputTable` gives. */
  lemma {:induction false} TableOfIndices(ps: seq<RenderPass>, defs: seq<PassDefinition>)
    requires Numbered(ps, defs)
    ensures forall id :: id in TableOf(ps) <==> id in OutputTable(defs)
    ensures forall id :: id in TableOf(ps) ==> OutputTable(defs)[id] < |ps| && TableOf(ps)[id] == ps[OutputTable(defs)[id]]
  {
    if ps != [] {
      var n := |ps| - 1;
      assert Numbered(ps[..n], defs[..n]);
      TableOfIndices(ps[..n], defs[..n]);
    }
  }

  /** The table of passes resolves each id to the texture of the pass the
      definitions register last under it. */
  lemma TableOfTextures(ps: seq<RenderPass>, defs: seq<PassDefinition>)
    requires Numbered(ps, defs)
    ensures TexturesOf(TableOf(ps)) == ProducedTextures(defs)
  {
    TableOfIndices(ps, defs);
    OutputTableLast(defs);
  }

  /** The passes of `created` are built, in order, from the first
      definitions, and have no connected channel. */
  ghost predicate AllBuilt(created: seq<RenderPass>, defs: seq<PassDefinition>, width: int, height: int)
    reads created
  {
    && |created| <= |defs|
    && forall i {:trigger Built(created[i], defs[i], i, width, height)} :: 0 <= i < |created| ==>
      Built(created[i], defs[i], i, width, height) && created[i].channelInputs == map[]
  }

  lemma AllBuiltSnoc(created: seq<RenderPass>, pass: RenderPass, defs: seq<PassDefinition>, width: int, height: int)
    requires AllBuilt(created, defs, width, height) && |created| < |defs|
    requires Built(pass, defs[|created|], |created|, width, height) && pass.channelInputs == map[]
    ensures AllBuilt(created + [pass], defs, width, height)
  {
  }

  /** The first loop of the constructor: a pass per definition, created and
      resized; `image` passes replace the output pass, `buffer` passes are
      kept in order, and every pass's outputs are entered in the table. */
  method BuildPasses(defs: seq<PassDefinition>, width: int, height: int)
    returns (renderPasses: seq<RenderPass>, outputPass: Option<RenderPass>, outputs: map<string, RenderPass>)
    ensures |renderPasses| == |BufferIndices(defs)|
    ensures forall i :: 0 <= i < |renderPasses| ==>
      && fresh(renderPasses[i]) && renderPasses[i].ident == BufferIndices(defs)[i]
      && Unwired(renderPasses[i], defs, width, height)
    ensures outputPass.None? <==> OutputIndex(defs).None?
    ensures outputPass.Some? ==>
      && fresh(outputPass.value) && outputPass.value.ident == OutputIndex(defs).value
      && Unwired(outputPass.value, defs, width, height)
    ensures outputs.Keys == OutputTable(defs).Keys && Publishing(outputs)
    ensures TexturesOf(outputs) == ProducedTextures(defs)
    ensures forall id :: id in outputs ==>
      && outputs[id].ident == OutputTable(defs)[id] < |defs|
      && outputs[id].passType == defs[outputs[id].ident].passType
  {
    renderPasses, outputPass, outputs := [], None, map[];
    ghost var created: seq<RenderPass> := [];
    for k := 0 to |defs|
      invariant Numbered(created, defs[..k])
      invariant forall i :: 0 <= i < k ==> fresh(created[i])
      invariant AllBuilt(created, defs, width, height)
      invariant renderPasses == BuffersOf(created)
      invariant outputPass == LastImage(created)
      invariant outputs == TableOf(created)
    {
      var pass;
      pass, renderPasses, outputPass, outputs := BuildStep(defs, k, width, height, created, renderPasses, outputPass, outputs);
      created := created + [pass];
    }
    assert defs[..|defs|] == defs;
    BuffersOfIndices(created, defs);
    LastImageIndex(created, defs);
    TableOfIndices(created, defs);
    TableOfTextures(created, defs);
    forall i | 0 <= i < |renderPasses|
      ensures Unwired(renderPasses[i], defs, width, height)
    {
      var j := BufferIndices(defs)[i];
      assert Built(created[j], defs[j], j, width, height);
    }
    if outputPass.Some? {
      var j := OutputIndex(defs).value;
      assert Built(created[j], defs[j], j, width, height);
    }
    forall id | id in outputs ensures outputs[id].TargetsValid() {
      var j := OutputTable(defs)[id];
      assert Built(created[j], defs[j], j, width, height);
    }
  }

  /** One iteration of the first loop: the pass for the definition at `k`
      is created and resized, then kept as the output pass if it is an
      `image` pass or appended to the buffer passes if it is a `buffer`
      pass, and its outputs are entered in the table. */
  method BuildStep(defs: seq<PassDefinition>, k: nat, width: int, height: int, ghost created: seq<RenderPass>,
                   renderPasses: seq<RenderPass>, outputPass: Option<RenderPass>, outputs: map<string, RenderPass>)
    returns (pass: RenderPass, renderPasses': seq<RenderPass>, outputPass': Option<RenderPass>, outputs': map<string, RenderPass>)
    requires k < |defs| && Numbered(created, defs[..k]) && AllBuilt(created, defs, width, height)
    requires renderPasses == BuffersOf(created) && outputPass == LastImage(created) && outputs == TableOf(created)
    ensures fresh(pass)
    ensures Numbered(created + [pass], defs[..k + 1]) && AllBuilt(created + [pass], defs, width, height)
    ensures renderPasses' == BuffersOf(created + [pass]) && outputPass' == LastImage(created + [pass])
    ensures outputs' == TableOf(created + [pass])
  {
    pass := NewPass(defs[k], k, width, height);
    renderPasses', outputPass' := renderPasses, outputPass;
    if pass.passType == "image" {
      outputPass' := Some(pass);
    } else if pass.passType == "buffer" {
      renderPasses' := renderPasses + [pass];
    }
    // a pass of any other type is reported and kept in neither
    outputs' := RegisterOutputs(outputs, pass);
    AllBuiltSnoc(created, pass, defs, width, height);
    assert (created + [pass])[..k] == created;
    assert defs[..k + 1][..k] == defs[..k];
  }

  /** `new RenderPass(passDefinition, i)` followed by its `resize`. */
  method NewPass(d: PassDefinition, k: nat, width: int, height: int) returns (pass: RenderPass)
    ensures fresh(pass) && Built(pass, d, k, width, height) && pass.channelInputs == map[]
  {
    pass := new RenderPass(d, k);
    pass.Resize(width, height);
  }

  /** `outputs[output.id] = pass` for every output of `pass`, in order. */
  method RegisterOutputs(outputs: map<string, RenderPass>, pass: RenderPass) returns (r: map<string, RenderPass>)
    ensures r == Register(outputs, pass.outputs, pass)
  {
    r := outputs;
    for j := 0 to |pass.outputs|
      invariant r == Register(outputs, pass.outputs[..j], pass)
    {
      assert pass.outputs[..j + 1][..j] == pass.outputs[..j];
      r := r[pass.outputs[j].id := pass];
    }
    assert pass.outputs[..|pass.outputs|] == pass.outputs;
  }

  /** A pass as the first loop left it: built from its definition, with no
      connected channel. */
  ghost predicate Unwired(p: RenderPass, defs: seq<PassDefinition>, width: int, height: int)
    reads p
  {
    p.ident < |defs| && Built(p, defs[p.ident], p.ident, width, height) && p.channelInputs == map[]
  }

  /** A pass after the wiring loop: as built, with every input whose id
      resolves connected. */
  ghost predicate Wired(p: RenderPass, defs: seq<PassDefinition>, width: int, height: int, produced: map<string, Texture>)
    reads p
  {
    p.ident < |defs| && Built(p, defs[p.ident], p.ident, width, height) && p.channelInputs == Wiring(p.inputs, produced)
  }

  /** Every pass of the table publishes a texture. */
  ghost predicate Publishing(outputs: map<string, RenderPass>)
    reads set id | id in outputs :: outputs[id]
  {
    forall id :: id in outputs ==> outputs[id].TargetsValid()
  }

  /** The wiring loop of the constructor over `passes`, in order. */
  method WireAll(passes: seq<RenderPass>, outputs: map<string, RenderPass>,
                 ghost defs: seq<PassDefinition>, width: int, height: int)
    requires Distinct(passes) && Publishing(outputs)
    requires forall j :: 0 <= j < |passes| ==> Unwired(passes[j], defs, width, height)
    modifies passes
    ensures Publishing(outputs)
    ensures forall j :: 0 <= j < |passes| ==> Wired(passes[j], defs, width, height, TexturesOf(outputs))
  {
    for i := 0 to |passes|
      invariant Publishing(outputs)
      invariant forall j :: 0 <= j < i ==> Wired(passes[j], defs, width, height, TexturesOf(outputs))
      invariant forall j :: i <= j < |passes| ==> Unwired(passes[j], defs, width, height)
    {
      WireAt(passes, i, outputs, defs, width, height);
    }
  }

  /** The wiring of the `i`-th pass; the other passes do not change. */
  method WireAt(passes: seq<RenderPass>, i: nat, outputs: map<string, RenderPass>,
                ghost defs: seq<PassDefinition>, width: int, height: int)
    requires i < |passes| && Distinct(passes) && Publishing(outputs)
    requires Unwired(passes[i], defs, width, height)
    modifies passes[i]
    ensures Publishing(outputs)
    ensures Wired(passes[i], defs, width, height, TexturesOf(outputs))
    ensures forall j :: 0 <= j < |passes| && j != i ==> unchanged(passes[j])
  {
    WireInputs(passes[i], outputs);
  }

  /** The loop that connects one pass's inputs: every dictionary entry whose
      id is in the table is connected on its declared slot to the texture of
      the pass publishing it; the others are skipped. */
  method WireInputs(pass: RenderPass, outputs: map<string, RenderPass>)
    requires pass.Valid() && pass.channelInputs == map[]
    requires pass.samplers == DeclMap(ChannelDecls(pass.inputs))
    requires Publishing(outputs)
    modifies pass`uniforms, pass`channelInputs
    ensures pass.Valid() && Publishing(outputs)
    ensures pass.channelInputs == Wiring(pass.inputs, TexturesOf(outputs))
  {
    var produced := TexturesOf(outputs);
    EntryChannelsDeclared(pass.inputs);
    for j := 0 to |pass.inputs|
      invariant pass.Valid() && Publishing(outputs)
      invariant pass.channelInputs == Wiring(pass.inputs[..j], produced)
    {
      assert pass.inputs[..j + 1][..j] == pass.inputs[..j];
      var inp := pass.inputs[j];
      if inp.id !in outputs {
        continue; // no pass publishes a stream with this id
      }
      var texture := outputs[inp.id].OutputTexture();
      var outcome := pass.ConnectInputChannel(inp.meta.channel, BareTexture(texture));
    }
    assert pass.inputs[..|pass.inputs|] == pass.inputs;
  }

  /** Wired passes are valid and hold bare textures only. */
  lemma WiredPassesValid(passes: seq<RenderPass>, defs: seq<PassDefinition>, width: int, height: int,
                         produced: map<string, Texture>)
    requires forall j :: 0 <= j < |passes| ==> Wired(passes[j], defs, width, height, produced)
    ensures PassesValid(passes)
  {
  }

  /** The buffer passes and the output pass have pairwise distinct identities. */
  lemma DistinctPasses(defs: seq<PassDefinition>, buffers: seq<RenderPass>, output: RenderPass)
    requires |buffers| == |BufferIndices(defs)|
    requires forall i :: 0 <= i < |buffers| ==> buffers[i].ident == BufferIndices(defs)[i]
    requires OutputIndex(defs).Some? && output.ident == OutputIndex(defs).value
    ensures Distinct(buffers + [output])
  {
    var all := buffers + [output];
    forall i, j | 0 <= i < j < |all| ensures all[i].ident != all[j].ident {
      if j < |buffers| {
        assert BufferIndices(defs)[i] < BufferIndices(defs)[j];
      } else {
        assert defs[all[i].ident].passType == "buffer";
      }
    }
  }

  /** The shader material: the buffer passes, the output pass and the
      accumulated time. */
  class ShadertoyMaterial {
    /** `shaderDefinition.info`, returned by `meta`. */
    const info: string
    const width: int
    const height: int
    const renderPasses: seq<RenderPass>
    const outputPass: RenderPass
    /** `map`, the texture the material shows. */
    const mapTexture: Texture
    var elapsed: real
    /** The three.js material `version`, which each `needsUpdate = true`
        increments so that the material is uploaded again. */
    var version: nat

    /** The passes in rendering order. */
    function Passes(): seq<RenderPass>
    {
      renderPasses + [outputPass]
    }

    ghost predicate Valid()
      reads Passes()
    {
      && PassesValid(Passes())
      && Distinct(Passes())
      && (forall i :: 0 <= i < |renderPasses| ==> renderPasses[i].passType == "buffer")
      && outputPass.passType == "image"
      && mapTexture == TargetTexture(Primary(outputPass.ident))
    }

    constructor Assemble(info: string, width: int, height: int, renderPasses: seq<RenderPass>, outputPass: RenderPass)
      requires outputPass.Valid() && outputPass.passType == "image"
      ensures this.info == info && this.width == width && this.height == height
      ensures this.renderPasses == renderPasses && this.outputPass == outputPass
      ensures mapTexture == TargetTexture(Primary(outputPass.ident)) && elapsed == 0.0 && version == 0
    {
      this.info := info;
      this.width, this.height := width, height;
      this.renderPasses := renderPasses;
      this.outputPass := outputPass;
      mapTexture := outputPass.OutputTexture();
      elapsed := 0.0;
      version := 0;
    }

    /** The constructor. It fails, after wiring the buffer passes, when the
        definition has no `image` pass. */
    static method Create(definition: ShaderDefinition, opts: Options) returns (r: Result<ShadertoyMaterial, JsException>)
      ensures r.Err? <==> OutputIndex(definition.renderpass).None?
      ensures r.Err? ==> r.error.TypeError?
      ensures r.Ok? ==> fresh(r.value) && r.value.Valid()
      ensures r.Ok? ==> r.value.info == definition.info && r.value.elapsed == 0.0 && r.value.version == 0
      ensures r.Ok? ==> r.value.width == SizeOption(opts.width) && r.value.height == SizeOption(opts.height)
      ensures r.Ok? ==> r.value.outputPass.ident == OutputIndex(definition.renderpass).value
      ensures r.Ok? ==> |r.value.renderPasses| == |BufferIndices(definition.renderpass)|
      ensures r.Ok? ==> forall i :: 0 <= i < |r.value.renderPasses| ==>
        r.value.renderPasses[i].ident == BufferIndices(definition.renderpass)[i]
      ensures r.Ok? ==> fresh(r.value.Passes())
      ensures r.Ok? ==> forall i :: 0 <= i < |r.value.Passes()| ==>
        Wired(r.value.Passes()[i], definition.renderpass, r.value.width, r.value.height, ProducedTextures(definition.renderpass))
    {
      var defs := definition.renderpass;
      var width := SizeOption(opts.width);
      var height := SizeOption(opts.height);
      var renderPasses, outputPass, outputs := BuildPasses(defs, width, height);
      if outputPass.None? {
        // the wiring loop runs over the buffer passes followed by the
        // missing output pass, and reads `inputs` of `null`
        WireAll(renderPasses, outputs, defs, width, height);
        return Err(TypeError("Cannot read properties of null (reading 'inputs')"));
      }
      var m := Finish(definition.info, defs, width, height, renderPasses, outputPass.value, outputs);
      r := Ok(m);
    }

    /** The wiring loop and the material over its passes, when the definition
        has an output pass. */
    static method Finish(info: string, ghost defs: seq<PassDefinition>, width: int, height: int,
                         renderPasses: seq<RenderPass>, output: RenderPass, outputs: map<string, RenderPass>)
      returns (m: ShadertoyMaterial)
      requires Publishing(outputs) && TexturesOf(outputs) == ProducedTextures(defs)
      requires |renderPasses| == |BufferIndices(defs)|
      requires forall i :: 0 <= i < |renderPasses| ==>
        renderPasses[i].ident == BufferIndices(defs)[i] && Unwired(renderPasses[i], defs, width, height)
      requires OutputIndex(defs).Some? && output.ident == OutputIndex(defs).value
      requires Unwired(output, defs, width, height)
      modifies renderPasses, output
      ensures fresh(m) && m.Valid() && m.info == info && m.width == width && m.height == height
      ensures m.renderPasses == renderPasses && m.outputPass == output && m.elapsed == 0.0 && m.version == 0
      ensures forall j :: 0 <= j < |m.Passes()| ==>
        Wired(m.Passes()[j], defs, width, height, ProducedTextures(defs))
    {
      WirePasses(renderPasses, output, outputs, defs, width, height);
      m := Complete(info, defs, width, height, renderPasses, output, TexturesOf(outputs));
    }

    /** The wiring loop of the constructor when there is an output pass: the
        buffer passes in order, then the output pass. */
    static method WirePasses(renderPasses: seq<RenderPass>, output: RenderPass, outputs: map<string, RenderPass>,
                             ghost defs: seq<PassDefinition>, width: int, height: int)
      requires Publishing(outputs)
      requires |renderPasses| == |BufferIndices(defs)|
      requires forall i :: 0 <= i < |renderPasses| ==>
        renderPasses[i].ident == BufferIndices(defs)[i] && Unwired(renderPasses[i], defs, width, height)
      requires OutputIndex(defs).Some? && output.ident == OutputIndex(defs).value
      requires Unwired(output, defs, width, height)
      modifies renderPasses, output
      ensures Distinct(renderPasses + [output])
      ensures forall j :: 0 <= j < |renderPasses + [output]| ==>
        Wired((renderPasses + [output])[j], defs, width, height, TexturesOf(outputs))
    {
      DistinctPasses(defs, renderPasses, output);
      var passes := renderPasses + [output];
      assert forall j :: 0 <= j < |passes| ==> Unwired(passes[j], defs, width, height) by {
        forall j | 0 <= j < |passes| ensures Unwired(passes[j], defs, width, height) {
          if j < |renderPasses| { assert passes[j] == renderPasses[j]; } else { assert passes[j] == output; }
        }
      }
      WireAll(passes, outputs, defs, width, height);
    }

    /** The material over the wired passes. */
    static method Complete(info: string, ghost defs: seq<PassDefinition>, width: int, height: int,
                           renderPasses: seq<RenderPass>, output: RenderPass, ghost produced: map<string, Texture>)
      returns (m: ShadertoyMaterial)
      requires forall i :: 0 <= i < |renderPasses| ==> renderPasses[i].passType == "buffer"
      requires output.passType == "image" && Distinct(renderPasses + [output])
      requires forall j :: 0 <= j < |renderPasses + [output]| ==>
        Wired((renderPasses + [output])[j], defs, width, height, produced)
      ensures fresh(m) && m.Valid() && m.info == info && m.width == width && m.height == height
      ensures m.renderPasses == renderPasses && m.outputPass == output && m.elapsed == 0.0 && m.version == 0
      ensures m.Passes() == renderPasses + [output]
    {
      WiredPassesValid(renderPasses + [output], defs, width, height, produced);
      assert Wired((renderPasses + [output])[|renderPasses|], defs, width, height, produced);
      m := new ShadertoyMaterial.Assemble(info, width, height, renderPasses, output);
    }

    /** `render(renderer)`: the material is flagged for upload, then every
        buffer pass renders in order, then the output pass, then the canvas
        is the target again. No pass reads the material's `version`, so the
        flag is set last here. */
    method Render(renderer: Renderer)
      requires Valid()
      modifies this`version, Passes(), renderer`target, renderer`draws
      ensures Valid()
      ensures version == old(version) + 1
      ensures renderer.draws == old(renderer.draws) + FrameLog(Passes())
      ensures renderer.target == None
      ensures forall i :: 0 <= i < |Passes()| ==>
        Passes()[i].State() == Rendered(old(Passes()[i].State()), Passes()[i].code)
    {
      RenderPasses(renderer);
      FlagForUpload();
    }

    /** The passes' part of `render`. */
    method RenderPasses(renderer: Renderer)
      requires Valid()
      modifies Passes(), renderer`target, renderer`draws
      ensures Valid()
      ensures renderer.draws == old(renderer.draws) + FrameLog(Passes())
      ensures renderer.target == None
      ensures forall i :: 0 <= i < |Passes()| ==>
        Passes()[i].State() == Rendered(old(Passes()[i].State()), Passes()[i].code)
    {
      RenderAll(Passes(), renderer);
      ResetTarget(Passes(), renderer);
    }

    /** `this.needsUpdate = true`: the three.js setter increments `version`. */
    method FlagForUpload()
      modifies this`version
      ensures version == old(version) + 1
    {
      version := version + 1;
    }

    /** The loop of `render`: each pass renders once, in order. */
    static method RenderAll(passes: seq<RenderPass>, renderer: Renderer)
      requires Distinct(passes) && forall j :: 0 <= j < |passes| ==> passes[j].Valid()
      modifies passes, renderer`target, renderer`draws
      ensures forall j :: 0 <= j < |passes| ==> passes[j].Valid()
      ensures renderer.draws == old(renderer.draws) + FrameLog(passes)
      ensures forall j :: 0 <= j < |passes| ==> passes[j].State() == Rendered(old(passes[j].State()), passes[j].code)
    {
      for i := 0 to |passes|
        invariant forall j :: 0 <= j < |passes| ==> passes[j].Valid()
        invariant renderer.draws == old(renderer.draws) + FrameLog(passes[..i])
        invariant forall j :: 0 <= j < |passes| ==>
          passes[j].State() == if j < i then Rendered(old(passes[j].State()), passes[j].code) else old(passes[j].State())
      {
        FrameLogStep(old(renderer.draws), passes, i);
        RenderAt(passes, i, renderer);
      }
      assert passes[..|passes|] == passes;
    }

    /** `renderer.setRenderTarget(null)`: no pass changes. */
    static method ResetTarget(passes: seq<RenderPass>, renderer: Renderer)
      modifies renderer`target
      ensures renderer.target == None
      ensures forall j :: 0 <= j < |passes| ==>
        passes[j].State() == old(passes[j].State()) && (old(passes[j].Valid()) ==> passes[j].Valid())
    {
      renderer.SetRenderTarget(None);
    }

    /** The `i`-th pass's `render`; the other passes keep their state. */
    static method RenderAt(passes: seq<RenderPass>, i: nat, renderer: Renderer)
      requires i < |passes| && Distinct(passes) && passes[i].Valid()
      modifies passes[i], renderer`target, renderer`draws
      ensures passes[i].Valid()
      ensures renderer.draws == old(renderer.draws) + PassDraws(passes[i].ident, passes[i].passType)
      ensures passes[i].State() == Rendered(old(passes[i].State()), passes[i].code)
      ensures forall j :: 0 <= j < |passes| && j != i ==>
        passes[j].State() == old(passes[j].State()) && (old(passes[j].Valid()) ==> passes[j].Valid())
    {
      assert forall j :: 0 <= j < |passes| && j != i ==> passes[j] != passes[i];
      passes[i].Render(renderer);
    }

    /** `update()`: the clock's delta is added to the elapsed time, and every
        pass, the buffer passes first, receives the same values, with the
        mouse at rest. */
    method Update(delta: real, date: Date)
      requires Valid()
      modifies this`elapsed, Passes()
      ensures Valid()
      ensures elapsed == old(elapsed) + delta
      ensures forall i :: 0 <= i < |Passes()| ==>
        Passes()[i].State() == Updated(old(Passes()[i].State()), FrameValues(delta, elapsed, 0.0, 0.0, false, false, date),
                                       DetachedResolutions(Passes()[i].channelInputs))
    {
      elapsed := elapsed + delta;
      var values := FrameValues(delta, elapsed, 0.0, 0.0, false, false, date);
      var passes := Passes();
      for i := 0 to |passes|
        invariant elapsed == old(elapsed) + delta
        invariant forall j :: 0 <= j < |passes| ==> passes[j].Valid()
        invariant forall j :: 0 <= j < |passes| ==>
          passes[j].State() == if j < i then Updated(old(passes[j].State()), values, DetachedResolutions(passes[j].channelInputs))
                               else old(passes[j].State())
      {
        UpdateAt(passes, i, values);
      }
    }

    /** The `i`-th pass's `update(values)`, for a pass whose channels hold
        bare textures; the other passes keep their state. */
    static method UpdateAt(passes: seq<RenderPass>, i: nat, values: FrameValues)
      requires i < |passes| && Distinct(passes) && passes[i].Valid()
      requires forall c :: c in passes[i].channelInputs ==> passes[i].channelInputs[c].BareTexture?
      modifies passes[i]
      ensures passes[i].Valid()
      ensures passes[i].State() == Updated(old(passes[i].State()), values, DetachedResolutions(passes[i].channelInputs))
      ensures forall j :: 0 <= j < |passes| && j != i ==>
        passes[j].State() == old(passes[j].State()) && (old(passes[j].Valid()) ==> passes[j].Valid())
    {
      assert forall j :: 0 <= j < |passes| && j != i ==> passes[j] != passes[i];
      BareResolutions(passes[i].channelInputs);
      passes[i].Update(values);
    }

    /** `resize(width, height)`: forwarded to every buffer pass and then to
        the output pass; `width` and `height` keep their construction values. */
    method Resize(width: int, height: int)
      requires Valid()
      modifies Passes()
      ensures Valid()
      ensures forall i :: 0 <= i < |Passes()| ==>
        var p := Passes()[i];
        p.State() == Resized(old(p.State()), p.ident, p.passType, width, height)
    {
      var passes := Passes();
      for i := 0 to |passes|
        invariant forall j :: 0 <= j < |passes| ==> passes[j].Valid()
        invariant forall j :: 0 <= j < |passes| ==>
          var p := passes[j];
          p.State() == if j < i then Resized(old(p.State()), p.ident, p.passType, width, height) else old(p.State())
      {
        ResizeAt(passes, i, width, height);
      }
    }

    /** The `i`-th pass's `resize`; the other passes keep their state. */
    static method ResizeAt(passes: seq<RenderPass>, i: nat, width: int, height: int)
      requires i < |passes| && Distinct(passes) && passes[i].Valid()
      modifies passes[i]
      ensures passes[i].Valid()
      ensures passes[i].State() == Resized(old(passes[i].State()), passes[i].ident, passes[i].passType, width, height)
      ensures forall j :: 0 <= j < |passes| && j != i ==>
        passes[j].State() == old(passes[j].State()) && (old(passes[j].Valid()) ==> passes[j].Valid())
    {
      assert forall j :: 0 <= j < |passes| && j != i ==> passes[j] != passes[i];
      passes[i].Resize(width, height);
    }
  }
}
