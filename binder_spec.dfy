/**
 * The bind calls the binder issues, as a function of the slot store and the
 * bind-slot cache, and what that sequence is proved to contain: per stage, a
 * texture and its paired sampler for exactly the slots holding a view, in
 * slot order, at the cached indices; then at most one shadow sampler on the
 * pixel stage.
 */
module BinderSpec {
  import opened MaterialTypes
  import opened BindSlots

  /**
   * What the binder reads: the two binding maps row by row, the texture view
   * of each texture slot and the sampler handle of each sampler slot.
   */
  datatype BindingState = BindingState(
    textureRows: seq<seq<int>>,
    samplerRows: seq<seq<int>>,
    views: seq<Option<TextureView>>,
    samplers: seq<Option<SamplerHandle>>)
  {
    predicate WellFormed()
    {
      && |textureRows| == NumShaderStages
      && |samplerRows| == NumShaderStages
      && (forall k :: 0 <= k < NumShaderStages ==> |textureRows[k]| == NumTextures && |samplerRows[k]| == NumSamplers)
      && |views| == NumTextures
      && |samplers| == NumSamplers
    }
  }

  /** The calls for texture slot `j` on `stage`: texture then sampler when the slot has a view. */
  function SlotPair(st: BindingState, stage: ShaderStage, j: nat): seq<BindCall>
    requires st.WellFormed() && j < NumTextures
  {
    if st.views[j].Some? then
      [TextureBind(stage, st.textureRows[stage.ToIndex()][j], j, st.views[j].value),
       SamplerBind(stage, st.samplerRows[stage.ToIndex()][j], j, st.samplers[j])]
    else []
  }

  /** The calls for texture slots 0 .. n-1 on `stage`, in slot order. */
  function SlotBinds(st: BindingState, stage: ShaderStage, n: nat): seq<BindCall>
    requires st.WellFormed() && n <= NumTextures
  {
    if n == 0 then [] else SlotBinds(st, stage, n - 1) + SlotPair(st, stage, n - 1)
  }

  /** The calls for one stage; a null stage gets none. */
  function ShaderBinds(st: BindingState, sh: Shader): seq<BindCall>
    requires st.WellFormed()
  {
    if sh.isNull then [] else SlotBinds(st, sh.stage, NumTextures)
  }

  /** The calls for the stages of a pass, in pipeline order, skipping the stages that cannot bind textures. */
  function PassBinds(st: BindingState, shaders: seq<Shader>): seq<BindCall>
    requires st.WellFormed()
  {
    if |shaders| == 0 then []
    else
      var last := shaders[|shaders| - 1];
      PassBinds(st, shaders[..|shaders| - 1]) + (if last.CanBindTextures() then ShaderBinds(st, last) else [])
  }

  /** The shadow sampler on the pixel stage, at that stage's cached shadow index. */
  function ShadowBind(st: BindingState): BindCall
    requires st.WellFormed()
  {
    SamplerBind(Pixel, st.samplerRows[Pixel.ToIndex()][ShadowIdx], ShadowIdx, st.samplers[ShadowIdx])
  }

  /** The texture walk of a bind request: it runs only when a texture slot holds a proxy. */
  function TextureWalk(st: BindingState, hasTextures: bool, shaders: seq<Shader>): seq<BindCall>
    requires st.WellFormed()
  {
    if hasTextures then PassBinds(st, shaders) else []
  }

  /** The shadow step of a bind request: the shadow sampler when shadows are on. */
  function ShadowCalls(st: BindingState, renderShadow: bool): seq<BindCall>
    requires st.WellFormed()
  {
    if renderShadow then [ShadowBind(st)] else []
  }

  /** Everything one bind request issues once a material is attached. */
  function ExpectedBinds(st: BindingState, hasTextures: bool, shaders: seq<Shader>, renderShadow: bool): seq<BindCall>
    requires st.WellFormed()
  {
    TextureWalk(st, hasTextures, shaders) + ShadowCalls(st, renderShadow)
  }

  /**
   * A material-texture call that agrees with the state: its slot holds a
   * view, its index is the cached one for its stage and slot, and it binds
   * that slot's view or sampler.
   */
  predicate IsCachedBind(st: BindingState, b: BindCall)
    requires st.WellFormed()
  {
    && b.slot < NumTextures
    && st.views[b.slot].Some?
    && match b
       case TextureBind(stage, index, slot, view) =>
         index == st.textureRows[stage.ToIndex()][slot] && view == st.views[slot].value
       case SamplerBind(stage, index, slot, sampler) =>
         index == st.samplerRows[stage.ToIndex()][slot] && sampler == st.samplers[slot]
  }

  /** Position of a call in the fixed per-stage order: by slot, texture before sampler. */
  function Rank(b: BindCall): nat
  {
    2 * b.slot + (if b.TextureBind? then 0 else 1)
  }

  /** Number of slots among the first `n` that hold a view. */
  function PresentCount(views: seq<Option<TextureView>>, n: nat): nat
    requires n <= |views|
  {
    if n == 0 then 0 else PresentCount(views, n - 1) + (if views[n - 1].Some? then 1 else 0)
  }

  /** Number of calls in `calls` that target semantic slot `slot`. */
  function CountSlot(calls: seq<BindCall>, slot: nat): nat
  {
    if |calls| == 0 then 0
    else CountSlot(calls[..|calls| - 1], slot) + (if calls[|calls| - 1].slot == slot then 1 else 0)
  }

  lemma {:induction false} CountSlotAppend(a: seq<BindCall>, b: seq<BindCall>, slot: nat)
    ensures CountSlot(a + b, slot) == CountSlot(a, slot) + CountSlot(b, slot)
    decreases |b|
  {
    if |b| == 0 {
      assert a + b == a;
    } else {
      assert (a + b)[..|a + b| - 1] == a + b[..|b| - 1];
      CountSlotAppend(a, b[..|b| - 1], slot);
    }
  }

  lemma {:induction false} CountSlotAbsent(calls: seq<BindCall>, slot: nat)
    requires forall i :: 0 <= i < |calls| ==> calls[i].slot != slot
    ensures CountSlot(calls, slot) == 0
    decreases |calls|
  {
    if |calls| > 0 {
      CountSlotAbsent(calls[..|calls| - 1], slot);
    }
  }

  /**
   * Every call for slots 0 .. n-1 is on `stage`, for a slot below n that holds
   * a view, at the cached index, binding that slot's resource.
   */
  lemma {:induction false} SlotBindsSound(st: BindingState, stage: ShaderStage, n: nat)
    requires st.WellFormed() && n <= NumTextures
    ensures forall b :: b in SlotBinds(st, stage, n) ==> b.stage == stage && b.slot < n && IsCachedBind(st, b)
  {
    if n > 0 {
      SlotBindsSound(st, stage, n - 1);
    }
  }

  /** Every slot below n that holds a view gets its texture call and its sampler call. */
  lemma {:induction false} SlotBindsComplete(st: BindingState, stage: ShaderStage, n: nat)
    requires st.WellFormed() && n <= NumTextures
    ensures forall j :: 0 <= j < n && st.views[j].Some? ==>
      && TextureBind(stage, st.textureRows[stage.ToIndex()][j], j, st.views[j].value) in SlotBinds(st, stage, n)
      && SamplerBind(stage, st.samplerRows[stage.ToIndex()][j], j, st.samplers[j]) in SlotBinds(st, stage, n)
  {
    if n > 0 {
      SlotBindsComplete(st, stage, n - 1);
    }
  }

  /** Two calls per slot holding a view. */
  lemma {:induction false} SlotBindsLength(st: BindingState, stage: ShaderStage, n: nat)
    requires st.WellFormed() && n <= NumTextures
    ensures |SlotBinds(st, stage, n)| == 2 * PresentCount(st.views, n)
  {
    if n > 0 {
      SlotBindsLength(st, stage, n - 1);
    }
  }

  /**
   * The calls come in the fixed order (by slot, texture before its sampler),
   * all ranked below the first slot not covered.
   */
  lemma {:induction false} SlotBindsOrdered(st: BindingState, stage: ShaderStage, n: nat)
    requires st.WellFormed() && n <= NumTextures
    ensures forall i :: 0 <= i < |SlotBinds(st, stage, n)| ==> Rank(SlotBinds(st, stage, n)[i]) < 2 * n
    ensures forall i, i' :: 0 <= i < i' < |SlotBinds(st, stage, n)| ==>
      Rank(SlotBinds(st, stage, n)[i]) < Rank(SlotBinds(st, stage, n)[i'])
  {
    if n > 0 {
      var prefix := SlotBinds(st, stage, n - 1);
      var pair := SlotPair(st, stage, n - 1);
      var all := SlotBinds(st, stage, n);
      SlotBindsOrdered(st, stage, n - 1);
      assert all == prefix + pair;
      forall i | 0 <= i < |all|
        ensures Rank(all[i]) < 2 * n
      {
        if i < |prefix| {
          assert all[i] == prefix[i];
        } else {
          assert all[i] == pair[i - |prefix|];
        }
      }
      forall i, i' | 0 <= i < i' < |all|
        ensures Rank(all[i]) < Rank(all[i'])
      {
        if i' < |prefix| {
          assert all[i] == prefix[i] && all[i'] == prefix[i'];
        } else if i < |prefix| {
          assert all[i] == prefix[i] && all[i'] == pair[i' - |prefix|];
        } else {
          assert all[i] == pair[i - |prefix|] && all[i'] == pair[i' - |prefix|];
        }
      }
    }
  }

  /**
   * Every call a pass gets is a cached material bind, for a texture slot
   * (never the shadow slot), on the kind of one of the pass's stages that can
   * bind textures.
   */
  lemma {:induction false} PassBindsSound(st: BindingState, shaders: seq<Shader>)
    requires st.WellFormed()
    ensures forall b :: b in PassBinds(st, shaders) ==>
      && IsCachedBind(st, b)
      && b.slot != ShadowIdx
      && exists p :: 0 <= p < |shaders| && shaders[p].CanBindTextures() && shaders[p].stage == b.stage
  {
    if |shaders| > 0 {
      var prefix := shaders[..|shaders| - 1];
      var last := shaders[|shaders| - 1];
      PassBindsSound(st, prefix);
      if last.CanBindTextures() {
        SlotBindsSound(st, last.stage, NumTextures);
      }
      forall b | b in PassBinds(st, shaders)
        ensures exists p :: 0 <= p < |shaders| && shaders[p].CanBindTextures() && shaders[p].stage == b.stage
      {
        if b in PassBinds(st, prefix) {
          var p :| 0 <= p < |prefix| && prefix[p].CanBindTextures() && prefix[p].stage == b.stage;
          assert shaders[p] == prefix[p];
        } else {
          assert shaders[|shaders| - 1] == last;
        }
      }
    }
  }

  /** Each stage that can bind textures gets the texture and sampler call of every slot holding a view. */
  lemma {:induction false} PassBindsComplete(st: BindingState, shaders: seq<Shader>, p: nat, j: nat)
    requires st.WellFormed()
    requires p < |shaders| && shaders[p].CanBindTextures()
    requires j < NumTextures && st.views[j].Some?
    ensures TextureBind(shaders[p].stage, st.textureRows[shaders[p].stage.ToIndex()][j], j, st.views[j].value)
      in PassBinds(st, shaders)
    ensures SamplerBind(shaders[p].stage, st.samplerRows[shaders[p].stage.ToIndex()][j], j, st.samplers[j])
      in PassBinds(st, shaders)
  {
    var prefix := shaders[..|shaders| - 1];
    if p == |shaders| - 1 {
      SlotBindsComplete(st, shaders[p].stage, NumTextures);
    } else {
      assert prefix[p] == shaders[p];
      PassBindsComplete(st, prefix, p, j);
    }
  }

  /** Two calls per slot holding a view for each stage that can bind textures. */
  lemma {:induction false} PassBindsLength(st: BindingState, shaders: seq<Shader>)
    requires st.WellFormed()
    ensures |PassBinds(st, shaders)| == 2 * PresentCount(st.views, NumTextures) * EligibleCount(shaders)
  {
    if |shaders| > 0 {
      var prefix := shaders[..|shaders| - 1];
      var last := shaders[|shaders| - 1];
      var c := 2 * PresentCount(st.views, NumTextures);
      PassBindsLength(st, prefix);
      if last.CanBindTextures() {
        SlotBindsLength(st, last.stage, NumTextures);
        assert |PassBinds(st, shaders)| == c * EligibleCount(prefix) + c;
        MulSucc(c, EligibleCount(prefix));
      } else {
        assert |PassBinds(st, shaders)| == c * EligibleCount(prefix);
      }
    }
  }

  lemma MulSucc(c: nat, e: nat)
    ensures c * (e + 1) == c * e + c
  {
  }

  /**
   * The shadow sampler is bound exactly once when shadows are on and never
   * otherwise, whatever the texture state; when on it is the last call.
   */
  lemma ShadowBoundOnce(st: BindingState, hasTextures: bool, shaders: seq<Shader>, renderShadow: bool)
    requires st.WellFormed()
    ensures CountSlot(ExpectedBinds(st, hasTextures, shaders, renderShadow), ShadowIdx) == (if renderShadow then 1 else 0)
    ensures renderShadow ==> ExpectedBinds(st, hasTextures, shaders, renderShadow)[|ExpectedBinds(st, hasTextures, shaders, renderShadow)| - 1] == ShadowBind(st)
  {
    var textures := if hasTextures then PassBinds(st, shaders) else [];
    var shadow := if renderShadow then [ShadowBind(st)] else [];
    PassBindsSound(st, shaders);
    assert forall i :: 0 <= i < |textures| ==> textures[i] in textures;
    CountSlotAbsent(textures, ShadowIdx);
    CountSlotAppend(textures, shadow, ShadowIdx);
    if renderShadow {
      assert CountSlot(shadow, ShadowIdx) == CountSlot([], ShadowIdx) + 1 by {
        assert shadow[..0] == [];
      }
    }
  }

  /** With no texture slot holding a view, a bind request issues at most the shadow sampler. */
  lemma NoViewsOnlyShadow(st: BindingState, hasTextures: bool, shaders: seq<Shader>, renderShadow: bool)
    requires st.WellFormed()
    requires forall j :: 0 <= j < NumTextures ==> st.views[j].None?
    ensures ExpectedBinds(st, hasTextures, shaders, renderShadow) == (if renderShadow then [ShadowBind(st)] else [])
  {
    assert st.views[0].None? && st.views[1].None? && st.views[2].None? && st.views[3].None?;
    assert PresentCount(st.views, 1) == 0;
    assert PresentCount(st.views, 2) == 0;
    assert PresentCount(st.views, 3) == 0;
    assert PresentCount(st.views, 4) == 0;
    PassBindsLength(st, shaders);
  }

  /**
   * A material with only a diffuse view and shadows off: one texture and one
   * sampler call, both for the diffuse slot, per stage that can bind textures.
   */
  lemma OnlyDiffuseMapScenario(st: BindingState, shaders: seq<Shader>, v: TextureView)
    requires st.WellFormed()
    requires st.views == [Some(v), None, None, None]
    ensures |ExpectedBinds(st, true, shaders, false)| == 2 * EligibleCount(shaders)
    ensures forall b :: b in ExpectedBinds(st, true, shaders, false) ==>
      b.slot == DiffuseIdx && (b.TextureBind? ==> b.view == v)
  {
    assert PresentCount(st.views, 1) == 1;
    assert PresentCount(st.views, 2) == 1;
    assert PresentCount(st.views, 3) == 1;
    assert PresentCount(st.views, 4) == 1;
    PassBindsLength(st, shaders);
    PassBindsSound(st, shaders);
    assert ExpectedBinds(st, true, shaders, false) == PassBinds(st, shaders);
  }
}
