/**
 * The material-variable binding engine of a Phong material: fixed slot
 * arrays for texture views and samplers, a dirty flag gating the uniform
 * copy-out, a per-stage bind-slot cache keyed by the last resolved pass, and
 * the binder that walks a pass's stages.
 */
module PhongVariables {
  import opened MaterialTypes
  import opened Collaborators
  import opened BindSlots
  import opened BinderSpec
  import opened UniformAssigner

  const NoViews: seq<Option<TextureView>> := [None, None, None, None]

  /** The views the four texture slots hold for material `m`: none without a material. */
  function ViewsFor(m: Option<PhongMaterial>): (views: seq<Option<TextureView>>)
    ensures |views| == NumTextures
    ensures forall i :: 0 <= i < NumTextures ==> views[i] == (if m.Some? then CreateView(m.value.MapAt(i)) else None)
  {
    match m
    case None => NoViews
    case Some(p) => [CreateView(p.diffuseMap), CreateView(p.diffuseAlphaMap), CreateView(p.normalMap), CreateView(p.displacementMap)]
  }

  /** The five sampler slots as registered for material `m`: its four samplers, then the shadow sampler. */
  function SamplersFor(m: PhongMaterial): (handles: seq<Option<SamplerHandle>>)
    ensures |handles| == NumSamplers
    ensures forall i :: 0 <= i < NumTextures ==> handles[i] == Some(PooledHandle(m.SamplerAt(i)))
    ensures handles[ShadowIdx] == Some(PooledHandle(ShadowSamplerDescription))
  {
    [Some(PooledHandle(m.diffuseMapSampler)), Some(PooledHandle(m.diffuseAlphaMapSampler)),
     Some(PooledHandle(m.normalMapSampler)), Some(PooledHandle(m.displacementMapSampler)),
     Some(PooledHandle(ShadowSamplerDescription))]
  }

  /** The pool requests of a full sampler rebuild, in the order they are made; nothing is released. */
  function RegistrationsFor(m: PhongMaterial): seq<PoolOp>
  {
    [Registered(m.diffuseMapSampler), Registered(m.normalMapSampler), Registered(m.diffuseAlphaMapSampler),
     Registered(m.displacementMapSampler), Registered(ShadowSamplerDescription)]
  }

  /** Disposing a slot's previous sampler: a release when there was one. */
  function ReleaseOf(h: Option<SamplerHandle>): seq<PoolOp>
  {
    match h
    case None => []
    case Some(x) => [Released(x)]
  }

  /** The view of a texture slot; a slot without a proxy has none. */
  function ViewOf(t: TextureSlot): Option<TextureView>
  {
    match t
    case Unallocated => None
    case Proxy(v) => v
  }

  /** A 2-D binding map as rows. */
  ghost function Rows(m: array2<int>): (rows: seq<seq<int>>)
    reads m
    ensures |rows| == m.Length0
    ensures forall k :: 0 <= k < m.Length0 ==> |rows[k]| == m.Length1
    ensures forall k, j :: 0 <= k < m.Length0 && 0 <= j < m.Length1 ==> rows[k][j] == m[k, j]
  {
    seq(m.Length0, k requires 0 <= k < m.Length0 reads m =>
      seq(m.Length1, j requires 0 <= j < m.Length1 reads m => m[k, j]))
  }

  /** A map whose every entry is the rebuild's value for that entry holds the rebuilt rows. */
  lemma RowsAreResolved(m: array2<int>, before: seq<seq<int>>, shaders: seq<Shader>, names: seq<string>, kind: MappingKind)
    requires m.Length0 == |before| && m.Length1 == |names|
    requires forall k :: 0 <= k < |before| ==> |before[k]| == |names|
    requires forall k, j :: 0 <= k < m.Length0 && 0 <= j < m.Length1 ==>
      m[k, j] == ResolvedIndex(RowSource(shaders, k), kind, names[j], before[k][j])
    ensures Rows(m) == ResolveRows(before, shaders, names, kind)
  {
    var a := Rows(m);
    var b := ResolveRows(before, shaders, names, kind);
    forall k | 0 <= k < |a|
      ensures a[k] == b[k]
    {
    }
  }

  /** One more stage visited: it becomes the source of its own row, every other row keeps its source. */
  lemma RowSourceStep(shaders: seq<Shader>, i: nat)
    requires i < |shaders|
    ensures forall k :: (RowSource(shaders[..i + 1], k)
      == if FeedsRow(shaders[i], k) then Some(shaders[i]) else RowSource(shaders[..i], k))
    ensures EligibleCount(shaders[..i + 1]) == EligibleCount(shaders[..i]) + (if shaders[i].CanBindTextures() then 1 else 0)
  {
    assert shaders[..i + 1][..i] == shaders[..i];
  }

  /** `after` differs from `before` in no image source or sampler other than the one `property` names. */
  predicate ChangesOnly(before: PhongMaterial, after: PhongMaterial, property: MaterialProperty)
  {
    forall i :: 0 <= i < NumTextures ==>
      && (property.TextureSlot() != Some(i) ==> after.MapAt(i) == before.MapAt(i))
      && (property.SamplerSlot() != Some(i) ==> after.SamplerAt(i) == before.SamplerAt(i))
  }

  /**
   * Re-deriving only the texture slot a field change names keeps the views
   * mirroring the material, when that field is the only image that changed.
   */
  lemma RefreshedViewsMirror(before: PhongMaterial, after: PhongMaterial, property: MaterialProperty)
    requires ChangesOnly(before, after, property)
    ensures property.TextureSlot().Some? ==>
      ViewsFor(Some(before))[property.TextureSlot().value := CreateView(after.MapAt(property.TextureSlot().value))]
        == ViewsFor(Some(after))
    ensures property.TextureSlot().None? ==> ViewsFor(Some(before)) == ViewsFor(Some(after))
  {
    var old_ := ViewsFor(Some(before));
    var new_ := ViewsFor(Some(after));
    if property.TextureSlot().Some? {
      var s := property.TextureSlot().value;
      assert forall i :: 0 <= i < NumTextures ==> old_[s := CreateView(after.MapAt(s))][i] == new_[i];
    } else {
      assert forall i :: 0 <= i < NumTextures ==> old_[i] == new_[i];
    }
  }

  /**
   * Re-registering only the sampler slot a field change names keeps the
   * sampler slots mirroring the material, when that sampler is the only one
   * that changed.
   */
  lemma RefreshedSamplersMirror(before: PhongMaterial, after: PhongMaterial, property: MaterialProperty)
    requires ChangesOnly(before, after, property)
    ensures property.SamplerSlot().Some? ==>
      SamplersFor(before)[property.SamplerSlot().value := Some(PooledHandle(after.SamplerAt(property.SamplerSlot().value)))]
        == SamplersFor(after)
    ensures property.SamplerSlot().None? ==> SamplersFor(before) == SamplersFor(after)
  {
    var old_ := SamplersFor(before);
    var new_ := SamplersFor(after);
    if property.SamplerSlot().Some? {
      var s := property.SamplerSlot().value;
      assert forall i :: 0 <= i < NumSamplers ==> old_[s := Some(PooledHandle(after.SamplerAt(s)))][i] == new_[i];
    } else {
      assert forall i :: 0 <= i < NumSamplers ==> old_[i] == new_[i];
    }
  }

  /** The texture call of one slot followed by the call for its paired sampler. */
  method BindSlotPair(context: DeviceContext, stage: ShaderStage, textureIndex: int, samplerIndex: int, slot: nat,
                      view: TextureView, sampler: Option<SamplerHandle>)
    modifies context
    ensures context.calls == old(context.calls) + [TextureBind(stage, textureIndex, slot, view), SamplerBind(stage, samplerIndex, slot, sampler)]
  {
    context.BindTexture(stage, textureIndex, slot, view);
    context.BindSampler(stage, samplerIndex, slot, sampler);
  }

  /** The per-material binding engine. */
  class PhongMaterialVariables {
    var toggles: RenderToggles
    /** The dirty flag: the uniform record is stale. */
    var needUpdate: bool
    var material: Option<PhongMaterial>
    /** The pass the binding maps were last built for. */
    var currentPass: Option<PassId>
    /** Shader-side names of the four texture slots. */
    var textureNames: seq<string>
    /** Shader-side names of the five sampler slots. */
    var samplerNames: seq<string>
    const statePool: StatePoolManager
    const textureResources: array<TextureSlot>
    const samplerResources: array<Option<SamplerHandle>>
    /** Per stage row, the bind index of each texture slot. */
    const textureBindingMap: array2<int>
    /** Per stage row, the bind index of each sampler slot. */
    const samplerBindingMap: array2<int>
    /** Name-table lookups performed so far. */
    ghost var lookups: nat
    /** "Renderer must redraw" events raised so far. */
    ghost var invalidations: nat

    /** Array shapes, fixed from construction on. */
    predicate Shaped()
    {
      && textureResources.Length == NumTextures
      && samplerResources.Length == NumSamplers
      && textureBindingMap.Length0 == NumShaderStages && textureBindingMap.Length1 == NumTextures
      && samplerBindingMap.Length0 == NumShaderStages && samplerBindingMap.Length1 == NumSamplers
    }

    /** Shapes, name lists, and every texture slot holding a proxy. */
    ghost predicate Allocated()
      reads this`textureNames, this`samplerNames, textureResources
    {
      && Shaped()
      && |textureNames| == NumTextures && |samplerNames| == NumSamplers
      && forall i :: 0 <= i < NumTextures ==> textureResources[i].Proxy?
    }

    /** The object invariant: with a material attached, every sampler slot holds a sampler. */
    ghost predicate Valid()
      reads this`textureNames, this`samplerNames, this`material, textureResources, samplerResources
    {
      && Allocated()
      && (material.Some? ==> forall i :: 0 <= i < NumSamplers ==> samplerResources[i].Some?)
    }

    /** True when at least one texture slot holds a proxy object. */
    ghost predicate AnyProxy()
      reads textureResources
    {
      exists i :: 0 <= i < textureResources.Length && textureResources[i].Proxy?
    }

    /** The view each texture slot holds. */
    function Views(): (views: seq<Option<TextureView>>)
      reads textureResources
      requires textureResources.Length == NumTextures
      ensures |views| == NumTextures
      ensures forall i :: 0 <= i < NumTextures ==> views[i] == ViewOf(textureResources[i])
    {
      seq(NumTextures, i requires 0 <= i < NumTextures reads textureResources => ViewOf(textureResources[i]))
    }

    /** Everything the binder reads. */
    ghost function Snapshot(): (st: BindingState)
      reads textureResources, samplerResources, textureBindingMap, samplerBindingMap
      requires Shaped()
      ensures st.WellFormed()
    {
      BindingState(Rows(textureBindingMap), Rows(samplerBindingMap), Views(), samplerResources[..])
    }

    /** The slot store mirrors the attached material. */
    ghost predicate Synced()
      reads this`material, textureResources, samplerResources
      requires Shaped()
    {
      && Views() == ViewsFor(material)
      && (material.Some? ==> samplerResources[..] == SamplersFor(material.value))
    }

    constructor (pool: StatePoolManager, defaultTextureNames: seq<string>, defaultSamplerNames: seq<string>)
      requires |defaultTextureNames| == NumTextures && |defaultSamplerNames| == NumSamplers
      modifies pool
      ensures Valid() && Synced()
      ensures statePool == pool && pool.log == old(pool.log)
      ensures fresh(textureResources) && fresh(samplerResources) && fresh(textureBindingMap) && fresh(samplerBindingMap)
      ensures toggles == DefaultToggles() && needUpdate && material.None? && currentPass.None?
      ensures textureNames == defaultTextureNames && samplerNames == defaultSamplerNames
      ensures Views() == NoViews
      ensures samplerResources[..] == [None, None, None, None, None]
      ensures forall k, j :: 0 <= k < NumShaderStages && 0 <= j < NumTextures ==> textureBindingMap[k, j] == 0
      ensures forall k, j :: 0 <= k < NumShaderStages && 0 <= j < NumSamplers ==> samplerBindingMap[k, j] == 0
      ensures lookups == 0 && invalidations == 0
    {
      toggles := DefaultToggles();
      needUpdate := true;
      material := None;
      currentPass := None;
      textureNames := defaultTextureNames;
      samplerNames := defaultSamplerNames;
      statePool := pool;
      textureResources := new TextureSlot[NumTextures](_ => Unallocated);
      samplerResources := new Option<SamplerHandle>[NumSamplers](_ => None);
      textureBindingMap := new int[NumShaderStages, NumTextures]((_, _) => 0);
      samplerBindingMap := new int[NumShaderStages, NumSamplers]((_, _) => 0);
      lookups := 0;
      invalidations := 0;
      new;
      AllocateProxies();
      CreateTextureViews();
      CreateSamplers();
    }

    /** Gives every texture slot a proxy that wraps no view yet. */
    method AllocateProxies()
      requires Shaped()
      modifies textureResources
      ensures forall i :: 0 <= i < NumTextures ==> textureResources[i] == Proxy(None)
    {
      textureResources[DiffuseIdx] := Proxy(None);
      textureResources[NormalIdx] := Proxy(None);
      textureResources[DisplaceIdx] := Proxy(None);
      textureResources[AlphaIdx] := Proxy(None);
    }

    /** Sets one render switch; only a real change marks the record dirty and raises a redraw. */
    method SetRenderToggle(t: Toggle, value: bool)
      requires Valid()
      modifies this`toggles, this`needUpdate, this`invalidations
      ensures Valid()
      ensures toggles == old(toggles).With(t, value)
      ensures needUpdate == (old(needUpdate) || old(toggles).Get(t) != value)
      ensures invalidations == old(invalidations) + (if old(toggles).Get(t) != value then 1 else 0)
    {
      if toggles.Get(t) != value {
        toggles := toggles.With(t, value);
        needUpdate := true;
        invalidations := invalidations + 1;
      }
    }

    /** Renames a texture slot's shader-side name; the bind-slot cache is left as it is. */
    method SetTextureName(slot: nat, name: string)
      requires Valid() && slot < NumTextures
      modifies this`textureNames
      ensures Valid()
      ensures textureNames == old(textureNames)[slot := name]
    {
      textureNames := textureNames[slot := name];
    }

    /** Renames a sampler slot's shader-side name; the bind-slot cache is left as it is. */
    method SetSamplerName(slot: nat, name: string)
      requires Valid() && slot < NumSamplers
      modifies this`samplerNames
      ensures Valid()
      ensures samplerNames == old(samplerNames)[slot := name]
    {
      samplerNames := samplerNames[slot := name];
    }

    /**
     * Assigns the material. The same material (by identity) changes nothing.
     * Anything else marks the record dirty, raises a redraw, keeps only a
     * Phong material (another kind of material counts as none), re-derives
     * the four views (all empty without a material) and, with a material,
     * registers five fresh samplers without releasing the previous ones.
     */
    method SetMaterial(value: Option<MaterialCore>)
      requires Valid()
      modifies this`material, this`needUpdate, this`invalidations, textureResources, samplerResources, statePool
      ensures Valid()
      ensures SameMaterial(old(material), value) ==>
        && material == old(material) && needUpdate == old(needUpdate) && invalidations == old(invalidations)
        && unchanged(textureResources, samplerResources, statePool)
      ensures !SameMaterial(old(material), value) ==>
        && material == AsPhong(value) && needUpdate && invalidations == old(invalidations) + 1
        && Views() == ViewsFor(material)
        && Synced()
        && (material.Some? ==> statePool.log == old(statePool.log) + RegistrationsFor(material.value))
        && (material.None? ==> samplerResources[..] == old(samplerResources[..]) && statePool.log == old(statePool.log))
    {
      if !SameMaterial(material, value) {
        material := AsPhong(value);
        needUpdate := true;
        CreateTextureViews();
        CreateSamplers();
        invalidations := invalidations + 1;
      }
    }

    /**
     * A field-change notification from the attached material `sender` (the
     * same object, after the change). The record always becomes dirty; unless
     * the engine is disposed, the one slot the field feeds is re-derived (a
     * sampler slot releases its previous sampler first) and a redraw is raised.
     */
    method OnMaterialPropertyChanged(sender: PhongMaterial, property: MaterialProperty, isDisposed: bool)
      requires Valid()
      requires material.Some? && material.value.id == sender.id
      modifies this`material, this`needUpdate, this`invalidations, textureResources, samplerResources, statePool
      ensures Valid()
      ensures needUpdate && material == Some(sender)
      ensures isDisposed ==> unchanged(textureResources, samplerResources, statePool) && invalidations == old(invalidations)
      ensures !isDisposed ==> invalidations == old(invalidations) + 1
      ensures !isDisposed ==> RefreshedSlot(old(Views()), old(samplerResources[..]), old(statePool.log), sender, property)
      ensures !isDisposed && old(Synced()) && ChangesOnly(old(material.value), sender, property) ==> Synced()
    {
      needUpdate := true;
      material := Some(sender);
      if isDisposed {
        return;
      }
      RefreshSlot(sender, property);
      invalidations := invalidations + 1;
      if old(Synced()) && ChangesOnly(old(material.value), sender, property) {
        RefreshedViewsMirror(old(material.value), sender, property);
        RefreshedSamplersMirror(old(material.value), sender, property);
      }
    }

    /**
     * The slot store after a change of `property` on `sender`, given the
     * views, sampler slots and pool log before it: exactly the slot the field
     * feeds is re-derived, and a sampler slot releases its previous sampler
     * before registering the new one.
     */
    ghost predicate RefreshedSlot(views: seq<Option<TextureView>>, samplers: seq<Option<SamplerHandle>>, log: seq<PoolOp>,
                                  sender: PhongMaterial, property: MaterialProperty)
      reads textureResources, samplerResources, statePool
      requires Shaped() && |views| == NumTextures && |samplers| == NumSamplers
    {
      && (if property.TextureSlot().Some? then
            var s := property.TextureSlot().value;
            Views() == views[s := CreateView(sender.MapAt(s))]
          else Views() == views)
      && (if property.SamplerSlot().Some? then
            var s := property.SamplerSlot().value;
            && samplerResources[..] == samplers[s := Some(PooledHandle(sender.SamplerAt(s)))]
            && statePool.log == log + ReleaseOf(samplers[s]) + [Registered(sender.SamplerAt(s))]
          else samplerResources[..] == samplers && statePool.log == log)
    }

    /** Re-derives the one slot a field change of `sender` feeds, if any. */
    method RefreshSlot(sender: PhongMaterial, property: MaterialProperty)
      requires Valid()
      modifies textureResources, samplerResources, statePool
      ensures Valid()
      ensures RefreshedSlot(old(Views()), old(samplerResources[..]), old(statePool.log), sender, property)
    {
      match property {
        case DiffuseMapChanged => CreateTextureView(sender.diffuseMap, DiffuseIdx);
        case NormalMapChanged => CreateTextureView(sender.normalMap, NormalIdx);
        case DisplacementMapChanged => CreateTextureView(sender.displacementMap, DisplaceIdx);
        case DiffuseAlphaMapChanged => CreateTextureView(sender.diffuseAlphaMap, AlphaIdx);
        case DiffuseMapSamplerChanged => ReplaceSampler(DiffuseIdx, sender.diffuseMapSampler);
        case DiffuseAlphaMapSamplerChanged => ReplaceSampler(AlphaIdx, sender.diffuseAlphaMapSampler);
        case DisplacementMapSamplerChanged => ReplaceSampler(DisplaceIdx, sender.displacementMapSampler);
        case NormalMapSamplerChanged => ReplaceSampler(NormalIdx, sender.normalMapSampler);
        case OtherPropertyChanged(_) =>
      }
    }

    /** Re-creates the view of one texture slot from `stream`. */
    method CreateTextureView(stream: Option<Stream>, slot: nat)
      requires Allocated() && slot < NumTextures
      modifies textureResources
      ensures Allocated()
      ensures textureResources[..] == old(textureResources[..])[slot := Proxy(CreateView(stream))]
      ensures Views() == old(Views())[slot := CreateView(stream)]
    {
      textureResources[slot] := Proxy(CreateView(stream));
    }

    /** Releases a sampler slot's previous sampler, then registers the one for `d`. */
    method ReplaceSampler(slot: nat, d: SamplerDescription)
      requires Valid() && slot < NumTextures
      modifies samplerResources, statePool
      ensures Valid()
      ensures samplerResources[..] == old(samplerResources[..])[slot := Some(PooledHandle(d))]
      ensures statePool.log == old(statePool.log) + ReleaseOf(old(samplerResources[slot])) + [Registered(d)]
    {
      var previous := samplerResources[slot];
      if previous.Some? {
        statePool.Release(previous.value);
      }
      samplerResources[slot] := None;
      var h := statePool.Register(d);
      samplerResources[slot] := Some(h);
    }

    /** Re-derives all four views from the material, or empties them all without one. */
    method CreateTextureViews()
      requires Allocated()
      modifies textureResources
      ensures Allocated()
      ensures Views() == ViewsFor(material)
    {
      if material.Some? {
        var m := material.value;
        CreateTextureView(m.diffuseMap, DiffuseIdx);
        CreateTextureView(m.normalMap, NormalIdx);
        CreateTextureView(m.displacementMap, DisplaceIdx);
        CreateTextureView(m.diffuseAlphaMap, AlphaIdx);
      } else {
        for i := 0 to textureResources.Length
          invariant Allocated()
          invariant forall j :: 0 <= j < i ==> textureResources[j] == Proxy(None)
        {
          textureResources[i] := Proxy(CreateView(None));
        }
      }
    }

    /**
     * With a material, registers all five samplers and overwrites the slots
     * without releasing what they held; without one, does nothing.
     */
    method CreateSamplers()
      requires Allocated()
      modifies samplerResources, statePool
      ensures Valid()
      ensures material.Some? ==>
        samplerResources[..] == SamplersFor(material.value) && statePool.log == old(statePool.log) + RegistrationsFor(material.value)
      ensures material.None? ==> unchanged(samplerResources) && statePool.log == old(statePool.log)
    {
      if material.Some? {
        var m := material.value;
        var h := statePool.Register(m.diffuseMapSampler);
        samplerResources[DiffuseIdx] := Some(h);
        h := statePool.Register(m.normalMapSampler);
        samplerResources[NormalIdx] := Some(h);
        h := statePool.Register(m.diffuseAlphaMapSampler);
        samplerResources[AlphaIdx] := Some(h);
        h := statePool.Register(m.displacementMapSampler);
        samplerResources[DisplaceIdx] := Some(h);
        h := statePool.Register(ShadowSamplerDescription);
        samplerResources[ShadowIdx] := Some(h);
      }
    }

    /**
     * Copies the material into `record` if the record is dirty. Without a
     * material: false, nothing touched. With one: true, the record is the
     * copy-out when dirty and unchanged otherwise, and it is no longer dirty.
     */
    method UpdateMaterialVariables(record: ModelStruct) returns (updated: bool, result: ModelStruct)
      requires Valid()
      modifies this`needUpdate
      ensures Valid()
      ensures updated <==> material.Some?
      ensures material.None? ==> result == record && needUpdate == old(needUpdate)
      ensures material.Some? ==> !needUpdate
      ensures material.Some? && old(needUpdate) ==> result == AssignVariables(material.value, toggles, Views(), record)
      ensures material.Some? && !old(needUpdate) ==> result == record
    {
      if material.None? {
        return false, record;
      }
      result := record;
      if needUpdate {
        result := AssignVariables(material.value, toggles, Views(), record);
        needUpdate := false;
      }
      updated := true;
    }

    /** True iff some texture slot holds a proxy object (not: a view). */
    method HasTextures() returns (r: bool)
      ensures r == AnyProxy()
    {
      for i := 0 to textureResources.Length
        invariant forall j :: 0 <= j < i ==> textureResources[j].Unallocated?
      {
        if textureResources[i].Proxy? {
          return true;
        }
      }
      return false;
    }

    /** Every slot holds a proxy from construction on, so the texture walk is never skipped. */
    lemma AllocatedHasTextures()
      requires Allocated()
      ensures AnyProxy()
    {
      assert textureResources[DiffuseIdx].Proxy?;
    }

    /**
     * The bind-slot cache after bringing it up to date for `pass`, given the
     * cached pass, both maps and the lookup count before: `pass` is the
     * cached one, and the maps and the count are those of the single-entry
     * cache (unchanged on a hit; rebuilt over the pass, nine lookups per
     * texture-capable stage, on a miss).
     */
    ghost predicate CacheUpdated(pass: ShaderPass, cached: Option<PassId>, textureRows: seq<seq<int>>, samplerRows: seq<seq<int>>, lookupsBefore: nat)
      reads this`currentPass, this`lookups, this`textureNames, this`samplerNames, textureBindingMap, samplerBindingMap
      requires |textureNames| == NumTextures && |samplerNames| == NumSamplers
      requires forall k :: 0 <= k < |textureRows| ==> |textureRows[k]| == NumTextures
      requires forall k :: 0 <= k < |samplerRows| ==> |samplerRows[k]| == NumSamplers
    {
      && currentPass == Some(pass.id)
      && Rows(textureBindingMap) == CachedRows(cached, pass, textureRows, textureNames, ResourceMapping)
      && Rows(samplerBindingMap) == CachedRows(cached, pass, samplerRows, samplerNames, SamplerMapping)
      && lookups == lookupsBefore + (if cached == Some(pass.id) then 0 else LookupsPerStage * EligibleCount(pass.shaders))
    }

    /**
     * Brings the binding maps up to date for `pass`. The pass already cached:
     * no lookup, maps unchanged. Another pass: it becomes the cached one, and
     * each stage that can bind textures costs nine lookups and rewrites its
     * row; rows of other stage kinds keep their values.
     */
    method UpdateMappings(pass: ShaderPass)
      requires Named()
      modifies this`currentPass, this`lookups, textureBindingMap, samplerBindingMap
      ensures CacheUpdated(pass, old(currentPass), old(Rows(textureBindingMap)), old(Rows(samplerBindingMap)), old(lookups))
    {
      if currentPass == Some(pass.id) {
        return;
      }
      currentPass := Some(pass.id);
      var shaders := pass.shaders;
      ghost var textureRows := Rows(textureBindingMap);
      ghost var samplerRows := Rows(samplerBindingMap);
      for i := 0 to |shaders|
        invariant currentPass == Some(pass.id)
        invariant lookups == old(lookups) + LookupsPerStage * EligibleCount(shaders[..i])
        invariant forall k, j :: 0 <= k < NumShaderStages && 0 <= j < NumTextures ==>
          textureBindingMap[k, j] == ResolvedIndex(RowSource(shaders[..i], k), ResourceMapping, textureNames[j], textureRows[k][j])
        invariant forall k, j :: 0 <= k < NumShaderStages && 0 <= j < NumSamplers ==>
          samplerBindingMap[k, j] == ResolvedIndex(RowSource(shaders[..i], k), SamplerMapping, samplerNames[j], samplerRows[k][j])
      {
        RowSourceStep(shaders, i);
        var shader := shaders[i];
        if !shader.CanBindTextures() {
          continue;
        }
        ResolveStage(shader);
      }
      assert shaders[..|shaders|] == shaders;
      RowsAreResolved(textureBindingMap, textureRows, shaders, textureNames, ResourceMapping);
      RowsAreResolved(samplerBindingMap, samplerRows, shaders, samplerNames, SamplerMapping);
    }

    /** Shapes and name lists: what the bind-slot cache needs. */
    ghost predicate Named()
      reads this`textureNames, this`samplerNames
    {
      Shaped() && |textureNames| == NumTextures && |samplerNames| == NumSamplers
    }

    /** Rewrites the row of `shader`'s stage kind in both maps from its name tables: nine lookups, sentinel on a miss. */
    method ResolveStage(shader: Shader)
      requires Named() && shader.CanBindTextures()
      modifies this`lookups, textureBindingMap, samplerBindingMap
      ensures lookups == old(lookups) + LookupsPerStage
      ensures forall k, j :: 0 <= k < NumShaderStages && 0 <= j < NumTextures ==>
        textureBindingMap[k, j] == (if FeedsRow(shader, k) then TryGetBindSlot(shader.resourceSlots, textureNames[j]) else old(textureBindingMap[k, j]))
      ensures forall k, j :: 0 <= k < NumShaderStages && 0 <= j < NumSamplers ==>
        samplerBindingMap[k, j] == (if FeedsRow(shader, k) then TryGetBindSlot(shader.samplerSlots, samplerNames[j]) else old(samplerBindingMap[k, j]))
    {
      var idx := shader.stage.ToIndex();
      ResolveTextureRow(shader, idx);
      ResolveSamplerRow(shader, idx);
      lookups := lookups + LookupsPerStage;
    }

    /** Row `idx` of the texture map from the stage's resource table. */
    method ResolveTextureRow(shader: Shader, idx: nat)
      requires Named() && idx < NumShaderStages
      modifies textureBindingMap
      ensures forall k, j :: 0 <= k < NumShaderStages && 0 <= j < NumTextures ==>
        textureBindingMap[k, j] == (if k == idx then TryGetBindSlot(shader.resourceSlots, textureNames[j]) else old(textureBindingMap[k, j]))
    {
      textureBindingMap[idx, DiffuseIdx] := TryGetBindSlot(shader.resourceSlots, textureNames[DiffuseIdx]);
      textureBindingMap[idx, AlphaIdx] := TryGetBindSlot(shader.resourceSlots, textureNames[AlphaIdx]);
      textureBindingMap[idx, NormalIdx] := TryGetBindSlot(shader.resourceSlots, textureNames[NormalIdx]);
      textureBindingMap[idx, DisplaceIdx] := TryGetBindSlot(shader.resourceSlots, textureNames[DisplaceIdx]);
    }

    /** Row `idx` of the sampler map from the stage's sampler table. */
    method ResolveSamplerRow(shader: Shader, idx: nat)
      requires Named() && idx < NumShaderStages
      modifies samplerBindingMap
      ensures forall k, j :: 0 <= k < NumShaderStages && 0 <= j < NumSamplers ==>
        samplerBindingMap[k, j] == (if k == idx then TryGetBindSlot(shader.samplerSlots, samplerNames[j]) else old(samplerBindingMap[k, j]))
    {
      samplerBindingMap[idx, DiffuseIdx] := TryGetBindSlot(shader.samplerSlots, samplerNames[DiffuseIdx]);
      samplerBindingMap[idx, AlphaIdx] := TryGetBindSlot(shader.samplerSlots, samplerNames[AlphaIdx]);
      samplerBindingMap[idx, NormalIdx] := TryGetBindSlot(shader.samplerSlots, samplerNames[NormalIdx]);
      samplerBindingMap[idx, DisplaceIdx] := TryGetBindSlot(shader.samplerSlots, samplerNames[DisplaceIdx]);
      samplerBindingMap[idx, ShadowIdx] := TryGetBindSlot(shader.samplerSlots, samplerNames[ShadowIdx]);
    }

    /** The texture and sampler calls for one stage, slot by slot, for each slot holding a view. */
    method OnBindMaterialTextures(context: DeviceContext, shader: Shader)
      requires Shaped()
      modifies context
      ensures context.calls == old(context.calls) + ShaderBinds(Snapshot(), shader)
    {
      if shader.isNull {
        return;
      }
      ghost var st := Snapshot();
      var idx := shader.stage.ToIndex();
      for i := 0 to NumTextures
        invariant context.calls == old(context.calls) + SlotBinds(st, shader.stage, i)
      {
        var view := ViewOf(textureResources[i]);
        if view.None? {
          continue;
        }
        BindSlotPair(context, shader.stage, textureBindingMap[idx, i], samplerBindingMap[idx, i], i, view.value, samplerResources[i]);
      }
    }

    /** The texture walk over a pass: each stage that can bind textures, in pipeline order. */
    method BindPassTextures(context: DeviceContext, shaders: seq<Shader>, ghost st: BindingState)
      requires Shaped() && st == Snapshot()
      modifies context
      ensures context.calls == old(context.calls) + PassBinds(st, shaders)
    {
      for i := 0 to |shaders|
        invariant context.calls == old(context.calls) + PassBinds(st, shaders[..i])
      {
        assert shaders[..i + 1][..i] == shaders[..i];
        var shader := shaders[i];
        if !shader.CanBindTextures() {
          continue;
        }
        OnBindMaterialTextures(context, shader);
      }
      assert shaders[..|shaders|] == shaders;
    }

    /** The shadow sampler on the pixel stage, at that stage's cached shadow index. */
    method BindShadowSampler(context: DeviceContext, ghost st: BindingState)
      requires Shaped() && st == Snapshot()
      modifies context
      ensures context.calls == old(context.calls) + [ShadowBind(st)]
    {
      context.BindSampler(Pixel, samplerBindingMap[Pixel.ToIndex(), ShadowIdx], ShadowIdx, samplerResources[ShadowIdx]);
    }

    /**
     * The calls of a bind request once the cache is up to date: the texture
     * walk when a texture slot holds a proxy, then the shadow sampler when
     * shadows are on.
     */
    method IssueBinds(context: DeviceContext, shaders: seq<Shader>)
      requires Shaped()
      modifies context
      ensures context.calls == old(context.calls) + TextureWalk(Snapshot(), AnyProxy(), shaders) + ShadowCalls(Snapshot(), toggles.shadowMap)
    {
      ghost var st := Snapshot();
      var hasTextures := HasTextures();
      if hasTextures {
        BindPassTextures(context, shaders, st);
      }
      if toggles.shadowMap {
        BindShadowSampler(context, st);
      }
    }

    /**
     * Binds the material's textures for `pass`. Without a material: false,
     * no lookup, no call. Otherwise the cache is brought up to date for the
     * pass, the stages that can bind textures get their calls in pipeline
     * order, the shadow sampler is bound on the pixel stage when shadows are
     * on, and the result is true.
     */
    method BindMaterialTextures(context: DeviceContext, pass: ShaderPass) returns (bound: bool)
      requires Valid()
      modifies this`currentPass, this`lookups, textureBindingMap, samplerBindingMap, context
      ensures Valid()
      ensures bound <==> material.Some?
      ensures material.None? ==>
        && currentPass == old(currentPass) && lookups == old(lookups)
        && unchanged(textureBindingMap, samplerBindingMap) && context.calls == old(context.calls)
      ensures material.Some? ==>
        && CacheUpdated(pass, old(currentPass), old(Rows(textureBindingMap)), old(Rows(samplerBindingMap)), old(lookups))
        && context.calls == old(context.calls) + TextureWalk(Snapshot(), AnyProxy(), pass.shaders) + ShadowCalls(Snapshot(), toggles.shadowMap)
    {
      if material.None? {
        return false;
      }
      UpdateMappings(pass);
      IssueBinds(context, pass.shaders);
      return true;
    }
  }

  /** With a material attached, a second copy-out right after the first returns true and the same record. */
  method UpdateIsIdempotent(engine: PhongMaterialVariables, record: ModelStruct)
    returns (ok1: bool, first: ModelStruct, ok2: bool, second: ModelStruct)
    requires engine.Valid() && engine.material.Some?
    modifies engine
    ensures ok1 && ok2
    ensures !engine.needUpdate
    ensures second == first
  {
    ok1, first := engine.UpdateMaterialVariables(record);
    ok2, second := engine.UpdateMaterialVariables(first);
  }

  /**
   * Binding the same pass twice in a row resolves its names once: both
   * requests succeed, the second costs no lookup and leaves both maps as the
   * first one left them, so the two together leave exactly the cache state
   * and lookup count of a single request.
   */
  method SecondBindSkipsLookups(engine: PhongMaterialVariables, context: DeviceContext, pass: ShaderPass)
    returns (first: bool, second: bool)
    requires engine.Valid() && engine.material.Some?
    modifies engine`currentPass, engine`lookups, engine.textureBindingMap, engine.samplerBindingMap, context
    ensures engine.Valid()
    ensures first && second
    ensures engine.CacheUpdated(pass, old(engine.currentPass), old(Rows(engine.textureBindingMap)),
      old(Rows(engine.samplerBindingMap)), old(engine.lookups))
  {
    first := engine.BindMaterialTextures(context, pass);
    ghost var lookupsAfterFirst := engine.lookups;
    ghost var texAfterFirst := Rows(engine.textureBindingMap);
    ghost var samAfterFirst := Rows(engine.samplerBindingMap);
    second := engine.BindMaterialTextures(context, pass);
    assert engine.lookups == lookupsAfterFirst;
    assert Rows(engine.textureBindingMap) == texAfterFirst && Rows(engine.samplerBindingMap) == samAfterFirst;
  }

  /** After detaching the material, neither a bind request nor a copy-out does anything. */
  method DetachedEngineDoesNothing(engine: PhongMaterialVariables, context: DeviceContext, pass: ShaderPass, record: ModelStruct)
    returns (bound: bool, updated: bool, result: ModelStruct)
    requires engine.Valid()
    modifies engine, engine.textureResources, engine.samplerResources, engine.statePool,
      engine.textureBindingMap, engine.samplerBindingMap, context
    ensures !bound && !updated && result == record
    ensures context.calls == old(context.calls)
  {
    engine.SetMaterial(None);
    bound := engine.BindMaterialTextures(context, pass);
    updated, result := engine.UpdateMaterialVariables(record);
  }
}
