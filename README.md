# Phong material variables

A Dafny model of `PhongMaterialVariables`, the per-material binding engine of
the Helix Toolkit SharpDX renderer. The engine sits between a Phong material
and the GPU pipeline. It keeps:

- four texture slots and five sampler slots: diffuse, alpha, normal,
  displacement, and a shadow sampler with no texture;
- a dirty flag that decides when the material is copied into the per-model
  uniform record (`ModelStruct`);
- a per-stage cache of shader bind indices, keyed by the last shader pass it
  was resolved for;
- the binder, which walks a pass's stages and issues texture and sampler bind
  calls at the cached indices.

The project is made of these modules:

- `MaterialTypes` (`material_types.dfy`): slot constants, shader stages,
  shaders and passes, the material, field-change notifications, the render
  switches, the uniform record, texture slots, and the recorded bind calls
  and pool operations.
- `Collaborators` (`collaborators.dfy`): what the engine needs from its
  collaborators. It has view creation, bind-slot lookup with the -1 sentinel,
  the shared sampler pool (a class with a log of registrations and releases)
  and the device context (a class with a log of bind calls).
- `BindSlots` (`bind_slots.dfy`): the bind-index rebuild as a function of
  the pass. It covers which stage feeds each row, the single-entry pass
  cache, and lemmas about both.
- `BinderSpec` (`binder_spec.dfy`): the exact sequence of bind calls one
  bind request issues, as a function of the slot store and the cache. It
  comes with soundness, completeness, ordering, counting and scenario
  lemmas.
- `UniformAssigner` (`uniform_assigner.dfy`): the copy of material state
  into the uniform record.
- `PhongVariables` (`phong_material_variables.dfy`): the engine itself, the
  class `PhongMaterialVariables`. Its fields and arrays are updated in place
  by its methods, and each method is proved against the specification
  functions above.

## Model

| member | source | states |
|---|---|---|
| MaterialTypes.ShaderStage.ToIndex | Source/HelixToolkit.SharpDX.Shared/Model/Material/PhongMaterialVariables.cs:433 | every stage kind has a row in the per-stage binding maps |
| MaterialTypes.Shader.CanBindTextures | Source/HelixToolkit.SharpDX.Shared/Model/Material/PhongMaterialVariables.cs:404 | the skip test of the texture walk and the rebuild (also at line 429): a null placeholder stage is never bound, and neither is a stage outside the texture-capable mask |
| MaterialTypes.DefaultToggles | Source/HelixToolkit.SharpDX.Shared/Model/Material/PhongMaterialVariables.cs:98-191 | the four map switches start on, the shadow and environment switches start off |
| MaterialTypes.SameMaterial | Source/HelixToolkit.SharpDX.Shared/Model/Material/PhongMaterialVariables.cs:224 | the reference test of the material setter: the assigned value is the attached material only when both are absent or it is a Phong material with the attached identity (the down-cast then gives that identity back); a material of another kind never is |
| MaterialTypes.AsPhong | Source/HelixToolkit.SharpDX.Shared/Model/Material/PhongMaterialVariables.cs:230 | `value as PhongMaterialCore`: the result is a material exactly when the value is a Phong material, and it has the value's identity |
| MaterialTypes.RenderToggles.With | Source/HelixToolkit.SharpDX.Shared/Model/Material/PhongMaterialVariables.cs:98-212 | setting one render switch gives it the new value and leaves the other five as they were |
| MaterialTypes.MaterialProperty.TextureSlot | Source/HelixToolkit.SharpDX.Shared/Model/Material/PhongMaterialVariables.cs:275-290 | each image field re-derives exactly its own texture slot (diffuse 0, alpha 1, normal 2, displacement 3), and no other notification maps to that slot |
| MaterialTypes.MaterialProperty.SamplerSlot | Source/HelixToolkit.SharpDX.Shared/Model/Material/PhongMaterialVariables.cs:291-310 | each sampler field re-registers exactly its own sampler slot, never the shadow slot, and no other notification maps to that slot; a notification that feeds a sampler slot feeds no texture slot |
| Collaborators.CreateView | Source/HelixToolkit.SharpDX.Shared/Model/Material/PhongMaterialVariables.cs:314-317 | assumed behaviour of the proxy's view creation, whose code is not part of this model: a view exactly when image data is given, and the view is of that data |
| Collaborators.TryGetBindSlot | Source/HelixToolkit.SharpDX.Shared/Model/Material/PhongMaterialVariables.cs:434-443 | a stage table's lookup: a declared name gives its bind slot, and any result other than -1 is the slot of a declared name |
| Collaborators.StatePoolManager.Register | Source/HelixToolkit.SharpDX.Shared/Model/Material/PhongMaterialVariables.cs:341-345 | the pool returns the shared handle for a description and logs the registration |
| Collaborators.StatePoolManager.Release | Source/HelixToolkit.SharpDX.Shared/Model/Material/PhongMaterialVariables.cs:293 | disposing a slot's sampler is logged as a release of that handle |
| Collaborators.DeviceContext.BindTexture | Source/HelixToolkit.SharpDX.Shared/Model/Material/PhongMaterialVariables.cs:463 | a texture bind is recorded with its stage, bind index, slot and view |
| Collaborators.DeviceContext.BindSampler | Source/HelixToolkit.SharpDX.Shared/Model/Material/PhongMaterialVariables.cs:464 | a sampler bind is recorded with its stage, bind index, slot and sampler |
| BindSlots.RowSource | Source/HelixToolkit.SharpDX.Shared/Model/Material/PhongMaterialVariables.cs:426-444 | the stage whose lookups land in a row is a texture-capable stage of that kind from the pass; there is none exactly when no stage of the pass feeds the row |
| BindSlots.RowSourceIsLast | Source/HelixToolkit.SharpDX.Shared/Model/Material/PhongMaterialVariables.cs:426-444 | the rebuild visits stages in order, so a row holds the lookups of the last stage of its kind: no later stage feeds it |
| BindSlots.LastFeederIsRowSource | Source/HelixToolkit.SharpDX.Shared/Model/Material/PhongMaterialVariables.cs:426-444 | conversely, a feeding stage with no later feeder of its kind is the row's source |
| BindSlots.ToIndexInjective | Source/HelixToolkit.SharpDX.Shared/Model/Material/PhongMaterialVariables.cs:433 | distinct stage kinds write distinct rows |
| BindSlots.RowSourceOfDistinctStages | Source/HelixToolkit.SharpDX.Shared/Model/Material/PhongMaterialVariables.cs:426-444 | in a pass with one texture-capable stage per kind, each such stage is the source of its own row |
| BindSlots.ResolveKeepsUnfedRows | Source/HelixToolkit.SharpDX.Shared/Model/Material/PhongMaterialVariables.cs:429-432 | a rebuild leaves the row of every stage kind the pass does not feed as it was |
| BindSlots.ResolveRowFromLastFeeder | Source/HelixToolkit.SharpDX.Shared/Model/Material/PhongMaterialVariables.cs:433-443 | a fed row's entry is the feeding stage's bind slot for the slot's name, or -1 when the stage does not declare the name |
| BindSlots.ResolvedRowForgetsHistory | Source/HelixToolkit.SharpDX.Shared/Model/Material/PhongMaterialVariables.cs:418-445 | after resolving a pass, every row it feeds is the same whatever the cache held before, so switching between passes never leaves stale indices in a fed row |
| BinderSpec.SlotBindsSound | Source/HelixToolkit.SharpDX.Shared/Model/Material/PhongMaterialVariables.cs:460-465 | every call for a stage is on that stage, for a slot holding a view, at the cached index of that stage and slot, with that slot's view or sampler |
| BinderSpec.SlotBindsComplete | Source/HelixToolkit.SharpDX.Shared/Model/Material/PhongMaterialVariables.cs:460-465 | every slot holding a view gets both its texture call and its paired sampler call |
| BinderSpec.SlotBindsLength | Source/HelixToolkit.SharpDX.Shared/Model/Material/PhongMaterialVariables.cs:460-465 | a stage gets exactly two calls per slot holding a view |
| BinderSpec.SlotBindsOrdered | Source/HelixToolkit.SharpDX.Shared/Model/Material/PhongMaterialVariables.cs:460-465 | a stage's calls come in slot order with each texture before its sampler, all for slots below the last one visited |
| BinderSpec.PassBindsSound | Source/HelixToolkit.SharpDX.Shared/Model/Material/PhongMaterialVariables.cs:401-409 | every texture-walk call agrees with the cache, never touches the shadow slot, and is on a texture-capable stage of the pass |
| BinderSpec.PassBindsComplete | Source/HelixToolkit.SharpDX.Shared/Model/Material/PhongMaterialVariables.cs:401-409 | every texture-capable stage of the pass gets the texture and sampler call of every slot holding a view |
| BinderSpec.PassBindsLength | Source/HelixToolkit.SharpDX.Shared/Model/Material/PhongMaterialVariables.cs:401-409 | the texture walk issues two calls per slot holding a view per texture-capable stage, and no call for other stages |
| BinderSpec.ShadowBoundOnce | Source/HelixToolkit.SharpDX.Shared/Model/Material/PhongMaterialVariables.cs:411-414 | a bind request binds the shadow slot exactly once, as its last call, when shadows are on, and never when they are off, whatever the texture state |
| BinderSpec.NoViewsOnlyShadow | Source/HelixToolkit.SharpDX.Shared/Model/Material/PhongMaterialVariables.cs:398-414 | with no slot holding a view, a bind request issues the shadow sampler alone or nothing |
| BinderSpec.OnlyDiffuseMapScenario | Source/HelixToolkit.SharpDX.Shared/Model/Material/PhongMaterialVariables.cs:391-416 | a material with only a diffuse map and shadows off binds exactly one texture and sampler pair per texture-capable stage, all on the diffuse slot |
| UniformAssigner.Flag | Source/HelixToolkit.SharpDX.Shared/Model/Material/PhongMaterialVariables.cs:357-363 | a boolean is stored as 1 exactly when true and 0 otherwise |
| UniformAssigner.AssignVariables | Source/HelixToolkit.SharpDX.Shared/Model/Material/PhongMaterialVariables.cs:349-364 | colours and scalars are copied verbatim; each map flag is 1 exactly when its switch is on and its slot holds a view; the shadow and cube-map flags follow their switches alone; the members the engine does not own are kept |
| UniformAssigner.OneSlotMovesOneFlag | Source/HelixToolkit.SharpDX.Shared/Model/Material/PhongMaterialVariables.cs:359 | a new view in the normal slot changes only the normal-map flag of the next copy-out |
| PhongVariables.ViewsFor | Source/HelixToolkit.SharpDX.Shared/Model/Material/PhongMaterialVariables.cs:319-335 | slot i holds a view of the material's image i, or no view when there is no material |
| PhongVariables.SamplersFor | Source/HelixToolkit.SharpDX.Shared/Model/Material/PhongMaterialVariables.cs:337-347 | sampler slot i holds the pooled sampler of the material's description i, and the shadow slot holds the default shadow sampler |
| PhongVariables.RowsAreResolved | Source/HelixToolkit.SharpDX.Shared/Model/Material/PhongMaterialVariables.cs:426-444 | a binding map whose every entry is the rebuild's value for that entry holds exactly the rebuilt rows |
| PhongVariables.RefreshedViewsMirror | Source/HelixToolkit.SharpDX.Shared/Model/Material/PhongMaterialVariables.cs:275-290 | when the field a notification names is the only image that changed, re-creating just that slot's view leaves the views mirroring the changed material |
| PhongVariables.RefreshedSamplersMirror | Source/HelixToolkit.SharpDX.Shared/Model/Material/PhongMaterialVariables.cs:291-310 | when the sampler a notification names is the only one that changed, re-registering just that slot leaves the sampler slots mirroring the changed material |
| PhongVariables.BindSlotPair | Source/HelixToolkit.SharpDX.Shared/Model/Material/PhongMaterialVariables.cs:463-464 | one slot's texture call, then its sampler call, both recorded in that order |
| PhongVariables.RowSourceStep | Source/HelixToolkit.SharpDX.Shared/Model/Material/PhongMaterialVariables.cs:426-433 | visiting one more stage makes it the source of its own row if it can bind textures, keeps every other row's source, and adds one to the count of stages that cost lookups |
| PhongVariables.PhongMaterialVariables.constructor | Source/HelixToolkit.SharpDX.Shared/Model/Material/PhongMaterialVariables.cs:250-266 | a new engine has zeroed maps, a proxy without a view in every texture slot, empty sampler slots, the default switches and names, no material, no cached pass, the dirty flag set, and the pool untouched |
| PhongVariables.PhongMaterialVariables.AllocateProxies | Source/HelixToolkit.SharpDX.Shared/Model/Material/PhongMaterialVariables.cs:259-262 | every texture slot holds a proxy that wraps no view yet |
| PhongVariables.PhongMaterialVariables.SetRenderToggle | Source/HelixToolkit.SharpDX.Shared/Model/Material/PhongMaterialVariables.cs:98-212 | only a real change of a switch marks the record dirty and raises a redraw; the object invariant is kept |
| PhongVariables.PhongMaterialVariables.SetTextureName | Source/HelixToolkit.SharpDX.Shared/Model/Material/PhongMaterialVariables.cs:63-75 | renaming a texture slot changes that name only and leaves the cache as it is |
| PhongVariables.PhongMaterialVariables.SetSamplerName | Source/HelixToolkit.SharpDX.Shared/Model/Material/PhongMaterialVariables.cs:80-96 | renaming a sampler slot changes that name only and leaves the cache as it is |
| PhongVariables.PhongMaterialVariables.SetMaterial | Source/HelixToolkit.SharpDX.Shared/Model/Material/PhongMaterialVariables.cs:220-245 | the same material (or none again) changes nothing, and a material of another kind is never the same; any other value marks the record dirty, raises a redraw, keeps only a Phong material, and re-syncs the slots. With a material it registers five samplers and releases none; without one it keeps the samplers |
| PhongVariables.PhongMaterialVariables.OnMaterialPropertyChanged | Source/HelixToolkit.SharpDX.Shared/Model/Material/PhongMaterialVariables.cs:268-312 | the record always becomes dirty. A disposed engine stops there. Otherwise exactly the slot the field feeds is re-derived, a sampler slot releases its previous sampler first, a redraw is raised, and slots that mirrored the material still do |
| PhongVariables.PhongMaterialVariables.RefreshSlot | Source/HelixToolkit.SharpDX.Shared/Model/Material/PhongMaterialVariables.cs:275-310 | an image field re-creates its slot's view only; a sampler field releases its slot's previous sampler, then registers and stores the new one in that slot only; any other field changes nothing |
| PhongVariables.PhongMaterialVariables.CreateTextureView | Source/HelixToolkit.SharpDX.Shared/Model/Material/PhongMaterialVariables.cs:314-317 | one slot's proxy gets the view of the given image data; every other slot is unchanged |
| PhongVariables.PhongMaterialVariables.ReplaceSampler | Source/HelixToolkit.SharpDX.Shared/Model/Material/PhongMaterialVariables.cs:293-294 | the previous sampler of the slot is released if there was one, then the new one is registered and stored in that slot only |
| PhongVariables.PhongMaterialVariables.CreateTextureViews | Source/HelixToolkit.SharpDX.Shared/Model/Material/PhongMaterialVariables.cs:319-335 | the four views mirror the material's images, or are all empty without a material |
| PhongVariables.PhongMaterialVariables.CreateSamplers | Source/HelixToolkit.SharpDX.Shared/Model/Material/PhongMaterialVariables.cs:337-347 | with a material, the five slots hold its pooled samplers, registered in source order with no release; without one, nothing changes |
| PhongVariables.PhongMaterialVariables.UpdateMaterialVariables | Source/HelixToolkit.SharpDX.Shared/Model/Material/PhongMaterialVariables.cs:371-383 | returns true exactly when a material is attached; the record is the copy-out when it was dirty and untouched otherwise; afterwards it is clean |
| PhongVariables.PhongMaterialVariables.HasTextures | Source/HelixToolkit.SharpDX.Shared/Model/Material/PhongMaterialVariables.cs:39-52 | true exactly when some texture slot holds a proxy object |
| PhongVariables.PhongMaterialVariables.AllocatedHasTextures | Source/HelixToolkit.SharpDX.Shared/Model/Material/PhongMaterialVariables.cs:259-262 | once the constructor has allocated the proxies, the texture walk is never skipped |
| PhongVariables.PhongMaterialVariables.UpdateMappings | Source/HelixToolkit.SharpDX.Shared/Model/Material/PhongMaterialVariables.cs:418-445 | the pass already cached costs no lookup and leaves the maps alone; any other pass becomes the cached one, both maps become the rebuild over that pass, and each texture-capable stage costs nine lookups |
| PhongVariables.PhongMaterialVariables.ResolveStage | Source/HelixToolkit.SharpDX.Shared/Model/Material/PhongMaterialVariables.cs:433-443 | a texture-capable stage rewrites its own row from its name tables, with -1 on a miss, at a cost of nine lookups; other rows are unchanged |
| PhongVariables.PhongMaterialVariables.ResolveTextureRow | Source/HelixToolkit.SharpDX.Shared/Model/Material/PhongMaterialVariables.cs:434-437 | the texture map's row for a stage kind gets that stage's bind slot for each texture name, -1 on a miss; other rows are unchanged |
| PhongVariables.PhongMaterialVariables.ResolveSamplerRow | Source/HelixToolkit.SharpDX.Shared/Model/Material/PhongMaterialVariables.cs:439-443 | the sampler map's row for a stage kind gets that stage's bind slot for each of the five sampler names, -1 on a miss; other rows are unchanged |
| PhongVariables.PhongMaterialVariables.OnBindMaterialTextures | Source/HelixToolkit.SharpDX.Shared/Model/Material/PhongMaterialVariables.cs:453-466 | the calls issued for one stage are exactly the per-slot calls of the binder specification: none for a null stage |
| PhongVariables.PhongMaterialVariables.BindPassTextures | Source/HelixToolkit.SharpDX.Shared/Model/Material/PhongMaterialVariables.cs:400-409 | the texture walk issues the calls of each texture-capable stage of the pass in pipeline order, and none for other stages |
| PhongVariables.PhongMaterialVariables.BindShadowSampler | Source/HelixToolkit.SharpDX.Shared/Model/Material/PhongMaterialVariables.cs:411-414 | one sampler call on the pixel stage for the shadow slot, at the pixel row's cached shadow index |
| PhongVariables.PhongMaterialVariables.IssueBinds | Source/HelixToolkit.SharpDX.Shared/Model/Material/PhongMaterialVariables.cs:398-414 | the texture walk runs exactly when a slot holds a proxy, and the shadow call follows exactly when shadows are on |
| PhongVariables.PhongMaterialVariables.BindMaterialTextures | Source/HelixToolkit.SharpDX.Shared/Model/Material/PhongMaterialVariables.cs:391-416 | without a material: false, no lookup, no call. Otherwise true; the cache is brought up to date for the pass; the calls are exactly the texture walk (when a proxy exists) followed by the shadow sampler (when shadows are on) |
| PhongVariables.UpdateIsIdempotent | Source/HelixToolkit.SharpDX.Shared/Model/Material/PhongMaterialVariables.cs:371-383 | with a material attached, both copy-outs return true, the second returns the same record as the first, and the engine is left clean |
| PhongVariables.SecondBindSkipsLookups | Source/HelixToolkit.SharpDX.Shared/Model/Material/PhongMaterialVariables.cs:420-423 | both requests succeed, and the two together leave exactly the cached pass, maps and lookup count of a single request: the second resolves nothing and changes no map |
| PhongVariables.DetachedEngineDoesNothing | Source/HelixToolkit.SharpDX.Shared/Model/Material/PhongMaterialVariables.cs:391-396 | after the material is cleared, a bind request returns false with no call and a copy-out returns false with the record untouched |

## Left out

- `ScreenSpaceMeshGeometry3D` and the rest of the WPF scene graph are not part of this model.
- Dispose and `OnDispose` (lines 471-481) are not modelled, and neither is the `Collect` ownership list. The only part of disposal kept is the disposed check in the field-change handler, where `IsDisposed` is a parameter.
- Event plumbing is not modelled. Subscribing to and unsubscribing from the material's change event, `RaisePropertyChanged`, and the `OnInvalidateRenderer` event are reduced to a ghost counter of redraw requests.
- Colours, scalars and the displacement vector are floating-point values in the source. Here they are opaque values that are only copied.
- Shader-stage constants come from files that are not part of this model. The model fixes six stage kinds in the order vertex, hull, domain, geometry, pixel, compute.
- The capability mask of texture-capable stages is kept as a flag on each shader.
- The default slot names are constructor parameters.
- The sentinel is -1.
- The default shadow-sampler description is one fixed value.
- The device and the graphics context are not modelled. Bind calls are recorded in a log in the order they are issued.
- A bind at the sentinel index is recorded like any other call. So is the shadow bind on a pass whose pixel stage is null. The shader bind primitives, which decide what such a call does, are not part of this model.
- The jagged `int[][]` binding maps are `array2<int>` with the same shape.
- The pass cache compares pass identities, as the source's reference comparison does.
- The texture proxies are values held in an array owned by the engine. Re-creating a proxy's view replaces the slot's value.
- The field-change handler receives the attached material after its change, so the engine's stored copy of the material is replaced by the sender. A sender that is not the attached material is not modelled.
- Material identity: a Phong material's reference is its id, so two Phong values with the same id count as the same object. A material of another kind never equals the attached one.
- Texture view creation is assumed to succeed for every image stream and to give no view for no stream. Image data that cannot be decoded is not modelled; the proxy code that decodes it is not part of this model.
- A null shader pass is not modelled, because the model's references are never null. With a pass cached, the source sets the cache to null at line 424, then throws at line 426. With no pass cached, line 420 returns and line 401 throws.
- A change notification with a null field name is not modelled. The source sets the dirty flag at line 270, then throws at line 275 before any redraw is raised. The closest model input, a change of another field, does raise a redraw.
- A null device context is not modelled. The source passes it on unchecked at lines 413, 463 and 464, with no guard.
- The sampler pool's reference counting is not modelled. The pool is a log of registrations and releases, and equal descriptions give equal handles.
- PhongVariables.PhongMaterialVariables.SetMaterial: the model does not release the samplers a new material replaces, because the code (lines 337-347) registers new ones without releasing the old ones. Clearing the material also keeps them.
- PhongVariables.PhongMaterialVariables.HasTextures: the model does not test whether any slot holds a view, because the code (lines 43-49) tests only whether a proxy object exists. That holds from construction on, so the texture walk is never skipped once the proxies exist.
