/**
 * The copy of material state into the per-model uniform record. Colours and
 * scalars are copied verbatim; each flag is stored as the integer 0 or 1.
 */
module UniformAssigner {
  import opened MaterialTypes

  /** The uniform record's boolean convention. */
  predicate IsFlag(x: int)
  {
    x == 0 || x == 1
  }

  /** A boolean as a uniform flag. */
  function Flag(b: bool): (r: int)
    ensures IsFlag(r)
    ensures r == 1 <==> b
  {
    if b then 1 else 0
  }

  /**
   * The record after a copy-out from material `m` under render switches `t`
   * with texture views `views`: a map flag is set exactly when its switch is
   * on AND its slot holds a view; the shadow and cube-map flags follow their
   * switches alone; every member the engine does not own is kept.
   */
  function AssignVariables(m: PhongMaterial, t: RenderToggles, views: seq<Option<TextureView>>, record: ModelStruct): (r: ModelStruct)
    requires |views| == NumTextures
    ensures r.ambient == m.ambientColor && r.diffuse == m.diffuseColor && r.emissive == m.emissiveColor
    ensures r.reflect == m.reflectiveColor && r.specular == m.specularColor && r.shininess == m.specularShininess
    ensures r.displacementMapScaleMask == m.displacementMapScaleMask
    ensures IsFlag(r.hasDiffuseMap) && (r.hasDiffuseMap == 1 <==> t.diffuseMap && views[DiffuseIdx].Some?)
    ensures IsFlag(r.hasDiffuseAlphaMap) && (r.hasDiffuseAlphaMap == 1 <==> t.diffuseAlphaMap && views[AlphaIdx].Some?)
    ensures IsFlag(r.hasNormalMap) && (r.hasNormalMap == 1 <==> t.normalMap && views[NormalIdx].Some?)
    ensures IsFlag(r.hasDisplacementMap) && (r.hasDisplacementMap == 1 <==> t.displacementMap && views[DisplaceIdx].Some?)
    ensures IsFlag(r.renderShadowMap) && (r.renderShadowMap == 1 <==> t.shadowMap)
    ensures IsFlag(r.hasCubeMap) && (r.hasCubeMap == 1 <==> t.environmentMap)
    ensures r.rest == record.rest
  {
    record.(
      ambient := m.ambientColor,
      diffuse := m.diffuseColor,
      emissive := m.emissiveColor,
      reflect := m.reflectiveColor,
      specular := m.specularColor,
      shininess := m.specularShininess,
      hasDiffuseMap := Flag(t.diffuseMap && views[DiffuseIdx].Some?),
      hasDiffuseAlphaMap := Flag(t.diffuseAlphaMap && views[AlphaIdx].Some?),
      hasNormalMap := Flag(t.normalMap && views[NormalIdx].Some?),
      hasDisplacementMap := Flag(t.displacementMap && views[DisplaceIdx].Some?),
      displacementMapScaleMask := m.displacementMapScaleMask,
      renderShadowMap := Flag(t.shadowMap),
      hasCubeMap := Flag(t.environmentMap))
  }

  /**
   * Re-deriving one texture slot changes only that slot's flag in the next
   * copy-out: a new normal map moves `hasNormalMap` and nothing else.
   */
  lemma OneSlotMovesOneFlag(m: PhongMaterial, t: RenderToggles, views: seq<Option<TextureView>>, record: ModelStruct, v: Option<TextureView>)
    requires |views| == NumTextures
    ensures AssignVariables(m, t, views[NormalIdx := v], record)
      == AssignVariables(m, t, views, record).(hasNormalMap := Flag(t.normalMap && v.Some?))
  {
  }
}
