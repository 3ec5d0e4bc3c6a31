/**
 * Values shared by the Phong material binding engine: slot constants, shader
 * stages and passes, the material snapshot, the uniform record and the calls
 * the engine makes to its collaborators.
 */
module MaterialTypes {

  datatype Option<+T> = None | Some(value: T)

  // Semantic slots. Texture slots are 0..3, the sampler list has the shadow
  // sampler as a fifth entry with no paired texture.
  const NumTextures: nat := 4
  const NumSamplers: nat := 5
  const DiffuseIdx: nat := 0
  const AlphaIdx: nat := 1
  const NormalIdx: nat := 2
  const DisplaceIdx: nat := 3
  const ShadowIdx: nat := 4

  /** Number of pipeline stages a binding map has a row for. */
  const NumShaderStages: nat := 6

  /** Bind index reported by a stage's name table for a name it does not know. */
  const Sentinel: int := -1

  /** Lookups one texture-capable stage costs when the cache is rebuilt. */
  const LookupsPerStage: nat := NumTextures + NumSamplers

  datatype ShaderStage = Vertex | Hull | Domain | Geometry | Pixel | Compute
  {
    /** Row of this stage in the per-stage binding maps. */
    function ToIndex(): (i: nat)
      ensures i < NumShaderStages
    {
      match this
      case Vertex => 0
      case Hull => 1
      case Domain => 2
      case Geometry => 3
      case Pixel => 4
      case Compute => 5
    }
  }

  /**
   * One stage of a shader pass: whether it is the null placeholder, its kind,
   * whether its kind is in the texture-capable stage mask, and its two
   * name-to-bind-slot tables.
   */
  datatype Shader = Shader(
    isNull: bool,
    stage: ShaderStage,
    textureCapable: bool,
    resourceSlots: map<string, int>,
    samplerSlots: map<string, int>)
  {
    /** The stages the engine binds material textures on. */
    predicate CanBindTextures()
      ensures isNull ==> !CanBindTextures()
      ensures !textureCapable ==> !CanBindTextures()
    {
      !isNull && textureCapable
    }
  }

  type PassId = int

  /** A shader pass: an identity (reference equality in the program) and its stages in pipeline order. */
  datatype ShaderPass = ShaderPass(id: PassId, shaders: seq<Shader>)

  // Opaque values the engine copies without looking inside.
  datatype Color4 = Color4(raw: int)
  datatype Scalar = Scalar(raw: int)
  datatype Vector4 = Vector4(raw: int)

  /** Image data a texture view is created from. */
  datatype Stream = Stream(id: int)
  datatype TextureView = TextureView(source: Stream)

  datatype SamplerDescription = SamplerDescription(raw: int)
  /** A pooled sampler object; the pool hands out one object per description. */
  datatype SamplerHandle = SamplerHandle(description: SamplerDescription)

  /** The fixed description registered for the shadow-map sampler. */
  const ShadowSamplerDescription: SamplerDescription := SamplerDescription(0)

  type MaterialId = int

  /** The fields of a Phong material the engine consumes; `id` is its object identity. */
  datatype PhongMaterial = PhongMaterial(
    id: MaterialId,
    ambientColor: Color4,
    diffuseColor: Color4,
    emissiveColor: Color4,
    reflectiveColor: Color4,
    specularColor: Color4,
    specularShininess: Scalar,
    displacementMapScaleMask: Vector4,
    diffuseMap: Option<Stream>,
    diffuseAlphaMap: Option<Stream>,
    normalMap: Option<Stream>,
    displacementMap: Option<Stream>,
    diffuseMapSampler: SamplerDescription,
    diffuseAlphaMapSampler: SamplerDescription,
    normalMapSampler: SamplerDescription,
    displacementMapSampler: SamplerDescription)
  {
    /** The image source feeding texture slot `slot`. */
    function MapAt(slot: nat): Option<Stream>
      requires slot < NumTextures
    {
      if slot == DiffuseIdx then diffuseMap
      else if slot == AlphaIdx then diffuseAlphaMap
      else if slot == NormalIdx then normalMap
      else displacementMap
    }

    /** The sampler description of texture slot `slot`. */
    function SamplerAt(slot: nat): SamplerDescription
      requires slot < NumTextures
    {
      if slot == DiffuseIdx then diffuseMapSampler
      else if slot == AlphaIdx then diffuseAlphaMapSampler
      else if slot == NormalIdx then normalMapSampler
      else displacementMapSampler
    }
  }

  /** Any material a host may assign; only Phong materials are used by this engine. */
  datatype MaterialCore = Phong(phong: PhongMaterial) | NonPhong(id: MaterialId)
  {
    function Id(): MaterialId
    {
      match this
      case Phong(m) => m.id
      case NonPhong(i) => i
    }
  }

  /**
   * Reference equality between the attached Phong material and an assigned
   * value: both absent, or the same Phong material. A material of another
   * kind is a different object from any Phong material.
   */
  predicate SameMaterial(attached: Option<PhongMaterial>, value: Option<MaterialCore>)
    ensures SameMaterial(attached, value) ==> (attached.None? <==> value.None?)
    ensures SameMaterial(attached, value) && attached.Some? ==> AsPhong(value).Some? && AsPhong(value).value.id == attached.value.id
    ensures value.Some? && value.value.NonPhong? ==> !SameMaterial(attached, value)
  {
    match value
    case None => attached.None?
    case Some(Phong(p)) => attached.Some? && attached.value.id == p.id
    case Some(NonPhong(_)) => false
  }

  /** The checked down-cast: a non-Phong material becomes no material. */
  function AsPhong(m: Option<MaterialCore>): (r: Option<PhongMaterial>)
    ensures r.Some? <==> m.Some? && m.value.Phong?
    ensures r.Some? ==> r.value.id == m.value.Id()
  {
    match m
    case Some(Phong(p)) => Some(p)
    case _ => None
  }

  /** The notifications a material raises, one per field; the rest carry no resource. */
  datatype MaterialProperty =
    | DiffuseMapChanged
    | NormalMapChanged
    | DisplacementMapChanged
    | DiffuseAlphaMapChanged
    | DiffuseMapSamplerChanged
    | DiffuseAlphaMapSamplerChanged
    | DisplacementMapSamplerChanged
    | NormalMapSamplerChanged
    | OtherPropertyChanged(name: string)
  {
    /** The texture slot this notification re-derives, if any. */
    function TextureSlot(): (r: Option<nat>)
      ensures r.Some? ==> r.value < NumTextures
      ensures r == Some(DiffuseIdx) <==> DiffuseMapChanged?
      ensures r == Some(NormalIdx) <==> NormalMapChanged?
      ensures r == Some(DisplaceIdx) <==> DisplacementMapChanged?
      ensures r == Some(AlphaIdx) <==> DiffuseAlphaMapChanged?
    {
      match this
      case DiffuseMapChanged => Some(DiffuseIdx)
      case NormalMapChanged => Some(NormalIdx)
      case DisplacementMapChanged => Some(DisplaceIdx)
      case DiffuseAlphaMapChanged => Some(AlphaIdx)
      case _ => None
    }

    /** The sampler slot this notification re-derives, if any. */
    function SamplerSlot(): (r: Option<nat>)
      ensures r.Some? ==> r.value < NumTextures
      ensures r == Some(DiffuseIdx) <==> DiffuseMapSamplerChanged?
      ensures r == Some(AlphaIdx) <==> DiffuseAlphaMapSamplerChanged?
      ensures r == Some(DisplaceIdx) <==> DisplacementMapSamplerChanged?
      ensures r == Some(NormalIdx) <==> NormalMapSamplerChanged?
      ensures r.Some? ==> TextureSlot().None?
    {
      match this
      case DiffuseMapSamplerChanged => Some(DiffuseIdx)
      case DiffuseAlphaMapSamplerChanged => Some(AlphaIdx)
      case DisplacementMapSamplerChanged => Some(DisplaceIdx)
      case NormalMapSamplerChanged => Some(NormalIdx)
      case _ => None
    }
  }

  /** The six render switches of the engine. */
  datatype Toggle =
    | RenderDiffuseMap
    | RenderDiffuseAlphaMap
    | RenderNormalMap
    | RenderDisplacementMap
    | RenderShadowMap
    | RenderEnvironmentMap

  datatype RenderToggles = RenderToggles(
    diffuseMap: bool,
    diffuseAlphaMap: bool,
    normalMap: bool,
    displacementMap: bool,
    shadowMap: bool,
    environmentMap: bool)
  {
    function Get(t: Toggle): bool
    {
      match t
      case RenderDiffuseMap => diffuseMap
      case RenderDiffuseAlphaMap => diffuseAlphaMap
      case RenderNormalMap => normalMap
      case RenderDisplacementMap => displacementMap
      case RenderShadowMap => shadowMap
      case RenderEnvironmentMap => environmentMap
    }

    /** These toggles with switch `t` set to `v` and every other switch kept. */
    function With(t: Toggle, v: bool): (r: RenderToggles)
      ensures r.Get(t) == v
      ensures forall u :: u != t ==> r.Get(u) == Get(u)
    {
      match t
      case RenderDiffuseMap => this.(diffuseMap := v)
      case RenderDiffuseAlphaMap => this.(diffuseAlphaMap := v)
      case RenderNormalMap => this.(normalMap := v)
      case RenderDisplacementMap => this.(displacementMap := v)
      case RenderShadowMap => this.(shadowMap := v)
      case RenderEnvironmentMap => this.(environmentMap := v)
    }
  }

  /** Map switches start on, shadow and environment switches off. */
  function DefaultToggles(): (t: RenderToggles)
    ensures forall s: Toggle :: t.Get(s) <==> s != RenderShadowMap && s != RenderEnvironmentMap
  {
    RenderToggles(true, true, true, true, false, false)
  }

  /**
   * The GPU-visible per-model uniform record. Flags are 0/1 integers; `rest`
   * stands for the members of the record this engine never writes.
   */
  datatype ModelStruct = ModelStruct(
    ambient: Color4,
    diffuse: Color4,
    emissive: Color4,
    reflect: Color4,
    specular: Color4,
    shininess: Scalar,
    hasDiffuseMap: int,
    hasDiffuseAlphaMap: int,
    hasNormalMap: int,
    hasDisplacementMap: int,
    displacementMapScaleMask: Vector4,
    renderShadowMap: int,
    hasCubeMap: int,
    rest: int)

  /** A texture slot of the engine: no proxy object yet, or a proxy holding an optional view. */
  datatype TextureSlot = Unallocated | Proxy(textureView: Option<TextureView>)

  /** A bind call issued to a shader stage: the bind index, the semantic slot and what is bound. */
  datatype BindCall =
    | TextureBind(stage: ShaderStage, bindIndex: int, slot: nat, view: TextureView)
    | SamplerBind(stage: ShaderStage, bindIndex: int, slot: nat, sampler: Option<SamplerHandle>)

  /** A request to the sampler pool. */
  datatype PoolOp = Registered(description: SamplerDescription) | Released(handle: SamplerHandle)
}
