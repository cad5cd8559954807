// scene/material.go: a material holds up to sixteen texture slots, a map of
// shader properties and an optional shader. Binding issues GL calls, which are
// left out: Bind reports whether the shader was bound, which texture units
// were activated, and which properties were sent as uniforms.

module SceneMaterial {
  import opened Common
  import GL

  const MaterialMaxTextures: nat := 16

  /** MaterialTexture is a Go uint32 slot number; the named slots are 0 through 7. */
  type MaterialTexture = UInt32

  const Attachment0: MaterialTexture := 0
  const Attachment1: MaterialTexture := 1
  const DepthSlot: MaterialTexture := 2
  const EnvironmentSlot: MaterialTexture := 3
  const IrradianceSlot: MaterialTexture := 4
  const AlbedoSlot: MaterialTexture := 5
  const NormalSlot: MaterialTexture := 6
  const MetallicSlot: MaterialTexture := 7

  /** A texture is known by its instance identifier. */
  type TextureRef = nat

  /** A compiled shader: its identifier and whether it supports the deferred path. */
  datatype Shader = Shader(id: nat, deferredCapable: bool)

  /** Property values are opaque to the material; colours are named, not stored. */
  datatype PropertyValue = ColorValue(colorName: string) | FloatValue(value: real)

  /** What one Bind call did. */
  datatype BindReport = BindReport(shaderBound: bool, units: seq<int>, uniforms: set<string>)

  class Material {
    const id: int
    var name: string
    const textures: array<Option<TextureRef>>
    var shaderProperties: map<string, PropertyValue>
    var shader: Option<Shader>

    predicate Valid()
      reads this
    {
      textures.Length == MaterialMaxTextures
    }

    /** NewMaterial: named "Material", no shader, no properties, all slots empty. */
    constructor (id: int)
      ensures Valid() && fresh(textures)
      ensures this.id == id && name == "Material"
      ensures shaderProperties == map[] && shader == None
      ensures forall i :: 0 <= i < textures.Length ==> textures[i] == None
    {
      this.id := id;
      name := "Material";
      textures := new Option<TextureRef>[MaterialMaxTextures](_ => None);
      shaderProperties := map[];
      shader := None;
    }

    /** Texture returns the slot's texture, and nothing for a slot number past the array. */
    function Texture(slot: MaterialTexture): (t: Option<TextureRef>)
      requires Valid()
      reads this, textures
      ensures slot >= MaterialMaxTextures ==> t == None
      ensures slot < MaterialMaxTextures ==> t == textures[slot]
    {
      if slot >= MaterialMaxTextures then None else textures[slot]
    }

    /** SetTexture writes only the named slot, and nothing for a slot number
        past the array; Texture then returns what was set. */
    method SetTexture(slot: MaterialTexture, texture: Option<TextureRef>)
      requires Valid()
      modifies textures
      ensures slot < MaterialMaxTextures ==> textures[..] == old(textures[..])[slot := texture]
      ensures slot >= MaterialMaxTextures ==> textures[..] == old(textures[..])
      ensures slot < MaterialMaxTextures ==> Texture(slot) == texture
      ensures forall s: MaterialTexture :: s != slot ==> Texture(s) == old(Texture(s))
    {
      if slot < MaterialMaxTextures {
        textures[slot] := texture;
      }
    }

    method SetShader(shader: Option<Shader>)
      modifies this
      ensures this.shader == shader
      ensures shaderProperties == old(shaderProperties) && name == old(name)
    {
      this.shader := shader;
    }

    /** SetProperty inserts or overwrites exactly one key. */
    method SetProperty(property: string, value: PropertyValue)
      modifies this
      ensures shaderProperties == old(shaderProperties)[property := value]
      ensures property in shaderProperties && shaderProperties[property] == value
      ensures forall k :: k != property ==> (k in shaderProperties <==> k in old(shaderProperties))
      ensures shader == old(shader) && name == old(name)
    {
      shaderProperties := shaderProperties[property := value];
    }

    /** The deferred path needs a shader that supports it. */
    predicate SupportsDeferredPath()
      reads this
      ensures SupportsDeferredPath() ==> shader.Some?
    {
      shader.Some? && shader.value.deferredCapable
    }

    /** Bind does nothing without a shader. Otherwise it binds the shader,
        activates texture unit TEXTURE0 + i for every occupied slot i in
        increasing slot order, and sends every property as a uniform. */
    method Bind() returns (report: BindReport)
      requires Valid()
      ensures report.shaderBound <==> shader.Some?
      ensures shader.None? ==> report.units == [] && report.uniforms == {}
      ensures shader.Some? ==> report.uniforms == shaderProperties.Keys
      ensures shader.Some? ==> forall i :: 0 <= i < MaterialMaxTextures ==>
                (GL.TEXTURE0 + i in report.units <==> textures[i].Some?)
      ensures forall k :: 0 <= k < |report.units| ==> GL.TEXTURE0 <= report.units[k] < GL.TEXTURE0 + MaterialMaxTextures
      ensures forall k, l :: 0 <= k < l < |report.units| ==> report.units[k] < report.units[l]
    {
      if shader.None? {
        return BindReport(false, [], {});
      }
      var units: seq<int> := [];
      var i := 0;
      while i < textures.Length
        invariant 0 <= i <= textures.Length
        invariant forall j :: 0 <= j < textures.Length ==> (GL.TEXTURE0 + j in units <==> j < i && textures[j].Some?)
        invariant forall k :: 0 <= k < |units| ==> GL.TEXTURE0 <= units[k] < GL.TEXTURE0 + i
        invariant forall k, l :: 0 <= k < l < |units| ==> units[k] < units[l]
      {
        if textures[i].Some? {
          units := units + [GL.TEXTURE0 + i];
        }
        i := i + 1;
      }
      return BindReport(true, units, shaderProperties.Keys);
    }
  }

  /** NewMaterialPBR: a new material with the default shader and the albedo,
      metallic and roughness properties. */
  method NewMaterialPBR(id: int, defaultShader: Shader) returns (m: Material)
    ensures fresh(m) && fresh(m.textures) && m.Valid()
    ensures m.name == "Material" && m.shader == Some(defaultShader)
    ensures m.shaderProperties == map["f_albedo" := ColorValue("Copper"), "f_metallic" := FloatValue(1.0),
                                      "f_roughness" := FloatValue(0.8)]
    ensures forall i :: 0 <= i < m.textures.Length ==> m.textures[i] == None
  {
    m := new Material(id);
    m.SetShader(Some(defaultShader));
    m.SetProperty("f_albedo", ColorValue("Copper"));
    m.SetProperty("f_metallic", FloatValue(1.0));
    m.SetProperty("f_roughness", FloatValue(0.8));
  }
}
