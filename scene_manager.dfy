/** The scene manager: a texture registry in a fixed array, the material
    list, the shader-binding setters and the per-frame authoring script. */
module Scene {
  import opened GlTypes
  import opened Lookup
  import opened TextureRegistry
  import opened Materials
  import opened Shading
  import opened KeyLayout
  import opened ScenePlan

  /** The store after one key of a row: its model matrix, then the flat
      grey colour. */
  function AfterKey(s: Uniforms, keyScale: Vec3, x: real, z: real): Uniforms
  {
    s[ModelName := Mat4V(ModelMatrix(keyScale, 0.0, 0.0, 0.0, Vec3(x, 0.5, z)))]
     [UseTexture := Flag(false)][ObjectColor := Vec4V(KeyGrey)]
  }

  /** A run of `n` keys drawn from the latched state `s`, key `j` at
      `KeyXAsWritten(..., j)`, follows the key-row plan and places each key
      on its grid position. */
  lemma KeyRowDrawn(log: seq<Draw>, b: nat, n: nat, s: Uniforms, keyScale: Vec3, startX: real, spacingX: real, z: real,
                    recs: seq<TextureRecord>)
    requires b + n <= |log|
    requires forall k :: b <= k < b + n ==>
      log[k] == Draw(Box, AfterKey(s, keyScale, KeyXAsWritten(startX, spacingX, n, k - b), z))
    ensures Follows(log, b, KeyRowPlan(n, Get(s, UseLighting), Get(s, UVScale), MaterialOf(s)), recs)
    ensures RowPlaced(log, b, n, keyScale, startX, spacingX, z)
  {
    var plan := KeyRowPlan(n, Get(s, UseLighting), Get(s, UVScale), MaterialOf(s));
    forall j | 0 <= j < n ensures Matches(log[b + j], plan[j], recs) {
      KeyMatches(s, keyScale, KeyXAsWritten(startX, spacingX, n, j), z, recs);
    }
  }

  /** Drawing a key touches only the transform, the texture switch and the
      colour: lighting, UV scale and material stay as they were. */
  lemma AfterKeyKeeps(s: Uniforms, keyScale: Vec3, x: real, z: real)
    ensures Get(AfterKey(s, keyScale, x, z), UseLighting) == Get(s, UseLighting)
    ensures Get(AfterKey(s, keyScale, x, z), UVScale) == Get(s, UVScale)
    ensures MaterialOf(AfterKey(s, keyScale, x, z)) == MaterialOf(s)
  {
  }

  /** One key of a row, from the store the previous key left (or the
      row's initial store): the same store as if it were the first key. */
  lemma KeyStep(s: Uniforms, prev: Uniforms, keyScale: Vec3, x0: real, x: real, z: real)
    requires prev == s || prev == AfterKey(s, keyScale, x0, z)
    ensures SurfaceEffect(prev[ModelName := Mat4V(ModelMatrix(keyScale, 0.0, 0.0, 0.0, Vec3(x, 0.5, z)))],
                          ColorCall(Vec4(0.83, 0.83, 0.83, 1.0)), [])
            == AfterKey(s, keyScale, x, z)
  {
  }

  /** A key drawn from store `s` shows the grey colour and keeps the
      lighting flag, the UV scale and the material `s` had. */
  lemma KeyMatches(s: Uniforms, keyScale: Vec3, x: real, z: real, recs: seq<TextureRecord>)
    ensures Matches(Draw(Box, AfterKey(s, keyScale, x, z)), Expect(Box, Get(s, UseLighting), ColorCall(KeyGrey), Get(s, UVScale), MaterialOf(s)), recs)
  {
  }

  /** The draw of a key of the scene's keyboard at (x, 0.5, z). */
  predicate KeyDrawnAt(d: Draw, x: real, z: real)
  {
    d.mesh == Box && Get(d.state, ModelName) == Some(Mat4V(ModelMatrix(KeyScale, 0.0, 0.0, 0.0, Vec3(x, 0.5, z))))
  }

  /** The `n` draws of `log` from index `b` on are boxes placed where the
      key-row lambda puts the keys of an `n`-key row at depth `z`. */
  predicate RowPlaced(log: seq<Draw>, b: nat, n: nat, keyScale: Vec3, startX: real, spacingX: real, z: real)
  {
    && b + n <= |log|
    && forall k :: b <= k < b + n ==>
         log[k].mesh == Box
         && Get(log[k].state, ModelName) == Some(Mat4V(ModelMatrix(keyScale, 0.0, 0.0, 0.0, Vec3(KeyXAsWritten(startX, spacingX, n, k - b), 0.5, z))))
  }

  /** Later draws do not move a row already drawn. */
  lemma RowPlacedExtend(log: seq<Draw>, log': seq<Draw>, b: nat, n: nat, keyScale: Vec3, startX: real, spacingX: real, z: real)
    requires RowPlaced(log, b, n, keyScale, startX, spacingX, z)
    requires |log| <= |log'| && log'[..|log|] == log
    ensures RowPlaced(log', b, n, keyScale, startX, spacingX, z)
  {
    forall k | b <= k < b + n ensures log'[k] == log[k] {
      assert log'[..|log|][k] == log'[k];
    }
  }

  /** A row of at most ten keys, placed on the scene's grid, has key `j` at
      the intended x: centred on the ten-key grid, one unit apart. */
  lemma RowPlacedCentred(log: seq<Draw>, b: nat, n: nat, z: real)
    requires n <= 10 && RowPlaced(log, b, n, KeyScale, -4.5, 1.0, z)
    ensures forall j :: 0 <= j < n ==> KeyDrawnAt(log[b + j], KeyX(-4.5, 1.0, n, j), z)
    ensures forall j :: 0 <= j < n ==> KeyX(-4.5, 1.0, n, j) == -KeyX(-4.5, 1.0, n, n - 1 - j)
  {
    OffsetAgreesUpToTen(-4.5, n);
    forall j | 0 <= j < n ensures KeyDrawnAt(log[b + j], KeyX(-4.5, 1.0, n, j), z) {
      assert KeyXAsWritten(-4.5, 1.0, n, (b + j) - b) == KeyX(-4.5, 1.0, n, j);
    }
    forall j | 0 <= j < n ensures KeyX(-4.5, 1.0, n, j) == -KeyX(-4.5, 1.0, n, n - 1 - j) {
      RowsCentred(n, j);
    }
  }

  /** The five regions, drawn back to back from index `b`, follow the
      frame plan; the logs after each region are prefixes of the final one. */
  lemma FrameFromRegions(log0: seq<Draw>, logD: seq<Draw>, logC: seq<Draw>, logK: seq<Draw>, logP: seq<Draw>, log: seq<Draw>,
                         b: nat, recs: seq<TextureRecord>, mat: MaterialView)
    requires |log0| == b && |logD| == b + 2 && |logC| == b + 6 && |logK| == b + 33 && |logP| == b + 34 && |log| == b + 39
    requires logD[..b] == log0
    requires logC[..|logD|] == logD && logK[..|logC|] == logC && logP[..|logK|] == logK && log[..|logP|] == logP
    requires Follows(logD, b, DeskPlan(mat), recs)
    requires Follows(logC, b + 2, CupPlan(Lit, mat), recs)
    requires Follows(logK, b + 6, KeyboardPlan(Unlit, mat), recs)
    requires Follows(logP, b + 33, PyramidPlan(Unlit, mat), recs)
    requires Follows(log, b + 34, ComputerPlan(Unlit, mat), recs)
    ensures Follows(log, b, FramePlan(mat), recs)
    ensures log[..b] == log0 && log[..|logK|] == logK
  {
    var pD := DeskPlan(mat);
    FollowsAppend(logD, logC, b, pD, CupPlan(Lit, mat), recs);
    var pC := pD + CupPlan(Lit, mat);
    FollowsAppend(logC, logK, b, pC, KeyboardPlan(Unlit, mat), recs);
    var pK := pC + KeyboardPlan(Unlit, mat);
    FollowsAppend(logK, logP, b, pK, PyramidPlan(Unlit, mat), recs);
    var pP := pK + PyramidPlan(Unlit, mat);
    FollowsAppend(logP, log, b, pP, ComputerPlan(Unlit, mat), recs);
    assert log[..|logK|] == log[..|logP|][..|logK|] == logP[..|logK|] == logK;
    assert log[..|logC|] == logK[..|logC|] == logC;
    assert log[..|logD|] == logC[..|logD|] == logD;
    assert log[..b] == logD[..b] == log0;
  }

  /** The keyboard base and the three rows, drawn back to back from index
      `b`, follow the keyboard plan; the logs after each step are prefixes
      of the final one. */
  lemma KeyboardFromRows(log0: seq<Draw>, logB: seq<Draw>, log7: seq<Draw>, log9: seq<Draw>, log: seq<Draw>,
                         b: nat, lighting: Option<Uniform>, mat: MaterialView, recs: seq<TextureRecord>)
    requires |log0| == b && |logB| == b + 1 && |log7| == b + 8 && |log9| == b + 17 && |log| == b + 27
    requires logB[..b] == log0 && log7[..|logB|] == logB && log9[..|log7|] == log7 && log[..|log9|] == log9
    requires Follows(logB, b, [Expect(Box, lighting, TextureCall("matteBlack"), UnitUV, mat)], recs)
    requires Follows(log7, b + 1, KeyRowPlan(7, lighting, UnitUV, mat), recs)
    requires Follows(log9, b + 8, KeyRowPlan(9, lighting, UnitUV, mat), recs)
    requires Follows(log, b + 17, KeyRowPlan(10, lighting, UnitUV, mat), recs)
    ensures Follows(log, b, KeyboardPlan(lighting, mat), recs)
    ensures log[..b] == log0 && log[..|log7|] == log7
  {
    var p1 := [Expect(Box, lighting, TextureCall("matteBlack"), UnitUV, mat)];
    FollowsAppend(logB, log7, b, p1, KeyRowPlan(7, lighting, UnitUV, mat), recs);
    var p8 := p1 + KeyRowPlan(7, lighting, UnitUV, mat);
    FollowsAppend(log7, log9, b, p8, KeyRowPlan(9, lighting, UnitUV, mat), recs);
    var p17 := p8 + KeyRowPlan(9, lighting, UnitUV, mat);
    FollowsAppend(log9, log, b, p17, KeyRowPlan(10, lighting, UnitUV, mat), recs);
    assert log[..|log7|] == log[..|log9|][..|log7|] == log9[..|log7|] == log7;
    assert log[..|logB|] == log7[..|logB|] == logB;
    assert log[..b] == logB[..b] == log0;
  }

  /** The arguments of one SetTransformations call. */
  datatype Placement = Placement(scale: Vec3, xDegrees: real, yDegrees: real, zDegrees: real, position: Vec3)

  function PlacementMatrix(at: Placement): Mat
  {
    ModelMatrix(at.scale, at.xDegrees, at.yDegrees, at.zDegrees, at.position)
  }

  /** The uniforms after placing an object from `s`: the model matrix,
      then the optional lighting switch, then the optional material values
      (`pub` is `None` when no material is set, `Some(p)` when the material
      call publishes `p`). */
  function Placed(s: Uniforms, at: Placement, lighting: Option<bool>, pub: Option<Option<ObjectMaterial>>): Uniforms
  {
    var s1 := s[ModelName := Mat4V(PlacementMatrix(at))];
    var s2 := if lighting.Some? then s1[UseLighting := Flag(lighting.value)] else s1;
    if pub.Some? then PublishMaterial(s2, pub.value) else s2
  }

  /** Placing an object sets the model matrix, the lighting flag and the
      material as asked, and keeps the texture switch, colour, texture unit
      and UV scale. */
  lemma PlacedFacts(s: Uniforms, at: Placement, lighting: Option<bool>, pub: Option<Option<ObjectMaterial>>)
    ensures Get(Placed(s, at, lighting, pub), ModelName) == Some(Mat4V(PlacementMatrix(at)))
    ensures Get(Placed(s, at, lighting, pub), UseLighting) == LightingAfter(s, lighting)
    ensures MaterialOf(Placed(s, at, lighting, pub)) == if pub.Some? then MaterialOf(PublishMaterial(s, pub.value)) else MaterialOf(s)
    ensures Get(Placed(s, at, lighting, pub), UseTexture) == Get(s, UseTexture)
    ensures Get(Placed(s, at, lighting, pub), ObjectColor) == Get(s, ObjectColor)
    ensures Get(Placed(s, at, lighting, pub), ObjectTexture) == Get(s, ObjectTexture)
    ensures Get(Placed(s, at, lighting, pub), UVScale) == Get(s, UVScale)
  {
    var s1 := s[ModelName := Mat4V(PlacementMatrix(at))];
    var s2 := if lighting.Some? then s1[UseLighting := Flag(lighting.value)] else s1;
    if pub.Some? {
      PublishKeepsAgreement(s2, s, pub.value);
    }
  }

  /** The lighting flag after an optional switch. */
  function LightingAfter(s: Uniforms, lighting: Option<bool>): Option<Uniform>
  {
    if lighting.Some? then Some(Flag(lighting.value)) else Get(s, UseLighting)
  }

  /** Where the monitor screen is placed: the last object of a pass. */
  const ScreenAt := Placement(Vec3(6.0, 1.0, 4.0), 90.0, 0.0, 0.0, Vec3(0.0, 8.0, -2.9))

  class SceneManager {
    const shader: ShaderManager?           // m_pShaderManager, possibly null
    const units: TextureUnits              // the GL context's texture units
    const textures: array<TextureRecord>   // m_textureIDs
    var loaded: nat                        // m_loadedTextures
    var materials: seq<ObjectMaterial>     // m_objectMaterials
    ghost var records: seq<TextureRecord>  // the registered prefix of m_textureIDs
    ghost var drawLog: seq<Draw>           // the draws issued through m_basicMeshes

    /** The array holds sixteen entries, the first `loaded` registered, and
        `records` is that registered prefix. */
    ghost predicate Valid()
      reads this`loaded, this`records, textures
    {
      && textures.Length == Capacity && loaded <= Capacity
      && |records| == loaded && forall i :: 0 <= i < loaded ==> textures[i] == records[i]
    }

    /** The registered records, in insertion (slot) order. */
    ghost function Records(): seq<TextureRecord>
      reads this`records
    {
      records
    }

    /** The uniform values a draw issued now would see. */
    ghost function Latched(): Uniforms
      reads shader
    {
      if shader == null then map[] else shader.uniforms
    }

    /** The value FindMaterial leaves in SetShaderMaterial's local for the
        tag "default", published over `s`. */
    ghost function DefaultMaterialView(s: Uniforms, indeterminate: ObjectMaterial): MaterialView
      reads this`materials
    {
      MaterialOf(PublishMaterial(s, PublishedAsWritten(materials, "default", indeterminate)))
    }

    /** Across two passes, each with its own uninitialised local (`ind1`
        for the pass that left `s'`, `ind2` for the next): when the list is
        empty or holds "default", the next pass republishes the material
        the first one left, so every pass from the second on sees the same
        material; with an empty list it is what the store held before the
        first pass. After a miss in a non-empty list, each pass publishes
        its own local, so nothing carries over. */
    lemma NextPassSameMaterial(s: Uniforms, s': Uniforms, ind1: ObjectMaterial, ind2: ObjectMaterial)
      requires MaterialOf(s') == DefaultMaterialView(s, ind1)
      ensures materials == [] || MaterialIndex(materials, "default") >= 0 ==>
        DefaultMaterialView(s', ind2) == MaterialOf(s')
      ensures materials == [] ==> MaterialOf(s') == MaterialOf(s)
      ensures materials != [] && MaterialIndex(materials, "default") == -1 ==>
        && MaterialOf(s') == MaterialView(Some(Vec3V(ind1.diffuseColor)), Some(Vec3V(ind1.specularColor)), Some(FloatV(ind1.shininess)))
        && DefaultMaterialView(s', ind2) == MaterialView(Some(Vec3V(ind2.diffuseColor)), Some(Vec3V(ind2.specularColor)), Some(FloatV(ind2.shininess)))
    {
      if materials != [] && MaterialIndex(materials, "default") >= 0 {
        AsWrittenAgreesOnHit(materials, "default", ind1);
        AsWrittenAgreesOnHit(materials, "default", ind2);
      }
    }

    /** The material uniforms after an optional SetShaderMaterial call. */
    ghost function MaterialAfter(s: Uniforms, material: Option<(string, ObjectMaterial)>): MaterialView
      reads this`materials
    {
      if material.Some? then MaterialOf(PublishMaterial(s, PublishedAsWritten(materials, material.value.0, material.value.1)))
      else MaterialOf(s)
    }

    constructor (shaderManager: ShaderManager?, gl: TextureUnits)
      ensures shader == shaderManager && units == gl
      ensures Valid() && fresh(textures)
      ensures loaded == 0 && Records() == [] && materials == [] && drawLog == []
    {
      shader := shaderManager;
      units := gl;
      textures := new TextureRecord[Capacity];
      loaded := 0;
      materials := [];
      records := [];
      drawLog := [];
    }

    /** Loads an image and registers it under `tag`. The image decoder and
        the GL name generator are inputs: `decoded` says whether the file
        could be read, `channels` is its channel count and `textureID` the
        name glGenTextures hands out. */
    method CreateGLTexture(tag: string, decoded: bool, channels: int, textureID: GLuint) returns (ok: bool)
      requires Valid()
      requires decoded && (channels == 3 || channels == 4) ==> loaded < Capacity
      modifies this`loaded, this`records, textures
      ensures Valid()
      ensures ok <==> decoded && (channels == 3 || channels == 4)
      ensures ok ==> loaded == old(loaded) + 1
      ensures ok ==> textures[..] == old(textures[..])[old(loaded) := TextureRecord(textureID, tag)]
      ensures ok ==> Records() == old(Records()) + [TextureRecord(textureID, tag)]
      ensures ok && old(SlotOf(Records(), tag)) == -1 ==> SlotOf(Records(), tag) == old(loaded)
      ensures !ok ==> loaded == old(loaded) && textures[..] == old(textures[..]) && Records() == old(Records())
    {
      if decoded {
        // 3 channels upload as RGB, 4 as RGBA; anything else is refused
        if channels != 3 && channels != 4 {
          return false;
        }
        textures[loaded] := TextureRecord(textureID, tag);
        records := records + [TextureRecord(textureID, tag)];
        loaded := loaded + 1;
        SlotAfterLoad(old(Records()), TextureRecord(textureID, tag), tag);
        return true;
      }
      return false;
    }

    /** Binds texture unit i to record i, for every record, in increasing
        unit order. */
    method BindGLTextures()
      requires Valid()
      modifies units
      ensures units.bound == old(units.bound) + UnitMap(Records())
      ensures units.trace == old(units.trace) + BindTrace(Records())
      ensures units.active == if loaded == 0 then old(units.active) else loaded - 1
    {
      for i := 0 to loaded
        invariant units.bound == old(units.bound) + UnitMap(records[..i])
        invariant units.trace == old(units.trace) + BindTrace(records[..i])
        invariant units.active == if i == 0 then old(units.active) else i - 1
      {
        BindStep(old(units.bound), old(units.trace), records, i);
        units.ActiveTexture(i);
        units.BindTexture(textures[i].id);
      }
      assert records[..loaded] == records;
    }

    /** The texture name registered first under `tag`, as an `int`, or -1. */
    method FindTextureID(tag: string) returns (textureID: int)
      requires Valid()
      ensures textureID == IdOf(Records(), tag)
      ensures (forall j :: 0 <= j < loaded ==> textures[j].tag != tag) ==> textureID == -1
      ensures forall j :: 0 <= j < loaded && textures[j].tag == tag && (forall i :: 0 <= i < j ==> textures[i].tag != tag) ==>
        textureID == AsInt32(textures[j].id)
    {
      textureID := -1;
      var index := 0;
      var found := false;
      while index < loaded && !found
        invariant 0 <= index <= loaded
        invariant forall j :: 0 <= j < index ==> textures[j].tag != tag
        invariant found ==> index < loaded && textures[index].tag == tag && textureID == AsInt32(textures[index].id)
        invariant !found ==> textureID == -1
        decreases loaded - index, if found then 0 else 1
      {
        if textures[index].tag == tag {
          textureID := AsInt32(textures[index].id);
          found := true;
        } else {
          index := index + 1;
        }
      }
    }

    /** The slot registered first under `tag`, or -1. */
    method FindTextureSlot(tag: string) returns (textureSlot: int)
      requires Valid()
      ensures textureSlot == SlotOf(Records(), tag)
      ensures -1 <= textureSlot < loaded
      ensures 0 <= textureSlot ==> textures[textureSlot].tag == tag && forall j :: 0 <= j < textureSlot ==> textures[j].tag != tag
      ensures textureSlot == -1 <==> forall j :: 0 <= j < loaded ==> textures[j].tag != tag
    {
      textureSlot := -1;
      var index := 0;
      var found := false;
      while index < loaded && !found
        invariant 0 <= index <= loaded
        invariant forall j :: 0 <= j < index ==> textures[j].tag != tag
        invariant found ==> index < loaded && textures[index].tag == tag && textureSlot == index
        invariant !found ==> textureSlot == -1
        decreases loaded - index, if found then 0 else 1
      {
        if textures[index].tag == tag {
          textureSlot := index;
          found := true;
        } else {
          index := index + 1;
        }
      }
    }

    /** Looks `tag` up in the material list. Returns false only for an empty
        list; on a match the first matching material's diffuse colour,
        specular colour and shininess are copied into `material`, on a miss
        it comes back untouched, and either way the result is true. */
    method FindMaterial(tag: string, material: ObjectMaterial) returns (found: bool, result: ObjectMaterial)
      ensures found <==> |materials| > 0
      ensures result == FoundMaterial(materials, tag, material)
      ensures (forall j :: 0 <= j < |materials| ==> materials[j].tag != tag) ==> result == material
      ensures forall j :: 0 <= j < |materials| && materials[j].tag == tag && (forall i :: 0 <= i < j ==> materials[i].tag != tag) ==>
        result == CopyValues(material, materials[j])
    {
      result := material;
      if |materials| == 0 {
        return false, result;
      }
      var index := 0;
      var hit := false;
      while index < |materials| && !hit
        invariant 0 <= index <= |materials|
        invariant forall j :: 0 <= j < index ==> materials[j].tag != tag
        invariant hit ==> index < |materials| && materials[index].tag == tag && result == CopyValues(material, materials[index])
        invariant !hit ==> result == material
        decreases |materials| - index, if hit then 0 else 1
      {
        if materials[index].tag == tag {
          hit := true;
          result := CopyValues(result, materials[index]);
        } else {
          index := index + 1;
        }
      }
      found := true;
    }

    /** Publishes the model matrix T * Rz * Ry * Rx * S. */
    method SetTransformations(scaleXYZ: Vec3, xDegrees: real, yDegrees: real, zDegrees: real, positionXYZ: Vec3)
      modifies shader
      ensures shader != null ==>
        shader.uniforms == old(shader.uniforms)[ModelName := Mat4V(ModelMatrix(scaleXYZ, xDegrees, yDegrees, zDegrees, positionXYZ))]
    {
      var model := ModelMatrix(scaleXYZ, xDegrees, yDegrees, zDegrees, positionXYZ);
      if shader != null {
        shader.Set(ModelName, Mat4V(model));
      }
    }

    /** Selects a flat colour: texturing off, the colour published. Does
        nothing without a shader. */
    method SetShaderColor(red: real, green: real, blue: real, alpha: real)
      modifies shader
      ensures shader != null ==> shader.uniforms == SurfaceEffect(old(shader.uniforms), ColorCall(Vec4(red, green, blue, alpha)), [])
      ensures shader != null ==> Shows(shader.uniforms, Colored(Vec4(red, green, blue, alpha)))
    {
      var currentColor := Vec4(red, green, blue, alpha);
      if shader != null {
        shader.Set(UseTexture, Flag(false));
        shader.Set(ObjectColor, Vec4V(currentColor));
      }
    }

    /** Selects a texture: texturing on, the sampler set to the tag's slot,
        which is -1 for an unknown tag. Does nothing without a shader. */
    method SetShaderTexture(textureTag: string)
      requires Valid()
      modifies shader
      ensures shader != null ==> shader.uniforms == SurfaceEffect(old(shader.uniforms), TextureCall(textureTag), Records())
      ensures shader != null ==> Shows(shader.uniforms, Textured(SlotOf(Records(), textureTag)))
    {
      if shader != null {
        shader.Set(UseTexture, Flag(true));
        var textureID := FindTextureSlot(textureTag);
        shader.Set(ObjectTexture, SamplerV(textureID));
      }
    }

    /** Publishes the texture UV scale. Does nothing without a shader. */
    method SetTextureUVScale(u: real, v: real)
      modifies shader
      ensures shader != null ==> shader.uniforms == old(shader.uniforms)[UVScale := Vec2V(Vec2(u, v))]
    {
      if shader != null {
        shader.Set(UVScale, Vec2V(Vec2(u, v)));
      }
    }

    /** Publishes a material's three values. Nothing happens for an empty
        list. Otherwise the shader is used without a null check, and since
        FindMaterial answers true for every non-empty list, a tag that is
        not in the list publishes the uninitialised local, `indeterminate`. */
    method SetShaderMaterial(materialTag: string, indeterminate: ObjectMaterial)
      requires |materials| > 0 ==> shader != null
      modifies shader
      ensures shader != null ==>
        shader.uniforms == PublishMaterial(old(shader.uniforms), PublishedAsWritten(materials, materialTag, indeterminate))
    {
      if |materials| > 0 {
        var material := indeterminate;
        var bReturn := false;
        bReturn, material := FindMaterial(materialTag, material);
        if bReturn {
          shader.Set(MaterialDiffuse, Vec3V(material.diffuseColor));
          shader.Set(MaterialSpecular, Vec3V(material.specularColor));
          shader.Set(MaterialShininess, FloatV(material.shininess));
        }
      }
    }

    /** A primitive draw through the mesh collaborator: recorded with the
        uniform values in effect. */
    method DrawMesh(mesh: Mesh)
      modifies this`drawLog
      ensures drawLog == old(drawLog) + [Draw(mesh, Latched())]
    {
      drawLog := drawLog + [Draw(mesh, Latched())];
    }

    /** The key-row lambda of RenderScene: for each key, a model matrix at
        the key's x, the flat grey colour, and a box. The captured locals
        are parameters. */
    method DrawKeyRow(keys: seq<string>, rowZ: real, startX: real, spacingX: real, startZ: real, keyScale: Vec3)
      modifies shader, this`drawLog
      ensures |drawLog| == old(|drawLog|) + |keys| && drawLog[..old(|drawLog|)] == old(drawLog)
      ensures forall k :: old(|drawLog|) <= k < |drawLog| ==> drawLog[k].mesh == Box
      ensures shader != null ==> RowPlaced(drawLog, old(|drawLog|), |keys|, keyScale, startX, spacingX, startZ + rowZ)
      ensures shader != null ==> Follows(drawLog, old(|drawLog|),
        KeyRowPlan(|keys|, old(Get(shader.uniforms, UseLighting)), old(Get(shader.uniforms, UVScale)), old(MaterialOf(shader.uniforms))), Records())
      ensures shader != null ==> Get(shader.uniforms, UseLighting) == old(Get(shader.uniforms, UseLighting))
      ensures shader != null ==> Get(shader.uniforms, UVScale) == old(Get(shader.uniforms, UVScale))
      ensures shader != null ==> MaterialOf(shader.uniforms) == old(MaterialOf(shader.uniforms))
      ensures shader != null ==>
        shader.uniforms == (if |keys| == 0 then old(shader.uniforms)
                            else AfterKey(old(shader.uniforms), keyScale, KeyXAsWritten(startX, spacingX, |keys|, |keys| - 1), startZ + rowZ))
    {
      ghost var b := |drawLog|;
      ghost var s0 := Latched();
      var offsetX := RowOffsetAsWritten(startX, |keys|);
      for i := 0 to |keys|
        invariant |drawLog| == b + i && drawLog[..b] == old(drawLog)
        invariant forall k :: b <= k < |drawLog| ==> drawLog[k].mesh == Box
        invariant shader != null ==> forall k :: b <= k < |drawLog| ==>
          drawLog[k] == Draw(Box, AfterKey(s0, keyScale, KeyXAsWritten(startX, spacingX, |keys|, k - b), startZ + rowZ))
        invariant shader != null ==>
          shader.uniforms == (if i == 0 then s0 else AfterKey(s0, keyScale, KeyXAsWritten(startX, spacingX, |keys|, i - 1), startZ + rowZ))
      {
        var x := offsetX + i as real * spacingX;
        ghost var prev := Latched();
        SetTransformations(keyScale, 0.0, 0.0, 0.0, Vec3(x, 0.5, startZ + rowZ));
        SetShaderColor(0.83, 0.83, 0.83, 1.0);
        if shader != null {
          KeyStep(s0, prev, keyScale, KeyXAsWritten(startX, spacingX, |keys|, i - 1), x, startZ + rowZ);
          assert x == KeyXAsWritten(startX, spacingX, |keys|, (b + i) - b);
        }
        DrawMesh(Box);
      }
      if shader != null {
        KeyRowDrawn(drawLog, b, |keys|, s0, keyScale, startX, spacingX, startZ + rowZ, Records());
        AfterKeyKeeps(s0, keyScale, KeyXAsWritten(startX, spacingX, |keys|, |keys| - 1), startZ + rowZ);
      }
    }

    /** The first half of an object block: the model matrix, the lighting
        flag when the block switches it, and a material when the block
        sets one. */
    method PlaceObject(at: Placement, lighting: Option<bool>, material: Option<(string, ObjectMaterial)>)
      requires shader != null
      modifies shader
      ensures Get(shader.uniforms, ModelName) == Some(Mat4V(PlacementMatrix(at)))
      ensures Get(shader.uniforms, UseLighting) == old(LightingAfter(shader.uniforms, lighting))
      ensures MaterialOf(shader.uniforms) == old(MaterialAfter(shader.uniforms, material))
      ensures Get(shader.uniforms, UseTexture) == old(Get(shader.uniforms, UseTexture))
      ensures Get(shader.uniforms, ObjectColor) == old(Get(shader.uniforms, ObjectColor))
      ensures Get(shader.uniforms, ObjectTexture) == old(Get(shader.uniforms, ObjectTexture))
      ensures Get(shader.uniforms, UVScale) == old(Get(shader.uniforms, UVScale))
    {
      ghost var s0 := shader.uniforms;
      ghost var pub := if material.Some? then Some(PublishedAsWritten(materials, material.value.0, material.value.1)) else None;
      SetTransformations(at.scale, at.xDegrees, at.yDegrees, at.zDegrees, at.position);
      if lighting.Some? {
        shader.Set(UseLighting, Flag(lighting.value));
      }
      if material.Some? {
        SetShaderMaterial(material.value.0, material.value.1);
      }
      assert shader.uniforms == Placed(s0, at, lighting, pub);
      PlacedFacts(s0, at, lighting, pub);
    }

    /** The second half of an object block: the flat colour or the texture,
        then the UV scale reset to (1, 1) when the block does. */
    method ShadeObject(call: SurfaceCall, resetUV: bool)
      requires Valid() && shader != null
      modifies shader
      ensures Shows(shader.uniforms, Selected(call, Records()))
      ensures Get(shader.uniforms, UVScale) == if resetUV then UnitUV else old(Get(shader.uniforms, UVScale))
      ensures Get(shader.uniforms, ModelName) == old(Get(shader.uniforms, ModelName))
      ensures Get(shader.uniforms, UseLighting) == old(Get(shader.uniforms, UseLighting))
      ensures MaterialOf(shader.uniforms) == old(MaterialOf(shader.uniforms))
      ensures call.TextureCall? ==> Get(shader.uniforms, ObjectColor) == old(Get(shader.uniforms, ObjectColor))
    {
      match call {
        case ColorCall(c) => SetShaderColor(c.r, c.g, c.b, c.a);
        case TextureCall(tag) => SetShaderTexture(tag);
      }
      if resetUV {
        SetTextureUVScale(1.0, 1.0);
      }
    }

    /** One object block of RenderScene, in the order the blocks make their
        calls: the model matrix; the lighting flag, when the block switches
        it; a material, when the block sets one; the flat colour or the
        texture; the UV scale reset to (1, 1), when the block does; the
        draw. The ghost parameters place the draw in its region: it is
        entry `k` of `plan`, whose earlier entries were drawn from index `b`
        of the log. */
    method DrawObject(at: Placement, lighting: Option<bool>, material: Option<(string, ObjectMaterial)>,
                      call: SurfaceCall, resetUV: bool, mesh: Mesh, ghost b: nat, ghost plan: seq<Expect>, ghost k: nat)
      requires Valid() && shader != null
      requires FollowsUpTo(drawLog, b, plan, k, Records()) && b + k == |drawLog| && k < |plan|
      requires plan[k] == Expect(mesh, LightingAfter(shader.uniforms, lighting), call,
                                 if resetUV then UnitUV else Get(shader.uniforms, UVScale), MaterialAfter(shader.uniforms, material))
      modifies shader, this`drawLog
      ensures Valid()
      ensures drawLog == old(drawLog) + [Draw(mesh, shader.uniforms)]
      ensures FollowsUpTo(drawLog, b, plan, k + 1, Records())
      ensures Get(shader.uniforms, ModelName) == Some(Mat4V(PlacementMatrix(at)))
      ensures Get(shader.uniforms, UseLighting) == old(LightingAfter(shader.uniforms, lighting))
      ensures MaterialOf(shader.uniforms) == old(MaterialAfter(shader.uniforms, material))
      ensures Shows(shader.uniforms, Selected(call, Records()))
      ensures Get(shader.uniforms, UVScale) == if resetUV then UnitUV else old(Get(shader.uniforms, UVScale))
      ensures call.TextureCall? ==> Get(shader.uniforms, ObjectColor) == old(Get(shader.uniforms, ObjectColor))
    {
      PlaceObject(at, lighting, material);
      ShadeObject(call, resetUV);
      ghost var log := drawLog;
      DrawMesh(mesh);
      FollowsStep(log, b, plan, k, Draw(mesh, shader.uniforms), Records());
    }

    /** #pragma region "Desk and wall": the desk switches lighting on and
        sets the "default" material, then desk and wall are textured. */
    method DrawDeskAndWall(indeterminate: ObjectMaterial)
      requires Valid() && shader != null
      modifies shader, this`drawLog
      ensures Valid()
      ensures |drawLog| == old(|drawLog|) + 2 && drawLog[..old(|drawLog|)] == old(drawLog)
      ensures Follows(drawLog, old(|drawLog|), DeskPlan(old(DefaultMaterialView(shader.uniforms, indeterminate))), Records())
      ensures Get(shader.uniforms, UseLighting) == Lit
      ensures MaterialOf(shader.uniforms) == old(DefaultMaterialView(shader.uniforms, indeterminate))
    {
      ghost var b := |drawLog|;
      ghost var plan := DeskPlan(DefaultMaterialView(shader.uniforms, indeterminate));
      DrawObject(Placement(Vec3(20.0, 1.0, 15.0), 0.0, 0.0, 0.0, Vec3(0.0, 0.0, 0.0)),
                 Some(true), Some(("default", indeterminate)), TextureCall("desk"), true, Plane, b, plan, 0);
      DrawObject(Placement(Vec3(20.0, 1.0, 15.0), 90.0, 0.0, 0.0, Vec3(0.0, 15.0, -15.0)),
                 None, None, TextureCall("wall"), true, Plane, b, plan, 1);
    }

    /** #pragma region "Cup": mug body (texture), red cavity (flat colour,
        UV scale left as it was), foam top with lighting switched off,
        handle. */
    method DrawMug()
      requires Valid() && shader != null
      modifies shader, this`drawLog
      ensures Valid()
      ensures |drawLog| == old(|drawLog|) + 4 && drawLog[..old(|drawLog|)] == old(drawLog)
      ensures Follows(drawLog, old(|drawLog|), CupPlan(old(Get(shader.uniforms, UseLighting)), old(MaterialOf(shader.uniforms))), Records())
      ensures Get(shader.uniforms, UseLighting) == Unlit
      ensures MaterialOf(shader.uniforms) == old(MaterialOf(shader.uniforms))
    {
      ghost var b := |drawLog|;
      ghost var plan := CupPlan(Get(shader.uniforms, UseLighting), MaterialOf(shader.uniforms));
      DrawObject(Placement(Vec3(1.0, 2.0, 1.0), 0.0, 0.0, 0.0, Vec3(-7.5, 0.0, 0.0)),
                 None, None, TextureCall("matteBlack"), true, Cylinder, b, plan, 0);
      DrawObject(Placement(Vec3(0.9, 1.8, 0.9), 0.0, 0.0, 0.0, Vec3(-7.5, 0.21, 0.0)),
                 None, None, ColorCall(Red), false, Cylinder, b, plan, 1);
      DrawObject(Placement(Vec3(0.8, 1.7, 0.8), 0.0, 0.0, 0.0, Vec3(-7.5, 0.32, 0.0)),
                 Some(false), None, TextureCall("foam"), true, Cylinder, b, plan, 2);
      DrawObject(Placement(Vec3(0.8, 0.8, 0.8), 0.0, 0.0, 0.0, Vec3(-8.5, 1.0, 0.0)),
                 None, None, TextureCall("matteBlack"), true, Torus, b, plan, 3);
    }

    /** #pragma region "Keyboard": the base, then the rows of 7, 9 and 10
        keys, each placed by the key-row lambda. */
    method DrawKeyboard()
      requires Valid() && shader != null
      modifies shader, this`drawLog
      ensures Valid()
      ensures |drawLog| == old(|drawLog|) + 27 && drawLog[..old(|drawLog|)] == old(drawLog)
      ensures Follows(drawLog, old(|drawLog|), KeyboardPlan(old(Get(shader.uniforms, UseLighting)), old(MaterialOf(shader.uniforms))), Records())
      ensures RowPlaced(drawLog, old(|drawLog|) + 1, 7, KeyScale, -4.5, 1.0, 4.0)
      ensures RowPlaced(drawLog, old(|drawLog|) + 8, 9, KeyScale, -4.5, 1.0, 3.0)
      ensures RowPlaced(drawLog, old(|drawLog|) + 17, 10, KeyScale, -4.5, 1.0, 2.0)
      ensures Get(shader.uniforms, UseLighting) == old(Get(shader.uniforms, UseLighting))
      ensures MaterialOf(shader.uniforms) == old(MaterialOf(shader.uniforms))
      ensures Get(shader.uniforms, ObjectColor) == Some(Vec4V(KeyGrey))
    {
      ghost var b := |drawLog|;
      ghost var log0 := drawLog;
      ghost var lighting, mat := Get(shader.uniforms, UseLighting), MaterialOf(shader.uniforms);
      DrawObject(Placement(Vec3(10.0, 0.5, 4.0), 0.0, 0.0, 0.0, Vec3(0.0, 0.25, 3.0)),
                 None, None, TextureCall("matteBlack"), true, Box, b, [Expect(Box, lighting, TextureCall("matteBlack"), UnitUV, mat)], 0);
      ghost var logB := drawLog;

      var keyScale := Vec3(0.8, 0.2, 0.8);
      var spacingX := 1.0;
      var startX := -4.5;
      var startZ := 1.0;
      var row1 := ["Q", "W", "E", "R", "T", "Y", "U", "I", "O", "P"];
      var row2 := ["A", "S", "D", "F", "G", "H", "J", "K", "L"];
      var row3 := ["Z", "X", "C", "V", "B", "N", "M"];

      DrawKeyRow(row3, 3.0, startX, spacingX, startZ, keyScale);
      ghost var log7 := drawLog;
      DrawKeyRow(row2, 2.0, startX, spacingX, startZ, keyScale);
      ghost var log9 := drawLog;
      DrawKeyRow(row1, 1.0, startX, spacingX, startZ, keyScale);
      KeyboardFromRows(log0, logB, log7, log9, drawLog, b, lighting, mat, Records());
      RowPlacedExtend(log7, drawLog, b + 1, 7, keyScale, startX, spacingX, 4.0);
      RowPlacedExtend(log9, drawLog, b + 8, 9, keyScale, startX, spacingX, 3.0);
    }

    /** #pragma region "Pyramid". */
    method DrawPyramid()
      requires Valid() && shader != null
      modifies shader, this`drawLog
      ensures Valid()
      ensures |drawLog| == old(|drawLog|) + 1 && drawLog[..old(|drawLog|)] == old(drawLog)
      ensures Follows(drawLog, old(|drawLog|), PyramidPlan(old(Get(shader.uniforms, UseLighting)), old(MaterialOf(shader.uniforms))), Records())
      ensures Get(shader.uniforms, UseLighting) == old(Get(shader.uniforms, UseLighting))
      ensures MaterialOf(shader.uniforms) == old(MaterialOf(shader.uniforms))
      ensures Get(shader.uniforms, ObjectColor) == old(Get(shader.uniforms, ObjectColor))
    {
      ghost var plan := PyramidPlan(Get(shader.uniforms, UseLighting), MaterialOf(shader.uniforms));
      DrawObject(Placement(Vec3(2.0, 5.0, 2.0), 0.0, 0.0, 0.0, Vec3(8.0, 2.5, 0.0)),
                 None, None, TextureCall("pyramid"), true, Pyramid4, |drawLog|, plan, 0);
    }

    /** #pragma region "Computer": base, stand, arm and bezel in matte black,
        then the screen, whose UV scale is left as the bezel set it. The
        store is left as the screen was drawn with it: the screen's matrix
        and texture, the (1, 1) UV scale, and the colour, lighting and
        material found on entry. */
    method DrawComputer()
      requires Valid() && shader != null
      modifies shader, this`drawLog
      ensures Valid()
      ensures |drawLog| == old(|drawLog|) + 5 && drawLog[..old(|drawLog|)] == old(drawLog)
      ensures Follows(drawLog, old(|drawLog|), ComputerPlan(old(Get(shader.uniforms, UseLighting)), old(MaterialOf(shader.uniforms))), Records())
      ensures drawLog[|drawLog| - 1] == Draw(Plane, shader.uniforms)
      ensures Get(shader.uniforms, ModelName) == Some(Mat4V(PlacementMatrix(ScreenAt)))
      ensures Shows(shader.uniforms, Textured(SlotOf(Records(), "screen")))
      ensures Get(shader.uniforms, UVScale) == UnitUV
      ensures Get(shader.uniforms, ObjectColor) == old(Get(shader.uniforms, ObjectColor))
      ensures Get(shader.uniforms, UseLighting) == old(Get(shader.uniforms, UseLighting))
      ensures MaterialOf(shader.uniforms) == old(MaterialOf(shader.uniforms))
    {
      ghost var b := |drawLog|;
      ghost var plan := ComputerPlan(Get(shader.uniforms, UseLighting), MaterialOf(shader.uniforms));
      DrawObject(Placement(Vec3(3.0, 0.5, 3.0), 0.0, 0.0, 0.0, Vec3(0.0, 0.5, -4.0)),
                 None, None, TextureCall("matteBlack"), true, Plane, b, plan, 0);
      DrawObject(Placement(Vec3(1.0, 9.0, 1.0), 0.0, 0.0, 0.0, Vec3(0.0, 5.0, -5.0)),
                 None, None, TextureCall("matteBlack"), true, Box, b, plan, 1);
      DrawObject(Placement(Vec3(1.0, 1.0, 2.0), 0.0, 0.0, 0.0, Vec3(0.0, 8.0, -4.5)),
                 None, None, TextureCall("matteBlack"), true, Box, b, plan, 2);
      DrawObject(Placement(Vec3(15.0, 10.0, 1.0), 0.0, 0.0, 0.0, Vec3(0.0, 8.0, -3.5)),
                 None, None, TextureCall("matteBlack"), true, Box, b, plan, 3);
      DrawObject(ScreenAt, None, None, TextureCall("screen"), false, Plane, b, plan, 4);
    }

    /** One frame: the five regions in order, 39 draws following the frame
        plan (FrameDraws states what each draw then sees) and the key rows
        in place. Every uniform stays latched into the next frame: the store
        left behind is the one the screen was drawn with, whose every name
        is stated here. */
    method RenderScene(indeterminate: ObjectMaterial)
      requires Valid() && shader != null
      modifies shader, this`drawLog
      ensures Valid()
      ensures |drawLog| == old(|drawLog|) + 39 && drawLog[..old(|drawLog|)] == old(drawLog)
      ensures Follows(drawLog, old(|drawLog|), FramePlan(old(DefaultMaterialView(shader.uniforms, indeterminate))), Records())
      ensures drawLog[|drawLog| - 1] == Draw(Plane, shader.uniforms)
      ensures Get(shader.uniforms, ModelName) == Some(Mat4V(PlacementMatrix(ScreenAt)))
      ensures Shows(shader.uniforms, Textured(SlotOf(Records(), "screen")))
      ensures Get(shader.uniforms, ObjectColor) == Some(Vec4V(KeyGrey))
      ensures Get(shader.uniforms, UVScale) == UnitUV
      ensures Get(shader.uniforms, UseLighting) == Unlit
      ensures MaterialOf(shader.uniforms) == old(DefaultMaterialView(shader.uniforms, indeterminate))
      ensures RowPlaced(drawLog, old(|drawLog|) + 7, 7, KeyScale, -4.5, 1.0, 4.0)
      ensures RowPlaced(drawLog, old(|drawLog|) + 14, 9, KeyScale, -4.5, 1.0, 3.0)
      ensures RowPlaced(drawLog, old(|drawLog|) + 23, 10, KeyScale, -4.5, 1.0, 2.0)
    {
      ghost var b := |drawLog|;
      ghost var log0 := drawLog;
      ghost var mat := DefaultMaterialView(shader.uniforms, indeterminate);
      ghost var recs := Records();
      DrawDeskAndWall(indeterminate);
      ghost var logD := drawLog;
      DrawMug();
      ghost var logC := drawLog;
      DrawKeyboard();
      ghost var logK := drawLog;
      DrawPyramid();
      ghost var logP := drawLog;
      DrawComputer();
      FrameFromRegions(log0, logD, logC, logK, logP, drawLog, b, recs, mat);
      RowPlacedExtend(logK, drawLog, b + 7, 7, KeyScale, -4.5, 1.0, 4.0);
      RowPlacedExtend(logK, drawLog, b + 14, 9, KeyScale, -4.5, 1.0, 3.0);
      RowPlacedExtend(logK, drawLog, b + 23, 10, KeyScale, -4.5, 1.0, 2.0);
    }
  }
}
