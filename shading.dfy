/** The shader collaborator as the core sees it: a store of latched uniform
    values that persist across draws, and a record of the draws issued
    with the values in effect at each one. */
module Shading {
  import opened GlTypes
  import opened TextureRegistry
  import opened Materials

  /** The uniform names the core publishes. */
  datatype Name =
    | ModelName          // "model"
    | ObjectColor        // "objectColor"
    | ObjectTexture      // "objectTexture"
    | UseTexture         // "bUseTexture"
    | UseLighting        // "bUseLighting"
    | UVScale            // "UVscale"
    | MaterialDiffuse    // "material.diffuseColor"
    | MaterialSpecular   // "material.specularColor"
    | MaterialShininess  // "material.shininess"

  /** A uniform value, by the setter that published it. Boolean flags go
      through the int setter and arrive as 0 or 1. */
  datatype Uniform =
    | IntV(i: int)
    | FloatV(f: real)
    | Vec2V(v2: Vec2)
    | Vec3V(v3: Vec3)
    | Vec4V(v4: Vec4)
    | Mat4V(m: Mat)
    | SamplerV(slot: int)

  type Uniforms = map<Name, Uniform>

  function Flag(b: bool): Uniform
  {
    IntV(if b then 1 else 0)
  }

  function Get(s: Uniforms, n: Name): Option<Uniform>
  {
    if n in s then Some(s[n]) else None
  }

  /** The shader program object: every setter overwrites one latched value. */
  class ShaderManager {
    ghost var uniforms: Uniforms

    method Set(name: Name, value: Uniform)
      modifies this
      ensures uniforms == old(uniforms)[name := value]
    {
      uniforms := uniforms[name := value];
    }
  }

  /** One draw call: the primitive and the uniform values in effect. */
  datatype Draw = Draw(mesh: Mesh, state: Uniforms)

  /** The store after a material's three values are published, or unchanged
      when nothing is published. */
  function PublishMaterial(s: Uniforms, p: Option<ObjectMaterial>): (s': Uniforms)
    ensures p.None? ==> s' == s
    ensures p.Some? ==>
      && Get(s', MaterialDiffuse) == Some(Vec3V(p.value.diffuseColor))
      && Get(s', MaterialSpecular) == Some(Vec3V(p.value.specularColor))
      && Get(s', MaterialShininess) == Some(FloatV(p.value.shininess))
    ensures forall n :: n !in {MaterialDiffuse, MaterialSpecular, MaterialShininess} ==> Get(s', n) == Get(s, n)
  {
    match p
    case None => s
    case Some(m) =>
      s[MaterialDiffuse := Vec3V(m.diffuseColor)][MaterialSpecular := Vec3V(m.specularColor)][MaterialShininess := FloatV(m.shininess)]
  }

  /** The surface a draw shows: a texture slot, or a flat colour. */
  datatype Surface = Textured(slot: int) | Colored(color: Vec4)

  predicate Shows(s: Uniforms, surface: Surface)
  {
    match surface
    case Textured(slot) => Get(s, UseTexture) == Some(Flag(true)) && Get(s, ObjectTexture) == Some(SamplerV(slot))
    case Colored(c) => Get(s, UseTexture) == Some(Flag(false)) && Get(s, ObjectColor) == Some(Vec4V(c))
  }

  /** The three material uniforms, as far as they have been published. */
  datatype MaterialView = MaterialView(diffuse: Option<Uniform>, specular: Option<Uniform>, shininess: Option<Uniform>)

  function MaterialOf(s: Uniforms): MaterialView
  {
    MaterialView(Get(s, MaterialDiffuse), Get(s, MaterialSpecular), Get(s, MaterialShininess))
  }

  /** The shading state a draw is expected to see: the surface is given by
      the call that selects it. */
  datatype Expect = Expect(mesh: Mesh, lighting: Option<Uniform>, call: SurfaceCall, uvScale: Option<Uniform>, material: MaterialView)

  /** Draw `d` sees what `e` expects, texture tags resolved against the
      registry records `recs`. */
  predicate Matches(d: Draw, e: Expect, recs: seq<TextureRecord>)
  {
    && d.mesh == e.mesh
    && Get(d.state, UseLighting) == e.lighting
    && Shows(d.state, Selected(e.call, recs))
    && Get(d.state, UVScale) == e.uvScale
    && MaterialOf(d.state) == e.material
  }

  /** The draws of `log` from index `b` on see what the first `k` entries
      of `plan` expect, one by one. */
  predicate FollowsUpTo(log: seq<Draw>, b: nat, plan: seq<Expect>, k: nat, recs: seq<TextureRecord>)
  {
    k <= |plan| && b + k <= |log| && forall i :: 0 <= i < k ==> Matches(log[b + i], plan[i], recs)
  }

  /** The draws of `log` from index `b` on see what `plan` expects, one by one. */
  predicate Follows(log: seq<Draw>, b: nat, plan: seq<Expect>, recs: seq<TextureRecord>)
  {
    FollowsUpTo(log, b, plan, |plan|, recs)
  }

  /** Later draws do not disturb what earlier draws saw. */
  lemma FollowsExtend(log: seq<Draw>, log': seq<Draw>, b: nat, plan: seq<Expect>, k: nat, recs: seq<TextureRecord>)
    requires FollowsUpTo(log, b, plan, k, recs)
    requires |log| <= |log'| && log'[..|log|] == log
    ensures FollowsUpTo(log', b, plan, k, recs)
  {
    forall i | 0 <= i < k ensures Matches(log'[b + i], plan[i], recs) {
      assert log'[b + i] == log[b + i];
    }
  }

  /** Draws that follow `part` right after the first `k` entries of `plan`,
      where `plan` continues with `part`, extend the prefix by `|part|`. */
  lemma FollowsSplice(log: seq<Draw>, b: nat, plan: seq<Expect>, k: nat, part: seq<Expect>, recs: seq<TextureRecord>)
    requires FollowsUpTo(log, b, plan, k, recs) && Follows(log, b + k, part, recs)
    requires k + |part| <= |plan| && forall i :: 0 <= i < |part| ==> plan[k + i] == part[i]
    ensures FollowsUpTo(log, b, plan, k + |part|, recs)
  {
    forall i | 0 <= i < k + |part| ensures Matches(log[b + i], plan[i], recs) {
      if i >= k {
        assert log[b + i] == log[(b + k) + (i - k)];
        assert plan[i] == part[i - k];
      }
    }
  }

  /** One more draw that sees what the next entry of the plan expects. */
  lemma FollowsStep(log: seq<Draw>, b: nat, plan: seq<Expect>, k: nat, d: Draw, recs: seq<TextureRecord>)
    requires FollowsUpTo(log, b, plan, k, recs) && b + k == |log| && k < |plan| && Matches(d, plan[k], recs)
    ensures FollowsUpTo(log + [d], b, plan, k + 1, recs)
  {
    forall i | 0 <= i < k + 1 ensures Matches((log + [d])[b + i], plan[i], recs) {
      if i < k {
        assert (log + [d])[b + i] == log[b + i];
      }
    }
  }

  /** Publishing the same material over two stores that agree on the
      material uniforms leaves them agreeing. */
  lemma PublishKeepsAgreement(s: Uniforms, s': Uniforms, p: Option<ObjectMaterial>)
    requires MaterialOf(s) == MaterialOf(s')
    ensures MaterialOf(PublishMaterial(s, p)) == MaterialOf(PublishMaterial(s', p))
  {
  }

  /** When some material carries `tag`, the three values the shader holds
      after the call as written are those of the first such material,
      whatever the uninitialised local held. */
  lemma PublishedOnHit(s: Uniforms, ms: seq<ObjectMaterial>, tag: string, indeterminate: ObjectMaterial)
    requires exists j :: 0 <= j < |ms| && ms[j].tag == tag
    ensures MaterialOf(PublishMaterial(s, PublishedAsWritten(ms, tag, indeterminate)))
         == MaterialOf(PublishMaterial(s, PublishedIntended(ms, tag)))
    ensures var m := ms[MaterialIndex(ms, tag)];
      MaterialOf(PublishMaterial(s, PublishedIntended(ms, tag)))
        == MaterialView(Some(Vec3V(m.diffuseColor)), Some(Vec3V(m.specularColor)), Some(FloatV(m.shininess)))
  {
    AsWrittenAgreesOnHit(ms, tag, indeterminate);
  }

  /** What `Follows` means draw by draw, indexed by log position. */
  lemma FollowsAt(log: seq<Draw>, b: nat, plan: seq<Expect>, recs: seq<TextureRecord>)
    requires Follows(log, b, plan, recs)
    ensures b + |plan| <= |log|
    ensures forall k :: b <= k < b + |plan| ==> Matches(log[k], plan[k - b], recs)
  {
    forall k | b <= k < b + |plan| ensures Matches(log[k], plan[k - b], recs) {
      assert log[k] == log[b + (k - b)];
    }
  }

  /** Two plans drawn back to back follow their concatenation. */
  lemma FollowsConcat(log: seq<Draw>, b: nat, p: seq<Expect>, q: seq<Expect>, recs: seq<TextureRecord>)
    requires Follows(log, b, p, recs) && Follows(log, b + |p|, q, recs)
    ensures Follows(log, b, p + q, recs)
  {
    forall i | 0 <= i < |p + q| ensures Matches(log[b + i], (p + q)[i], recs) {
      if i >= |p| {
        assert log[b + i] == log[(b + |p|) + (i - |p|)];
        assert (p + q)[i] == q[i - |p|];
      }
    }
  }

  /** A log that follows `p` from `b`, extended by draws that follow `q`,
      follows `p + q`. */
  lemma FollowsAppend(log0: seq<Draw>, log: seq<Draw>, b: nat, p: seq<Expect>, q: seq<Expect>, recs: seq<TextureRecord>)
    requires Follows(log0, b, p, recs) && |log0| == b + |p| && |log0| <= |log| && log[..|log0|] == log0
    requires Follows(log, b + |p|, q, recs)
    ensures Follows(log, b, p + q, recs)
  {
    FollowsExtend(log0, log, b, p, |p|, recs);
    FollowsConcat(log, b, p, q, recs);
  }

  /** A call that chooses how the next draw is coloured. */
  datatype SurfaceCall = ColorCall(color: Vec4) | TextureCall(tag: string)

  /** The effect of SetShaderColor / SetShaderTexture on the store, with
      the texture tag resolved against the registry records `recs`. */
  function SurfaceEffect(s: Uniforms, call: SurfaceCall, recs: seq<TextureRecord>): (s': Uniforms)
    ensures forall n :: n !in {UseTexture, ObjectColor, ObjectTexture} ==> Get(s', n) == Get(s, n)
  {
    match call
    case ColorCall(c) => s[UseTexture := Flag(false)][ObjectColor := Vec4V(c)]
    case TextureCall(tag) => s[UseTexture := Flag(true)][ObjectTexture := SamplerV(SlotOf(recs, tag))]
  }

  /** The store after a sequence of such calls, in order. */
  function ApplySurface(s: Uniforms, calls: seq<SurfaceCall>, recs: seq<TextureRecord>): Uniforms
    decreases |calls|
  {
    if calls == [] then s else ApplySurface(SurfaceEffect(s, calls[0], recs), calls[1..], recs)
  }

  /** The surface a call selects. */
  function Selected(call: SurfaceCall, recs: seq<TextureRecord>): Surface
  {
    match call
    case ColorCall(c) => Colored(c)
    case TextureCall(tag) => Textured(SlotOf(recs, tag))
  }

  /** Colour and texture are mutually exclusive and the last call wins:
      after any non-empty sequence of calls the store shows exactly what the
      last call selected (flag and value), and nothing else was touched. */
  lemma {:induction false} LastCallWins(s: Uniforms, calls: seq<SurfaceCall>, recs: seq<TextureRecord>)
    requires calls != []
    ensures Shows(ApplySurface(s, calls, recs), Selected(calls[|calls| - 1], recs))
    ensures Get(ApplySurface(s, calls, recs), UseTexture) == Some(Flag(calls[|calls| - 1].TextureCall?))
    ensures forall n :: n !in {UseTexture, ObjectColor, ObjectTexture} ==> Get(ApplySurface(s, calls, recs), n) == Get(s, n)
    decreases |calls|
  {
    var s1 := SurfaceEffect(s, calls[0], recs);
    if |calls| == 1 {
      assert ApplySurface(s, calls, recs) == ApplySurface(s1, [], recs) == s1;
    } else {
      LastCallWins(s1, calls[1..], recs);
      assert calls[1..][|calls[1..]| - 1] == calls[|calls| - 1];
    }
  }

  /** Texture, then colour: the flat colour is in effect afterwards. */
  lemma TextureThenColor(s: Uniforms, tag: string, recs: seq<TextureRecord>)
    ensures var s' := ApplySurface(s, [TextureCall(tag), ColorCall(Vec4(1.0, 0.0, 0.0, 1.0))], recs);
      Get(s', UseTexture) == Some(IntV(0)) && Get(s', ObjectColor) == Some(Vec4V(Vec4(1.0, 0.0, 0.0, 1.0)))
  {
    LastCallWins(s, [TextureCall(tag), ColorCall(Vec4(1.0, 0.0, 0.0, 1.0))], recs);
  }
}
