/** The material list `m_objectMaterials` as values: what FindMaterial
    copies and what SetShaderMaterial hands to the shader. */
module Materials {
  import opened GlTypes
  import opened Lookup

  /** OBJECT_MATERIAL: a tag and the three values the shader receives. */
  datatype ObjectMaterial = ObjectMaterial(tag: string, diffuseColor: Vec3, specularColor: Vec3, shininess: real)

  function MaterialTags(ms: seq<ObjectMaterial>): (tags: seq<string>)
    ensures |tags| == |ms|
    ensures forall i :: 0 <= i < |ms| ==> tags[i] == ms[i].tag
  {
    seq(|ms|, i requires 0 <= i < |ms| => ms[i].tag)
  }

  /** The index of the first material carrying `tag`, or -1. */
  function MaterialIndex(ms: seq<ObjectMaterial>, tag: string): (k: int)
    ensures -1 <= k < |ms|
    ensures 0 <= k ==> ms[k].tag == tag && forall j :: 0 <= j < k ==> ms[j].tag != tag
    ensures k == -1 <==> forall j :: 0 <= j < |ms| ==> ms[j].tag != tag
  {
    var tags := MaterialTags(ms);
    var k := FirstMatch(tags, tag);
    assert forall j :: 0 <= j < |ms| ==> (tags[j] == tag <==> ms[j].tag == tag);
    k
  }

  /** FindMaterial copies the diffuse colour, the specular colour and the
      shininess of `src` into `dst`; the tag of `dst` is not copied. */
  function CopyValues(dst: ObjectMaterial, src: ObjectMaterial): (r: ObjectMaterial)
    ensures r.tag == dst.tag
    ensures Values(r) == Values(src)
  {
    dst.(diffuseColor := src.diffuseColor, specularColor := src.specularColor, shininess := src.shininess)
  }

  /** The out-parameter of FindMaterial after the call: the first match's
      values copied in, or the argument untouched on a miss. */
  function FoundMaterial(ms: seq<ObjectMaterial>, tag: string, material: ObjectMaterial): (r: ObjectMaterial)
    ensures r.tag == material.tag
    ensures MaterialIndex(ms, tag) == -1 ==> r == material
    ensures MaterialIndex(ms, tag) != -1 ==> exists j :: 0 <= j < |ms| && ms[j].tag == tag && r == CopyValues(material, ms[j])
    ensures forall j :: 0 <= j < |ms| && ms[j].tag == tag && (forall i :: 0 <= i < j ==> ms[i].tag != tag) ==>
      r == CopyValues(material, ms[j])
  {
    var k := MaterialIndex(ms, tag);
    if k >= 0 then CopyValues(material, ms[k]) else material
  }

  /** What SetShaderMaterial publishes, as written: nothing for an empty
      list; otherwise the local `material` after FindMaterial, whose value
      on a miss is the uninitialised `indeterminate`. */
  function PublishedAsWritten(ms: seq<ObjectMaterial>, tag: string, indeterminate: ObjectMaterial): (p: Option<ObjectMaterial>)
    ensures p.Some? <==> |ms| > 0
    ensures p.Some? && MaterialIndex(ms, tag) == -1 ==> p.value == indeterminate
  {
    if |ms| == 0 then None else Some(FoundMaterial(ms, tag, indeterminate))
  }

  /** What SetShaderMaterial evidently means to publish: the first material
      carrying `tag`, and nothing when no material does. */
  function PublishedIntended(ms: seq<ObjectMaterial>, tag: string): (p: Option<ObjectMaterial>)
    ensures p.Some? <==> exists j :: 0 <= j < |ms| && ms[j].tag == tag
    ensures p.Some? ==> p.value.tag == tag && p.value in ms
    ensures p.Some? ==> exists j :: 0 <= j < |ms| && ms[j] == p.value && forall i :: 0 <= i < j ==> ms[i].tag != tag
  {
    var k := MaterialIndex(ms, tag);
    if k >= 0 then
      assert ms[k] == ms[k] && forall i :: 0 <= i < k ==> ms[i].tag != tag;
      Some(ms[k])
    else None
  }

  /** The three values the shader receives from a material. */
  function Values(m: ObjectMaterial): (Vec3, Vec3, real)
  {
    (m.diffuseColor, m.specularColor, m.shininess)
  }

  /** When the tag is present, the code as written publishes the intended
      values, whatever the uninitialised local held. */
  lemma AsWrittenAgreesOnHit(ms: seq<ObjectMaterial>, tag: string, indeterminate: ObjectMaterial)
    requires exists j :: 0 <= j < |ms| && ms[j].tag == tag
    ensures PublishedAsWritten(ms, tag, indeterminate).Some?
    ensures PublishedIntended(ms, tag).Some?
    ensures Values(PublishedAsWritten(ms, tag, indeterminate).value) == Values(PublishedIntended(ms, tag).value)
  {
    var k := MaterialIndex(ms, tag);
    assert k >= 0;
  }

  /** On a miss in a non-empty list the code as written publishes the
      uninitialised local, where nothing should be published. */
  lemma AsWrittenPublishesOnMiss(ms: seq<ObjectMaterial>, tag: string, indeterminate: ObjectMaterial)
    requires |ms| > 0
    requires forall j :: 0 <= j < |ms| ==> ms[j].tag != tag
    ensures PublishedAsWritten(ms, tag, indeterminate) == Some(indeterminate)
    ensures PublishedIntended(ms, tag) == None
  {
  }

  /** The case of a single "default" material looked up as "missing". */
  lemma MissingMaterialExample(default: ObjectMaterial, indeterminate: ObjectMaterial)
    requires default.tag == "default"
    ensures PublishedAsWritten([default], "missing", indeterminate) == Some(indeterminate)
    ensures PublishedIntended([default], "missing") == None
  {
    assert "default"[0] != "missing"[0];
    AsWrittenPublishesOnMiss([default], "missing", indeterminate);
  }
}
