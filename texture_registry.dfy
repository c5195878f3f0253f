/** The texture registry as values: the records `m_textureIDs[0..m_loadedTextures)`
    and what the lookups and the binding pass compute from them. */
module TextureRegistry {
  import opened GlTypes
  import opened Lookup

  /** The number of texture slots the registry array holds. */
  const Capacity: nat := 16

  /** One registry entry: the GL texture name and the caller's tag. */
  datatype TextureRecord = TextureRecord(id: GLuint, tag: string)

  function Tags(recs: seq<TextureRecord>): (tags: seq<string>)
    ensures |tags| == |recs|
    ensures forall i :: 0 <= i < |recs| ==> tags[i] == recs[i].tag
  {
    seq(|recs|, i requires 0 <= i < |recs| => recs[i].tag)
  }

  /** The slot (insertion index) of the first record carrying `tag`, or -1. */
  function SlotOf(recs: seq<TextureRecord>, tag: string): (slot: int)
    ensures -1 <= slot < |recs|
    ensures 0 <= slot ==> recs[slot].tag == tag && forall j :: 0 <= j < slot ==> recs[j].tag != tag
    ensures slot == -1 <==> forall j :: 0 <= j < |recs| ==> recs[j].tag != tag
  {
    var tags := Tags(recs);
    var r := FirstMatch(tags, tag);
    assert forall j :: 0 <= j < |recs| ==> (tags[j] == tag <==> recs[j].tag == tag);
    r
  }

  /** The texture name of the first record carrying `tag`, converted to a
      C++ `int`, or -1. */
  function IdOf(recs: seq<TextureRecord>, tag: string): (r: int)
    ensures (forall j :: 0 <= j < |recs| ==> recs[j].tag != tag) ==> r == -1
    ensures forall k :: 0 <= k < |recs| && recs[k].tag == tag && (forall j :: 0 <= j < k ==> recs[j].tag != tag) ==>
      r == AsInt32(recs[k].id)
  {
    var slot := SlotOf(recs, tag);
    if slot >= 0 then AsInt32(recs[slot].id) else -1
  }

  /** Texture unit `i` holds record `i`'s name. */
  function UnitMap(recs: seq<TextureRecord>): (m: map<int, GLuint>)
    ensures forall i :: i in m <==> 0 <= i < |recs|
    ensures forall i :: 0 <= i < |recs| ==> m[i] == recs[i].id
  {
    map i | 0 <= i < |recs| :: recs[i].id
  }

  /** The bindings made by one binding pass, in increasing unit order. */
  function BindTrace(recs: seq<TextureRecord>): (t: seq<(int, GLuint)>)
    ensures |t| == |recs|
    ensures forall i :: 0 <= i < |recs| ==> t[i] == (i, recs[i].id)
  {
    seq(|recs|, i requires 0 <= i < |recs| => (i, recs[i].id))
  }

  /** One step of the binding pass: binding unit `i` to record `i` over the
      state left by units 0..i-1 gives the state left by units 0..i. */
  lemma BindStep(bound: map<int, GLuint>, trace: seq<(int, GLuint)>, recs: seq<TextureRecord>, i: nat)
    requires i < |recs|
    ensures (bound + UnitMap(recs[..i]))[i := recs[i].id] == bound + UnitMap(recs[..i + 1])
    ensures (trace + BindTrace(recs[..i])) + [(i, recs[i].id)] == trace + BindTrace(recs[..i + 1])
  {
    assert BindTrace(recs[..i + 1]) == BindTrace(recs[..i]) + [(i, recs[i].id)];
  }

  /** A successful load appends one record: a tag loaded before keeps its
      slot, a tag loaded for the first time gets the new slot `|recs|`. */
  lemma SlotAfterLoad(recs: seq<TextureRecord>, r: TextureRecord, tag: string)
    ensures SlotOf(recs + [r], tag) ==
      if SlotOf(recs, tag) >= 0 then SlotOf(recs, tag)
      else if r.tag == tag then |recs|
      else -1
  {
    assert Tags(recs + [r]) == Tags(recs) + [r.tag];
    FirstMatchAppend(Tags(recs), r.tag, tag);
  }

  /** Slot identity: when the k-th successful load used a tag no other
      load used, that tag is found at slot k. */
  lemma LoadOrderIsSlotOrder(recs: seq<TextureRecord>, k: int)
    requires forall i, j :: 0 <= i < j < |recs| ==> recs[i].tag != recs[j].tag
    requires 0 <= k < |recs|
    ensures SlotOf(recs, recs[k].tag) == k
    ensures IdOf(recs, recs[k].tag) == AsInt32(recs[k].id)
  {
    DistinctTagsFound(Tags(recs), k);
  }

  /** A tag whose first letter no earlier record's tag starts with is
      found at its own slot. */
  lemma FoundByFirstLetter(recs: seq<TextureRecord>, k: nat)
    requires k < |recs| && |recs[k].tag| > 0
    requires forall j :: 0 <= j < k ==> |recs[j].tag| > 0 && recs[j].tag[0] != recs[k].tag[0]
    ensures SlotOf(recs, recs[k].tag) == k
  {
  }

  /** The six loads the scene prepares, when each one succeeds, give the
      slots 0..5 in load order, whatever names GL handed out. */
  lemma PreparedSceneSlots(recs: seq<TextureRecord>)
    requires |recs| == 6
    requires recs[0].tag == "desk" && recs[1].tag == "wall" && recs[2].tag == "matteBlack"
    requires recs[3].tag == "foam" && recs[4].tag == "pyramid" && recs[5].tag == "screen"
    ensures SlotOf(recs, "desk") == 0 && SlotOf(recs, "wall") == 1
    ensures SlotOf(recs, "matteBlack") == 2 && SlotOf(recs, "foam") == 3
    ensures SlotOf(recs, "pyramid") == 4 && SlotOf(recs, "screen") == 5
  {
    // the six tags already differ in their first letter
    var first := "dwmfps";
    assert forall j :: 0 <= j < 6 ==> |recs[j].tag| > 0 && recs[j].tag[0] == first[j];
    forall k | 0 <= k < 6 ensures SlotOf(recs, recs[k].tag) == k {
      FoundByFirstLetter(recs, k);
    }
  }

  /** Any other tag is not found among the prepared records. */
  lemma UnpreparedTagMissing(recs: seq<TextureRecord>, other: string)
    requires |recs| == 6
    requires recs[0].tag == "desk" && recs[1].tag == "wall" && recs[2].tag == "matteBlack"
    requires recs[3].tag == "foam" && recs[4].tag == "pyramid" && recs[5].tag == "screen"
    requires other !in ["desk", "wall", "matteBlack", "foam", "pyramid", "screen"]
    ensures SlotOf(recs, other) == -1
  {
    assert forall j :: 0 <= j < 6 ==> recs[j].tag != other;
  }

  /** Binding the same records twice leaves the same unit-to-texture map as
      binding them once. */
  lemma BindTwiceSameUnits(units: map<int, GLuint>, recs: seq<TextureRecord>)
    ensures (units + UnitMap(recs)) + UnitMap(recs) == units + UnitMap(recs)
  {
  }
}
