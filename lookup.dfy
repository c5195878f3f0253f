/** The first-match linear scan shared by the texture and material
    registries: entries are compared by tag in insertion order and the
    scan stops at the first equal tag. */
module Lookup {

  /** The index of the first entry of `tags` equal to `tag`, or the
      sentinel -1 when no entry is. */
  function FirstMatch(tags: seq<string>, tag: string): (r: int)
    ensures -1 <= r < |tags|
    ensures 0 <= r ==> tags[r] == tag && forall j :: 0 <= j < r ==> tags[j] != tag
    ensures r == -1 <==> forall j :: 0 <= j < |tags| ==> tags[j] != tag
  {
    if |tags| == 0 then -1
    else if tags[0] == tag then 0
    else
      var rest := FirstMatch(tags[1..], tag);
      if rest == -1 then -1 else rest + 1
  }

  /** Appending an entry never moves an existing first match; a tag seen for
      the first time is found at the new entry; any other tag stays missing. */
  lemma {:induction false} FirstMatchAppend(tags: seq<string>, t: string, tag: string)
    ensures FirstMatch(tags + [t], tag) ==
      if FirstMatch(tags, tag) >= 0 then FirstMatch(tags, tag)
      else if t == tag then |tags|
      else -1
  {
    var ext := tags + [t];
    var r, r' := FirstMatch(tags, tag), FirstMatch(ext, tag);
    assert forall j :: 0 <= j < |tags| ==> ext[j] == tags[j];
    if r >= 0 {
      assert ext[r] == tag;
    } else if t == tag {
      assert ext[|tags|] == tag;
    }
  }

  /** When all tags are distinct, each is found at its own index. */
  lemma DistinctTagsFound(tags: seq<string>, k: int)
    requires forall i, j :: 0 <= i < j < |tags| ==> tags[i] != tags[j]
    requires 0 <= k < |tags|
    ensures FirstMatch(tags, tags[k]) == k
  {
    var r := FirstMatch(tags, tags[k]);
    assert r != -1 by { assert tags[k] == tags[k]; }
  }

  /** With duplicates, a tag resolves to its earliest occurrence. */
  lemma DuplicateResolvesToFirst(tags: seq<string>, i: int, j: int)
    requires 0 <= i < j < |tags| && tags[i] == tags[j]
    ensures FirstMatch(tags, tags[j]) <= i
  {
    var r := FirstMatch(tags, tags[j]);
    assert r != -1 by { assert tags[i] == tags[j]; }
  }
}
