// JSON Merge Patch, section 2 of RFC 7396, as the API server applies it to a status.
module MergePatch {

  // A document whose field names are of type K.
  datatype Json<K(==)> =
    | Null
    | Number(n: int)
    | Text(s: string)
    | List(items: seq<Json<K>>)
    | Object(fields: map<K, Json<K>>)

  function Fields<K(==)>(j: Json<K>): map<K, Json<K>> { if j.Object? then j.fields else map[] }

  function Apply<K(==)>(target: Json<K>, patch: Json<K>): Json<K>
    decreases patch
  {
    if !patch.Object? then patch else
      var base := Fields(target);
      Object(map k | k in base.Keys + patch.fields.Keys && (k in patch.fields ==> !patch.fields[k].Null?) ::
               if k !in patch.fields then base[k]
               else Apply(if k in base then base[k] else Null, patch.fields[k]))
  }

  // No null outside arrays: nothing the patch would delete.
  ghost predicate NullFree<K(!new)>(p: Json<K>) {
    match p
    case Null => false
    case Object(fields) => forall k :: k in fields ==> NullFree(fields[k])
    case _ => true
  }

  // The patch mentions every field, at every level it merges.
  ghost predicate Covers<K(!new)>(patch: Json<K>, target: Json<K>)
    decreases patch
  {
    target.Object? && patch.Object? ==>
      && target.fields.Keys <= patch.fields.Keys
      && forall k :: k in patch.fields && k in target.fields ==> Covers(patch.fields[k], target.fields[k])
  }

  // A patch without nulls turns the target into itself exactly when it covers the target.
  lemma {:induction false} PatchIsFaithfulIff<K(!new)>(target: Json<K>, patch: Json<K>)
    requires NullFree(patch)
    ensures Apply(target, patch) == patch <==> Covers(patch, target)
    decreases patch
  {
    if patch.Object? {
      var base, result := Fields(target), Apply(target, patch).fields;
      forall k | k in patch.fields
        ensures var t := if k in base then base[k] else Null;
                result[k] == patch.fields[k] <==> Covers(patch.fields[k], t)
      {
        PatchIsFaithfulIff(if k in base then base[k] else Null, patch.fields[k]);
      }
      assert result.Keys == base.Keys + patch.fields.Keys;
      if Apply(target, patch) == patch {
        assert base.Keys <= patch.fields.Keys;
      } else if base.Keys <= patch.fields.Keys {
        var k :| k in patch.fields && result[k] != patch.fields[k];
        assert k in base;
      }
    }
  }

  // Sending the same patch again, as after a lost response, changes nothing.
  lemma {:induction false} PatchIdempotent<K(!new)>(target: Json<K>, patch: Json<K>)
    ensures Apply(Apply(target, patch), patch) == Apply(target, patch)
    decreases patch
  {
    if patch.Object? {
      var base, once := Fields(target), Apply(target, patch).fields;
      var twice := Apply(Object(once), patch).fields;
      forall k | k in patch.fields && !patch.fields[k].Null?
        ensures Apply(once[k], patch.fields[k]) == once[k]
      {
        PatchIdempotent(if k in base then base[k] else Null, patch.fields[k]);
      }
      assert twice.Keys == once.Keys;
      assert twice == once;
    }
  }
}
