/** JSON documents, merge patches (section 2 of RFC 7396) and the part of the JSON grammar the patches use. */
module Json {
  import opened Wrappers

  datatype Json =
    | Null
    | Bool(b: bool)
    | Num(n: int)
    | Str(s: string)
    | Arr(items: seq<Json>)
    | Obj(fields: map<string, Json>)

  // -------------------------------------------------------------- merge patch

  function FieldsOf(j: Json): map<string, Json> {
    if j.Obj? then j.fields else map[]
  }

  function FieldOr(m: map<string, Json>, k: string): Json {
    if k in m then m[k] else Null
  }

  /** The MergePatch algorithm: null removes a member, an object is merged, anything else replaces. */
  function MergePatch(target: Json, patch: Json): Json
    decreases patch
  {
    if !patch.Obj? then patch
    else
      var base := FieldsOf(target);
      Obj(map k | k in base.Keys + patch.fields.Keys && !(k in patch.fields && patch.fields[k].Null?) ::
        if k in patch.fields then MergePatch(FieldOr(base, k), patch.fields[k]) else base[k])
  }

  function Child(j: Json, name: string): Json {
    FieldOr(FieldsOf(j), name)
  }

  function Single(key: string, value: Json): Json {
    Obj(map[key := value])
  }

  lemma ChildOfMerge(j: Json, patch: Json, k: string)
    requires patch.Obj?
    ensures Child(MergePatch(j, patch), k) ==
      if k !in patch.fields then Child(j, k)
      else if patch.fields[k].Null? then Null
      else MergePatch(Child(j, k), patch.fields[k])
  {}

  /** Applying a patch twice is applying it once, so a patch whose reply was lost can be sent again. */
  lemma {:induction false} MergePatchIdempotent(target: Json, patch: Json)
    ensures MergePatch(MergePatch(target, patch), patch) == MergePatch(target, patch)
    decreases patch
  {
    if patch.Obj? {
      var once := MergePatch(target, patch);
      var twice := MergePatch(once, patch);
      forall k | k in patch.fields && !patch.fields[k].Null?
        ensures k in twice.fields && k in once.fields && twice.fields[k] == once.fields[k]
      {
        MergePatchIdempotent(FieldOr(FieldsOf(target), k), patch.fields[k]);
      }
      assert twice.fields.Keys == once.fields.Keys;
      assert twice.fields == once.fields;
    }
  }

  /** The member at the end of a path of names, if there is one. */
  function At(j: Json, path: seq<string>): Option<Json>
    decreases |path|
  {
    if path == [] then Some(j)
    else if path[0] in FieldsOf(j) then At(FieldsOf(j)[path[0]], path[1..])
    else None
  }

  /** The patch says nothing about the member at this path: it leaves the path before the path ends. */
  predicate Untouched(patch: Json, path: seq<string>)
    decreases |path|
  {
    && patch.Obj?
    && path != []
    && (path[0] in patch.fields ==> Untouched(patch.fields[path[0]], path[1..]))
  }

  /** Framing: a member a patch does not mention keeps its value, wherever it lies. */
  lemma {:induction false} MergePatchFrame(target: Json, patch: Json, path: seq<string>)
    requires Untouched(patch, path)
    ensures At(MergePatch(target, patch), path) == At(target, path)
    decreases |path|
  {
    var k := path[0];
    if k in patch.fields {
      MergePatchFrame(FieldOr(FieldsOf(target), k), patch.fields[k], path[1..]);
      assert At(Null, path[1..]) == None;
    }
  }
}
