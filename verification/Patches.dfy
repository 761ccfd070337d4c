/**
 The patches as documents and as the text that is sent: applying the text to a stored JSON object, by
 RFC 7396, is what the cluster model calls applying the patch, and touches nothing else.
 */
module Patches {
  import opened Wrappers
  import opened Json
  import opened JsonText
  import opened Cluster

  const POLICY := "persistentVolumeReclaimPolicy"

  // ------------------------------------------------------------ reading objects

  function StringAt(j: Json, name: string): string {
    if name in FieldsOf(j) && FieldsOf(j)[name].Str? then FieldsOf(j)[name].s else ""
  }

  function RefIn(j: Json): Option<ClaimRef> {
    if !j.Obj? then None
    else Some(ClaimRef(StringAt(j, "apiVersion"), StringAt(j, "kind"), StringAt(j, "namespace"),
                       StringAt(j, "name"), StringAt(j, "uid"), StringAt(j, "resourceVersion")))
  }

  /** What the model keeps of a stored volume. */
  function VolumeIn(j: Json): Volume {
    Volume(StringAt(Child(j, "spec"), POLICY), RefIn(Child(Child(j, "spec"), "claimRef")))
  }

  function NamesIn(j: Json): seq<string> {
    if j.Arr? then seq(|j.items|, i requires 0 <= i < |j.items| => if j.items[i].Str? then j.items[i].s else "")
    else []
  }

  function StringsIn(j: Json): map<string, string> {
    map k | k in FieldsOf(j) && FieldsOf(j)[k].Str? :: FieldsOf(j)[k].s
  }

  /** The members of a stored claim that patches reach. */
  datatype ClaimView = ClaimView(finalizers: seq<string>, annotations: map<string, string>, volumeName: string)

  function ClaimIn(j: Json): ClaimView {
    var metadata := Child(j, "metadata");
    ClaimView(NamesIn(Child(metadata, "finalizers")), StringsIn(Child(metadata, "annotations")),
              StringAt(Child(j, "spec"), "volumeName"))
  }

  function ViewOf(c: Claim): ClaimView {
    ClaimView(c.finalizers, c.annotations, c.volumeName)
  }

  // ------------------------------------------------------------------- layouts

  const T4 := "\n\t\t\t\t"
  const T5 := "\n\t\t\t\t\t"
  const T6 := "\n\t\t\t\t\t\t"

  function One(key: string, gap: string, value: Layout): Layout {
    ObjectText([Member("", key, gap, value)], "")
  }

  function RefLayout(p: VolumePatch): Layout
    requires p.Restore?
  {
    ObjectText([
      Member(T6, "apiVersion", "", StringText(p.apiVersion)),
      Member(T6, "kind", "", StringText(p.kind)),
      Member(T6, "name", "", StringText(p.name)),
      Member(T6, "namespace", "", StringText(p.namespace)),
      Member(T6, "uid", "", StringText(p.uid))], T5)
  }

  function VolumeLayout(p: VolumePatch): Layout {
    match p
    case SetPolicy(policy) => One("spec", "", One(POLICY, "", StringText(policy)))
    case ClearClaimRef => One("spec", "", One("claimRef", "", NullText))
    case Restore(policy, _, _, _, _, _) =>
      ObjectText([Member(T4, "spec", T4, ObjectText([
        Member(T5, POLICY, "", StringText(policy)),
        Member(T5, "claimRef", T5, RefLayout(p))], T4))], "\n\t\t\t")
  }

  function FinalizersLayout(names: seq<string>): Layout {
    if names == [] then One("metadata", "", One("finalizers", "", NullText))
    else One("metadata", " ", One("finalizers", " ", ListText(names)))
  }

  predicate PlainVolumePatch(p: VolumePatch) {
    match p
    case SetPolicy(policy) => Plain(policy)
    case ClearClaimRef => true
    case Restore(policy, apiVersion, kind, namespace, name, uid) =>
      Plain(policy) && Plain(apiVersion) && Plain(kind) && Plain(namespace) && Plain(name) && Plain(uid)
  }

  // ----------------------------------------------------------------- documents

  function RefDoc(p: VolumePatch): Json
    requires p.Restore?
  {
    Obj(map["apiVersion" := Str(p.apiVersion), "kind" := Str(p.kind), "name" := Str(p.name),
            "namespace" := Str(p.namespace), "uid" := Str(p.uid)])
  }

  function VolumeDoc(p: VolumePatch): Json {
    match p
    case SetPolicy(policy) => Single("spec", Single(POLICY, Str(policy)))
    case ClearClaimRef => Single("spec", Single("claimRef", Null))
    case Restore(policy, _, _, _, _, _) =>
      Single("spec", Obj(map[POLICY := Str(policy), "claimRef" := RefDoc(p)]))
  }

  function FinalizersDoc(names: seq<string>): Json {
    Single("metadata", Single("finalizers", if names == [] then Null else Arr(Strings(names))))
  }

  /** The marshalled claim of bondPVC, reduced to the members it sets. */
  function BondDoc(annotations: map<string, string>, volumeName: string): Json {
    Obj(map["metadata" := Single("annotations", Obj(map k | k in annotations :: Str(annotations[k]))),
            "spec" := Single("volumeName", Str(volumeName))])
  }

  lemma OneIsClean(key: string, gap: string, value: Layout)
    requires Plain(key) && Space(gap) && Clean(value)
    ensures Clean(One(key, gap, value)) && Meaning(One(key, gap, value)) == Single(key, Meaning(value))
  {
    var m := Member("", key, gap, value);
    assert [m][1..] == [];
    assert MeaningOfMembers([m], map[]) == MeaningOfMembers([m][1..], map[key := Meaning(value)]);
  }

  lemma CleanCons(m: Member, rest: seq<Member>, fields: map<string, Json>)
    requires Space(m.lead) && Plain(m.key) && Space(m.gap) && Clean(m.value) && CleanMembers(rest)
    ensures CleanMembers([m] + rest)
    ensures MeaningOfMembers([m] + rest, fields) == MeaningOfMembers(rest, fields[m.key := Meaning(m.value)])
  {
    assert ([m] + rest)[1..] == rest;
  }

  lemma TwoMembers(m1: Member, m2: Member)
    requires Space(m1.lead) && Plain(m1.key) && Space(m1.gap) && Clean(m1.value)
    requires Space(m2.lead) && Plain(m2.key) && Space(m2.gap) && Clean(m2.value)
    ensures CleanMembers([m1, m2])
    ensures MeaningOfMembers([m1, m2], map[]) == map[m1.key := Meaning(m1.value), m2.key := Meaning(m2.value)]
  {
    var f1 := map[m1.key := Meaning(m1.value)];
    CleanCons(m2, [], f1);
    CleanCons(m1, [m2], map[]);
    assert [m1] + [m2] == [m1, m2] && [m2] + [] == [m2];
  }

  /** A member of the claim reference: one string on a line of its own. */
  function RefMember(key: string, value: string): Member {
    Member(T6, key, "", StringText(value))
  }

  lemma RefMembers(k: seq<string>, v: seq<string>, fields: map<string, Json>)
    requires |k| == |v| == 5 && forall i :: 0 <= i < 5 ==> Plain(k[i]) && Plain(v[i])
    requires Space(T6)
    ensures var ms := [RefMember(k[0], v[0]), RefMember(k[1], v[1]), RefMember(k[2], v[2]), RefMember(k[3], v[3]),
                       RefMember(k[4], v[4])];
      CleanMembers(ms) && MeaningOfMembers(ms, fields)
        == fields[k[0] := Str(v[0])][k[1] := Str(v[1])][k[2] := Str(v[2])][k[3] := Str(v[3])][k[4] := Str(v[4])]
  {
    var m0, m1, m2, m3, m4 := RefMember(k[0], v[0]), RefMember(k[1], v[1]), RefMember(k[2], v[2]),
      RefMember(k[3], v[3]), RefMember(k[4], v[4]);
    var f1 := fields[k[0] := Str(v[0])];
    var f2 := f1[k[1] := Str(v[1])];
    var f3 := f2[k[2] := Str(v[2])];
    var f4 := f3[k[3] := Str(v[3])];
    CleanCons(m4, [], f4);
    CleanCons(m3, [m4], f3);
    CleanCons(m2, [m3, m4], f2);
    CleanCons(m1, [m2, m3, m4], f1);
    CleanCons(m0, [m1, m2, m3, m4], fields);
    assert [m4] + [] == [m4] && [m3] + [m4] == [m3, m4] && [m2] + [m3, m4] == [m2, m3, m4];
    assert [m1] + [m2, m3, m4] == [m1, m2, m3, m4] && [m0] + [m1, m2, m3, m4] == [m0, m1, m2, m3, m4];
  }

  lemma RefLayoutIsClean(p: VolumePatch)
    requires p.Restore? && PlainVolumePatch(p)
    ensures Clean(RefLayout(p)) && Meaning(RefLayout(p)) == RefDoc(p)
  {
    RefMembers(["apiVersion", "kind", "name", "namespace", "uid"],
               [p.apiVersion, p.kind, p.name, p.namespace, p.uid], map[]);
  }

  lemma VolumeLayoutIsClean(p: VolumePatch)
    requires PlainVolumePatch(p)
    ensures Clean(VolumeLayout(p)) && Meaning(VolumeLayout(p)) == VolumeDoc(p)
  {
    match p
    case SetPolicy(policy) =>
      OneIsClean(POLICY, "", StringText(policy));
      OneIsClean("spec", "", One(POLICY, "", StringText(policy)));
    case ClearClaimRef =>
      OneIsClean("claimRef", "", NullText);
      OneIsClean("spec", "", One("claimRef", "", NullText));
    case Restore(_, _, _, _, _, _) => RestoreLayoutIsClean(p);
  }

  lemma TemplateSpace()
    ensures Space(T4) && Space(T5) && Space("\n\t\t\t") && Space("")
    ensures Plain(POLICY) && Plain("claimRef") && Plain("spec")
  {}

  lemma RestoreLayoutIsClean(p: VolumePatch)
    requires p.Restore? && PlainVolumePatch(p)
    ensures Clean(VolumeLayout(p)) && Meaning(VolumeLayout(p)) == VolumeDoc(p)
  {
    TemplateSpace();
    RefLayoutIsClean(p);
    var m1, m2 := Member(T5, POLICY, "", StringText(p.policy)), Member(T5, "claimRef", T5, RefLayout(p));
    TwoMembers(m1, m2);
    InSpec(m1, m2);
  }

  lemma InSpec(m1: Member, m2: Member)
    requires CleanMembers([m1, m2])
    requires MeaningOfMembers([m1, m2], map[]) == map[m1.key := Meaning(m1.value), m2.key := Meaning(m2.value)]
    ensures var l := ObjectText([Member(T4, "spec", T4, ObjectText([m1, m2], T4))], "\n\t\t\t");
      Clean(l) && Meaning(l)
        == Single("spec", Obj(map[m1.key := Meaning(m1.value), m2.key := Meaning(m2.value)]))
  {
    TemplateSpace();
    var spec := Member(T4, "spec", T4, ObjectText([m1, m2], T4));
    CleanCons(spec, [], map[]);
    assert [spec] + [] == [spec];
  }

  lemma FinalizersLayoutIsClean(names: seq<string>)
    requires forall i :: 0 <= i < |names| ==> Plain(names[i])
    ensures Clean(FinalizersLayout(names)) && Meaning(FinalizersLayout(names)) == FinalizersDoc(names)
  {
    if names == [] {
      OneIsClean("finalizers", "", NullText);
      OneIsClean("metadata", "", One("finalizers", "", NullText));
    } else {
      OneIsClean("finalizers", " ", ListText(names));
      OneIsClean("metadata", " ", One("finalizers", " ", ListText(names)));
    }
  }

  // ---------------------------------------------------------------------- text

  /** strings.Join */
  function Join(names: seq<string>, separator: string): string {
    if names == [] then ""
    else if |names| == 1 then names[0]
    else names[0] + separator + Join(names[1..], separator)
  }

  /** {"section":{"key":value}}, with a gap after both colons. */
  function NestedText(section: string, key: string, gap: string, value: string): string {
    "{\"" + section + "\":" + gap + "{\"" + key + "\":" + gap + value + "}}"
  }

  /** The text releasePV sends to set or drop the finalizers. */
  function FinalizersText(names: seq<string>): string {
    if names == [] then NestedText("metadata", "finalizers", "", "null")
    else NestedText("metadata", "finalizers", " ", "[\"" + Join(names, "\", \"") + "\"]")
  }

  /** The text of a volume patch: the two one-line patches of releasePV and the template of bondPVC. */
  function VolumeText(p: VolumePatch): string {
    match p
    case SetPolicy(policy) => NestedText("spec", POLICY, "", "\"" + policy + "\"")
    case ClearClaimRef => NestedText("spec", "claimRef", "", "null")
    case Restore(_, _, _, _, _, _) => Print(VolumeLayout(p), "")
  }

  lemma {:induction false} JoinIsPrinted(names: seq<string>, rest: string)
    requires names != []
    ensures PrintNames(names, rest) == "\"" + Join(names, "\", \"") + "\"" + rest
  {
    if |names| > 1 {
      JoinIsPrinted(names[1..], rest);
    }
  }

  lemma OnePrinted(key: string, gap: string, value: Layout, rest: string)
    ensures Print(One(key, gap, value), rest) == "{\"" + key + "\":" + gap + Print(value, "}" + rest)
  {
    assert "" + "}" + rest == "}" + rest;
    Regrouped(key, gap, Print(value, "}" + rest));
  }

  lemma Regrouped(key: string, gap: string, text: string)
    ensures "{" + ("" + Quoted(key, ":" + gap + text)) == "{\"" + key + "\":" + gap + text
  {
    assert "{" + "\"" == "{\"" && "\"" + ":" == "\":";
  }

  lemma NestedTextIsPrinted(section: string, key: string, gap: string, value: Layout, text: string)
    requires Print(value, "}}") == text + "}}"
    ensures NestedText(section, key, gap, text) == Print(One(section, gap, One(key, gap, value)), "")
  {
    OnePrinted(section, gap, One(key, gap, value), "");
    OnePrinted(key, gap, value, "}");
    assert "}" + "}" == "}}" && "}" + "" == "}";
    var inner := "{\"" + key + "\":" + gap + text + "}}";
    assert "{\"" + key + "\":" + gap + (text + "}}") == inner;
    assert NestedText(section, key, gap, text) == "{\"" + section + "\":" + gap + inner;
  }

  lemma FinalizersTextIsPrinted(names: seq<string>)
    ensures FinalizersText(names) == Print(FinalizersLayout(names), "")
  {
    if names == [] {
      NestedTextIsPrinted("metadata", "finalizers", "", NullText, "null");
    } else {
      var text := "[\"" + Join(names, "\", \"") + "\"]";
      JoinIsPrinted(names, "]}}");
      assert Print(ListText(names), "}}") == text + "}}" by {
        assert "]" + "}}" == "]}}";
      }
      NestedTextIsPrinted("metadata", "finalizers", " ", ListText(names), text);
    }
  }

  lemma VolumeTextIsPrinted(p: VolumePatch)
    ensures VolumeText(p) == Print(VolumeLayout(p), "")
  {
    match p
    case SetPolicy(policy) =>
      NestedTextIsPrinted("spec", POLICY, "", StringText(policy), "\"" + policy + "\"");
    case ClearClaimRef =>
      NestedTextIsPrinted("spec", "claimRef", "", NullText, "null");
    case Restore(_, _, _, _, _, _) =>
  }

  // -------------------------------------------------------------------- effect

  lemma StringAtIsChild(j: Json, k: string)
    ensures StringAt(j, k) == if Child(j, k).Str? then Child(j, k).s else ""
  {}

  /** Merging one member into spec: that member is merged, the others stay. */
  lemma SpecMember(j: Json, section: string, k: string, value: Json)
    ensures var j' := MergePatch(j, Single(section, Single(k, value)));
      && Child(Child(j', section), k) == (if value.Null? then Null else MergePatch(Child(Child(j, section), k), value))
      && (forall other :: other != k ==> Child(Child(j', section), other) == Child(Child(j, section), other))
      && (forall other :: other != section ==> Child(j', other) == Child(j, other))
  {
    var inner := Single(k, value);
    ChildOfMerge(j, Single(section, inner), section);
    ChildOfMerge(Child(j, section), inner, k);
    forall other | other != k
      ensures Child(MergePatch(Child(j, section), inner), other) == Child(Child(j, section), other)
    {
      ChildOfMerge(Child(j, section), inner, other);
    }
    forall other | other != section
      ensures Child(MergePatch(j, Single(section, inner)), other) == Child(j, other)
    {
      ChildOfMerge(j, Single(section, inner), other);
    }
  }

  lemma SetPolicyEffect(j: Json, policy: string)
    ensures VolumeIn(MergePatch(j, VolumeDoc(SetPolicy(policy)))) == PatchedVolume(VolumeIn(j), SetPolicy(policy))
  {
    var j' := MergePatch(j, VolumeDoc(SetPolicy(policy)));
    SpecMember(j, "spec", POLICY, Str(policy));
    StringAtIsChild(Child(j', "spec"), POLICY);
    assert "claimRef" != POLICY;
  }

  lemma ClearClaimRefEffect(j: Json)
    ensures VolumeIn(MergePatch(j, VolumeDoc(ClearClaimRef))) == PatchedVolume(VolumeIn(j), ClearClaimRef)
  {
    var j' := MergePatch(j, VolumeDoc(ClearClaimRef));
    SpecMember(j, "spec", "claimRef", Null);
    StringAtIsChild(Child(j', "spec"), POLICY);
    StringAtIsChild(Child(j, "spec"), POLICY);
    assert "claimRef" != POLICY;
  }

  lemma RefField(j: Json, doc: Json, k: string)
    requires doc.Obj? && (k in doc.fields ==> doc.fields[k].Str?)
    ensures StringAt(MergePatch(j, doc), k) == if k in doc.fields then doc.fields[k].s else StringAt(j, k)
  {
    ChildOfMerge(j, doc, k);
    StringAtIsChild(j, k);
    StringAtIsChild(MergePatch(j, doc), k);
  }

  lemma RefEffect(j: Json, p: VolumePatch)
    requires p.Restore?
    ensures RefIn(MergePatch(j, RefDoc(p))) == Some(ClaimRef(p.apiVersion, p.kind, p.namespace, p.name, p.uid,
      if RefIn(j).Some? then RefIn(j).value.resourceVersion else ""))
  {
    RefField(j, RefDoc(p), "apiVersion");
    RefField(j, RefDoc(p), "kind");
    RefField(j, RefDoc(p), "name");
    RefField(j, RefDoc(p), "namespace");
    RefField(j, RefDoc(p), "uid");
    RefField(j, RefDoc(p), "resourceVersion");
  }

  lemma RestoreEffect(j: Json, p: VolumePatch)
    requires p.Restore?
    ensures VolumeIn(MergePatch(j, VolumeDoc(p))) == PatchedVolume(VolumeIn(j), p)
  {
    var inner := Obj(map[POLICY := Str(p.policy), "claimRef" := RefDoc(p)]);
    var spec := Child(j, "spec");
    assert POLICY != "claimRef";
    assert inner.fields[POLICY] == Str(p.policy) && inner.fields["claimRef"] == RefDoc(p);
    ChildOfMerge(j, VolumeDoc(p), "spec");
    ChildOfMerge(spec, inner, "claimRef");
    ChildOfMerge(spec, inner, POLICY);
    StringAtIsChild(MergePatch(spec, inner), POLICY);
    RefEffect(Child(spec, "claimRef"), p);
  }

  /**
   The text sent for a volume patch, parsed and merged into any stored object, changes what the model
   sees of it exactly as the model says, whatever is stored.
   */
  lemma VolumePatchRefines(j: Json, p: VolumePatch)
    requires PlainVolumePatch(p)
    ensures Parse(VolumeText(p)) == Some(VolumeDoc(p))
    ensures VolumeIn(MergePatch(j, VolumeDoc(p))) == PatchedVolume(VolumeIn(j), p)
  {
    VolumeTextIsPrinted(p);
    VolumeLayoutIsClean(p);
    LayoutRoundTrip(VolumeLayout(p));
    match p
    case SetPolicy(policy) => SetPolicyEffect(j, policy);
    case ClearClaimRef => ClearClaimRefEffect(j);
    case Restore(_, _, _, _, _, _) => RestoreEffect(j, p);
  }

  /** The documents the three texts stand for. */
  lemma VolumeTextMeans(p: VolumePatch)
    requires PlainVolumePatch(p)
    ensures Parse(VolumeText(p)) == Some(
      match p
      case SetPolicy(policy) => Obj(map["spec" := Obj(map["persistentVolumeReclaimPolicy" := Str(policy)])])
      case ClearClaimRef => Obj(map["spec" := Obj(map["claimRef" := Null])])
      case Restore(policy, apiVersion, kind, namespace, name, uid) =>
        Obj(map["spec" := Obj(map[
          "persistentVolumeReclaimPolicy" := Str(policy),
          "claimRef" := Obj(map["apiVersion" := Str(apiVersion), "kind" := Str(kind), "name" := Str(name),
                                "namespace" := Str(namespace), "uid" := Str(uid)])])]))
  {
    VolumePatchRefines(Null, p);
  }

  /** Every member of a stored volume outside the reclaim policy and the claim reference is left alone. */
  lemma VolumePatchFrame(j: Json, p: VolumePatch, path: seq<string>)
    requires path != []
    requires path[0] == "spec" ==> |path| > 1 && path[1] != POLICY && path[1] != "claimRef"
    ensures At(MergePatch(j, VolumeDoc(p)), path) == At(j, path)
  {
    MergePatchFrame(j, VolumeDoc(p), path);
  }

  /** Restoring merges into a claim reference others may have written: its remaining members survive. */
  lemma RestoreKeepsRest(j: Json, p: VolumePatch, member: string)
    requires p.Restore? && member !in {"apiVersion", "kind", "name", "namespace", "uid"}
    ensures At(MergePatch(j, VolumeDoc(p)), ["spec", "claimRef", member]) == At(j, ["spec", "claimRef", member])
  {
    var path := ["spec", "claimRef", member];
    assert path[1..] == ["claimRef", member] && path[1..][1..] == [member];
    MergePatchFrame(j, VolumeDoc(p), path);
  }

  lemma FinalizersEffect(j: Json, names: seq<string>)
    ensures ClaimIn(MergePatch(j, FinalizersDoc(names))) == ClaimIn(j).(finalizers := names)
    ensures names == [] ==> At(MergePatch(j, FinalizersDoc(names)), ["metadata", "finalizers"]) == None
  {
    var value := if names == [] then Null else Arr(Strings(names));
    SpecMember(j, "metadata", "finalizers", value);
    assert NamesIn(value) == names;
    assert "annotations" != "finalizers" && "spec" != "metadata";
    if names == [] {
      assert ["metadata", "finalizers"][1..] == ["finalizers"];
    }
  }

  /**
   Finalizer patch round trip: the printed patch parses, and merging it leaves exactly the given names in
   order, or no such member when none remain, and the rest of the claim as it was.
   */
  lemma FinalizersPatchRefines(j: Json, names: seq<string>)
    requires forall i :: 0 <= i < |names| ==> Plain(names[i])
    ensures Parse(FinalizersText(names)) == Some(FinalizersDoc(names))
    ensures ClaimIn(MergePatch(j, FinalizersDoc(names))) == ClaimIn(j).(finalizers := names)
    ensures names == [] ==> At(MergePatch(j, FinalizersDoc(names)), ["metadata", "finalizers"]) == None
  {
    FinalizersTextIsPrinted(names);
    FinalizersLayoutIsClean(names);
    LayoutRoundTrip(FinalizersLayout(names));
    FinalizersEffect(j, names);
  }

  /** The document the text of the finalizer patch stands for. */
  lemma FinalizersTextMeans(names: seq<string>)
    requires forall i :: 0 <= i < |names| ==> Plain(names[i])
    ensures Parse(FinalizersText(names)) == Some(Obj(map["metadata" := Obj(map["finalizers" :=
      if names == [] then Null else Arr(seq(|names|, i requires 0 <= i < |names| => Str(names[i])))])]))
  {
    FinalizersPatchRefines(Null, names);
    var items := seq(|names|, i requires 0 <= i < |names| => Str(names[i]));
    assert Strings(names) == items;
  }

  /** The patch releasePV sends, from the finalizers it saw to those stored. */
  lemma UnprotectPatchRefines(j: Json, seen: seq<string>)
    requires forall i :: 0 <= i < |seen| ==> Plain(seen[i])
    ensures var kept := WithoutProtection(seen);
      Parse(FinalizersText(kept)) == Some(FinalizersDoc(kept))
      && ClaimIn(MergePatch(j, FinalizersDoc(kept))) == ClaimIn(j).(finalizers := kept)
    ensures var stored := ClaimIn(MergePatch(j, FinalizersDoc(WithoutProtection(seen)))).finalizers;
      forall f :: multiset(stored)[f] == if f == PROTECTION then 0 else multiset(seen)[f]
  {
    var kept := WithoutProtection(seen);
    forall f ensures multiset(kept)[f] == if f == PROTECTION then 0 else multiset(seen)[f] {
      WithoutProtectionCounts(seen, f);
    }
    forall i | 0 <= i < |kept| ensures Plain(kept[i]) {
      assert kept[i] in multiset(kept);
      assert kept[i] in multiset(seen);
    }
    FinalizersPatchRefines(j, kept);
  }

  /** A name with quotation marks in it reads back as two: the text of one such name is the text of both halves. */
  lemma QuotedNameSplits(a: string, b: string)
    requires Plain(a) && Plain(b)
    ensures var name := a + "\", \"" + b;
      Parse(FinalizersText([name])) == Some(FinalizersDoc([a, b])) != Some(FinalizersDoc([name]))
  {
    var name := a + "\", \"" + b;
    assert Join([a, b], "\", \"") == name == Join([name], "\", \"") by { assert [a, b][1..] == [b]; }
    FinalizersPatchRefines(Null, [a, b]);
    assert Strings([a, b]) != Strings([name]) by { assert |Strings([a, b])| != |Strings([name])|; }
    assert FinalizersDoc([a, b]).fields["metadata"].fields["finalizers"] == Arr(Strings([a, b]));
    assert FinalizersDoc([name]).fields["metadata"].fields["finalizers"] == Arr(Strings([name]));
  }

  lemma AnnotationsMerged(j: Json, annotations: map<string, string>)
    ensures StringsIn(MergePatch(j, Obj(map k | k in annotations :: Str(annotations[k])))) == StringsIn(j) + annotations
  {
    var doc := Obj(map k | k in annotations :: Str(annotations[k]));
    var a, b := StringsIn(MergePatch(j, doc)), StringsIn(j) + annotations;
    forall k ensures k in a <==> k in b
      ensures k in a ==> a[k] == b[k]
    {
      ChildOfMerge(j, doc, k);
      if k in annotations { assert doc.fields[k] == Str(annotations[k]); }
    }
  }

  lemma AtChild(j: Json, name: string, rest: seq<string>)
    requires !Child(j, name).Null?
    ensures At(j, [name] + rest) == At(Child(j, name), rest)
  {
    assert ([name] + rest)[1..] == rest;
  }

  lemma AnnotationPath(j: Json, annotations: map<string, string>, volumeName: string, k: string)
    requires k in annotations
    ensures At(MergePatch(j, BondDoc(annotations, volumeName)), ["metadata", "annotations", k]) == Some(Str(annotations[k]))
  {
    var doc := Obj(map k' | k' in annotations :: Str(annotations[k']));
    var bond := BondDoc(annotations, volumeName);
    var m := MergePatch(j, bond);
    ChildOfMerge(j, bond, "metadata");
    ChildOfMerge(Child(j, "metadata"), Single("annotations", doc), "annotations");
    var merged := Child(Child(m, "metadata"), "annotations");
    ChildOfMerge(Child(Child(j, "metadata"), "annotations"), doc, k);
    assert doc.fields[k] == Str(annotations[k]);
    AtChild(merged, k, []);
    AtChild(Child(m, "metadata"), "annotations", [k]);
    AtChild(m, "metadata", ["annotations", k]);
    assert [k] + [] == [k] && ["annotations"] + [k] == ["annotations", k];
    assert ["metadata"] + ["annotations", k] == ["metadata", "annotations", k];
  }

  lemma BondPaths(j: Json, annotations: map<string, string>, volumeName: string)
    ensures At(MergePatch(j, BondDoc(annotations, volumeName)), ["spec", "volumeName"]) == Some(Str(volumeName))
    ensures forall k :: k in annotations ==>
      At(MergePatch(j, BondDoc(annotations, volumeName)), ["metadata", "annotations", k]) == Some(Str(annotations[k]))
  {
    var bond := BondDoc(annotations, volumeName);
    assert ["spec", "volumeName"][1..] == ["volumeName"] && ["volumeName"][1..] == [];
    ChildOfMerge(j, bond, "spec");
    forall k | k in annotations
      ensures At(MergePatch(j, bond), ["metadata", "annotations", k]) == Some(Str(annotations[k]))
    {
      AnnotationPath(j, annotations, volumeName, k);
    }
  }

  /** Merging the claim patch of bondPVC is what the model calls bonding, whatever claim is stored. */
  lemma BondPatchRefines(j: Json, c: Claim, annotations: map<string, string>, volumeName: string)
    requires ClaimIn(j) == ViewOf(c)
    ensures ClaimIn(MergePatch(j, BondDoc(annotations, volumeName)))
      == ViewOf(PatchedClaim(c, Bond(annotations, volumeName)))
    ensures At(MergePatch(j, BondDoc(annotations, volumeName)), ["spec", "volumeName"]) == Some(Str(volumeName))
    ensures forall k :: k in annotations ==>
      At(MergePatch(j, BondDoc(annotations, volumeName)), ["metadata", "annotations", k]) == Some(Str(annotations[k]))
  {
    var doc := Obj(map k | k in annotations :: Str(annotations[k]));
    var bond := BondDoc(annotations, volumeName);
    assert "metadata" != "spec" && "annotations" != "finalizers";
    ChildOfMerge(j, bond, "metadata");
    ChildOfMerge(j, bond, "spec");
    ChildOfMerge(Child(j, "metadata"), Single("annotations", doc), "annotations");
    ChildOfMerge(Child(j, "metadata"), Single("annotations", doc), "finalizers");
    ChildOfMerge(Child(j, "spec"), Single("volumeName", Str(volumeName)), "volumeName");
    AnnotationsMerged(Child(Child(j, "metadata"), "annotations"), annotations);
    StringAtIsChild(MergePatch(Child(j, "spec"), Single("volumeName", Str(volumeName))), "volumeName");
    BondPaths(j, annotations, volumeName);
  }
}
