/** Cordoning nodes and taking it back. */
module Cordon {
  import opened Wrappers
  import opened Json
  import opened JsonText
  import Patches

  type Flags = map<string, bool>

  // ------------------------------------------------------------------ the patch

  function UnschedulablePatch(value: bool): Json {
    Single("spec", Single("unschedulable", Bool(value)))
  }

  /** The two texts that are sent. */
  function UnschedulableText(value: bool): string {
    Patches.NestedText("spec", "unschedulable", "", if value then "true" else "false")
  }

  lemma UnschedulableTextParses(value: bool)
    ensures Parse(UnschedulableText(value)) == Some(UnschedulablePatch(value))
  {
    var flag := BoolText(value);
    var inner := Patches.One("unschedulable", "", flag);
    Patches.NestedTextIsPrinted("spec", "unschedulable", "", flag, if value then "true" else "false");
    Patches.OneIsClean("unschedulable", "", flag);
    Patches.OneIsClean("spec", "", inner);
    LayoutRoundTrip(Patches.One("spec", "", inner));
  }

  /** The flag of a stored node; absent means schedulable. */
  function Unschedulable(node: Json): bool {
    At(node, ["spec", "unschedulable"]) == Some(Bool(true))
  }

  /** The two texts, parsed and merged into whatever node is stored, set its flag and touch nothing else. */
  lemma PatchSetsFlag(node: Json, value: bool, path: seq<string>)
    ensures Parse(UnschedulableText(value)) == Some(UnschedulablePatch(value))
    ensures UnschedulablePatch(value) == Obj(map["spec" := Obj(map["unschedulable" := Bool(value)])])
    ensures Unschedulable(MergePatch(node, UnschedulablePatch(value))) == value
    ensures path != [] && (path[0] == "spec" ==> |path| > 1 && path[1] != "unschedulable") ==>
      At(MergePatch(node, UnschedulablePatch(value)), path) == At(node, path)
  {
    UnschedulableTextParses(value);
    var patched := MergePatch(node, UnschedulablePatch(value));
    ChildOfMerge(node, UnschedulablePatch(value), "spec");
    ChildOfMerge(Child(node, "spec"), Single("unschedulable", Bool(value)), "unschedulable");
    assert ["spec", "unschedulable"][1..] == ["unschedulable"] && ["unschedulable"][1..] == [];
    assert At(Child(patched, "spec"), ["unschedulable"]) == At(Bool(value), []);
    if path != [] && (path[0] == "spec" ==> |path| > 1 && path[1] != "unschedulable") {
      MergePatchFrame(node, UnschedulablePatch(value), path);
    }
  }

  // -------------------------------------------------------------------- flags

  /** The flags with every listed node set to v. */
  function SetAll(flags: Flags, nodes: seq<string>, v: bool): Flags {
    map n | n in flags :: if n in nodes then v else flags[n]
  }

  /** The listed nodes that were schedulable, each once, in the order of their first mention. */
  function Changed(flags: Flags, nodes: seq<string>): seq<string> {
    if nodes == [] then []
    else
      var k := |nodes| - 1;
      var before := Changed(flags, nodes[..k]);
      if nodes[k] in flags && !flags[nodes[k]] && nodes[k] !in before then before + [nodes[k]] else before
  }

  lemma {:induction false} ChangedIs(flags: Flags, nodes: seq<string>)
    ensures forall n :: n in Changed(flags, nodes) <==> n in nodes && n in flags && !flags[n]
    ensures forall i, j :: 0 <= i < j < |Changed(flags, nodes)| ==> Changed(flags, nodes)[i] != Changed(flags, nodes)[j]
  {
    if nodes != [] {
      var k := |nodes| - 1;
      ChangedIs(flags, nodes[..k]);
      assert nodes == nodes[..k] + [nodes[k]];
    }
  }

  /** The order is that of first mention: more nodes only add to the end. */
  lemma {:induction false} ChangedGrows(flags: Flags, nodes: seq<string>, more: seq<string>)
    ensures Changed(flags, nodes) <= Changed(flags, nodes + more)
    decreases |more|
  {
    if more == [] {
      assert nodes + more == nodes;
    } else {
      var k := |more| - 1;
      ChangedGrows(flags, nodes, more[..k]);
      assert (nodes + more)[..|nodes + more| - 1] == nodes + more[..k];
    }
  }

  /** Cordon then uncordon is the identity: for any list, repeats and already-cordoned nodes included. */
  lemma {:induction false} RoundTrip(flags: Flags, nodes: seq<string>)
    ensures SetAll(SetAll(flags, nodes, true), Changed(flags, nodes), false) == flags
  {
    ChangedIs(flags, nodes);
  }

  // ------------------------------------------------------------------ the client

  /** The cluster's nodes behind a client any of whose calls may fail, before or after taking effect. */
  class Client {
    var flags: Flags
    ghost var failures: nat

    constructor (flags: Flags)
      ensures this.flags == flags && failures == 0
    {
      this.flags, this.failures := flags, 0;
    }

    method Get(node: string) returns (r: Option<bool>)
      modifies this
      ensures flags == old(flags) && failures == old(failures) + (if r.None? then 1 else 0)
      ensures r.Some? ==> node in flags && r.value == flags[node]
    {
      var fails: bool :| true;
      if fails || node !in flags {
        failures := failures + 1;
        return None;
      }
      return Some(flags[node]);
    }

    method Patch(node: string, v: bool) returns (ok: bool)
      modifies this
      ensures ok ==> node in old(flags)
      ensures flags == old(flags) || (node in old(flags) && flags == old(flags)[node := v])
      ensures ok ==> flags == old(flags)[node := v]
      ensures failures == old(failures) + (if ok then 0 else 1)
    {
      var fate: nat :| true;
      ok := fate > 1 && node in flags;
      if fate != 0 && node in flags {
        flags := flags[node := v];
      }
      if !ok {
        failures := failures + 1;
      }
    }
  }

  lemma SetOneMore(flags: Flags, nodes: seq<string>, i: nat, v: bool)
    requires i < |nodes| && nodes[i] in flags
    ensures SetAll(flags, nodes[..i + 1], v) == SetAll(flags, nodes[..i], v)[nodes[i] := v]
  {
    assert nodes[..i + 1] == nodes[..i] + [nodes[i]];
  }

  lemma ChangedOneMore(flags: Flags, nodes: seq<string>, i: nat)
    requires i < |nodes| && nodes[i] in flags
    ensures var flag := SetAll(flags, nodes[..i], true)[nodes[i]];
      Changed(flags, nodes[..i + 1]) == Changed(flags, nodes[..i]) + (if flag then [] else [nodes[i]])
  {
    assert nodes[..i + 1][..i] == nodes[..i];
    ChangedIs(flags, nodes[..i]);
  }

  /** What a run of patches leaves behind when it stops early: the flag set on some first part of the list. */
  ghost predicate PrefixSet(before: Flags, nodes: seq<string>, v: bool, after: Flags) {
    exists k :: 0 <= k <= |nodes| && after == SetAll(before, nodes[..k], v)
  }

  /**
   CondonNodes. On success the listed nodes are cordoned and the returned ones are those that were not
   before. On failure some listed nodes may be cordoned that the caller is not told of, but nothing else
   has changed.
   */
  method CondonNodes(client: Client, nodes: seq<string>) returns (r: Option<seq<string>>)
    modifies client
    ensures r.Some? ==>
      && (forall n :: n in nodes ==> n in old(client.flags))
      && client.flags == SetAll(old(client.flags), nodes, true)
      && r.value == Changed(old(client.flags), nodes)
    ensures r.Some? ==>
      && client.flags.Keys == old(client.flags).Keys
      && (forall n :: n in nodes ==> client.flags[n])
      && (forall n :: n in client.flags && n !in nodes ==> client.flags[n] == old(client.flags)[n])
    ensures r.None? ==> PrefixSet(old(client.flags), nodes, true, client.flags)
    ensures client.failures == old(client.failures) + (if r.None? then 1 else 0)
  {
    ghost var before := client.flags;
    var cordonedNodes := [];
    assert SetAll(before, nodes[..0], true) == before;
    for i := 0 to |nodes|
      invariant forall j :: 0 <= j < i ==> nodes[j] in before
      invariant client.flags == SetAll(before, nodes[..i], true)
      invariant cordonedNodes == Changed(before, nodes[..i])
      invariant client.failures == old(client.failures)
    {
      var node := nodes[i];
      var unschedulable := client.Get(node);
      if unschedulable.None? {
        return None;
      }
      SetOneMore(before, nodes, i, true);
      ChangedOneMore(before, nodes, i);
      if !unschedulable.value {
        var ok := client.Patch(node, true);
        if !ok {
          return None;
        }
        cordonedNodes := cordonedNodes + [node];
      }
    }
    assert nodes[..|nodes|] == nodes;
    return Some(cordonedNodes);
  }

  /** UncondonNodes. On success every listed node is schedulable; on failure a first part of the list is. */
  method UncondonNodes(client: Client, nodes: seq<string>) returns (ok: bool)
    modifies client
    ensures ok ==> client.flags == SetAll(old(client.flags), nodes, false)
    ensures ok ==>
      && client.flags.Keys == old(client.flags).Keys
      && (forall n :: n in nodes ==> n in client.flags && !client.flags[n])
      && (forall n :: n in client.flags && n !in nodes ==> client.flags[n] == old(client.flags)[n])
    ensures !ok ==> PrefixSet(old(client.flags), nodes, false, client.flags)
    ensures client.failures == old(client.failures) + (if ok then 0 else 1)
  {
    ghost var before := client.flags;
    assert SetAll(before, nodes[..0], false) == before;
    for i := 0 to |nodes|
      invariant client.flags == SetAll(before, nodes[..i], false)
      invariant forall j :: 0 <= j < i ==> nodes[j] in before
      invariant client.failures == old(client.failures)
    {
      if nodes[i] in before {
        SetOneMore(before, nodes, i, false);
      }
      var patched := client.Patch(nodes[i], false);
      if !patched {
        return false;
      }
    }
    assert nodes[..|nodes|] == nodes;
    return true;
  }

  /** Both calls in sequence, every call succeeding, leave every node's flag as it was found. */
  method CordonAndUncordon(client: Client, nodes: seq<string>) returns (ok: bool)
    modifies client
    ensures ok ==> client.flags == old(client.flags)
    ensures ok <==> client.failures == old(client.failures)
  {
    var cordoned := CondonNodes(client, nodes);
    if cordoned.None? {
      return false;
    }
    ok := UncondonNodes(client, cordoned.value);
    RoundTrip(old(client.flags), nodes);
  }
}
