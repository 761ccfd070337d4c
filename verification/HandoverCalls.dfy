/** What each call of a run leaves on the server when it is carried out, whether or not its answer arrives. */
module HandoverCalls {
  import opened Wrappers
  import opened Cluster
  import opened Handover
  import opened Json
  import opened JsonText
  import Patches

  /** Run u makes its next call, and the call arrives. */
  predicate Arrives(users: Users, w: World, u: string, fate: Fate, x: Chance) {
    Enabled(users, w, Step(u, fate, x)) && !fate.Dropped?
  }

  function After(users: Users, w: World, u: string, fate: Fate, x: Chance): State
    requires Arrives(users, w, u, fate, x)
  {
    Apply(users, w, Step(u, fate, x)).state
  }

  /** The positions of the entries that are not this name, in order, and the entries there. */
  predicate Marks(name: string, seen: seq<string>, at: seq<nat>, kept: seq<string>) {
    && |at| == |kept|
    && (forall i :: 0 <= i < |at| ==> at[i] < |seen| && seen[at[i]] == kept[i])
    && (forall i, j :: 0 <= i < j < |at| ==> at[i] < at[j])
    && (forall k :: 0 <= k < |seen| ==> (k in at <==> seen[k] != name))
  }

  /** kept is what remains of seen, in order, when exactly the entries that are this name are left out. */
  ghost predicate AllBut(name: string, seen: seq<string>, kept: seq<string>) {
    exists at :: Marks(name, seen, at, kept)
  }

  lemma MarkNone(name: string, seen: seq<string>, at: seq<nat>, kept: seq<string>)
    requires Marks(name, seen, at, kept)
    ensures Marks(name, seen + [name], at, kept)
  {
    var n, longer := |seen|, seen + [name];
    assert forall k :: k in at ==> k < n;
    assert forall k :: 0 <= k < n ==> longer[k] == seen[k];
  }

  lemma MarkOne(name: string, seen: seq<string>, at: seq<nat>, kept: seq<string>, s: string)
    requires Marks(name, seen, at, kept) && s != name
    ensures Marks(name, seen + [s], at + [|seen|], kept + [s])
  {
    var n, longer := |seen|, seen + [s];
    forall k | 0 <= k < |longer| ensures k in at + [n] <==> longer[k] != name {
      assert k in at + [n] <==> k in at || k == n;
    }
  }

  lemma {:induction false} ProtectionLeftOut(seen: seq<string>) returns (at: seq<nat>)
    ensures Marks("kubernetes.io/pvc-protection", seen, at, WithoutProtection(seen))
  {
    at := [];
    if seen != [] {
      var n := |seen| - 1;
      at := ProtectionLeftOut(seen[..n]);
      assert seen == seen[..n] + [seen[n]];
      if seen[n] == "kubernetes.io/pvc-protection" {
        MarkNone("kubernetes.io/pvc-protection", seen[..n], at, WithoutProtection(seen[..n]));
        assert WithoutProtection(seen) == WithoutProtection(seen[..n]) + [];
      } else {
        MarkOne("kubernetes.io/pvc-protection", seen[..n], at, WithoutProtection(seen[..n]), seen[n]);
        at := at + [n];
      }
    }
  }

  /** The temporary claim asks for the chosen class, and by annotation for the node and the class's provisioner. */
  lemma CreatingStores(users: Users, w: World, u: string, fate: Fate, x: Chance)
    requires Arrives(users, w, u, fate, x) && w.runs[u].phase.Creating?
    ensures var k, s, s' := users[u].temp, w.state, After(users, w, u, fate, x);
      if k in s.claims then s' == s
      else
        && k in s'.claims && s' == s.(claims := s.claims[k := s'.claims[k]])
        && s'.claims[k].storageClass == w.runs[u].order.backend.name
        && s'.claims[k].volumeName == "" && !s'.claims[k].bound && !s'.claims[k].deleting
        && s'.claims[k].annotations == (if w.runs[u].order.way.ByPod? then map[] else map[
             "volume.kubernetes.io/storage-provisioner" := w.runs[u].order.backend.provisioner,
             "volume.beta.kubernetes.io/storage-provisioner" := w.runs[u].order.backend.provisioner,
             "volume.kubernetes.io/selected-node" := w.runs[u].order.node])
  {}

  /** The pod runs on the chosen node and mounts the temporary claim. */
  lemma StartingPodStores(users: Users, w: World, u: string, fate: Fate, x: Chance)
    requires Arrives(users, w, u, fate, x) && w.runs[u].phase.StartingPod?
    ensures var s, s', temp := w.state, After(users, w, u, fate, x), users[u].temp;
      var k := Key(temp.namespace, "provisioner-" + temp.name);
      s' == if k in s.pods then s else s.(pods := s.pods[k := Pod(w.runs[u].order.node, temp.name)])
  {}

  lemma StoppingPodStores(users: Users, w: World, u: string, fate: Fate, x: Chance)
    requires Arrives(users, w, u, fate, x) && w.runs[u].phase.StoppingPod?
    ensures After(users, w, u, fate, x) == w.state.(pods := w.state.pods - {w.runs[u].phase.pod})
  {}

  lemma RetainingStores(users: Users, w: World, u: string, fate: Fate, x: Chance)
    requires Arrives(users, w, u, fate, x) && w.runs[u].phase.Retaining?
    ensures var s, v := w.state, w.runs[u].phase.seen.volumeName;
      After(users, w, u, fate, x) ==
        if v in s.volumes then s.(volumes := s.volumes[v := Volume("Retain", s.volumes[v].claimRef)]) else s
  {}

  /**
   The finalizers stored are those that were seen without the protection, in order and as often, whatever
   has become of them since; a claim being deleted goes when none was left.
   */
  lemma UnprotectingStores(users: Users, w: World, u: string, fate: Fate, x: Chance)
    requires Arrives(users, w, u, fate, x) && w.runs[u].phase.Unprotecting?
    ensures var k, s, s' := users[u].temp, w.state, After(users, w, u, fate, x);
      var seen := w.runs[u].phase.seen.finalizers;
      if k !in s.claims then s' == s
      else if s.claims[k].deleting && forall i :: 0 <= i < |seen| ==> seen[i] == "kubernetes.io/pvc-protection" then
        s' == s.(claims := s.claims - {k})
      else
        && k in s'.claims && AllBut("kubernetes.io/pvc-protection", seen, s'.claims[k].finalizers)
        && s' == s.(claims := s.claims[k := s.claims[k].(finalizers := s'.claims[k].finalizers)])
  {
    var seen := w.runs[u].phase.seen.finalizers;
    var at := ProtectionLeftOut(seen);
    NothingLeft(seen, WithoutProtection(seen));
  }

  /**
   What is sent for it: from the text of the call, parsed and merged into any stored object, exactly the seen
   finalizers without the protection come out, in order.
   */
  lemma UnprotectingText(u: User, r: Run, j: Json)
    requires r.phase.Unprotecting?
    requires forall i :: 0 <= i < |r.phase.seen.finalizers| ==> Plain(r.phase.seen.finalizers[i])
    ensures var q := NextRequest(u, r); q.PatchClaim? && q.key == u.temp && q.claimPatch.SetFinalizers?
    ensures var names := NextRequest(u, r).claimPatch.names;
      && AllBut("kubernetes.io/pvc-protection", r.phase.seen.finalizers, names)
      && Parse(Patches.FinalizersText(names)) == Some(Patches.FinalizersDoc(names))
      && Patches.ClaimIn(MergePatch(j, Patches.FinalizersDoc(names))) == Patches.ClaimIn(j).(finalizers := names)
  {
    var at := ProtectionLeftOut(r.phase.seen.finalizers);
    Patches.UnprotectPatchRefines(j, r.phase.seen.finalizers);
  }

  lemma NothingLeft(seen: seq<string>, kept: seq<string>)
    requires AllBut("kubernetes.io/pvc-protection", seen, kept)
    ensures kept == [] <==> forall i :: 0 <= i < |seen| ==> seen[i] == "kubernetes.io/pvc-protection"
  {
    var at :| Marks("kubernetes.io/pvc-protection", seen, at, kept);
    if kept != [] {
      assert at[0] in at;
    }
  }

  lemma DeletingStores(users: Users, w: World, u: string, fate: Fate, x: Chance)
    requires Arrives(users, w, u, fate, x) && w.runs[u].phase.Deleting?
    ensures var k, s, s' := users[u].temp, w.state, After(users, w, u, fate, x);
      if k !in s.claims then s' == s
      else if k !in s'.claims then s.claims[k].finalizers == [] && s' == s.(claims := s.claims - {k})
      else
        s' == s.(claims := s.claims[k := s.claims[k].(deleting := true, finalizers := s'.claims[k].finalizers)])
  {}

  lemma DetachingStores(users: Users, w: World, u: string, fate: Fate, x: Chance)
    requires Arrives(users, w, u, fate, x) && w.runs[u].phase.Detaching?
    ensures var s, v := w.state, w.runs[u].phase.seen.volumeName;
      After(users, w, u, fate, x) ==
        if v in s.volumes then s.(volumes := s.volumes[v := Volume(s.volumes[v].policy, None)]) else s
  {}

  /** The user's claim names the volume and gets four annotations; its others stay. */
  lemma BondingStores(users: Users, w: World, u: string, fate: Fate, x: Chance)
    requires Arrives(users, w, u, fate, x) && w.runs[u].phase.Bonding?
    requires users[u].key in w.state.claims && !w.state.claims[users[u].key].deleting
    ensures var k, s, b := users[u].key, w.state, w.runs[u].order.backend;
      After(users, w, u, fate, x) == s.(claims := s.claims[k := s.claims[k].(
        volumeName := w.runs[u].phase.volume,
        annotations := s.claims[k].annotations + map[
          "volume.kubernetes.io/storage-provisioner" := b.provisioner,
          "volume.beta.kubernetes.io/storage-provisioner" := b.provisioner,
          "pv.kubernetes.io/bind-completed" := "yes",
          "pv.kubernetes.io/bound-by-controller" := "yes"])])
  {}

  /** Policy and claim reference come back in one patch, the reference in full but for an old resource version. */
  lemma RestoringStores(users: Users, w: World, u: string, fate: Fate, x: Chance)
    requires Arrives(users, w, u, fate, x) && w.runs[u].phase.Restoring?
    ensures var s, v, user := w.state, w.runs[u].phase.volume, users[u];
      After(users, w, u, fate, x) ==
        if v !in s.volumes then s
        else s.(volumes := s.volumes[v := Volume("Delete", Some(ClaimRef(
          user.apiVersion, user.kind, user.key.namespace, user.key.name, w.runs[u].order.user,
          if s.volumes[v].claimRef.Some? then s.volumes[v].claimRef.value.resourceVersion else "")))])
  {}

  lemma OtherwiseNothing(users: Users, w: World, u: string, fate: Fate, x: Chance)
    requires Enabled(users, w, Step(u, fate, x))
    requires fate.Dropped? || w.runs[u].phase.LookingUp? || w.runs[u].phase.Awaiting?
    ensures Apply(users, w, Step(u, fate, x)).state == w.state
  {}
}
