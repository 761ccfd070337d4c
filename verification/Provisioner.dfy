/** The provisioner's methods, call by call, against the interleaved API server. */
module Provisioner {
  import opened Wrappers
  import opened Cluster
  import opened Handover
  import opened HandoverSafety
  import opened HandoverDetached
  import opened Calls
  import opened ApiServers
  import Selection

  /** The claim to be provisioned, as the controller hands it over. */
  datatype UserClaim = UserClaim(key: Key, uid: string, apiVersion: string, kind: string)

  datatype Options = Options(
    storageClass: Option<Selection.StorageClass>, pvc: UserClaim, pvName: string, selectedNode: Selection.Node)

  datatype ProvisioningState = Finished | Reschedule

  function UserOf(opts: Options): User {
    User(opts.pvc.key, Key(opts.pvc.key.namespace, opts.pvName), opts.pvc.apiVersion, opts.pvc.kind)
  }

  function BackendOf(sc: Selection.StorageClass): Backend {
    Backend(sc.name, sc.provisioner, sc.reclaimPolicy)
  }

  function OrderOf(opts: Options, way: Method, sc: Selection.StorageClass): Order {
    Order(opts.pvc.uid, way, BackendOf(sc), opts.selectedNode.name)
  }

  // ------------------------------------------------------------------ scripts

  /** The temporary claim's and, by pod, the pod's creation. */
  function StartScript(opts: Options, sc: Selection.StorageClass, way: Method, pod: Key): seq<Ask> {
    var namespace, node := opts.pvc.key.namespace, opts.selectedNode.name;
    var temp := Key(namespace, opts.pvName);
    if way.ByPod? then
      [Ensure(LookUp(temp), CreateClaim(temp, sc.name, map[]))]
      + [Start(CreatePod(Key(namespace, "provisioner-" + opts.pvName), Pod(node, opts.pvName)), pod)]
    else
      [Ensure(LookUp(temp), CreateClaim(temp, sc.name, map[
        "volume.kubernetes.io/storage-provisioner" := sc.provisioner,
        "volume.beta.kubernetes.io/storage-provisioner" := sc.provisioner,
        "volume.kubernetes.io/selected-node" := node]))]
  }

  /** The wait for it to be bound and, by pod, the pod's deletion. */
  function WaitScript(temp: Key, way: Method, pod: Key, seen: Claim): seq<Ask> {
    if way.ByPod? then [Await(AwaitBound(temp), seen)] + [Insist(DeletePod(pod), 5, true)]
    else [Await(AwaitBound(temp), seen)]
  }

  /** From nothing to a temporary claim that is seen bound. */
  function BindScript(opts: Options, sc: Selection.StorageClass, way: Method, pod: Key, seen: Claim): seq<Ask> {
    StartScript(opts, sc, way, pod) + WaitScript(Key(opts.pvc.key.namespace, opts.pvName), way, pod, seen)
  }

  function LoosenScript(temp: Key, seen: Claim): seq<Ask> {
    [Once(PatchVolume(seen.volumeName, SetPolicy("Retain")))]
    + [Once(PatchClaim(temp, SetFinalizers(WithoutProtection(seen.finalizers))))]
  }

  function DetachScript(temp: Key, seen: Claim): seq<Ask> {
    [Insist(DeleteClaim(temp), 5, false)] + [Once(PatchVolume(seen.volumeName, ClearClaimRef))]
  }

  /** releasePV */
  function ReleaseScript(temp: Key, seen: Claim): seq<Ask> {
    LoosenScript(temp, seen) + DetachScript(temp, seen)
  }

  /** bondPVC */
  function BondScript(opts: Options, sc: Selection.StorageClass, v: string): seq<Ask> {
    [Once(PatchClaim(opts.pvc.key, Bond(map[
      "volume.kubernetes.io/storage-provisioner" := sc.provisioner,
      "volume.beta.kubernetes.io/storage-provisioner" := sc.provisioner,
      "pv.kubernetes.io/bind-completed" := "yes",
      "pv.kubernetes.io/bound-by-controller" := "yes"], v)))]
    + (if sc.reclaimPolicy == Some("Delete")
       then [Once(PatchVolume(v, Restore("Delete", opts.pvc.apiVersion, opts.pvc.kind,
                                         opts.pvc.key.namespace, opts.pvc.key.name, opts.pvc.uid)))]
       else [])
  }

  /** A whole handover. */
  function HandoverScript(opts: Options, sc: Selection.StorageClass, way: Method, pod: Key, seen: Claim): seq<Ask> {
    BindScript(opts, sc, way, pod, seen)
    + (ReleaseScript(Key(opts.pvc.key.namespace, opts.pvName), seen) + BondScript(opts, sc, seen.volumeName))
  }

  /** A log that ends with the claim seen bound; the pod and, on failure, the claim being unknown. */
  ghost predicate BoundIn(log: seq<Sent>, opts: Options, sc: Selection.StorageClass, means: Method, pvc: Option<Claim>) {
    if pvc.Some? then exists pod :: Follows(BindScript(opts, sc, means, pod, pvc.value), log, true)
    else exists pod, seen :: Follows(BindScript(opts, sc, means, pod, seen), log, false)
  }

  class HybridProvisioner {
    const server: ApiServer
    const listers: Selection.Listers
    const way: string

    ghost predicate Valid()
      reads server
    {
      server.Valid() && way in {"auto", "annotation", "pod"}
    }

    /** An unknown method falls back to the default. */
    constructor (server: ApiServer, listers: Selection.Listers, way: string)
      requires server.Valid()
      ensures Valid() && this.server == server && this.listers == listers
      ensures this.way == if way in {"auto", "annotation", "pod"} then way else "auto"
    {
      this.server, this.listers := server, listers;
      this.way := if way == "auto" || way == "pod" || way == "annotation" then way else "auto";
    }

    /** The controller calls with a claim that was created, and not while a run for it is in flight. */
    ghost predicate MayBegin(opts: Options)
      reads server
    {
      var u := opts.pvc.uid;
      && u in server.users && server.users[u] == UserOf(opts) && u in server.world.born
      && (u in server.world.runs ==> !Active(server.world.runs[u].phase))
    }

    method Begin(o: Order)
      requires server.Valid() && Enabled(server.users, server.world, Handover.Begin(o))
      modifies server
      ensures server.Standing(o.user, o, LookingUp) && old(server.history) <= server.history
      ensures server.sent == old(server.sent)
    {
      server.Move(Handover.Begin(o));
    }

    /** waitBindPVC: the first modification that shows the claim bound, unless the watch ends first. */
    method WaitBindPVC(ghost o: Order, pod: Key, u: string, key: Key) returns (r: Option<Claim>)
      requires server.Standing(u, o, Awaiting(pod)) && key == server.users[u].temp
      modifies server
      ensures old(server.history) <= server.history
      ensures r.Some? ==> r.value.bound && server.Followed(old(server.sent), [Await(AwaitBound(key), r.value)], true)
      ensures r.None? ==> forall seen :: server.Followed(old(server.sent), [Await(AwaitBound(key), seen)], false)
      ensures server.Standing(u, o, if r.None? then Failed else Advance(server.users[u], Run(o, Awaiting(pod)), Seen(r.value)))
    {
      var watching: bool :| true;
      if !watching {
        server.EndWatch(u, key);
        return None;
      }
      var patience: nat :| true;
      while patience > 0
        invariant server.Standing(u, o, Awaiting(pod)) && old(server.history) <= server.history
        invariant server.sent == old(server.sent)
      {
        var event := server.NextEvent(u, key);
        match event {
          case Closed => return None;
          case TimedOut => return None;
          case Change(modified, shown) =>
            if modified && shown.Some? && shown.value.bound {
              return shown;
            }
        }
        patience := patience - 1;
      }
      server.EndWatch(u, key);
      return None;
    }

    /** The retried deletion of the pod: done when it is gone. */
    method StopPod(ghost o: Order, ghost seen: Claim, u: string, pod: Key) returns (ok: bool)
      requires server.Standing(u, o, StoppingPod(seen, pod, RETRIES))
      modifies server
      ensures old(server.history) <= server.history
      ensures server.Standing(u, o, if ok then Retaining(seen) else Failed)
      ensures ok ==> pod !in server.world.state.pods
      ensures server.Followed(old(server.sent), [Insist(DeletePod(pod), 5, true)], ok)
    {
      ghost var before, tried := server.sent, [];
      for attempt := 0 to RETRIES
        invariant server.Standing(u, o, if attempt < RETRIES then StoppingPod(seen, pod, RETRIES - attempt) else Failed)
        invariant old(server.history) <= server.history
        invariant server.sent == before + tried && |tried| == attempt && InVain(DeletePod(pod), true, tried)
      {
        var a := server.Call(u, DeletePod(pod));
        if a.Fine? || a.NotFound? {
          GetsThere(DeletePod(pod), 5, true, tried, a);
          assert server.sent[|before|..] == tried + [Sent(DeletePod(pod), a)];
          return true;
        }
        tried := tried + [Sent(DeletePod(pod), a)];
      }
      GivesUp(DeletePod(pod), 5, true, tried);
      return false;
    }

    /** The retried deletion of the temporary claim: any answer but success counts against it. */
    method DeleteTemp(ghost o: Order, ghost seen: Claim, u: string, key: Key) returns (ok: bool)
      requires server.Standing(u, o, Deleting(seen, RETRIES)) && key == server.users[u].temp
      modifies server
      ensures old(server.history) <= server.history
      ensures server.Standing(u, o, if ok then Detaching(seen) else Failed)
      ensures ok ==> (key in server.world.state.claims ==> server.world.state.claims[key].deleting)
      ensures server.Followed(old(server.sent), [Insist(DeleteClaim(key), 5, false)], ok)
    {
      ghost var before, tried := server.sent, [];
      for attempt := 0 to RETRIES
        invariant server.Standing(u, o, if attempt < RETRIES then Deleting(seen, RETRIES - attempt) else Failed)
        invariant old(server.history) <= server.history
        invariant server.sent == before + tried && |tried| == attempt && InVain(DeleteClaim(key), false, tried)
      {
        var a := server.Call(u, DeleteClaim(key));
        if a.Fine? {
          GetsThere(DeleteClaim(key), 5, false, tried, a);
          assert server.sent[|before|..] == tried + [Sent(DeleteClaim(key), a)];
          return true;
        }
        tried := tried + [Sent(DeleteClaim(key), a)];
      }
      GivesUp(DeleteClaim(key), 5, false, tried);
      return false;
    }

    static method KeptFinalizers(finalizers: seq<string>) returns (newFinalizers: seq<string>)
      ensures newFinalizers == WithoutProtection(finalizers)
    {
      newFinalizers := [];
      for i := 0 to |finalizers|
        invariant newFinalizers == WithoutProtection(finalizers[..i])
      {
        assert finalizers[..i + 1][..i] == finalizers[..i];
        if finalizers[i] != PROTECTION {
          newFinalizers := newFinalizers + [finalizers[i]];
        }
      }
      assert finalizers[..|finalizers|] == finalizers;
    }

    /** The volume is put on Retain; the temporary claim loses its protection and keeps the other finalizers seen. */
    method Loosen(ghost o: Order, u: string, key: Key, pvc: Claim) returns (ok: bool)
      requires server.Standing(u, o, Retaining(pvc)) && key == server.users[u].temp
      modifies server
      ensures old(server.history) <= server.history
      ensures server.Standing(u, o, if ok then Deleting(pvc, RETRIES) else Failed)
      ensures server.Followed(old(server.sent), LoosenScript(key, pvc), ok)
    {
      ghost var before := server.sent;
      ghost var retain := [Once(PatchVolume(pvc.volumeName, SetPolicy("Retain")))];
      ghost var unprotect := [Once(PatchClaim(key, SetFinalizers(WithoutProtection(pvc.finalizers))))];
      ok := server.Try(u, PatchVolume(pvc.volumeName, SetPolicy(RETAIN)));
      if !ok {
        server.Stopped(before, retain, unprotect);
        return;
      }
      ghost var mid := server.sent;
      var newFinalizers := KeptFinalizers(pvc.finalizers);
      ok := server.Try(u, PatchClaim(key, SetFinalizers(newFinalizers)));
      server.Continued(before, retain, mid, unprotect, ok);
    }

    /** The temporary claim is deleted, then the volume's claim reference cleared. */
    method Detach(ghost o: Order, u: string, key: Key, pvc: Claim) returns (ok: bool)
      requires server.Standing(u, o, Deleting(pvc, RETRIES)) && key == server.users[u].temp
      modifies server
      ensures old(server.history) <= server.history
      ensures server.Standing(u, o, if ok then Bonding(pvc.volumeName) else Failed)
      ensures server.Followed(old(server.sent), DetachScript(key, pvc), ok)
    {
      ghost var before := server.sent;
      ghost var delete, clear := [Insist(DeleteClaim(key), 5, false)], [Once(PatchVolume(pvc.volumeName, ClearClaimRef))];
      ok := DeleteTemp(o, pvc, u, key);
      if !ok {
        server.Stopped(before, delete, clear);
        return;
      }
      ghost var mid := server.sent;
      ok := server.Try(u, PatchVolume(pvc.volumeName, ClearClaimRef));
      server.Continued(before, delete, mid, clear, ok);
    }

    /** releasePV: Retain, drop the protection, delete the temporary claim, clear the claim reference, in this order. */
    method ReleasePV(ghost o: Order, u: string, key: Key, pvc: Claim) returns (pv: Option<string>)
      requires server.Standing(u, o, Retaining(pvc)) && key == server.users[u].temp
      modifies server
      ensures old(server.history) <= server.history
      ensures server.Standing(u, o, if pv.Some? then Bonding(pv.value) else Failed)
      ensures pv.Some? ==> pv.value == pvc.volumeName
      ensures server.Followed(old(server.sent), ReleaseScript(key, pvc), pv.Some?)
    {
      ghost var before := server.sent;
      var ok := Loosen(o, u, key, pvc);
      if !ok {
        server.Stopped(before, LoosenScript(key, pvc), DetachScript(key, pvc));
        return None;
      }
      ghost var mid := server.sent;
      ok := Detach(o, u, key, pvc);
      server.Continued(before, LoosenScript(key, pvc), mid, DetachScript(key, pvc), ok);
      return if ok then Some(pvc.volumeName) else None;
    }

    /** bondPVC: name the volume in the user's claim, and restore Delete together with the claim reference. */
    method BondPVC(ghost o: Order, opts: Options, pvName: string, sc: Selection.StorageClass) returns (ok: bool)
      requires server.Standing(opts.pvc.uid, o, Bonding(pvName)) && server.users[opts.pvc.uid] == UserOf(opts)
      requires o.user == opts.pvc.uid && o.backend == BackendOf(sc)
      modifies server
      ensures old(server.history) <= server.history
      ensures server.Standing(opts.pvc.uid, o, if ok then Done(pvName) else Failed)
      ensures server.Followed(old(server.sent), BondScript(opts, sc, pvName), ok)
    {
      ghost var before := server.sent;
      var annotations := map[
        STORAGE_PROVISIONER := sc.provisioner, BETA_STORAGE_PROVISIONER := sc.provisioner,
        BIND_COMPLETED := "yes", BOUND_BY_CONTROLLER := "yes"];
      ok := server.Try(opts.pvc.uid, PatchClaim(opts.pvc.key, Bond(annotations, pvName)));
      ghost var s1, mid := [Once(PatchClaim(opts.pvc.key, Bond(annotations, pvName)))], server.sent;
      if sc.reclaimPolicy.Some? && sc.reclaimPolicy.value == DELETE {
        ghost var restore := PatchVolume(pvName, Restore(DELETE, opts.pvc.apiVersion, opts.pvc.kind,
          opts.pvc.key.namespace, opts.pvc.key.name, opts.pvc.uid));
        if !ok {
          server.Stopped(before, s1, [Once(restore)]);
          return false;
        }
        ok := server.Try(opts.pvc.uid, PatchVolume(pvName,
          Restore(DELETE, opts.pvc.apiVersion, opts.pvc.kind, opts.pvc.key.namespace, opts.pvc.key.name, opts.pvc.uid)));
        server.Continued(before, s1, mid, [Once(restore)], ok);
      } else {
        assert s1 + [] == s1;
      }
    }

    /** Look the temporary claim up, and create it when the cache does not have it. */
    method EnsureTemp(o: Order, key: Key, annotations: map<string, string>) returns (ok: bool)
      requires server.Standing(o.user, o, LookingUp) && key == server.users[o.user].temp
      requires annotations == TempAnnotations(o)
      modifies server
      ensures old(server.history) <= server.history
      ensures server.Standing(o.user, o, if ok then AfterClaim(server.users[o.user], o) else Failed)
      ensures server.Followed(old(server.sent), [Ensure(LookUp(key), CreateClaim(key, o.backend.name, annotations))], ok)
    {
      ghost var before := server.sent;
      ghost var create := CreateClaim(key, o.backend.name, annotations);
      var a := server.Call(o.user, LookUp(key));
      if a.Fine? || !a.NotFound? {
        Found(LookUp(key), create, a);
        return a.Fine?;
      }
      a := server.Call(o.user, CreateClaim(key, o.backend.name, annotations));
      NotThere(LookUp(key), create, a);
      assert server.sent[|before|..] == [Sent(LookUp(key), NotFound), Sent(create, a)];
      return a.Fine?;
    }

    /** What a class that does not ask for Delete leaves: the volume retained for nobody, unless it was attached since. */
    ghost predicate Kept(since: nat, v: string, reclaimPolicy: Option<string>)
      reads server
    {
      reclaimPolicy != Some("Delete") && NeverAttached(server.history, since, v) ==> Unclaimed(server.world, v)
    }

    lemma LeftAlone(begun: seq<Move>, o: Order, v: string, since: nat)
      requires server.Began(begun, o.user) && server.Standing(o.user, o, Done(v)) && since <= |begun|
      ensures Kept(since, v, o.backend.reclaimPolicy)
    {
      if o.backend.reclaimPolicy != Some("Delete") && NeverAttached(server.history, since, v) {
        server.LeftUnclaimed(begun, o.user);
      }
    }

    /** Since before, a handover by this method was carried out, or was broken off. */
    ghost predicate Carried(before: seq<Sent>, opts: Options, sc: Selection.StorageClass, means: Method, ok: bool)
      reads server
    {
      exists pod, seen :: server.Followed(before, HandoverScript(opts, sc, means, pod, seen), ok)
    }

    ghost predicate Bound(before: seq<Sent>, opts: Options, sc: Selection.StorageClass, means: Method, pvc: Option<Claim>)
      reads server
    {
      before <= server.sent && BoundIn(server.sent[|before|..], opts, sc, means, pvc)
    }

    lemma NotStarted(before: seq<Sent>, opts: Options, sc: Selection.StorageClass, means: Method, pod: Key)
      requires server.Followed(before, StartScript(opts, sc, means, pod), false)
      ensures Bound(before, opts, sc, means, None)
    {
      var seen: Claim :| true;
      var temp := Key(opts.pvc.key.namespace, opts.pvName);
      server.Stopped(before, StartScript(opts, sc, means, pod), WaitScript(temp, means, pod, seen));
      assert Follows(BindScript(opts, sc, means, pod, seen), server.sent[|before|..], false);
    }

    lemma Started(before: seq<Sent>, mid: seq<Sent>, opts: Options, sc: Selection.StorageClass, means: Method,
                  pod: Key, seen: Claim, pvc: Option<Claim>)
      requires before <= mid && Follows(StartScript(opts, sc, means, pod), mid[|before|..], true)
      requires server.Followed(mid, WaitScript(Key(opts.pvc.key.namespace, opts.pvName), means, pod, seen), pvc.Some?)
      requires pvc.Some? ==> seen == pvc.value
      ensures Bound(before, opts, sc, means, pvc)
    {
      var temp := Key(opts.pvc.key.namespace, opts.pvName);
      server.Continued(before, StartScript(opts, sc, means, pod), mid, WaitScript(temp, means, pod, seen), pvc.Some?);
      assert Follows(BindScript(opts, sc, means, pod, seen), server.sent[|before|..], pvc.Some?);
    }

    /** The temporary claim, seen bound by a backend that its annotations made act. */
    method BindByAnnotation(o: Order, opts: Options, sc: Selection.StorageClass, key: Key) returns (pvc: Option<Claim>)
      requires server.Standing(opts.pvc.uid, o, LookingUp) && o == OrderOf(opts, ByAnnotation, sc)
      requires key == server.users[o.user].temp == Key(opts.pvc.key.namespace, opts.pvName)
      modifies server
      ensures old(server.history) <= server.history
      ensures server.Standing(opts.pvc.uid, o, if pvc.Some? then Retaining(pvc.value) else Failed)
      ensures Bound(old(server.sent), opts, sc, ByAnnotation, pvc)
    {
      ghost var before := server.sent;
      var created := EnsureTemp(o, key, map[
        STORAGE_PROVISIONER := sc.provisioner, BETA_STORAGE_PROVISIONER := sc.provisioner,
        SELECTED_NODE := opts.selectedNode.name]);
      if !created {
        NotStarted(before, opts, sc, ByAnnotation, key);
        return None;
      }
      ghost var mid := server.sent;
      pvc := WaitBindPVC(o, PodKey(server.users[o.user]), o.user, key);
      ghost var seen: Claim :| pvc.Some? ==> seen == pvc.value;
      Started(before, mid, opts, sc, ByAnnotation, key, seen, pvc);
    }

    method CreatePVbyAnnotation(opts: Options, sc: Selection.StorageClass) returns (pv: Option<string>)
      requires Valid() && MayBegin(opts)
      modifies server
      ensures old(server.history) <= server.history
      ensures server.Standing(opts.pvc.uid, OrderOf(opts, ByAnnotation, sc), if pv.Some? then Done(pv.value) else Failed)
      ensures pv.Some? ==> Kept(|old(server.history)|, pv.value, sc.reclaimPolicy)
      ensures Carried(old(server.sent), opts, sc, ByAnnotation, pv.Some?)
    {
      var o := OrderOf(opts, ByAnnotation, sc);
      var key := Key(opts.pvc.key.namespace, opts.pvName);
      Begin(o);
      ghost var begun, before := server.history, server.sent;
      var pvc := BindByAnnotation(o, opts, sc, key);
      if pvc.None? {
        BrokenOffEarly(before, opts, sc, ByAnnotation);
        return None;
      }
      ghost var mid := server.sent;
      pv := HandOver(o, opts, sc, key, pvc.value);
      Joined(before, mid, opts, sc, ByAnnotation, key, pvc.value, pv.Some?);
      if pv.Some? {
        LeftAlone(begun, o, pv.value, |old(server.history)|);
      }
    }

    lemma BrokenOffEarly(before: seq<Sent>, opts: Options, sc: Selection.StorageClass, means: Method)
      requires Bound(before, opts, sc, means, None)
      ensures Carried(before, opts, sc, means, false)
    {
      var pod, seen :| Follows(BindScript(opts, sc, means, pod, seen), server.sent[|before|..], false);
      var temp := Key(opts.pvc.key.namespace, opts.pvName);
      server.Stopped(before, BindScript(opts, sc, means, pod, seen),
                     ReleaseScript(temp, seen) + BondScript(opts, sc, seen.volumeName));
      assert server.Followed(before, HandoverScript(opts, sc, means, pod, seen), false);
    }

    lemma Joined(before: seq<Sent>, mid: seq<Sent>, opts: Options, sc: Selection.StorageClass, means: Method,
                 key: Key, seen: Claim, ok: bool)
      requires before <= mid && BoundIn(mid[|before|..], opts, sc, means, Some(seen))
      requires key == Key(opts.pvc.key.namespace, opts.pvName)
      requires server.Followed(mid, ReleaseScript(key, seen) + BondScript(opts, sc, seen.volumeName), ok)
      ensures Carried(before, opts, sc, means, ok)
    {
      var pod :| Follows(BindScript(opts, sc, means, pod, seen), mid[|before|..], true);
      server.Continued(before, BindScript(opts, sc, means, pod, seen), mid,
                       ReleaseScript(key, seen) + BondScript(opts, sc, seen.volumeName), ok);
      assert server.Followed(before, HandoverScript(opts, sc, means, pod, seen), ok);
    }

    /** Create the pod that makes the backend bind; a pod left over from before is used as the client reports it. */
    method StartPod(o: Order, key: Key) returns (pod: Option<Key>)
      requires server.Standing(o.user, o, StartingPod) && key == server.users[o.user].temp
      modifies server
      ensures old(server.history) <= server.history
      ensures server.Standing(o.user, o, if pod.Some? then Awaiting(pod.value) else Failed)
      ensures var q := CreatePod(Key(key.namespace, "provisioner-" + key.name), Pod(o.node, key.name));
        if pod.Some? then server.Followed(old(server.sent), [Start(q, pod.value)], true)
        else forall p :: server.Followed(old(server.sent), [Start(q, p)], false)
    {
      var name := Key(key.namespace, "provisioner-" + key.name);
      var a := server.Call(o.user, CreatePod(name, Pod(o.node, key.name)));
      if a.AlreadyExists? {
        return Some(a.handle);
      }
      return if a.Fine? then Some(name) else None;
    }

    /** From the bound temporary claim to the user's claim: what both methods end with. */
    method HandOver(ghost o: Order, opts: Options, sc: Selection.StorageClass, key: Key, pvc: Claim)
      returns (pv: Option<string>)
      requires server.Standing(opts.pvc.uid, o, Retaining(pvc)) && server.users[opts.pvc.uid] == UserOf(opts)
      requires o.user == opts.pvc.uid && o.backend == BackendOf(sc) && key == UserOf(opts).temp
      modifies server
      ensures old(server.history) <= server.history
      ensures server.Standing(opts.pvc.uid, o, if pv.Some? then Done(pv.value) else Failed)
      ensures server.Followed(old(server.sent), ReleaseScript(key, pvc) + BondScript(opts, sc, pvc.volumeName), pv.Some?)
    {
      ghost var before := server.sent;
      pv := ReleasePV(o, opts.pvc.uid, key, pvc);
      ghost var mid := server.sent;
      if pv.None? {
        server.Stopped(before, ReleaseScript(key, pvc), BondScript(opts, sc, pvc.volumeName));
        return None;
      }
      var bonded := BondPVC(o, opts, pv.value, sc);
      server.Continued(before, ReleaseScript(key, pvc), mid, BondScript(opts, sc, pvc.volumeName), bonded);
      if !bonded {
        return None;
      }
    }

    /** The temporary claim, and the pod that uses it. */
    method StartByPod(o: Order, opts: Options, sc: Selection.StorageClass, key: Key) returns (pod: Option<Key>)
      requires server.Standing(opts.pvc.uid, o, LookingUp) && o == OrderOf(opts, ByPod, sc)
      requires key == server.users[o.user].temp == Key(opts.pvc.key.namespace, opts.pvName)
      modifies server
      ensures old(server.history) <= server.history
      ensures server.Standing(opts.pvc.uid, o, if pod.Some? then Awaiting(pod.value) else Failed)
      ensures server.Followed(old(server.sent),
        StartScript(opts, sc, ByPod, if pod.Some? then pod.value else key), pod.Some?)
    {
      ghost var before := server.sent;
      ghost var create := CreatePod(Key(key.namespace, "provisioner-" + opts.pvName), Pod(o.node, opts.pvName));
      ghost var ensureTemp := [Ensure(LookUp(key), CreateClaim(key, sc.name, map[]))];
      var created := EnsureTemp(o, key, map[]);
      if !created {
        server.Stopped(before, ensureTemp, [Start(create, key)]);
        return None;
      }
      ghost var mid := server.sent;
      pod := StartPod(o, key);
      ghost var handle := if pod.Some? then pod.value else key;
      server.Continued(before, ensureTemp, mid, [Start(create, handle)], pod.Some?);
    }

    /** The temporary claim seen bound, and the pod gone. */
    method WaitByPod(o: Order, key: Key, pod: Key) returns (pvc: Option<Claim>, ghost seen: Claim)
      requires server.Standing(o.user, o, Awaiting(pod)) && key == server.users[o.user].temp && o.way.ByPod?
      modifies server
      ensures old(server.history) <= server.history
      ensures server.Standing(o.user, o, if pvc.Some? then Retaining(pvc.value) else Failed)
      ensures pvc.Some? ==> seen == pvc.value
      ensures server.Followed(old(server.sent), WaitScript(key, ByPod, pod, seen), pvc.Some?)
    {
      ghost var before, stop := server.sent, [Insist(DeletePod(pod), 5, true)];
      pvc := WaitBindPVC(o, pod, o.user, key);
      if pvc.None? {
        seen :| true;
        server.Stopped(before, [Await(AwaitBound(key), seen)], stop);
        return;
      }
      seen := pvc.value;
      ghost var mid := server.sent;
      var stopped := StopPod(o, pvc.value, o.user, pod);
      server.Continued(before, [Await(AwaitBound(key), seen)], mid, stop, stopped);
      if !stopped {
        pvc := None;
      }
    }

    /** The temporary claim, seen bound through a pod that is gone again. */
    method BindByPod(o: Order, opts: Options, sc: Selection.StorageClass, key: Key) returns (pvc: Option<Claim>)
      requires server.Standing(opts.pvc.uid, o, LookingUp) && o == OrderOf(opts, ByPod, sc)
      requires key == server.users[o.user].temp == Key(opts.pvc.key.namespace, opts.pvName)
      modifies server
      ensures old(server.history) <= server.history
      ensures server.Standing(opts.pvc.uid, o, if pvc.Some? then Retaining(pvc.value) else Failed)
      ensures Bound(old(server.sent), opts, sc, ByPod, pvc)
    {
      ghost var before := server.sent;
      var pod := StartByPod(o, opts, sc, key);
      if pod.None? {
        NotStarted(before, opts, sc, ByPod, key);
        return None;
      }
      ghost var mid := server.sent;
      ghost var seen;
      pvc, seen := WaitByPod(o, key, pod.value);
      Started(before, mid, opts, sc, ByPod, pod.value, seen, pvc);
    }

    method CreatePVbyPOD(opts: Options, sc: Selection.StorageClass) returns (pv: Option<string>)
      requires Valid() && MayBegin(opts)
      modifies server
      ensures old(server.history) <= server.history
      ensures server.Standing(opts.pvc.uid, OrderOf(opts, ByPod, sc), if pv.Some? then Done(pv.value) else Failed)
      ensures pv.Some? ==> Kept(|old(server.history)|, pv.value, sc.reclaimPolicy)
      ensures Carried(old(server.sent), opts, sc, ByPod, pv.Some?)
    {
      var o := OrderOf(opts, ByPod, sc);
      var key := Key(opts.pvc.key.namespace, opts.pvName);
      Begin(o);
      ghost var begun, before := server.history, server.sent;
      var pvc := BindByPod(o, opts, sc, key);
      if pvc.None? {
        BrokenOffEarly(before, opts, sc, ByPod);
        return None;
      }
      ghost var mid := server.sent;
      pv := HandOver(o, opts, sc, key, pvc.value);
      Joined(before, mid, opts, sc, ByPod, key, pvc.value, pv.Some?);
      if pv.Some? {
        LeftAlone(begun, o, pv.value, |old(server.history)|);
      }
    }

    /**
     What Provision has done for the class at position i of the list: a handover by the configured method,
     to its end or broken off; in the end the volume is settled as the class wants it.
     */
    ghost predicate Provisioned(opts: Options, sc: Selection.StorageClass, since: nat, before: seq<Sent>, pv: Option<string>)
      reads server
    {
      var means := if way == "pod" then ByPod else ByAnnotation;
      && server.Standing(opts.pvc.uid,
           Order(opts.pvc.uid, means, Backend(sc.name, sc.provisioner, sc.reclaimPolicy), opts.selectedNode.name),
           if pv.Some? then Done(pv.value) else Failed)
      && Carried(before, opts, sc, means, pv.Some?)
      && (pv.Some? ==>
            && Complete(server.users, server.world, opts.pvc.uid, pv.value, sc.provisioner, sc.reclaimPolicy)
            && Kept(since, pv.value, sc.reclaimPolicy))
    }

    /**
     Provision: select the class, hand a volume over. Whenever a class qualifies, the first that does is
     provisioned for by the configured method.
     */
    method Provision(opts: Options) returns (pv: Option<string>, state: ProvisioningState)
      requires Valid() && MayBegin(opts)
      modifies server
      ensures Valid() && old(server.history) <= server.history
      ensures opts.storageClass.None? || "storageClasses" !in opts.storageClass.value.parameters ==>
        pv.None? && state == Finished && server.world == old(server.world) && server.sent == old(server.sent)
      ensures opts.storageClass.Some? && "storageClasses" in opts.storageClass.value.parameters ==>
        var names := Selection.SplitAtCommas(opts.storageClass.value.parameters["storageClasses"]);
        var csi := listers.csiNodes(opts.selectedNode.name);
        && (state == Reschedule <==>
              !csi.Item? || forall i :: 0 <= i < |names| ==> !Selection.Qualifies(listers, csi.value, opts.selectedNode, names[i]))
        && (state == Reschedule ==>
              pv.None? && server.world == old(server.world) && server.sent == old(server.sent))
        && (state == Finished ==>
              exists i: nat :: Selection.FirstQualifying(listers, csi.value, opts.selectedNode, names, i)
                && Provisioned(opts, listers.classes(names[i]).value, |old(server.history)|, old(server.sent), pv))
    {
      if opts.storageClass.None? {
        return None, Finished;
      }
      if "storageClasses" !in opts.storageClass.value.parameters {
        return None, Finished;
      }
      var names := Selection.SplitAtCommas(opts.storageClass.value.parameters["storageClasses"]);
      var found := Selection.GetStorageClassFromNode(listers, opts.selectedNode, names);
      if found.None? {
        return None, Reschedule;
      }
      ghost var i: nat :| Selection.FirstQualifying(listers, listers.csiNodes(opts.selectedNode.name).value,
                                                    opts.selectedNode, names, i)
        && listers.classes(names[i]) == found;
      state := Finished;
      if way == "pod" {
        pv := CreatePVbyPOD(opts, found.value);
      } else {
        pv := CreatePVbyAnnotation(opts, found.value);
      }
      if pv.Some? {
        HandedOver(server.users, server.world, opts.pvc.uid);
      }
      assert Provisioned(opts, found.value, |old(server.history)|, old(server.sent), pv);
    }
  }
}
