/** The part of the API server the provisioner works on, and what each of its calls does there. */
module Cluster {
  import opened Wrappers

  /** Namespace and name; claims and pods are both addressed this way. */
  datatype Key = Key(namespace: string, name: string)

  datatype ClaimRef = ClaimRef(
    apiVersion: string, kind: string, namespace: string, name: string, uid: string, resourceVersion: string)

  datatype Volume = Volume(policy: string, claimRef: Option<ClaimRef>)

  datatype Claim = Claim(
    uid: string, deleting: bool, finalizers: seq<string>, bound: bool, volumeName: string,
    storageClass: string, annotations: map<string, string>)

  datatype Pod = Pod(node: string, claimName: string)

  datatype State = State(claims: map<Key, Claim>, volumes: map<string, Volume>, pods: map<Key, Pod>)

  const RETAIN := "Retain"
  const DELETE := "Delete"
  const PROTECTION := "kubernetes.io/pvc-protection"
  const FOREGROUND := "foregroundDeletion"

  function WithoutProtection(finalizers: seq<string>): seq<string> {
    if finalizers == [] then []
    else
      var n := |finalizers| - 1;
      WithoutProtection(finalizers[..n]) + (if finalizers[n] != PROTECTION then [finalizers[n]] else [])
  }

  /** Nothing but the protection is lost, and no copy of anything else. */
  lemma {:induction false} WithoutProtectionCounts(finalizers: seq<string>, f: string)
    ensures multiset(WithoutProtection(finalizers))[f] == if f == PROTECTION then 0 else multiset(finalizers)[f]
  {
    if finalizers != [] {
      var n := |finalizers| - 1;
      WithoutProtectionCounts(finalizers[..n], f);
      assert finalizers == finalizers[..n] + [finalizers[n]];
    }
  }

  /** The order of what remains is that of the list. */
  lemma {:induction false} WithoutProtectionConcat(a: seq<string>, b: seq<string>)
    ensures WithoutProtection(a + b) == WithoutProtection(a) + WithoutProtection(b)
    decreases |b|
  {
    if b == [] {
      assert a + b == a;
    } else {
      var n := |b| - 1;
      WithoutProtectionConcat(a, b[..n]);
      assert (a + b)[..|a + b| - 1] == a + b[..n];
    }
  }

  // ------------------------------------------------------------------ patches

  /** The merge patches sent to volumes. */
  datatype VolumePatch =
    | SetPolicy(policy: string)
    | ClearClaimRef
    | Restore(policy: string, apiVersion: string, kind: string, namespace: string, name: string, uid: string)

  /** The merge patches sent to claims; the second is what marshalling a claim with these fields amounts to. */
  datatype ClaimPatch =
    | SetFinalizers(names: seq<string>)
    | Bond(annotations: map<string, string>, volumeName: string)

  function PatchedVolume(v: Volume, p: VolumePatch): Volume {
    match p
    case SetPolicy(policy) => v.(policy := policy)
    case ClearClaimRef => v.(claimRef := None)
    case Restore(policy, apiVersion, kind, namespace, name, uid) =>
      var kept := if v.claimRef.Some? then v.claimRef.value.resourceVersion else "";
      Volume(policy, Some(ClaimRef(apiVersion, kind, namespace, name, uid, kept)))
  }

  function PatchedClaim(c: Claim, p: ClaimPatch): Claim {
    match p
    case SetFinalizers(names) => c.(finalizers := names)
    case Bond(annotations, volumeName) => c.(annotations := c.annotations + annotations, volumeName := volumeName)
  }

  /** Storing a claim that is being deleted and has no finalizer left removes it. */
  function StoreClaim(s: State, k: Key, c: Claim): State {
    if c.deleting && c.finalizers == [] then s.(claims := s.claims - {k}) else s.(claims := s.claims[k := c])
  }

  // -------------------------------------------------------------------- calls

  datatype Request =
    | LookUp(key: Key)
    | CreateClaim(key: Key, storageClass: string, annotations: map<string, string>)
    | CreatePod(key: Key, pod: Pod)
    | AwaitBound(key: Key)
    | DeletePod(key: Key)
    | PatchVolume(name: string, volumePatch: VolumePatch)
    | PatchClaim(key: Key, claimPatch: ClaimPatch)
    | DeleteClaim(key: Key)

  datatype Reply = Fine | NotFound | AlreadyExists(handle: Key) | Refused | Seen(claim: Claim)

  /** A call is carried out and answered, or never arrives, or is carried out and its answer is lost. */
  datatype Fate = Served | Dropped | ReplyLost

  /** What the server and the caches decide beyond the program's control. */
  datatype Chance = Chance(
    cached: Reply,            // what the possibly stale claim cache answers
    uid: string,              // of a claim being created
    finalizers: seq<string>,  // admission puts on it
    purged: bool,             // a deleted claim without finalizers goes at once
    handle: Key)              // what the client library leaves in the pod variable on AlreadyExists

  function Serve(s: State, q: Request, x: Chance): (State, Reply) {
    match q
    case LookUp(_) => (s, x.cached)
    case CreateClaim(k, storageClass, annotations) =>
      if k in s.claims then (s, AlreadyExists(k))
      else (s.(claims := s.claims[k := Claim(x.uid, false, x.finalizers, false, "", storageClass, annotations)]), Fine)
    case CreatePod(k, pod) =>
      if k in s.pods then (s, AlreadyExists(x.handle)) else (s.(pods := s.pods[k := pod]), Fine)
    case AwaitBound(k) =>
      if k in s.claims && s.claims[k].bound then (s, Seen(s.claims[k])) else (s, Refused)
    case DeletePod(k) =>
      if k in s.pods then (State(s.claims, s.volumes, s.pods - {k}), Fine) else (s, NotFound)
    case PatchVolume(name, p) =>
      if name in s.volumes then (s.(volumes := s.volumes[name := PatchedVolume(s.volumes[name], p)]), Fine)
      else (s, NotFound)
    case PatchClaim(k, p) =>
      if k in s.claims then (StoreClaim(s, k, PatchedClaim(s.claims[k], p)), Fine) else (s, NotFound)
    case DeleteClaim(k) =>
      if k !in s.claims then (s, NotFound)
      else if s.claims[k].finalizers == [] && x.purged then (s.(claims := s.claims - {k}), Fine)
      else (s.(claims := s.claims[k := MarkedDeleting(s.claims[k])]), Fine)
  }

  /** Foreground deletion leaves the claim in place, marked, until its last finalizer goes. */
  function MarkedDeleting(c: Claim): Claim {
    c.(deleting := true,
       finalizers := if FOREGROUND in c.finalizers then c.finalizers else c.finalizers + [FOREGROUND])
  }

  function Call(s: State, q: Request, fate: Fate, x: Chance): (State, Reply) {
    match fate
    case Served => Serve(s, q, x)
    case Dropped => (s, Refused)
    case ReplyLost => (Serve(s, q, x).0, Refused)
  }
}
