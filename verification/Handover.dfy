/**
 The volume handover as a state machine: any number of provisioning runs, one program counter each, over
 one API server, interleaved with users, the storage backend and the volume controller.
 */
module Handover {
  import opened Wrappers
  import opened Cluster

  /** A user's claim, by its uid, and the name its temporary claim will have. */
  datatype User = User(key: Key, temp: Key, apiVersion: string, kind: string)

  type Users = map<string, User>

  /** The storage class chosen for the node. */
  datatype Backend = Backend(name: string, provisioner: string, reclaimPolicy: Option<string>)

  datatype Method = ByAnnotation | ByPod

  datatype Order = Order(user: string, way: Method, backend: Backend, node: string)

  /** Where a run stands. The claim seen bound, or the volume it named, travels along. */
  datatype Phase =
    | LookingUp
    | Creating
    | StartingPod
    | Awaiting(pod: Key)
    | StoppingPod(seen: Claim, pod: Key, left: nat)
    | Retaining(seen: Claim)
    | Unprotecting(seen: Claim)
    | Deleting(seen: Claim, left: nat)
    | Detaching(seen: Claim)
    | Bonding(volume: string)
    | Restoring(volume: string)
    | Done(volume: string)
    | Failed

  datatype Run = Run(order: Order, phase: Phase)

  const RETRIES: nat := 5

  const STORAGE_PROVISIONER := "volume.kubernetes.io/storage-provisioner"
  const BETA_STORAGE_PROVISIONER := "volume.beta.kubernetes.io/storage-provisioner"
  const SELECTED_NODE := "volume.kubernetes.io/selected-node"
  const BIND_COMPLETED := "pv.kubernetes.io/bind-completed"
  const BOUND_BY_CONTROLLER := "pv.kubernetes.io/bound-by-controller"

  // --------------------------------------------------- one run: call and reply

  predicate Active(p: Phase) {
    !p.Done? && !p.Failed?
  }

  function PodKey(u: User): Key {
    Key(u.temp.namespace, "provisioner-" + u.temp.name)
  }

  function TempAnnotations(o: Order): map<string, string> {
    if o.way.ByPod? then map[]
    else map[
      STORAGE_PROVISIONER := o.backend.provisioner,
      BETA_STORAGE_PROVISIONER := o.backend.provisioner,
      SELECTED_NODE := o.node]
  }

  function BondAnnotations(b: Backend): map<string, string> {
    map[
      STORAGE_PROVISIONER := b.provisioner,
      BETA_STORAGE_PROVISIONER := b.provisioner,
      BIND_COMPLETED := "yes",
      BOUND_BY_CONTROLLER := "yes"]
  }

  function RestorePatch(u: User, uid: string): VolumePatch {
    Restore(DELETE, u.apiVersion, u.kind, u.key.namespace, u.key.name, uid)
  }

  predicate RestoresPolicy(b: Backend) {
    b.reclaimPolicy == Some(DELETE)
  }

  /** The call a run makes next. */
  function NextRequest(u: User, r: Run): Request
    requires Active(r.phase)
  {
    match r.phase
    case LookingUp => LookUp(u.temp)
    case Creating => CreateClaim(u.temp, r.order.backend.name, TempAnnotations(r.order))
    case StartingPod => CreatePod(PodKey(u), Pod(r.order.node, u.temp.name))
    case Awaiting(_) => AwaitBound(u.temp)
    case StoppingPod(_, pod, _) => DeletePod(pod)
    case Retaining(seen) => PatchVolume(seen.volumeName, SetPolicy(RETAIN))
    case Unprotecting(seen) => PatchClaim(u.temp, SetFinalizers(WithoutProtection(seen.finalizers)))
    case Deleting(_, _) => DeleteClaim(u.temp)
    case Detaching(seen) => PatchVolume(seen.volumeName, ClearClaimRef)
    case Bonding(v) => PatchClaim(u.key, Bond(BondAnnotations(r.order.backend), v))
    case Restoring(v) => PatchVolume(v, RestorePatch(u, r.order.user))
  }

  function AfterClaim(u: User, o: Order): Phase {
    if o.way.ByPod? then StartingPod else Awaiting(PodKey(u))
  }

  /** Where the reply takes it. */
  function Advance(u: User, r: Run, a: Reply): Phase
    requires Active(r.phase)
  {
    match r.phase
    case LookingUp =>
      if a.Fine? then AfterClaim(u, r.order) else if a.NotFound? then Creating else Failed
    case Creating => if a.Fine? then AfterClaim(u, r.order) else Failed
    case StartingPod =>
      if a.Fine? then Awaiting(PodKey(u)) else if a.AlreadyExists? then Awaiting(a.handle) else Failed
    case Awaiting(pod) =>
      if !a.Seen? then Failed
      else if r.order.way.ByPod? then StoppingPod(a.claim, pod, RETRIES) else Retaining(a.claim)
    case StoppingPod(seen, pod, left) =>
      if a.Fine? || a.NotFound? then Retaining(seen)
      else if left > 1 then StoppingPod(seen, pod, left - 1) else Failed
    case Retaining(seen) => if a.Fine? then Unprotecting(seen) else Failed
    case Unprotecting(seen) => if a.Fine? then Deleting(seen, RETRIES) else Failed
    case Deleting(seen, left) =>
      if a.Fine? then Detaching(seen) else if left > 1 then Deleting(seen, left - 1) else Failed
    case Detaching(seen) => if a.Fine? then Bonding(seen.volumeName) else Failed
    case Bonding(v) =>
      if !a.Fine? then Failed else if RestoresPolicy(r.order.backend) then Restoring(v) else Done(v)
    case Restoring(v) => if a.Fine? then Done(v) else Failed
  }

  // ------------------------------------------------------------------- world

  /**
   The API server, the latest run of every user claim, and three records: for whose claim each volume was
   provisioned, which user claims have existed, and which of those were deleted.
   */
  datatype World = World(
    state: State, runs: map<string, Run>, origin: map<string, string>, born: set<string>, dead: set<string>)

  datatype Move =
    | Step(run: string, fate: Fate, chance: Chance)      // a run makes its next call
    | Begin(order: Order)                                // provisioning starts, or is retried
    | Crashes(run: string)                               // the provisioner dies in the middle of a run
    | UserCreates(uid: string)
    | UserDeletes(uid: string)
    | Provisions(uid: string, volume: string, policy: string)  // the backend binds a fresh volume to a temporary claim
    | Attaches(volume: string, key: Key)                 // an available volume goes to a claim that names it
    | Finalizes(key: Key, finalizers: seq<string>)       // other controllers change finalizers
    | Reclaims(volume: string)                           // the volume controller acts on the Delete policy

  predicate Live(s: State, ref: ClaimRef) {
    var k := Key(ref.namespace, ref.name);
    k in s.claims && s.claims[k].uid == ref.uid
  }

  function RefTo(k: Key, uid: string): ClaimRef {
    ClaimRef("v1", "PersistentVolumeClaim", k.namespace, k.name, uid, "")
  }

  predicate Enabled(users: Users, w: World, m: Move) {
    match m
    case Step(u, _, _) => u in users && u in w.runs && Active(w.runs[u].phase)
    case Begin(o) =>
      // at most one run in flight per user claim
      o.user in users && o.user in w.born && (o.user in w.runs ==> !Active(w.runs[o.user].phase))
    case Crashes(u) => u in w.runs && Active(w.runs[u].phase)
    case UserCreates(u) => u in users && u !in w.born && users[u].key !in w.state.claims
    case UserDeletes(u) => u in users && u in w.born && u !in w.dead
    case Provisions(u, v, _) =>
      && u in users && users[u].temp in w.state.claims && w.state.claims[users[u].temp].volumeName == ""
      && v != "" && v !in w.origin && v !in w.state.volumes
    case Attaches(v, k) =>
      && v in w.state.volumes && w.state.volumes[v].claimRef.None?
      && k in w.state.claims && w.state.claims[k].volumeName == v
    case Finalizes(k, _) => k in w.state.claims
    case Reclaims(v) =>
      && v in w.state.volumes && w.state.volumes[v].policy == DELETE && w.state.volumes[v].claimRef.Some?
      && !Live(w.state, w.state.volumes[v].claimRef.value)
  }

  function Apply(users: Users, w: World, m: Move): World
    requires Enabled(users, w, m)
  {
    var s := w.state;
    match m
    case Step(u, fate, x) =>
      var r := w.runs[u];
      var (s', reply) := Call(s, NextRequest(users[u], r), fate, x);
      w.(state := s', runs := w.runs[u := r.(phase := Advance(users[u], r, reply))])
    case Begin(o) => w.(runs := w.runs[o.user := Run(o, LookingUp)])
    case Crashes(u) => w.(runs := w.runs[u := w.runs[u].(phase := Failed)])
    case UserCreates(u) =>
      w.(state := s.(claims := s.claims[users[u].key := Claim(u, false, [PROTECTION], false, "", "", map[])]),
         born := w.born + {u})
    case UserDeletes(u) =>
      w.(state := s.(claims := s.claims - {users[u].key}), dead := w.dead + {u})
    case Provisions(u, v, policy) =>
      var k := users[u].temp;
      var c := s.claims[k];
      w.(state := s.(claims := s.claims[k := c.(bound := true, volumeName := v)],
                     volumes := s.volumes[v := Volume(policy, Some(RefTo(k, c.uid)))]),
         origin := w.origin[v := u])
    case Attaches(v, k) =>
      w.(state := s.(volumes := s.volumes[v := s.volumes[v].(claimRef := Some(RefTo(k, s.claims[k].uid)))]))
    case Finalizes(k, names) =>
      w.(state := StoreClaim(s, k, s.claims[k].(finalizers := names)))
    case Reclaims(v) => w.(state := s.(volumes := s.volumes - {v}))
  }

  /** Names do not clash: user claims have temporary claims of their own, and neither kind takes the other's name. */
  predicate DistinctNames(users: Users) {
    && (forall u, u' :: u in users && u' in users && u != u' ==> users[u].temp != users[u'].temp)
    && (forall u, u' :: u in users && u' in users ==> users[u].temp != users[u'].key)
  }

  /** A cluster in which none of these claims exists yet; everything else in it is arbitrary. */
  predicate Initial(users: Users, w: World) {
    && w.runs == map[] && w.origin == map[] && w.born == {} && w.dead == {}
    && forall u :: u in users ==> users[u].key !in w.state.claims && users[u].temp !in w.state.claims
  }

  /** Runs the moves from the first; none when one of them is not possible. */
  function Replay(users: Users, w: World, moves: seq<Move>): Option<World> {
    if moves == [] then Some(w)
    else
      var n := |moves| - 1;
      match Replay(users, w, moves[..n])
      case None => None
      case Some(w') => if Enabled(users, w', moves[n]) then Some(Apply(users, w', moves[n])) else None
  }

  ghost predicate Reachable(users: Users, w: World) {
    exists start, moves :: Initial(users, start) && Replay(users, start, moves) == Some(w)
  }
}
