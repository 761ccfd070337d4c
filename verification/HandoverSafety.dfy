/** What every step of every interleaving of handovers keeps, and what follows for the volumes. */
module HandoverSafety {
  import opened Wrappers
  import opened Cluster
  import opened Handover

  // --------------------------------------------------------------- invariant

  /** A temporary claim names only volumes provisioned for it, and is deleted only once it names one. */
  predicate TempOk(users: Users, w: World, u: string)
    requires u in users
  {
    var k := users[u].temp;
    k in w.state.claims ==>
      var c := w.state.claims[k];
      && (c.volumeName != "" ==> c.volumeName in w.origin && w.origin[c.volumeName] == u)
      && (c.bound || c.deleting ==> c.volumeName != "")
  }

  /** A user claim is there from its creation to its deletion, and names only volumes provisioned for that name. */
  predicate UserOk(users: Users, w: World, u: string)
    requires u in users
  {
    var k := users[u].key;
    && (u in w.dead ==> u in w.born)
    && (u in w.born && u !in w.dead ==> k in w.state.claims && w.state.claims[k].uid == u)
    && (k in w.state.claims ==>
          var c := w.state.claims[k];
          && !c.deleting
          && (c.volumeName != "" ==>
                c.volumeName in w.origin && w.origin[c.volumeName] in users
                && users[w.origin[c.volumeName]].key == k))
  }

  predicate RefersTo(ref: ClaimRef, k: Key) {
    Key(ref.namespace, ref.name) == k
  }

  /** The temporary claim the volume was provisioned for still stands, undeleted. */
  predicate HeldByTemp(users: Users, w: World, u: string, v: string, ref: ClaimRef)
    requires u in users
  {
    var k := users[u].temp;
    && RefersTo(ref, k) && k in w.state.claims && w.state.claims[k].uid == ref.uid
    && !w.state.claims[k].deleting && w.state.claims[k].volumeName == v
  }

  /** The volume belongs to the user's claim. */
  predicate HeldByUser(users: Users, w: World, u: string, ref: ClaimRef)
    requires u in users
  {
    RefersTo(ref, users[u].key) && ref.uid == u && u in w.born
  }

  predicate VolumeOk(users: Users, w: World, v: string)
    requires v in w.origin
  {
    var u := w.origin[v];
    && u in users && v != ""
    && (v in w.state.volumes || u in w.dead)
    && (v in w.state.volumes && w.state.volumes[v].policy == DELETE ==>
          var ref := w.state.volumes[v].claimRef;
          ref.Some? && (HeldByTemp(users, w, u, v, ref.value) || HeldByUser(users, w, u, ref.value)))
  }

  /** The claim seen bound, while the run still has it in hand. */
  function SeenBy(p: Phase): Option<Claim> {
    match p
    case StoppingPod(seen, _, _) => Some(seen)
    case Retaining(seen) => Some(seen)
    case Unprotecting(seen) => Some(seen)
    case Deleting(seen, _) => Some(seen)
    case Detaching(seen) => Some(seen)
    case _ => None
  }

  /** The volume a run is handing over. */
  function VolumeOf(p: Phase): Option<string> {
    match p
    case Bonding(v) => Some(v)
    case Restoring(v) => Some(v)
    case Done(v) => Some(v)
    case _ => if SeenBy(p).Some? then Some(SeenBy(p).value.volumeName) else None
  }

  /** From the acknowledged Retain patch up to the last patch. */
  predicate Retained(p: Phase) {
    p.Unprotecting? || p.Deleting? || p.Detaching? || p.Bonding? || p.Restoring?
  }

  /** Once the deletion of the temporary claim was acknowledged. */
  predicate TempGone(p: Phase) {
    p.Detaching? || p.Bonding? || p.Restoring? || p.Done?
  }

  predicate SoleOfItsName(users: Users, u: string)
    requires u in users
  {
    forall u' :: u' in users && u' != u ==> users[u'].key != users[u].key
  }

  predicate Noted(annotations: map<string, string>, k: string, value: string) {
    k in annotations && annotations[k] == value
  }

  /** The claim names the volume and carries the four annotations of a claim bound to one of this provisioner. */
  predicate Bonded(c: Claim, v: string, provisioner: string) {
    && c.volumeName == v
    && Noted(c.annotations, "volume.kubernetes.io/storage-provisioner", provisioner)
    && Noted(c.annotations, "volume.beta.kubernetes.io/storage-provisioner", provisioner)
    && Noted(c.annotations, "pv.kubernetes.io/bind-completed", "yes")
    && Noted(c.annotations, "pv.kubernetes.io/bound-by-controller", "yes")
  }

  /** What of the cluster matters to a run: its temporary claim's volume and deletion mark, its user's claim
      while no other claim goes by that name, and its volume. */
  datatype Sight = Sight(temp: Option<(string, bool)>, mine: Option<Claim>, volume: Option<Volume>)

  function TempSight(s: State, k: Key): Option<(string, bool)> {
    if k in s.claims then Some((s.claims[k].volumeName, s.claims[k].deleting)) else None
  }

  function VolumeSight(s: State, p: Phase): Option<Volume> {
    if VolumeOf(p).Some? && VolumeOf(p).value in s.volumes then Some(s.volumes[VolumeOf(p).value]) else None
  }

  /** Without its finalizers, which anyone may change. */
  function MineSight(users: Users, w: World, u: string): Option<Claim>
    requires u in users
  {
    var k := users[u].key;
    if k in w.state.claims && SoleOfItsName(users, u) && u !in w.dead
    then Some(w.state.claims[k].(finalizers := [])) else None
  }

  function SightOf(users: Users, w: World, u: string): Sight
    requires u in users && u in w.runs
  {
    Sight(TempSight(w.state, users[u].temp), MineSight(users, w, u), VolumeSight(w.state, w.runs[u].phase))
  }

  /** The volume's claim reference is a full reference to the user's claim. */
  predicate OwnedBy(vol: Volume, user: User, uid: string) {
    && vol.claimRef.Some? && RefersTo(vol.claimRef.value, user.key) && vol.claimRef.value.uid == uid
    && vol.claimRef.value.apiVersion == user.apiVersion && vol.claimRef.value.kind == user.kind
  }

  predicate Settled(user: User, r: Run, vol: Volume) {
    if r.phase.Done? && r.order.backend.reclaimPolicy == Some("Delete") then
      vol.policy == "Delete" && OwnedBy(vol, user, r.order.user)
    else
      vol.policy == "Retain"
  }

  predicate RunFits(user: User, r: Run, sight: Sight) {
    var v := VolumeOf(r.phase);
    && (r.phase.Restoring? ==> RestoresPolicy(r.order.backend))
    && (SeenBy(r.phase).Some? && !r.phase.Detaching? && sight.temp.Some? ==> sight.temp.value.0 == v.value)
    && (TempGone(r.phase) && sight.temp.Some? ==> sight.temp.value.1)
    && ((Retained(r.phase) || r.phase.Done?) && sight.volume.Some? ==> Settled(user, r, sight.volume.value))
    && ((r.phase.Restoring? || r.phase.Done?) && sight.mine.Some? ==> Bonded(sight.mine.value, v.value, r.order.backend.provisioner))
  }

  predicate RunOk(users: Users, w: World, u: string)
    requires u in w.runs
  {
    var r := w.runs[u];
    var v := VolumeOf(r.phase);
    && u in users && r.order.user == u && u in w.born
    && (v.Some? ==> v.value in w.origin && w.origin[v.value] == u)
    && RunFits(users[u], r, SightOf(users, w, u))
  }

  /** A run to which the cluster looks the same is fine as before. */
  lemma SameSight(users: Users, w: World, w': World, u: string)
    requires u in w.runs && RunOk(users, w, u) && u in w'.runs && w'.runs[u] == w.runs[u]
    requires w.born <= w'.born && forall v :: v in w.origin ==> v in w'.origin && w'.origin[v] == w.origin[v]
    requires SightOf(users, w', u) == SightOf(users, w, u)
    ensures RunOk(users, w', u)
  {}

  ghost predicate ClaimsOk(users: Users, w: World) {
    && (forall u :: u in users ==> TempOk(users, w, u))
    && (forall u :: u in users ==> UserOk(users, w, u))
  }

  ghost predicate VolumesOk(users: Users, w: World) {
    forall v :: v in w.origin ==> VolumeOk(users, w, v)
  }

  ghost predicate RunsOk(users: Users, w: World) {
    forall u :: u in w.runs ==> RunOk(users, w, u)
  }

  ghost predicate Inv(users: Users, w: World) {
    ClaimsOk(users, w) && VolumesOk(users, w) && RunsOk(users, w)
  }

  // ------------------------------------------------------- the environment

  lemma InitialInv(users: Users, w: World)
    requires Initial(users, w)
    ensures Inv(users, w)
  {}

  /** A run that starts, or that fails, holds nothing. */
  lemma IdleRunKeeps(users: Users, w: World, u: string, r: Run)
    requires Inv(users, w) && u in users && u in w.born
    requires r.order.user == u && (r.phase.LookingUp? || r.phase.Failed?)
    ensures Inv(users, WithRun(w, u, r))
  {
    assert RunOk(users, WithRun(w, u, r), u);
    SetRun(users, w, u, r);
  }

  lemma UserCreatesKeeps(users: Users, w: World, m: Move)
    requires DistinctNames(users) && Inv(users, w) && Enabled(users, w, m) && m.UserCreates?
    ensures Inv(users, Apply(users, w, m))
  {
    var w' := Apply(users, w, m);
    forall u | u in users ensures TempOk(users, w', u) && UserOk(users, w', u) {
      assert TempOk(users, w, u) && UserOk(users, w, u);
    }
    forall v | v in w'.origin ensures VolumeOk(users, w', v) { assert VolumeOk(users, w, v); }
    forall u | u in w'.runs ensures RunOk(users, w', u) {
      assert RunOk(users, w, u);
      UserCreatesSight(users, w, m, u);
      SameSight(users, w, w', u);
    }
  }

  lemma UserCreatesSight(users: Users, w: World, m: Move, u: string)
    requires DistinctNames(users) && Enabled(users, w, m) && m.UserCreates?
    requires u in w.runs && u in users && u in w.born
    ensures SightOf(users, Apply(users, w, m), u) == SightOf(users, w, u)
  {
    if users[m.uid].key == users[u].key { assert !SoleOfItsName(users, u); }
  }

  lemma UserDeletesKeeps(users: Users, w: World, m: Move)
    requires DistinctNames(users) && Inv(users, w) && Enabled(users, w, m) && m.UserDeletes?
    ensures Inv(users, Apply(users, w, m))
  {
    var w' := Apply(users, w, m);
    forall u | u in users ensures TempOk(users, w', u) && UserOk(users, w', u) {
      assert TempOk(users, w, u) && UserOk(users, w, u) && UserOk(users, w, m.uid);
    }
    forall v | v in w'.origin ensures VolumeOk(users, w', v) { assert VolumeOk(users, w, v); }
    forall u | u in w'.runs ensures RunOk(users, w', u) {
      assert RunOk(users, w, u);
      ForgetMine(users, w, w', u);
    }
  }

  /** A run loses sight of its user's claim when that claim is deleted. */
  lemma ForgetMine(users: Users, w: World, w': World, u: string)
    requires u in w.runs && RunOk(users, w, u) && w'.runs == w.runs && w'.born == w.born && w'.origin == w.origin
    requires var s, s' := SightOf(users, w, u), SightOf(users, w', u);
      s'.temp == s.temp && s'.volume == s.volume && (s'.mine == s.mine || s'.mine.None?)
    ensures RunOk(users, w', u)
  {}

  lemma ProvisionsKeeps(users: Users, w: World, m: Move)
    requires DistinctNames(users) && Inv(users, w) && Enabled(users, w, m) && m.Provisions?
    ensures Inv(users, Apply(users, w, m))
  {
    var w' := Apply(users, w, m);
    assert TempOk(users, w, m.uid);
    forall u | u in users ensures TempOk(users, w', u) && UserOk(users, w', u) {
      assert TempOk(users, w, u) && UserOk(users, w, u);
    }
    forall v | v in w'.origin ensures VolumeOk(users, w', v) { ProvisionsVolume(users, w, m, v); }
    forall u | u in w'.runs ensures RunOk(users, w', u) {
      assert RunOk(users, w, u);
      ProvisionsRun(users, w, m, u);
    }
  }

  lemma ProvisionsVolume(users: Users, w: World, m: Move, v: string)
    requires DistinctNames(users) && Enabled(users, w, m) && m.Provisions? && TempOk(users, w, m.uid)
    requires v in w.origin ==> VolumeOk(users, w, v)
    requires v in w.origin || v == m.volume
    ensures VolumeOk(users, Apply(users, w, m), v)
  {}

  lemma ProvisionsRun(users: Users, w: World, m: Move, u: string)
    requires DistinctNames(users) && Enabled(users, w, m) && m.Provisions? && TempOk(users, w, m.uid)
    requires VolumesOk(users, w) && u in w.runs && RunOk(users, w, u)
    ensures RunOk(users, Apply(users, w, m), u)
  {
    var p := w.runs[u].phase;
    if VolumeOf(p).Some? { assert VolumeOk(users, w, VolumeOf(p).value); }
    var w' := Apply(users, w, m);
    assert VolumeSight(w'.state, p) == VolumeSight(w.state, p);
    if u != m.uid {
      SameSight(users, w, w', u);
    }
  }

  lemma AttachesKeeps(users: Users, w: World, m: Move)
    requires DistinctNames(users) && Inv(users, w) && Enabled(users, w, m) && m.Attaches?
    ensures Inv(users, Apply(users, w, m))
  {
    var w' := Apply(users, w, m);
    forall u | u in users ensures TempOk(users, w', u) && UserOk(users, w', u) {
      assert TempOk(users, w, u) && UserOk(users, w, u);
    }
    forall v | v in w'.origin ensures VolumeOk(users, w', v) { assert VolumeOk(users, w, v); }
    forall u | u in w'.runs ensures RunOk(users, w', u) {
      assert RunOk(users, w, u);
      AttachesRun(users, w, m, u);
    }
  }

  lemma AttachesRun(users: Users, w: World, m: Move, u: string)
    requires Enabled(users, w, m) && m.Attaches? && u in w.runs && RunOk(users, w, u)
    ensures RunOk(users, Apply(users, w, m), u)
  {
    var w' := Apply(users, w, m);
    assert SightOf(users, w', u).temp == SightOf(users, w, u).temp;
    assert SightOf(users, w', u).mine == SightOf(users, w, u).mine;
  }

  lemma RefinalizedClaims(users: Users, w: World, k: Key, c: Claim, w': World, u: string)
    requires u in users && TempOk(users, w, u) && UserOk(users, w, u) && k in w.state.claims
    requires c == w.state.claims[k].(finalizers := c.finalizers)
    requires w' == w.(state := w.state.(claims := w.state.claims[k := c]))
    ensures TempOk(users, w', u) && UserOk(users, w', u)
  {}

  lemma RefinalizedSight(users: Users, w: World, k: Key, c: Claim, w': World, u: string)
    requires u in users && u in w.runs && k in w.state.claims
    requires c == w.state.claims[k].(finalizers := c.finalizers)
    requires w' == w.(state := w.state.(claims := w.state.claims[k := c]))
    ensures SightOf(users, w', u) == SightOf(users, w, u)
  {}

  /** A claim of which nothing but the finalizers changed. */
  lemma RefinalizedKeeps(users: Users, w: World, k: Key, c: Claim, w': World)
    requires Inv(users, w) && k in w.state.claims
    requires c == w.state.claims[k].(finalizers := c.finalizers)
    requires w' == w.(state := w.state.(claims := w.state.claims[k := c]))
    ensures Inv(users, w')
  {
    forall u | u in users ensures TempOk(users, w', u) && UserOk(users, w', u) {
      RefinalizedClaims(users, w, k, c, w', u);
    }
    forall v | v in w'.origin ensures VolumeOk(users, w', v) { assert VolumeOk(users, w, v); }
    forall u | u in w'.runs ensures RunOk(users, w', u) {
      assert RunOk(users, w, u);
      RefinalizedSight(users, w, k, c, w', u);
      SameSight(users, w, w', u);
    }
  }

  /** A claim that was being deleted and is now gone. */
  lemma PurgedKeeps(users: Users, w: World, k: Key, w': World)
    requires DistinctNames(users) && Inv(users, w) && k in w.state.claims && w.state.claims[k].deleting
    requires w' == w.(state := w.state.(claims := w.state.claims - {k}))
    ensures Inv(users, w')
  {
    forall u | u in users ensures TempOk(users, w', u) && UserOk(users, w', u) {
      assert TempOk(users, w, u) && UserOk(users, w, u);
    }
    forall v | v in w'.origin ensures VolumeOk(users, w', v) { assert VolumeOk(users, w, v); }
    forall u | u in w'.runs ensures RunOk(users, w', u) {
      assert RunOk(users, w, u) && UserOk(users, w, u);
      ForgetTemp(users, w, w', u);
    }
  }

  /** A run may lose sight of its temporary claim at any time. */
  lemma ForgetTemp(users: Users, w: World, w': World, u: string)
    requires u in w.runs && RunOk(users, w, u) && w'.runs == w.runs && w'.born == w.born && w'.origin == w.origin
    requires var s, s' := SightOf(users, w, u), SightOf(users, w', u);
      s'.mine == s.mine && s'.volume == s.volume && (s'.temp == s.temp || s'.temp.None?)
    ensures RunOk(users, w', u)
  {}

  lemma StoreFinalizersKeeps(users: Users, w: World, k: Key, names: seq<string>)
    requires DistinctNames(users) && Inv(users, w) && k in w.state.claims
    ensures Inv(users, w.(state := StoreClaim(w.state, k, w.state.claims[k].(finalizers := names))))
  {
    var c := w.state.claims[k].(finalizers := names);
    var w' := w.(state := StoreClaim(w.state, k, c));
    if c.deleting && names == [] {
      PurgedKeeps(users, w, k, w');
    } else {
      RefinalizedKeeps(users, w, k, c, w');
    }
  }

  lemma ReclaimsKeeps(users: Users, w: World, m: Move)
    requires DistinctNames(users) && Inv(users, w) && Enabled(users, w, m) && m.Reclaims?
    ensures m.volume in w.origin ==> w.origin[m.volume] in w.dead
    ensures Inv(users, Apply(users, w, m))
  {
    var w' := Apply(users, w, m);
    if m.volume in w.origin {
      assert VolumeOk(users, w, m.volume);
      assert UserOk(users, w, w.origin[m.volume]);
    }
    forall u | u in users ensures TempOk(users, w', u) && UserOk(users, w', u) {
      assert TempOk(users, w, u) && UserOk(users, w, u);
    }
    forall v | v in w'.origin ensures VolumeOk(users, w', v) { assert VolumeOk(users, w, v); }
    forall u | u in w'.runs ensures RunOk(users, w', u) {
      assert RunOk(users, w, u);
      ForgetVolume(users, w, w', u);
    }
  }

  lemma ForgetVolume(users: Users, w: World, w': World, u: string)
    requires u in w.runs && RunOk(users, w, u) && w'.runs == w.runs && w'.born == w.born && w'.origin == w.origin
    requires var s, s' := SightOf(users, w, u), SightOf(users, w', u);
      s'.mine == s.mine && s'.temp == s.temp && (s'.volume == s.volume || s'.volume.None?)
    ensures RunOk(users, w', u)
  {}

  // ------------------------------------------------------------ a run's own calls

  /** The invariant without what it says of one run. */
  ghost predicate InvBut(users: Users, w: World, u: string) {
    && ClaimsOk(users, w) && VolumesOk(users, w)
    && forall u' :: u' in w.runs && u' != u ==> RunOk(users, w, u')
  }

  function WithRun(w: World, u: string, r: Run): World {
    w.(runs := w.runs[u := r])
  }

  lemma SetRun(users: Users, w: World, u: string, r: Run)
    requires InvBut(users, w, u) && RunOk(users, WithRun(w, u, r), u)
    ensures Inv(users, WithRun(w, u, r))
  {
    var w' := WithRun(w, u, r);
    forall x | x in users ensures TempOk(users, w', x) && UserOk(users, w', x) {
      assert TempOk(users, w, x) && UserOk(users, w, x);
    }
    forall v | v in w'.origin ensures VolumeOk(users, w', v) { assert VolumeOk(users, w, v); }
    forall u' | u' in w'.runs ensures RunOk(users, w', u') {
      if u' != u {
        assert RunOk(users, w, u');
        SameSight(users, w, w', u');
      }
    }
  }

  lemma CreateClaimKeeps(users: Users, w: World, u: string, c: Claim, w': World)
    requires DistinctNames(users) && Inv(users, w) && u in users && users[u].temp !in w.state.claims
    requires !c.deleting && !c.bound && c.volumeName == ""
    requires w' == w.(state := w.state.(claims := w.state.claims[users[u].temp := c]))
    ensures InvBut(users, w', u)
  {
    forall x | x in users ensures TempOk(users, w', x) && UserOk(users, w', x) {
      assert TempOk(users, w, x) && UserOk(users, w, x);
    }
    forall v | v in w'.origin ensures VolumeOk(users, w', v) { assert VolumeOk(users, w, v); }
    forall u' | u' in w'.runs && u' != u ensures RunOk(users, w', u') {
      assert RunOk(users, w, u');
      SameSight(users, w, w', u');
    }
  }

  lemma PodsKeep(users: Users, w: World, pods: map<Key, Pod>)
    requires Inv(users, w)
    ensures Inv(users, w.(state := w.state.(pods := pods)))
  {
    var w' := w.(state := w.state.(pods := pods));
    forall x | x in users ensures TempOk(users, w', x) && UserOk(users, w', x) {
      assert TempOk(users, w, x) && UserOk(users, w, x);
    }
    forall v | v in w'.origin ensures VolumeOk(users, w', v) { assert VolumeOk(users, w, v); }
    forall u | u in w'.runs ensures RunOk(users, w', u) {
      assert RunOk(users, w, u);
      SameSight(users, w, w', u);
    }
  }

  /** A run may set its own volume to Retain, or give it to its user's claim. */
  lemma OwnVolumeKeeps(users: Users, w: World, u: string, v: string, vol: Volume, w': World)
    requires Inv(users, w) && u in users && v in w.origin && w.origin[v] == u && v in w.state.volumes
    requires vol.policy == DELETE ==> vol.claimRef.Some? && HeldByUser(users, w, u, vol.claimRef.value)
    requires w' == w.(state := w.state.(volumes := w.state.volumes[v := vol]))
    ensures InvBut(users, w', u)
  {
    forall x | x in users ensures TempOk(users, w', x) && UserOk(users, w', x) {
      assert TempOk(users, w, x) && UserOk(users, w, x);
    }
    forall v' | v' in w'.origin ensures VolumeOk(users, w', v') { assert VolumeOk(users, w, v'); }
    forall u' | u' in w'.runs && u' != u ensures RunOk(users, w', u') {
      assert RunOk(users, w, u');
      SameSight(users, w, w', u');
    }
  }

  /** While a run deletes its temporary claim, no volume on Delete hangs on that claim. */
  lemma NothingHangsOnTemp(users: Users, w: World, u: string, v: string)
    requires u in w.runs && w.runs[u].phase.Deleting? && RunOk(users, w, u)
    requires v in w.origin && w.origin[v] == u && VolumeOk(users, w, v)
    requires v in w.state.volumes && w.state.volumes[v].policy == DELETE
    ensures w.state.volumes[v].claimRef.Some? && HeldByUser(users, w, u, w.state.volumes[v].claimRef.value)
  {}

  /** The run's temporary claim is marked as being deleted, or goes. */
  predicate TempDeleted(s: State, k: Key, s': State) {
    && k in s.claims
    && (s' == s.(claims := s.claims - {k}) || s' == s.(claims := s.claims[k := MarkedDeleting(s.claims[k])]))
  }

  lemma OwnTempClaims(users: Users, w: World, u: string, s: State, x: string)
    requires DistinctNames(users) && u in users && x in users && TempDeleted(w.state, users[u].temp, s)
    requires TempOk(users, w, x) && UserOk(users, w, x)
    requires w.state.claims[users[u].temp].volumeName != ""
    ensures TempOk(users, w.(state := s), x) && UserOk(users, w.(state := s), x)
  {}

  lemma OwnTempVolume(users: Users, w: World, u: string, s: State, v: string)
    requires DistinctNames(users) && u in users && TempDeleted(w.state, users[u].temp, s)
    requires u in w.runs && w.runs[u].phase.Deleting? && RunOk(users, w, u)
    requires v in w.origin && VolumeOk(users, w, v)
    ensures VolumeOk(users, w.(state := s), v)
  {
    if w.origin[v] == u && v in w.state.volumes && w.state.volumes[v].policy == DELETE {
      NothingHangsOnTemp(users, w, u, v);
    }
  }

  lemma OwnTempSight(users: Users, w: World, u: string, s: State, u': string)
    requires DistinctNames(users) && u in users && TempDeleted(w.state, users[u].temp, s)
    requires u' in users && u' in w.runs && u' != u
    ensures SightOf(users, w.(state := s), u') == SightOf(users, w, u')
  {}

  /** The temporary claim of a run whose volume is on Retain may be marked or go. */
  lemma OwnTempKeeps(users: Users, w: World, u: string, s: State)
    requires DistinctNames(users) && Inv(users, w) && u in users && TempDeleted(w.state, users[u].temp, s)
    requires u in w.runs && w.runs[u].phase.Deleting?
    ensures InvBut(users, w.(state := s), u)
  {
    var w' := w.(state := s);
    assert RunOk(users, w, u) && VolumeOk(users, w, w.runs[u].phase.seen.volumeName);
    forall x | x in users ensures TempOk(users, w', x) && UserOk(users, w', x) {
      OwnTempClaims(users, w, u, s, x);
    }
    forall v | v in w'.origin ensures VolumeOk(users, w', v) { OwnTempVolume(users, w, u, s, v); }
    forall u' | u' in w'.runs && u' != u ensures RunOk(users, w', u') {
      assert RunOk(users, w, u');
      OwnTempSight(users, w, u, s, u');
      SameSight(users, w, w', u');
    }
  }

  lemma BondKeeps(users: Users, w: World, u: string, v: string, c: Claim, w': World)
    requires DistinctNames(users) && Inv(users, w) && u in users && users[u].key in w.state.claims
    requires v in w.origin && w.origin[v] == u
    requires c == w.state.claims[users[u].key].(volumeName := v, annotations := c.annotations)
    requires w' == w.(state := w.state.(claims := w.state.claims[users[u].key := c]))
    ensures InvBut(users, w', u)
  {
    forall x | x in users ensures TempOk(users, w', x) && UserOk(users, w', x) {
      assert TempOk(users, w, x) && UserOk(users, w, x);
    }
    forall v' | v' in w'.origin ensures VolumeOk(users, w', v') { assert VolumeOk(users, w, v'); }
    forall u' | u' in w'.runs && u' != u ensures RunOk(users, w', u') {
      assert RunOk(users, w, u');
      if users[u'].key == users[u].key { assert !SoleOfItsName(users, u'); }
      SameSight(users, w, w', u');
    }
  }

  /** The world after the run's next call was carried out, the run itself not having moved. */
  function Carried(users: Users, w: World, u: string, x: Chance): World
    requires Enabled(users, w, Step(u, Served, x))
  {
    w.(state := Serve(w.state, NextRequest(users[u], w.runs[u]), x).0)
  }

  function Answer(users: Users, w: World, u: string, x: Chance): Reply
    requires Enabled(users, w, Step(u, Served, x))
  {
    Serve(w.state, NextRequest(users[u], w.runs[u]), x).1
  }

  function Moved(users: Users, w: World, u: string, a: Reply): Run
    requires u in users && u in w.runs && Active(w.runs[u].phase)
  {
    w.runs[u].(phase := Advance(users[u], w.runs[u], a))
  }

  lemma CreatingKeeps(users: Users, w: World, u: string, x: Chance)
    requires DistinctNames(users) && Inv(users, w) && Enabled(users, w, Step(u, Served, x))
    requires w.runs[u].phase.Creating?
    ensures InvBut(users, Carried(users, w, u, x), u)
  {
    var k, w' := users[u].temp, Carried(users, w, u, x);
    if k !in w.state.claims {
      CreateClaimKeeps(users, w, u, w'.state.claims[k], w');
    }
  }

  lemma UnprotectingKeeps(users: Users, w: World, u: string, x: Chance)
    requires DistinctNames(users) && Inv(users, w) && Enabled(users, w, Step(u, Served, x))
    requires w.runs[u].phase.Unprotecting?
    ensures InvBut(users, Carried(users, w, u, x), u)
  {
    if users[u].temp in w.state.claims {
      StoreFinalizersKeeps(users, w, users[u].temp, WithoutProtection(w.runs[u].phase.seen.finalizers));
    }
  }

  lemma DeletingKeeps(users: Users, w: World, u: string, x: Chance)
    requires DistinctNames(users) && Inv(users, w) && Enabled(users, w, Step(u, Served, x))
    requires w.runs[u].phase.Deleting?
    ensures InvBut(users, Carried(users, w, u, x), u)
  {
    if users[u].temp in w.state.claims {
      OwnTempKeeps(users, w, u, Carried(users, w, u, x).state);
    }
  }

  lemma BondingKeeps(users: Users, w: World, u: string, x: Chance)
    requires DistinctNames(users) && Inv(users, w) && Enabled(users, w, Step(u, Served, x))
    requires w.runs[u].phase.Bonding?
    ensures InvBut(users, Carried(users, w, u, x), u)
  {
    var k, w' := users[u].key, Carried(users, w, u, x);
    assert RunOk(users, w, u) && UserOk(users, w, u);
    if k in w.state.claims {
      BondKeeps(users, w, u, w.runs[u].phase.volume, w'.state.claims[k], w');
    }
  }

  lemma VolumeCallKeeps(users: Users, w: World, u: string, x: Chance)
    requires DistinctNames(users) && Inv(users, w) && Enabled(users, w, Step(u, Served, x))
    requires var p := w.runs[u].phase; p.Retaining? || p.Detaching? || p.Restoring?
    ensures InvBut(users, Carried(users, w, u, x), u)
  {
    var q := NextRequest(users[u], w.runs[u]);
    assert RunOk(users, w, u);
    if q.name in w.state.volumes {
      var vol := PatchedVolume(w.state.volumes[q.name], q.volumePatch);
      OwnVolumeKeeps(users, w, u, q.name, vol, Carried(users, w, u, x));
    }
  }

  lemma PodCallKeeps(users: Users, w: World, u: string, x: Chance)
    requires Inv(users, w) && Enabled(users, w, Step(u, Served, x))
    requires var p := w.runs[u].phase; p.LookingUp? || p.Awaiting? || p.StartingPod? || p.StoppingPod?
    ensures InvBut(users, Carried(users, w, u, x), u)
  {
    var w' := Carried(users, w, u, x);
    assert w' == w.(state := w.state.(pods := w'.state.pods));
    PodsKeep(users, w, w'.state.pods);
  }

  lemma CallKeeps(users: Users, w: World, u: string, x: Chance)
    requires DistinctNames(users) && Inv(users, w) && Enabled(users, w, Step(u, Served, x))
    ensures InvBut(users, Carried(users, w, u, x), u)
  {
    match w.runs[u].phase
    case Creating => CreatingKeeps(users, w, u, x);
    case Unprotecting(_) => UnprotectingKeeps(users, w, u, x);
    case Deleting(_, _) => DeletingKeeps(users, w, u, x);
    case Bonding(_) => BondingKeeps(users, w, u, x);
    case Retaining(_) => VolumeCallKeeps(users, w, u, x);
    case Detaching(_) => VolumeCallKeeps(users, w, u, x);
    case Restoring(_) => VolumeCallKeeps(users, w, u, x);
    case LookingUp => PodCallKeeps(users, w, u, x);
    case Awaiting(_) => PodCallKeeps(users, w, u, x);
    case StartingPod => PodCallKeeps(users, w, u, x);
    case StoppingPod(_, _, _) => PodCallKeeps(users, w, u, x);
  }

  function Answered(users: Users, w: World, u: string, x: Chance): World
    requires Enabled(users, w, Step(u, Served, x))
  {
    WithRun(Carried(users, w, u, x), u, Moved(users, w, u, Answer(users, w, u, x)))
  }

  lemma AfterCreating(users: Users, w: World, u: string, x: Chance)
    requires Enabled(users, w, Step(u, Served, x)) && RunOk(users, w, u) && w.runs[u].phase.Creating?
    ensures RunOk(users, Answered(users, w, u, x), u)
  {}

  lemma AfterUnprotecting(users: Users, w: World, u: string, x: Chance)
    requires Enabled(users, w, Step(u, Served, x)) && RunOk(users, w, u) && w.runs[u].phase.Unprotecting?
    ensures RunOk(users, Answered(users, w, u, x), u)
  {}

  lemma AfterDeleting(users: Users, w: World, u: string, x: Chance)
    requires Enabled(users, w, Step(u, Served, x)) && RunOk(users, w, u) && w.runs[u].phase.Deleting?
    ensures RunOk(users, Answered(users, w, u, x), u)
  {}

  lemma AfterBonding(users: Users, w: World, u: string, x: Chance)
    requires Enabled(users, w, Step(u, Served, x)) && RunOk(users, w, u) && w.runs[u].phase.Bonding?
    requires UserOk(users, w, u) && users[u].temp != users[u].key
    ensures RunOk(users, Answered(users, w, u, x), u)
  {}

  lemma AfterRetaining(users: Users, w: World, u: string, x: Chance)
    requires Enabled(users, w, Step(u, Served, x)) && RunOk(users, w, u) && w.runs[u].phase.Retaining?
    ensures RunOk(users, Answered(users, w, u, x), u)
  {}

  lemma AfterDetaching(users: Users, w: World, u: string, x: Chance)
    requires Enabled(users, w, Step(u, Served, x)) && RunOk(users, w, u) && w.runs[u].phase.Detaching?
    ensures RunOk(users, Answered(users, w, u, x), u)
  {}

  lemma AfterRestoring(users: Users, w: World, u: string, x: Chance)
    requires Enabled(users, w, Step(u, Served, x)) && RunOk(users, w, u) && w.runs[u].phase.Restoring?
    ensures RunOk(users, Answered(users, w, u, x), u)
  {}

  lemma AfterAwaiting(users: Users, w: World, u: string, x: Chance)
    requires Enabled(users, w, Step(u, Served, x)) && RunOk(users, w, u) && w.runs[u].phase.Awaiting?
    requires TempOk(users, w, u)
    ensures RunOk(users, Answered(users, w, u, x), u)
  {}

  lemma AfterPodCall(users: Users, w: World, u: string, x: Chance)
    requires Enabled(users, w, Step(u, Served, x)) && RunOk(users, w, u)
    requires var p := w.runs[u].phase; p.LookingUp? || p.StartingPod? || p.StoppingPod?
    ensures RunOk(users, Answered(users, w, u, x), u)
  {}

  lemma AnsweredRun(users: Users, w: World, u: string, x: Chance)
    requires DistinctNames(users) && Inv(users, w) && Enabled(users, w, Step(u, Served, x))
    ensures RunOk(users, Answered(users, w, u, x), u)
  {
    assert RunOk(users, w, u) && TempOk(users, w, u) && UserOk(users, w, u);
    match w.runs[u].phase
    case Creating => AfterCreating(users, w, u, x);
    case Awaiting(_) => AfterAwaiting(users, w, u, x);
    case Retaining(_) => AfterRetaining(users, w, u, x);
    case Unprotecting(_) => AfterUnprotecting(users, w, u, x);
    case Deleting(_, _) => AfterDeleting(users, w, u, x);
    case Detaching(_) => AfterDetaching(users, w, u, x);
    case Bonding(_) => AfterBonding(users, w, u, x);
    case Restoring(_) => AfterRestoring(users, w, u, x);
    case LookingUp => AfterPodCall(users, w, u, x);
    case StartingPod => AfterPodCall(users, w, u, x);
    case StoppingPod(_, _, _) => AfterPodCall(users, w, u, x);
  }

  /** A run whose call failed for good, or was refused and may be repeated, holds no more than before. */
  lemma RefusedRun(users: Users, w: World, u: string)
    requires u in users && u in w.runs && Active(w.runs[u].phase) && RunOk(users, w, u)
    ensures RunOk(users, WithRun(w, u, Moved(users, w, u, Refused)), u)
  {}

  lemma CarriedRefused(users: Users, w: World, u: string, x: Chance)
    requires Enabled(users, w, Step(u, Served, x)) && RunOk(users, w, u)
    requires var p := w.runs[u].phase; p.StoppingPod? || p.Deleting?
    ensures RunOk(users, Carried(users, w, u, x), u)
  {
    var w' := Carried(users, w, u, x);
    assert VolumeSight(w'.state, w.runs[u].phase) == VolumeSight(w.state, w.runs[u].phase);
  }

  lemma LostReplyRun(users: Users, w: World, u: string, x: Chance)
    requires Enabled(users, w, Step(u, Served, x)) && RunOk(users, w, u)
    ensures RunOk(users, WithRun(Carried(users, w, u, x), u, Moved(users, w, u, Refused)), u)
  {
    var p, w' := w.runs[u].phase, Carried(users, w, u, x);
    if p.StoppingPod? || p.Deleting? {
      CarriedRefused(users, w, u, x);
      RefusedRun(users, w', u);
    } else {
      assert Moved(users, w, u, Refused).phase == Failed;
    }
  }

  lemma StepKeeps(users: Users, w: World, u: string, fate: Fate, x: Chance)
    requires DistinctNames(users) && Inv(users, w) && Enabled(users, w, Step(u, fate, x))
    ensures Inv(users, Apply(users, w, Step(u, fate, x)))
  {
    CallKeeps(users, w, u, x);
    assert RunOk(users, w, u);
    match fate
    case Served =>
      AnsweredRun(users, w, u, x);
      SetRun(users, Carried(users, w, u, x), u, Moved(users, w, u, Answer(users, w, u, x)));
    case Dropped =>
      RefusedRun(users, w, u);
      SetRun(users, w, u, Moved(users, w, u, Refused));
    case ReplyLost =>
      LostReplyRun(users, w, u, x);
      SetRun(users, Carried(users, w, u, x), u, Moved(users, w, u, Refused));
  }

  // --------------------------------------------------------------- every run

  /** Every move of every participant keeps the invariant. */
  lemma MoveKeeps(users: Users, w: World, m: Move)
    requires DistinctNames(users) && Inv(users, w) && Enabled(users, w, m)
    ensures Inv(users, Apply(users, w, m))
  {
    match m
    case Step(u, fate, x) => StepKeeps(users, w, u, fate, x);
    case Begin(o) => IdleRunKeeps(users, w, o.user, Run(o, LookingUp));
    case Crashes(u) =>
      assert RunOk(users, w, u);
      IdleRunKeeps(users, w, u, w.runs[u].(phase := Failed));
    case UserCreates(_) => UserCreatesKeeps(users, w, m);
    case UserDeletes(_) => UserDeletesKeeps(users, w, m);
    case Provisions(_, _, _) => ProvisionsKeeps(users, w, m);
    case Attaches(_, _) => AttachesKeeps(users, w, m);
    case Finalizes(k, names) => StoreFinalizersKeeps(users, w, k, names);
    case Reclaims(_) => ReclaimsKeeps(users, w, m);
  }

  lemma {:induction false} ReplayKeeps(users: Users, start: World, moves: seq<Move>)
    requires DistinctNames(users) && Initial(users, start) && Replay(users, start, moves).Some?
    ensures Inv(users, Replay(users, start, moves).value)
  {
    if moves == [] {
      InitialInv(users, start);
    } else {
      var n := |moves| - 1;
      ReplayKeeps(users, start, moves[..n]);
      MoveKeeps(users, Replay(users, start, moves[..n]).value, moves[n]);
    }
  }

  lemma ReachableInv(users: Users, w: World)
    requires DistinctNames(users) && Reachable(users, w)
    ensures Inv(users, w)
  {
    var start, moves :| Initial(users, start) && Replay(users, start, moves) == Some(w);
    ReplayKeeps(users, start, moves);
  }

  /**
   Volume safety: in every reachable state a provisioned volume on Delete hangs on a claim that is not yet
   deleted, or on its own user's claim after that user deleted it; and a volume is gone only after its
   user's claim is.
   */
  lemma VolumeSafety(users: Users, w: World, v: string)
    requires DistinctNames(users) && Reachable(users, w) && v in w.origin
    ensures v !in w.state.volumes ==> w.origin[v] in w.dead
    ensures v in w.state.volumes && w.state.volumes[v].policy == "Delete" ==>
      var ref := w.state.volumes[v].claimRef;
      ref.Some? && (Live(w.state, ref.value) || (ref.value.uid == w.origin[v] && w.origin[v] in w.dead))
  {
    ReachableInv(users, w);
    assert VolumeOk(users, w, v);
    assert UserOk(users, w, w.origin[v]);
  }

  /** The volume controller never gets to reclaim a volume whose user's claim lives. */
  lemma NeverReclaimedWhileOwned(users: Users, w: World, v: string)
    requires DistinctNames(users) && Reachable(users, w)
    requires v in w.origin && w.origin[v] !in w.dead
    ensures v in w.state.volumes && !Enabled(users, w, Reclaims(v))
  {
    VolumeSafety(users, w, v);
  }

  /** If the user's claim lives and names a volume, that volume is there and may not be reclaimed. */
  predicate NamedSafely(users: Users, w: World, u: string)
    requires u in users
  {
    var k := users[u].key;
    u in w.born && u !in w.dead && k in w.state.claims && w.state.claims[k].volumeName != "" ==>
      var v := w.state.claims[k].volumeName;
      v in w.state.volumes && !Enabled(users, w, Reclaims(v))
  }

  /** A claim whose name no other claim ever bears keeps the volume it names, whatever happens. */
  lemma SoleIsSafe(users: Users, w: World, u: string)
    requires DistinctNames(users) && Reachable(users, w) && u in users && SoleOfItsName(users, u)
    ensures NamedSafely(users, w, u)
  {
    ReachableInv(users, w);
    assert UserOk(users, w, u);
    var k := users[u].key;
    if u in w.born && u !in w.dead && w.state.claims[k].volumeName != "" {
      NeverReclaimedWhileOwned(users, w, w.state.claims[k].volumeName);
    }
  }

  /** No double binding: two user claims of different names never name one volume. */
  lemma NoDoubleBinding(users: Users, w: World, u: string, u': string)
    requires DistinctNames(users) && Reachable(users, w) && u in users && u' in users
    requires users[u].key in w.state.claims && users[u'].key in w.state.claims
    requires w.state.claims[users[u].key].volumeName == w.state.claims[users[u'].key].volumeName != ""
    ensures users[u].key == users[u'].key
  {
    ReachableInv(users, w);
    assert UserOk(users, w, u) && UserOk(users, w, u');
  }

  /**
   A finished handover, whatever else went on: the temporary claim's deletion was accepted; the volume is
   there unless the user has meanwhile deleted the claim, on Delete with the user's claim as owner when
   the storage class asks for that and on Retain otherwise; and the user's claim names the volume and
   carries the four annotations, unless another claim goes by the same name.
   */
  predicate Complete(users: Users, w: World, u: string, v: string, provisioner: string, reclaimPolicy: Option<string>) {
    && u in users && v in w.origin && w.origin[v] == u
    && (users[u].temp in w.state.claims ==> w.state.claims[users[u].temp].deleting)
    && (u !in w.dead ==> v in w.state.volumes)
    && (v in w.state.volumes && reclaimPolicy == Some("Delete") ==>
          w.state.volumes[v].policy == "Delete" && OwnedBy(w.state.volumes[v], users[u], u))
    && (v in w.state.volumes && reclaimPolicy != Some("Delete") ==> w.state.volumes[v].policy == "Retain")
    && (u !in w.dead && SoleOfItsName(users, u) ==>
          users[u].key in w.state.claims && w.state.claims[users[u].key].uid == u
          && Bonded(w.state.claims[users[u].key], v, provisioner))
  }

  lemma HandedOver(users: Users, w: World, u: string)
    requires DistinctNames(users) && Reachable(users, w)
    requires u in w.runs && w.runs[u].phase.Done?
    ensures var b := w.runs[u].order.backend;
      Complete(users, w, u, w.runs[u].phase.volume, b.provisioner, b.reclaimPolicy)
  {
    ReachableInv(users, w);
    assert RunOk(users, w, u) && UserOk(users, w, u);
    assert VolumeOk(users, w, w.runs[u].phase.volume);
  }
}
