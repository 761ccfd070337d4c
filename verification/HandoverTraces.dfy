/**
 Runs that do happen: a handover nobody disturbs completes, and one whose user's claim is deleted and
 created anew in the middle ends with the new claim naming a volume that is about to be reclaimed.
 */
module HandoverTraces {
  import opened Wrappers
  import opened Cluster
  import opened Handover
  import opened HandoverSafety

  lemma Extend(users: Users, w: World, m: Move)
    requires Reachable(users, w) && Enabled(users, w, m)
    ensures Reachable(users, Apply(users, w, m))
  {
    var start, moves :| Initial(users, start) && Replay(users, start, moves) == Some(w);
    var longer := moves + [m];
    assert longer[..|longer| - 1] == moves;
    assert Replay(users, start, longer) == Some(Apply(users, w, m));
  }

  /** A chance under which nothing goes wrong: the cache is cold and a deleted claim goes at once. */
  const KIND: Chance := Chance(NotFound, "temporary", [PROTECTION], true, Key("", ""))

  function Next(users: Users, w: World, u: string): World
    requires Enabled(users, w, Step(u, Served, KIND))
  {
    Apply(users, w, Step(u, Served, KIND))
  }

  /** The run is at p, its temporary claim and volume are as given, and its pod is there only while it is needed. */
  predicate Stage(users: Users, w: World, o: Order, p: Phase, temp: Option<Claim>, v: string, vol: Option<Volume>) {
    && o.user in users && o.user in w.runs && w.runs[o.user] == Run(o, p) && o.user in w.born
    && (if temp.None? then users[o.user].temp !in w.state.claims
        else users[o.user].temp in w.state.claims && w.state.claims[users[o.user].temp] == temp.value)
    && (PodKey(users[o.user]) in w.state.pods <==> o.way.ByPod? && (p.Awaiting? || p.StoppingPod?))
    && v != ""
    && (if vol.None? then v !in w.state.volumes && v !in w.origin
        else v in w.state.volumes && w.state.volumes[v] == vol.value && v in w.origin && w.origin[v] == o.user)
  }

  /** The parts of the world a run does not touch before it names its volume in the user's claim. */
  predicate SameElsewhere(users: Users, w: World, w': World, u: string)
    requires u in users
  {
    w'.born == w.born && w'.dead == w.dead && w'.state.claims - {users[u].temp} == w.state.claims - {users[u].temp}
  }

  /** A claim that is registered, whose temporary claim and pod do not exist, and a name no volume has. */
  predicate Ready(users: Users, w: World, o: Order, v: string) {
    && Enabled(users, w, Begin(o)) && users[o.user].temp !in w.state.claims
    && PodKey(users[o.user]) !in w.state.pods && v != "" && v !in w.origin && v !in w.state.volumes
  }

  lemma ToCreating(users: Users, w: World, o: Order) returns (w': World)
    requires Reachable(users, w) && Enabled(users, w, Begin(o))
    ensures Reachable(users, w') && w' == w.(runs := w.runs[o.user := Run(o, Creating)])
  {
    Extend(users, w, Begin(o));
    var w1 := Apply(users, w, Begin(o));
    Extend(users, w1, Step(o.user, Served, KIND));
    w' := Next(users, w1, o.user);
  }

  lemma ToCreated(users: Users, w: World, o: Order, v: string) returns (w': World, c: Claim)
    requires Reachable(users, w) && o.user in users
    requires Stage(users, w, o, Creating, None, v, None)
    ensures Reachable(users, w') && SameElsewhere(users, w, w', o.user)
    ensures c.finalizers == [PROTECTION] && c.volumeName == "" && !c.deleting
    ensures Stage(users, w', o, AfterClaim(users[o.user], o), Some(c), v, None)
  {
    Extend(users, w, Step(o.user, Served, KIND));
    w' := Next(users, w, o.user);
    c := w'.state.claims[users[o.user].temp];
  }

  lemma ToPodStarted(users: Users, w: World, o: Order, c: Claim, v: string) returns (w': World)
    requires Reachable(users, w) && o.user in users
    requires Stage(users, w, o, StartingPod, Some(c), v, None) && o.way.ByPod?
    ensures Reachable(users, w') && SameElsewhere(users, w, w', o.user)
    ensures Stage(users, w', o, Awaiting(PodKey(users[o.user])), Some(c), v, None)
  {
    Extend(users, w, Step(o.user, Served, KIND));
    w' := Next(users, w, o.user);
  }

  lemma ToAwaiting(users: Users, w: World, o: Order, v: string) returns (w': World, c: Claim)
    requires Reachable(users, w) && Ready(users, w, o, v)
    ensures Reachable(users, w') && SameElsewhere(users, w, w', o.user)
    ensures c.finalizers == [PROTECTION] && c.volumeName == "" && !c.deleting
    ensures Stage(users, w', o, Awaiting(PodKey(users[o.user])), Some(c), v, None)
  {
    var w1 := ToCreating(users, w, o);
    w', c := ToCreated(users, w1, o, v);
    if o.way.ByPod? {
      w' := ToPodStarted(users, w', o, c, v);
    }
  }

  lemma ToProvisioned(users: Users, w: World, o: Order, c: Claim, v: string, policy: string)
    returns (w': World, seen: Claim, vol: Volume)
    requires Reachable(users, w) && o.user in users
    requires Stage(users, w, o, Awaiting(PodKey(users[o.user])), Some(c), v, None) && c.volumeName == ""
    ensures Reachable(users, w') && SameElsewhere(users, w, w', o.user)
    ensures seen == c.(bound := true, volumeName := v)
    ensures Stage(users, w', o, Awaiting(PodKey(users[o.user])), Some(seen), v, Some(vol))
  {
    Extend(users, w, Provisions(o.user, v, policy));
    w' := Apply(users, w, Provisions(o.user, v, policy));
    seen := w'.state.claims[users[o.user].temp];
    vol := w'.state.volumes[v];
  }

  lemma ToSeen(users: Users, w: World, o: Order, seen: Claim, v: string, vol: Volume) returns (w': World)
    requires Reachable(users, w) && o.user in users && seen.bound
    requires Stage(users, w, o, Awaiting(PodKey(users[o.user])), Some(seen), v, Some(vol))
    ensures Reachable(users, w') && SameElsewhere(users, w, w', o.user)
    ensures Stage(users, w', o, if o.way.ByPod? then StoppingPod(seen, PodKey(users[o.user]), RETRIES) else Retaining(seen),
                  Some(seen), v, Some(vol))
  {
    Extend(users, w, Step(o.user, Served, KIND));
    w' := Next(users, w, o.user);
  }

  lemma ToPodStopped(users: Users, w: World, o: Order, seen: Claim, v: string, vol: Volume) returns (w': World)
    requires Reachable(users, w) && o.user in users
    requires Stage(users, w, o, StoppingPod(seen, PodKey(users[o.user]), RETRIES), Some(seen), v, Some(vol))
    ensures Reachable(users, w') && SameElsewhere(users, w, w', o.user)
    ensures Stage(users, w', o, Retaining(seen), Some(seen), v, Some(vol))
  {
    Extend(users, w, Step(o.user, Served, KIND));
    w' := Next(users, w, o.user);
  }

  lemma ToRetaining(users: Users, w: World, o: Order, c: Claim, v: string, policy: string)
    returns (w': World, seen: Claim, vol: Volume)
    requires Reachable(users, w) && o.user in users
    requires Stage(users, w, o, Awaiting(PodKey(users[o.user])), Some(c), v, None) && c.volumeName == ""
    ensures Reachable(users, w') && SameElsewhere(users, w, w', o.user)
    ensures seen == c.(bound := true, volumeName := v)
    ensures Stage(users, w', o, Retaining(seen), Some(seen), v, Some(vol))
  {
    var w1;
    w1, seen, vol := ToProvisioned(users, w, o, c, v, policy);
    w' := ToSeen(users, w1, o, seen, v, vol);
    if o.way.ByPod? {
      w' := ToPodStopped(users, w', o, seen, v, vol);
    }
  }

  lemma ToUnprotecting(users: Users, w: World, o: Order, seen: Claim, v: string, vol: Volume) returns (w': World)
    requires Reachable(users, w) && Stage(users, w, o, Retaining(seen), Some(seen), v, Some(vol))
    requires seen.volumeName == v
    ensures Reachable(users, w') && SameElsewhere(users, w, w', o.user)
    ensures Stage(users, w', o, Unprotecting(seen), Some(seen), v, Some(vol.(policy := RETAIN)))
  {
    Extend(users, w, Step(o.user, Served, KIND));
    w' := Next(users, w, o.user);
  }

  lemma ToDeleting(users: Users, w: World, o: Order, seen: Claim, v: string, vol: Volume) returns (w': World, c: Claim)
    requires Reachable(users, w) && Stage(users, w, o, Unprotecting(seen), Some(seen), v, Some(vol))
    requires seen.finalizers == [PROTECTION] && !seen.deleting
    ensures Reachable(users, w') && SameElsewhere(users, w, w', o.user) && c.finalizers == []
    ensures Stage(users, w', o, Deleting(seen, RETRIES), Some(c), v, Some(vol))
  {
    assert WithoutProtection([PROTECTION]) == [] by { assert [PROTECTION][..0] == []; }
    Extend(users, w, Step(o.user, Served, KIND));
    w' := Next(users, w, o.user);
    c := w'.state.claims[users[o.user].temp];
  }

  lemma ToDetaching(users: Users, w: World, o: Order, seen: Claim, c: Claim, v: string, vol: Volume)
    returns (w': World)
    requires Reachable(users, w) && Stage(users, w, o, Deleting(seen, RETRIES), Some(c), v, Some(vol))
    requires c.finalizers == []
    ensures Reachable(users, w') && SameElsewhere(users, w, w', o.user)
    ensures Stage(users, w', o, Detaching(seen), None, v, Some(vol))
  {
    Extend(users, w, Step(o.user, Served, KIND));
    w' := Next(users, w, o.user);
  }

  lemma ToBonding(users: Users, w: World, o: Order, seen: Claim, v: string, vol: Volume) returns (w': World)
    requires Reachable(users, w) && Stage(users, w, o, Detaching(seen), None, v, Some(vol))
    requires seen.volumeName == v
    ensures Reachable(users, w') && SameElsewhere(users, w, w', o.user)
    ensures Stage(users, w', o, Bonding(v), None, v, Some(vol.(claimRef := None)))
  {
    Extend(users, w, Step(o.user, Served, KIND));
    w' := Next(users, w, o.user);
  }

  /** From any reachable state, by either method, an order can be carried up to the last patches. */
  lemma Carry(users: Users, w: World, o: Order, v: string, policy: string) returns (w': World)
    requires Reachable(users, w) && Ready(users, w, o, v)
    ensures Reachable(users, w') && SameElsewhere(users, w, w', o.user)
    ensures Stage(users, w', o, Bonding(v), None, v, Some(Volume(RETAIN, None)))
  {
    var w1, c := ToAwaiting(users, w, o, v);
    var w2, seen, vol := ToRetaining(users, w1, o, c, v, policy);
    var w3 := ToUnprotecting(users, w2, o, seen, v, vol);
    var w4, c' := ToDeleting(users, w3, o, seen, v, vol.(policy := RETAIN));
    var w5 := ToDetaching(users, w4, o, seen, c', v, vol.(policy := RETAIN));
    w' := ToBonding(users, w5, o, seen, v, vol.(policy := RETAIN));
  }

  lemma ToBonded(users: Users, w: World, o: Order, v: string) returns (w': World)
    requires Reachable(users, w) && Stage(users, w, o, Bonding(v), None, v, Some(Volume(RETAIN, None)))
    requires users[o.user].key in w.state.claims && !w.state.claims[users[o.user].key].deleting
    ensures Reachable(users, w')
    ensures w' == w.(state := w'.state,
                     runs := w.runs[o.user := Run(o, if o.backend.reclaimPolicy == Some("Delete") then Restoring(v) else Done(v))])
    ensures w'.state.volumes == w.state.volumes && w'.state.pods == w.state.pods
    ensures var k := users[o.user].key;
      k in w'.state.claims && w'.state.claims[k].uid == w.state.claims[k].uid && w'.state.claims[k].volumeName == v
  {
    Extend(users, w, Step(o.user, Served, KIND));
    w' := Next(users, w, o.user);
  }

  /** What an undisturbed end leaves: the volume the user's if the class says Delete, else retained and unclaimed. */
  predicate Ended(users: Users, w: World, o: Order, v: string) {
    && o.user in users && o.user in w.runs && w.runs[o.user] == Run(o, Done(v))
    && PodKey(users[o.user]) !in w.state.pods
    && v in w.state.volumes
    && (if o.backend.reclaimPolicy == Some("Delete")
        then w.state.volumes[v].policy == "Delete" && OwnedBy(w.state.volumes[v], users[o.user], o.user)
        else w.state.volumes[v] == Volume("Retain", None))
  }

  lemma ToRestored(users: Users, w: World, o: Order, v: string) returns (w': World)
    requires Reachable(users, w) && o.user in users && o.user in w.runs && w.runs[o.user] == Run(o, Restoring(v))
    requires PodKey(users[o.user]) !in w.state.pods && o.backend.reclaimPolicy == Some("Delete")
    requires v in w.state.volumes && w.state.volumes[v] == Volume(RETAIN, None)
    ensures Reachable(users, w') && w'.dead == w.dead && w'.born == w.born && w'.state.claims == w.state.claims
    ensures Ended(users, w', o, v)
  {
    Extend(users, w, Step(o.user, Served, KIND));
    w' := Next(users, w, o.user);
  }

  lemma Finish(users: Users, w: World, o: Order, v: string) returns (w': World)
    requires Reachable(users, w) && Stage(users, w, o, Bonding(v), None, v, Some(Volume(RETAIN, None)))
    requires users[o.user].key in w.state.claims && !w.state.claims[users[o.user].key].deleting
    ensures Reachable(users, w') && w'.dead == w.dead && w'.born == w.born && Ended(users, w', o, v)
    ensures var k := users[o.user].key;
      k in w'.state.claims && w'.state.claims[k].uid == w.state.claims[k].uid && w'.state.claims[k].volumeName == v
  {
    w' := ToBonded(users, w, o, v);
    if o.backend.reclaimPolicy == Some("Delete") {
      w' := ToRestored(users, w', o, v);
    }
  }

  /** Undisturbed, a handover for a living claim completes, by either method, and leaves no pod behind. */
  lemma UndisturbedCompletes(users: Users, w: World, o: Order, v: string, policy: string) returns (w': World)
    requires DistinctNames(users) && Reachable(users, w) && Ready(users, w, o, v) && o.user !in w.dead
    ensures Reachable(users, w') && Ended(users, w', o, v) && Complete(users, w', o.user, v, o.backend.provisioner, o.backend.reclaimPolicy)
    ensures users[o.user].key in w'.state.claims && w'.state.claims[users[o.user].key].uid == o.user
    ensures w'.state.claims[users[o.user].key].volumeName == v
  {
    ReachableInv(users, w);
    assert UserOk(users, w, o.user);
    var k, t := users[o.user].key, users[o.user].temp;
    var w1 := Carry(users, w, o, v, policy);
    assert k in w1.state.claims && w1.state.claims[k] == w.state.claims[k] by {
      assert (w1.state.claims - {t})[k] == (w.state.claims - {t})[k];
    }
    w' := Finish(users, w1, o, v);
    HandedOver(users, w', o.user);
  }

  /**
   The patch of the user's claim goes by name. If the claim is deleted and one of the same name is created
   before that patch, the new claim comes to name the old claim's volume, and the volume, given to the old
   claim for deletion, can be reclaimed under it.
   */
  lemma RecreatedClaimLosesVolume(users: Users, w: World, o: Order, again: string, v: string, policy: string)
    returns (w': World)
    requires DistinctNames(users) && Reachable(users, w) && Ready(users, w, o, v) && o.user !in w.dead
    requires o.backend.reclaimPolicy == Some("Delete")
    requires again in users && again !in w.born && users[again].key == users[o.user].key
    ensures Reachable(users, w')
    ensures again in w'.born && again !in w'.dead
    ensures var k := users[again].key;
      k in w'.state.claims && w'.state.claims[k].uid == again && w'.state.claims[k].volumeName == v
    ensures Enabled(users, w', Reclaims(v))
  {
    var u, k := o.user, users[again].key;
    var w1 := Carry(users, w, o, v, policy);
    var w2 := Recreate(users, w1, u, again);
    w' := Finish(users, w2, o, v);
    ReachableInv(users, w);
    assert again !in w.dead by { assert UserOk(users, w, again); }
  }

  lemma Recreate(users: Users, w: World, u: string, again: string) returns (w': World)
    requires DistinctNames(users) && Reachable(users, w)
    requires u in users && u in w.born && u !in w.dead
    requires again in users && again !in w.born && users[again].key == users[u].key
    ensures Reachable(users, w')
    ensures w'.runs == w.runs && w'.origin == w.origin
    ensures w'.state.volumes == w.state.volumes && w'.state.pods == w.state.pods
    ensures w'.born == w.born + {again} && w'.dead == w.dead + {u}
    ensures users[u].temp in w'.state.claims <==> users[u].temp in w.state.claims
    ensures users[u].key in w'.state.claims && w'.state.claims[users[u].key].uid == again
    ensures !w'.state.claims[users[u].key].deleting
  {
    Extend(users, w, UserDeletes(u));
    var w1 := Apply(users, w, UserDeletes(u));
    Extend(users, w1, UserCreates(again));
    w' := Apply(users, w1, UserCreates(again));
  }

  /** A cluster with nothing in it. */
  const EMPTY: World := World(State(map[], map[], map[]), map[], map[], {}, {})

  lemma StartsEmpty(users: Users)
    ensures Reachable(users, EMPTY)
  {
    assert Replay(users, EMPTY, []) == Some(EMPTY);
  }

  /** An order of a Delete class, and a cluster in which it can begin. */
  lemma FirstOrder(users: Users, u: string) returns (w: World, o: Order)
    requires DistinctNames(users) && u in users
    ensures Reachable(users, w) && Ready(users, w, o, "volume") && o.backend.reclaimPolicy == Some("Delete") && o.user == u
    ensures w.born == {u} && w.dead == {}
  {
    StartsEmpty(users);
    Extend(users, EMPTY, UserCreates(u));
    w := Apply(users, EMPTY, UserCreates(u));
    o := Order(u, ByAnnotation, Backend("class", "provisioner", Some("Delete")), "node");
  }

  /** Whoever shares its name with another claim can come to name a volume that is about to be reclaimed. */
  lemma SharedNameIsUnsafe(users: Users, u: string) returns (w: World)
    requires DistinctNames(users) && u in users && !SoleOfItsName(users, u)
    ensures Reachable(users, w) && !NamedSafely(users, w, u)
  {
    var other :| other in users && other != u && users[other].key == users[u].key;
    var start, o := FirstOrder(users, other);
    w := RecreatedClaimLosesVolume(users, start, o, u, "volume", RETAIN);
  }

  /** A claim can rely on the volume it names in every run exactly when no other claim ever bears its name. */
  lemma SafeIffSole(users: Users, u: string)
    requires DistinctNames(users) && u in users
    ensures (forall w :: Reachable(users, w) ==> NamedSafely(users, w, u)) <==> SoleOfItsName(users, u)
  {
    if SoleOfItsName(users, u) {
      forall w | Reachable(users, w) ensures NamedSafely(users, w, u) {
        SoleIsSafe(users, w, u);
      }
    } else {
      var w := SharedNameIsUnsafe(users, u);
    }
  }
}
