/** What becomes of a volume's claim reference from its detachment to the end of the run. */
module HandoverDetached {
  import opened Wrappers
  import opened Cluster
  import opened Handover
  import opened HandoverSafety

  /** The volume a run has detached and not given to anyone since. */
  function Detached(r: Run): Option<string> {
    match r.phase
    case Bonding(v) => Some(v)
    case Restoring(v) => Some(v)
    case Done(v) => if r.order.backend.reclaimPolicy == Some("Delete") then None else Some(v)
    case _ => None
  }

  function DetachedBy(w: World, u: string): Option<string> {
    if u in w.runs then Detached(w.runs[u]) else None
  }

  /** If it is still there, nobody has it. */
  predicate Unclaimed(w: World, v: string) {
    v in w.state.volumes ==> w.state.volumes[v] == Volume("Retain", None)
  }

  /** The volume controller gave the volume to no claim from the given move on. */
  predicate NeverAttached(moves: seq<Move>, since: nat, v: string) {
    forall j :: since <= j < |moves| && moves[j].Attaches? ==> moves[j].volume != v
  }

  predicate SameVolume(s: State, s': State, v: string) {
    (v in s'.volumes <==> v in s.volumes) && (v in s.volumes ==> s'.volumes[v] == s.volumes[v])
  }

  lemma CallSparesVolume(s: State, q: Request, fate: Fate, x: Chance, v: string)
    requires q.PatchVolume? ==> q.name != v
    ensures SameVolume(s, Call(s, q, fate, x).0, v)
  {}

  lemma PatchesOwnVolume(u: User, r: Run)
    requires Active(r.phase) && NextRequest(u, r).PatchVolume?
    ensures VolumeOf(r.phase) == Some(NextRequest(u, r).name)
  {}

  /** No call of one run touches the volume of another. */
  lemma OthersSpareVolume(users: Users, w: World, u: string, fate: Fate, x: Chance, v: string)
    requires Enabled(users, w, Step(u, fate, x)) && RunOk(users, w, u) && v in w.origin && w.origin[v] != u
    ensures SameVolume(w.state, Apply(users, w, Step(u, fate, x)).state, v)
  {
    var q := NextRequest(users[u], w.runs[u]);
    if q.PatchVolume? { PatchesOwnVolume(users[u], w.runs[u]); }
    CallSparesVolume(w.state, q, fate, x, v);
  }

  lemma OnlyByBonding(users: Users, w: World, u: string, fate: Fate, x: Chance)
    requires Enabled(users, w, Step(u, fate, x)) && RunOk(users, w, u)
    requires DetachedBy(w, u).Some? && DetachedBy(Apply(users, w, Step(u, fate, x)), u).Some?
    ensures w.runs[u].phase.Bonding?
  {}

  lemma BondingKeepsUnclaimed(users: Users, w: World, u: string, fate: Fate, x: Chance, v: string)
    requires Enabled(users, w, Step(u, fate, x)) && RunOk(users, w, u) && w.runs[u].phase.Bonding?
    ensures SameVolume(w.state, Apply(users, w, Step(u, fate, x)).state, v)
  {
    CallSparesVolume(w.state, NextRequest(users[u], w.runs[u]), fate, x, v);
  }

  /** A run that has detached its volume keeps it so, against everything but the volume controller's attaching it. */
  lemma MoveKeepsUnclaimed(users: Users, w: World, m: Move, u: string)
    requires Inv(users, w) && Enabled(users, w, m)
    requires var v := DetachedBy(w, u); v.Some? && Unclaimed(w, v.value) && (m.Attaches? ==> m.volume != v.value)
    requires DetachedBy(Apply(users, w, m), u).Some?
    ensures var w' := Apply(users, w, m); Unclaimed(w', DetachedBy(w', u).value)
  {
    assert RunOk(users, w, u);
    DetachedStays(users, w, m, u);
    if m.Step? && m.run == u {
      OnlyByBonding(users, w, u, m.fate, m.chance);
      BondingKeepsUnclaimed(users, w, u, m.fate, m.chance, DetachedBy(w, u).value);
    } else if m.Step? {
      assert RunOk(users, w, m.run);
      OthersSpareVolume(users, w, m.run, m.fate, m.chance, DetachedBy(w, u).value);
    }
  }

  /** Only the answer to the call that clears the claim reference makes a run one that has detached its volume. */
  lemma OnlyByClearing(users: Users, w: World, m: Move, u: string)
    requires Enabled(users, w, m)
    requires DetachedBy(w, u).None? && DetachedBy(Apply(users, w, m), u).Some?
    ensures m.Step? && m.run == u && m.fate.Served? && w.runs[u].phase.Detaching?
  {}

  lemma ClearingUnclaims(users: Users, w: World, u: string, x: Chance)
    requires Enabled(users, w, Step(u, Served, x)) && RunOk(users, w, u) && w.runs[u].phase.Detaching?
    ensures Unclaimed(Apply(users, w, Step(u, Served, x)), w.runs[u].phase.seen.volumeName)
  {
    var v := w.runs[u].phase.seen.volumeName;
    if v in w.state.volumes {
      assert VolumeSight(w.state, w.runs[u].phase) == Some(w.state.volumes[v]);
      assert w.state.volumes[v].policy == RETAIN;
    }
  }

  /** A run detaches its volume by clearing the claim reference, once the volume is on Retain. */
  lemma DetachingUnclaims(users: Users, w: World, m: Move, u: string)
    requires Inv(users, w) && Enabled(users, w, m)
    requires DetachedBy(w, u).None? && DetachedBy(Apply(users, w, m), u).Some?
    ensures var w' := Apply(users, w, m); Unclaimed(w', DetachedBy(w', u).value)
  {
    OnlyByClearing(users, w, m, u);
    assert RunOk(users, w, u);
    ClearingUnclaims(users, w, u, m.chance);
  }

  lemma DetachedStays(users: Users, w: World, m: Move, u: string)
    requires Enabled(users, w, m) && DetachedBy(w, u).Some?
    requires DetachedBy(Apply(users, w, m), u).Some?
    ensures DetachedBy(Apply(users, w, m), u) == DetachedBy(w, u)
  {}

  /**
   In every run, with any interference: since it was detached, a volume that is not given to its user is on
   Retain and refers to no claim, unless the volume controller attached it to one that names it.
   */
  lemma {:induction false} UnclaimedUnlessAttached(users: Users, start: World, moves: seq<Move>, since: nat, u: string)
    requires DistinctNames(users) && Initial(users, start) && since <= |moves|
    requires Replay(users, start, moves).Some? && Replay(users, start, moves[..since]).Some?
    requires DetachedBy(Replay(users, start, moves[..since]).value, u).None?
    requires var v := DetachedBy(Replay(users, start, moves).value, u); v.Some? && NeverAttached(moves, since, v.value)
    ensures var w := Replay(users, start, moves).value; Unclaimed(w, DetachedBy(w, u).value)
    decreases |moves|
  {
    assert moves[..|moves|] == moves;
    if since < |moves| {
      var n := |moves| - 1;
      assert moves[..n][..since] == moves[..since];
      var w := Replay(users, start, moves[..n]).value;
      ReplayKeeps(users, start, moves[..n]);
      if DetachedBy(w, u).None? {
        DetachingUnclaims(users, w, moves[n], u);
      } else {
        DetachedStays(users, w, moves[n], u);
        UnclaimedUnlessAttached(users, start, moves[..n], since, u);
        MoveKeepsUnclaimed(users, w, moves[n], u);
      }
    }
  }

  /**
   The state after a successful handover, as long as nothing attached the volume since the run began: the
   handover is complete, and a volume that the class does not want on Delete is left on Retain for nobody.
   */
  lemma HandedOverUnattached(users: Users, start: World, moves: seq<Move>, since: nat, u: string)
    requires DistinctNames(users) && Initial(users, start) && since <= |moves|
    requires Replay(users, start, moves).Some? && Replay(users, start, moves[..since]).Some?
    requires DetachedBy(Replay(users, start, moves[..since]).value, u).None?
    requires var w := Replay(users, start, moves).value;
      u in w.runs && w.runs[u].phase.Done? && NeverAttached(moves, since, w.runs[u].phase.volume)
    ensures var w := Replay(users, start, moves).value;
      var v, b := w.runs[u].phase.volume, w.runs[u].order.backend;
      Complete(users, w, u, v, b.provisioner, b.reclaimPolicy) && (b.reclaimPolicy != Some("Delete") ==> Unclaimed(w, v))
  {
    var w := Replay(users, start, moves).value;
    assert Reachable(users, w);
    HandedOver(users, w, u);
    if w.runs[u].order.backend.reclaimPolicy != Some("Delete") {
      UnclaimedUnlessAttached(users, start, moves, since, u);
    }
  }
}
