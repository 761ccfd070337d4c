/**
 The API server as the provisioner's code meets it: every call comes at some moment in the interleaving
 of all participants. The history of moves is recorded, so that what the code does is a behaviour of the
 handover state machine.
 */
module ApiServers {
  import opened Wrappers
  import opened Cluster
  import opened Handover
  import opened HandoverDetached
  import opened Calls

  /** What the watch channel of a claim delivers. */
  datatype Event = Closed | TimedOut | Change(modified: bool, shown: Option<Claim>)

  class ApiServer {
    const users: Users
    ghost const start: World
    ghost var history: seq<Move>
    var world: World
    ghost var sent: seq<Sent>

    /** The present is what the recorded moves make of an initial cluster. */
    ghost predicate Valid()
      reads this
    {
      DistinctNames(users) && Initial(users, start) && Replay(users, start, history) == Some(world)
    }

    constructor (users: Users, world: World)
      requires DistinctNames(users) && Initial(users, world)
      ensures Valid() && this.users == users && this.world == world && start == world && history == [] && sent == []
    {
      this.users, this.start, this.world, this.history, this.sent := users, world, world, [], [];
    }

    /** Run u is at this point of this order. */
    ghost predicate Standing(u: string, o: Order, p: Phase)
      reads this
    {
      Valid() && u in users && u in world.runs && world.runs[u] == Run(o, p)
    }

    /** At the end of the given part of the history, run u had detached no volume. */
    ghost predicate Began(part: seq<Move>, u: string)
      reads this
    {
      && part <= history
      && Replay(users, start, part).Some? && DetachedBy(Replay(users, start, part).value, u).None?
    }

    lemma LeftUnclaimed(part: seq<Move>, u: string)
      requires Valid() && Began(part, u) && DetachedBy(world, u).Some?
      requires NeverAttached(history, |part|, DetachedBy(world, u).value)
      ensures Unclaimed(world, DetachedBy(world, u).value)
    {
      assert history[..|part|] == part;
      UnclaimedUnlessAttached(users, start, history, |part|, u);
    }

    /** Since before, the code has carried out this script, to its end or to an answer that broke it off. */
    ghost predicate Followed(before: seq<Sent>, script: seq<Ask>, ok: bool)
      reads this
    {
      before <= sent && Follows(script, sent[|before|..], ok)
    }

    lemma Continued(before: seq<Sent>, s1: seq<Ask>, mid: seq<Sent>, s2: seq<Ask>, ok: bool)
      requires before <= mid && Follows(s1, mid[|before|..], true) && Followed(mid, s2, ok)
      ensures Followed(before, s1 + s2, ok)
    {
      ThenFollows(s1, mid[|before|..], s2, sent[|mid|..], ok);
      assert sent[|before|..] == mid[|before|..] + sent[|mid|..];
    }

    lemma Stopped(before: seq<Sent>, s1: seq<Ask>, s2: seq<Ask>)
      requires Followed(before, s1, false)
      ensures Followed(before, s1 + s2, false)
    {
      BrokenOff(s1, sent[|before|..], s2);
    }

    method Move(m: Move)
      requires Valid() && Enabled(users, world, m)
      modifies this
      ensures Valid() && world == Apply(users, old(world), m) && history == old(history) + [m] && sent == old(sent)
    {
      ghost var longer := history + [m];
      assert longer[..|longer| - 1] == history;
      history := longer;
      world := Apply(users, world, m);
    }

    static predicate Concerns(m: Move, u: string) {
      (m.Step? && m.run == u) || (m.Crashes? && m.run == u) || (m.Begin? && m.order.user == u)
    }

    /** Any number of moves of the others: users, controllers, and the runs of other claims. */
    method Others(u: string)
      requires Valid() && u in world.runs
      modifies this
      ensures Valid() && u in world.runs && world.runs[u] == old(world.runs[u]) && old(history) <= history
      ensures old(world.born) <= world.born && sent == old(sent)
    {
      var n: nat :| true;
      while n > 0
        invariant Valid() && u in world.runs && world.runs[u] == old(world.runs[u]) && old(history) <= history
        invariant old(world.born) <= world.born && sent == old(sent)
      {
        var m: Move :| true;
        if Enabled(users, world, m) && !Concerns(m, u) {
          Move(m);
        }
        n := n - 1;
      }
    }

    /** One call of run u, at any later moment, with any fate. The code must call what the machine says. */
    method Call(u: string, q: Request) returns (a: Reply)
      requires Valid() && u in users && u in world.runs && Active(world.runs[u].phase)
      requires q == NextRequest(users[u], world.runs[u])
      modifies this
      ensures Valid() && u in world.runs && old(history) <= history
      ensures world.runs[u] == old(world.runs[u]).(phase := Advance(users[u], old(world.runs[u]), a))
      ensures exists s, fate, x :: (world.state, a) == Cluster.Call(s, q, fate, x)
      ensures sent == old(sent) + [Sent(q, a)]
    {
      Others(u);
      ghost var s := world.state;
      var fate: Fate :| true;
      var x: Chance :| true;
      a := Cluster.Call(world.state, q, fate, x).1;
      Move(Step(u, fate, x));
      sent := sent + [Sent(q, a)];
      assert (world.state, a) == Cluster.Call(s, q, fate, x);
    }

    /** A patch, which must be answered well. */
    method Try(u: string, q: Request) returns (ok: bool)
      requires Valid() && u in users && u in world.runs && Active(world.runs[u].phase)
      requires q == NextRequest(users[u], world.runs[u]) && (q.PatchVolume? || q.PatchClaim?)
      modifies this
      ensures Valid() && u in world.runs && old(history) <= history
      ensures var a := if ok then Fine else Refused;
        world.runs[u] == old(world.runs[u]).(phase := Advance(users[u], old(world.runs[u]), a))
      ensures Followed(old(sent), [Once(q)], ok)
    {
      var a := Call(u, q);
      ok := a.Fine?;
    }

    /**
     The next event on the watch of a claim. A modification shows the claim as it is stored; one that shows
     it bound, like the end of the channel or of the time, is where the waiting run moves on.
     */
    method NextEvent(u: string, key: Key) returns (e: Event)
      requires Valid() && u in users && u in world.runs && world.runs[u].phase.Awaiting?
      requires key == users[u].temp
      modifies this
      ensures Valid() && u in world.runs && old(history) <= history
      ensures var moved := old(world.runs[u]).(phase := Advance(users[u], old(world.runs[u]),
          if e.Change? && e.shown.Some? then Seen(e.shown.value) else Refused));
        world.runs[u] ==
          if e.Closed? || e.TimedOut? || (e.modified && e.shown.Some? && e.shown.value.bound)
          then moved else old(world.runs[u])
      ensures sent ==
        if e.Closed? || e.TimedOut? then old(sent) + [Sent(AwaitBound(key), Refused)]
        else if e.modified && e.shown.Some? && e.shown.value.bound then old(sent) + [Sent(AwaitBound(key), Seen(e.shown.value))]
        else old(sent)
    {
      Others(u);
      e :| true;
      var x: Chance :| true;
      if e.Change? && e.modified && e.shown.Some? {
        if key !in world.state.claims {
          e := Change(false, None);
        } else {
          e := Change(true, Some(world.state.claims[key]));
          if e.shown.value.bound {
            assert Serve(world.state, NextRequest(users[u], world.runs[u]), x).1 == Seen(e.shown.value);
            Move(Step(u, Served, x));
            sent := sent + [Sent(AwaitBound(key), Seen(e.shown.value))];
          }
        }
      } else if !e.Change? {
        Move(Step(u, Dropped, x));
        sent := sent + [Sent(AwaitBound(key), Refused)];
      }
    }

    /** The watch may not open, or end without another event. */
    method EndWatch(u: string, key: Key)
      requires Valid() && u in users && u in world.runs && world.runs[u].phase.Awaiting?
      requires key == users[u].temp
      modifies this
      ensures Valid() && u in world.runs && old(history) <= history
      ensures world.runs[u] == old(world.runs[u]).(phase := Failed)
      ensures sent == old(sent) + [Sent(AwaitBound(key), Refused)]
    {
      var x: Chance :| true;
      Move(Step(u, Dropped, x));
      sent := sent + [Sent(AwaitBound(key), Refused)];
    }
  }
}
