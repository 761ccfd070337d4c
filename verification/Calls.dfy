/**
 What a stretch of code asks of the server, as a script, and which sequences of calls and answers carry
 the script out.
 */
module Calls {
  import opened Cluster

  /** A call the code made, and the answer it got. */
  datatype Sent = Sent(request: Request, reply: Reply)

  datatype Ask =
    | Once(request: Request)
    | Ensure(look: Request, create: Request)               // create only what is not found
    | Start(request: Request, pod: Key)                    // or use, under this handle, what is there already
    | Await(request: Request, seen: Claim)
    | Insist(request: Request, left: nat, goneWillDo: bool)  // try again, so many times in all

  /** The log is the calls that carry out the script in order, up to the end or, if not ok, to an answer that ends it. */
  predicate Follows(script: seq<Ask>, log: seq<Sent>, ok: bool)
    decreases |log|
  {
    if script == [] || log == [] then script == [] && log == [] && ok
    else
      var a, rest := log[0].reply, script[1..];
      match script[0]
      case Once(q) =>
        log[0].request == q && if a.Fine? then Follows(rest, log[1..], ok) else |log| == 1 && !ok
      case Ensure(look, create) =>
        log[0].request == look &&
        if a.Fine? then Follows(rest, log[1..], ok)
        else if a.NotFound? then Follows([Once(create)] + rest, log[1..], ok)
        else |log| == 1 && !ok
      case Start(q, pod) =>
        log[0].request == q &&
        if a.Fine? then q.CreatePod? && pod == q.key && Follows(rest, log[1..], ok)
        else if a.AlreadyExists? then pod == a.handle && Follows(rest, log[1..], ok)
        else |log| == 1 && !ok
      case Await(q, seen) =>
        log[0].request == q && if a.Seen? then a.claim == seen && Follows(rest, log[1..], ok) else |log| == 1 && !ok
      case Insist(q, left, goneWillDo) =>
        log[0].request == q &&
        if a.Fine? || (goneWillDo && a.NotFound?) then Follows(rest, log[1..], ok)
        else if left <= 1 then |log| == 1 && !ok
        else Follows([Insist(q, left - 1, goneWillDo)] + rest, log[1..], ok)
  }

  /** Two scripts one after the other, the first to its end. */
  lemma {:induction false} ThenFollows(s1: seq<Ask>, l1: seq<Sent>, s2: seq<Ask>, l2: seq<Sent>, ok: bool)
    requires Follows(s1, l1, true) && Follows(s2, l2, ok)
    ensures Follows(s1 + s2, l1 + l2, ok)
    decreases |l1|
  {
    if l1 == [] {
      assert s1 + s2 == s2 && l1 + l2 == l2;
    } else {
      var s := Remaining(s1, l1[0].reply);
      assert (l1 + l2)[1..] == l1[1..] + l2;
      RemainingConcat(s1, l1[0].reply, s2);
      ThenFollows(s, l1[1..], s2, l2, ok);
    }
  }

  /** What is left of a script after an answer that does not end it. */
  function Remaining(script: seq<Ask>, a: Reply): seq<Ask>
    requires script != []
  {
    match script[0]
    case Ensure(_, create) => if a.NotFound? then [Once(create)] + script[1..] else script[1..]
    case Insist(q, left, goneWillDo) =>
      if a.Fine? || (goneWillDo && a.NotFound?) || left <= 1 then script[1..]
      else [Insist(q, left - 1, goneWillDo)] + script[1..]
    case _ => script[1..]
  }

  lemma RemainingConcat(s1: seq<Ask>, a: Reply, s2: seq<Ask>)
    requires s1 != []
    ensures Remaining(s1 + s2, a) == Remaining(s1, a) + s2 && (s1 + s2)[0] == s1[0]
  {
    assert (s1 + s2)[1..] == s1[1..] + s2;
  }

  /** A script that was broken off leaves what comes after it undone. */
  lemma {:induction false} BrokenOff(s1: seq<Ask>, log: seq<Sent>, s2: seq<Ask>)
    requires Follows(s1, log, false)
    ensures Follows(s1 + s2, log, false)
    decreases |log|
  {
    if log != [] {
      RemainingConcat(s1, log[0].reply, s2);
      if |log| > 1 {
        BrokenOff(Remaining(s1, log[0].reply), log[1..], s2);
      } else if Follows(Remaining(s1, log[0].reply), log[1..], false) {
        BrokenOff(Remaining(s1, log[0].reply), log[1..], s2);
      }
    }
  }

  predicate Good(a: Reply, goneWillDo: bool) {
    a.Fine? || (goneWillDo && a.NotFound?)
  }

  /** The same call, over and over, never answered well. */
  predicate InVain(q: Request, goneWillDo: bool, log: seq<Sent>) {
    forall i :: 0 <= i < |log| ==> log[i].request == q && !Good(log[i].reply, goneWillDo)
  }

  lemma {:induction false} GivesUp(q: Request, left: nat, goneWillDo: bool, log: seq<Sent>)
    requires InVain(q, goneWillDo, log) && |log| == left > 0
    ensures Follows([Insist(q, left, goneWillDo)], log, false)
    decreases left
  {
    if left > 1 {
      GivesUp(q, left - 1, goneWillDo, log[1..]);
      assert [Insist(q, left - 1, goneWillDo)] + [] == [Insist(q, left - 1, goneWillDo)];
    }
  }

  lemma {:induction false} GetsThere(q: Request, left: nat, goneWillDo: bool, log: seq<Sent>, a: Reply)
    requires InVain(q, goneWillDo, log) && |log| < left && Good(a, goneWillDo)
    ensures Follows([Insist(q, left, goneWillDo)], log + [Sent(q, a)], true)
    decreases left
  {
    if log != [] {
      GetsThere(q, left - 1, goneWillDo, log[1..], a);
      assert (log + [Sent(q, a)])[1..] == log[1..] + [Sent(q, a)];
      assert [Insist(q, left - 1, goneWillDo)] + [] == [Insist(q, left - 1, goneWillDo)];
    }
  }

  lemma Found(look: Request, create: Request, a: Reply)
    requires !a.NotFound?
    ensures Follows([Ensure(look, create)], [Sent(look, a)], a.Fine?)
  {}

  lemma NotThere(look: Request, create: Request, a: Reply)
    ensures Follows([Ensure(look, create)], [Sent(look, NotFound), Sent(create, a)], a.Fine?)
  {
    var log := [Sent(look, NotFound), Sent(create, a)];
    assert log[1..] == [Sent(create, a)];
    assert [Once(create)] + [] == [Once(create)];
    assert Follows([Once(create)], log[1..], a.Fine?);
  }
}
