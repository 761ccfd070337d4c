/**
 The topology decision (compile the selector, sort, scan the node's term) against direct evaluation of
 the selector on the node's labels.
 */
module Decision {
  import opened Ordering
  import opened Topology
  import opened Expansion
  import opened Canonical

  function KeysOf(exprs: SelectorTerm): (keys: seq<string>)
    ensures |keys| == |exprs|
  {
    seq(|exprs|, i requires 0 <= i < |exprs| => exprs[i].key)
  }

  /** What a selector term asks of a node, read directly: every key is a topology key whose label is allowed. */
  predicate Direct(exprs: SelectorTerm, labels: Labels, keys: seq<string>) {
    && exprs != []
    && AllHold(exprs, labels)
    && forall i :: 0 <= i < |exprs| ==> exprs[i].key in keys
  }

  /**
   What the compiled form decides: only live expressions count, and the driver must list a key at least
   as often as they use it.
   */
  predicate Admits(exprs: SelectorTerm, labels: Labels, keys: seq<string>) {
    && Live(exprs) != []
    && AllHold(Live(exprs), labels)
    && multiset(KeysOf(Live(exprs))) <= multiset(keys)
  }

  ghost predicate SomeAdmits(allowed: seq<SelectorTerm>, labels: Labels, keys: seq<string>) {
    exists i :: 0 <= i < |allowed| && Admits(allowed[i], labels, keys)
  }

  lemma {:induction false} NodeTermCounts(labels: Labels, keys: seq<string>, s: Segment)
    requires forall k :: k in keys ==> k in labels
    ensures multiset(NodeTerm(labels, keys))[s] ==
      if s.key in labels && labels[s.key] == s.value then multiset(keys)[s.key] else 0
  {
    if keys != [] {
      var rest := keys[1..];
      NodeTermCounts(labels, rest, s);
      assert keys == [keys[0]] + rest;
      assert NodeTerm(labels, keys) == [Segment(keys[0], labels[keys[0]])] + NodeTerm(labels, rest);
    }
  }

  lemma KeyInclusion(labels: Labels, some: seq<string>, keys: seq<string>)
    requires forall k :: k in some || k in keys ==> k in labels
    ensures multiset(NodeTerm(labels, some)) <= multiset(NodeTerm(labels, keys))
      <==> multiset(some) <= multiset(keys)
  {
    var a, b := NodeTerm(labels, some), NodeTerm(labels, keys);
    if multiset(a) <= multiset(b) {
      forall k ensures multiset(some)[k] <= multiset(keys)[k] {
        if k in multiset(some) {
          assert k in some;
          NodeTermCounts(labels, some, Segment(k, labels[k]));
          NodeTermCounts(labels, keys, Segment(k, labels[k]));
          assert multiset(a)[Segment(k, labels[k])] <= multiset(b)[Segment(k, labels[k])];
        }
      }
    }
    if multiset(some) <= multiset(keys) {
      forall s: Segment ensures multiset(a)[s] <= multiset(b)[s] {
        NodeTermCounts(labels, some, s);
        NodeTermCounts(labels, keys, s);
        assert multiset(some)[s.key] <= multiset(keys)[s.key];
      }
    }
  }

  lemma LabelPickIsNodeTerm(exprs: SelectorTerm, labels: Labels)
    requires forall i :: 0 <= i < |exprs| ==> exprs[i].key in labels
    ensures (forall k :: k in KeysOf(exprs) ==> k in labels)
    ensures LabelPick(exprs, labels) == NodeTerm(labels, KeysOf(exprs))
  {}

  /** The scan accepts a compiled term exactly when the node's term has all of its segments. */
  lemma TermScan(t: Term, labels: Labels, keys: seq<string>)
    requires forall k :: k in keys ==> k in labels
    ensures Scan(SortTerm(t), SortTerm(NodeTerm(labels, keys))) <==>
      multiset(t) <= multiset(NodeTerm(labels, keys))
  {
    NodeTermFunctional(labels, keys);
    ScanExact(SortTerm(t), SortTerm(NodeTerm(labels, keys)));
  }

  ghost predicate SomeIncluded(terms: seq<Term>, node: Term) {
    exists t :: t in terms && multiset(t) <= multiset(node)
  }

  lemma IncludedHolds(t: Term, labels: Labels, keys: seq<string>)
    requires forall k :: k in keys ==> k in labels
    requires multiset(t) <= multiset(NodeTerm(labels, keys))
    ensures Holds(t, labels)
  {
    forall i | 0 <= i < |t| ensures t[i].key in labels && labels[t[i].key] == t[i].value {
      assert t[i] in multiset(t);
      NodeTermCounts(labels, keys, t[i]);
    }
  }

  lemma IncludedIsAdmitted(exprs: SelectorTerm, t: Term, labels: Labels, keys: seq<string>)
    requires forall k :: k in keys ==> k in labels
    requires t in ExpandTerm(exprs) && multiset(t) <= multiset(NodeTerm(labels, keys))
    ensures Admits(exprs, labels, keys)
  {
    var live := Live(exprs);
    IncludedHolds(t, labels, keys);
    HeldTermPicks(exprs, t, labels);
    LabelPickIsNodeTerm(live, labels);
    KeyInclusion(labels, KeysOf(live), keys);
  }

  lemma LabelPickIncluded(exprs: SelectorTerm, labels: Labels, keys: seq<string>)
    requires forall k :: k in keys ==> k in labels
    requires AllHold(exprs, labels) && multiset(KeysOf(exprs)) <= multiset(keys)
    ensures multiset(LabelPick(exprs, labels)) <= multiset(NodeTerm(labels, keys))
  {
    LabelPickIsNodeTerm(exprs, labels);
    KeyInclusion(labels, KeysOf(exprs), keys);
  }

  lemma AdmittedIsIncluded(exprs: SelectorTerm, labels: Labels, keys: seq<string>) returns (t: Term)
    requires forall k :: k in keys ==> k in labels
    requires Admits(exprs, labels, keys)
    ensures t in ExpandTerm(exprs) && multiset(t) <= multiset(NodeTerm(labels, keys))
  {
    assert LiveTermHolds(exprs, labels);
    LabelPickCompiled(exprs, labels);
    LabelPickIncluded(Live(exprs), labels, keys);
    t := LabelPick(Live(exprs), labels);
  }

  lemma ExpandAllDecision(allowed: seq<SelectorTerm>, labels: Labels, keys: seq<string>)
    requires forall k :: k in keys ==> k in labels
    ensures SomeIncluded(ExpandAll(allowed), NodeTerm(labels, keys)) <==> SomeAdmits(allowed, labels, keys)
  {
    var node := NodeTerm(labels, keys);
    if SomeIncluded(ExpandAll(allowed), node) {
      var t :| t in ExpandAll(allowed) && multiset(t) <= multiset(node);
      ExpandAllMembers(allowed, t);
      var i :| 0 <= i < |allowed| && t in ExpandTerm(allowed[i]);
      IncludedIsAdmitted(allowed[i], t, labels, keys);
    }
    if SomeAdmits(allowed, labels, keys) {
      var i :| 0 <= i < |allowed| && Admits(allowed[i], labels, keys);
      var t := AdmittedIsIncluded(allowed[i], labels, keys);
      ExpandAllMembers(allowed, t);
    }
  }

  ghost predicate SomeScanned(terms: seq<Term>, node: Term) {
    exists t :: t in terms && Scan(t, node)
  }

  lemma IncludedIsScanned(terms: seq<Term>, labels: Labels, keys: seq<string>)
    requires forall k :: k in keys ==> k in labels
    requires SomeIncluded(terms, NodeTerm(labels, keys))
    ensures SomeScanned(SortAll(terms), SortTerm(NodeTerm(labels, keys)))
  {
    var node := NodeTerm(labels, keys);
    var t :| t in terms && multiset(t) <= multiset(node);
    var i :| 0 <= i < |terms| && terms[i] == t;
    TermScan(t, labels, keys);
    assert SortAll(terms)[i] == SortTerm(t);
    ScannedAt(SortAll(terms), SortTerm(node), i);
  }

  lemma ScannedIsIncluded(terms: seq<Term>, labels: Labels, keys: seq<string>)
    requires forall k :: k in keys ==> k in labels
    requires SomeScanned(SortAll(terms), SortTerm(NodeTerm(labels, keys)))
    ensures SomeIncluded(terms, NodeTerm(labels, keys))
  {
    var node := NodeTerm(labels, keys);
    var s :| s in SortAll(terms) && Scan(s, SortTerm(node));
    var i :| 0 <= i < |terms| && SortAll(terms)[i] == s;
    TermScan(terms[i], labels, keys);
    IncludedAt(terms, node, i);
  }

  lemma ScannedAt(terms: seq<Term>, node: Term, i: nat)
    requires i < |terms| && Scan(terms[i], node)
    ensures SomeScanned(terms, node)
  {
    assert terms[i] in terms;
  }

  lemma IncludedAt(terms: seq<Term>, node: Term, i: nat)
    requires i < |terms| && multiset(terms[i]) <= multiset(node)
    ensures SomeIncluded(terms, node)
  {
    assert terms[i] in terms;
  }

  /** Compile-then-scan, exactly, for every selector, label map and list of topology keys. */
  lemma DecisionExact(allowed: seq<SelectorTerm>, labels: Labels, keys: seq<string>)
    ensures Passes(allowed, labels, keys) <==>
      (forall k :: k in keys ==> k in labels) && SomeAdmits(allowed, labels, keys)
  {
    if forall k :: k in keys ==> k in labels {
      ExpandAllDecision(allowed, labels, keys);
      if SomeIncluded(ExpandAll(allowed), NodeTerm(labels, keys)) {
        IncludedIsScanned(ExpandAll(allowed), labels, keys);
      }
      if SomeScanned(Flattened(allowed), SortTerm(NodeTerm(labels, keys))) {
        ScannedIsIncluded(ExpandAll(allowed), labels, keys);
      }
    }
  }

  predicate DistinctKeys(exprs: SelectorTerm) {
    forall i, j :: 0 <= i < j < |exprs| ==> exprs[i].key != exprs[j].key
  }

  lemma {:induction false} DistinctIncluded(some: seq<string>, keys: seq<string>)
    requires forall i, j :: 0 <= i < j < |some| ==> some[i] != some[j]
    requires forall i :: 0 <= i < |some| ==> some[i] in keys
    ensures multiset(some) <= multiset(keys)
  {
    forall k ensures multiset(some)[k] <= multiset(keys)[k] {
      DistinctCount(some, k);
      if k in multiset(some) { assert k in some; }
    }
  }

  lemma {:induction false} DistinctCount(some: seq<string>, k: string)
    requires forall i, j :: 0 <= i < j < |some| ==> some[i] != some[j]
    ensures multiset(some)[k] <= 1
  {
    if some != [] {
      assert some == [some[0]] + some[1..];
      DistinctCount(some[1..], k);
      forall i | 0 <= i < |some[1..]| ensures some[1..][i] != some[0] {
        assert some[1..][i] == some[i + 1];
      }
    }
  }

  lemma AdmittedIsDirect(exprs: SelectorTerm, labels: Labels, keys: seq<string>)
    requires WellFormed(exprs)
    ensures Admits(exprs, labels, keys) <==>
      Direct(exprs, labels, keys) && multiset(KeysOf(exprs)) <= multiset(keys)
  {
    LiveOfWellFormed(exprs);
    if multiset(KeysOf(exprs)) <= multiset(keys) {
      forall i | 0 <= i < |exprs| ensures exprs[i].key in keys {
        assert KeysOf(exprs)[i] in multiset(KeysOf(exprs));
      }
    }
  }

  ghost predicate SomeDirect(allowed: seq<SelectorTerm>, labels: Labels, keys: seq<string>) {
    exists i :: 0 <= i < |allowed| && Direct(allowed[i], labels, keys)
  }

  /** For selectors with values everywhere and no repeated key in a term, the decision is direct evaluation. */
  lemma DecisionIsDirectEvaluation(allowed: seq<SelectorTerm>, labels: Labels, keys: seq<string>)
    requires forall e :: e in allowed ==> WellFormed(e) && DistinctKeys(e)
    ensures Passes(allowed, labels, keys) <==>
      (forall k :: k in keys ==> k in labels) && SomeDirect(allowed, labels, keys)
  {
    DecisionExact(allowed, labels, keys);
    forall i | 0 <= i < |allowed|
      ensures Admits(allowed[i], labels, keys) <==> Direct(allowed[i], labels, keys)
    {
      assert allowed[i] in allowed;
      AdmittedIsDirect(allowed[i], labels, keys);
      if Direct(allowed[i], labels, keys) { DistinctIncluded(KeysOf(allowed[i]), keys); }
    }
  }

  /**
   A key used twice refuses every node of a driver that lists it once, whatever value both expressions
   share: say zone in {a, b} AND zone in {b, c} on a node in zone b.
   */
  lemma RepeatedKeyRefused(key: string, v: string, some: seq<string>, others: seq<string>)
    requires v in some && v in others
    ensures var exprs := [Expression(key, some), Expression(key, others)];
      Direct(exprs, map[key := v], [key]) && !Passes([exprs], map[key := v], [key])
  {
    var exprs := [Expression(key, some), Expression(key, others)];
    AdmittedIsDirect(exprs, map[key := v], [key]);
    TwiceIsNotOnce(exprs, key);
    SingleDecision(exprs, map[key := v], [key]);
  }

  lemma TwiceIsNotOnce(exprs: SelectorTerm, key: string)
    requires |exprs| == 2 && exprs[0].key == exprs[1].key == key
    ensures !(multiset(KeysOf(exprs)) <= multiset([key]))
  {
    assert KeysOf(exprs) == [key, key];
    assert multiset([key, key])[key] == 2 && multiset([key])[key] == 1;
  }

  lemma SingleDecision(exprs: SelectorTerm, labels: Labels, keys: seq<string>)
    ensures Passes([exprs], labels, keys) <==> (forall k :: k in keys ==> k in labels) && Admits(exprs, labels, keys)
  {
    DecisionExact([exprs], labels, keys);
    assert [exprs][0] == exprs;
  }

  /** The node's labels with every missing topology key added. */
  function Padded(labels: Labels, keys: seq<string>): Labels {
    map k | k in labels.Keys + (set i | 0 <= i < |keys| :: keys[i]) :: if k in labels then labels[k] else ""
  }

  /**
   With values everywhere, a term is decided as written on every node that has the driver's keys exactly
   when the driver lists the term's keys often enough, or lacks one of them, or no node meets the term, or
   there is nothing in it.
   */
  lemma RepeatedKeysIff(exprs: SelectorTerm, keys: seq<string>)
    requires WellFormed(exprs)
    ensures (forall labels: Labels :: (forall k :: k in keys ==> k in labels) ==>
        (Passes([exprs], labels, keys) <==> Direct(exprs, labels, keys)))
      <==> (exprs == [] || multiset(KeysOf(exprs)) <= multiset(keys)
            || !(forall i :: 0 <= i < |exprs| ==> exprs[i].key in keys) || !Satisfiable(exprs))
  {
    forall labels: Labels | forall k :: k in keys ==> k in labels
      ensures Passes([exprs], labels, keys) <==>
        Direct(exprs, labels, keys) && multiset(KeysOf(exprs)) <= multiset(keys)
    {
      SingleDecision(exprs, labels, keys);
      AdmittedIsDirect(exprs, labels, keys);
    }
    SatisfiableMeansMet(exprs);
    if exprs != [] && !(multiset(KeysOf(exprs)) <= multiset(keys))
      && (forall i :: 0 <= i < |exprs| ==> exprs[i].key in keys) && Satisfiable(exprs)
    {
      var labels: Labels :| AllHold(exprs, labels);
      assert AllHold(exprs, Padded(labels, keys));
      assert Direct(exprs, Padded(labels, keys), keys) && !Passes([exprs], Padded(labels, keys), keys);
    }
  }

  /** Without topology keys on the node, no restricted class passes, however the selector is written. */
  lemma NoKeysNoPass(allowed: seq<SelectorTerm>, labels: Labels)
    ensures !Passes(allowed, labels, [])
  {
    DecisionExact(allowed, labels, []);
    forall i | 0 <= i < |allowed| ensures !Admits(allowed[i], labels, []) {
      NoKeysNotAdmitted(allowed[i], labels);
    }
  }

  lemma NoKeysNotAdmitted(exprs: SelectorTerm, labels: Labels)
    ensures !Admits(exprs, labels, [])
  {
    if Live(exprs) != [] {
      assert KeysOf(Live(exprs))[0] in multiset(KeysOf(Live(exprs)));
    }
  }

  // ------------------------------------------------------------- order-insensitivity

  /** An expression with the order and repetition of its values forgotten. */
  function Unordered(exprs: SelectorTerm): (r: seq<(string, set<string>)>)
    ensures |r| == |exprs|
  {
    seq(|exprs|, i requires 0 <= i < |exprs| => (exprs[i].key, set v | v in exprs[i].values))
  }

  /** Two selector terms that differ only in the order of expressions and of values. */
  predicate SameTerm(a: SelectorTerm, b: SelectorTerm) {
    multiset(Unordered(a)) == multiset(Unordered(b))
  }

  lemma SameTermHolds(a: SelectorTerm, b: SelectorTerm, labels: Labels)
    requires SameTerm(a, b) && AllHold(a, labels)
    ensures AllHold(b, labels)
  {
    forall i | 0 <= i < |b| ensures b[i].key in labels && labels[b[i].key] in b[i].values {
      assert Unordered(b)[i] in multiset(Unordered(a));
      var j :| 0 <= j < |a| && Unordered(a)[j] == Unordered(b)[i];
      assert labels[a[j].key] in Unordered(a)[j].1;
    }
  }

  lemma SameTermWellFormed(a: SelectorTerm, b: SelectorTerm)
    requires SameTerm(a, b) && WellFormed(a)
    ensures WellFormed(b)
  {
    forall i | 0 <= i < |b| ensures b[i].values != [] {
      assert Unordered(b)[i] in multiset(Unordered(a));
      var j :| 0 <= j < |a| && Unordered(a)[j] == Unordered(b)[i];
      assert a[j].values[0] in Unordered(a)[j].1;
    }
  }

  lemma {:induction false} KeysCount(exprs: SelectorTerm, k: string)
    ensures multiset(KeysOf(exprs))[k] == CountKey(Unordered(exprs), k)
  {
    if exprs != [] {
      KeysCount(exprs[1..], k);
      assert KeysOf(exprs) == [exprs[0].key] + KeysOf(exprs[1..]);
      assert Unordered(exprs)[1..] == Unordered(exprs[1..]);
    }
  }

  function CountKey(pairs: seq<(string, set<string>)>, k: string): nat {
    if pairs == [] then 0 else (if pairs[0].0 == k then 1 else 0) + CountKey(pairs[1..], k)
  }

  lemma {:induction false} CountKeyConcat(a: seq<(string, set<string>)>, b: seq<(string, set<string>)>, k: string)
    ensures CountKey(a + b, k) == CountKey(a, k) + CountKey(b, k)
  {
    if a == [] {
      assert a + b == b;
    } else {
      CountKeyConcat(a[1..], b, k);
      assert (a + b)[1..] == a[1..] + b;
    }
  }

  lemma {:induction false} CountKeyPermuted(a: seq<(string, set<string>)>, b: seq<(string, set<string>)>, k: string)
    requires multiset(a) == multiset(b)
    ensures CountKey(a, k) == CountKey(b, k)
  {
    assert |a| == |multiset(a)| == |multiset(b)| == |b|;
    if a != [] {
      assert a[0] in multiset(b);
      var j :| 0 <= j < |b| && b[j] == a[0];
      RemoveAt(a, b, j);
      CountKeyPermuted(a[1..], b[..j] + b[j + 1..], k);
      CountKeyConcat(b[..j], b[j + 1..], k);
      CountKeyConcat(b[..j], b[j..], k);
      assert b == b[..j] + b[j..];
    }
  }

  lemma RemoveAt<T>(a: seq<T>, b: seq<T>, j: nat)
    requires a != [] && j < |b| && b[j] == a[0] && multiset(a) == multiset(b)
    ensures multiset(a[1..]) == multiset(b[..j] + b[j + 1..])
  {
    assert a == [a[0]] + a[1..];
    assert b == b[..j] + [b[j]] + b[j + 1..];
    assert multiset(a[1..]) == multiset(a) - multiset{a[0]};
    assert multiset(b[..j] + b[j + 1..]) == multiset(b) - multiset{a[0]};
  }

  lemma SameTermKeys(a: SelectorTerm, b: SelectorTerm)
    requires SameTerm(a, b)
    ensures multiset(KeysOf(a)) == multiset(KeysOf(b))
  {
    forall k ensures multiset(KeysOf(a))[k] == multiset(KeysOf(b))[k] {
      KeysCount(a, k);
      KeysCount(b, k);
      CountKeyPermuted(Unordered(a), Unordered(b), k);
    }
  }

  lemma SameTermAdmits(a: SelectorTerm, b: SelectorTerm, labels: Labels, keys: seq<string>, keys': seq<string>)
    requires SameTerm(a, b) && WellFormed(a) && multiset(keys) == multiset(keys')
    requires Admits(a, labels, keys)
    ensures Admits(b, labels, keys')
  {
    SameTermWellFormed(a, b);
    LiveOfWellFormed(a);
    LiveOfWellFormed(b);
    SameTermHolds(a, b, labels);
    SameTermKeys(a, b);
    assert |a| == |multiset(Unordered(a))| == |multiset(Unordered(b))| == |b|;
  }

  /** Every term of one selector has a counterpart in the other. */
  ghost predicate Covered(a: seq<SelectorTerm>, b: seq<SelectorTerm>) {
    forall e :: e in a ==> HasCounterpart(e, b)
  }

  ghost predicate HasCounterpart(e: SelectorTerm, b: seq<SelectorTerm>) {
    exists e' :: e' in b && SameTerm(e, e')
  }

  lemma PassesReordered(a: seq<SelectorTerm>, b: seq<SelectorTerm>, labels: Labels, keys: seq<string>, keys': seq<string>)
    requires Covered(a, b) && multiset(keys) == multiset(keys')
    requires forall e :: e in a ==> WellFormed(e)
    requires Passes(a, labels, keys)
    ensures Passes(b, labels, keys')
  {
    DecisionExact(a, labels, keys);
    DecisionExact(b, labels, keys');
    forall k | k in keys' ensures k in labels { assert k in multiset(keys); }
    var i :| 0 <= i < |a| && Admits(a[i], labels, keys);
    assert a[i] in a && HasCounterpart(a[i], b);
    var j :| 0 <= j < |b| && SameTerm(a[i], b[j]);
    SameTermAdmits(a[i], b[j], labels, keys, keys');
  }

  /** The order of selector terms, expressions, values and topology keys never matters when every expression has a value. */
  lemma DecisionOrderInsensitive(a: seq<SelectorTerm>, b: seq<SelectorTerm>, labels: Labels, keys: seq<string>, keys': seq<string>)
    requires Covered(a, b) && Covered(b, a) && multiset(keys) == multiset(keys')
    requires forall e :: e in a ==> WellFormed(e)
    ensures Passes(a, labels, keys) <==> Passes(b, labels, keys')
  {
    forall e | e in b ensures WellFormed(e) {
      assert HasCounterpart(e, a);
      var e' :| e' in a && SameTerm(e, e');
      SameTermWellFormed(e', e);
    }
    if Passes(a, labels, keys) { PassesReordered(a, b, labels, keys, keys'); }
    if Passes(b, labels, keys') { PassesReordered(b, a, labels, keys', keys); }
  }
}
