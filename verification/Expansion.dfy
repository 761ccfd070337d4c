/**
 What the nested distribution loops of flatten produce for one selector term: which terms, in which
 order, and what they mean on a node's labels.
 */
module Expansion {
  import opened Arithmetic
  import opened Ordering
  import opened Topology

  predicate WellFormed(exprs: SelectorTerm) {
    forall i :: 0 <= i < |exprs| ==> exprs[i].values != []
  }

  /**
   The expressions that survive compilation. An expression without values empties the list of terms
   built so far, so everything up to and including the last such expression is forgotten.
   */
  function Live(exprs: SelectorTerm): (r: SelectorTerm)
    ensures WellFormed(r) && |r| <= |exprs|
  {
    if exprs == [] then []
    else
      var n := |exprs| - 1;
      if exprs[n].values == [] then [] else Live(exprs[..n]) + [exprs[n]]
  }

  /** The live expressions are the longest suffix of expressions that all have values. */
  lemma {:induction false} LiveIsSuffix(exprs: SelectorTerm)
    ensures var d := |exprs| - |Live(exprs)|;
      Live(exprs) == exprs[d..] && (d > 0 ==> exprs[d - 1].values == [])
  {
    if exprs != [] {
      var n := |exprs| - 1;
      if exprs[n].values != [] {
        LiveIsSuffix(exprs[..n]);
        var d := n - |Live(exprs[..n])|;
        assert exprs[..n][d..] + [exprs[n]] == exprs[d..];
      }
    }
  }

  lemma {:induction false} LiveOfWellFormed(exprs: SelectorTerm)
    ensures WellFormed(exprs) <==> Live(exprs) == exprs
  {
    LiveIsSuffix(exprs);
    if |Live(exprs)| == |exprs| {
      assert exprs[0..] == exprs;
    }
  }

  lemma {:induction false} ExpandTermLive(exprs: SelectorTerm)
    ensures ExpandTerm(exprs) == ExpandTerm(Live(exprs))
  {
    if exprs != [] {
      var n := |exprs| - 1;
      if exprs[n].values != [] {
        ExpandTermLive(exprs[..n]);
        var r := Live(exprs);
        assert r[..|r| - 1] == Live(exprs[..n]);
      }
    }
  }

  // ------------------------------------------------------------- enumeration

  /** The terms a value is distributed over: the empty conjunction when there are none yet. */
  function Base(terms: seq<Term>): (r: seq<Term>)
    ensures r != []
  {
    if terms == [] then [[]] else terms
  }

  lemma ValueShape(terms: seq<Term>, key: string, value: string)
    ensures |DistributeValue(terms, key, value)| == |Base(terms)|
    ensures forall o :: 0 <= o < |Base(terms)| ==>
      DistributeValue(terms, key, value)[o] == Base(terms)[o] + [Segment(key, value)]
  {}

  lemma {:induction false} BlockLength(terms: seq<Term>, key: string, values: seq<string>)
    ensures |DistributeValues(terms, key, values)| == |Base(terms)| * |values|
  {
    if values != [] {
      var n, m := |values| - 1, |Base(terms)|;
      BlockLength(terms, key, values[..n]);
      ValueShape(terms, key, values[n]);
      OneMore(m, n);
    }
  }

  lemma {:induction false} BlockEntry(terms: seq<Term>, key: string, values: seq<string>, v: nat, o: nat)
    requires v < |values| && o < |Base(terms)|
    ensures var k := |Base(terms)| * v + o;
      k < |DistributeValues(terms, key, values)|
      && DistributeValues(terms, key, values)[k] == Base(terms)[o] + [Segment(key, values[v])]
  {
    var n, m := |values| - 1, |Base(terms)|;
    var front, last := DistributeValues(terms, key, values[..n]), DistributeValue(terms, key, values[n]);
    assert DistributeValues(terms, key, values) == front + last;
    if v < n {
      BlockEntry(terms, key, values[..n], v, o);
      EntryOfFront(front, last, m * v + o);
    } else {
      BlockLength(terms, key, values[..n]);
      ValueShape(terms, key, values[n]);
      EntryOfLast(front, last, m * v + o, o);
    }
  }

  lemma EntryOfFront<T>(front: seq<T>, last: seq<T>, k: nat)
    requires k < |front|
    ensures (front + last)[k] == front[k]
  {}

  lemma EntryOfLast<T>(front: seq<T>, last: seq<T>, k: nat, o: nat)
    requires o < |last| && k == |front| + o
    ensures (front + last)[k] == last[o]
  {}

  function Product(exprs: SelectorTerm): nat {
    if exprs == [] then 1
    else
      var n := |exprs| - 1;
      Product(exprs[..n]) * |exprs[n].values|
  }

  lemma {:induction false} ProductPositive(exprs: SelectorTerm)
    requires WellFormed(exprs)
    ensures Product(exprs) > 0
  {
    if exprs != [] {
      ProductPositive(exprs[..|exprs| - 1]);
    }
  }

  /** The i-th mixed-radix digit of k, the counts of the earlier expressions being the lower radices. */
  function Digit(exprs: SelectorTerm, k: nat, i: nat): (d: nat)
    requires WellFormed(exprs) && i < |exprs|
    ensures d < |exprs[i].values|
  {
    ProductPositive(exprs[..i]);
    (k / Product(exprs[..i])) % |exprs[i].values|
  }

  /** The term that picks, for every expression, the value at its digit of k. */
  function Choice(exprs: SelectorTerm, k: nat): (t: Term)
    requires WellFormed(exprs)
    ensures |t| == |exprs|
  {
    seq(|exprs|, i requires 0 <= i < |exprs| => Segment(exprs[i].key, exprs[i].values[Digit(exprs, k, i)]))
  }

  /** The product of the first n counts is a multiple of the product of the first i + 1. */
  lemma {:induction false} ProductFactor(exprs: SelectorTerm, i: nat) returns (q: nat)
    requires WellFormed(exprs) && i < |exprs|
    ensures Product(exprs) == Product(exprs[..i]) * |exprs[i].values| * q
    decreases |exprs|
  {
    var n := |exprs| - 1;
    if i == n {
      q := 1;
    } else {
      var q' := ProductFactor(exprs[..n], i);
      assert exprs[..n][..i] == exprs[..i];
      q := q' * |exprs[n].values|;
      Reassociate(1, Product(exprs[..i]) * |exprs[i].values|, q', |exprs[n].values|);
    }
  }

  lemma LowerDigitsKept(exprs: SelectorTerm, k: nat, i: nat)
    requires WellFormed(exprs) && i < |exprs| - 1
    requires Product(exprs[..|exprs| - 1]) > 0
    ensures Digit(exprs, k, i) == Digit(exprs[..|exprs| - 1], k % Product(exprs[..|exprs| - 1]), i)
  {
    var front := exprs[..|exprs| - 1];
    var q := ProductFactor(front, i);
    assert front[..i] == exprs[..i];
    ProductPositive(exprs[..i]);
    LowDigit(k, Product(exprs[..i]), |exprs[i].values|, q, Product(front));
  }

  /** A position is a last digit over a position in the front, and the lower digits are those of the latter. */
  lemma SplitPosition(exprs: SelectorTerm, k: nat) returns (high: nat, low: nat)
    requires WellFormed(exprs) && exprs != [] && k < Product(exprs)
    ensures var n := |exprs| - 1;
      && low < Product(exprs[..n]) && high < |exprs[n].values| && k == Product(exprs[..n]) * high + low
      && Digit(exprs, k, n) == high
      && (forall i :: 0 <= i < n ==> Digit(exprs, k, i) == Digit(exprs[..n], low, i))
  {
    var n := |exprs| - 1;
    var m := Product(exprs[..n]);
    ProductPositive(exprs[..n]);
    high, low := k / m, k % m;
    QuotientBound(k, m, |exprs[n].values|);
    DivUnique(high, |exprs[n].values|, 0, high);
    forall i | 0 <= i < n ensures Digit(exprs, k, i) == Digit(exprs[..n], low, i) {
      LowerDigitsKept(exprs, k, i);
    }
  }

  ghost predicate Enumerates(terms: seq<Term>, exprs: SelectorTerm)
    requires WellFormed(exprs)
  {
    && |terms| == Product(exprs)
    && forall k :: 0 <= k < |terms| ==> terms[k] == Choice(exprs, k)
  }

  lemma ChoiceAtEntry(exprs: SelectorTerm, k: nat)
    requires WellFormed(exprs) && exprs != [] && k < Product(exprs)
    requires var front := exprs[..|exprs| - 1]; Enumerates(Base(ExpandTerm(front)), front)
    ensures k < |ExpandTerm(exprs)| && ExpandTerm(exprs)[k] == Choice(exprs, k)
  {
    var n := |exprs| - 1;
    var high, low := SplitPosition(exprs, k);
    BlockEntry(ExpandTerm(exprs[..n]), exprs[n].key, exprs[n].values, high, low);
    var entry := Choice(exprs[..n], low) + [Segment(exprs[n].key, exprs[n].values[high])];
    assert ExpandTerm(exprs)[k] == entry;
    forall i | 0 <= i < |exprs| ensures entry[i] == Choice(exprs, k)[i] {
      if i < n { assert exprs[..n][i] == exprs[i]; }
    }
  }

  lemma {:induction false} BlockEnumerates(exprs: SelectorTerm)
    requires WellFormed(exprs)
    ensures Enumerates(Base(ExpandTerm(exprs)), exprs)
    ensures exprs != [] ==> ExpandTerm(exprs) != []
  {
    if exprs == [] {
      assert Base(ExpandTerm(exprs))[0] == Choice(exprs, 0);
    } else {
      var n := |exprs| - 1;
      BlockEnumerates(exprs[..n]);
      BlockLength(ExpandTerm(exprs[..n]), exprs[n].key, exprs[n].values);
      ProductPositive(exprs);
      forall k | 0 <= k < Product(exprs) ensures ExpandTerm(exprs)[k] == Choice(exprs, k) {
        ChoiceAtEntry(exprs, k);
      }
    }
  }

  /**
   Mixed-radix enumeration: whatever the selector term, its block holds one term per combination of
   values of the live expressions, and entry k is the choice whose i-th digit is
   (k / product of the earlier counts) mod count i.
   */
  lemma MixedRadix(exprs: SelectorTerm)
    ensures Live(exprs) == [] ==> ExpandTerm(exprs) == []
    ensures Live(exprs) != [] ==> |ExpandTerm(exprs)| == Product(Live(exprs)) > 0
    ensures forall k :: 0 <= k < |ExpandTerm(exprs)| ==> ExpandTerm(exprs)[k] == Choice(Live(exprs), k)
  {
    ExpandTermLive(exprs);
    BlockEnumerates(Live(exprs));
    ProductPositive(Live(exprs));
  }

  ghost predicate HasDigits(exprs: SelectorTerm, k: nat, digits: seq<nat>)
    requires WellFormed(exprs) && |digits| == |exprs|
  {
    forall i :: 0 <= i < |exprs| ==> Digit(exprs, k, i) == digits[i]
  }

  /** Every combination of digits sits at exactly one position of the block. */
  lemma {:induction false} EveryChoiceOnce(exprs: SelectorTerm, digits: seq<nat>) returns (k: nat)
    requires WellFormed(exprs) && |digits| == |exprs|
    requires forall i :: 0 <= i < |exprs| ==> digits[i] < |exprs[i].values|
    ensures k < Product(exprs) && HasDigits(exprs, k, digits)
    ensures forall k' :: 0 <= k' < Product(exprs) && HasDigits(exprs, k', digits) ==> k' == k
  {
    if exprs == [] {
      k := 0;
    } else {
      var n := |exprs| - 1;
      var low := EveryChoiceOnce(exprs[..n], digits[..n]);
      k := PositionOf(exprs, digits, low);
      forall k' | 0 <= k' < Product(exprs) && HasDigits(exprs, k', digits) ensures k' == k {
        var high', low' := SplitPosition(exprs, k');
        assert high' == digits[n];
        assert HasDigits(exprs[..n], low', digits[..n]) by {
          forall i | 0 <= i < n ensures Digit(exprs[..n], low', i) == digits[..n][i] {
            assert Digit(exprs, k', i) == digits[i];
          }
        }
      }
    }
  }

  lemma PositionOf(exprs: SelectorTerm, digits: seq<nat>, low: nat) returns (k: nat)
    requires WellFormed(exprs) && exprs != [] && |digits| == |exprs|
    requires var n := |exprs| - 1;
      low < Product(exprs[..n]) && digits[n] < |exprs[n].values| && HasDigits(exprs[..n], low, digits[..n])
    ensures k == Product(exprs[..|exprs| - 1]) * digits[|exprs| - 1] + low
    ensures k < Product(exprs) && HasDigits(exprs, k, digits)
  {
    var n := |exprs| - 1;
    var m := Product(exprs[..n]);
    k := m * digits[n] + low;
    PositionBound(m, digits[n], |exprs[n].values|, low);
    DivUnique(k, m, digits[n], low);
    var high', low' := SplitPosition(exprs, k);
    DivUnique(k, m, high', low');
    forall i | 0 <= i < |exprs| ensures Digit(exprs, k, i) == digits[i] {
      if i < n { assert digits[..n][i] == Digit(exprs[..n], low, i); }
    }
  }

  // ------------------------------------------------------------------ meaning

  /** t picks one value of every expression, in order. */
  ghost predicate Picks(t: Term, exprs: SelectorTerm) {
    && |t| == |exprs|
    && forall i :: 0 <= i < |t| ==> t[i].key == exprs[i].key && t[i].value in exprs[i].values
  }

  /** t extends one of the terms by this segment. */
  ghost predicate Extends(t: Term, terms: seq<Term>, s: Segment) {
    |t| > 0 && t[..|t| - 1] in Base(terms) && t[|t| - 1] == s
  }

  lemma ValueMembers(terms: seq<Term>, key: string, value: string, t: Term)
    ensures t in DistributeValue(terms, key, value) <==> Extends(t, terms, Segment(key, value))
  {
    var made, base, s := DistributeValue(terms, key, value), Base(terms), Segment(key, value);
    ValueShape(terms, key, value);
    if t in made {
      var o :| 0 <= o < |made| && made[o] == t;
      assert t == base[o] + [s];
      assert t[..|t| - 1] == base[o] && base[o] in base;
    }
    if Extends(t, terms, s) {
      var o :| 0 <= o < |base| && base[o] == t[..|t| - 1];
      assert t == base[o] + [s];
      assert made[o] == t;
    }
  }

  lemma {:induction false} DistributeMembers(terms: seq<Term>, key: string, values: seq<string>, t: Term)
    ensures t in DistributeValues(terms, key, values) <==>
      exists i :: 0 <= i < |values| && Extends(t, terms, Segment(key, values[i]))
  {
    if values != [] {
      var n := |values| - 1;
      DistributeMembers(terms, key, values[..n], t);
      ValueMembers(terms, key, values[n], t);
      var front, last := DistributeValues(terms, key, values[..n]), DistributeValue(terms, key, values[n]);
      assert t in front + last <==> t in front || t in last;
      forall i | 0 <= i < n ensures values[..n][i] == values[i] {}
    }
  }

  lemma {:induction false} BlockMembers(exprs: SelectorTerm, t: Term)
    requires WellFormed(exprs)
    ensures t in Base(ExpandTerm(exprs)) <==> Picks(t, exprs)
  {
    if exprs != [] {
      var n := |exprs| - 1;
      BlockEnumerates(exprs);
      DistributeMembers(ExpandTerm(exprs[..n]), exprs[n].key, exprs[n].values, t);
      if t != [] {
        BlockMembers(exprs[..n], t[..|t| - 1]);
      }
      PicksSnoc(t, exprs);
    }
  }

  lemma PicksSnoc(t: Term, exprs: SelectorTerm)
    requires exprs != []
    ensures var n := |exprs| - 1;
      Picks(t, exprs) <==> (t != [] && Picks(t[..|t| - 1], exprs[..n])
        && exists i :: 0 <= i < |exprs[n].values| && t[|t| - 1] == Segment(exprs[n].key, exprs[n].values[i]))
  {
    var n := |exprs| - 1;
    if t != [] && Picks(t[..|t| - 1], exprs[..n]) {
      assert forall i :: 0 <= i < n ==> t[..n][i] == t[i] && exprs[..n][i] == exprs[i];
    }
    if Picks(t, exprs) {
      var v :| 0 <= v < |exprs[n].values| && exprs[n].values[v] == t[n].value;
    }
  }

  /** Exactly the picks from the live expressions are compiled, and none at all when nothing is live. */
  lemma ExpandedTerms(exprs: SelectorTerm, t: Term)
    ensures t in ExpandTerm(exprs) <==> Live(exprs) != [] && Picks(t, Live(exprs))
  {
    ExpandTermLive(exprs);
    BlockMembers(Live(exprs), t);
    BlockEnumerates(Live(exprs));
  }

  /** A conjunction of segments holds on a label map. */
  ghost predicate Holds(t: Term, labels: Labels) {
    forall i :: 0 <= i < |t| ==> t[i].key in labels && labels[t[i].key] == t[i].value
  }

  /** Direct evaluation of a conjunction of expressions. */
  predicate AllHold(exprs: SelectorTerm, labels: Labels) {
    forall i :: 0 <= i < |exprs| ==> exprs[i].key in labels && labels[exprs[i].key] in exprs[i].values
  }

  ghost predicate SomeHolds(terms: seq<Term>, labels: Labels) {
    exists t :: t in terms && Holds(t, labels)
  }

  ghost predicate LiveTermHolds(exprs: SelectorTerm, labels: Labels) {
    Live(exprs) != [] && AllHold(Live(exprs), labels)
  }

  /** The node's own value for every expression's key. */
  function LabelPick(exprs: SelectorTerm, labels: Labels): (t: Term)
    requires forall i :: 0 <= i < |exprs| ==> exprs[i].key in labels
    ensures |t| == |exprs|
  {
    seq(|exprs|, i requires 0 <= i < |exprs| => Segment(exprs[i].key, labels[exprs[i].key]))
  }

  lemma LabelPickCompiled(exprs: SelectorTerm, labels: Labels)
    requires LiveTermHolds(exprs, labels)
    ensures LabelPick(Live(exprs), labels) in ExpandTerm(exprs)
  {
    ExpandedTerms(exprs, LabelPick(Live(exprs), labels));
  }

  lemma HeldTermPicks(exprs: SelectorTerm, t: Term, labels: Labels)
    requires t in ExpandTerm(exprs) && Holds(t, labels)
    ensures LiveTermHolds(exprs, labels) && t == LabelPick(Live(exprs), labels)
  {
    ExpandedTerms(exprs, t);
    PickHolds(t, Live(exprs), labels);
  }

  lemma BlockMeaning(exprs: SelectorTerm, labels: Labels)
    ensures SomeHolds(ExpandTerm(exprs), labels) <==> LiveTermHolds(exprs, labels)
  {
    if SomeHolds(ExpandTerm(exprs), labels) {
      var t :| t in ExpandTerm(exprs) && Holds(t, labels);
      HeldTermPicks(exprs, t, labels);
    }
    if LiveTermHolds(exprs, labels) {
      LabelPickCompiled(exprs, labels);
      assert Holds(LabelPick(Live(exprs), labels), labels);
    }
  }

  lemma PickHolds(t: Term, exprs: SelectorTerm, labels: Labels)
    requires Picks(t, exprs) && Holds(t, labels)
    ensures AllHold(exprs, labels) && t == LabelPick(exprs, labels)
  {
    forall i | 0 <= i < |exprs| ensures exprs[i].key in labels && labels[exprs[i].key] in exprs[i].values {
      assert t[i].key == exprs[i].key;
    }
  }

  lemma SortKeepsMeaning(t: Term, labels: Labels)
    ensures Holds(SortTerm(t), labels) <==> Holds(t, labels)
  {
    SameMembersSameMeaning(t, SortTerm(t), labels);
    SameMembersSameMeaning(SortTerm(t), t, labels);
  }

  lemma SameMembersSameMeaning(a: Term, b: Term, labels: Labels)
    requires multiset(a) == multiset(b)
    ensures Holds(a, labels) ==> Holds(b, labels)
  {
    if Holds(a, labels) {
      forall i | 0 <= i < |b| ensures b[i].key in labels && labels[b[i].key] == b[i].value {
        assert b[i] in multiset(a);
      }
    }
  }

  /** The blocks are concatenated: a term is compiled exactly when one of the selector terms yields it. */
  lemma {:induction false} ExpandAllMembers(allowed: seq<SelectorTerm>, t: Term)
    ensures t in ExpandAll(allowed) <==> exists i :: 0 <= i < |allowed| && t in ExpandTerm(allowed[i])
  {
    if allowed != [] {
      var n := |allowed| - 1;
      ExpandAllMembers(allowed[..n], t);
      var front, last := ExpandAll(allowed[..n]), ExpandTerm(allowed[n]);
      assert t in front + last <==> t in front || t in last;
      forall i | 0 <= i < n ensures allowed[..n][i] == allowed[i] {}
    }
  }

  ghost predicate SomeTermHolds(allowed: seq<SelectorTerm>, labels: Labels) {
    exists i :: 0 <= i < |allowed| && LiveTermHolds(allowed[i], labels)
  }

  lemma {:induction false} ExpandAllConcat(a: seq<SelectorTerm>, b: seq<SelectorTerm>)
    ensures ExpandAll(a + b) == ExpandAll(a) + ExpandAll(b)
    decreases |b|
  {
    if b == [] {
      assert a + b == a;
    } else {
      var n, all := |b| - 1, a + b;
      var front, last := ExpandAll(b[..n]), ExpandTerm(b[n]);
      ExpandAllConcat(a, b[..n]);
      assert all[..|all| - 1] == a + b[..n] && all[|all| - 1] == b[n];
      assert ExpandAll(all) == ExpandAll(a + b[..n]) + last;
      assert ExpandAll(b) == front + last;
      Reassociated(ExpandAll(a), front, last);
    }
  }

  lemma Reassociated(x: seq<Term>, y: seq<Term>, z: seq<Term>)
    ensures (x + y) + z == x + (y + z)
  {}

  lemma SortAllConcat(x: seq<Term>, y: seq<Term>)
    ensures SortAll(x + y) == SortAll(x) + SortAll(y)
  {
    var l, r := SortAll(x + y), SortAll(x) + SortAll(y);
    assert |l| == |r|;
    forall i | 0 <= i < |l| ensures l[i] == r[i] {
      assert l[i] == SortTerm((x + y)[i]);
    }
  }

  /** The blocks come in the order of the selector terms. */
  lemma FlattenedInOrder(a: seq<SelectorTerm>, b: seq<SelectorTerm>)
    ensures Flattened(a + b) == Flattened(a) + Flattened(b)
  {
    ExpandAllConcat(a, b);
    SortAllConcat(ExpandAll(a), ExpandAll(b));
  }

  /** And each is the block of its selector term, sorted term by term. */
  lemma FlattenedBlock(exprs: SelectorTerm)
    ensures Flattened([exprs]) == SortAll(ExpandTerm(exprs))
  {
    var block := ExpandTerm(exprs);
    assert [exprs][..0] == [] && [exprs][0] == exprs;
    assert ExpandAll([exprs]) == ExpandAll([]) + block == block;
  }

  lemma ExpandAllMeaning(allowed: seq<SelectorTerm>, labels: Labels)
    ensures SomeHolds(ExpandAll(allowed), labels) <==> SomeTermHolds(allowed, labels)
  {
    if SomeHolds(ExpandAll(allowed), labels) {
      var t :| t in ExpandAll(allowed) && Holds(t, labels);
      ExpandAllMembers(allowed, t);
      var i :| 0 <= i < |allowed| && t in ExpandTerm(allowed[i]);
      HeldTermPicks(allowed[i], t, labels);
    }
    if SomeTermHolds(allowed, labels) {
      var i :| 0 <= i < |allowed| && LiveTermHolds(allowed[i], labels);
      BlockMeaning(allowed[i], labels);
      var t :| t in ExpandTerm(allowed[i]) && Holds(t, labels);
      ExpandAllMembers(allowed, t);
    }
  }

  /**
   DNF conversion, for every selector: the compiled terms hold on a node exactly when some selector
   term has live expressions and all of those hold.
   */
  lemma FlattenedMeaning(allowed: seq<SelectorTerm>, labels: Labels)
    ensures SomeHolds(Flattened(allowed), labels) <==> SomeTermHolds(allowed, labels)
  {
    ExpandAllMeaning(allowed, labels);
    SortAllMeaning(ExpandAll(allowed), labels);
  }

  lemma SortAllMeaning(terms: seq<Term>, labels: Labels)
    ensures SomeHolds(SortAll(terms), labels) <==> SomeHolds(terms, labels)
  {
    forall i | 0 <= i < |terms| ensures Holds(SortAll(terms)[i], labels) <==> Holds(terms[i], labels) {
      SortKeepsMeaning(terms[i], labels);
    }
    if SomeHolds(terms, labels) {
      var i :| 0 <= i < |terms| && Holds(terms[i], labels);
      assert SortAll(terms)[i] in SortAll(terms);
    }
    if SomeHolds(SortAll(terms), labels) {
      var i :| 0 <= i < |SortAll(terms)| && Holds(SortAll(terms)[i], labels);
      assert terms[i] in terms;
    }
  }

  /** When every expression has a value, compiling preserves the meaning the API documents. */
  lemma WellFormedMeaning(allowed: seq<SelectorTerm>, labels: Labels)
    requires forall i :: 0 <= i < |allowed| ==> WellFormed(allowed[i])
    ensures SomeHolds(Flattened(allowed), labels) <==>
      exists i :: 0 <= i < |allowed| && allowed[i] != [] && AllHold(allowed[i], labels)
  {
    FlattenedMeaning(allowed, labels);
    forall i | 0 <= i < |allowed| ensures Live(allowed[i]) == allowed[i] { LiveOfWellFormed(allowed[i]); }
  }

  /** v is accepted by every expression on the key. */
  predicate Accepted(exprs: SelectorTerm, key: string, v: string) {
    forall j :: 0 <= j < |exprs| && exprs[j].key == key ==> v in exprs[j].values
  }

  predicate HasCommonValue(exprs: SelectorTerm, i: nat)
    requires i < |exprs|
  {
    exists v :: v in exprs[i].values && Accepted(exprs, exprs[i].key, v)
  }

  /** Expressions on one key share a value, so some node meets them all. */
  predicate Satisfiable(exprs: SelectorTerm) {
    forall i :: 0 <= i < |exprs| ==> HasCommonValue(exprs, i)
  }

  ghost predicate Met(exprs: SelectorTerm) {
    exists labels: Labels :: AllHold(exprs, labels)
  }

  lemma MetIsSatisfiable(exprs: SelectorTerm, labels: Labels)
    requires AllHold(exprs, labels)
    ensures Satisfiable(exprs)
  {
    forall i | 0 <= i < |exprs| ensures HasCommonValue(exprs, i) {
      var v := labels[exprs[i].key];
      assert v in exprs[i].values && Accepted(exprs, exprs[i].key, v);
    }
  }

  lemma SatisfiableMeansMet(exprs: SelectorTerm)
    ensures Satisfiable(exprs) <==> Met(exprs)
  {
    if Satisfiable(exprs) {
      var keys := set i | 0 <= i < |exprs| :: exprs[i].key;
      forall k | k in keys ensures exists v :: Accepted(exprs, k, v) {
        var i :| 0 <= i < |exprs| && exprs[i].key == k;
        assert HasCommonValue(exprs, i);
        var v :| v in exprs[i].values && Accepted(exprs, exprs[i].key, v);
      }
      var labels := map k | k in keys :: var v :| Accepted(exprs, k, v); v;
      forall i | 0 <= i < |exprs| ensures exprs[i].key in labels && labels[exprs[i].key] in exprs[i].values {
        assert exprs[i].key in keys;
      }
      assert AllHold(exprs, labels);
    }
    if Met(exprs) {
      var labels: Labels :| AllHold(exprs, labels);
      MetIsSatisfiable(exprs, labels);
    }
  }

  /**
   Exactly when compiling one selector term keeps its meaning on every node: no expression lacks
   values, or the expressions after the last one that does are none, or contradict each other.
   */
  lemma MeaningKeptIff(exprs: SelectorTerm)
    ensures (forall labels: Labels ::
        SomeHolds(ExpandTerm(exprs), labels) <==> exprs != [] && AllHold(exprs, labels))
      <==> WellFormed(exprs) || Live(exprs) == [] || !Satisfiable(Live(exprs))
  {
    LiveOfWellFormed(exprs);
    SatisfiableMeansMet(Live(exprs));
    forall labels: Labels
      ensures SomeHolds(ExpandTerm(exprs), labels) <==> LiveTermHolds(exprs, labels)
      ensures !WellFormed(exprs) ==> !AllHold(exprs, labels)
    {
      BlockMeaning(exprs, labels);
    }
    if !WellFormed(exprs) && Live(exprs) != [] && Satisfiable(Live(exprs)) {
      var labels: Labels :| AllHold(Live(exprs), labels);
      assert LiveTermHolds(exprs, labels);
    }
  }

  /** A concrete selector term whose earlier constraint is lost: zone=a AND rack in {} AND disk=ssd. */
  lemma EmptyValuesDropConstraints()
    ensures var exprs := [Expression("zone", ["a"]), Expression("rack", []), Expression("disk", ["ssd"])];
      var labels := map["zone" := "b", "disk" := "ssd"];
      SomeHolds(ExpandTerm(exprs), labels) && !AllHold(exprs, labels)
  {
    var exprs := [Expression("zone", ["a"]), Expression("rack", []), Expression("disk", ["ssd"])];
    var labels := map["zone" := "b", "disk" := "ssd"];
    BlockMeaning(exprs, labels);
    assert exprs[..2][1].values == [];
    assert Live(exprs) == Live(exprs[..2]) + [exprs[2]] == [exprs[2]];
    assert "ssd" in ["ssd"];
    assert exprs[1].values == [];
  }
}
