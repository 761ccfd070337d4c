/** Topology selectors, their terms, and the canonical (sorted) form of a term. */
module Topology {
  import opened Ordering

  type Term = seq<Segment>

  /** One key with the values it may take (OR). */
  datatype Expression = Expression(key: string, values: seq<string>)

  /** A conjunction of expressions; a storage class holds a disjunction of these. */
  type SelectorTerm = seq<Expression>

  type Labels = map<string, string>

  // ---------------------------------------------------------------- sorting

  ghost predicate Sorted(t: Term) {
    forall i, j :: 0 <= i < j < |t| ==> Below(t[i], t[j])
  }

  lemma ConsSorted(x: Segment, rest: Term)
    requires Sorted(rest)
    requires rest != [] ==> Below(x, rest[0])
    ensures Sorted([x] + rest)
  {
    forall j | 0 <= j < |rest| ensures Below(x, rest[j]) {
      if j > 0 { SegmentsTransitive(x, rest[0], rest[j]); }
    }
  }

  function Insert(t: Term, x: Segment): (r: Term)
    requires Sorted(t)
    ensures Sorted(r) && multiset(r) == multiset(t) + multiset{x}
    ensures r != [] && r[0] == if t == [] || Below(x, t[0]) then x else t[0]
  {
    if t == [] then [x]
    else if Below(x, t[0]) then
      ConsSorted(x, t);
      [x] + t
    else
      var rest := Insert(t[1..], x);
      assert Sorted([t[0]] + rest) by {
        SegmentsAntisymmetric(x, t[0]);
        ConsSorted(t[0], rest);
      }
      assert multiset(t) == multiset{t[0]} + multiset(t[1..]) by {
        assert t == [t[0]] + t[1..];
      }
      [t[0]] + rest
  }

  /** The canonical form of a term: its segments in comparator order. */
  function SortTerm(t: Term): (r: Term)
    ensures Sorted(r) && multiset(r) == multiset(t)
  {
    if t == [] then []
    else
      assert t == [t[0]] + t[1..];
      Insert(SortTerm(t[1..]), t[0])
  }

  lemma HeadIsLeast(t: Term, x: Segment)
    requires Sorted(t) && x in multiset(t)
    ensures Below(t[0], x)
  {
    SegmentsZero(t[0], t[0]);
    var i :| 0 <= i < |t| && t[i] == x;
  }

  /** Any two sorted arrangements of the same segments are equal, whatever algorithm made them. */
  lemma {:induction false} SortedUnique(a: Term, b: Term)
    requires Sorted(a) && Sorted(b) && multiset(a) == multiset(b)
    ensures a == b
  {
    assert |a| == |multiset(a)| == |multiset(b)| == |b|;
    if a != [] {
      assert a[0] == b[0] by {
        HeadIsLeast(a, b[0]);
        HeadIsLeast(b, a[0]);
        SegmentsAntisymmetric(a[0], b[0]);
        SegmentsZero(a[0], b[0]);
      }
      assert multiset(a[1..]) == multiset(b[1..]) by {
        assert a == [a[0]] + a[1..] && b == [b[0]] + b[1..];
        assert multiset(a[1..]) == multiset(a) - multiset{a[0]};
        assert multiset(b[1..]) == multiset(b) - multiset{b[0]};
      }
      SortedUnique(a[1..], b[1..]);
      assert a == [a[0]] + a[1..] && b == [b[0]] + b[1..];
    }
  }

  lemma SortTermIsTheSort(t: Term, r: Term)
    requires Sorted(r) && multiset(r) == multiset(t)
    ensures r == SortTerm(t)
  {
    SortedUnique(r, SortTerm(t));
  }

  /** The segments a node offers for a list of topology keys, all of which it carries. */
  function NodeTerm(labels: Labels, keys: seq<string>): (t: Term)
    requires forall k :: k in keys ==> k in labels
    ensures |t| == |keys|
  {
    seq(|keys|, i requires 0 <= i < |keys| => Segment(keys[i], labels[keys[i]]))
  }

  // --------------------------------------------------------------- compiling

  /** One value of one expression distributed over the terms built so far. */
  function DistributeValue(earlier: seq<Term>, key: string, value: string): seq<Term> {
    if earlier == [] then [[Segment(key, value)]]
    else seq(|earlier|, i requires 0 <= i < |earlier| => earlier[i] + [Segment(key, value)])
  }

  function DistributeValues(earlier: seq<Term>, key: string, values: seq<string>): seq<Term> {
    if values == [] then []
    else
      var n := |values| - 1;
      DistributeValues(earlier, key, values[..n]) + DistributeValue(earlier, key, values[n])
  }

  /** The block of unsorted terms one selector term compiles to. */
  function ExpandTerm(exprs: SelectorTerm): seq<Term> {
    if exprs == [] then []
    else
      var n := |exprs| - 1;
      DistributeValues(ExpandTerm(exprs[..n]), exprs[n].key, exprs[n].values)
  }

  function ExpandAll(allowed: seq<SelectorTerm>): seq<Term> {
    if allowed == [] then []
    else
      var n := |allowed| - 1;
      ExpandAll(allowed[..n]) + ExpandTerm(allowed[n])
  }

  function SortAll(terms: seq<Term>): seq<Term> {
    seq(|terms|, i requires 0 <= i < |terms| => SortTerm(terms[i]))
  }

  /** What flatten returns: every block, concatenated, each term sorted. */
  function Flattened(allowed: seq<SelectorTerm>): seq<Term> {
    SortAll(ExpandAll(allowed))
  }

  // ---------------------------------------------------------------- scanning

  /** The one-pass merge scan of subset. */
  predicate Scan(t: Term, other: Term) {
    if t == [] then true
    else if other == [] then false
    else if t[0].key != other[0].key then Scan(t, other[1..])
    else t[0].value == other[0].value && Scan(t[1..], other[1..])
  }

  /** The first position at which two terms of one length differ decides; a shorter term comes first. */
  function CompareTerms(a: Term, b: Term): int {
    if |a| != |b| then |a| - |b|
    else if a == [] then 0
    else if CompareSegments(a[0], b[0]) != 0 then CompareSegments(a[0], b[0])
    else CompareTerms(a[1..], b[1..])
  }

  /** The map toCSITopology builds for one term: later segments win. */
  function SegmentMap(t: Term): map<string, string> {
    if t == [] then map[]
    else
      var n := |t| - 1;
      SegmentMap(t[..n])[t[n].key := t[n].value]
  }

  /** Does the storage class pass the topology check of a node? */
  predicate Passes(allowed: seq<SelectorTerm>, labels: Labels, keys: seq<string>) {
    && (forall k :: k in keys ==> k in labels)
    && exists t :: t in Flattened(allowed) && Scan(t, SortTerm(NodeTerm(labels, keys)))
  }
}
