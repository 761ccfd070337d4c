/**
 The topology engine as it runs: terms are slices over backing arrays that are cloned, appended to,
 sorted in place and scanned.
 */
module TopologyTerms {
  import opened Ordering
  import opened Topology

  /** A Go slice of segments: a backing array, of which the first len elements are visible. */
  datatype Slice = Slice(buf: array<Segment>, len: nat) {
    ghost predicate Valid() { len <= buf.Length }

    ghost function Contents(): Term
      requires Valid()
      reads buf
    {
      buf[..len]
    }
  }

  /** slices.Clone: a new backing array, with whatever spare capacity the allocator gives it. */
  method Clone(s: Slice) returns (r: Slice)
    requires s.Valid()
    ensures r.Valid() && fresh(r.buf) && r.Contents() == s.Contents()
  {
    var spare: nat :| true;
    var buf := new Segment[s.len + spare];
    forall i | 0 <= i < s.len { buf[i] := s.buf[i]; }
    r := Slice(buf, s.len);
  }

  /** append: writes into the backing array while it has room, and only then moves to a new one. */
  method Append(s: Slice, x: Segment) returns (r: Slice)
    requires s.Valid()
    modifies s.buf
    ensures r.Valid() && r.Contents() == old(s.Contents()) + [x]
    ensures s.Contents() == old(s.Contents())
    ensures if s.len < s.buf.Length then r.buf == s.buf else fresh(r.buf)
  {
    if s.len < s.buf.Length {
      s.buf[s.len] := x;
      r := Slice(s.buf, s.len + 1);
    } else {
      var spare: nat :| true;
      var buf := new Segment[s.len + 1 + spare];
      forall i | 0 <= i < s.len { buf[i] := s.buf[i]; }
      buf[s.len] := x;
      r := Slice(buf, s.len + 1);
    }
  }

  // ------------------------------------------------------------------- sort

  /** The first i + 1 segments are in order, except that the one at j may be too small for its place. */
  ghost predicate SortedBut(t: Term, i: nat, j: nat) {
    && j <= i < |t|
    && forall a, b :: 0 <= a < b <= i && b != j ==> Below(t[a], t[b])
  }

  function Swapped(t: Term, j: nat): (r: Term)
    requires 0 < j < |t|
    ensures |r| == |t|
  {
    t[j := t[j - 1]][j - 1 := t[j]]
  }

  lemma SwapDown(t: Term, i: nat, j: nat)
    requires SortedBut(t, i, j) && j > 0 && CompareSegments(t[j], t[j - 1]) < 0
    ensures SortedBut(Swapped(t, j), i, j - 1)
    ensures multiset(Swapped(t, j)) == multiset(t)
  {
    var r := Swapped(t, j);
    forall a, b | 0 <= a < b <= i && b != j - 1 ensures Below(r[a], r[b]) {
      if b == j && a < j - 1 { assert Below(t[a], t[j - 1]); }
    }
  }

  lemma InPlace(t: Term, i: nat, j: nat)
    requires SortedBut(t, i, j) && (j == 0 || CompareSegments(t[j], t[j - 1]) >= 0)
    ensures Sorted(t[..i + 1])
  {
    forall a, b | 0 <= a < b <= i ensures Below(t[a], t[b]) {
      if b == j {
        SegmentsAntisymmetric(t[j], t[j - 1]);
        if a < j - 1 { SegmentsTransitive(t[a], t[j - 1], t[j]); }
      }
    }
  }

  lemma StartInsertion(t: Term, i: nat)
    requires i < |t| && Sorted(t[..i])
    ensures SortedBut(t, i, i)
  {
    forall a, b | 0 <= a < b <= i && b != i ensures Below(t[a], t[b]) {
      assert t[..i][a] == t[a] && t[..i][b] == t[b];
    }
  }

  /** Moves segment i down to its place among the sorted ones before it. */
  method InsertInPlace(s: Slice, i: nat)
    requires s.Valid() && i < s.len && Sorted(s.Contents()[..i])
    modifies s.buf
    ensures Sorted(s.Contents()[..i + 1])
    ensures multiset(s.Contents()) == multiset(old(s.Contents()))
    ensures s.buf[s.len..] == old(s.buf[s.len..])
  {
    var j: nat := i;
    StartInsertion(s.Contents(), i);
    while j > 0 && CompareSegments(s.buf[j], s.buf[j - 1]) < 0
      invariant j <= i
      invariant SortedBut(s.Contents(), i, j)
      invariant multiset(s.Contents()) == multiset(old(s.Contents()))
      invariant s.buf[s.len..] == old(s.buf[s.len..])
    {
      ghost var before := s.Contents();
      SwapDown(before, i, j);
      s.buf[j], s.buf[j - 1] := s.buf[j - 1], s.buf[j];
      assert s.Contents() == Swapped(before, j);
      j := j - 1;
    }
    InPlace(s.Contents(), i, j);
  }

  /** topologyTerm.sort: the visible part of the array is put in canonical order, the rest is untouched. */
  method Sort(s: Slice)
    requires s.Valid()
    modifies s.buf
    ensures s.Contents() == SortTerm(old(s.Contents()))
    ensures s.buf[s.len..] == old(s.buf[s.len..])
  {
    for i := 0 to s.len
      invariant Sorted(s.Contents()[..i])
      invariant multiset(s.Contents()) == multiset(old(s.Contents()))
      invariant s.buf[s.len..] == old(s.buf[s.len..])
    {
      InsertInPlace(s, i);
    }
    assert s.Contents()[..s.len] == s.Contents();
    SortTermIsTheSort(old(s.Contents()), s.Contents());
  }

  // ---------------------------------------------------------------- flatten

  /** The slices are well formed and show these terms. */
  ghost predicate Shows(ts: seq<Slice>, terms: seq<Term>)
    reads set i | 0 <= i < |ts| :: ts[i].buf
  {
    && |ts| == |terms|
    && forall i :: 0 <= i < |ts| ==> ts[i].Valid() && ts[i].Contents() == terms[i]
  }

  /** No two terms share a backing array. */
  ghost predicate Separate(ts: seq<Slice>) {
    forall i, j :: 0 <= i < j < |ts| ==> ts[i].buf != ts[j].buf
  }

  /** One value of one expression: a fresh term, or one fresh extended copy of every term so far. */
  method Distribute(terms: seq<Slice>, ghost shown: seq<Term>, key: string, value: string) returns (made: seq<Slice>)
    requires Shows(terms, shown)
    ensures Separate(made) && forall i :: 0 <= i < |made| ==> fresh(made[i].buf)
    ensures Shows(made, DistributeValue(shown, key, value))
  {
    made := [];
    if |terms| == 0 {
      var buf := new Segment[1];
      buf[0] := Segment(key, value);
      made := [Slice(buf, 1)];
      assert made[0].Contents() == [Segment(key, value)];
    } else {
      for i := 0 to |terms|
        invariant |made| == i && Separate(made)
        invariant forall k :: 0 <= k < i ==> fresh(made[k].buf) && made[k].Valid()
        invariant forall k :: 0 <= k < i ==> made[k].Contents() == shown[k] + [Segment(key, value)]
      {
        var newTerm := Clone(terms[i]);
        newTerm := Append(newTerm, Segment(key, value));
        made := made + [newTerm];
      }
    }
  }

  lemma Concatenated(a: seq<Slice>, b: seq<Slice>, shownA: seq<Term>, shownB: seq<Term>)
    requires Shows(a, shownA) && Shows(b, shownB) && Separate(a) && Separate(b)
    requires forall i, j :: 0 <= i < |a| && 0 <= j < |b| ==> a[i].buf != b[j].buf
    ensures Shows(a + b, shownA + shownB) && Separate(a + b)
  {
    var c := a + b;
    forall i, j | 0 <= i < j < |c| ensures c[i].buf != c[j].buf {
      assert c[i] == if i < |a| then a[i] else b[i - |a|];
      assert c[j] == if j < |a| then a[j] else b[j - |a|];
    }
  }

  method ExpandExpression(terms: seq<Slice>, ghost shown: seq<Term>, e: Expression) returns (newTerms: seq<Slice>)
    requires Shows(terms, shown)
    ensures Separate(newTerms) && forall i :: 0 <= i < |newTerms| ==> fresh(newTerms[i].buf)
    ensures Shows(newTerms, DistributeValues(shown, e.key, e.values))
  {
    newTerms := [];
    for i := 0 to |e.values|
      invariant Separate(newTerms) && forall k :: 0 <= k < |newTerms| ==> fresh(newTerms[k].buf)
      invariant Shows(newTerms, DistributeValues(shown, e.key, e.values[..i]))
    {
      var made := Distribute(terms, shown, e.key, e.values[i]);
      ghost var before := DistributeValues(shown, e.key, e.values[..i]);
      Concatenated(newTerms, made, before, DistributeValue(shown, e.key, e.values[i]));
      assert e.values[..i + 1][..i] == e.values[..i];
      newTerms := newTerms + made;
    }
    assert e.values[..|e.values|] == e.values;
  }

  method ExpandSelectorTerm(exprs: SelectorTerm) returns (oldTerms: seq<Slice>)
    ensures Separate(oldTerms) && forall i :: 0 <= i < |oldTerms| ==> fresh(oldTerms[i].buf)
    ensures Shows(oldTerms, ExpandTerm(exprs))
  {
    oldTerms := [];
    for i := 0 to |exprs|
      invariant Separate(oldTerms) && forall k :: 0 <= k < |oldTerms| ==> fresh(oldTerms[k].buf)
      invariant Shows(oldTerms, ExpandTerm(exprs[..i]))
    {
      oldTerms := ExpandExpression(oldTerms, ExpandTerm(exprs[..i]), exprs[i]);
      assert exprs[..i + 1][..i] == exprs[..i];
    }
    assert exprs[..|exprs|] == exprs;
  }

  /** Sorting one term leaves the other arrays alone. */
  method SortOne(terms: seq<Slice>, i: nat, ghost shown: seq<Term>)
    requires i < |terms| && Separate(terms) && Shows(terms, shown)
    modifies terms[i].buf
    ensures Shows(terms, shown[i := SortTerm(shown[i])])
  {
    forall k | 0 <= k < |terms| && k != i ensures terms[k].buf != terms[i].buf {
      assert if k < i then terms[k].buf != terms[i].buf else terms[i].buf != terms[k].buf;
    }
    Sort(terms[i]);
  }

  method SortEach(terms: seq<Slice>, ghost shown: seq<Term>)
    requires Separate(terms) && Shows(terms, shown)
    modifies set i | 0 <= i < |terms| :: terms[i].buf
    ensures Shows(terms, SortAll(shown))
  {
    ghost var now := shown;
    for i := 0 to |terms|
      invariant |now| == |terms| && Shows(terms, now)
      invariant forall k :: 0 <= k < i ==> now[k] == SortTerm(shown[k])
      invariant forall k :: i <= k < |terms| ==> now[k] == shown[k]
    {
      SortOne(terms, i, now);
      now := now[i := SortTerm(now[i])];
    }
    assert now == SortAll(shown);
  }

  /** flatten: the compiled terms, each in canonical order and in a backing array of its own. */
  method Flatten(allowed: seq<SelectorTerm>) returns (finalTerms: seq<Slice>)
    ensures Separate(finalTerms) && forall i :: 0 <= i < |finalTerms| ==> fresh(finalTerms[i].buf)
    ensures Shows(finalTerms, Flattened(allowed))
  {
    finalTerms := [];
    for i := 0 to |allowed|
      invariant Separate(finalTerms) && forall k :: 0 <= k < |finalTerms| ==> fresh(finalTerms[k].buf)
      invariant Shows(finalTerms, ExpandAll(allowed[..i]))
    {
      var oldTerms := ExpandSelectorTerm(allowed[i]);
      Concatenated(finalTerms, oldTerms, ExpandAll(allowed[..i]), ExpandTerm(allowed[i]));
      assert allowed[..i + 1][..i] == allowed[..i];
      finalTerms := finalTerms + oldTerms;
    }
    assert allowed[..|allowed|] == allowed;
    SortEach(finalTerms, ExpandAll(allowed));
  }

  // -------------------------------------------------------- subset, compare

  /** The merge scan, its index advancing only over matched segments. */
  method Subset(t: Slice, other: Slice) returns (r: bool)
    requires t.Valid() && other.Valid()
    ensures r == Scan(t.Contents(), other.Contents())
  {
    if t.len == 0 {
      return true;
    }
    var j := 0;
    for i := 0 to other.len
      invariant j < t.len
      invariant Scan(t.Contents(), other.Contents()) == Scan(t.Contents()[j..], other.Contents()[i..])
    {
      var k1, k2 := t.buf[j], other.buf[i];
      assert k1 == t.Contents()[j..][0] && k2 == other.Contents()[i..][0];
      assert t.Contents()[j..][1..] == t.Contents()[j + 1..];
      assert other.Contents()[i..][1..] == other.Contents()[i + 1..];
      if k1.key != k2.key {
        continue;
      }
      if k1.value != k2.value {
        return false;
      }
      j := j + 1;
      if j == t.len {
        return true;
      }
    }
    return false;
  }

  method Compare(t: Slice, other: Slice) returns (r: int)
    requires t.Valid() && other.Valid()
    ensures r == CompareTerms(t.Contents(), other.Contents())
  {
    if t.len != other.len {
      return t.len - other.len;
    }
    for i := 0 to t.len
      invariant CompareTerms(t.Contents(), other.Contents())
        == CompareTerms(t.Contents()[i..], other.Contents()[i..])
    {
      var k1, k2 := t.buf[i], other.buf[i];
      assert k1 == t.Contents()[i..][0] && k2 == other.Contents()[i..][0];
      assert t.Contents()[i..][1..] == t.Contents()[i + 1..];
      assert other.Contents()[i..][1..] == other.Contents()[i + 1..];
      r := CompareStrings(k1.key, k2.key);
      if r != 0 {
        return r;
      }
      r := CompareStrings(k1.value, k2.value);
      if r != 0 {
        return r;
      }
    }
    return 0;
  }

  // -------------------------------------------------------------- node terms

  /** The node's sorted term, or the report that one of the driver's keys is not among its labels. */
  method GetTopologyFromNode(labels: Labels, topologyKeys: seq<string>) returns (term: Slice, isMissingKey: bool)
    ensures isMissingKey <==> exists k :: k in topologyKeys && k !in labels
    ensures term.Valid() && fresh(term.buf)
    ensures term.Contents() == if isMissingKey then [] else SortTerm(NodeTerm(labels, topologyKeys))
  {
    var buf := new Segment[|topologyKeys|];
    term := Slice(buf, 0);
    for i := 0 to |topologyKeys|
      invariant term == Slice(buf, i)
      invariant forall k :: 0 <= k < i ==> topologyKeys[k] in labels
      invariant forall k :: 0 <= k < i ==> buf[k] == Segment(topologyKeys[k], labels[topologyKeys[k]])
    {
      var key := topologyKeys[i];
      if key !in labels {
        var none := new Segment[0];
        return Slice(none, 0), true;
      }
      term := Append(term, Segment(key, labels[key]));
    }
    assert term.Contents() == NodeTerm(labels, topologyKeys);
    Sort(term);
    isMissingKey := false;
  }

  /** toCSITopology: one map per term, filled segment by segment. */
  method ToCSITopology(terms: seq<Slice>) returns (out: seq<map<string, string>>)
    requires forall i :: 0 <= i < |terms| ==> terms[i].Valid()
    ensures |out| == |terms|
    ensures forall i :: 0 <= i < |terms| ==> out[i] == SegmentMap(terms[i].Contents())
  {
    out := [];
    for i := 0 to |terms|
      invariant |out| == i
      invariant forall k :: 0 <= k < i ==> out[k] == SegmentMap(terms[k].Contents())
    {
      var term, segs := terms[i], map[];
      for j := 0 to term.len
        invariant segs == SegmentMap(term.Contents()[..j])
      {
        assert term.Contents()[..j + 1][..j] == term.Contents()[..j];
        segs := segs[term.buf[j].key := term.buf[j].value];
      }
      assert term.Contents()[..term.len] == term.Contents();
      out := out + [segs];
    }
  }
}
