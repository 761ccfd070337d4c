/** The order compare gives to terms, and what the merge scan of subset decides on canonical terms. */
module Canonical {
  import opened Ordering
  import opened Topology

  // -------------------------------------------------------------- compare

  lemma {:induction false} CompareZero(a: Term, b: Term)
    ensures CompareTerms(a, b) == 0 <==> a == b
  {
    if |a| == |b| && a != [] {
      SegmentsZero(a[0], b[0]);
      CompareZero(a[1..], b[1..]);
      assert a == [a[0]] + a[1..] && b == [b[0]] + b[1..];
    }
  }

  lemma {:induction false} CompareAntisymmetric(a: Term, b: Term)
    ensures CompareTerms(b, a) == -CompareTerms(a, b)
  {
    if |a| == |b| && a != [] {
      SegmentsAntisymmetric(a[0], b[0]);
      CompareAntisymmetric(a[1..], b[1..]);
    }
  }

  lemma {:induction false} CompareTransitive(a: Term, b: Term, c: Term)
    requires CompareTerms(a, b) <= 0 && CompareTerms(b, c) <= 0
    ensures CompareTerms(a, c) <= 0
  {
    if |a| == |b| == |c| && a != [] {
      SegmentsTransitive(a[0], b[0], c[0]);
      SegmentsZero(a[0], b[0]);
      SegmentsZero(b[0], c[0]);
      SegmentsZero(a[0], c[0]);
      if a[0] == b[0] == c[0] {
        CompareTransitive(a[1..], b[1..], c[1..]);
      } else if a[0] == c[0] {
        SegmentsAntisymmetric(a[0], b[0]);
      }
    }
  }

  /** At i, the first position at which they differ, a has the smaller segment. */
  predicate SmallerAt(a: Term, b: Term, i: nat) {
    i < |a| && i < |b| && a[..i] == b[..i]
    && CompareSegments(a[i], b[i]) < 0
  }

  lemma SmallerLater(a: Term, b: Term, i: nat)
    requires a != [] && b != [] && a[0] == b[0]
    ensures SmallerAt(a[1..], b[1..], i) <==> SmallerAt(a, b, i + 1)
  {
    if i + 1 < |a| && i + 1 < |b| {
      assert a[..i + 1] == [a[0]] + a[1..][..i] && b[..i + 1] == [b[0]] + b[1..][..i];
      assert a[..i + 1][1..] == a[1..][..i] && b[..i + 1][1..] == b[1..][..i];
    }
  }

  /** A shorter term comes first, by as much as it is shorter; among terms of one length the first difference decides. */
  lemma {:induction false} CompareNegative(a: Term, b: Term)
    ensures |a| != |b| ==> CompareTerms(a, b) == |a| - |b|
    ensures |a| == |b| ==> -1 <= CompareTerms(a, b) <= 1
    ensures CompareTerms(a, b) < 0 <==> |a| < |b| || (|a| == |b| && exists i: nat :: SmallerAt(a, b, i))
  {
    if |a| == |b| && a != [] {
      SegmentsNegative(a[0], b[0]);
      SegmentsZero(a[0], b[0]);
      if a[0] == b[0] {
        CompareNegative(a[1..], b[1..]);
        if i: nat :| SmallerAt(a[1..], b[1..], i) { SmallerLater(a, b, i); }
        if i: nat :| SmallerAt(a, b, i) {
          if i > 0 { SmallerLater(a, b, i - 1); }
        }
      } else {
        assert CompareSegments(a[0], b[0]) < 0 ==> SmallerAt(a, b, 0);
        if i: nat :| SmallerAt(a, b, i) {
          if i > 0 { assert a[..i][0] == b[..i][0]; }
        }
      }
    }
  }

  /** Sorting makes compare decide equality of contents, independently of the sorting algorithm. */
  lemma CanonicalForm(a: Term, b: Term)
    ensures CompareTerms(SortTerm(a), SortTerm(b)) == 0 <==> multiset(a) == multiset(b)
  {
    CompareZero(SortTerm(a), SortTerm(b));
    if multiset(a) == multiset(b) {
      SortedUnique(SortTerm(a), SortTerm(b));
    }
  }

  // ----------------------------------------------------------------- subset

  /** t can be read off other from left to right. */
  predicate Subsequence(t: Term, other: Term) {
    || t == []
    || (other != [] && t[0] == other[0] && Subsequence(t[1..], other[1..]))
    || (other != [] && Subsequence(t, other[1..]))
  }

  lemma {:induction false} SubsequenceIncluded(t: Term, other: Term)
    requires Subsequence(t, other)
    ensures multiset(t) <= multiset(other)
  {
    if t != [] {
      assert t == [t[0]] + t[1..] && other == [other[0]] + other[1..];
      if t[0] == other[0] && Subsequence(t[1..], other[1..]) {
        SubsequenceIncluded(t[1..], other[1..]);
      } else {
        SubsequenceIncluded(t, other[1..]);
      }
    }
  }

  /** Whatever the arguments, a positive answer is never wrong. */
  lemma {:induction false} ScanSound(t: Term, other: Term)
    requires Scan(t, other)
    ensures Subsequence(t, other)
  {
    if t != [] {
      if t[0].key != other[0].key {
        ScanSound(t, other[1..]);
      } else {
        ScanSound(t[1..], other[1..]);
      }
    }
  }

  /** Values are determined by keys. */
  predicate Functional(t: Term) {
    forall i, j :: 0 <= i < |t| && 0 <= j < |t| && t[i].key == t[j].key ==> t[i].value == t[j].value
  }

  lemma HeadSkipped(t: Term, other: Term)
    requires t != [] && other != [] && Sorted(t) && Sorted(other)
    requires t[0] in multiset(other) && t[0].key != other[0].key
    ensures other[0] !in multiset(t)
  {
    HeadIsLeast(other, t[0]);
    if other[0] in multiset(t) {
      HeadIsLeast(t, other[0]);
      SegmentsAntisymmetric(t[0], other[0]);
      SegmentsZero(t[0], other[0]);
    }
  }

  lemma SkipHead(t: Term, other: Term)
    requires other != [] && other[0] !in multiset(t) && multiset(t) <= multiset(other)
    ensures multiset(t) <= multiset(other[1..])
  {
    assert other == [other[0]] + other[1..];
  }

  lemma MatchHead(t: Term, other: Term)
    requires t != [] && other != [] && t[0] == other[0] && multiset(t) <= multiset(other)
    ensures multiset(t[1..]) <= multiset(other[1..])
  {
    assert t == [t[0]] + t[1..] && other == [other[0]] + other[1..];
    assert multiset(t[1..]) == multiset(t) - multiset{t[0]};
    assert multiset(other[1..]) == multiset(other) - multiset{t[0]};
  }

  lemma {:induction false} ScanComplete(t: Term, other: Term)
    requires Sorted(t) && Sorted(other) && Functional(other) && multiset(t) <= multiset(other)
    ensures Scan(t, other)
  {
    if t != [] {
      assert t[0] in multiset(t);
      var i :| 0 <= i < |other| && other[i] == t[0];
      if t[0].key != other[0].key {
        HeadSkipped(t, other);
        SkipHead(t, other);
        ScanComplete(t, other[1..]);
      } else {
        MatchHead(t, other);
        ScanComplete(t[1..], other[1..]);
      }
    }
  }

  /** On sorted terms, against one whose values are determined by keys, the scan decides inclusion exactly. */
  lemma ScanExact(t: Term, other: Term)
    requires Sorted(t) && Sorted(other) && Functional(other)
    ensures Scan(t, other) <==> multiset(t) <= multiset(other)
  {
    if Scan(t, other) {
      ScanSound(t, other);
      SubsequenceIncluded(t, other);
    }
    if multiset(t) <= multiset(other) {
      ScanComplete(t, other);
    }
  }

  /** Keys strictly increase, as they do in a sorted term without repeated keys. */
  predicate KeySorted(t: Term) {
    forall i, j :: 0 <= i < j < |t| ==> CompareStrings(t[i].key, t[j].key) < 0
  }

  lemma KeySortedIsCanonical(t: Term)
    requires KeySorted(t)
    ensures Sorted(t) && Functional(t)
    ensures forall s :: s in multiset(t) ==> multiset(t)[s] == 1
  {
    forall i, j | 0 <= i < |t| && 0 <= j < |t| && t[i].key == t[j].key ensures i == j {
      CompareStringsZero(t[i].key, t[j].key);
      CompareStringsZero(t[j].key, t[i].key);
    }
    forall s | s in multiset(t) ensures multiset(t)[s] == 1 {
      CountOfDistinct(t, s);
    }
  }

  lemma {:induction false} CountOfDistinct(t: Term, s: Segment)
    requires forall i, j :: 0 <= i < |t| && 0 <= j < |t| && t[i].key == t[j].key ==> i == j
    ensures multiset(t)[s] <= 1
  {
    if t != [] {
      assert t == [t[0]] + t[1..];
      CountOfDistinct(t[1..], s);
      forall i | 0 <= i < |t[1..]| ensures t[1..][i] != t[0] {
        assert t[i + 1] == t[1..][i];
      }
    }
  }

  /** With strictly sorted keys on the left, the scan says that every segment occurs on the right. */
  lemma ScanFindsEverySegment(t: Term, other: Term)
    requires KeySorted(t) && Sorted(other) && Functional(other)
    ensures Scan(t, other) <==> forall s :: s in t ==> s in other
  {
    KeySortedIsCanonical(t);
    ScanExact(t, other);
    if forall s :: s in t ==> s in other {
      forall s ensures multiset(t)[s] <= multiset(other)[s] {
        if s in multiset(t) { assert s in t; }
      }
    }
    if multiset(t) <= multiset(other) {
      forall s | s in t ensures s in other { assert s in multiset(t); }
    }
  }

  /** subset is a partial order on strictly key-sorted terms, and compare is zero exactly on mutual inclusion. */
  lemma SubsetIsPartialOrder(a: Term, b: Term, c: Term)
    requires KeySorted(a) && KeySorted(b) && KeySorted(c)
    ensures Scan(a, a)
    ensures Scan(a, b) && Scan(b, c) ==> Scan(a, c)
    ensures Scan(a, b) && Scan(b, a) <==> a == b
    ensures Scan(a, b) && Scan(b, a) <==> CompareTerms(a, b) == 0
  {
    KeySortedIsCanonical(a);
    KeySortedIsCanonical(b);
    KeySortedIsCanonical(c);
    ScanExact(a, a);
    ScanExact(a, b);
    ScanExact(b, a);
    ScanExact(b, c);
    ScanExact(a, c);
    if Scan(a, b) && Scan(b, a) {
      SortedUnique(a, b);
    }
    CompareZero(a, b);
  }

  // ------------------------------------------------------------- toCSITopology

  /** Of several segments with one key the last counts, and keys that do not occur are not there. */
  lemma {:induction false} LastSegmentWins(t: Term, i: nat, other: string)
    requires i < |t| && forall j :: i < j < |t| ==> t[j].key != t[i].key
    requires forall j :: 0 <= j < |t| ==> t[j].key != other
    ensures t[i].key in SegmentMap(t) && SegmentMap(t)[t[i].key] == t[i].value && other !in SegmentMap(t)
  {
    var n := |t| - 1;
    if i < n {
      LastSegmentWins(t[..n], i, other);
    } else if n > 0 {
      NoSuchKey(t[..n], other);
    }
  }

  lemma {:induction false} NoSuchKey(t: Term, other: string)
    requires forall j :: 0 <= j < |t| ==> t[j].key != other
    ensures other !in SegmentMap(t)
  {
    if t != [] { NoSuchKey(t[..|t| - 1], other); }
  }

  lemma {:induction false} SegmentMapOf(t: Term)
    requires Functional(t)
    ensures forall i :: 0 <= i < |t| ==> t[i].key in SegmentMap(t) && SegmentMap(t)[t[i].key] == t[i].value
    ensures forall k :: k in SegmentMap(t) ==> Segment(k, SegmentMap(t)[k]) in t
  {
    if t != [] {
      var n := |t| - 1;
      SegmentMapOf(t[..n]);
      forall i | 0 <= i < |t| ensures t[i].key in SegmentMap(t) && SegmentMap(t)[t[i].key] == t[i].value {
        if i < n { assert t[..n][i] == t[i]; }
      }
      forall k | k in SegmentMap(t) ensures Segment(k, SegmentMap(t)[k]) in t {
        if k == t[n].key {
          assert t[n] in t;
        } else {
          assert Segment(k, SegmentMap(t[..n])[k]) in t[..n];
        }
      }
    }
  }

  ghost predicate MapIncluded(m: map<string, string>, m': map<string, string>) {
    forall k :: k in m ==> k in m' && m'[k] == m[k]
  }

  /** The scan agrees with inclusion of the maps toCSITopology builds. */
  lemma ScanIsMapInclusion(t: Term, other: Term)
    requires KeySorted(t) && Sorted(other) && Functional(other)
    ensures Scan(t, other) <==> MapIncluded(SegmentMap(t), SegmentMap(other))
  {
    KeySortedIsCanonical(t);
    SegmentMapOf(t);
    SegmentMapOf(other);
    ScanFindsEverySegment(t, other);
    if Scan(t, other) {
      forall k | k in SegmentMap(t) ensures k in SegmentMap(other) && SegmentMap(other)[k] == SegmentMap(t)[k] {
        var s := Segment(k, SegmentMap(t)[k]);
        assert s in other;
        var i :| 0 <= i < |other| && other[i] == s;
      }
    }
    if MapIncluded(SegmentMap(t), SegmentMap(other)) {
      forall s | s in t ensures s in other {
        var i :| 0 <= i < |t| && t[i] == s;
        assert Segment(s.key, SegmentMap(other)[s.key]) in other;
      }
    }
  }

  lemma NodeTermFunctional(labels: Labels, keys: seq<string>)
    requires forall k :: k in keys ==> k in labels
    ensures Functional(SortTerm(NodeTerm(labels, keys)))
    ensures forall s :: s in SortTerm(NodeTerm(labels, keys)) <==> s in NodeTerm(labels, keys)
  {
    var t, s := NodeTerm(labels, keys), SortTerm(NodeTerm(labels, keys));
    forall x ensures x in s <==> x in t {
      assert x in multiset(s) <==> x in multiset(t);
    }
    forall i | 0 <= i < |s| ensures s[i].key in labels && s[i].value == labels[s[i].key] {
      assert s[i] in t;
    }
  }

  /** A node's topology is its labels restricted to the driver's topology keys, repeated keys or not. */
  lemma NodeTopologyIsRestriction(labels: Labels, keys: seq<string>)
    requires forall k :: k in keys ==> k in labels
    ensures SegmentMap(SortTerm(NodeTerm(labels, keys))) == map k | k in keys :: labels[k]
  {
    var t, s := NodeTerm(labels, keys), SortTerm(NodeTerm(labels, keys));
    NodeTermFunctional(labels, keys);
    SegmentMapOf(s);
    var m := SegmentMap(s);
    forall k | k in m ensures k in keys && m[k] == labels[k] {
      var i :| 0 <= i < |t| && t[i] == Segment(k, m[k]);
    }
    forall k | k in keys ensures k in m {
      var i :| 0 <= i < |keys| && keys[i] == k;
      assert t[i] in s;
      var j :| 0 <= j < |s| && s[j] == t[i];
    }
  }
}
