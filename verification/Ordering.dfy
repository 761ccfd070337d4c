/** The order the topology engine sorts by: Go's strings.Compare, lifted to key/value segments. */
module Ordering {
  datatype Segment = Segment(key: string, value: string)

  /** strings.Compare: -1, 0 or +1, lexicographic, a proper prefix first. */
  function CompareStrings(a: string, b: string): int {
    if a == [] then (if b == [] then 0 else -1)
    else if b == [] then 1
    else if a[0] < b[0] then -1
    else if b[0] < a[0] then 1
    else CompareStrings(a[1..], b[1..])
  }

  lemma {:induction false} CompareStringsZero(a: string, b: string)
    ensures CompareStrings(a, b) == 0 <==> a == b
  {
    if a != [] && b != [] {
      CompareStringsZero(a[1..], b[1..]);
      assert a == [a[0]] + a[1..] && b == [b[0]] + b[1..];
    }
  }

  lemma {:induction false} CompareStringsAntisymmetric(a: string, b: string)
    ensures CompareStrings(b, a) == -CompareStrings(a, b)
  {
    if a != [] && b != [] {
      CompareStringsAntisymmetric(a[1..], b[1..]);
    }
  }

  lemma {:induction false} CompareStringsTransitive(a: string, b: string, c: string)
    requires CompareStrings(a, b) <= 0 && CompareStrings(b, c) <= 0
    ensures CompareStrings(a, c) <= 0
  {
    if a != [] && b != [] && c != [] && a[0] == b[0] == c[0] {
      CompareStringsTransitive(a[1..], b[1..], c[1..]);
    }
  }

  /** At i, a ends where b goes on, or has the smaller character; up to there they agree. */
  predicate PrecedesAt(a: string, b: string, i: nat) {
    i <= |a| && i < |b| && a[..i] == b[..i] && (i == |a| || a[i] < b[i])
  }

  /** a is a proper prefix of b, or has the smaller character where they first differ. */
  ghost predicate Precedes(a: string, b: string) {
    exists i: nat :: PrecedesAt(a, b, i)
  }

  lemma PrecedesLater(a: string, b: string, i: nat)
    requires a != [] && b != [] && a[0] == b[0]
    ensures PrecedesAt(a[1..], b[1..], i) <==> PrecedesAt(a, b, i + 1)
  {
    if i < |a| && i + 1 < |b| {
      assert a[..i + 1] == [a[0]] + a[1..][..i] && b[..i + 1] == [b[0]] + b[1..][..i];
      assert a[..i + 1][1..] == a[1..][..i] && b[..i + 1][1..] == b[1..][..i];
    }
  }

  /** The order is the lexicographic one, and the answer one of -1, 0 and 1. */
  lemma {:induction false} CompareStringsNegative(a: string, b: string)
    ensures CompareStrings(a, b) < 0 <==> Precedes(a, b)
    ensures -1 <= CompareStrings(a, b) <= 1
  {
    if a != [] && b != [] && a[0] == b[0] {
      CompareStringsNegative(a[1..], b[1..]);
      if Precedes(a[1..], b[1..]) {
        var i: nat :| PrecedesAt(a[1..], b[1..], i);
        PrecedesLater(a, b, i);
      }
      if Precedes(a, b) {
        var i: nat :| PrecedesAt(a, b, i);
        assert i > 0;
        PrecedesLater(a, b, i - 1);
      }
    } else {
      FirstCharacterDecides(a, b);
    }
  }

  lemma FirstCharacterDecides(a: string, b: string)
    requires a == [] || b == [] || a[0] != b[0]
    ensures Precedes(a, b) <==> b != [] && (a == [] || a[0] < b[0])
  {
    if b != [] && (a == [] || a[0] < b[0]) {
      assert PrecedesAt(a, b, 0);
    }
    if Precedes(a, b) {
      var i: nat :| PrecedesAt(a, b, i);
      assert i > 0 ==> a != [] && a[..i][0] == a[0];
    }
  }

  /** The comparator handed to slices.SortFunc: by key, then by value. */
  function CompareSegments(a: Segment, b: Segment): int {
    var r := CompareStrings(a.key, b.key);
    if r != 0 then r else CompareStrings(a.value, b.value)
  }

  predicate Below(a: Segment, b: Segment) {
    CompareSegments(a, b) <= 0
  }

  lemma SegmentsZero(a: Segment, b: Segment)
    ensures CompareSegments(a, b) == 0 <==> a == b
  {
    CompareStringsZero(a.key, b.key);
    CompareStringsZero(a.value, b.value);
  }

  /** The key decides, and between equal keys the value. */
  lemma SegmentsNegative(a: Segment, b: Segment)
    ensures CompareSegments(a, b) < 0 <==> Precedes(a.key, b.key) || (a.key == b.key && Precedes(a.value, b.value))
    ensures -1 <= CompareSegments(a, b) <= 1
  {
    CompareStringsNegative(a.key, b.key);
    CompareStringsNegative(a.value, b.value);
    CompareStringsZero(a.key, b.key);
  }

  lemma SegmentsAntisymmetric(a: Segment, b: Segment)
    ensures CompareSegments(b, a) == -CompareSegments(a, b)
  {
    CompareStringsAntisymmetric(a.key, b.key);
    CompareStringsAntisymmetric(a.value, b.value);
  }

  lemma SegmentsTransitive(a: Segment, b: Segment, c: Segment)
    requires Below(a, b) && Below(b, c)
    ensures Below(a, c)
  {
    CompareStringsTransitive(a.key, b.key, c.key);
    CompareStringsZero(a.key, b.key);
    CompareStringsZero(b.key, c.key);
    CompareStringsZero(a.key, c.key);
    if a.key == b.key == c.key {
      CompareStringsTransitive(a.value, b.value, c.value);
    } else if a.key == c.key {
      CompareStringsAntisymmetric(a.key, b.key);
    }
  }
}
