/** Disjoint extents inside [0, n): they cannot hold more than n cells, and holding n they tile it. */
module Tiling {
  datatype Extent = Extent(start: nat, len: nat) {
    predicate Covers(p: nat) { start <= p < start + len }
    function End(): nat { start + len }
  }

  /** The assembler's test, including its verdict on empty extents: one inside another overlaps it. */
  predicate Overlap(a: Extent, b: Extent) {
    a.start + a.len > b.start && b.start + b.len > a.start
  }

  ghost predicate Apart(xs: seq<Extent>) {
    forall i, j :: 0 <= i < j < |xs| ==> !Overlap(xs[i], xs[j])
  }

  ghost predicate Within(xs: seq<Extent>, n: nat) {
    forall x :: x in xs ==> x.End() <= n
  }

  function Total(xs: seq<Extent>): nat {
    if xs == [] then 0 else Total(xs[..|xs| - 1]) + xs[|xs| - 1].len
  }

  ghost predicate Covered(xs: seq<Extent>, p: nat) {
    exists i :: 0 <= i < |xs| && xs[i].Covers(p)
  }

  /** Every cell of [0, n) lies in exactly one extent, and no extent reaches outside. */
  ghost predicate Tiles(xs: seq<Extent>, n: nat) {
    && Within(xs, n)
    && (forall p :: 0 <= p < n ==> Covered(xs, p))
    && (forall p, i, j :: 0 <= i < |xs| && 0 <= j < |xs| && xs[i].Covers(p) && xs[j].Covers(p) ==> i == j)
  }

  ghost function Interval(lo: nat, hi: nat): (r: set<nat>)
    requires lo <= hi
    ensures forall p :: p in r <==> lo <= p < hi
    ensures |r| == hi - lo
    decreases hi
  {
    if lo == hi then {} else Interval(lo, hi - 1) + {hi - 1}
  }

  ghost function Cells(xs: seq<Extent>): set<nat> {
    if xs == [] then {} else Cells(xs[..|xs| - 1]) + Interval(xs[|xs| - 1].start, xs[|xs| - 1].End())
  }

  lemma CoveredLast(xs: seq<Extent>, p: nat)
    requires xs != []
    ensures Covered(xs, p) <==> Covered(xs[..|xs| - 1], p) || xs[|xs| - 1].Covers(p)
  {
    var rest := xs[..|xs| - 1];
    assert forall i :: 0 <= i < |rest| ==> rest[i] == xs[i];
    if Covered(xs, p) {
      var i :| 0 <= i < |xs| && xs[i].Covers(p);
      if i < |rest| {
        assert rest[i].Covers(p);
      }
    }
  }

  lemma {:induction false} CellOwner(xs: seq<Extent>, p: nat)
    ensures p in Cells(xs) <==> Covered(xs, p)
  {
    if xs != [] {
      CellOwner(xs[..|xs| - 1], p);
      CoveredLast(xs, p);
    }
  }

  lemma {:induction false} CellCount(xs: seq<Extent>)
    requires Apart(xs)
    ensures |Cells(xs)| == Total(xs)
  {
    if xs != [] {
      var rest, x := xs[..|xs| - 1], xs[|xs| - 1];
      CellCount(rest);
      forall p | p in Cells(rest)
        ensures p !in Interval(x.start, x.End())
      {
        CellOwner(rest, p);
        var i :| 0 <= i < |rest| && rest[i].Covers(p);
        assert !Overlap(xs[i], xs[|xs| - 1]);
      }
    }
  }

  /** Pigeonhole: apart and inside [0, n) means at most n cells in total, and exactly n exactly for a tiling. */
  lemma Pigeonhole(xs: seq<Extent>, n: nat)
    requires Apart(xs) && Within(xs, n)
    ensures Total(xs) <= n
    ensures Total(xs) == n <==> Tiles(xs, n)
  {
    CellCount(xs);
    forall p | p in Cells(xs)
      ensures p in Interval(0, n)
    {
      CellOwner(xs, p);
      var i :| 0 <= i < |xs| && xs[i].Covers(p);
      assert xs[i] in xs;
    }
    SubsetSize(Cells(xs), Interval(0, n));
    if Tiles(xs, n) {
      forall p | p in Interval(0, n)
        ensures p in Cells(xs)
      {
        CellOwner(xs, p);
      }
      SubsetSize(Interval(0, n), Cells(xs));
    }
    if Total(xs) == n {
      forall p | 0 <= p < n
        ensures Covered(xs, p)
      {
        CellOwner(xs, p);
      }
      forall p, i, j | 0 <= i < |xs| && 0 <= j < |xs| && xs[i].Covers(p) && xs[j].Covers(p)
        ensures i == j
      {
      }
    }
  }

  lemma {:induction false} SubsetSize(a: set<nat>, b: set<nat>)
    requires a <= b
    ensures |a| <= |b|
    ensures |a| == |b| ==> a == b
  {
    assert b == a + (b - a);
    assert |b| == |a| + |b - a|;
  }
}
