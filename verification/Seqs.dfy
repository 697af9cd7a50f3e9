/** Lists without duplicates, as the intrusive linked lists of the C sources hold them. */
module Seqs {
  predicate Distinct<T(==)>(s: seq<T>) {
    forall i, j :: 0 <= i < j < |s| ==> s[i] != s[j]
  }

  function Without<T(==,!new)>(q: seq<T>, f: T): (r: seq<T>)
    ensures forall g :: g in r <==> g in q && g != f
    ensures f !in q ==> r == q
  {
    if q == [] then []
    else if q[0] == f then Without(q[1..], f)
    else [q[0]] + Without(q[1..], f)
  }

  lemma {:induction false} WithoutDistinct<T(!new)>(q: seq<T>, f: T)
    requires Distinct(q)
    ensures Distinct(Without(q, f))
  {
    if q != [] {
      WithoutDistinct(q[1..], f);
      var rest := Without(q[1..], f);
      forall j | 0 <= j < |rest|
        ensures rest[j] != q[0]
      {
        assert rest[j] in rest;
      }
    }
  }

  function Range(n: nat): (r: seq<nat>)
    ensures |r| == n
    ensures forall i :: 0 <= i < n ==> r[i] == i && i in r
  {
    if n == 0 then [] else Range(n - 1) + [n - 1]
  }

  ghost function Elements<T(!new)>(s: seq<T>): set<T> {
    set x | x in s
  }

  lemma {:induction false} DistinctSize<T(!new)>(s: seq<T>)
    requires Distinct(s)
    ensures |Elements(s)| == |s|
  {
    if s == [] {
      assert Elements(s) == {};
    } else {
      var rest, x := s[..|s| - 1], s[|s| - 1];
      DistinctSize(rest);
      assert x !in rest;
      assert Elements(s) == Elements(rest) + {x};
    }
  }

  function IndexOf<T(==,!new)>(q: seq<T>, e: T): (i: nat)
    requires e in q
    ensures i < |q| && q[i] == e && e !in q[..i]
  {
    if q[0] == e then 0 else 1 + IndexOf(q[1..], e)
  }

  function InsertAfter<T(==,!new)>(q: seq<T>, at: T, e: T): (r: seq<T>)
    requires at in q
    ensures forall d :: d in r <==> d in q || d == e
    ensures Distinct(q) && e !in q ==> Distinct(r)
  {
    var i := IndexOf(q, at) + 1;
    assert q == q[..i] + q[i..];
    q[..i] + [e] + q[i..]
  }

  /** The element after `e`, or before it if `e` is the last. */
  function NextOrPrev<T(==,!new)>(q: seq<T>, e: T): (d: T)
    requires e in q && |q| > 1
    ensures d in q && (Distinct(q) ==> d != e)
  {
    var i := IndexOf(q, e);
    if i + 1 < |q| then q[i + 1] else q[i - 1]
  }

  lemma FirstGone<T(!new)>(q: seq<T>)
    requires Distinct(q) && q != []
    ensures Without(q, q[0]) == q[1..]
  {
    assert q[0] !in q[1..];
  }

  lemma Associate<T>(a: seq<T>, b: seq<T>, c: seq<T>)
    ensures a + (b + c) == (a + b) + c
  {
  }
}
