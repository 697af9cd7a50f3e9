/** Doubly linked lists whose nodes are kept in the elements themselves. */
module LinkedNodes {
  import opened Wrappers
  import opened Seqs

  datatype Node<T> = Node(prev: Option<T>, next: Option<T>)

  /** The nodes are linked in the order of the list. */
  ghost predicate Linked<T(!new)>(nodes: map<T, Node<T>>, q: seq<T>) {
    forall i :: 0 <= i < |q| ==> q[i] in nodes && nodes[q[i]] == NodeAt(q, i)
  }

  function NodeAt<T>(q: seq<T>, i: nat): Node<T>
    requires i < |q|
  {
    Node(if i == 0 then None else Some(q[i - 1]), if i + 1 == |q| then None else Some(q[i + 1]))
  }

  /** The nodes of other lists are as they were. */
  ghost predicate Untouched<T(!new)>(nodes: map<T, Node<T>>, after: map<T, Node<T>>, q: seq<T>, e: T) {
    forall d :: d !in q && d != e && d in nodes ==> d in after && after[d] == nodes[d]
  }

  // ----- the operations -----

  function SetPrev<T>(nodes: map<T, Node<T>>, at: Option<T>, e: Option<T>): map<T, Node<T>>
    requires at.Some? ==> at.value in nodes
  {
    if at.Some? then nodes[at.value := nodes[at.value].(prev := e)] else nodes
  }

  function SetNext<T>(nodes: map<T, Node<T>>, at: Option<T>, e: Option<T>): map<T, Node<T>>
    requires at.Some? ==> at.value in nodes
  {
    if at.Some? then nodes[at.value := nodes[at.value].(next := e)] else nodes
  }

  function InitAfter<T>(nodes: map<T, Node<T>>, e: T, at: T): map<T, Node<T>>
    requires at in nodes && (nodes[at].next.Some? ==> nodes[at].next.value in nodes)
  {
    var n := nodes[at].next;
    SetPrev(SetNext(nodes[e := Node(Some(at), n)], Some(at), Some(e)), n, Some(e))
  }

  /** The neighbours are linked to each other. */
  function Unlink<T>(nodes: map<T, Node<T>>, e: T): map<T, Node<T>>
    requires e in nodes && (nodes[e].prev.Some? ==> nodes[e].prev.value in nodes)
    requires nodes[e].next.Some? ==> nodes[e].next.value in nodes
  {
    SetPrev(SetNext(nodes, nodes[e].prev, nodes[e].next), nodes[e].next, nodes[e].prev)
  }

  // ----- they do to the links what the list operations do to the list -----

  /** Where the elements are once `e` is put in behind place `k`. */
  lemma Spliced<T>(q: seq<T>, k: nat, e: T)
    requires k < |q|
    ensures var r := q[..k + 1] + [e] + q[k + 1..];
      && |r| == |q| + 1 && r[k + 1] == e
      && (forall i :: 0 <= i <= k ==> r[i] == q[i]) && (forall i :: k < i < |q| ==> r[i + 1] == q[i])
  {
    var r := q[..k + 1] + [e] + q[k + 1..];
    forall i | k < i < |q|
      ensures r[i + 1] == q[i]
    {
      assert r[i + 1] == q[k + 1..][i - k - 1];
    }
  }

  lemma InsertIs<T(!new)>(q: seq<T>, at: T, e: T)
    requires at in q
    ensures var k := IndexOf(q, at); InsertAfter(q, at, e) == q[..k + 1] + [e] + q[k + 1..]
  {
    hide IndexOf, Distinct;
  }

  lemma InsertShape<T(!new)>(q: seq<T>, at: T, e: T)
    requires at in q
    ensures var r, k := InsertAfter(q, at, e), IndexOf(q, at);
      && |r| == |q| + 1 && r[k + 1] == e
      && (forall i :: 0 <= i <= k ==> r[i] == q[i]) && (forall i :: k < i < |q| ==> r[i + 1] == q[i])
  {
    hide IndexOf, InsertAfter;
    InsertIs(q, at, e);
    Spliced(q, IndexOf(q, at), e);
  }

  lemma InsertLinked<T(!new)>(nodes: map<T, Node<T>>, q: seq<T>, at: T, e: T)
    requires Linked(nodes, q) && Distinct(q) && at in q && e !in q
    ensures at in nodes && (nodes[at].next.Some? ==> nodes[at].next.value in nodes)
    ensures Linked(InitAfter(nodes, e, at), InsertAfter(q, at, e)) && Untouched(nodes, InitAfter(nodes, e, at), q, e)
  {
    hide InsertAfter;
    InsertShape(q, at, e);
    var k := IndexOf(q, at);
    var t, r := InitAfter(nodes, e, at), InsertAfter(q, at, e);
    assert nodes[q[k]] == NodeAt(q, k);
    forall i | 0 <= i < |r|
      ensures r[i] in t && t[r[i]] == NodeAt(r, i)
    {
      if i <= k {
        assert nodes[q[i]] == NodeAt(q, i);
      } else if i > k + 1 {
        assert r[i - 1 + 1] == q[i - 1] && nodes[q[i - 1]] == NodeAt(q, i - 1);
        if i > k + 2 {
          assert r[i - 2 + 1] == q[i - 2];
        }
      }
    }
  }

  lemma WithoutFirst<T(!new)>(q: seq<T>, f: T)
    requires q != []
    ensures Without(q, f) == (if q[0] == f then [] else [q[0]]) + Without(q[1..], f)
    ensures f !in q[1..] ==> Without(q[1..], f) == q[1..]
  {
  }

  lemma TailDistinct<T(!new)>(q: seq<T>)
    requires Distinct(q) && q != []
    ensures Distinct(q[1..]) && q[0] !in q[1..]
  {
  }

  lemma {:induction false} WithoutAt<T(!new)>(q: seq<T>, k: nat)
    requires Distinct(q) && k < |q|
    ensures Without(q, q[k]) == q[..k] + q[k + 1..]
  {
    hide Without, Distinct;
    var rest := q[1..];
    TailDistinct(q);
    WithoutFirst(q, q[k]);
    if k > 0 {
      assert rest[k - 1] == q[k] && q[k] in rest;
      WithoutAt(rest, k - 1);
      assert rest[..k - 1] == q[1..k] && rest[k..] == q[k + 1..] && q[..k] == [q[0]] + q[1..k];
    }
  }

  lemma WithoutShape<T(!new)>(q: seq<T>, e: T)
    requires Distinct(q) && e in q
    ensures var r, k := Without(q, e), IndexOf(q, e);
      && |r| == |q| - 1
      && (forall i :: 0 <= i < k ==> r[i] == q[i]) && (forall i :: k <= i < |r| ==> r[i] == q[i + 1])
  {
    hide Distinct, Without, IndexOf;
    WithoutAt(q, IndexOf(q, e));
  }

  /** After the unlinking each remaining node has its new neighbours. */
  lemma UnlinkedNode<T(!new)>(nodes: map<T, Node<T>>, q: seq<T>, k: nat, j: nat)
    requires Linked(nodes, q) && Distinct(q) && k < |q| && j < |q| && j != k
    ensures q[k] in nodes && (nodes[q[k]].prev.Some? ==> nodes[q[k]].prev.value in nodes)
    ensures nodes[q[k]].next.Some? ==> nodes[q[k]].next.value in nodes
    ensures q[j] in Unlink(nodes, q[k])
    ensures Unlink(nodes, q[k])[q[j]] == Node(
      if j == k + 1 then NodeAt(q, k).prev else NodeAt(q, j).prev,
      if j + 1 == k then NodeAt(q, k).next else NodeAt(q, j).next)
  {
    assert nodes[q[k]] == NodeAt(q, k) && nodes[q[j]] == NodeAt(q, j);
  }

  /** Those are its neighbours in the list without the unlinked element. */
  lemma NodeWithout<T(!new)>(q: seq<T>, e: T, i: nat)
    requires Distinct(q) && e in q && i < |Without(q, e)|
    ensures var k := IndexOf(q, e);
      var j := if i < k then i else i + 1;
      && j < |q| && Without(q, e)[i] == q[j]
      && NodeAt(Without(q, e), i) == Node(
           if j == k + 1 then NodeAt(q, k).prev else NodeAt(q, j).prev,
           if j + 1 == k then NodeAt(q, k).next else NodeAt(q, j).next)
  {
    hide Without, IndexOf, Distinct;
    WithoutShape(q, e);
  }

  lemma UnlinkReady<T(!new)>(nodes: map<T, Node<T>>, q: seq<T>, e: T)
    requires Linked(nodes, q) && e in q
    ensures e in nodes && (nodes[e].prev.Some? ==> nodes[e].prev.value in nodes)
    ensures nodes[e].next.Some? ==> nodes[e].next.value in nodes
    ensures Untouched(nodes, Unlink(nodes, e), q, e)
  {
    hide IndexOf;
    var k := IndexOf(q, e);
    assert nodes[q[k]] == NodeAt(q, k);
  }

  lemma UnlinkLinked<T(!new)>(nodes: map<T, Node<T>>, q: seq<T>, e: T)
    requires Linked(nodes, q) && Distinct(q) && e in q
    ensures e in nodes && (nodes[e].prev.Some? ==> nodes[e].prev.value in nodes)
    ensures nodes[e].next.Some? ==> nodes[e].next.value in nodes
    ensures Linked(Unlink(nodes, e), Without(q, e)) && Untouched(nodes, Unlink(nodes, e), q, e)
  {
    hide Without, IndexOf, Distinct, NodeAt, Unlink, Untouched;
    UnlinkReady(nodes, q, e);
    var k, t, r := IndexOf(q, e), Unlink(nodes, e), Without(q, e);
    forall i | 0 <= i < |r|
      ensures r[i] in t && t[r[i]] == NodeAt(r, i)
    {
      NodeWithout(q, e, i);
      UnlinkedNode(nodes, q, k, if i < k then i else i + 1);
    }
  }

  /** A neighbour of the node, and whether it has one. */
  lemma NeighbourExact<T(!new)>(nodes: map<T, Node<T>>, q: seq<T>, e: T)
    requires Linked(nodes, q) && Distinct(q) && e in q
    ensures e in nodes && (nodes[e] == Node(None, None) <==> |q| == 1)
    ensures |q| > 1 ==> NextOrPrev(q, e) == if nodes[e].next.Some? then nodes[e].next.value else nodes[e].prev.value
  {
    assert nodes[e] == NodeAt(q, IndexOf(q, e));
  }

  /** Walks back to the first node. */
  method First<T(!new)>(nodes: map<T, Node<T>>, e: T, ghost q: seq<T>) returns (d: T)
    requires Linked(nodes, q) && Distinct(q) && e in q
    ensures d == q[0]
  {
    d := e;
    ghost var i := IndexOf(q, e);
    while nodes[d].prev.Some?
      invariant 0 <= i < |q| && d == q[i] && d in nodes && nodes[d] == NodeAt(q, i)
      decreases i
    {
      d := nodes[d].prev.value;
      i := i - 1;
    }
  }

  lemma StayLinked<T(!new)>(nodes: map<T, Node<T>>, after: map<T, Node<T>>, q: seq<T>, e: T, r: seq<T>)
    requires Linked(nodes, r) && Untouched(nodes, after, q, e) && e !in r && forall d :: d in r ==> d !in q
    ensures Linked(after, r)
  {
    forall i | 0 <= i < |r|
      ensures r[i] in after && after[r[i]] == NodeAt(r, i)
    {
      assert r[i] in r;
    }
  }
}
