/** The linked nodes of the multicast index: one list for each signature. */
module MulticastNodes {
  import opened Wrappers
  import opened Seqs
  import opened LinkedNodes
  import opened Multicast

  ghost predicate AllLinked(nodes: map<Id, Node<Id>>, lists: map<Sig, seq<Id>>) {
    forall g :: g in lists ==> Linked(nodes, lists[g])
  }

  /** The lists of two signatures have no node in common. */
  lemma OtherList(x: Index, sigs: map<Id, Sig>, e: Id, g: Sig, h: Sig)
    requires Inv(x, sigs) && (e in sigs ==> sigs[e] == g) && h in x.lists && h != g
    ensures e !in x.lists[h] && (g in x.lists ==> forall d :: d in x.lists[h] ==> d !in x.lists[g])
  {
    assert ListOk(x, sigs, h);
    if g in x.lists {
      assert ListOk(x, sigs, g);
    }
  }

  lemma LoneLinked(nodes: map<Id, Node<Id>>, e: Id)
    ensures Linked(nodes[e := Node(None, None)], [e]) && Untouched(nodes, nodes[e := Node(None, None)], [], e)
  {
  }

  /** A new membership is linked behind the master of its signature, or stands alone. */
  function Linkup(x: Index, nodes: map<Id, Node<Id>>, e: Id, g: Sig): map<Id, Node<Id>>
    requires g in x.tree ==> x.tree[g] in nodes && (nodes[x.tree[g]].next.Some? ==> nodes[x.tree[g]].next.value in nodes)
  {
    if g in x.tree then InitAfter(nodes, e, x.tree[g]) else nodes[e := Node(None, None)]
  }

  lemma AddLinked(x: Index, sigs: map<Id, Sig>, nodes: map<Id, Node<Id>>, e: Id, g: Sig)
    requires Inv(x, sigs) && e !in sigs && AllLinked(nodes, x.lists)
    ensures g in x.tree ==> x.tree[g] in nodes && (nodes[x.tree[g]].next.Some? ==> nodes[x.tree[g]].next.value in nodes)
    ensures g in x.tree ==> g in x.lists && x.tree[g] in x.lists[g]
    ensures AllLinked(Linkup(x, nodes, e, g), Add(x, e, g).lists)
  {
    hide Linked, Untouched, InsertAfter, InitAfter;
    var q := if g in x.tree then assert ListOk(x, sigs, g); x.lists[g] else [];
    if g in x.tree {
      assert ListOk(x, sigs, g);
      InsertLinked(nodes, q, x.tree[g], e);
    } else {
      LoneLinked(nodes, e);
    }
    var t, y := Linkup(x, nodes, e, g), Add(x, e, g);
    forall h | h in y.lists && h != g
      ensures Linked(t, y.lists[h])
    {
      OtherList(x, sigs, e, g, h);
      StayLinked(nodes, t, q, e, x.lists[h]);
    }
  }

  lemma RemoveLinked(x: Index, sigs: map<Id, Sig>, nodes: map<Id, Node<Id>>, e: Id)
    requires Inv(x, sigs) && e in sigs && AllLinked(nodes, x.lists)
    ensures sigs[e] in x.lists && e in x.lists[sigs[e]] && e in x.isMaster && Distinct(x.lists[sigs[e]])
    ensures Linked(nodes, x.lists[sigs[e]])
    ensures e in nodes && (nodes[e].prev.Some? ==> nodes[e].prev.value in nodes)
    ensures nodes[e].next.Some? ==> nodes[e].next.value in nodes
    ensures AllLinked(Unlink(nodes, e), Remove(x, e, sigs[e]).lists)
  {
    hide Linked, Untouched, Unlink, NextOrPrev;
    RemoveReady(x, sigs, e);
    var g := sigs[e];
    var q := x.lists[g];
    UnlinkLinked(nodes, q, e);
    var t, y := Unlink(nodes, e), Remove(x, e, g);
    forall h | h in y.lists && h != g
      ensures Linked(t, y.lists[h])
    {
      OtherList(x, sigs, e, g, h);
      StayLinked(nodes, t, q, e, x.lists[h]);
    }
  }

  lemma AllLinkedAt(nodes: map<Id, Node<Id>>, lists: map<Sig, seq<Id>>, g: Sig)
    requires AllLinked(nodes, lists) && g in lists
    ensures Linked(nodes, lists[g])
  {
  }
}
