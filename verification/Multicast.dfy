/** The index of group memberships by signature, the last 23 bits of the group address. */
module Multicast {
  // The memberships with one signature form a list; one of them, the master, stands for the list in the tree of
  // signatures.

  import opened Seqs
  import opened EntryPool

  type PeerId = nat
  type Sig = nat

  /** One of a peer's group entries. */
  datatype Id = Id(peer: PeerId, slot: Slot)

  datatype Index = Index(lists: map<Sig, seq<Id>>, tree: map<Sig, Id>, isMaster: map<Id, bool>)

  // ----- what is always true -----

  /** The list is exactly the memberships of the signature, each once, and the tree holds one of them. */
  ghost predicate ListOk(x: Index, sigs: map<Id, Sig>, g: Sig)
    requires g in x.lists
  {
    && Distinct(x.lists[g]) && g in x.tree && x.tree[g] in x.lists[g]
    && forall e :: e in x.lists[g] <==> e in sigs && sigs[e] == g
  }

  /** A membership's list exists, and the membership is its master if and only if it is the one in the tree. */
  ghost predicate MasterOk(x: Index, sigs: map<Id, Sig>, e: Id)
    requires e in sigs
  {
    sigs[e] in x.lists && sigs[e] in x.tree && e in x.isMaster && (x.isMaster[e] <==> x.tree[sigs[e]] == e)
  }

  ghost predicate Inv(x: Index, sigs: map<Id, Sig>) {
    && x.tree.Keys == x.lists.Keys
    && (forall g :: g in x.lists ==> ListOk(x, sigs, g))
    && (forall e :: e in sigs ==> MasterOk(x, sigs, e))
  }

  /** Each signature with a membership has exactly one master. */
  lemma OneMaster(x: Index, sigs: map<Id, Sig>, e: Id)
    requires Inv(x, sigs) && e in sigs
    ensures exists m :: m in sigs && sigs[m] == sigs[e] && x.isMaster[m]
    ensures forall m, n :: m in sigs && n in sigs && sigs[m] == sigs[n] && MasterOk(x, sigs, m) && MasterOk(x, sigs, n) ==>
      (x.isMaster[m] && x.isMaster[n] ==> m == n)
  {
    var m := x.tree[sigs[e]];
    assert MasterOk(x, sigs, e) && ListOk(x, sigs, sigs[e]);
    assert m in x.lists[sigs[e]] && MasterOk(x, sigs, m);
    forall a, b | a in sigs && b in sigs && sigs[a] == sigs[b] && MasterOk(x, sigs, a) && MasterOk(x, sigs, b)
      ensures x.isMaster[a] && x.isMaster[b] ==> a == b
    {
    }
    assert m in sigs && sigs[m] == sigs[e] && x.isMaster[m];
  }

  // ----- the index operations -----

  function Add(x: Index, e: Id, g: Sig): Index
    requires g in x.tree ==> g in x.lists && x.tree[g] in x.lists[g]
  {
    if g in x.tree then
      x.(isMaster := x.isMaster[e := false], lists := x.lists[g := InsertAfter(x.lists[g], x.tree[g], e)])
    else
      Index(x.lists[g := [e]], x.tree[g := e], x.isMaster[e := true])
  }

  /** A master that goes hands its place to a neighbour; the last membership takes its signature with it. */
  function Remove(x: Index, e: Id, g: Sig): Index
    requires g in x.lists && e in x.lists[g] && e in x.isMaster
  {
    var q := Without(x.lists[g], e);
    if !x.isMaster[e] then x.(lists := x.lists[g := q])
    else if |x.lists[g]| == 1 then x.(lists := x.lists - {g}, tree := x.tree - {g})
    else
      var d := NextOrPrev(x.lists[g], e);
      Index(x.lists[g := q], x.tree[g := d], x.isMaster[d := true])
  }

  lemma AddList(x: Index, sigs: map<Id, Sig>, e: Id, g: Sig, h: Sig)
    requires Inv(x, sigs) && e !in sigs && (g in x.tree ==> g in x.lists && x.tree[g] in x.lists[g])
    requires h in Add(x, e, g).lists
    ensures ListOk(Add(x, e, g), sigs[e := g], h)
  {
    hide InsertAfter, Distinct;
    if h != g || g in x.tree {
      assert ListOk(x, sigs, h);
    } else {
      OneElement(e);
      forall d | d in sigs
        ensures sigs[d] != g
      {
        assert MasterOk(x, sigs, d);
      }
    }
  }

  lemma AddMaster(x: Index, sigs: map<Id, Sig>, e: Id, g: Sig, d: Id)
    requires Inv(x, sigs) && e !in sigs && (g in x.tree ==> g in x.lists && x.tree[g] in x.lists[g])
    requires d in sigs || d == e
    ensures MasterOk(Add(x, e, g), sigs[e := g], d)
  {
    hide InsertAfter, Distinct;
    if d != e {
      assert MasterOk(x, sigs, d);
    } else if g in x.tree {
      assert ListOk(x, sigs, g) && e !in x.lists[g];
    }
  }

  lemma AddKeeps(x: Index, sigs: map<Id, Sig>, e: Id, g: Sig)
    requires Inv(x, sigs) && e !in sigs
    ensures g in x.tree ==> g in x.lists && x.tree[g] in x.lists[g]
    ensures Inv(Add(x, e, g), sigs[e := g])
  {
    hide ListOk, MasterOk, InsertAfter;
    if g in x.tree {
      MasterListed(x, sigs, g);
    }
    var y, t := Add(x, e, g), sigs[e := g];
    forall h | h in y.lists
      ensures ListOk(y, t, h)
    {
      AddList(x, sigs, e, g, h);
    }
    forall d | d in t
      ensures MasterOk(y, t, d)
    {
      AddMaster(x, sigs, e, g, d);
    }
  }

  lemma OneElement(e: Id)
    ensures Distinct([e])
  {
  }

  lemma RemoveReady(x: Index, sigs: map<Id, Sig>, e: Id)
    requires Inv(x, sigs) && e in sigs
    ensures sigs[e] in x.lists && e in x.lists[sigs[e]] && e in x.isMaster
    ensures |x.lists[sigs[e]]| == 1 ==> x.lists[sigs[e]] == [e]
    ensures MasterOk(x, sigs, e) && ListOk(x, sigs, sigs[e])
  {
    assert MasterOk(x, sigs, e) && ListOk(x, sigs, sigs[e]);
  }

  lemma RemoveList(x: Index, sigs: map<Id, Sig>, e: Id, h: Sig)
    requires Inv(x, sigs) && e in sigs && sigs[e] in x.lists && e in x.lists[sigs[e]] && e in x.isMaster
    requires h in Remove(x, e, sigs[e]).lists
    ensures ListOk(Remove(x, e, sigs[e]), sigs - {e}, h)
  {
    hide NextOrPrev, Distinct;
    RemoveReady(x, sigs, e);
    WithoutDistinct(x.lists[sigs[e]], e);
    assert ListOk(x, sigs, h);
  }

  lemma RemoveMaster(x: Index, sigs: map<Id, Sig>, e: Id, d: Id)
    requires Inv(x, sigs) && e in sigs && sigs[e] in x.lists && e in x.lists[sigs[e]] && e in x.isMaster
    requires d in sigs && d != e
    ensures MasterOk(Remove(x, e, sigs[e]), sigs - {e}, d)
  {
    hide NextOrPrev, Distinct;
    RemoveReady(x, sigs, e);
    assert MasterOk(x, sigs, d) && ListOk(x, sigs, sigs[d]);
  }

  lemma RemoveKeeps(x: Index, sigs: map<Id, Sig>, e: Id)
    requires Inv(x, sigs) && e in sigs
    ensures sigs[e] in x.lists && e in x.lists[sigs[e]] && e in x.isMaster
    ensures Inv(Remove(x, e, sigs[e]), sigs - {e})
  {
    hide ListOk, MasterOk;
    RemoveReady(x, sigs, e);
    var y, t := Remove(x, e, sigs[e]), sigs - {e};
    forall h | h in y.lists
      ensures ListOk(y, t, h)
    {
      RemoveList(x, sigs, e, h);
    }
    forall d | d in t
      ensures MasterOk(y, t, d)
    {
      RemoveMaster(x, sigs, e, d);
    }
  }

  lemma MasterListed(x: Index, sigs: map<Id, Sig>, g: Sig)
    requires Inv(x, sigs) && g in x.tree
    ensures g in x.lists && x.tree[g] in x.lists[g]
  {
    assert ListOk(x, sigs, g);
  }
}
