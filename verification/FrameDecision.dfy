/** Where the decider is in handing out the destinations of a frame, while peers and memberships come and go. */
module FrameDecision {
  import opened Wrappers
  import opened Seqs
  import opened LinkedNodes
  import opened MulticastNodes
  import opened X = Multicast
  import F = FrameDecider

  /** An iterator that is not `attached` to the node it points at is not moved on when that node goes. */
  datatype Decision =
    | NoneLeft
    | Unicast(p: PeerId)
    | Flood(peer: Option<PeerId>)
    | ToMembers(member: Option<Id>, attached: bool)

  function At<T>(q: seq<T>, i: nat): Option<T> {
    if i < |q| then Some(q[i]) else None
  }

  ghost predicate FloodRest(peers: seq<PeerId>, next: Option<PeerId>, rest: seq<PeerId>) {
    exists i :: 0 <= i <= |peers| && rest == peers[i..] && next == At(peers, i)
  }

  /** The memberships from `next` on, in its list. */
  ghost predicate IdsRest(lists: map<Sig, seq<Id>>, next: Option<Id>, ids: seq<Id>) {
    || (ids == [] && next.None?)
    || (exists g, i :: g in lists && 0 <= i <= |lists[g]| && ids == lists[g][i..] && next == At(lists[g], i))
  }

  ghost predicate MemberRest(lists: map<Sig, seq<Id>>, next: Option<Id>, rest: seq<PeerId>) {
    exists ids :: IdsRest(lists, next, ids) && rest == F.PeersOf(ids)
  }

  lemma FloodNext(peers: seq<PeerId>, next: Option<PeerId>, rest: seq<PeerId>)
    requires Distinct(peers) && FloodRest(peers, next, rest)
    ensures next == At(rest, 0)
    ensures next.Some? ==> next.value in peers && FloodRest(peers, At(peers, IndexOf(peers, next.value) + 1), rest[1..])
  {
    var i :| 0 <= i <= |peers| && rest == peers[i..] && next == At(peers, i);
    if next.Some? {
      assert IndexOf(peers, next.value) == i && rest[1..] == peers[i + 1..];
    }
  }

  lemma IdsNext(nodes: map<Id, Node<Id>>, lists: map<Sig, seq<Id>>, next: Option<Id>, ids: seq<Id>)
    requires AllLinked(nodes, lists) && IdsRest(lists, next, ids)
    ensures next == At(ids, 0)
    ensures next.Some? ==> next.value in nodes && IdsRest(lists, nodes[next.value].next, ids[1..])
  {
    if next.Some? {
      var g, i :| g in lists && 0 <= i <= |lists[g]| && ids == lists[g][i..] && next == At(lists[g], i);
      assert Linked(nodes, lists[g]) && nodes[lists[g][i]] == NodeAt(lists[g], i);
      assert ids[1..] == lists[g][i + 1..] && nodes[next.value].next == At(lists[g], i + 1);
    }
  }

  lemma MemberNext(nodes: map<Id, Node<Id>>, lists: map<Sig, seq<Id>>, next: Option<Id>, rest: seq<PeerId>)
    requires AllLinked(nodes, lists) && MemberRest(lists, next, rest)
    ensures next.None? <==> rest == []
    ensures next.Some? ==> next.value in nodes && rest[0] == next.value.peer && MemberRest(lists, nodes[next.value].next, rest[1..])
  {
    hide AllLinked, IdsRest;
    var ids :| IdsRest(lists, next, ids) && rest == F.PeersOf(ids);
    IdsNext(nodes, lists, next, ids);
    if next.Some? {
      assert rest[1..] == F.PeersOf(ids[1..]);
    }
  }

  // ----- what is handed out when an element goes -----

  lemma SuffixBefore<T(!new)>(q: seq<T>, i: nat, k: nat)
    requires Distinct(q) && i <= k < |q|
    ensures |Without(q, q[k])| == |q| - 1 && Without(q[i..], q[k]) == Without(q, q[k])[i..]
  {
    hide Without;
    WithoutAt(q, k);
    assert Distinct(q[i..]) && q[i..][k - i] == q[k];
    WithoutAt(q[i..], k - i);
    assert q[i..][..k - i] + q[i..][k - i + 1..] == (q[..k] + q[k + 1..])[i..];
  }

  lemma SuffixBehind<T(!new)>(q: seq<T>, i: nat, k: nat)
    requires Distinct(q) && k < i <= |q|
    ensures |Without(q, q[k])| == |q| - 1 && Without(q[i..], q[k]) == Without(q, q[k])[i - 1..]
  {
    hide Without;
    WithoutAt(q, k);
    assert q[k] !in q[i..];
    KeptAll(q[i..], q[k]);
    assert q[i..] == (q[..k] + q[k + 1..])[i - 1..];
  }

  /** Moving on from an element that goes leaves the rest of the list without it. */
  lemma SuffixWithout<T(!new)>(q: seq<T>, i: nat, e: T) returns (j: nat)
    requires Distinct(q) && e in q && i <= |q|
    ensures var r := Without(q, e);
      && j <= |r| && Without(q[i..], e) == r[j..]
      && At(r, j) == if At(q, i) == Some(e) then At(q, IndexOf(q, e) + 1) else At(q, i)
  {
    hide Without, IndexOf, NodeAt;
    var k := IndexOf(q, e);
    WithoutShape(q, e);
    if i <= k {
      j := i;
      SuffixBefore(q, i, k);
      assert i < k ==> q[i] != e;
    } else {
      j := i - 1;
      SuffixBehind(q, i, k);
      assert i < |q| ==> q[i] != e;
    }
  }

  lemma KeptAll<T(!new)>(q: seq<T>, e: T)
    requires e !in q
    ensures Without(q, e) == q
  {
  }

  lemma OneLess(q: PeerId, p: PeerId)
    ensures Without([], p) == [] && Without([q], p) == if q == p then [] else [q]
  {
    assert [q][1..] == [];
  }

  lemma FloodPlace(peers: seq<PeerId>, next: Option<PeerId>, rest: seq<PeerId>) returns (i: nat)
    requires FloodRest(peers, next, rest)
    ensures i <= |peers| && rest == peers[i..] && next == At(peers, i)
  {
    i :| 0 <= i <= |peers| && rest == peers[i..] && next == At(peers, i);
  }

  lemma FloodAt(peers: seq<PeerId>, i: nat)
    requires i <= |peers|
    ensures FloodRest(peers, At(peers, i), peers[i..])
  {
  }

  /** The peer goes: the flood passes over it. */
  lemma FloodWithout(peers: seq<PeerId>, next: Option<PeerId>, rest: seq<PeerId>, p: PeerId)
    requires Distinct(peers) && p in peers && FloodRest(peers, next, rest)
    ensures FloodRest(Without(peers, p), if next == Some(p) then At(peers, IndexOf(peers, p) + 1) else next, Without(rest, p))
  {
    hide Without, IndexOf, FloodRest, Distinct, At;
    var i := FloodPlace(peers, next, rest);
    var j := SuffixWithout(peers, i, p);
    FloodAt(Without(peers, p), j);
  }

  /** The iterator of the decision when the node of `e` is about to go. */
  function Jumped(d: Decision, nodes: map<Id, Node<Id>>, e: Id): Decision
    requires e in nodes
  {
    if d.ToMembers? && d.attached && d.member == Some(e) then d.(member := nodes[e].next) else d
  }

  /** Only the place of a multicast decision has changed. */
  predicate SameKind(d: Decision, was: Decision) {
    if was.ToMembers? then d.ToMembers? && d.attached == was.attached else d == was
  }

  /** The lists without the membership; a list that would be empty is gone. */
  function ListsWithout(lists: map<Sig, seq<Id>>, g: Sig, e: Id): map<Sig, seq<Id>>
    requires g in lists
  {
    if Without(lists[g], e) == [] then lists - {g} else lists[g := Without(lists[g], e)]
  }

  lemma RemovedLists(x: Index, sigs: map<Id, Sig>, e: Id)
    requires X.Inv(x, sigs) && e in sigs
    ensures sigs[e] in x.lists && e in x.lists[sigs[e]] && e in x.isMaster && Distinct(x.lists[sigs[e]])
    ensures Remove(x, e, sigs[e]).lists == ListsWithout(x.lists, sigs[e], e)
  {
    hide Without, NextOrPrev, IndexOf;
    RemoveReady(x, sigs, e);
    WithoutShape(x.lists[sigs[e]], e);
    if |x.lists[sigs[e]]| == 1 {
      assert MasterOk(x, sigs, e) && x.tree[sigs[e]] in x.lists[sigs[e]];
    }
  }

  lemma SameList(lists: map<Sig, seq<Id>>, g: Sig, e: Id, i: nat)
    requires g in lists && e in lists[g] && Distinct(lists[g]) && i <= |lists[g]|
    ensures var q := lists[g];
      IdsRest(ListsWithout(lists, g, e), if At(q, i) == Some(e) then At(q, IndexOf(q, e) + 1) else At(q, i), Without(q[i..], e))
  {
    hide Without, IndexOf;
    var j := SuffixWithout(lists[g], i, e);
    var y, r := ListsWithout(lists, g, e), Without(lists[g], e);
    assert r != [] ==> g in y && y[g] == r && y[g][j..] == Without(lists[g][i..], e);
  }

  lemma OtherListKept(lists: map<Sig, seq<Id>>, g: Sig, e: Id, h: Sig, i: nat)
    requires g in lists && h in lists && h != g && i <= |lists[h]| && e !in lists[h]
    ensures Without(lists[h][i..], e) == lists[h][i..]
    ensures IdsRest(ListsWithout(lists, g, e), At(lists[h], i), lists[h][i..])
  {
    KeptAll(lists[h][i..], e);
    var y := ListsWithout(lists, g, e);
    assert h in y && y[h] == lists[h] && y[h][i..] == lists[h][i..];
  }

  /** The membership goes: the iterator passes over it. */
  lemma IdsWithout(x: Index, sigs: map<Id, Sig>, nodes: map<Id, Node<Id>>, e: Id, next: Option<Id>, ids: seq<Id>)
    requires X.Inv(x, sigs) && e in sigs && AllLinked(nodes, x.lists) && IdsRest(x.lists, next, ids)
    ensures sigs[e] in x.lists && e in x.lists[sigs[e]] && e in x.isMaster && e in nodes
    ensures IdsRest(Remove(x, e, sigs[e]).lists, if next == Some(e) then nodes[e].next else next, Without(ids, e))
  {
    hide Without, IndexOf, Linked, NextOrPrev, Unlink, Distinct, Remove, X.Inv, ListsWithout;
    RemovedLists(x, sigs, e);
    RemoveLinked(x, sigs, nodes, e);
    var g := sigs[e];
    if ids == [] && next.None? {
      KeptAll(ids, e);
    } else {
      var h, i :| h in x.lists && 0 <= i <= |x.lists[h]| && ids == x.lists[h][i..] && next == At(x.lists[h], i);
      if h == g {
        SameList(x.lists, g, e, i);
        NextOf(nodes, x.lists[g], e);
      } else {
        OtherList(x, sigs, e, g, h);
        OtherListKept(x.lists, g, e, h, i);
        assert next != Some(e);
      }
    }
  }

  /** A place before or behind the element is the same place once `e` is put in behind it. */
  lemma SuffixInserted<T(!new)>(q: seq<T>, i: nat, at: T, e: T) returns (j: nat, now: seq<T>)
    requires Distinct(q) && at in q && e !in q && i <= |q|
    ensures var r := InsertAfter(q, at, e);
      j <= |r| && now == r[j..] && At(r, j) == At(q, i) && Without(now, e) == q[i..]
  {
    hide InsertAfter, Without, IndexOf, Distinct;
    var r, k := InsertAfter(q, at, e), IndexOf(q, at);
    InsertIs(q, at, e);
    Spliced(q, k, e);
    if i <= k {
      j, now := i, r[i..];
      var a, b := q[i..k + 1], q[k + 1..];
      assert now == a + [e] + b && q[i..] == a + b;
      WithoutNew(a, e, b);
    } else {
      j, now := i + 1, r[i + 1..];
      assert now == q[i..];
      KeptAll(now, e);
    }
  }

  lemma {:induction false} WithoutNew<T(!new)>(a: seq<T>, e: T, b: seq<T>)
    requires e !in a && e !in b
    ensures Without(a + [e] + b, e) == a + b
  {
    hide Without;
    var q := a + [e] + b;
    if a == [] {
      assert q == [e] + b && q[1..] == b && a + b == b;
      WithoutFirst(q, e);
      KeptAll(b, e);
    } else {
      assert q[1..] == a[1..] + [e] + b && q[0] == a[0];
      WithoutFirst(q, e);
      WithoutNew(a[1..], e, b);
      assert a + b == [a[0]] + (a[1..] + b);
    }
  }

  /** A membership comes: the iterator keeps its place, and the new one may or may not be still to come. */
  lemma IdsWith(x: Index, sigs: map<Id, Sig>, e: Id, g: Sig, next: Option<Id>, ids: seq<Id>) returns (now: seq<Id>)
    requires X.Inv(x, sigs) && e !in sigs && IdsRest(x.lists, next, ids)
    ensures g in x.tree ==> g in x.lists && x.tree[g] in x.lists[g]
    ensures IdsRest(Add(x, e, g).lists, next, now) && Without(now, e) == ids
  {
    hide Without, IndexOf, InsertAfter, X.Inv;
    AddKeeps(x, sigs, e, g);
    IdsKnown(x, sigs, next, ids);
    KeptAll(ids, e);
    now := ids;
    if ids != [] || next.Some? {
      var y := Add(x, e, g);
      var h, i :| h in x.lists && 0 <= i <= |x.lists[h]| && ids == x.lists[h][i..] && next == At(x.lists[h], i);
      ListOf(x, sigs, h);
      if h == g {
        var j;
        j, now := SuffixInserted(x.lists[g], i, x.tree[g], e);
        assert y.lists[g][j..] == now;
      } else {
        assert h in y.lists && y.lists[h][i..] == ids;
      }
    }
  }

  lemma ListOf(x: Index, sigs: map<Id, Sig>, h: Sig)
    requires X.Inv(x, sigs) && h in x.lists
    ensures h in x.tree && Distinct(x.lists[h]) && forall d :: d in x.lists[h] ==> d in sigs
  {
    assert ListOk(x, sigs, h);
  }

  /** A peer comes last: a flood that has not passed the last peer yet goes on to it. */
  lemma FloodWith(peers: seq<PeerId>, next: Option<PeerId>, rest: seq<PeerId>, p: PeerId)
    requires FloodRest(peers, next, rest)
    ensures FloodRest(peers + [p], next, if next.Some? then rest + [p] else rest)
  {
    var i := FloodPlace(peers, next, rest);
    var j := if next.Some? then i else i + 1;
    FloodAt(peers + [p], j);
    assert (peers + [p])[j..] == if next.Some? then rest + [p] else rest;
  }

  lemma NextOf(nodes: map<Id, Node<Id>>, q: seq<Id>, e: Id)
    requires Linked(nodes, q) && e in q
    ensures e in nodes && nodes[e].next == At(q, IndexOf(q, e) + 1)
  {
    var k := IndexOf(q, e);
    assert nodes[q[k]] == NodeAt(q, k);
  }

  /** One entry of a peer less makes no difference once all the peer's are left out. */
  lemma {:induction false} OwnEntry(ids: seq<Id>, e: Id)
    ensures Without(F.PeersOf(Without(ids, e)), e.peer) == Without(F.PeersOf(ids), e.peer)
  {
    if ids != [] {
      OwnEntry(ids[1..], e);
      var r := F.PeersOf(ids);
      assert r[1..] == F.PeersOf(ids[1..]);
      if ids[0] != e {
        var w := Without(ids, e);
        assert w == [ids[0]] + Without(ids[1..], e) && F.PeersOf(w)[1..] == F.PeersOf(Without(ids[1..], e));
      }
    }
  }

  /** What is handed out is of the present memberships. */
  lemma IdsKnown(x: Index, sigs: map<Id, Sig>, next: Option<Id>, ids: seq<Id>)
    requires X.Inv(x, sigs) && IdsRest(x.lists, next, ids)
    ensures forall d :: d in ids ==> d in sigs
  {
    if ids != [] {
      var g, i :| g in x.lists && 0 <= i <= |x.lists[g]| && ids == x.lists[g][i..] && next == At(x.lists[g], i);
      assert ListOk(x, sigs, g);
    }
  }

  /** Once the peer has no membership left, none of its entries is handed out. */
  lemma PeerGone(x: Index, sigs: map<Id, Sig>, next: Option<Id>, kept: seq<Id>, p: PeerId)
    requires X.Inv(x, sigs) && IdsRest(x.lists, next, kept) && forall k :: Id(p, k) !in sigs
    ensures MemberRest(x.lists, next, Without(F.PeersOf(kept), p))
  {
    hide X.Inv, IdsRest, Without;
    IdsKnown(x, sigs, next, kept);
    forall i | 0 <= i < |kept|
      ensures kept[i].peer != p
    {
      assert kept[i] in kept && kept[i] == Id(kept[i].peer, kept[i].slot);
    }
    KeptAll(F.PeersOf(kept), p);
  }
}
