/** The multicast groups each peer has joined, with the index that tells who gets a multicast frame. */
module GroupTable {
  import opened Seqs
  import opened EntryPool
  import opened Multicast

  /** A group address, as a 32-bit number. */
  type Group = nat

  /** The last 23 bits of the address: all that a multicast hardware address tells (section 6.4 of RFC 1112). */
  function SigOf(g: Group): Sig { g % 0x80_0000 }

  datatype Member = Member(group: Group, endtime: int)

  datatype Peer = Peer(pool: Pool, tree: map<Group, Slot>)

  datatype Groups = Groups(peers: map<PeerId, Peer>, joined: map<Id, Member>, index: Index)

  function Sigs(joined: map<Id, Member>): map<Id, Sig> {
    map e | e in joined :: SigOf(joined[e].group)
  }

  // ----- what is always true -----

  /** The used entries are the joined ones, and the peer's tree finds each by its group. */
  ghost predicate PeerOk(o: Peer, joined: map<Id, Member>, p: PeerId, max: nat) {
    && Pooled(o.pool, max)
    && (forall k :: k in o.pool.used <==> Id(p, k) in joined)
    && (forall k :: k in o.pool.used ==> joined[Id(p, k)].group in o.tree && o.tree[joined[Id(p, k)].group] == k)
    && (forall g :: g in o.tree ==> o.tree[g] in o.pool.used && joined[Id(p, o.tree[g])].group == g)
  }

  ghost predicate PeersOk(peers: map<PeerId, Peer>, joined: map<Id, Member>, max: nat) {
    && (forall p :: p in peers ==> PeerOk(peers[p], joined, p, max))
    && (forall e :: e in joined ==> e.peer in peers)
  }

  ghost predicate Inv(s: Groups, max: nat) {
    && PeersOk(s.peers, s.joined, max)
    && Multicast.Inv(s.index, Sigs(s.joined))
  }

  /** An entry in use is the one its peer's tree has for its group. */
  lemma EntryOf(s: Groups, e: Id, max: nat)
    requires Inv(s, max) && e in s.joined
    ensures e.peer in s.peers && s.joined[e].group in s.peers[e.peer].tree
    ensures Id(e.peer, s.peers[e.peer].tree[s.joined[e].group]) == e
  {
    hide Multicast.Inv, Pooled;
    assert PeerOk(s.peers[e.peer], s.joined, e.peer, max) && e == Id(e.peer, e.slot);
  }

  // ----- the operations -----

  /** The membership leaves the index; the peer's own lists are another matter. */
  function Drop(s: Groups, e: Id): Groups
    requires e in s.joined && SigOf(s.joined[e].group) in s.index.lists
    requires e in s.index.lists[SigOf(s.joined[e].group)] && e in s.index.isMaster
  {
    s.(joined := s.joined - {e}, index := Remove(s.index, e, SigOf(s.joined[e].group)))
  }

  lemma DropIndex(s: Groups, e: Id)
    requires Multicast.Inv(s.index, Sigs(s.joined)) && e in s.joined
    ensures SigOf(s.joined[e].group) in s.index.lists
    ensures e in s.index.lists[SigOf(s.joined[e].group)] && e in s.index.isMaster
    ensures Multicast.Inv(Drop(s, e).index, Sigs(Drop(s, e).joined))
  {
    RemoveKeeps(s.index, Sigs(s.joined), e);
    assert Sigs(s.joined - {e}) == Sigs(s.joined) - {e};
  }

  /** A peer is not affected by what other peers join and leave. */
  lemma OtherPeer(o: Peer, joined: map<Id, Member>, after: map<Id, Member>, p: PeerId, max: nat)
    requires PeerOk(o, joined, p, max)
    requires forall k :: Id(p, k) in after <==> Id(p, k) in joined
    requires forall k :: Id(p, k) in joined ==> after[Id(p, k)].group == joined[Id(p, k)].group
    ensures PeerOk(o, after, p, max)
  {
  }

  /** Only the entries of `p` differ, and `p` is in order: then all peers are. */
  lemma OnePeer(s: Groups, x: Peer, after: map<Id, Member>, p: PeerId, max: nat)
    requires PeersOk(s.peers, s.joined, max) && PeerOk(x, after, p, max)
    requires forall e: Id :: e.peer != p ==> (e in after <==> e in s.joined) && (e in s.joined ==> after[e].group == s.joined[e].group)
    ensures PeersOk(s.peers[p := x], after, max)
  {
    hide PeerOk;
    forall q | q in s.peers && q != p
      ensures PeerOk(s.peers[q], after, q, max)
    {
      OtherPeer(s.peers[q], s.joined, after, q, max);
    }
  }

  /** What the invariant says of one peer and one of its groups. */
  lemma PeerIn(s: Groups, p: PeerId, max: nat)
    requires PeersOk(s.peers, s.joined, max) && p in s.peers
    ensures PeerOk(s.peers[p], s.joined, p, max) && Pooled(s.peers[p].pool, max)
    ensures forall g :: g in s.peers[p].tree ==>
      Id(p, s.peers[p].tree[g]) in s.joined && s.joined[Id(p, s.peers[p].tree[g])].group == g
  {
  }

  // ----- leaving -----

  function Left(o: Peer, k: Slot, g: Group): Peer {
    Peer(Release(o.pool, k), o.tree - {g})
  }

  lemma LeftOk(o: Peer, joined: map<Id, Member>, e: Id, max: nat)
    requires PeerOk(o, joined, e.peer, max) && e in joined
    ensures PeerOk(Left(o, e.slot, joined[e].group), joined - {e}, e.peer, max)
  {
    hide Pooled;
    assert e == Id(e.peer, e.slot);
    ReleasePooled(o.pool, e.slot, max);
  }

  /** The group is no longer joined; its entry is free. */
  function Leave(s: Groups, e: Id, max: nat): (t: Groups)
    requires Inv(s, max) && e in s.joined
    ensures Inv(t, max)
  {
    hide Multicast.Inv, Remove, PeerOk, Pooled;
    DropIndex(s, e);
    assert e.peer in s.peers;
    PeerIn(s, e.peer, max);
    var x := Left(s.peers[e.peer], e.slot, s.joined[e].group);
    LeftOk(s.peers[e.peer], s.joined, e, max);
    OnePeer(s, x, s.joined - {e}, e.peer, max);
    Drop(s, e).(peers := s.peers[e.peer := x])
  }

  // ----- joining -----

  /** A group joined again keeps its entry, which becomes the most recent. */
  function Rejoin(s: Groups, p: PeerId, g: Group, endtime: int): Groups
    requires p in s.peers && g in s.peers[p].tree
  {
    var o, k := s.peers[p], s.peers[p].tree[g];
    s.(peers := s.peers[p := o.(pool := Touch(o.pool, k))], joined := s.joined[Id(p, k) := Member(g, endtime)])
  }

  lemma RejoinKeeps(s: Groups, p: PeerId, g: Group, endtime: int, max: nat)
    requires Inv(s, max) && p in s.peers && g in s.peers[p].tree
    ensures Inv(Rejoin(s, p, g, endtime), max)
  {
    hide Multicast.Inv, PeerOk, PeersOk, Pooled;
    PeerIn(s, p, max);
    var o, k := s.peers[p], s.peers[p].tree[g];
    var x, after := o.(pool := Touch(o.pool, k)), s.joined[Id(p, k) := Member(g, endtime)];
    TouchOk(o, s.joined, p, g, endtime, max);
    OnePeer(s, x, after, p, max);
    assert Sigs(after) == Sigs(s.joined);
  }

  lemma TouchOk(o: Peer, joined: map<Id, Member>, p: PeerId, g: Group, endtime: int, max: nat)
    requires PeerOk(o, joined, p, max) && g in o.tree
    ensures PeerOk(o.(pool := Touch(o.pool, o.tree[g])), joined[Id(p, o.tree[g]) := Member(g, endtime)], p, max)
  {
    hide Pooled, Touch;
    TouchPooled(o.pool, o.tree[g], max);
  }

  /** The least recently seen group makes room. */
  function Evicted(o: Peer, g: Group): Peer {
    o.(tree := o.tree - {g})
  }

  /** The peer with an entry taken for group `g`; the taken entry must not be joined any more. */
  function Joined(o: Peer, g: Group): Peer
    requires o.pool.free != [] || o.pool.used != []
  {
    Peer(Take(o.pool), o.tree[g := Taken(o.pool)])
  }

  lemma JoinedOk(o: Peer, joined: map<Id, Member>, p: PeerId, g: Group, endtime: int, max: nat)
    requires PeerOk(o, joined, p, max) && max > 0 && g !in o.tree && (o.pool.free != [] || o.pool.used != [])
    ensures var e := Id(p, Taken(o.pool));
      && (e in joined <==> o.pool.free == [])
      && PeerOk(Joined(if e in joined then Evicted(o, joined[e].group) else o, g), joined[e := Member(g, endtime)], p, max)
  {
    hide Pooled, Take, Taken, Kept;
    TakePooled(o.pool, max);
  }

  /** A group joined for the first time takes a free entry, or else that of the least recently seen group. */
  function Enter(s: Groups, p: PeerId, g: Group, endtime: int): Groups
    requires p in s.peers && (s.peers[p].pool.free != [] || s.peers[p].pool.used != []) && Evictable(s, p)
    requires Addable(Cleared(s, p).index, SigOf(g))
  {
    var o, e, was := s.peers[p], Id(p, Taken(s.peers[p].pool)), Cleared(s, p);
    Groups(
      s.peers[p := Joined(if o.pool.free == [] then Evicted(o, s.joined[e].group) else o, g)],
      was.joined[e := Member(g, endtime)],
      Add(was.index, e, SigOf(g)))
  }

  predicate Evictable(s: Groups, p: PeerId)
    requires p in s.peers && (s.peers[p].pool.free != [] || s.peers[p].pool.used != [])
  {
    var e := Id(p, Taken(s.peers[p].pool));
    s.peers[p].pool.free == [] ==>
      && e in s.joined && SigOf(s.joined[e].group) in s.index.lists
      && e in s.index.lists[SigOf(s.joined[e].group)] && e in s.index.isMaster
  }

  predicate Addable(x: Index, g: Sig) {
    g in x.tree ==> g in x.lists && x.tree[g] in x.lists[g]
  }

  /** The entry to be taken is out of the index. */
  function Cleared(s: Groups, p: PeerId): Groups
    requires p in s.peers && (s.peers[p].pool.free != [] || s.peers[p].pool.used != []) && Evictable(s, p)
  {
    if s.peers[p].pool.free == [] then Drop(s, Id(p, Taken(s.peers[p].pool))) else s
  }

  lemma ClearedIndex(s: Groups, p: PeerId, g: Group, max: nat)
    requires Inv(s, max) && max > 0 && p in s.peers
    ensures s.peers[p].pool.free != [] || s.peers[p].pool.used != []
    ensures Evictable(s, p) && Addable(Cleared(s, p).index, SigOf(g))
    ensures Id(p, Taken(s.peers[p].pool)) !in Cleared(s, p).joined
    ensures Multicast.Inv(Cleared(s, p).index, Sigs(Cleared(s, p).joined))
  {
    hide Multicast.Inv, Remove, PeerOk, PeersOk, Pooled, Add, Taken;
    PeerIn(s, p, max);
    TakePooled(s.peers[p].pool, max);
    var e := Id(p, Taken(s.peers[p].pool));
    UsedJoined(s.peers[p], s.joined, p, Taken(s.peers[p].pool), max);
    if s.peers[p].pool.free == [] {
      DropIndex(s, e);
    }
    AddKeeps(Cleared(s, p).index, Sigs(Cleared(s, p).joined), e, SigOf(g));
  }

  lemma UsedJoined(o: Peer, joined: map<Id, Member>, p: PeerId, k: Slot, max: nat)
    requires PeerOk(o, joined, p, max)
    ensures k in o.pool.used <==> Id(p, k) in joined
  {
  }

  lemma EnterKeeps(s: Groups, p: PeerId, g: Group, endtime: int, max: nat)
    requires Inv(s, max) && max > 0 && p in s.peers && g !in s.peers[p].tree
    ensures s.peers[p].pool.free != [] || s.peers[p].pool.used != []
    ensures Evictable(s, p) && Addable(Cleared(s, p).index, SigOf(g))
    ensures Inv(Enter(s, p, g, endtime), max)
  {
    hide Multicast.Inv, Remove, PeerOk, PeersOk, Pooled, Add, Taken;
    ClearedIndex(s, p, g, max);
    PeerIn(s, p, max);
    var o, e, was := s.peers[p], Id(p, Taken(s.peers[p].pool)), Cleared(s, p);
    JoinedOk(o, s.joined, p, g, endtime, max);
    var after := was.joined[e := Member(g, endtime)];
    assert after == s.joined[e := Member(g, endtime)];
    OnePeer(s, Joined(if e in s.joined then Evicted(o, s.joined[e].group) else o, g), after, p, max);
    AddKeeps(was.index, Sigs(was.joined), e, SigOf(g));
    assert Sigs(after) == Sigs(was.joined)[e := SigOf(g)];
  }

  function Join(s: Groups, p: PeerId, g: Group, endtime: int, max: nat): (t: Groups)
    requires Inv(s, max) && max > 0 && p in s.peers
    ensures Inv(t, max)
  {
    if g in s.peers[p].tree then
      RejoinKeeps(s, p, g, endtime, max);
      Rejoin(s, p, g, endtime)
    else
      EnterKeeps(s, p, g, endtime, max);
      Enter(s, p, g, endtime)
  }

  /** Only the entry of the peer for the group has a new end; all others are as they were. */
  lemma JoinEntries(s: Groups, p: PeerId, g: Group, endtime: int, max: nat)
    requires Inv(s, max) && max > 0 && p in s.peers
    ensures var t := Join(s, p, g, endtime, max); forall x :: x in t.joined ==>
      if x.peer == p && t.joined[x].group == g then t.joined[x] == Member(g, endtime)
      else x in s.joined && t.joined[x] == s.joined[x]
  {
    hide Inv, Add, Remove, Pooled, Taken;
    var t := Join(s, p, g, endtime, max);
    if g in s.peers[p].tree {
      var k := s.peers[p].tree[g];
      forall x | x in t.joined && x != Id(p, k)
        ensures !(x.peer == p && t.joined[x].group == g)
      {
        EntryOf(s, x, max);
      }
    } else {
      EnterKeeps(s, p, g, endtime, max);
      forall x | x in t.joined && x != Id(p, Taken(s.peers[p].pool))
        ensures x in s.joined && t.joined[x] == s.joined[x] && !(x.peer == p && t.joined[x].group == g)
      {
        EntryOf(s, x, max);
      }
    }
  }

  // ----- peers come and go -----

  function AddPeer(s: Groups, p: PeerId, max: nat): (t: Groups)
    requires Inv(s, max) && p !in s.peers
    ensures Inv(t, max)
  {
    var x := Peer(Fresh(max), map[]);
    FreshOk(s, p, max);
    OnePeer(s, x, s.joined, p, max);
    s.(peers := s.peers[p := x])
  }

  lemma FreshOk(s: Groups, p: PeerId, max: nat)
    requires PeersOk(s.peers, s.joined, max) && p !in s.peers
    ensures PeerOk(Peer(Fresh(max), map[]), s.joined, p, max)
  {
    hide PeerOk, Pooled;
    assert forall k :: Id(p, k) in s.joined ==> Id(p, k).peer in s.peers;
    FreshPeer(s.joined, p, max);
  }

  lemma FreshPeer(joined: map<Id, Member>, p: PeerId, max: nat)
    requires forall k :: Id(p, k) !in joined
    ensures PeerOk(Peer(Fresh(max), map[]), joined, p, max)
  {
  }

  /** The memberships left when the listed entries of peer `p` are gone. */
  ghost predicate Gone(joined: map<Id, Member>, p: PeerId, q: seq<Slot>, after: map<Id, Member>) {
    && (forall e :: e in after <==> e in joined && !(e.peer == p && e.slot in q))
    && (forall e :: e in after ==> after[e] == joined[e])
  }

  /** The peer's listed entries leave the index one by one. */
  function DropAll(s: Groups, p: PeerId, q: seq<Slot>): (t: Groups)
    requires Multicast.Inv(s.index, Sigs(s.joined)) && Distinct(q) && forall k :: k in q ==> Id(p, k) in s.joined
    ensures Multicast.Inv(t.index, Sigs(t.joined)) && t.peers == s.peers
    decreases |q|
  {
    if q == [] then s
    else
      FirstDropped(s, p, q);
      DropAll(Drop(s, Id(p, q[0])), p, q[1..])
  }

  lemma FirstDropped(s: Groups, p: PeerId, q: seq<Slot>)
    requires Multicast.Inv(s.index, Sigs(s.joined)) && Distinct(q) && q != [] && forall k :: k in q ==> Id(p, k) in s.joined
    ensures SigOf(s.joined[Id(p, q[0])].group) in s.index.lists
    ensures Id(p, q[0]) in s.index.lists[SigOf(s.joined[Id(p, q[0])].group)] && Id(p, q[0]) in s.index.isMaster
    ensures Multicast.Inv(Drop(s, Id(p, q[0])).index, Sigs(Drop(s, Id(p, q[0])).joined))
    ensures forall k :: k in q[1..] ==> Id(p, k) in Drop(s, Id(p, q[0])).joined
  {
    hide Multicast.Inv, Remove;
    DropIndex(s, Id(p, q[0]));
    assert q[0] !in q[1..];
  }

  lemma {:induction false} DropAllExact(s: Groups, p: PeerId, q: seq<Slot>)
    requires Multicast.Inv(s.index, Sigs(s.joined)) && Distinct(q) && forall k :: k in q ==> Id(p, k) in s.joined
    ensures Gone(s.joined, p, q, DropAll(s, p, q).joined)
    decreases |q|
  {
    hide Multicast.Inv, Remove;
    if q != [] {
      FirstDropped(s, p, q);
      var m := Drop(s, Id(p, q[0]));
      DropAllExact(m, p, q[1..]);
    }
  }

  function RemovePeer(s: Groups, p: PeerId, max: nat): (t: Groups)
    requires Inv(s, max) && p in s.peers
    ensures Inv(t, max) && t.peers == s.peers - {p}
    ensures t.joined == map e | e in s.joined && e.peer != p :: s.joined[e]
  {
    UsedAll(s, p, max);
    RemovePeerOk(s, p, max);
    DropAll(s, p, s.peers[p].pool.used).(peers := s.peers - {p})
  }

  /** The used entries are all the memberships of the peer. */
  lemma UsedAll(s: Groups, p: PeerId, max: nat)
    requires Inv(s, max) && p in s.peers
    ensures Distinct(s.peers[p].pool.used) && forall k :: k in s.peers[p].pool.used <==> Id(p, k) in s.joined
  {
    hide Multicast.Inv;
    assert PeerOk(s.peers[p], s.joined, p, max);
  }

  lemma RemovePeerOk(s: Groups, p: PeerId, max: nat)
    requires Inv(s, max) && p in s.peers && Distinct(s.peers[p].pool.used)
    requires forall k :: k in s.peers[p].pool.used <==> Id(p, k) in s.joined
    ensures PeersOk(s.peers - {p}, DropAll(s, p, s.peers[p].pool.used).joined, max)
    ensures DropAll(s, p, s.peers[p].pool.used).joined == map e | e in s.joined && e.peer != p :: s.joined[e]
  {
    hide Multicast.Inv, Drop, PeerOk, DropAll;
    DropAllExact(s, p, s.peers[p].pool.used);
    var after := DropAll(s, p, s.peers[p].pool.used).joined;
    forall e | e in s.joined && e.peer == p
      ensures e !in after
    {
      assert e == Id(p, e.slot);
    }
    forall q | q in s.peers && q != p
      ensures PeerOk(s.peers[q], after, q, max)
    {
      OtherPeer(s.peers[q], s.joined, after, q, max);
    }
  }

  // ----- queries -----

  /** The memberships a multicast frame goes to. */
  function Listeners(s: Groups, g: Sig): seq<Id>
    requires g in s.index.tree ==> g in s.index.lists
  {
    if g in s.index.tree then s.index.lists[g] else []
  }

  /** They are exactly the joined groups with the signature of the frame, each once. */
  lemma ListenersExact(s: Groups, g: Sig, max: nat)
    requires Inv(s, max)
    ensures g in s.index.tree ==> g in s.index.lists
    ensures Distinct(Listeners(s, g))
    ensures forall e :: e in Listeners(s, g) <==> e in s.joined && SigOf(s.joined[e].group) == g
  {
    hide PeersOk;
    if g in s.index.tree {
      assert ListOk(s.index, Sigs(s.joined), g);
    }
    forall e | e in s.joined && SigOf(s.joined[e].group) == g
      ensures e in Listeners(s, g)
    {
      assert MasterOk(s.index, Sigs(s.joined), e);
    }
  }

  function LowerOne(joined: map<Id, Member>, e: Id, g: Group, limit: int): map<Id, Member> {
    if e in joined && joined[e].group == g && joined[e].endtime > limit then joined[e := Member(g, limit)] else joined
  }

  /** A query for the group brings its timers forward, entry by entry along the list. */
  function Lowered(joined: map<Id, Member>, q: seq<Id>, g: Group, limit: int): map<Id, Member> {
    if q == [] then joined else LowerOne(Lowered(joined, q[..|q| - 1], g, limit), q[|q| - 1], g, limit)
  }

  lemma LoweredNext(joined: map<Id, Member>, q: seq<Id>, i: nat, g: Group, limit: int)
    requires i < |q|
    ensures Lowered(joined, q[..i + 1], g, limit) == LowerOne(Lowered(joined, q[..i], g, limit), q[i], g, limit)
  {
    assert q[..i + 1][..i] == q[..i];
  }

  lemma {:induction false} LoweredExact(joined: map<Id, Member>, q: seq<Id>, g: Group, limit: int)
    ensures Lowered(joined, q, g, limit).Keys == joined.Keys
    ensures forall e :: e in joined ==> (Lowered(joined, q, g, limit)[e] ==
      if e in q && joined[e].group == g && joined[e].endtime > limit then Member(g, limit) else joined[e])
  {
    if q != [] {
      LoweredExact(joined, q[..|q| - 1], g, limit);
      assert q == q[..|q| - 1] + [q[|q| - 1]];
    }
  }

  function Query(s: Groups, g: Group, limit: int, max: nat): (t: Groups)
    requires Inv(s, max)
    ensures Inv(t, max)
  {
    QueryOk(s, g, limit, max);
    s.(joined := Lowered(s.joined, Listeners(s, SigOf(g)), g, limit))
  }

  /** Every member of the group, of whatever peer, is brought forward, and nobody else. */
  lemma QueryOk(s: Groups, g: Group, limit: int, max: nat)
    requires Inv(s, max)
    ensures SigOf(g) in s.index.tree ==> SigOf(g) in s.index.lists
    ensures Distinct(Listeners(s, SigOf(g))) && forall e :: e in Listeners(s, SigOf(g)) ==> e in s.joined
    ensures var after := Lowered(s.joined, Listeners(s, SigOf(g)), g, limit);
      && Inv(s.(joined := after), max) && after.Keys == s.joined.Keys
      && forall e :: e in s.joined ==> (after[e] ==
           if s.joined[e].group == g && s.joined[e].endtime > limit then Member(g, limit) else s.joined[e])
  {
    hide PeersOk, Multicast.Inv, SigOf;
    ListenersExact(s, SigOf(g), max);
    LoweredExact(s.joined, Listeners(s, SigOf(g)), g, limit);
    SameGroups(s, s.(joined := Lowered(s.joined, Listeners(s, SigOf(g)), g, limit)), max);
  }

  lemma SameGroups(s: Groups, t: Groups, max: nat)
    requires Inv(s, max) && t.peers == s.peers && t.index == s.index && t.joined.Keys == s.joined.Keys
    requires forall e :: e in s.joined ==> t.joined[e].group == s.joined[e].group
    ensures Inv(t, max)
  {
    hide PeerOk, Multicast.Inv;
    forall q | q in s.peers
      ensures PeerOk(s.peers[q], t.joined, q, max)
    {
      OtherPeer(s.peers[q], s.joined, t.joined, q, max);
    }
    assert Sigs(t.joined) == Sigs(s.joined);
  }

  // ----- the bounded lists the tables implement -----

  function GroupMap(o: Peer, joined: map<Id, Member>, p: PeerId): map<Slot, Group> {
    map k | k in o.pool.used && Id(p, k) in joined :: joined[Id(p, k)].group
  }

  /** The groups a peer has joined, least recently reported first. */
  function GroupList(s: Groups, p: PeerId): seq<Group>
    requires p in s.peers && forall k :: k in s.peers[p].pool.used ==> Id(p, k) in s.joined
  {
    Keys(s.peers[p].pool.used, GroupMap(s.peers[p], s.joined, p))
  }

  /** A peer whose entries are as they were has the list it had. */
  lemma SameList(s: Groups, t: Groups, p: PeerId)
    requires p in s.peers && p in t.peers && t.peers[p] == s.peers[p]
    requires forall k :: k in s.peers[p].pool.used ==> Id(p, k) in s.joined && Id(p, k) in t.joined
    requires forall k :: k in s.peers[p].pool.used ==> t.joined[Id(p, k)].group == s.joined[Id(p, k)].group
    ensures GroupList(t, p) == GroupList(s, p)
  {
    KeysSame(s.peers[p].pool.used, GroupMap(t.peers[p], t.joined, p), GroupMap(s.peers[p], s.joined, p));
  }

  /** The entry of a group is the one the tree finds, so no two entries of a peer have the same group. */
  lemma ListedGroups(s: Groups, p: PeerId, max: nat)
    requires Inv(s, max) && p in s.peers
    ensures forall k :: k in s.peers[p].pool.used ==> Id(p, k) in s.joined
    ensures var o, m := s.peers[p], GroupMap(s.peers[p], s.joined, p);
      && (forall g :: g in o.tree ==> o.tree[g] in o.pool.used && m[o.tree[g]] == g)
      && (forall k :: k in o.pool.used ==> m[k] in o.tree && o.tree[m[k]] == k)
    ensures forall g :: g in GroupList(s, p) <==> g in s.peers[p].tree
  {
    hide Multicast.Inv;
    var o, m := s.peers[p], GroupMap(s.peers[p], s.joined, p);
    assert PeerOk(o, s.joined, p, max);
    forall g
      ensures g in GroupList(s, p) <==> g in o.tree
    {
      KeysHold(o.pool.used, m, g);
    }
  }

  lemma RejoinRefines(s: Groups, p: PeerId, g: Group, endtime: int, max: nat)
    requires Inv(s, max) && p in s.peers && g in s.peers[p].tree
    ensures forall k :: k in Rejoin(s, p, g, endtime).peers[p].pool.used ==> Id(p, k) in Rejoin(s, p, g, endtime).joined
    ensures GroupList(Rejoin(s, p, g, endtime), p) == Refreshed(GroupList(s, p), g, max)
  {
    hide Multicast.Inv, PeerOk, PeersOk, Pooled;
    PeerIn(s, p, max);
    ListedGroups(s, p, max);
    var o, m, t := s.peers[p], GroupMap(s.peers[p], s.joined, p), Rejoin(s, p, g, endtime);
    TouchRefreshes(o.pool, m, o.tree[g], max);
    KeysSame(t.peers[p].pool.used, m, GroupMap(t.peers[p], t.joined, p));
  }

  lemma EnterRefines(s: Groups, p: PeerId, g: Group, endtime: int, max: nat)
    requires Inv(s, max) && max > 0 && p in s.peers && g !in s.peers[p].tree
    ensures s.peers[p].pool.free != [] || s.peers[p].pool.used != []
    ensures Evictable(s, p) && Addable(Cleared(s, p).index, SigOf(g))
    ensures forall k :: k in Enter(s, p, g, endtime).peers[p].pool.used ==> Id(p, k) in Enter(s, p, g, endtime).joined
    ensures GroupList(Enter(s, p, g, endtime), p) == Refreshed(GroupList(s, p), g, max)
  {
    hide Multicast.Inv, PeerOk, PeersOk, Pooled, Add, Remove, Taken, Take;
    PeerIn(s, p, max);
    ListedGroups(s, p, max);
    EnterKeeps(s, p, g, endtime, max);
    TakePooled(s.peers[p].pool, max);
    var o, m, t := s.peers[p], GroupMap(s.peers[p], s.joined, p), Enter(s, p, g, endtime);
    ListedGroups(t, p, max);
    TakeRefreshes(o.pool, m, g, max);
    KeysSame(t.peers[p].pool.used, m[Taken(o.pool) := g], GroupMap(t.peers[p], t.joined, p));
  }

  /** Joining refreshes the peer's own list of at most `max` groups: only its own oldest group may have to go. */
  lemma JoinRefines(s: Groups, p: PeerId, g: Group, endtime: int, max: nat, q: PeerId)
    requires Inv(s, max) && max > 0 && p in s.peers && q in s.peers
    ensures q in Join(s, p, g, endtime, max).peers
    ensures GroupList(Join(s, p, g, endtime, max), q) == if q == p then Refreshed(GroupList(s, p), g, max) else GroupList(s, q)
  {
    hide Multicast.Inv, PeerOk, PeersOk, Pooled, Add, Remove, Taken, Take;
    ListedGroups(s, q, max);
    if g in s.peers[p].tree {
      RejoinRefines(s, p, g, endtime, max);
    } else {
      EnterRefines(s, p, g, endtime, max);
    }
    var t := Join(s, p, g, endtime, max);
    ListedGroups(t, q, max);
    if q != p {
      KeysSame(s.peers[q].pool.used, GroupMap(s.peers[q], s.joined, q), GroupMap(t.peers[q], t.joined, q));
    }
  }

  /** Leaving takes the group from its peer's list and changes no other list. */
  lemma LeaveRefines(s: Groups, e: Id, max: nat, q: PeerId)
    requires Inv(s, max) && e in s.joined && q in s.peers
    ensures q in Leave(s, e, max).peers
    ensures GroupList(Leave(s, e, max), q) ==
      if q == e.peer then Without(GroupList(s, q), s.joined[e].group) else GroupList(s, q)
  {
    hide Multicast.Inv, PeerOk, Pooled, Remove;
    ListedGroups(s, q, max);
    DropIndex(s, e);
    var t := Leave(s, e, max);
    ListedGroups(t, q, max);
    var m := GroupMap(s.peers[q], s.joined, q);
    if q == e.peer {
      assert e == Id(q, e.slot);
      UsedAll(s, q, max);
      KeysWithout(s.peers[q].pool.used, m, e.slot);
    }
    KeysSame(t.peers[q].pool.used, m, GroupMap(t.peers[q], t.joined, q));
  }
}
