/** Which peer owns which hardware address.  All used entries of all peers are indexed by address in one tree. */
module MacTable {
  import opened Seqs
  import opened EntryPool

  type PeerId = nat
  type Mac = nat

  datatype Owner = Owner(pool: Pool, mac: map<Slot, Mac>)

  datatype Entry = Entry(peer: PeerId, slot: Slot)

  datatype Table = Table(owners: map<PeerId, Owner>, tree: map<Mac, Entry>)

  // ----- what is always true -----

  ghost predicate OwnersOk(t: Table, max: nat) {
    forall p :: p in t.owners ==>
      Pooled(t.owners[p].pool, max) && forall k :: k in t.owners[p].pool.used ==> k in t.owners[p].mac
  }

  ghost predicate Listed(t: Table, m: Mac, e: Entry) {
    && e.peer in t.owners && e.slot in t.owners[e.peer].pool.used
    && e.slot in t.owners[e.peer].mac && t.owners[e.peer].mac[e.slot] == m
  }

  /** The tree is the union of the used lists; so an address has at most one owner. */
  ghost predicate TreeOk(t: Table) {
    && (forall m :: m in t.tree ==> Listed(t, m, t.tree[m]))
    && (forall m, e :: Listed(t, m, e) ==> m in t.tree && t.tree[m] == e)
  }

  ghost predicate Inv(t: Table, max: nat) {
    OwnersOk(t, max) && TreeOk(t)
  }

  // ----- learning an address -----

  function SetOwner(t: Table, p: PeerId, o: Owner): Table {
    t.(owners := t.owners[p := o])
  }

  /** The peer that owned the address gives it up. */
  function Disown(t: Table, m: Mac): Table
    requires m in t.tree && t.tree[m].peer in t.owners
  {
    var e := t.tree[m];
    SetOwner(t.(tree := t.tree - {m}), e.peer, t.owners[e.peer].(pool := Release(t.owners[e.peer].pool, e.slot)))
  }

  /** An entry of the peer is taken for the address; if it was in use, the address it had is forgotten. */
  function Claim(t: Table, p: PeerId, m: Mac): Table
    requires p in t.owners && (t.owners[p].pool.free != [] || t.owners[p].pool.used != [])
    requires forall k :: k in t.owners[p].pool.used ==> k in t.owners[p].mac
  {
    var o, k := t.owners[p], Taken(t.owners[p].pool);
    var tree := if o.pool.free != [] then t.tree else assert k in o.pool.used; t.tree - {o.mac[k]};
    Table(t.owners[p := Owner(Take(o.pool), o.mac[k := m])], tree[m := Entry(p, k)])
  }

  function Learn(t: Table, p: PeerId, m: Mac, max: nat): (r: Table)
    requires Inv(t, max) && max > 0 && p in t.owners
    ensures Inv(r, max)
  {
    if m in t.tree && t.tree[m].peer == p then
      TouchKeeps(t, p, t.tree[m].slot, max);
      SetOwner(t, p, t.owners[p].(pool := Touch(t.owners[p].pool, t.tree[m].slot)))
    else if m in t.tree then
      DisownKeeps(t, m, max);
      ClaimKeeps(Disown(t, m), p, m, max);
      Claim(Disown(t, m), p, m)
    else
      ClaimKeeps(t, p, m, max);
      Claim(t, p, m)
  }

  /** The tree and the lists agree when they agree entry by entry. */
  lemma AgreeByEntry(t: Table)
    requires forall m, e :: Listed(t, m, e) <==> m in t.tree && t.tree[m] == e
    ensures TreeOk(t)
  {
    forall m | m in t.tree
      ensures Listed(t, m, t.tree[m])
    {
      var e := t.tree[m];
      assert Listed(t, m, e) <==> m in t.tree && t.tree[m] == e;
    }
  }

  lemma UsedHaveMacs(t: Table, p: PeerId, max: nat)
    requires Inv(t, max) && p in t.owners
    ensures forall k :: k in t.owners[p].pool.used ==> k in t.owners[p].mac
  {
  }

  lemma TouchKeeps(t: Table, p: PeerId, k: Slot, max: nat)
    requires Inv(t, max) && p in t.owners && k in t.owners[p].pool.used
    ensures Inv(SetOwner(t, p, t.owners[p].(pool := Touch(t.owners[p].pool, k))), max)
  {
    hide Pooled;
    TouchPooled(t.owners[p].pool, k, max);
    var r := SetOwner(t, p, t.owners[p].(pool := Touch(t.owners[p].pool, k)));
    forall m, e
      ensures Listed(r, m, e) <==> m in r.tree && r.tree[m] == e
    {
      assert Listed(r, m, e) <==> Listed(t, m, e);
    }
    AgreeByEntry(r);
  }

  lemma DisownKeeps(t: Table, m: Mac, max: nat)
    requires Inv(t, max) && m in t.tree
    ensures t.tree[m].peer in t.owners && Inv(Disown(t, m), max)
  {
    hide Pooled;
    assert Listed(t, m, t.tree[m]);
    ReleasePooled(t.owners[t.tree[m].peer].pool, t.tree[m].slot, max);
    var r := Disown(t, m);
    forall n, e
      ensures Listed(r, n, e) <==> n in r.tree && r.tree[n] == e
    {
      assert Listed(r, n, e) <==> Listed(t, n, e) && e != t.tree[m];
    }
    AgreeByEntry(r);
  }

  lemma ClaimListed(t: Table, p: PeerId, m: Mac, max: nat, n: Mac, e: Entry)
    requires p in t.owners && Pooled(t.owners[p].pool, max) && max > 0 && (t.owners[p].pool.free != [] || t.owners[p].pool.used != [])
    requires forall k :: k in t.owners[p].pool.used ==> k in t.owners[p].mac
    ensures var k := Taken(t.owners[p].pool);
      && (Listed(Claim(t, p, m), n, e) <==> if e == Entry(p, k) then n == m else Listed(t, n, e))
      && (Listed(t, n, Entry(p, k)) <==> t.owners[p].pool.free == [] && n == t.owners[p].mac[k])
  {
    hide Pooled;
    TakePooled(t.owners[p].pool, max);
  }

  lemma ClaimKeeps(t: Table, p: PeerId, m: Mac, max: nat)
    requires Inv(t, max) && max > 0 && p in t.owners && m !in t.tree
    ensures t.owners[p].pool.free != [] || t.owners[p].pool.used != []
    ensures Inv(Claim(t, p, m), max)
  {
    hide Pooled;
    TakePooled(t.owners[p].pool, max);
    var r := Claim(t, p, m);
    assert OwnersOk(r, max);
    forall n, e
      ensures Listed(r, n, e) <==> n in r.tree && r.tree[n] == e
    {
      hide Listed;
      ClaimListed(t, p, m, max, n, e);
      assert Listed(t, n, e) <==> n in t.tree && t.tree[n] == e;
    }
    AgreeByEntry(r);
  }

  // ----- peers come and go -----

  function AddPeer(t: Table, p: PeerId, max: nat): (r: Table)
    requires Inv(t, max) && p !in t.owners
    ensures Inv(r, max)
  {
    var r := SetOwner(t, p, Owner(Fresh(max), map[]));
    AddPeerTree(t, p, max);
    r
  }

  lemma AddPeerTree(t: Table, p: PeerId, max: nat)
    requires TreeOk(t) && p !in t.owners
    ensures TreeOk(SetOwner(t, p, Owner(Fresh(max), map[])))
  {
    var r := SetOwner(t, p, Owner(Fresh(max), map[]));
    forall m, e
      ensures Listed(r, m, e) <==> m in r.tree && r.tree[m] == e
    {
      assert Listed(r, m, e) <==> Listed(t, m, e);
    }
    AgreeByEntry(r);
  }

  /** The addresses of the listed entries are taken from the tree one by one. */
  function Forget(tree: map<Mac, Entry>, q: seq<Slot>, mac: map<Slot, Mac>): (r: map<Mac, Entry>)
    requires forall k :: k in q ==> k in mac
    ensures r == map m | m in tree && m !in Keys(q, mac) :: tree[m]
  {
    if q == [] then tree else Forget(tree - {mac[q[0]]}, q[1..], mac)
  }

  function RemovePeer(t: Table, p: PeerId, max: nat): (r: Table)
    requires Inv(t, max) && p in t.owners
    ensures Inv(r, max) && r.owners == t.owners - {p}
    ensures r.tree == map m | m in t.tree && t.tree[m].peer != p :: t.tree[m]
  {
    RemovePeerTree(t, p, max);
    Table(t.owners - {p}, Forget(t.tree, t.owners[p].pool.used, t.owners[p].mac))
  }

  lemma RemovePeerTree(t: Table, p: PeerId, max: nat)
    requires Inv(t, max) && p in t.owners
    ensures TreeOk(Table(t.owners - {p}, Forget(t.tree, t.owners[p].pool.used, t.owners[p].mac)))
    ensures Forget(t.tree, t.owners[p].pool.used, t.owners[p].mac) == map m | m in t.tree && t.tree[m].peer != p :: t.tree[m]
  {
    var o := t.owners[p];
    forall m | m in t.tree
      ensures m in Keys(o.pool.used, o.mac) <==> t.tree[m].peer == p
    {
      SeenExact(t, m, p, max);
    }
    var r := Table(t.owners - {p}, Forget(t.tree, o.pool.used, o.mac));
    forall m, e
      ensures Listed(r, m, e) <==> m in r.tree && r.tree[m] == e
    {
      assert Listed(r, m, e) <==> Listed(t, m, e) && e.peer != p;
      assert Listed(t, m, e) <==> m in t.tree && t.tree[m] == e;
      SeenExact(t, m, p, max);
    }
    AgreeByEntry(r);
  }

  // ----- the simple map it implements -----

  /** The addresses a peer owns, least recently seen first. */
  function Seen(t: Table, p: PeerId): seq<Mac>
    requires p in t.owners && forall k :: k in t.owners[p].pool.used ==> k in t.owners[p].mac
  {
    Keys(t.owners[p].pool.used, t.owners[p].mac)
  }

  /** The tree finds the one peer whose list has the address, and finds nobody when no list has it. */
  lemma SeenExact(t: Table, m: Mac, p: PeerId, max: nat)
    requires Inv(t, max) && p in t.owners
    ensures m in Seen(t, p) <==> m in t.tree && t.tree[m].peer == p
  {
    KeysHold(t.owners[p].pool.used, t.owners[p].mac, m);
    if m in t.tree && t.tree[m].peer == p {
      assert Listed(t, m, t.tree[m]);
    }
    if k :| k in t.owners[p].pool.used && t.owners[p].mac[k] == m {
      assert Listed(t, m, Entry(p, k));
    }
  }

  /** Two used entries of a peer never hold the same address. */
  lemma OneEntry(t: Table, p: PeerId, k: Slot, max: nat)
    requires Inv(t, max) && p in t.owners && k in t.owners[p].pool.used
    ensures forall j :: j in t.owners[p].pool.used && t.owners[p].mac[j] == t.owners[p].mac[k] ==> j == k
  {
    var o := t.owners[p];
    forall j | j in o.pool.used && o.mac[j] == o.mac[k]
      ensures j == k
    {
      assert Listed(t, o.mac[k], Entry(p, j)) && Listed(t, o.mac[k], Entry(p, k));
    }
  }

  lemma DisownSeen(t: Table, m: Mac, max: nat, q: PeerId)
    requires Inv(t, max) && m in t.tree && q in t.owners
    ensures t.tree[m].peer in t.owners && Inv(Disown(t, m), max)
    ensures Seen(Disown(t, m), q) == Without(Seen(t, q), m)
  {
    DisownKeeps(t, m, max);
    SeenExact(t, m, q, max);
    var e := t.tree[m];
    assert Listed(t, m, e);
    if q == e.peer {
      OneEntry(t, q, e.slot, max);
      KeysWithout(t.owners[q].pool.used, t.owners[q].mac, e.slot);
    }
  }

  lemma ClaimSeen(t: Table, p: PeerId, m: Mac, max: nat)
    requires Inv(t, max) && max > 0 && p in t.owners && m !in t.tree
    ensures t.owners[p].pool.free != [] || t.owners[p].pool.used != []
    ensures Inv(Claim(t, p, m), max) && Seen(Claim(t, p, m), p) == Refreshed(Seen(t, p), m, max)
  {
    ClaimKeeps(t, p, m, max);
    SeenExact(t, m, p, max);
    TakeRefreshes(t.owners[p].pool, t.owners[p].mac, m, max);
  }

  /** The lists once `m` has been seen from `p`: refreshed there and taken from every other list. */
  function Known(s: seq<Mac>, own: bool, m: Mac, max: nat): seq<Mac> {
    if own then Refreshed(s, m, max) else Without(s, m)
  }

  lemma LearnRefines(t: Table, p: PeerId, m: Mac, max: nat, q: PeerId)
    requires Inv(t, max) && max > 0 && p in t.owners && q in t.owners
    ensures q in Learn(t, p, m, max).owners
    ensures Seen(Learn(t, p, m, max), q) == Known(Seen(t, q), q == p, m, max)
  {
    hide Pooled, TreeOk;
    SeenExact(t, m, q, max);
    if m in t.tree && t.tree[m].peer == p {
      TouchSeen(t, p, m, max);
    } else if m in t.tree {
      DisownSeen(t, m, max, q);
      DisownSeen(t, m, max, p);
      SeenExact(t, m, p, max);
      ClaimSeen(Disown(t, m), p, m, max);
    } else {
      ClaimSeen(t, p, m, max);
    }
  }

  lemma TouchSeen(t: Table, p: PeerId, m: Mac, max: nat)
    requires Inv(t, max) && p in t.owners && m in t.tree && t.tree[m].peer == p
    ensures forall k :: k in Learn(t, p, m, max).owners[p].pool.used ==> k in t.owners[p].mac
    ensures Seen(Learn(t, p, m, max), p) == Refreshed(Seen(t, p), m, max)
  {
    var k := t.tree[m].slot;
    assert Listed(t, m, t.tree[m]);
    OneEntry(t, p, k, max);
    TouchRefreshes(t.owners[p].pool, t.owners[p].mac, k, max);
  }
}
