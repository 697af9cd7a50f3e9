/** Where frames go after any run, told from the events alone. */
module FrameDeciderRuns {
  import opened Wrappers
  import opened Seqs
  import opened EntryPool
  import opened FrameDecider
  import M = MacTable
  import X = Multicast
  import G = GroupTable

  // ----- the plain picture -----

  /** The peers in the order they came, and for each what it has been heard to own and to want, the latest last. */
  datatype Plain = Plain(order: seq<PeerId>, seen: map<PeerId, seq<Mac>>, wants: map<PeerId, seq<G.Group>>)

  const NOBODY: Plain := Plain([], map[], map[])

  /** The address is now the peer's, and nobody else's; the peer's oldest makes room for it if need be. */
  function HeardFrom(seen: map<PeerId, seq<Mac>>, p: PeerId, m: Mac, max: nat): map<PeerId, seq<Mac>> {
    map q | q in seen :: if q == p then Refreshed(seen[q], m, max) else Without(seen[q], m)
  }

  function PlainStep(c: Config, s: Plain, e: Event): Plain {
    match e
    case AddPeer(p) => Plain(s.order + [p], s.seen[p := []], s.wants[p := []])
    case RemovePeer(p) => Plain(Without(s.order, p), s.seen - {p}, s.wants - {p})
    case Seen(p, m) => s.(seen := HeardFrom(s.seen, p, m, c.maxMacs))
    case Report(p, g, _) => if p in s.wants then s.(wants := s.wants[p := Refreshed(s.wants[p], g, c.maxGroups)]) else s
    case Expire(p, g, _) => if p in s.wants then s.(wants := s.wants[p := Without(s.wants[p], g)]) else s
    case Query(_, _) => s
  }

  function PlainRun(c: Config, s: Plain, es: seq<Event>): Plain
    decreases |es|
  {
    if es == [] then s else PlainRun(c, PlainStep(c, s, es[0]), es[1..])
  }

  const EMPTY: Decider := Decider(M.Table(map[], map[]), G.Groups(map[], map[], X.Index(map[], map[], map[])), [])

  lemma EmptyOk(c: Config)
    ensures Inv(c, EMPTY) && Pictures(EMPTY, NOBODY)
  {
  }

  /** The peer's addresses are `q`. */
  ghost predicate Owns(t: M.Table, p: PeerId, q: seq<Mac>) {
    p in t.owners && (forall k :: k in t.owners[p].pool.used ==> k in t.owners[p].mac) && M.Seen(t, p) == q
  }

  ghost predicate MacsPictured(t: M.Table, seen: map<PeerId, seq<Mac>>) {
    t.owners.Keys == seen.Keys && forall p :: p in seen ==> Owns(t, p, seen[p])
  }

  /** The peer's groups are `q`. */
  ghost predicate Wants(s: G.Groups, p: PeerId, q: seq<G.Group>) {
    p in s.peers && (forall k :: k in s.peers[p].pool.used ==> X.Id(p, k) in s.joined) && G.GroupList(s, p) == q
  }

  ghost predicate GroupsPictured(s: G.Groups, wants: map<PeerId, seq<G.Group>>) {
    s.peers.Keys == wants.Keys && forall p :: p in wants ==> Wants(s, p, wants[p])
  }

  ghost predicate Pictures(d: Decider, s: Plain) {
    d.peers == s.order && MacsPictured(d.macs, s.seen) && GroupsPictured(d.groups, s.wants)
  }

  // ----- the tables follow it -----

  lemma SameOwns(t: M.Table, u: M.Table, p: PeerId, q: seq<Mac>)
    requires Owns(t, p, q) && p in u.owners && u.owners[p] == t.owners[p]
    ensures Owns(u, p, q)
  {
  }

  lemma FreshOwns(t: M.Table, p: PeerId, max: nat)
    requires p in t.owners && t.owners[p] == M.Owner(Fresh(max), map[])
    ensures Owns(t, p, [])
  {
  }

  lemma LearnOwns(t: M.Table, p: PeerId, m: Mac, max: nat, q: PeerId, s: seq<Mac>)
    requires M.Inv(t, max) && max > 0 && p in t.owners && Owns(t, q, s)
    ensures Owns(M.Learn(t, p, m, max), q, if q == p then Refreshed(s, m, max) else Without(s, m))
  {
    hide M.Inv, M.Learn, Refreshed, Without, Keys;
    M.LearnRefines(t, p, m, max, q);
    M.UsedHaveMacs(M.Learn(t, p, m, max), q, max);
  }

  lemma MacsAdd(t: M.Table, p: PeerId, max: nat, seen: map<PeerId, seq<Mac>>)
    requires M.Inv(t, max) && p !in t.owners && MacsPictured(t, seen)
    ensures MacsPictured(M.AddPeer(t, p, max), seen[p := []])
  {
    hide M.Inv, Owns, Fresh;
    var u := M.AddPeer(t, p, max);
    FreshOwns(u, p, max);
    forall q | q in seen && q != p
      ensures Owns(u, q, seen[q])
    {
      SameOwns(t, u, q, seen[q]);
    }
  }

  lemma MacsRemove(t: M.Table, p: PeerId, max: nat, seen: map<PeerId, seq<Mac>>)
    requires M.Inv(t, max) && p in t.owners && MacsPictured(t, seen)
    ensures MacsPictured(M.RemovePeer(t, p, max), seen - {p})
  {
    hide M.Inv, Owns;
    var u := M.RemovePeer(t, p, max);
    forall q | q in seen && q != p
      ensures Owns(u, q, seen[q])
    {
      SameOwns(t, u, q, seen[q]);
    }
  }

  lemma MacsLearn(t: M.Table, p: PeerId, m: Mac, max: nat, seen: map<PeerId, seq<Mac>>)
    requires M.Inv(t, max) && max > 0 && p in t.owners && MacsPictured(t, seen)
    ensures MacsPictured(M.Learn(t, p, m, max), HeardFrom(seen, p, m, max))
  {
    hide M.Inv, M.Learn, Refreshed, Without, Owns;
    LearnOwners(t, p, m, max);
    var after := HeardFrom(seen, p, m, max);
    assert after.Keys == seen.Keys;
    forall q | q in after
      ensures Owns(M.Learn(t, p, m, max), q, after[q])
    {
      LearnOwns(t, p, m, max, q, seen[q]);
    }
  }

  lemma SameWants(s: G.Groups, t: G.Groups, p: PeerId, q: seq<G.Group>)
    requires Wants(s, p, q) && p in t.peers && t.peers[p] == s.peers[p]
    requires forall k :: X.Id(p, k) in s.joined ==> X.Id(p, k) in t.joined && t.joined[X.Id(p, k)].group == s.joined[X.Id(p, k)].group
    ensures Wants(t, p, q)
  {
    hide G.GroupList;
    G.SameList(s, t, p);
  }

  lemma FreshWants(s: G.Groups, p: PeerId, max: nat)
    requires p in s.peers && s.peers[p] == G.Peer(Fresh(max), map[])
    ensures Wants(s, p, [])
  {
  }

  lemma JoinWants(s: G.Groups, p: PeerId, g: G.Group, end: int, max: nat, q: PeerId, w: seq<G.Group>)
    requires G.Inv(s, max) && max > 0 && p in s.peers && Wants(s, q, w)
    ensures Wants(G.Join(s, p, g, end, max), q, if q == p then Refreshed(w, g, max) else w)
  {
    hide G.Inv, G.Join, Refreshed, G.GroupList, G.GroupMap;
    G.JoinRefines(s, p, g, end, max, q);
    G.ListedGroups(G.Join(s, p, g, end, max), q, max);
  }

  lemma LeaveWants(s: G.Groups, e: X.Id, max: nat, q: PeerId, w: seq<G.Group>)
    requires G.Inv(s, max) && e in s.joined && Wants(s, q, w)
    ensures Wants(G.Leave(s, e, max), q, if q == e.peer then Without(w, s.joined[e].group) else w)
  {
    hide G.Inv, G.Leave, Without, G.GroupList, G.GroupMap;
    G.LeaveRefines(s, e, max, q);
    G.ListedGroups(G.Leave(s, e, max), q, max);
  }

  lemma GroupsAdd(s: G.Groups, p: PeerId, max: nat, wants: map<PeerId, seq<G.Group>>)
    requires G.Inv(s, max) && p !in s.peers && GroupsPictured(s, wants)
    ensures GroupsPictured(G.AddPeer(s, p, max), wants[p := []])
  {
    hide G.Inv, Wants, Fresh;
    var t := G.AddPeer(s, p, max);
    FreshWants(t, p, max);
    forall q | q in wants && q != p
      ensures Wants(t, q, wants[q])
    {
      SameWants(s, t, q, wants[q]);
    }
  }

  lemma GroupsRemove(s: G.Groups, p: PeerId, max: nat, wants: map<PeerId, seq<G.Group>>)
    requires G.Inv(s, max) && p in s.peers && GroupsPictured(s, wants)
    ensures GroupsPictured(G.RemovePeer(s, p, max), wants - {p})
  {
    hide G.Inv, G.RemovePeer, Wants;
    var t := G.RemovePeer(s, p, max);
    forall q | q in wants && q != p
      ensures Wants(t, q, wants[q])
    {
      SameWants(s, t, q, wants[q]);
    }
  }

  lemma GroupsJoin(s: G.Groups, p: PeerId, g: G.Group, end: int, max: nat, wants: map<PeerId, seq<G.Group>>)
    requires G.Inv(s, max) && max > 0 && p in s.peers && GroupsPictured(s, wants)
    ensures GroupsPictured(G.Join(s, p, g, end, max), wants[p := Refreshed(wants[p], g, max)])
  {
    hide G.Inv, G.Join, Refreshed, Wants;
    JoinPeers(s, p, g, end, max);
    forall q | q in wants
      ensures Wants(G.Join(s, p, g, end, max), q, if q == p then Refreshed(wants[p], g, max) else wants[q])
    {
      JoinWants(s, p, g, end, max, q, wants[q]);
    }
  }

  lemma GroupsLeave(s: G.Groups, e: X.Id, max: nat, wants: map<PeerId, seq<G.Group>>)
    requires G.Inv(s, max) && e in s.joined && e.peer in s.peers && GroupsPictured(s, wants)
    ensures GroupsPictured(G.Leave(s, e, max), wants[e.peer := Without(wants[e.peer], s.joined[e].group)])
  {
    hide G.Inv, G.Leave, Without, Wants;
    LeavePeers(s, e, max);
    forall q | q in wants
      ensures Wants(G.Leave(s, e, max), q, if q == e.peer then Without(wants[q], s.joined[e].group) else wants[q])
    {
      LeaveWants(s, e, max, q, wants[q]);
    }
  }

  lemma GroupsQuery(s: G.Groups, g: G.Group, limit: int, max: nat, wants: map<PeerId, seq<G.Group>>)
    requires G.Inv(s, max) && GroupsPictured(s, wants)
    ensures GroupsPictured(G.Query(s, g, limit, max), wants)
  {
    hide G.Inv, Wants, G.Lowered;
    G.QueryOk(s, g, limit, max);
    var t := G.Query(s, g, limit, max);
    forall q | q in wants
      ensures Wants(t, q, wants[q])
    {
      SameWants(s, t, q, wants[q]);
    }
  }

  lemma PeersStep(c: Config, d: Decider, e: Event, s: Plain)
    requires ConfigOk(c) && Inv(c, d) && Enabled(d, e) && Pictures(d, s) && (e.AddPeer? || e.RemovePeer?)
    ensures Pictures(Step(c, d, e), PlainStep(c, s, e))
  {
    hide M.Inv, G.Inv, MacsPictured, GroupsPictured, M.AddPeer, G.AddPeer, M.RemovePeer, G.RemovePeer, Without;
    if e.AddPeer? {
      MacsAdd(d.macs, e.p, c.maxMacs, s.seen);
      GroupsAdd(d.groups, e.p, c.maxGroups, s.wants);
    } else {
      MacsRemove(d.macs, e.p, c.maxMacs, s.seen);
      GroupsRemove(d.groups, e.p, c.maxGroups, s.wants);
    }
  }

  lemma SeenStep(c: Config, d: Decider, p: PeerId, m: Mac, s: Plain)
    requires ConfigOk(c) && Inv(c, d) && Enabled(d, Seen(p, m)) && Pictures(d, s)
    ensures Pictures(Step(c, d, Seen(p, m)), PlainStep(c, s, Seen(p, m)))
  {
    hide M.Inv, G.Inv, MacsPictured, GroupsPictured, M.Learn, Refreshed, Without;
    MacsLearn(d.macs, p, m, c.maxMacs, s.seen);
  }

  lemma GroupStep(c: Config, d: Decider, e: Event, s: Plain)
    requires ConfigOk(c) && Inv(c, d) && Enabled(d, e) && Pictures(d, s) && (e.Report? || e.Expire? || e.Query?)
    ensures Pictures(Step(c, d, e), PlainStep(c, s, e))
  {
    hide M.Inv, G.Inv, MacsPictured, GroupsPictured, G.Join, G.Leave, G.Query, Refreshed, Without;
    PeersKnown(c, d, s);
    match e
    case Report(p, g, now) => GroupsJoin(d.groups, p, g, now + c.interval, c.maxGroups, s.wants);
    case Expire(p, g, _) =>
      GroupOfEntry(c, d, p, g);
      GroupsLeave(d.groups, Entry(d, p, g), c.maxGroups, s.wants);
    case Query(g, now) => GroupsQuery(d.groups, g, now + c.lastMemberTime, c.maxGroups, s.wants);
  }

  lemma PicturesStep(c: Config, d: Decider, e: Event, s: Plain)
    requires ConfigOk(c) && Inv(c, d) && Enabled(d, e) && Pictures(d, s)
    ensures Pictures(Step(c, d, e), PlainStep(c, s, e))
  {
    hide Inv, Pictures, Step, PlainStep;
    match e
    case AddPeer(_) => PeersStep(c, d, e, s);
    case RemovePeer(_) => PeersStep(c, d, e, s);
    case Seen(p, m) => SeenStep(c, d, p, m, s);
    case Report(_, _, _) => GroupStep(c, d, e, s);
    case Expire(_, _, _) => GroupStep(c, d, e, s);
    case Query(_, _) => GroupStep(c, d, e, s);
  }

  lemma PeersKnown(c: Config, d: Decider, s: Plain)
    requires Inv(c, d) && Pictures(d, s)
    ensures d.macs.owners.Keys == s.seen.Keys == s.wants.Keys == d.groups.peers.Keys
  {
    hide M.Inv, G.Inv;
  }

  lemma GroupOfEntry(c: Config, d: Decider, p: PeerId, g: G.Group)
    requires Inv(c, d) && Member(d, p, g)
    ensures d.groups.joined[Entry(d, p, g)].group == g
  {
    G.PeerIn(d.groups, p, c.maxGroups);
  }

  /** Over any run the tables are the plain picture. */
  lemma {:induction false} PicturesRun(c: Config, d: Decider, es: seq<Event>, s: Plain)
    requires ConfigOk(c) && Inv(c, d) && Legal(c, d, es) && Pictures(d, s)
    ensures Pictures(Run(c, d, es), PlainRun(c, s, es))
    decreases |es|
  {
    hide Inv, Pictures, Step, PlainStep;
    if es != [] {
      PicturesStep(c, d, es[0], s);
      PicturesRun(c, Step(c, d, es[0]), es[1..], PlainStep(c, s, es[0]));
    }
  }

  // ----- where a frame goes -----

  /** Broadcast and IGMP frames go to every peer, once each, in the order the peers came. */
  lemma FloodedFrame(c: Config, es: seq<Event>, f: Frame)
    requires ConfigOk(c) && Inv(c, EMPTY) && Legal(c, EMPTY, es) && (f.igmp || f.dest == 0xFFFF_FFFF_FFFF)
    ensures var s := PlainRun(c, NOBODY, es);
      && Destinations(c, Run(c, EMPTY, es), f) == s.order
      && Distinct(s.order) && forall p :: p in s.order <==> p in s.seen
  {
    hide Inv, Legal, Run, PlainRun, MacsPictured, GroupsPictured, Distinct;
    EmptyOk(c);
    PicturesRun(c, EMPTY, es, NOBODY);
    PeersOnce(c, Run(c, EMPTY, es), PlainRun(c, NOBODY, es));
  }

  lemma PeersOnce(c: Config, d: Decider, s: Plain)
    requires Inv(c, d) && Pictures(d, s)
    ensures Distinct(s.order) && forall p :: p in s.order <==> p in s.seen
  {
    hide M.Inv, G.Inv, GroupsPictured;
  }

  /** A frame to an address goes to the peer that was last heard to own it, and to every peer if there is none. */
  lemma UnicastFrame(c: Config, es: seq<Event>, m: Mac)
    requires ConfigOk(c) && Inv(c, EMPTY) && Legal(c, EMPTY, es) && m != 0xFFFF_FFFF_FFFF && m / 0x100_0000 != 0x1_005E
    ensures var s := PlainRun(c, NOBODY, es);
      var to := Destinations(c, Run(c, EMPTY, es), Frame(m, false, None));
      && (forall p :: p in s.seen && m in s.seen[p] ==> to == [p])
      && ((forall p :: p in s.seen ==> m !in s.seen[p]) ==> to == s.order)
  {
    hide Inv, Legal, Run, PlainRun;
    EmptyOk(c);
    PicturesRun(c, EMPTY, es, NOBODY);
    UnicastIn(c, Run(c, EMPTY, es), PlainRun(c, NOBODY, es), m);
  }

  lemma UnicastIn(c: Config, d: Decider, s: Plain, m: Mac)
    requires Inv(c, d) && Pictures(d, s) && m != 0xFFFF_FFFF_FFFF && m / 0x100_0000 != 0x1_005E
    ensures var to := Destinations(c, d, Frame(m, false, None));
      && (forall p :: p in s.seen && m in s.seen[p] ==> to == [p])
      && ((forall p :: p in s.seen ==> m !in s.seen[p]) ==> to == s.order)
  {
    hide G.Inv, GroupsPictured;
    forall p | p in s.seen
      ensures m in s.seen[p] <==> m in d.macs.tree && d.macs.tree[m].peer == p
    {
      M.SeenExact(d.macs, m, p, c.maxMacs);
    }
    if m in d.macs.tree {
      assert M.Listed(d.macs, m, d.macs.tree[m]);
    }
  }

  /** A frame to a group goes to exactly the peers that want a group with the same last 23 bits. */
  lemma GroupedFrame(c: Config, es: seq<Event>, g: G.Group, p: PeerId)
    requires ConfigOk(c) && Inv(c, EMPTY) && Legal(c, EMPTY, es)
    ensures var s := PlainRun(c, NOBODY, es);
      p in Destinations(c, Run(c, EMPTY, es), Frame(MulticastMac(g), false, None)) <==>
        p in s.wants && exists h :: h in s.wants[p] && h % 0x80_0000 == g % 0x80_0000
  {
    hide Inv, Legal, Run, PlainRun;
    EmptyOk(c);
    PicturesRun(c, EMPTY, es, NOBODY);
    GroupedIn(c, Run(c, EMPTY, es), PlainRun(c, NOBODY, es), g, p);
  }

  lemma GroupedIn(c: Config, d: Decider, s: Plain, g: G.Group, p: PeerId)
    requires Inv(c, d) && Pictures(d, s)
    ensures p in Destinations(c, d, Frame(MulticastMac(g), false, None)) <==>
        p in s.wants && exists h :: h in s.wants[p] && h % 0x80_0000 == g % 0x80_0000
  {
    hide M.Inv, MacsPictured, G.Inv, Destinations, MulticastMac, Wants;
    GroupFrame(c, d, g);
    var to := Destinations(c, d, Frame(MulticastMac(g), false, None));
    var q: seq<X.Id> :| && Distinct(q)
      && (forall e :: e in q <==> e in d.groups.joined && G.SigOf(d.groups.joined[e].group) == G.SigOf(g))
      && to == PeersOf(q);
    if p in to {
      var i :| 0 <= i < |to| && to[i] == p;
      var e := q[i];
      assert e in q;
      G.EntryOf(d.groups, e, c.maxGroups);
      WantsExactly(d.groups, p, c.maxGroups, s.wants[p], d.groups.joined[e].group);
    }
    if p in s.wants && exists h :: h in s.wants[p] && h % 0x80_0000 == g % 0x80_0000 {
      var h :| h in s.wants[p] && h % 0x80_0000 == g % 0x80_0000;
      WantsExactly(d.groups, p, c.maxGroups, s.wants[p], h);
      var e := X.Id(p, d.groups.peers[p].tree[h]);
      assert e in q;
      var i :| 0 <= i < |q| && q[i] == e;
      assert to[i] == p;
    }
  }

  lemma WantsExactly(s: G.Groups, p: PeerId, max: nat, w: seq<G.Group>, h: G.Group)
    requires G.Inv(s, max) && Wants(s, p, w)
    ensures p in s.peers && (h in w <==> h in s.peers[p].tree)
    ensures h in w ==> X.Id(p, s.peers[p].tree[h]) in s.joined && s.joined[X.Id(p, s.peers[p].tree[h])].group == h
  {
    hide G.Inv, G.GroupList, G.GroupMap;
    G.ListedGroups(s, p, max);
    PeerOf(s, p, max);
    G.PeerIn(s, p, max);
  }

  lemma PeerOf(s: G.Groups, p: PeerId, max: nat)
    requires G.Inv(s, max)
    ensures G.PeersOk(s.peers, s.joined, max)
  {
  }

  // ----- how long an address stays learned -----

  /** `m` is in the list and everything after it is among `xs`. */
  ghost predicate Within(q: seq<Mac>, m: Mac, xs: set<Mac>) {
    q != [] && (if q[0] == m then forall x :: x in q[1..] ==> x in xs else Within(q[1..], m, xs))
  }

  lemma {:induction false} WithinHas(q: seq<Mac>, m: Mac, xs: set<Mac>, ys: set<Mac>)
    requires Within(q, m, xs) && xs <= ys
    ensures m in q && Within(q, m, ys)
  {
    if q[0] != m {
      WithinHas(q[1..], m, xs, ys);
    }
  }

  lemma {:induction false} WithinWithout(q: seq<Mac>, m: Mac, xs: set<Mac>, x: Mac)
    requires Within(q, m, xs) && x != m
    ensures Within(Without(q, x), m, xs)
  {
    if q[0] != m {
      WithinWithout(q[1..], m, xs, x);
    }
  }

  lemma {:induction false} WithinMore(q: seq<Mac>, m: Mac, xs: set<Mac>, x: Mac)
    requires Within(q, m, xs)
    ensures Within(q + [x], m, xs + {x})
  {
    assert (q + [x])[1..] == q[1..] + [x];
    if q[0] != m {
      WithinMore(q[1..], m, xs, x);
    }
  }

  lemma {:induction false} WithinLast(q: seq<Mac>, m: Mac, xs: set<Mac>)
    requires m !in q
    ensures Within(q + [m], m, xs)
  {
    if q != [] {
      assert (q + [m])[1..] == q[1..] + [m];
      WithinLast(q[1..], m, xs);
    }
  }

  lemma RefreshedDistinct(q: seq<Mac>, x: Mac, max: nat)
    requires Distinct(q)
    ensures Distinct(Refreshed(q, x, max))
  {
    WithoutDistinct(q, x);
  }

  lemma RefreshedLast(q: seq<Mac>, m: Mac, max: nat, xs: set<Mac>)
    requires Distinct(q)
    ensures Within(Refreshed(q, m, max), m, xs)
  {
    hide Without;
    if m in q {
      WithinLast(Without(q, m), m, xs);
    } else if |q| < max || q == [] {
      WithinLast(q, m, xs);
    } else {
      WithinLast(q[1..], m, xs);
    }
  }

  /** Another address does not push `m` out as long as fewer than `max` have been seen since. */
  lemma RefreshedWithin(q: seq<Mac>, m: Mac, xs: set<Mac>, x: Mac, max: nat)
    requires Distinct(q) && Within(q, m, xs) && x != m && |xs + {x}| < max
    ensures Within(Refreshed(q, x, max), m, xs + {x})
  {
    hide Without;
    if x in q {
      WithinWithout(q, m, xs, x);
      WithinMore(Without(q, x), m, xs, x);
    } else if |q| < max || q == [] {
      WithinMore(q, m, xs, x);
    } else {
      if q[0] == m {
        DistinctSize(q[1..] + [x]);
        SubsetSize(Elements(q[1..] + [x]), xs + {x});
        assert false;
      }
      WithinMore(q[1..], m, xs, x);
    }
  }

  lemma {:induction false} SubsetSize(a: set<Mac>, b: set<Mac>)
    requires a <= b
    ensures |a| <= |b|
  {
    if a != {} {
      var x :| x in a;
      SubsetSize(a - {x}, b - {x});
    }
  }

  ghost predicate AllDistinct(seen: map<PeerId, seq<Mac>>) {
    forall p :: p in seen ==> Distinct(seen[p])
  }

  lemma DistinctStep(c: Config, s: Plain, e: Event)
    requires AllDistinct(s.seen)
    ensures AllDistinct(PlainStep(c, s, e).seen)
  {
    hide Distinct, Refreshed, Without;
    if e.Seen? {
      var t := HeardFrom(s.seen, e.p, e.mac, c.maxMacs);
      forall q | q in t
        ensures Distinct(t[q])
      {
        RefreshedDistinct(s.seen[q], e.mac, c.maxMacs);
        WithoutDistinct(s.seen[q], e.mac);
      }
    } else if e.AddPeer? {
      EmptyDistinct();
    }
  }

  lemma EmptyDistinct()
    ensures Distinct<Mac>([])
  {
  }

  /** Peer `p` stays, and `m` is not heard from another peer. */
  predicate Spares(e: Event, p: PeerId, m: Mac) {
    e != RemovePeer(p) && !(e.Seen? && e.mac == m && e.p != p)
  }

  /** The other addresses heard from the peer. */
  function Others(es: seq<Event>, p: PeerId, m: Mac): set<Mac> {
    set e | e in es && e.Seen? && e.p == p && e.mac != m :: e.mac
  }

  lemma OthersNext(es: seq<Event>, p: PeerId, m: Mac)
    requires es != []
    ensures Others(es, p, m) == Others(es[1..], p, m) + Others([es[0]], p, m)
  {
    assert es == [es[0]] + es[1..];
  }

  lemma WithinStep(c: Config, s: Plain, e: Event, p: PeerId, m: Mac, xs: set<Mac>)
    requires AllDistinct(s.seen) && p in s.seen && Within(s.seen[p], m, xs) && Spares(e, p, m) && e != AddPeer(p)
    requires |xs + Others([e], p, m)| < c.maxMacs
    ensures var t := PlainStep(c, s, e).seen; p in t && Within(t[p], m, xs + Others([e], p, m))
  {
    hide Refreshed, Without, Within;
    var now := xs + Others([e], p, m);
    WithinHas(s.seen[p], m, xs, now);
    if e.Seen? {
      if e.p == p && e.mac == m {
        RefreshedLast(s.seen[p], m, c.maxMacs, now);
      } else if e.p == p {
        assert e in [e];
        assert Others([e], p, m) == {e.mac};
        RefreshedWithin(s.seen[p], m, xs, e.mac, c.maxMacs);
      } else {
        WithinWithout(s.seen[p], m, now, e.mac);
      }
    }
  }

  /** A step of both, with what is known of them. */
  lemma BothStep(c: Config, d: Decider, s: Plain, e: Event)
    requires ConfigOk(c) && Inv(c, d) && Enabled(d, e) && Pictures(d, s) && AllDistinct(s.seen)
    ensures Pictures(Step(c, d, e), PlainStep(c, s, e)) && AllDistinct(PlainStep(c, s, e).seen)
    ensures e.AddPeer? || e.Seen? ==> (e.AddPeer? <==> e.p !in s.seen)
  {
    hide Inv, Pictures, Step, PlainStep;
    PicturesStep(c, d, e, s);
    DistinctStep(c, s, e);
    PeersKnown(c, d, s);
  }

  lemma {:induction false} StaysWithin(c: Config, d: Decider, s: Plain, es: seq<Event>, p: PeerId, m: Mac, xs: set<Mac>)
    requires ConfigOk(c) && Inv(c, d) && Legal(c, d, es) && Pictures(d, s) && AllDistinct(s.seen)
    requires p in s.seen && Within(s.seen[p], m, xs) && (forall e :: e in es ==> Spares(e, p, m))
    requires |xs + Others(es, p, m)| < c.maxMacs
    ensures var t := PlainRun(c, s, es).seen; p in t && m in t[p]
    decreases |es|
  {
    hide Inv, Pictures, Step, PlainStep, Within, Others, AllDistinct, Spares;
    if es == [] {
      WithinHas(s.seen[p], m, xs, xs);
    } else {
      var e, more := es[0], xs + Others([es[0]], p, m);
      OthersNext(es, p, m);
      assert more + Others(es[1..], p, m) == xs + Others(es, p, m);
      SubsetSize(more, xs + Others(es, p, m));
      BothStep(c, d, s, e);
      WithinStep(c, s, e, p, m, xs);
      StaysWithin(c, Step(c, d, e), PlainStep(c, s, e), es[1..], p, m, more);
    }
  }

  lemma {:induction false} LearnedAndKept(c: Config, d: Decider, s: Plain, before: seq<Event>, p: PeerId, m: Mac, after: seq<Event>)
    requires ConfigOk(c) && Inv(c, d) && Legal(c, d, before + [Seen(p, m)] + after) && Pictures(d, s) && AllDistinct(s.seen)
    requires (forall e :: e in after ==> Spares(e, p, m)) && |Others(after, p, m)| < c.maxMacs
    ensures var t := PlainRun(c, s, before + [Seen(p, m)] + after).seen; p in t && m in t[p]
    decreases |before|
  {
    hide Inv, Pictures, Step, PlainStep, Within, Others, AllDistinct, Spares;
    var es := before + [Seen(p, m)] + after;
    BothStep(c, d, s, es[0]);
    var t := PlainStep(c, s, es[0]);
    if before == [] {
      assert es[1..] == after;
      SeenWithin(c, s, p, m);
      assert {} + Others(after, p, m) == Others(after, p, m);
      StaysWithin(c, Step(c, d, es[0]), t, after, p, m, {});
    } else {
      assert es[1..] == before[1..] + [Seen(p, m)] + after;
      LearnedAndKept(c, Step(c, d, es[0]), t, before[1..], p, m, after);
    }
  }

  lemma SeenWithin(c: Config, s: Plain, p: PeerId, m: Mac)
    requires AllDistinct(s.seen) && p in s.seen
    ensures var t := PlainStep(c, s, Seen(p, m)).seen; p in t && Within(t[p], m, {})
  {
    hide Refreshed, Without, Within;
    RefreshedLast(s.seen[p], m, c.maxMacs, {});
  }

  /**
  An address last heard from a peer that is still there goes to that peer alone, whatever else has happened since, unless
  as many other addresses as the peer can have were heard from it.
  */
  lemma StillLearned(c: Config, before: seq<Event>, p: PeerId, m: Mac, after: seq<Event>)
    requires ConfigOk(c) && Inv(c, EMPTY) && Legal(c, EMPTY, before + [Seen(p, m)] + after)
    requires (forall e :: e in after ==> Spares(e, p, m)) && |Others(after, p, m)| < c.maxMacs
    requires m != 0xFFFF_FFFF_FFFF && m / 0x100_0000 != 0x1_005E
    ensures Destinations(c, Run(c, EMPTY, before + [Seen(p, m)] + after), Frame(m, false, None)) == [p]
  {
    hide Inv, Legal, Run, PlainRun, Pictures, Destinations, Spares, Others;
    EmptyOk(c);
    LearnedAndKept(c, EMPTY, NOBODY, before, p, m, after);
    UnicastFrame(c, before + [Seen(p, m)] + after, m);
  }

  // ----- when memberships end -----

  type Ends = map<(PeerId, G.Group), int>

  /** A report renews the membership for the report interval; a query leaves the members of the group little time. */
  function EndsStep(c: Config, ends: Ends, e: Event): Ends {
    match e
    case Report(p, g, now) => ends[(p, g) := now + c.interval]
    case Query(g, now) => map k | k in ends :: if k.1 == g && ends[k] > now + c.lastMemberTime then now + c.lastMemberTime else ends[k]
    case _ => ends
  }

  function EndsRun(c: Config, ends: Ends, es: seq<Event>): Ends
    decreases |es|
  {
    if es == [] then ends else EndsRun(c, EndsStep(c, ends, es[0]), es[1..])
  }

  ghost predicate EndsAt(m: G.Member, p: PeerId, ends: Ends) {
    (p, m.group) in ends && m.endtime == ends[(p, m.group)]
  }

  ghost predicate Timed(s: G.Groups, ends: Ends) {
    forall x :: x in s.joined ==> EndsAt(s.joined[x], x.peer, ends)
  }

  lemma TimedStep(c: Config, d: Decider, e: Event, ends: Ends)
    requires ConfigOk(c) && Inv(c, d) && Enabled(d, e) && Timed(d.groups, ends)
    ensures Timed(Step(c, d, e).groups, EndsStep(c, ends, e))
  {
    hide M.Inv, G.Inv, M.AddPeer, M.RemovePeer, M.Learn, G.Join, G.Lowered, X.Remove;
    match e
    case Report(p, g, now) => G.JoinEntries(d.groups, p, g, now + c.interval, c.maxGroups);
    case Query(g, now) => G.QueryOk(d.groups, g, now + c.lastMemberTime, c.maxGroups);
    case _ =>
  }

  lemma {:induction false} TimedRun(c: Config, d: Decider, es: seq<Event>, ends: Ends)
    requires ConfigOk(c) && Inv(c, d) && Legal(c, d, es) && Timed(d.groups, ends)
    ensures Timed(Run(c, d, es).groups, EndsRun(c, ends, es))
    decreases |es|
  {
    hide Inv, Timed, Step, EndsStep;
    if es != [] {
      TimedStep(c, d, es[0], ends);
      TimedRun(c, Step(c, d, es[0]), es[1..], EndsStep(c, ends, es[0]));
    }
  }

  /** A membership expires only if the peer still wants the group and the time its last report and later queries left it is over. */
  lemma ExpiresWhenDue(c: Config, es: seq<Event>, p: PeerId, g: G.Group, now: int)
    requires ConfigOk(c) && Inv(c, EMPTY) && Legal(c, EMPTY, es)
    ensures var s, ends := PlainRun(c, NOBODY, es), EndsRun(c, map[], es);
      && (p in s.wants && g in s.wants[p] ==> (p, g) in ends)
      && (Enabled(Run(c, EMPTY, es), Expire(p, g, now)) <==> p in s.wants && g in s.wants[p] && ends[(p, g)] <= now)
  {
    hide Inv, Legal, Run, PlainRun, EndsRun;
    EmptyOk(c);
    PicturesRun(c, EMPTY, es, NOBODY);
    TimedRun(c, EMPTY, es, map[]);
    DueIn(c, Run(c, EMPTY, es), PlainRun(c, NOBODY, es), EndsRun(c, map[], es), p, g);
  }

  lemma DueIn(c: Config, d: Decider, s: Plain, ends: Ends, p: PeerId, g: G.Group)
    requires Inv(c, d) && Pictures(d, s) && Timed(d.groups, ends)
    ensures Member(d, p, g) <==> p in s.wants && g in s.wants[p]
    ensures Member(d, p, g) ==> (p, g) in ends && d.groups.joined[Entry(d, p, g)].endtime == ends[(p, g)]
  {
    hide M.Inv, MacsPictured, G.Inv, Wants;
    if p in s.wants {
      WantsExactly(d.groups, p, c.maxGroups, s.wants[p], g);
    }
  }
}
