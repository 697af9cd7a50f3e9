/** Which peers a frame of the local device is forwarded to. */
module FrameDecider {
  import opened Wrappers
  import opened Seqs
  import opened EntryPool
  import M = MacTable
  import X = Multicast
  import G = GroupTable

  type PeerId = nat
  type Mac = M.Mac

  const BROADCAST: Mac := 0xFFFF_FFFF_FFFF

  predicate IsMulticast(m: Mac) { m / 0x100_0000 == 0x1_005E }

  function SigOfMac(m: Mac): X.Sig { m % 0x80_0000 }

  datatype Config = Config(maxMacs: nat, maxGroups: nat, interval: int, lastMemberTime: int)

  predicate ConfigOk(c: Config) { c.maxMacs > 0 && c.maxGroups > 0 }

  /** A frame of the device, as far as the decision looks at it. */
  datatype Frame = Frame(dest: Mac, igmp: bool, query: Option<G.Group>)

  datatype Decider = Decider(macs: M.Table, groups: G.Groups, peers: seq<PeerId>)

  ghost predicate Inv(c: Config, d: Decider) {
    && M.Inv(d.macs, c.maxMacs) && G.Inv(d.groups, c.maxGroups)
    && Distinct(d.peers) && (forall p :: p in d.peers <==> p in d.macs.owners) && d.macs.owners.Keys == d.groups.peers.Keys
  }

  // ----- the decision -----

  function PeersOf(q: seq<X.Id>): (r: seq<PeerId>)
    ensures |r| == |q| && forall i :: 0 <= i < |q| ==> r[i] == q[i].peer
  {
    if q == [] then [] else [q[0].peer] + PeersOf(q[1..])
  }

  function Destinations(c: Config, d: Decider, f: Frame): seq<PeerId>
    requires Inv(c, d)
  {
    if f.igmp || f.dest == BROADCAST then d.peers
    else if IsMulticast(f.dest) then
      G.ListenersExact(d.groups, SigOfMac(f.dest), c.maxGroups);
      PeersOf(G.Listeners(d.groups, SigOfMac(f.dest)))
    else if f.dest in d.macs.tree then [d.macs.tree[f.dest].peer]
    else d.peers
  }

  // ----- what changes the tables -----

  datatype Event =
    | AddPeer(p: PeerId)
    | RemovePeer(p: PeerId)
    | Seen(p: PeerId, mac: Mac)
    | Report(p: PeerId, group: G.Group, now: int)
    | Expire(p: PeerId, group: G.Group, now: int)
    | Query(group: G.Group, now: int)

  /** The peer has an entry for the group. */
  predicate Member(d: Decider, p: PeerId, g: G.Group) {
    p in d.groups.peers && g in d.groups.peers[p].tree && X.Id(p, d.groups.peers[p].tree[g]) in d.groups.joined
  }

  function Entry(d: Decider, p: PeerId, g: G.Group): X.Id
    requires Member(d, p, g)
  {
    X.Id(p, d.groups.peers[p].tree[g])
  }

  /** A membership expires when its time has come; what else happens is up to peers and device. */
  predicate Enabled(d: Decider, e: Event) {
    match e
    case AddPeer(p) => p !in d.macs.owners
    case RemovePeer(p) => p in d.macs.owners
    case Seen(p, _) => p in d.macs.owners
    case Report(p, _, _) => p in d.macs.owners
    case Expire(p, g, now) => Member(d, p, g) && d.groups.joined[Entry(d, p, g)].endtime <= now
    case Query(_, _) => true
  }

  lemma LearnOwners(t: M.Table, p: PeerId, m: Mac, max: nat)
    requires M.Inv(t, max) && max > 0 && p in t.owners
    ensures M.Learn(t, p, m, max).owners.Keys == t.owners.Keys
  {
    hide M.TreeOk, M.OwnersOk;
    if m in t.tree && t.tree[m].peer != p {
      M.DisownKeeps(t, m, max);
      M.ClaimKeeps(M.Disown(t, m), p, m, max);
    } else if m !in t.tree {
      M.ClaimKeeps(t, p, m, max);
    }
  }

  function Step(c: Config, d: Decider, e: Event): (t: Decider)
    requires ConfigOk(c) && Inv(c, d) && Enabled(d, e)
    ensures Inv(c, t)
  {
    hide M.OwnersOk, M.TreeOk, G.PeersOk, X.Inv;
    match e
    case AddPeer(p) =>
      Decider(M.AddPeer(d.macs, p, c.maxMacs), G.AddPeer(d.groups, p, c.maxGroups), d.peers + [p])
    case RemovePeer(p) =>
      WithoutDistinct(d.peers, p);
      Decider(M.RemovePeer(d.macs, p, c.maxMacs), G.RemovePeer(d.groups, p, c.maxGroups), Without(d.peers, p))
    case Seen(p, m) =>
      LearnOwners(d.macs, p, m, c.maxMacs);
      d.(macs := M.Learn(d.macs, p, m, c.maxMacs))
    case Report(p, g, now) =>
      JoinPeers(d.groups, p, g, now + c.interval, c.maxGroups);
      d.(groups := G.Join(d.groups, p, g, now + c.interval, c.maxGroups))
    case Expire(p, g, _) =>
      var x := Entry(d, p, g);
      LeavePeers(d.groups, x, c.maxGroups);
      d.(groups := G.Leave(d.groups, x, c.maxGroups))
    case Query(g, now) => d.(groups := G.Query(d.groups, g, now + c.lastMemberTime, c.maxGroups))
  }

  /** Freeing a peer is freeing it in each table. */
  lemma RemoveParts(c: Config, d: Decider, p: PeerId)
    requires ConfigOk(c) && Inv(c, d) && p in d.macs.owners
    ensures M.Inv(d.macs, c.maxMacs) && G.Inv(d.groups, c.maxGroups) && Distinct(d.peers) && p in d.peers && p in d.groups.peers
    ensures Enabled(d, RemovePeer(p))
    ensures Step(c, d, RemovePeer(p))
      == Decider(M.RemovePeer(d.macs, p, c.maxMacs), G.RemovePeer(d.groups, p, c.maxGroups), Without(d.peers, p))
  {
    hide M.Inv, G.Inv;
  }

  lemma JoinPeers(s: G.Groups, p: PeerId, g: G.Group, endtime: int, max: nat)
    requires G.Inv(s, max) && max > 0 && p in s.peers
    ensures G.Join(s, p, g, endtime, max).peers.Keys == s.peers.Keys
  {
    hide G.PeersOk, X.Inv, X.Add, X.Remove;
    if g !in s.peers[p].tree {
      G.EnterKeeps(s, p, g, endtime, max);
    }
  }

  lemma LeavePeers(s: G.Groups, e: X.Id, max: nat)
    requires G.Inv(s, max) && e in s.joined
    ensures G.Leave(s, e, max).peers.Keys == s.peers.Keys
  {
    hide X.Inv, X.Remove;
    G.DropIndex(s, e);
  }

  ghost predicate Legal(c: Config, d: Decider, es: seq<Event>)
    requires ConfigOk(c) && Inv(c, d)
    decreases |es|
  {
    es == [] || (Enabled(d, es[0]) && Legal(c, Step(c, d, es[0]), es[1..]))
  }

  /** Whatever is learned, joined, expired, added and removed, the tables stay in agreement. */
  function Run(c: Config, d: Decider, es: seq<Event>): (t: Decider)
    requires ConfigOk(c) && Inv(c, d) && Legal(c, d, es)
    ensures Inv(c, t)
    decreases |es|
  {
    if es == [] then d else Run(c, Step(c, d, es[0]), es[1..])
  }

  // ----- what follows -----

  /** The hardware address a group's frames are sent to (section 6.4 of RFC 1112). */
  function MulticastMac(g: G.Group): Mac { 0x1_005E * 0x100_0000 + g % 0x80_0000 }

  lemma MacOfGroup(g: G.Group)
    ensures IsMulticast(MulticastMac(g)) && MulticastMac(g) != BROADCAST && SigOfMac(MulticastMac(g)) == G.SigOf(g)
  {
  }

  /** A frame to a group goes once for each membership whose group has its signature; so it reaches every member. */
  lemma GroupFrame(c: Config, d: Decider, g: G.Group)
    requires Inv(c, d)
    ensures exists q: seq<X.Id> ::
      && Distinct(q) && (forall e :: e in q <==> e in d.groups.joined && G.SigOf(d.groups.joined[e].group) == G.SigOf(g))
      && Destinations(c, d, Frame(MulticastMac(g), false, None)) == PeersOf(q)
    ensures forall e :: e in d.groups.joined && d.groups.joined[e].group == g ==>
      e.peer in Destinations(c, d, Frame(MulticastMac(g), false, None))
  {
    hide M.Inv, G.Inv, G.SigOf, SigOfMac, IsMulticast;
    MacOfGroup(g);
    G.ListenersExact(d.groups, G.SigOf(g), c.maxGroups);
    var q := G.Listeners(d.groups, G.SigOf(g));
    assert Destinations(c, d, Frame(MulticastMac(g), false, None)) == PeersOf(q);
    forall e | e in d.groups.joined && d.groups.joined[e].group == g
      ensures e.peer in PeersOf(q)
    {
      assert e in q;
      var i :| 0 <= i < |q| && q[i] == e;
      assert PeersOf(q)[i] == e.peer;
    }
  }

  /** A frame to an ordinary address goes to the peer it was last seen from, and to nobody else. */
  lemma LearnedFrame(c: Config, d: Decider, p: PeerId, m: Mac)
    requires ConfigOk(c) && Inv(c, d) && p in d.macs.owners && m != BROADCAST && !IsMulticast(m)
    ensures Destinations(c, Step(c, d, Seen(p, m)), Frame(m, false, None)) == [p]
  {
    hide G.Inv, M.OwnersOk, M.TreeOk, IsMulticast, M.Learn;
    var t := M.Learn(d.macs, p, m, c.maxMacs);
    M.LearnRefines(d.macs, p, m, c.maxMacs, p);
    LearnOwners(d.macs, p, m, c.maxMacs);
    M.SeenExact(t, m, p, c.maxMacs);
  }
}
