/** The handlers of the client that make, break and relay connections, and what holds after every one of them. */
module RelayingClient {
  import opened Wrappers
  import opened Seqs
  import opened Relaying
  import opened RelayingWishes
  import R = RelayRouter

  // ----- handlers, on the peers alone -----

  /** The same peers have links. */
  ghost predicate LinksSame(n: Net, t: Net) {
    t.peers.Keys == n.peers.Keys && forall p :: p in n.peers ==> t.peers[p].haveLink == n.peers[p].haveLink
  }

  ghost predicate RelaysSame(n: Net, t: Net) {
    t.peers.Keys == n.peers.Keys && forall p :: p in n.peers ==> t.peers[p].isRelay == n.peers[p].isRelay
  }

  lemma AssignSame(n: Net)
    requires Inv(n)
    ensures LinksSame(n, Assign(n)) && RelaysSame(n, Assign(n))
  {
    hide Inv, Assign;
    AssignExact(n);
  }

  lemma DismissedSame(n: Net, q: seq<PeerId>, r: PeerId, t: Net)
    requires Dismissed(n, q, r, t)
    ensures LinksSame(n, t) && RelaysSame(n, t)
  {
    forall p | p in n.peers
      ensures t.peers[p].haveLink == n.peers[p].haveLink && t.peers[p].isRelay == n.peers[p].isRelay
    {
      if p == r {
        assert t.peers[r] == n.peers[r].(users := n.peers[r].users[|q|..]);
      }
    }
  }

  lemma DisbandSame(n: Net, r: PeerId)
    requires Inv(n) && r in n.peers && n.peers[r].isRelay
    ensures LinksSame(n, Disband(n, r)) && RelaysSame(n, Disband(n, r))
  {
    hide Inv, Disband, Dismissed;
    DisbandExact(n, r);
    DismissedSame(n, n.peers[r].users, r, Disband(n, r));
  }

  function Enable(n: Net, p: PeerId): (t: Net)
    requires Inv(n) && p in n.peers && n.peers[p].haveLink && !n.peers[p].isRelay
    ensures Inv(t) && Settled(t) && LinksSame(n, t)
  {
    EnableKeeps(n, p);
    Assign(MakeRelay(n, p))
  }

  lemma EnableKeeps(n: Net, p: PeerId)
    requires Inv(n) && p in n.peers && n.peers[p].haveLink && !n.peers[p].isRelay
    ensures Inv(MakeRelay(n, p)) && LinksSame(n, Assign(MakeRelay(n, p)))
  {
    hide Inv, Assign;
    MakeRelayKeeps(n, p);
    AssignSame(MakeRelay(n, p));
  }

  function Disable(n: Net, p: PeerId): (t: Net)
    requires Inv(n) && p in n.peers && n.peers[p].isRelay
    ensures Inv(t) && Settled(t) && LinksSame(n, t) && !t.peers[p].isRelay
  {
    DisableKeeps(n, p);
    Assign(UnmakeRelay(Disband(n, p), p))
  }

  lemma DisableKeeps(n: Net, p: PeerId)
    requires Inv(n) && p in n.peers && n.peers[p].isRelay
    ensures p in Disband(n, p).peers && Inv(UnmakeRelay(Disband(n, p), p))
    ensures var t := Assign(UnmakeRelay(Disband(n, p), p)); LinksSame(n, t) && !t.peers[p].isRelay
  {
    hide Inv, Assign, Disband;
    DisbandSame(n, p);
    UnmakeRelayKeeps(Disband(n, p), p);
    AssignSame(UnmakeRelay(Disband(n, p), p));
  }

  /** Only `p` may have lost its link. */
  ghost predicate OnlyLost(n: Net, p: PeerId, t: Net) {
    t.peers.Keys == n.peers.Keys && forall q :: q in n.peers && q != p ==> t.peers[q].haveLink == n.peers[q].haveLink
  }

  /** Whatever connects the peer is undone. */
  function Cleanup(n: Net, p: PeerId): (t: Net)
    requires Inv(n) && p in n.peers
    ensures Inv(t) && Unconnected(t, p) && (Settled(n) ==> Settled(t)) && OnlyLost(n, p, t)
  {
    if n.peers[p].haveLink then
      var m := if n.peers[p].isRelay then Disable(n, p) else n;
      LinkUndone(n, m, p);
      SetLink(m, p, false)
    else if n.peers[p].relaying.Some? then
      RelayingUndone(n, p);
      FreeRelaying(n, p)
    else if n.peers[p].waiting then
      WaitingUndone(n, p);
      Unregister(n, p)
    else
      StatesOf(n);
      n
  }

  lemma LinkUndone(n: Net, m: Net, p: PeerId)
    requires Inv(m) && LinksSame(n, m) && p in m.peers && m.peers[p].haveLink && !m.peers[p].isRelay
    ensures var t := SetLink(m, p, false); Inv(t) && Unconnected(t, p) && (Settled(m) ==> Settled(t)) && OnlyLost(n, p, t)
  {
    hide Inv;
    FreeLinkKeeps(m, p);
  }

  lemma RelayingUndone(n: Net, p: PeerId)
    requires Inv(n) && p in n.peers && n.peers[p].relaying.Some?
    ensures n.peers[p].relaying.value in n.peers && n.peers[p].relaying.value != p
    ensures var t := FreeRelaying(n, p); Inv(t) && Unconnected(t, p) && (Settled(n) ==> Settled(t)) && OnlyLost(n, p, t)
  {
    hide Inv;
    RelayOf(n, p);
    FreeRelayingKeeps(n, p);
  }

  lemma WaitingUndone(n: Net, p: PeerId)
    requires Inv(n) && p in n.peers && n.peers[p].waiting
    ensures var t := Unregister(n, p); Inv(t) && Unconnected(t, p) && (Settled(n) ==> Settled(t)) && OnlyLost(n, p, t)
  {
    hide Inv;
    UnregisterKeeps(n, p);
  }

  /** What connects the peer is replaced by waiting for a relay. */
  function NeedRelay(n: Net, p: PeerId): (t: Net)
    requires Inv(n) && p in n.peers && !n.peers[p].isRelay
    ensures Inv(t) && (Settled(n) ==> Settled(t)) && OnlyLost(n, p, t) && !t.peers[p].haveLink
  {
    NeedRelayKeeps(n, p);
    if n.peers[p].waiting then n else Assign(Register(Cleanup(n, p), p))
  }

  lemma NeedRelayKeeps(n: Net, p: PeerId)
    requires Inv(n) && p in n.peers
    ensures Inv(Register(Cleanup(n, p), p))
    ensures var t := Assign(Register(Cleanup(n, p), p)); OnlyLost(n, p, t) && !t.peers[p].haveLink
    ensures n.peers[p].waiting ==> !n.peers[p].haveLink
  {
    hide Inv, Assign, Cleanup;
    StatesOf(n);
    RegisterKeeps(Cleanup(n, p), p);
    AssignSame(Register(Cleanup(n, p), p));
  }

  function AddPeer(n: Net, p: PeerId, canRelay: bool): (t: Net)
    requires Inv(n) && p !in n.peers
    ensures Inv(t) && Unconnected(t, p) && t.relays == n.relays && t.waiting == n.waiting
  {
    n.(peers := n.peers[p := Peer(false, None, false, false, [], canRelay)])
  }

  function RemovePeer(n: Net, p: PeerId): (t: Net)
    requires Inv(n) && Unconnected(n, p)
    ensures Inv(t) && t.relays == n.relays && t.waiting == n.waiting
  {
    n.(peers := n.peers - {p})
  }

  // ----- the client -----

  datatype Client = Client(net: Net, router: R.Router)

  ghost predicate ClientInv(c: Client) {
    Inv(c.net) && R.Inv(c.router) && LinksFollow(c.net, c.router)
  }

  datatype Event =
    | Add(p: PeerId, canRelay: bool)
    | Remove(p: PeerId)
    | Fresh(p: PeerId, ok: bool)
    | Reset(p: PeerId)
    | CannotBind(p: PeerId)
    | Report(p: PeerId, up: bool)
    | Submit(source: PeerId, dest: PeerId, i: R.FlowNo)
    | Routed
    | Inactive(i: R.FlowNo)

  /** A sink reports only while it exists; a frame is relayed between known peers, one at a time. */
  predicate Enabled(c: Client, e: Event) {
    match e
    case Fresh(p, _) => p in c.net.peers
    case Reset(p) => p in c.net.peers
    case CannotBind(p) => p in c.net.peers
    case Report(p, _) => p in c.net.peers && c.net.peers[p].haveLink
    case Submit(s, d, i) => s in c.net.peers && d in c.net.peers && i !in c.router.flows && c.router.current.None?
    case Inactive(i) => i in c.router.flows
    case _ => true
  }

  ghost predicate Between(c: Client) {
    ClientInv(c) && Settled(c.net)
  }

  /** The peer's router end is without a link, like the peer. */
  function CleanupClient(c: Client, p: PeerId): (t: Client)
    requires Between(c) && p in c.net.peers
    ensures Between(t) && Unconnected(t.net, p) && t.net.peers.Keys == c.net.peers.Keys
  {
    LinksFollowSet(c.net, Cleanup(c.net, p), c.router, p);
    Client(Cleanup(c.net, p), R.SetLink(c.router, p, None))
  }

  function InitLinkClient(c: Client, p: PeerId): (t: Client)
    requires Between(c) && Unconnected(c.net, p)
    ensures Between(t) && p in t.net.peers && t.net.peers[p].haveLink
  {
    InitLinkKeeps(c.net, p);
    LinksFollowSet(c.net, SetLink(c.net, p, true), c.router, p);
    Client(SetLink(c.net, p, true), R.SetLink(c.router, p, Some(p)))
  }

  function AddClient(c: Client, p: PeerId, canRelay: bool): (t: Client)
    requires Between(c)
    ensures Between(t)
  {
    if p in c.net.peers then c
    else
      R.AddPeerKeeps(c.router, p);
      AddPeerLinks(c.net, c.router, p, Peer(false, None, false, false, [], canRelay));
      Client(AddPeer(c.net, p, canRelay), R.AddPeer(c.router, p))
  }

  function RemoveClient(c: Client, p: PeerId): (t: Client)
    requires Between(c)
    ensures Between(t)
  {
    if p !in c.net.peers then c
    else
      var m := CleanupClient(c, p);
      RemovePeerLinks(m.net, m.router, p, R.Depart(m.router, p));
      Client(RemovePeer(m.net, p), R.Depart(m.router, p))
  }

  function NeedRelayClient(c: Client, p: PeerId): (t: Client)
    requires Between(c) && p in c.net.peers && !c.net.peers[p].isRelay
    ensures Between(t)
  {
    LinksFollowSet(c.net, NeedRelay(c.net, p), c.router, p);
    Client(NeedRelay(c.net, p), R.SetLink(c.router, p, None))
  }

  function ReportClient(c: Client, p: PeerId, up: bool): (t: Client)
    requires Between(c) && p in c.net.peers && c.net.peers[p].haveLink
    ensures Between(t)
  {
    if up && c.net.peers[p].canRelay && !c.net.peers[p].isRelay then c.(net := Enable(c.net, p))
    else if !up && c.net.peers[p].isRelay then c.(net := Disable(c.net, p))
    else c
  }

  /** Only flows have changed in the router. */
  lemma RouterOnly(c: Client, r: R.Router)
    requires Between(c) && R.Inv(r)
    requires r.from.Keys == c.router.from.Keys && r.to.Keys == c.router.to.Keys && r.dp == c.router.dp
    ensures Between(c.(router := r))
  {
  }

  function SubmitClient(c: Client, s: PeerId, d: PeerId, i: R.FlowNo): (t: Client)
    requires Between(c) && s in c.net.peers && d in c.net.peers && i !in c.router.flows
    ensures Between(t)
  {
    RouterOnly(c, R.Submit(c.router, s, d, i));
    c.(router := R.Submit(c.router, s, d, i))
  }

  function InactiveClient(c: Client, i: R.FlowNo): (t: Client)
    requires Between(c) && i in c.router.flows
    ensures Between(t)
  {
    R.FreeFlowKeeps(c.router, i);
    R.FreeFlowFreed(c.router, i);
    RouterOnly(c, R.FreeFlow(c.router, i));
    c.(router := R.FreeFlow(c.router, i))
  }

  function RoutedClient(c: Client): (t: Client)
    requires Between(c)
    ensures Between(t)
  {
    RouterOnly(c, c.router.(current := None));
    c.(router := c.router.(current := None))
  }

  function Step(c: Client, e: Event): (t: Client)
    requires Between(c) && Enabled(c, e)
    ensures Between(t)
  {
    match e
    case Add(p, canRelay) => AddClient(c, p, canRelay)
    case Remove(p) => RemoveClient(c, p)
    case Fresh(p, ok) => if ok then InitLinkClient(CleanupClient(c, p), p) else CleanupClient(c, p)
    case Reset(p) => CleanupClient(c, p)
    case CannotBind(p) => if c.net.peers[p].isRelay then c else NeedRelayClient(c, p)
    case Report(p, up) => ReportClient(c, p, up)
    case Submit(s, d, i) => SubmitClient(c, s, d, i)
    case Routed => RoutedClient(c)
    case Inactive(i) => InactiveClient(c, i)
  }

  ghost predicate Legal(c: Client, es: seq<Event>)
    requires Between(c)
    decreases |es|
  {
    es == [] || (Enabled(c, es[0]) && Legal(Step(c, es[0]), es[1..]))
  }

  /** After every handler of every run the lists agree with the peers and nobody waits while there is a relay. */
  function Run(c: Client, es: seq<Event>): (t: Client)
    requires Between(c) && Legal(c, es)
    ensures Between(t)
    decreases |es|
  {
    if es == [] then c else Run(Step(c, es[0]), es[1..])
  }

  // ----- what becomes of the peers -----

  /** A peer that cannot be linked ends up with the first relay, or last in the queue for one. */
  lemma NeedRelayOutcome(n: Net, p: PeerId)
    requires Inv(n) && Settled(n) && p in n.peers && !n.peers[p].isRelay && !n.peers[p].waiting
    ensures var t := NeedRelay(n, p);
      if n.relays != [] then t.peers[p].relaying == Some(n.relays[0]) && t.waiting == []
      else t.peers[p].waiting && t.waiting == n.waiting + [p]
  {
    var m := Cleanup(n, p);
    assert m.relays == n.relays && m.waiting == n.waiting;
    RegisterKeeps(m, p);
    AssignExact(Register(m, p));
  }

  /** When a relay comes up, everybody who waited is relayed through it, if there was no other relay. */
  lemma EnableOutcome(n: Net, p: PeerId, q: PeerId)
    requires Inv(n) && Settled(n) && p in n.peers && n.peers[p].haveLink && !n.peers[p].isRelay && q in n.waiting
    ensures q in Enable(n, p).peers && Enable(n, p).peers[q].relaying == Some(p)
  {
    MakeRelayKeeps(n, p);
    AssignExact(MakeRelay(n, p));
  }

  lemma UserKnown(n: Net, p: PeerId, q: PeerId)
    requires Inv(n) && p in n.peers && n.peers[p].isRelay && q in n.peers[p].users
    ensures q in n.peers && q != p && p in n.relays
  {
  }

  /** When a relay goes down, its users move to the first of the other relays, or wait in the order they had. */
  lemma DisableOutcome(n: Net, p: PeerId, q: PeerId)
    requires Inv(n) && Settled(n) && p in n.peers && n.peers[p].isRelay && q in n.peers[p].users
    ensures var t, others := Disable(n, p), Without(n.relays, p);
      && q in t.peers
      && (if others != [] then t.peers[q].relaying == Some(others[0]) else t.peers[q].waiting && t.waiting == n.peers[p].users)
  {
    hide Inv, Assign, Disband, Without;
    UserKnown(n, p, q);
    DisbandExact(n, p);
    var m := Disband(n, p);
    assert m.waiting == n.peers[p].users;
    UnmakeRelayKeeps(m, p);
    AssignExact(UnmakeRelay(m, p));
  }
}
