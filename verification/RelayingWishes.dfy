/** What the client asks of the data protocol follows the state of its peers, so no sink is freed while a flow desires it. */
module RelayingWishes {
  import opened Wrappers
  import opened Seqs
  import opened Relaying
  import D = DataProto
  import W = DataProtoWishes
  import R = RelayRouter

  /** A peer's local flow desires its own link's sink, else its relay's, else none. */
  function LocalWish(x: Peer, p: PeerId): Option<D.SinkId> {
    if x.haveLink then Some(p) else x.relaying
  }

  ghost predicate LocalAgrees(n: Net, w: W.Wishes) {
    && (forall p :: D.Local(p) in w.desired <==> p in n.peers)
    && (forall p :: p in n.peers ==> w.desired[D.Local(p)] == LocalWish(n.peers[p], p))
    && (forall p :: p in w.sinks <==> p in n.peers && n.peers[p].haveLink)
  }

  lemma SameConnections(n: Net, t: Net, w: W.Wishes)
    requires LocalAgrees(n, w) && t.peers.Keys == n.peers.Keys
    requires forall p :: p in n.peers ==>
      t.peers[p].haveLink == n.peers[p].haveLink && t.peers[p].relaying == n.peers[p].relaying
    ensures LocalAgrees(t, w)
  {
  }

  lemma InstallAgrees(n: Net, w: W.Wishes, p: PeerId, r: PeerId)
    requires LocalAgrees(n, w) && StatesOk(n) && Unconnected(n, p) && r in n.peers && n.peers[r].isRelay
    ensures D.Local(p) in w.desired && w.desired[D.Local(p)].None? && r in w.sinks
    ensures LocalAgrees(Install(n, p, r), W.Attach(w, D.Local(p), r))
  {
  }

  lemma FreeRelayingAgrees(n: Net, w: W.Wishes, p: PeerId)
    requires LocalAgrees(n, w) && StatesOk(n) && UsersOk(n) && p in n.peers && n.peers[p].relaying.Some?
    ensures D.Local(p) in w.desired && w.desired[D.Local(p)].Some?
    ensures LocalAgrees(FreeRelaying(n, p), W.Detach(w, D.Local(p)))
  {
  }

  /** Local flows do not matter to the relay flows. */
  lemma FollowsAttach(r: R.Router, w: W.Wishes, p: PeerId, k: D.SinkId)
    requires R.Follows(r, w) && D.Local(p) in w.desired && w.desired[D.Local(p)].None? && k in w.sinks
    ensures R.Follows(r, W.Attach(w, D.Local(p), k))
  {
  }

  lemma FollowsDetach(r: R.Router, w: W.Wishes, p: PeerId)
    requires R.Follows(r, w) && D.Local(p) in w.desired && w.desired[D.Local(p)].Some?
    ensures R.Follows(r, W.Detach(w, D.Local(p)))
  {
  }

  /** Relay flows do not matter to the agreement of the local ones. */
  lemma LocalSameAgrees(n: Net, w: W.Wishes, v: W.Wishes)
    requires LocalAgrees(n, w) && R.LocalSame(w, v)
    ensures LocalAgrees(n, v)
  {
  }

  lemma NewSink(n: Net, w: W.Wishes, p: PeerId)
    requires LocalAgrees(n, w) && Unconnected(n, p)
    ensures p !in w.sinks && D.Local(p) in w.desired && w.desired[D.Local(p)].None?
    ensures LocalAgrees(SetLink(n, p, true), W.Attach(W.AddSink(w, p), D.Local(p), p))
  {
  }

  lemma FollowsSink(r: R.Router, w: W.Wishes, p: D.SinkId)
    requires R.Follows(r, w) && p !in w.sinks
    ensures R.Follows(r, W.AddSink(w, p))
  {
  }

  /** A new link: its sink is created, then the local flow and the relay flows are attached to it. */
  lemma InitLinkAgrees(n: Net, r: R.Router, w: W.Wishes, p: PeerId)
    requires LocalAgrees(n, w) && R.Follows(r, w) && R.Indexed(r.to, r.flows, R.Dest) && Unconnected(n, p)
    requires p in r.to && p in r.dp && r.dp[p].None?
    ensures p !in w.sinks && D.Local(p) in w.desired && w.desired[D.Local(p)].None?
    ensures var v := W.Attach(W.AddSink(w, p), D.Local(p), p);
      && R.Follows(r, v)
      && (forall i :: i in r.to[p] ==> D.Relayed(i) in v.desired && v.desired[D.Relayed(i)].None?)
      && LocalAgrees(SetLink(n, p, true), R.AttachAll(v, r.to[p], p))
      && R.Follows(R.SetLink(r, p, Some(p)), R.AttachAll(v, r.to[p], p))
  {
    hide LocalAgrees, R.Follows, R.Indexed, R.AttachAll;
    NewSink(n, w, p);
    FollowsSink(r, w, p);
    var v := W.Attach(W.AddSink(w, p), D.Local(p), p);
    FollowsAttach(r, W.AddSink(w, p), p, p);
    R.AttachAllFollows(r, v, p, p);
    LocalSameAgrees(SetLink(n, p, true), v, R.AttachAll(v, r.to[p], p));
  }

  /** Of the local flows only the peer's own desires its link's sink, as long as the peer is no relay. */
  lemma LocalUndesired(n: Net, w: W.Wishes, p: PeerId, q: PeerId)
    requires LocalAgrees(n, w) && UsersOk(n) && p in n.peers && !n.peers[p].isRelay && q in n.peers && q != p
    ensures D.Local(q) in w.desired && w.desired[D.Local(q)] != Some(p)
  {
  }

  lemma RelayedUndesired(n: Net, r: R.Router, w: W.Wishes, p: PeerId, i: R.FlowNo)
    requires R.Follows(r, w) && R.Indexed(r.to, r.flows, R.Dest) && LinksFollow(n, r) && p in n.peers && n.peers[p].haveLink
    requires D.Relayed(i) in w.desired
    ensures p in r.to && p in r.dp && (i !in r.to[p] ==> w.desired[D.Relayed(i)] != Some(p))
  {
  }

  /** Once the relay flows and the local flow of a link that is no relay are detached, no flow desires its sink. */
  lemma FreeLinkUndesired(n: Net, r: R.Router, w: W.Wishes, p: PeerId)
    requires LocalAgrees(n, w) && StatesOk(n) && UsersOk(n) && p in n.peers && n.peers[p].haveLink && !n.peers[p].isRelay
    requires R.Follows(r, w) && R.Indexed(r.to, r.flows, R.Dest) && LinksFollow(n, r)
    ensures p in r.to && forall i :: i in r.to[p] ==> D.Relayed(i) in w.desired && w.desired[D.Relayed(i)].Some?
    ensures var v := R.DetachAll(w, r.to[p]);
      && D.Local(p) in v.desired && v.desired[D.Local(p)].Some?
      && W.Undesired(W.Detach(v, D.Local(p)), p)
  {
    hide UsersOk, StatesOk, R.Follows, R.Indexed, R.DetachAll, LocalAgrees, LinksFollow;
    LinkEnds(n, r, w, p);
    R.DetachAllFollows(r, w, p);
    var u := R.DetachAll(w, r.to[p]);
    var v := W.Detach(u, D.Local(p));
    forall f | f in v.desired
      ensures v.desired[f] != Some(p)
    {
      match f
      case Local(q) =>
        if q != p {
          LocalKnown(n, w, q);
          LocalUndesired(n, w, p, q);
        }
      case Relayed(i) =>
        RelayedUndesired(n, r, w, p, i);
    }
  }

  lemma LocalKnown(n: Net, w: W.Wishes, q: PeerId)
    requires LocalAgrees(n, w)
    ensures D.Local(q) in w.desired <==> q in n.peers
  {
  }

  lemma LinkEnds(n: Net, r: R.Router, w: W.Wishes, p: PeerId)
    requires LocalAgrees(n, w) && LinksFollow(n, r) && p in n.peers && n.peers[p].haveLink
    ensures p in r.to && p in r.dp && r.dp[p].Some? && p in w.sinks
    ensures D.Local(p) in w.desired && w.desired[D.Local(p)].Some?
    ensures forall q :: q in R.SetLink(r, p, None).dp ==> R.SetLink(r, p, None).dp[q] != Some(p)
  {
  }

  /** The router's ends are those of the peers and have their links. */
  ghost predicate LinksFollow(n: Net, r: R.Router) {
    && r.from.Keys == n.peers.Keys && r.to.Keys == n.peers.Keys && r.dp.Keys == n.peers.Keys
    && forall p :: p in n.peers ==> r.dp[p] == if n.peers[p].haveLink then Some(p) else None
  }

  lemma LocalFreed(n: Net, v: W.Wishes, p: PeerId)
    requires LocalAgrees(n, v) && p in n.peers && n.peers[p].haveLink && n.peers[p].relaying.None?
    requires W.Undesired(W.Detach(v, D.Local(p)), p)
    ensures LocalAgrees(SetLink(n, p, false), W.RemoveSink(W.Detach(v, D.Local(p)), p))
  {
  }

  lemma RelayedFreed(r: R.Router, v: W.Wishes, p: PeerId)
    requires R.Follows(r, v) && p in v.sinks && D.Local(p) in v.desired && v.desired[D.Local(p)].Some?
    requires W.Undesired(W.Detach(v, D.Local(p)), p) && forall q :: q in r.dp ==> r.dp[q] != Some(p)
    ensures R.Follows(r, W.RemoveSink(W.Detach(v, D.Local(p)), p))
  {
  }

  lemma FreeLinkAgrees(n: Net, r: R.Router, w: W.Wishes, p: PeerId)
    requires LocalAgrees(n, w) && StatesOk(n) && UsersOk(n) && p in n.peers && n.peers[p].haveLink && !n.peers[p].isRelay
    requires R.Follows(r, w) && R.Indexed(r.to, r.flows, R.Dest) && LinksFollow(n, r)
    ensures forall i :: i in r.to[p] ==> D.Relayed(i) in w.desired && w.desired[D.Relayed(i)].Some?
    ensures var v := R.DetachAll(w, r.to[p]);
      && p in w.sinks && D.Local(p) in v.desired && v.desired[D.Local(p)].Some? && W.Undesired(W.Detach(v, D.Local(p)), p)
      && LocalAgrees(SetLink(n, p, false), W.RemoveSink(W.Detach(v, D.Local(p)), p))
      && R.Follows(R.SetLink(r, p, None), W.RemoveSink(W.Detach(v, D.Local(p)), p))
  {
    hide UsersOk, R.Follows, R.Indexed, R.DetachAll, LocalAgrees, LinksFollow;
    LinkEnds(n, r, w, p);
    FreeLinkUndesired(n, r, w, p);
    R.DetachAllFollows(r, w, p);
    var v := R.DetachAll(w, r.to[p]);
    LocalSameAgrees(n, w, v);
    LocalFreed(n, v, p);
    RelayedFreed(R.SetLink(r, p, None), v, p);
  }

  // ----- peers, router and data protocol together -----

  ghost predicate Agreed(n: Net, r: R.Router, w: W.Wishes) {
    Inv(n) && R.Inv(r) && LinksFollow(n, r) && LocalAgrees(n, w) && R.Follows(r, w)
  }

  /** The peers are connected as before. */
  ghost predicate ConnectedSame(n: Net, t: Net) {
    && t.peers.Keys == n.peers.Keys
    && forall p :: p in n.peers ==>
         t.peers[p].haveLink == n.peers[p].haveLink && t.peers[p].relaying == n.peers[p].relaying
  }

  lemma SameLinks(n: Net, t: Net, r: R.Router)
    requires LinksFollow(n, r) && t.peers.Keys == n.peers.Keys
    requires forall p :: p in n.peers ==> t.peers[p].haveLink == n.peers[p].haveLink
    ensures LinksFollow(t, r)
  {
  }

  lemma SameAgreed(n: Net, t: Net, r: R.Router, w: W.Wishes)
    requires Agreed(n, r, w) && Inv(t) && ConnectedSame(n, t)
    ensures Agreed(t, r, w)
  {
    hide Inv, R.Inv, LinksFollow, LocalAgrees, R.Follows;
    SameConnections(n, t, w);
    SameLinks(n, t, r);
  }

  lemma RegisterAgreed(n: Net, r: R.Router, w: W.Wishes, p: PeerId)
    requires Agreed(n, r, w) && Unconnected(n, p)
    ensures Agreed(Register(n, p), r, w)
  {
    hide Inv, R.Inv, LinksFollow, LocalAgrees, R.Follows;
    RegisterKeeps(n, p);
    SameAgreed(n, Register(n, p), r, w);
  }

  lemma UnregisterAgreed(n: Net, r: R.Router, w: W.Wishes, p: PeerId)
    requires Agreed(n, r, w) && p in n.peers && n.peers[p].waiting
    ensures Agreed(Unregister(n, p), r, w) && Unconnected(Unregister(n, p), p)
  {
    hide Inv, R.Inv, LinksFollow, LocalAgrees, R.Follows;
    UnregisterKeeps(n, p);
    SameAgreed(n, Unregister(n, p), r, w);
  }

  lemma InstallAgreed(n: Net, r: R.Router, w: W.Wishes, p: PeerId, relay: PeerId)
    requires Agreed(n, r, w) && Unconnected(n, p) && relay in n.peers && n.peers[relay].isRelay
    ensures D.Local(p) in w.desired && w.desired[D.Local(p)].None? && relay in w.sinks
    ensures Agreed(Install(n, p, relay), r, W.Attach(w, D.Local(p), relay))
  {
    hide Inv, R.Inv, LinksFollow, LocalAgrees, R.Follows, StatesOk, UsersOk;
    InstallKeeps(n, p, relay);
    StatesOf(n);
    InstallAgrees(n, w, p, relay);
    FollowsAttach(r, w, p, relay);
    SameLinks(n, Install(n, p, relay), r);
  }

  lemma RelayOf(n: Net, p: PeerId)
    requires Inv(n) && p in n.peers && n.peers[p].relaying.Some?
    ensures n.peers[p].relaying.value in n.peers && n.peers[p].relaying.value != p
  {
  }

  lemma FreeRelayingAgreed(n: Net, r: R.Router, w: W.Wishes, p: PeerId)
    requires Agreed(n, r, w) && p in n.peers && n.peers[p].relaying.Some?
    ensures n.peers[p].relaying.value in n.peers && n.peers[p].relaying.value != p
    ensures D.Local(p) in w.desired && w.desired[D.Local(p)].Some?
    ensures Agreed(FreeRelaying(n, p), r, W.Detach(w, D.Local(p))) && Unconnected(FreeRelaying(n, p), p)
  {
    hide Inv, R.Inv, LinksFollow, LocalAgrees, R.Follows, StatesOk, UsersOk;
    RelayOf(n, p);
    FreeRelayingKeeps(n, p);
    StatesOf(n);
    FreeRelayingAgrees(n, w, p);
    FollowsDetach(r, w, p);
    SameLinks(n, FreeRelaying(n, p), r);
  }

  lemma AssignFirstAgreed(n: Net, r: R.Router, w: W.Wishes)
    requires Agreed(n, r, w) && n.waiting != [] && n.relays != []
    ensures Inv(n)
    ensures var p, relay := n.waiting[0], n.relays[0];
      && p in n.peers && n.peers[p].waiting && relay in n.peers && n.peers[relay].isRelay && p != relay
      && Unconnected(Unregister(n, p), p) && |AssignFirst(n).waiting| < |n.waiting|
      && AssignFirst(n) == Install(Unregister(n, p), p, relay)
      && D.Local(p) in w.desired && w.desired[D.Local(p)].None? && relay in w.sinks
      && Agreed(AssignFirst(n), r, W.Attach(w, D.Local(p), relay))
  {
    var p, relay := n.waiting[0], n.relays[0];
    assert p in n.waiting && relay in n.relays;
    FirstGone(n.waiting);
    UnregisterAgreed(n, r, w, p);
    InstallAgreed(Unregister(n, p), r, w, p, relay);
  }

  lemma DisbandFirstAgreed(n: Net, r: R.Router, w: W.Wishes, relay: PeerId)
    requires Agreed(n, r, w) && relay in n.peers && n.peers[relay].isRelay && n.peers[relay].users != []
    ensures Inv(n)
    ensures var p := n.peers[relay].users[0];
      && p in n.peers && n.peers[p].relaying == Some(relay) && p != relay
      && Unconnected(FreeRelaying(n, p), p) && DisbandFirst(n, relay) == Register(FreeRelaying(n, p), p)
      && D.Local(p) in w.desired && w.desired[D.Local(p)].Some?
      && Agreed(DisbandFirst(n, relay), r, W.Detach(w, D.Local(p)))
  {
    var p := n.peers[relay].users[0];
    assert p in n.peers[relay].users;
    FreeRelayingAgreed(n, r, w, p);
    RegisterAgreed(FreeRelaying(n, p), r, W.Detach(w, D.Local(p)), p);
  }

  lemma MakeRelayAgreed(n: Net, r: R.Router, w: W.Wishes, p: PeerId)
    requires Agreed(n, r, w) && p in n.peers && n.peers[p].haveLink && !n.peers[p].isRelay
    ensures Agreed(MakeRelay(n, p), r, w)
  {
    hide Inv, R.Inv, LinksFollow, LocalAgrees, R.Follows;
    MakeRelayKeeps(n, p);
    SameAgreed(n, MakeRelay(n, p), r, w);
  }

  lemma UnmakeRelayAgreed(n: Net, r: R.Router, w: W.Wishes, p: PeerId)
    requires Agreed(n, r, w) && p in n.peers && n.peers[p].isRelay && n.peers[p].users == []
    ensures Agreed(UnmakeRelay(n, p), r, w)
  {
    hide Inv, R.Inv, LinksFollow, LocalAgrees, R.Follows;
    UnmakeRelayKeeps(n, p);
    SameAgreed(n, UnmakeRelay(n, p), r, w);
  }

  /** What the agreement says of one peer's ends. */
  lemma EndsOf(n: Net, r: R.Router, p: PeerId)
    requires LinksFollow(n, r) && R.Inv(r) && p in n.peers
    ensures p in r.from && p in r.to && p in r.dp && R.Indexed(r.to, r.flows, R.Dest)
    ensures r.dp[p] == if n.peers[p].haveLink then Some(p) else None
  {
  }

  lemma StatesOf(n: Net)
    requires Inv(n)
    ensures StatesOk(n) && UsersOk(n)
  {
  }

  lemma InitLinkAgreed(n: Net, r: R.Router, w: W.Wishes, p: PeerId)
    requires Agreed(n, r, w) && Unconnected(n, p)
    ensures p !in w.sinks && D.Local(p) in w.desired && w.desired[D.Local(p)].None? && p in r.to && p in r.dp && r.dp[p].None?
    ensures var v := W.Attach(W.AddSink(w, p), D.Local(p), p);
      && R.Inv(r) && R.Follows(r, v)
      && (forall i :: i in r.to[p] ==> D.Relayed(i) in v.desired && v.desired[D.Relayed(i)].None?)
      && Agreed(SetLink(n, p, true), R.SetLink(r, p, Some(p)), R.AttachAll(v, r.to[p], p))
  {
    hide Inv, R.Inv, LinksFollow, LocalAgrees, R.Follows;
    InitLinkKeeps(n, p);
    EndsOf(n, r, p);
    InitLinkAgrees(n, r, w, p);
    LinksFollowSet(n, SetLink(n, p, true), r, p);
  }

  lemma FreeLinkAgreed(n: Net, r: R.Router, w: W.Wishes, p: PeerId)
    requires Agreed(n, r, w) && p in n.peers && n.peers[p].haveLink && !n.peers[p].isRelay
    ensures R.Inv(r) && R.Follows(r, w) && p in r.to && p in r.dp && r.dp[p].Some?
    ensures forall i :: i in r.to[p] ==> D.Relayed(i) in w.desired && w.desired[D.Relayed(i)].Some?
    ensures var v := R.DetachAll(w, r.to[p]);
      && p in w.sinks && D.Local(p) in v.desired && v.desired[D.Local(p)].Some? && W.Undesired(W.Detach(v, D.Local(p)), p)
      && Agreed(SetLink(n, p, false), R.SetLink(r, p, None), W.RemoveSink(W.Detach(v, D.Local(p)), p))
  {
    hide Inv, StatesOk, UsersOk, R.Inv, LinksFollow, LocalAgrees, R.Follows;
    FreeLinkKeeps(n, p);
    StatesOf(n);
    EndsOf(n, r, p);
    FreeLinkAgrees(n, r, w, p);
    LinksFollowSet(n, SetLink(n, p, false), r, p);
  }

  lemma LinksFollowSet(n: Net, t: Net, r: R.Router, p: PeerId)
    requires LinksFollow(n, r) && p in n.peers && t.peers.Keys == n.peers.Keys
    requires forall q :: q in n.peers && q != p ==> t.peers[q].haveLink == n.peers[q].haveLink
    ensures LinksFollow(t, R.SetLink(r, p, if t.peers[p].haveLink then Some(p) else None))
    ensures R.Inv(r) ==> R.Inv(R.SetLink(r, p, if t.peers[p].haveLink then Some(p) else None))
  {
    hide R.Inv;
    if R.Inv(r) {
      R.SetLinkKeeps(r, p, if t.peers[p].haveLink then Some(p) else None);
    }
  }

  lemma AddPeerAgrees(n: Net, w: W.Wishes, p: PeerId, x: Peer)
    requires LocalAgrees(n, w) && p !in n.peers && !x.haveLink && x.relaying.None?
    ensures D.Local(p) !in w.desired && LocalAgrees(n.(peers := n.peers[p := x]), W.AddFlow(w, D.Local(p)))
  {
  }

  lemma AddPeerFollows(r: R.Router, w: W.Wishes, p: PeerId)
    requires R.Follows(r, w) && D.Local(p) !in w.desired && p !in r.dp
    ensures R.Follows(r, W.AddFlow(w, D.Local(p))) && R.Follows(R.AddPeer(r, p), W.AddFlow(w, D.Local(p)))
  {
  }

  lemma AddPeerLinks(n: Net, r: R.Router, p: PeerId, x: Peer)
    requires LinksFollow(n, r) && !x.haveLink && p !in n.peers
    ensures p !in r.from && p !in r.to && p !in r.dp && LinksFollow(n.(peers := n.peers[p := x]), R.AddPeer(r, p))
  {
  }

  lemma AddPeerAgreed(n: Net, r: R.Router, w: W.Wishes, p: PeerId, x: Peer)
    requires Agreed(n, r, w) && p !in n.peers && !x.haveLink && x.relaying.None? && Inv(n.(peers := n.peers[p := x]))
    ensures D.Local(p) !in w.desired && p !in r.from && p !in r.to && R.Follows(r, W.AddFlow(w, D.Local(p)))
    ensures Agreed(n.(peers := n.peers[p := x]), R.AddPeer(r, p), W.AddFlow(w, D.Local(p)))
  {
    hide Inv, R.Inv, LinksFollow, LocalAgrees, R.Follows;
    AddPeerAgrees(n, w, p, x);
    AddPeerLinks(n, r, p, x);
    AddPeerFollows(r, w, p);
    R.AddPeerKeeps(r, p);
  }

  lemma RemovePeerAgrees(n: Net, w: W.Wishes, p: PeerId)
    requires LocalAgrees(n, w) && Unconnected(n, p)
    ensures D.Local(p) in w.desired && w.desired[D.Local(p)].None?
    ensures LocalAgrees(n.(peers := n.peers - {p}), W.RemoveFlow(w, D.Local(p)))
  {
  }

  lemma RemovePeerFollows(r: R.Router, w: W.Wishes, p: PeerId)
    requires R.Follows(r, w) && D.Local(p) in w.desired && w.desired[D.Local(p)].None?
    ensures R.Follows(r, W.RemoveFlow(w, D.Local(p)))
  {
  }

  lemma RemovePeerLinks(n: Net, r: R.Router, p: PeerId, t: R.Router)
    requires LinksFollow(n, r)
    requires t.from.Keys == r.from.Keys - {p} && t.to.Keys == r.to.Keys - {p} && t.dp == r.dp - {p}
    ensures LinksFollow(n.(peers := n.peers - {p}), t)
  {
  }

  lemma RemovePeerAgreed(n: Net, r: R.Router, w: W.Wishes, p: PeerId, t: R.Router, v: W.Wishes)
    requires Agreed(n, r, w) && Unconnected(n, p) && Inv(n.(peers := n.peers - {p})) && p in r.from && p in r.to
    requires t == R.Depart(r, p) && R.LocalSame(w, v) && R.Follows(t, v)
    ensures D.Local(p) in v.desired && v.desired[D.Local(p)].None?
    ensures Agreed(n.(peers := n.peers - {p}), t, W.RemoveFlow(v, D.Local(p)))
  {
    hide Inv, R.Inv, LinksFollow, LocalAgrees, R.Follows, R.LocalSame;
    LocalSameAgrees(n, w, v);
    RemovePeerAgrees(n, v, p);
    RemovePeerFollows(t, v, p);
    RemovePeerLinks(n, r, p, t);
  }
}
