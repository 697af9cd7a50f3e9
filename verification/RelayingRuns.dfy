/** Who is linked, who relays and who is relayed after any run of the client, told from the events alone. */
module RelayingRuns {
  import opened Wrappers
  import opened Seqs
  import opened Relaying
  import opened RelayingWishes
  import opened RelayingClient
  import R = RelayRouter

  // ----- what the events say -----

  /** The peer may relay; it is linked; its link was last reported up; it cannot be bound and so needs a relay. */
  datatype Fact = Fact(may: bool, linked: bool, up: bool, needs: bool)

  predicate Relays(x: Fact) { x.may && x.linked && x.up }

  /** The relays are in the order they came up. */
  datatype Tale = Tale(facts: map<PeerId, Fact>, relays: seq<PeerId>)

  const NOTHING: Tale := Tale(map[], [])

  function Told(s: Tale, p: PeerId, x: Fact): Tale
    requires p in s.facts
  {
    var was := Relays(s.facts[p]);
    Tale(s.facts[p := x], if Relays(x) && !was then s.relays + [p] else if was && !Relays(x) then Without(s.relays, p) else s.relays)
  }

  function TaleStep(s: Tale, e: Event): Tale {
    match e
    case Add(p, canRelay) => if p in s.facts then s else s.(facts := s.facts[p := Fact(canRelay, false, false, false)])
    case Remove(p) => Tale(s.facts - {p}, Without(s.relays, p))
    case Fresh(p, ok) => if p in s.facts then Told(s, p, Fact(s.facts[p].may, ok, false, false)) else s
    case Reset(p) => if p in s.facts then Told(s, p, Fact(s.facts[p].may, false, false, false)) else s
    case CannotBind(p) => if p in s.facts && !Relays(s.facts[p]) then Told(s, p, Fact(s.facts[p].may, false, false, true)) else s
    case Report(p, up) => if p in s.facts then Told(s, p, s.facts[p].(up := up)) else s
    case _ => s
  }

  function TaleRun(s: Tale, es: seq<Event>): Tale
    decreases |es|
  {
    if es == [] then s else TaleRun(TaleStep(s, es[0]), es[1..])
  }

  // ----- the peers follow it -----

  /** The peer is as the events say; it needs a relay exactly when it has one or waits for one. */
  ghost predicate Fits(x: Peer, f: Fact) {
    && x.canRelay == f.may && x.haveLink == f.linked && (x.isRelay <==> Relays(f)) && (f.up ==> f.linked)
    && (x.relaying.Some? || x.waiting <==> f.needs)
  }

  ghost predicate Follows(n: Net, s: Tale) {
    n.peers.Keys == s.facts.Keys && n.relays == s.relays && forall p :: p in n.peers ==> Fits(n.peers[p], s.facts[p])
  }

  /** What the events tell of a peer is as it was. */
  ghost predicate Alike(x: Peer, y: Peer) {
    && x.canRelay == y.canRelay && x.haveLink == y.haveLink && x.isRelay == y.isRelay
    && (x.relaying.Some? || x.waiting <==> y.relaying.Some? || y.waiting)
  }

  /** All but `p` are alike. */
  ghost predicate OthersAlike(n: Net, p: PeerId, t: Net) {
    t.peers.Keys == n.peers.Keys && p in n.peers && t.peers[p].canRelay == n.peers[p].canRelay
    && forall q :: q in n.peers && q != p ==> Alike(t.peers[q], n.peers[q])
  }

  /** The peer is as it was, except for who is relayed through it. */
  ghost predicate Untouched(n: Net, t: Net, q: PeerId) {
    q in n.peers && q in t.peers && t.peers[q] == n.peers[q].(users := t.peers[q].users)
  }

  /** Nobody is touched but `p` and those relayed through it. */
  ghost predicate UsersTouched(n: Net, p: PeerId, t: Net) {
    forall q :: q in n.peers && q != p && n.peers[q].relaying != Some(p) ==> Untouched(n, t, q)
  }

  /** Nobody is touched but `p` and those that waited. */
  ghost predicate WaitersTouched(n: Net, p: PeerId, t: Net) {
    forall q :: q in n.peers && q != p && !n.peers[q].waiting ==> Untouched(n, t, q)
  }

  lemma Alikes(n: Net, p: PeerId, t: Net, s: Tale, f: Fact)
    requires Follows(n, s) && OthersAlike(n, p, t) && Fits(t.peers[p], f) && t.relays == Told(s, p, f).relays
    ensures Follows(t, Told(s, p, f))
  {
  }

  lemma WaitingIs(n: Net, q: PeerId)
    requires Inv(n) && q in n.peers
    ensures q in n.waiting <==> n.peers[q].waiting
    ensures q in n.relays <==> n.peers[q].isRelay
    ensures n.peers[q].haveLink ==> n.peers[q].relaying.None? && !n.peers[q].waiting
    ensures n.peers[q].isRelay ==> n.peers[q].haveLink
  {
  }

  lemma EnableChanges(n: Net, p: PeerId)
    requires Inv(n) && Settled(n) && p in n.peers && n.peers[p].haveLink && !n.peers[p].isRelay
    ensures var t := Enable(n, p);
      && t.relays == n.relays + [p] && OthersAlike(n, p, t) && WaitersTouched(n, p, t)
      && t.peers[p].isRelay && t.peers[p].haveLink && t.peers[p].relaying.None? && !t.peers[p].waiting
  {
    hide Inv, Assign;
    MakeRelayKeeps(n, p);
    var m, t := MakeRelay(n, p), Enable(n, p);
    AssignExact(m);
    forall q | q in n.peers
      ensures q in n.waiting <==> n.peers[q].waiting
      ensures n.peers[q].haveLink ==> n.peers[q].relaying.None? && !n.peers[q].waiting
    {
      WaitingIs(n, q);
    }
  }

  /** A peer before and after those relayed through `p` have been given another relay or told to wait. */
  predicate Moved(x: Peer, y: Peer, used: bool) {
    if used then y == x.(relaying := y.relaying, waiting := y.waiting) && (y.relaying.Some? || y.waiting)
    else y == x.(users := y.users)
  }

  lemma DisableOne(n: Net, m: Net, p: PeerId, q: PeerId)
    requires Inv(n) && p in n.peers && n.peers[p].isRelay && n.waiting == [] && Dismissed(n, n.peers[p].users, p, m)
    requires q in n.peers && q != p && Inv(UnmakeRelay(m, p))
    ensures var t := Assign(UnmakeRelay(m, p)); q in t.peers && Moved(n.peers[q], t.peers[q], q in n.peers[p].users)
  {
    hide Inv, Assign, Without;
    AssignExact(UnmakeRelay(m, p));
  }

  lemma DisableSelf(n: Net, m: Net, p: PeerId)
    requires Inv(n) && p in n.peers && n.peers[p].isRelay && n.waiting == [] && Dismissed(n, n.peers[p].users, p, m)
    requires Inv(UnmakeRelay(m, p))
    ensures var t := Assign(UnmakeRelay(m, p));
      && t.peers.Keys == n.peers.Keys && t.relays == Without(n.relays, p)
      && t.peers[p] == n.peers[p].(isRelay := false, users := t.peers[p].users)
  {
    hide Inv, Assign, Without;
    AssignExact(UnmakeRelay(m, p));
  }

  lemma DisableChanges(n: Net, p: PeerId)
    requires Inv(n) && Settled(n) && p in n.peers && n.peers[p].isRelay
    ensures var t := Disable(n, p);
      && t.relays == Without(n.relays, p) && OthersAlike(n, p, t) && UsersTouched(n, p, t)
      && !t.peers[p].isRelay && t.peers[p].haveLink && t.peers[p].relaying.None? && !t.peers[p].waiting
  {
    hide Inv, Assign, Disband, Without, Dismissed, UnmakeRelay;
    DisbandExact(n, p);
    var m := Disband(n, p);
    UnmakeRelayKeeps(m, p);
    WaitingIs(n, p);
    UsersOf(n, p);
    DisableSelf(n, m, p);
    forall q | q in n.peers && q != p
      ensures q in Disable(n, p).peers && Moved(n.peers[q], Disable(n, p).peers[q], q in n.peers[p].users)
    {
      DisableOne(n, m, p, q);
    }
  }

  lemma UsersOf(n: Net, p: PeerId)
    requires Inv(n) && Settled(n) && p in n.peers && n.peers[p].isRelay
    ensures n.waiting == [] && forall q :: q in n.peers[p].users <==> q in n.peers && n.peers[q].relaying == Some(p)
  {
  }

  lemma CutLink(n: Net, m: Net, p: PeerId)
    requires OthersAlike(n, p, m) && UsersTouched(n, p, m)
    ensures OthersAlike(n, p, SetLink(m, p, false)) && UsersTouched(n, p, SetLink(m, p, false))
  {
  }

  lemma CutRelaying(n: Net, p: PeerId)
    requires p in n.peers && n.peers[p].relaying.Some? && n.peers[p].relaying.value in n.peers && n.peers[p].relaying.value != p
    ensures var t := FreeRelaying(n, p); t.relays == n.relays && OthersAlike(n, p, t) && UsersTouched(n, p, t)
  {
    hide Without;
  }

  lemma CutWaiting(n: Net, p: PeerId)
    requires p in n.peers && n.peers[p].waiting
    ensures var t := Unregister(n, p); t.relays == n.relays && OthersAlike(n, p, t) && UsersTouched(n, p, t)
  {
    hide Without;
  }

  lemma Nothing(n: Net, p: PeerId)
    requires p in n.peers
    ensures OthersAlike(n, p, n) && UsersTouched(n, p, n)
  {
  }

  lemma CleanupChanges(n: Net, p: PeerId)
    requires Inv(n) && Settled(n) && p in n.peers
    ensures var t := Cleanup(n, p);
      && t.relays == (if n.peers[p].isRelay then Without(n.relays, p) else n.relays)
      && OthersAlike(n, p, t) && UsersTouched(n, p, t)
  {
    hide Inv, Disable, Without, OthersAlike, UsersTouched, FreeRelaying, Unregister;
    WaitingIs(n, p);
    Nothing(n, p);
    if n.peers[p].haveLink {
      if n.peers[p].isRelay {
        DisableChanges(n, p);
      }
      CutLink(n, if n.peers[p].isRelay then Disable(n, p) else n, p);
    } else if n.peers[p].relaying.Some? {
      RelayOf(n, p);
      CutRelaying(n, p);
    } else if n.peers[p].waiting {
      CutWaiting(n, p);
    }
  }

  lemma QueuedOther(m: Net, p: PeerId, q: PeerId)
    requires Unconnected(m, p) && Settled(m) && Inv(Register(m, p)) && q in m.peers && q != p
    ensures Untouched(m, Assign(Register(m, p)), q)
  {
    hide Inv, Assign;
    AssignExact(Register(m, p));
  }

  lemma QueuedSelf(m: Net, p: PeerId)
    requires Unconnected(m, p) && Settled(m) && Inv(Register(m, p))
    ensures var t := Assign(Register(m, p));
      && t.relays == m.relays && t.peers.Keys == m.peers.Keys && t.peers[p].canRelay == m.peers[p].canRelay
      && !t.peers[p].isRelay && !t.peers[p].haveLink && (t.peers[p].relaying.Some? || t.peers[p].waiting)
  {
    hide Inv, Assign;
    AssignExact(Register(m, p));
  }

  lemma Queued(n: Net, m: Net, p: PeerId)
    requires OthersAlike(n, p, m) && UsersTouched(n, p, m) && Unconnected(m, p) && Settled(m) && Inv(Register(m, p))
    ensures var t := Assign(Register(m, p));
      && t.relays == m.relays && OthersAlike(n, p, t) && UsersTouched(n, p, t)
      && !t.peers[p].isRelay && !t.peers[p].haveLink && (t.peers[p].relaying.Some? || t.peers[p].waiting)
  {
    hide Inv, Assign, Register;
    QueuedSelf(m, p);
    forall q | q in m.peers && q != p
      ensures Untouched(m, Assign(Register(m, p)), q)
    {
      QueuedOther(m, p, q);
    }
  }

  lemma NeedRelayChanges(n: Net, p: PeerId)
    requires Inv(n) && Settled(n) && p in n.peers && !n.peers[p].isRelay
    ensures var t := NeedRelay(n, p);
      && t.relays == n.relays && OthersAlike(n, p, t) && UsersTouched(n, p, t)
      && !t.peers[p].isRelay && !t.peers[p].haveLink && (t.peers[p].relaying.Some? || t.peers[p].waiting)
  {
    hide Inv, Assign, Cleanup, Register, OthersAlike, UsersTouched;
    WaitingIs(n, p);
    Nothing(n, p);
    if !n.peers[p].waiting {
      CleanupChanges(n, p);
      NeedRelayKeeps(n, p);
      Queued(n, Cleanup(n, p), p);
    }
  }

  // ----- one event -----

  lemma AddFollows(n: Net, p: PeerId, canRelay: bool, s: Tale)
    requires Inv(n) && p !in n.peers && Follows(n, s)
    ensures Follows(AddPeer(n, p, canRelay), TaleStep(s, Add(p, canRelay)))
  {
    hide Inv;
  }

  lemma RemoveFollows(n: Net, p: PeerId, s: Tale)
    requires Inv(n) && Settled(n) && p in n.peers && Follows(n, s)
    ensures Follows(RemovePeer(Cleanup(n, p), p), TaleStep(s, Remove(p)))
  {
    hide Inv, Cleanup, Without;
    WaitingIs(n, p);
    CleanupChanges(n, p);
  }

  /** Whatever connected the peer is gone. */
  lemma CleanupFollows(n: Net, p: PeerId, s: Tale)
    requires Inv(n) && Settled(n) && p in n.peers && Follows(n, s)
    ensures Follows(Cleanup(n, p), Told(s, p, Fact(s.facts[p].may, false, false, false)))
  {
    hide Inv, Cleanup, Without;
    CleanupChanges(n, p);
    Alikes(n, p, Cleanup(n, p), s, Fact(s.facts[p].may, false, false, false));
  }

  lemma LinkFollows(n: Net, p: PeerId, s: Tale)
    requires Inv(n) && Settled(n) && p in n.peers && Follows(n, s)
    ensures p in Cleanup(n, p).peers
    ensures Follows(SetLink(Cleanup(n, p), p, true), Told(s, p, Fact(s.facts[p].may, true, false, false)))
  {
    hide Inv, Cleanup, Without;
    CleanupFollows(n, p, s);
  }

  lemma CannotBindFollows(n: Net, p: PeerId, s: Tale)
    requires Inv(n) && Settled(n) && p in n.peers && !n.peers[p].isRelay && Follows(n, s)
    ensures Follows(NeedRelay(n, p), Told(s, p, Fact(s.facts[p].may, false, false, true)))
  {
    hide Inv, NeedRelay, Without;
    NeedRelayChanges(n, p);
    Alikes(n, p, NeedRelay(n, p), s, Fact(s.facts[p].may, false, false, true));
  }

  lemma ReportFollows(c: Client, p: PeerId, up: bool, s: Tale)
    requires Between(c) && p in c.net.peers && c.net.peers[p].haveLink && Follows(c.net, s)
    ensures Follows(ReportClient(c, p, up).net, TaleStep(s, Report(p, up)))
  {
    hide Inv, ClientInv, Enable, Disable, Without;
    NetOf(c);
    WaitingIs(c.net, p);
    if up && c.net.peers[p].canRelay && !c.net.peers[p].isRelay {
      EnableChanges(c.net, p);
    } else if !up && c.net.peers[p].isRelay {
      DisableChanges(c.net, p);
    }
    Alikes(c.net, p, ReportClient(c, p, up).net, s, s.facts[p].(up := up));
  }

  lemma NetOf(c: Client)
    requires Between(c)
    ensures Inv(c.net) && Settled(c.net)
  {
  }

  lemma FollowsStep(c: Client, e: Event, s: Tale)
    requires Between(c) && Enabled(c, e) && Follows(c.net, s)
    ensures Follows(Step(c, e).net, TaleStep(s, e))
  {
    hide Inv, ClientInv, Follows, Cleanup, NeedRelay, ReportClient, Without, Told, R.SetLink, R.Depart, R.Submit, R.FreeFlow;
    NetOf(c);
    KeysOf(c.net, s);
    match e
    case Add(p, canRelay) =>
      if p !in c.net.peers {
        AddFollows(c.net, p, canRelay, s);
      }
    case Remove(p) =>
      if p in c.net.peers {
        RemoveFollows(c.net, p, s);
      } else {
        AbsentRemoved(c.net, p, s);
      }
    case Fresh(p, ok) =>
      CleanupFollows(c.net, p, s);
      LinkFollows(c.net, p, s);
    case Reset(p) => CleanupFollows(c.net, p, s);
    case CannotBind(p) =>
      if !c.net.peers[p].isRelay {
        CannotBindFollows(c.net, p, s);
      }
    case Report(p, up) => ReportFollows(c, p, up, s);
    case _ =>
  }

  lemma KeysOf(n: Net, s: Tale)
    requires Follows(n, s)
    ensures n.peers.Keys == s.facts.Keys && forall p :: p in n.peers ==> (n.peers[p].isRelay <==> Relays(s.facts[p]))
  {
  }

  lemma AbsentRemoved(n: Net, p: PeerId, s: Tale)
    requires Inv(n) && Follows(n, s) && p !in n.peers
    ensures Follows(n, TaleStep(s, Remove(p)))
  {
    assert s.facts - {p} == s.facts;
    assert p !in n.relays;
  }

  lemma {:induction false} FollowsRun(c: Client, es: seq<Event>, s: Tale)
    requires Between(c) && Legal(c, es) && Follows(c.net, s)
    ensures Follows(Run(c, es).net, TaleRun(s, es))
    decreases |es|
  {
    hide Between, Follows, Step, TaleStep;
    if es != [] {
      FollowsStep(c, es[0], s);
      FollowsRun(Step(c, es[0]), es[1..], TaleStep(s, es[0]));
    }
  }

  /** Nobody is known yet. */
  const EMPTY: Client := Client(Net(map[], [], []), R.Router(map[], map[], map[], map[], None))

  lemma EmptyFollows()
    ensures Between(EMPTY) && Follows(EMPTY.net, NOTHING)
  {
  }

  /**
  After any run: a peer relays exactly when it was added as one that may and its link, since it was set up, was last
  reported up; and a peer that could not be bound since is relayed if anybody relays, and waits otherwise.
  */
  lemma RelaysExactly(es: seq<Event>, p: PeerId)
    requires Between(EMPTY) && Legal(EMPTY, es)
    ensures var n, s := Run(EMPTY, es).net, TaleRun(NOTHING, es);
      && (p in n.peers <==> p in s.facts) && n.relays == s.relays
      && (p in s.facts ==>
            && (n.peers[p].haveLink <==> s.facts[p].linked)
            && (n.peers[p].isRelay <==> s.facts[p].may && s.facts[p].linked && s.facts[p].up)
            && (n.peers[p].relaying.Some? <==> s.facts[p].needs && s.relays != [])
            && (n.peers[p].waiting <==> s.facts[p].needs && s.relays == []))
  {
    hide Inv, ClientInv, Legal, Run, TaleRun;
    EmptyFollows();
    FollowsRun(EMPTY, es, NOTHING);
    NetOf(Run(EMPTY, es));
    if p in Run(EMPTY, es).net.peers {
      ServedOrWaits(Run(EMPTY, es).net, p);
    }
  }

  lemma ServedOrWaits(n: Net, p: PeerId)
    requires Inv(n) && Settled(n) && p in n.peers
    ensures n.peers[p].relaying.Some? ==> n.relays != [] && !n.peers[p].waiting
    ensures n.peers[p].waiting ==> n.relays == []
  {
    if n.peers[p].relaying.Some? {
      assert n.peers[p].relaying.value in n.relays;
    }
    if n.peers[p].waiting {
      assert p in n.waiting;
    }
  }

  // ----- the outcome of each event -----

  /** A new peer is unconnected and changes nothing for the others; one that is known already changes nothing at all. */
  lemma AddOutcome(c: Client, p: PeerId, canRelay: bool)
    requires Between(c)
    ensures var t := Step(c, Add(p, canRelay));
      if p in c.net.peers then t == c
      else && Unconnected(t.net, p) && t.net.peers[p].canRelay == canRelay && t.net.peers.Keys == c.net.peers.Keys + {p}
           && t.net.relays == c.net.relays && t.net.waiting == c.net.waiting
           && forall q :: q in c.net.peers ==> t.net.peers[q] == c.net.peers[q]
  {
    hide ClientInv;
  }

  lemma RemoveOutcome(c: Client, p: PeerId)
    requires Between(c)
    ensures Step(c, Remove(p)).net.peers.Keys == c.net.peers.Keys - {p}
  {
    hide ClientInv, Inv, Cleanup, R.Depart, R.SetLink;
  }

  /** A peer that is reset is unconnected, and so is one whose new link fails; otherwise the link is all it has. */
  lemma ConnectOutcome(c: Client, p: PeerId, ok: bool)
    requires Between(c) && p in c.net.peers
    ensures Unconnected(Step(c, Reset(p)).net, p) && Step(c, Fresh(p, false)) == Step(c, Reset(p))
    ensures var x := Step(c, Fresh(p, true)).net.peers; p in x && x[p].haveLink && !x[p].isRelay && x[p].relaying.None? && !x[p].waiting
  {
    hide ClientInv, Inv, Cleanup, R.SetLink;
  }

  /** A relay is left alone; any other peer gets the relay that has been up for longest, or is the last to wait for one. */
  lemma CannotBindOutcome(c: Client, p: PeerId)
    requires Between(c) && p in c.net.peers
    ensures var n, t := c.net, Step(c, CannotBind(p)).net;
      if n.peers[p].isRelay || n.peers[p].waiting then t == n
      else if n.relays != [] then t.peers[p].relaying == Some(n.relays[0]) && t.waiting == []
      else t.peers[p].waiting && t.waiting == n.waiting + [p]
  {
    hide ClientInv, Inv, Cleanup, Assign, R.SetLink;
    NetOf(c);
    if !c.net.peers[p].isRelay && !c.net.peers[p].waiting {
      NeedRelayOutcome(c.net, p);
    }
  }

  /** A peer that may relay serves everybody waiting once its link is up. */
  lemma UpOutcome(c: Client, p: PeerId, q: PeerId)
    requires Between(c) && Enabled(c, Report(p, true)) && q in c.net.waiting
    ensures var t := Step(c, Report(p, true)).net;
      if c.net.peers[p].canRelay then q in t.peers && t.peers[q].relaying == Some(p) && t.waiting == [] else t == c.net
  {
    hide ClientInv, Inv, Enable, Disable;
    NetOf(c);
    if c.net.peers[p].isRelay {
      RelayWaits(c.net, p, q);
    } else if c.net.peers[p].canRelay {
      EnableOutcome(c.net, p, q);
      EnableChanges(c.net, p);
    }
  }

  lemma RelayWaits(n: Net, p: PeerId, q: PeerId)
    requires Inv(n) && Settled(n) && p in n.peers && q in n.waiting
    ensures !n.peers[p].isRelay
  {
    assert n.peers[p].isRelay ==> p in n.relays;
  }

  /** Those relayed through a peer whose link goes down move to the relay next longest up, or wait in the order they came. */
  lemma DownOutcome(c: Client, p: PeerId, q: PeerId)
    requires Between(c) && Enabled(c, Report(p, false)) && q in c.net.peers && c.net.peers[q].relaying == Some(p)
    ensures var t, others := Step(c, Report(p, false)).net, Without(c.net.relays, p);
      && q in t.peers
      && if others != [] then t.peers[q].relaying == Some(others[0])
         else t.peers[q].waiting && t.waiting == c.net.peers[p].users
  {
    hide ClientInv, Inv, Enable, Disable, Without;
    NetOf(c);
    UserOf(c.net, p, q);
    DisableOutcome(c.net, p, q);
  }

  lemma UserOf(n: Net, p: PeerId, q: PeerId)
    requires Inv(n) && q in n.peers && n.peers[q].relaying == Some(p)
    ensures p in n.peers && n.peers[p].isRelay && q in n.peers[p].users
  {
  }

  /** No event touches a peer that it is not about, that is not relayed through that one, and that does not wait for its link. */
  lemma Undisturbed(c: Client, e: Event, q: PeerId)
    requires Between(c) && Enabled(c, e) && q in c.net.peers
    requires e.Add? || e.Remove? || e.Fresh? || e.Reset? || e.CannotBind? || e.Report? ==>
      e.p != q && c.net.peers[q].relaying != Some(e.p) && (e.Report? && e.up ==> !c.net.peers[q].waiting)
    ensures Untouched(c.net, Step(c, e).net, q)
  {
    hide Inv, ClientInv, Cleanup, NeedRelay, Enable, Disable, Without, R.SetLink, R.Depart, R.Submit, R.FreeFlow;
    NetOf(c);
    match e
    case Add(_, _) =>
    case Remove(p) =>
      if p in c.net.peers {
        CleanupChanges(c.net, p);
      }
    case Fresh(p, _) => CleanupChanges(c.net, p);
    case Reset(p) => CleanupChanges(c.net, p);
    case CannotBind(p) =>
      if !c.net.peers[p].isRelay {
        NeedRelayChanges(c.net, p);
      }
    case Report(p, up) =>
      if up && c.net.peers[p].canRelay && !c.net.peers[p].isRelay {
        EnableChanges(c.net, p);
      } else if !up && c.net.peers[p].isRelay {
        DisableChanges(c.net, p);
      }
    case _ =>
  }

  /**
  The flows of relayed frames: a frame adds its own if need be and is then the one being passed; a flow goes when it has
  been inactive or one of its ends is removed; the frame being passed is forgotten only with its flow, or once routed.
  */
  lemma FlowsOutcome(c: Client, e: Event)
    requires Between(c) && Enabled(c, e)
    ensures var r, t := c.router, Step(c, e).router;
      match e
      case Submit(s, d, _) => t.current.Some? && t.flows == r.flows[t.current.value := R.Pair(s, d)]
      case Inactive(i) => t.flows == r.flows - {i} && t.current == R.Still(r.current, t.flows)
      case Remove(p) =>
        && (forall i :: i in t.flows <==> i in r.flows && r.flows[i].source != p && r.flows[i].dest != p)
        && (forall i :: i in t.flows ==> t.flows[i] == r.flows[i]) && t.current == R.Still(r.current, t.flows)
      case Routed => t.flows == r.flows && t.current.None?
      case _ => t.flows == r.flows && t.current == r.current
  {
    hide Inv, Cleanup, NeedRelay, Enable, Disable, R.Indexed, R.OnePerPair, Between;
    RouterOf(c);
    match e
    case Inactive(i) =>
      EndsKnown(c.router, i);
      R.FreeFlowFreed(c.router, i);
    case Remove(p) =>
      if p !in c.net.peers {
        NoFlows(c, p);
      }
    case _ =>
  }

  lemma EndsKnown(r: R.Router, i: R.FlowNo)
    requires R.Inv(r) && i in r.flows
    ensures r.flows[i].source in r.from && r.flows[i].dest in r.to
  {
  }

  lemma RouterOf(c: Client)
    requires Between(c)
    ensures ClientInv(c) && R.Inv(c.router)
  {
  }

  lemma NoFlows(c: Client, p: PeerId)
    requires Between(c) && p !in c.net.peers
    ensures forall i :: i in c.router.flows ==> c.router.flows[i].source != p && c.router.flows[i].dest != p
    ensures c.router.current == R.Still(c.router.current, c.router.flows)
  {
  }
}
