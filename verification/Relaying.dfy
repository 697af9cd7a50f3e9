/** Links and relays of the client. */
module Relaying {
  // A peer is linked, or relayed through a linked peer that offers it, or waiting for a relay, or none of these.

  import opened Wrappers
  import opened Seqs

  type PeerId = nat

  datatype Peer = Peer(
    haveLink: bool,
    relaying: Option<PeerId>,
    waiting: bool,
    isRelay: bool,
    users: seq<PeerId>,
    canRelay: bool)

  datatype Net = Net(peers: map<PeerId, Peer>, relays: seq<PeerId>, waiting: seq<PeerId>)

  // ----- what is always true -----

  ghost predicate StatesOk(n: Net) {
    forall p :: p in n.peers ==>
      && !(n.peers[p].haveLink && n.peers[p].relaying.Some?)
      && !(n.peers[p].haveLink && n.peers[p].waiting)
      && !(n.peers[p].relaying.Some? && n.peers[p].waiting)
      && (n.peers[p].isRelay ==> n.peers[p].haveLink)
  }

  /** The relays, the waiting peers and the users of each relay are exactly those the peers' own fields say, once each. */
  ghost predicate RelaysOk(n: Net) {
    Distinct(n.relays) && forall p :: p in n.relays <==> p in n.peers && n.peers[p].isRelay
  }

  ghost predicate WaitingOk(n: Net) {
    Distinct(n.waiting) && forall p :: p in n.waiting <==> p in n.peers && n.peers[p].waiting
  }

  ghost predicate UsersOk(n: Net) {
    && (forall r :: r in n.peers && n.peers[r].isRelay ==>
          Distinct(n.peers[r].users) && forall p :: p in n.peers[r].users <==> p in n.peers && n.peers[p].relaying == Some(r))
    && (forall p :: p in n.peers && n.peers[p].relaying.Some? ==>
          n.peers[p].relaying.value in n.peers && n.peers[n.peers[p].relaying.value].isRelay)
  }

  ghost predicate Inv(n: Net) {
    StatesOk(n) && RelaysOk(n) && WaitingOk(n) && UsersOk(n)
  }

  /** Nobody waits while there is a relay: this holds between handlers. */
  predicate Settled(n: Net) {
    n.waiting == [] || n.relays == []
  }

  lemma NoSelfRelay(n: Net, p: PeerId)
    requires Inv(n) && p in n.peers
    ensures n.peers[p].relaying != Some(p)
  {
  }

  // ----- the four small moves -----

  predicate Unconnected(n: Net, p: PeerId) {
    p in n.peers && !n.peers[p].haveLink && n.peers[p].relaying.None? && !n.peers[p].waiting && !n.peers[p].isRelay
  }

  function Register(n: Net, p: PeerId): Net
    requires Unconnected(n, p)
  {
    n.(peers := n.peers[p := n.peers[p].(waiting := true)], waiting := n.waiting + [p])
  }

  function Unregister(n: Net, p: PeerId): Net
    requires p in n.peers && n.peers[p].waiting
  {
    n.(peers := n.peers[p := n.peers[p].(waiting := false)], waiting := Without(n.waiting, p))
  }

  function Install(n: Net, p: PeerId, r: PeerId): Net
    requires Unconnected(n, p) && r in n.peers && n.peers[r].isRelay
  {
    n.(peers := n.peers[r := n.peers[r].(users := n.peers[r].users + [p])][p := n.peers[p].(relaying := Some(r))])
  }

  function FreeRelaying(n: Net, p: PeerId): Net
    requires p in n.peers && n.peers[p].relaying.Some? && n.peers[p].relaying.value in n.peers
    requires n.peers[p].relaying.value != p
  {
    var r := n.peers[p].relaying.value;
    n.(peers := n.peers[r := n.peers[r].(users := Without(n.peers[r].users, p))][p := n.peers[p].(relaying := None)])
  }

  lemma RegisterKeeps(n: Net, p: PeerId)
    requires Inv(n) && Unconnected(n, p)
    ensures Inv(Register(n, p))
  {
  }

  lemma UnregisterKeeps(n: Net, p: PeerId)
    requires Inv(n) && p in n.peers && n.peers[p].waiting
    ensures Inv(Unregister(n, p)) && Unconnected(Unregister(n, p), p)
  {
    WithoutDistinct(n.waiting, p);
  }

  lemma InstallKeeps(n: Net, p: PeerId, r: PeerId)
    requires Inv(n) && Unconnected(n, p) && r in n.peers && n.peers[r].isRelay
    ensures Inv(Install(n, p, r))
  {
    var t := Install(n, p, r);
    assert StatesOk(t) && RelaysOk(t) && WaitingOk(t);
    assert p !in n.peers[r].users;
  }

  lemma FreeRelayingKeeps(n: Net, p: PeerId)
    requires Inv(n) && p in n.peers && n.peers[p].relaying.Some?
    ensures Inv(FreeRelaying(n, p)) && Unconnected(FreeRelaying(n, p), p)
  {
    var r, t := n.peers[p].relaying.value, FreeRelaying(n, p);
    WithoutDistinct(n.peers[r].users, p);
    assert StatesOk(t) && RelaysOk(t) && WaitingOk(t);
  }

  // ----- the links -----

  function SetLink(n: Net, p: PeerId, x: bool): Net
    requires p in n.peers
  {
    n.(peers := n.peers[p := n.peers[p].(haveLink := x)])
  }

  lemma InitLinkKeeps(n: Net, p: PeerId)
    requires Inv(n) && Unconnected(n, p)
    ensures Inv(SetLink(n, p, true))
  {
  }

  lemma FreeLinkKeeps(n: Net, p: PeerId)
    requires Inv(n) && p in n.peers && n.peers[p].haveLink && !n.peers[p].isRelay
    ensures Inv(SetLink(n, p, false)) && Unconnected(SetLink(n, p, false), p)
  {
  }

  // ----- the two loops -----

  function AssignFirst(n: Net): (t: Net)
    requires Inv(n) && n.waiting != [] && n.relays != []
    ensures Inv(t)
  {
    var p, r := n.waiting[0], n.relays[0];
    assert p in n.waiting && r in n.relays;
    UnregisterKeeps(n, p);
    InstallKeeps(Unregister(n, p), p, r);
    Install(Unregister(n, p), p, r)
  }

  /** Every waiting peer gets the first relay, if there is one. */
  function Assign(n: Net): (t: Net)
    requires Inv(n)
    ensures Inv(t) && Settled(t)
    decreases |n.waiting|
  {
    if n.waiting == [] || n.relays == [] then n
    else
      FirstGone(n.waiting);
      Assign(AssignFirst(n))
  }

  function DisbandFirst(n: Net, r: PeerId): (t: Net)
    requires Inv(n) && r in n.peers && n.peers[r].isRelay && n.peers[r].users != []
    ensures Inv(t) && r in t.peers && t.peers[r].isRelay && t.peers[r].users == n.peers[r].users[1..]
  {
    var p := n.peers[r].users[0];
    assert p in n.peers[r].users;
    FreeRelayingKeeps(n, p);
    FirstGone(n.peers[r].users);
    RegisterKeeps(FreeRelaying(n, p), p);
    Register(FreeRelaying(n, p), p)
  }

  /** Every user of the relay is disconnected from it and queued for another. */
  function Disband(n: Net, r: PeerId): (t: Net)
    requires Inv(n) && r in n.peers && n.peers[r].isRelay
    ensures Inv(t) && r in t.peers && t.peers[r].isRelay && t.peers[r].users == []
    decreases |n.peers[r].users|
  {
    if n.peers[r].users == [] then n else Disband(DisbandFirst(n, r), r)
  }

  // ----- becoming and ceasing to be a relay -----

  function MakeRelay(n: Net, p: PeerId): Net
    requires p in n.peers
  {
    n.(peers := n.peers[p := n.peers[p].(isRelay := true, users := [])], relays := n.relays + [p])
  }

  function UnmakeRelay(n: Net, p: PeerId): Net
    requires p in n.peers
  {
    n.(peers := n.peers[p := n.peers[p].(isRelay := false)], relays := Without(n.relays, p))
  }

  lemma MakeRelayKeeps(n: Net, p: PeerId)
    requires Inv(n) && p in n.peers && n.peers[p].haveLink && !n.peers[p].isRelay
    ensures Inv(MakeRelay(n, p))
  {
  }

  lemma UnmakeRelayKeeps(n: Net, p: PeerId)
    requires Inv(n) && p in n.peers && n.peers[p].isRelay && n.peers[p].users == []
    ensures Inv(UnmakeRelay(n, p))
  {
    WithoutDistinct(n.relays, p);
    var t := UnmakeRelay(n, p);
    assert StatesOk(t) && RelaysOk(t) && WaitingOk(t);
    forall q | q in n.peers
      ensures n.peers[q].relaying != Some(p)
    {
      assert q !in n.peers[p].users;
    }
  }

  // ----- what the loops do -----

  /** The peer as it is once everybody in `q`, and nobody else, has been given relay `r`. */
  function Served(n: Net, q: seq<PeerId>, r: PeerId, p: PeerId): Peer
    requires p in n.peers
  {
    if p in q then n.peers[p].(waiting := false, relaying := Some(r))
    else if p == r then n.peers[p].(users := n.peers[p].users + q)
    else n.peers[p]
  }

  lemma AssignFirstExact(n: Net)
    requires Inv(n) && n.waiting != [] && n.relays != []
    ensures var t := AssignFirst(n);
      && t.relays == n.relays && t.waiting == n.waiting[1..] && t.peers.Keys == n.peers.Keys
      && (forall p :: p in n.peers ==> t.peers[p] == Served(n, [n.waiting[0]], n.relays[0], p))
  {
    assert n.waiting[0] in n.waiting && n.relays[0] in n.relays;
    FirstGone(n.waiting);
  }

  lemma {:induction false} AssignExact(n: Net)
    requires Inv(n)
    ensures var t := Assign(n);
      && t.relays == n.relays && t.peers.Keys == n.peers.Keys
      && (n.relays == [] ==> t == n)
      && (n.relays != [] ==> t.waiting == [] && forall p :: p in n.peers ==>
           t.peers[p] == Served(n, n.waiting, n.relays[0], p))
    decreases |n.waiting|
  {
    if n.waiting == [] && n.relays != [] {
      assert forall p :: p in n.peers ==> n.peers[p].users + [] == n.peers[p].users;
    } else if n.waiting != [] && n.relays != [] {
      AssignFirstExact(n);
      var m, r := AssignFirst(n), n.relays[0];
      AssignExact(m);
      forall p | p in n.peers
        ensures Served(m, m.waiting, r, p) == Served(n, n.waiting, r, p)
      {
        ServedTwice(n, m, r, p);
      }
    }
  }

  lemma ServedTwice(n: Net, m: Net, r: PeerId, p: PeerId)
    requires n.waiting != [] && m.waiting == n.waiting[1..] && Distinct(n.waiting) && r !in n.waiting
    requires p in n.peers && p in m.peers && m.peers[p] == Served(n, [n.waiting[0]], r, p)
    ensures Served(m, m.waiting, r, p) == Served(n, n.waiting, r, p)
  {
    assert n.waiting == [n.waiting[0]] + n.waiting[1..];
    assert n.waiting[0] !in n.waiting[1..];
    if p == r {
      assert (n.peers[r].users + [n.waiting[0]]) + n.waiting[1..] == n.peers[r].users + n.waiting;
    }
  }

  /** Everybody in `q` has been taken from relay `r` and queued, in that order; nobody else has changed. */
  ghost predicate Dismissed(n: Net, q: seq<PeerId>, r: PeerId, t: Net) {
    && r in n.peers && q <= n.peers[r].users && r !in q
    && t.relays == n.relays && t.waiting == n.waiting + q && t.peers.Keys == n.peers.Keys
    && (forall p :: p in n.peers && p != r ==>
          t.peers[p] == if p in q then n.peers[p].(waiting := true, relaying := None) else n.peers[p])
    && t.peers[r] == n.peers[r].(users := n.peers[r].users[|q|..])
  }

  lemma DisbandFirstExact(n: Net, r: PeerId)
    requires Inv(n) && r in n.peers && n.peers[r].isRelay && n.peers[r].users != []
    ensures Dismissed(n, [n.peers[r].users[0]], r, DisbandFirst(n, r))
  {
    assert n.peers[r].users[0] in n.peers[r].users;
    FirstGone(n.peers[r].users);
  }

  lemma DismissedTwice(n: Net, m: Net, t: Net, r: PeerId)
    requires r in n.peers && n.peers[r].users != [] && Dismissed(n, [n.peers[r].users[0]], r, m)
    requires Dismissed(m, n.peers[r].users[1..], r, t)
    ensures Dismissed(n, n.peers[r].users, r, t)
  {
    var q := n.peers[r].users;
    assert q == [q[0]] + q[1..];
    assert (n.waiting + [q[0]]) + q[1..] == n.waiting + q;
    forall p | p in n.peers && p != r
      ensures t.peers[p] == if p in q then n.peers[p].(waiting := true, relaying := None) else n.peers[p]
    {
    }
  }

  lemma {:induction false} DisbandExact(n: Net, r: PeerId)
    requires Inv(n) && r in n.peers && n.peers[r].isRelay
    ensures Dismissed(n, n.peers[r].users, r, Disband(n, r))
    decreases |n.peers[r].users|
  {
    if n.peers[r].users == [] {
      assert n.waiting + [] == n.waiting;
    } else {
      DisbandFirstExact(n, r);
      var m := DisbandFirst(n, r);
      DisbandExact(m, r);
      DismissedTwice(n, m, Disband(m, r), r);
    }
  }
}
