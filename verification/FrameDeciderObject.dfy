/**
The frame decider as the source runs it: tables, trees and linked nodes changed in place.
*/
module FrameDeciderObject {
  import opened Wrappers
  import opened Seqs
  import opened EntryPool
  import opened LinkedNodes
  import opened MulticastNodes
  import opened FrameDecision
  import opened X = Multicast
  import M = MacTable
  import G = GroupTable
  import F = FrameDecider

  class FrameDecider {
    const config: F.Config
    var owners: map<PeerId, M.Owner>
    var macTree: map<M.Mac, M.Entry>
    var members: map<PeerId, G.Peer>
    var joined: map<Id, G.Member>
    var sigTree: map<Sig, Id>
    var isMaster: map<Id, bool>
    var nodes: map<Id, Node<Id>>
    var peers: seq<PeerId>
    var decision: Decision
    /** The lists that the nodes form. */
    ghost var lists: map<Sig, seq<Id>>

    ghost function Macs(): M.Table
      reads this
    {
      M.Table(owners, macTree)
    }

    ghost function Idx(): Index
      reads this
    {
      Index(lists, sigTree, isMaster)
    }

    ghost function Groups(): G.Groups
      reads this
    {
      G.Groups(members, joined, Idx())
    }

    ghost function State(): F.Decider
      reads this
    {
      F.Decider(Macs(), Groups(), peers)
    }

    ghost predicate NodesOk()
      reads this
    {
      AllLinked(nodes, lists)
    }

    ghost predicate Valid()
      reads this
    {
      F.ConfigOk(config) && F.Inv(config, State()) && NodesOk()
    }

    constructor (config: F.Config)
      requires F.ConfigOk(config)
      ensures Valid() && this.config == config && peers == [] && decision == NoneLeft
    {
      this.config, decision := config, NoneLeft;
      owners, macTree, members, joined := map[], map[], map[], map[];
      sigTree, isMaster, nodes, peers, lists := map[], map[], map[], [], map[];
    }

    // ----- hardware addresses -----

    method AddMacToPeer(p: PeerId, m: M.Mac)
      requires M.Inv(Macs(), config.maxMacs) && config.maxMacs > 0 && p in owners
      modifies this`owners, this`macTree
      ensures Macs() == M.Learn(old(Macs()), p, m, config.maxMacs)
    {
      hide M.TreeOk, M.OwnersOk;
      ghost var was := Macs();
      if m in macTree {
        var e := macTree[m];
        if e.peer == p {
          owners := owners[p := owners[p].(pool := Touch(owners[p].pool, e.slot))];
          return;
        }
        M.DisownKeeps(was, m, config.maxMacs);
        macTree := macTree - {m};
        owners := owners[e.peer := owners[e.peer].(pool := Release(owners[e.peer].pool, e.slot))];
        assert Macs() == M.Disown(was, m);
      }
      M.ClaimKeeps(Macs(), p, m, config.maxMacs);
      M.UsedHaveMacs(Macs(), p, config.maxMacs);
      Claim(p, m);
    }

    /** Takes a free entry, or the oldest used one, for the address. */
    method Claim(p: PeerId, m: M.Mac)
      requires p in owners && (owners[p].pool.free != [] || owners[p].pool.used != [])
      requires forall k :: k in owners[p].pool.used ==> k in owners[p].mac
      modifies this`owners, this`macTree
      ensures Macs() == M.Claim(old(Macs()), p, m)
    {
      var o := owners[p];
      var k: Slot;
      if o.pool.free != [] {
        k := o.pool.free[0];
        o := o.(pool := o.pool.(free := o.pool.free[1..]));
      } else {
        k := o.pool.used[0];
        assert k in o.pool.used;
        macTree := macTree - {o.mac[k]};
        o := o.(pool := o.pool.(used := o.pool.used[1..]));
      }
      o := M.Owner(o.pool.(used := o.pool.used + [k]), o.mac[k := m]);
      owners := owners[p := o];
      macTree := macTree[m := M.Entry(p, k)];
    }

    // ----- the index of memberships -----

    method AddToMulticast(e: Id, g: Sig, ghost sigs: map<Id, Sig>)
      requires X.Inv(Idx(), sigs) && e !in sigs && NodesOk()
      modifies this`sigTree, this`isMaster, this`nodes, this`lists
      ensures G.Addable(old(Idx()), g) && Idx() == Add(old(Idx()), e, g) && NodesOk()
    {
      hide InsertAfter, InitAfter, X.Inv, AllLinked;
      AddLinked(Idx(), sigs, nodes, e, g);
      ghost var was := Idx();
      if g in sigTree {
        var master := sigTree[g];
        isMaster := isMaster[e := false];
        nodes := InitAfter(nodes, e, master);
        lists := lists[g := InsertAfter(lists[g], master, e)];
      } else {
        isMaster := isMaster[e := true];
        sigTree := sigTree[g := e];
        nodes := nodes[e := Node(None, None)];
        lists := lists[g := [e]];
      }
      assert Idx() == Add(was, e, g);
    }

    method RemoveFromMulticast(e: Id, ghost sigs: map<Id, Sig>, g: Sig)
      requires X.Inv(Idx(), sigs) && e in sigs && g == sigs[e] && NodesOk()
      modifies this`sigTree, this`isMaster, this`nodes, this`lists
      ensures g in old(lists) && e in old(lists[g]) && e in old(isMaster)
      ensures Idx() == Remove(old(Idx()), e, g) && NodesOk()
    {
      hide NextOrPrev, X.Inv, Linked, AllLinked, Unlink, Without, Distinct;
      RemoveLinked(Idx(), sigs, nodes, e);
      ghost var was := Idx();
      ghost var q := lists[g];
      NeighbourExact(nodes, q, e);
      lists := if isMaster[e] && |q| == 1 then lists - {g} else lists[g := Without(q, e)];
      if isMaster[e] {
        sigTree := sigTree - {g};
        if nodes[e] != Node(None, None) {
          var d := if nodes[e].next.Some? then nodes[e].next.value else nodes[e].prev.value;
          isMaster := isMaster[d := true];
          sigTree := sigTree[g := d];
          assert sigTree == was.tree[g := d];
        }
      }
      nodes := Unlink(nodes, e);
      assert Idx() == Remove(was, e, g);
    }

    /** The memberships still to be handed out, if the iterator is attached. */
    ghost predicate Left(ids: seq<Id>)
      reads this
    {
      decision.ToMembers? && decision.attached && IdsRest(lists, decision.member, ids)
    }

    /** An iterator at the membership's node is moved on before the node goes. */
    method FreeEntry(e: Id, ghost sigs: map<Id, Sig>, g: Sig, ghost ids: seq<Id>)
      requires X.Inv(Idx(), sigs) && e in sigs && g == sigs[e] && NodesOk()
      modifies this`sigTree, this`isMaster, this`nodes, this`lists, this`decision
      ensures g in old(lists) && e in old(lists[g]) && e in old(isMaster)
      ensures Idx() == Remove(old(Idx()), e, g) && NodesOk()
      ensures old(Left(ids)) ==> Left(Without(ids, e))
      ensures SameKind(decision, old(decision))
    {
      hide X.Inv, AllLinked, Remove, IdsRest, Without;
      RemoveLinked(Idx(), sigs, nodes, e);
      if Left(ids) {
        IdsWithout(Idx(), sigs, nodes, e, decision.member, ids);
      }
      decision := Jumped(decision, nodes, e);
      RemoveFromMulticast(e, sigs, g);
    }

    /** A new membership: an attached iterator keeps its place. */
    method FileEntry(e: Id, g: Sig, ghost sigs: map<Id, Sig>, ghost ids: seq<Id>) returns (ghost now: seq<Id>)
      requires X.Inv(Idx(), sigs) && e !in sigs && NodesOk()
      modifies this`sigTree, this`isMaster, this`nodes, this`lists
      ensures G.Addable(old(Idx()), g) && Idx() == Add(old(Idx()), e, g) && NodesOk()
      ensures old(Left(ids)) ==> Left(now) && Without(now, e) == ids
    {
      hide X.Inv, AllLinked, Add, IdsRest, Without;
      now := ids;
      if Left(ids) {
        now := IdsWith(Idx(), sigs, e, g, decision.member, ids);
      }
      AddToMulticast(e, g, sigs);
    }

    // ----- memberships -----

    method Rejoin(p: PeerId, g: G.Group, endtime: int)
      requires p in members && g in members[p].tree
      modifies this`members, this`joined
      ensures Groups() == G.Rejoin(old(Groups()), p, g, endtime)
    {
      var k := members[p].tree[g];
      members := members[p := members[p].(pool := Touch(members[p].pool, k))];
      joined := joined[Id(p, k) := G.Member(g, endtime)];
    }

    /** Takes an entry of the peer off its lists: a free one, or else the oldest used one, which leaves the index. */
    method TakeEntry(p: PeerId, ghost ids: seq<Id>) returns (k: Slot)
      requires p in members && (members[p].pool.free != [] || members[p].pool.used != [])
      requires X.Inv(Idx(), G.Sigs(joined)) && NodesOk() && (members[p].pool.free == [] ==> Id(p, members[p].pool.used[0]) in joined)
      requires members[p].pool.free != [] ==> Id(p, members[p].pool.free[0]) !in joined
      modifies this`members, this`joined, this`sigTree, this`isMaster, this`nodes, this`lists, this`decision
      ensures k == Taken(old(members[p].pool)) && G.Evictable(old(Groups()), p)
      ensures joined == G.Cleared(old(Groups()), p).joined && Idx() == G.Cleared(old(Groups()), p).index && NodesOk()
      ensures var o := old(members[p]);
        members == old(members)[p := G.Peer(
          Pool(if o.pool.free != [] then o.pool.free[1..] else [], Kept(o.pool)),
          if o.pool.free != [] then o.tree else o.tree - {old(joined)[Id(p, k)].group})]
      ensures SameKind(decision, old(decision))
      ensures old(Left(ids)) ==> Left(Without(ids, Id(p, k)))
    {
      hide X.Inv, AllLinked, Remove, IdsRest, Without;
      var o := members[p];
      if o.pool.free != [] {
        k := o.pool.free[0];
        if Left(ids) {
          IdsKnown(Idx(), G.Sigs(joined), decision.member, ids);
          KeptAll(ids, Id(p, k));
        }
        members := members[p := o.(pool := o.pool.(free := o.pool.free[1..]))];
      } else {
        k := o.pool.used[0];
        var g := joined[Id(p, k)].group;
        FreeEntry(Id(p, k), G.Sigs(joined), G.SigOf(g), ids);
        members := members[p := G.Peer(o.pool.(used := o.pool.used[1..]), o.tree - {g})];
        joined := joined - {Id(p, k)};
      }
    }

    method Enter(p: PeerId, g: G.Group, endtime: int, ghost ids: seq<Id>) returns (ghost e: Id, ghost now: seq<Id>)
      requires G.Inv(Groups(), config.maxGroups) && config.maxGroups > 0 && NodesOk() && p in members && g !in members[p].tree
      modifies this`members, this`joined, this`sigTree, this`isMaster, this`nodes, this`lists, this`decision
      ensures old(members[p].pool.free != [] || members[p].pool.used != [])
      ensures G.Evictable(old(Groups()), p) && G.Addable(G.Cleared(old(Groups()), p).index, G.SigOf(g))
      ensures Groups() == G.Enter(old(Groups()), p, g, endtime) && NodesOk()
      ensures SameKind(decision, old(decision)) && e.peer == p
      ensures old(Left(ids)) ==> Left(now) && Without(now, e) == Without(ids, e)
    {
      hide X.Inv, AllLinked, Remove, Add, G.PeersOk, Taken, IdsRest, Without;
      ghost var was := Groups();
      G.EnterKeeps(was, p, g, endtime, config.maxGroups);
      G.ClearedIndex(was, p, g, config.maxGroups);
      TakenFirst(members[p].pool);
      var k := TakeEntry(p, ids);
      e := Id(p, k);
      ghost var sigs := G.Sigs(joined);
      var o := members[p];
      members := members[p := G.Peer(o.pool.(used := o.pool.used + [k]), o.tree[g := k])];
      joined := joined[Id(p, k) := G.Member(g, endtime)];
      now := FileEntry(Id(p, k), G.SigOf(g), sigs, Without(ids, e));
      assert Groups() == G.Enter(was, p, g, endtime);
    }

    lemma TakenFirst(o: Pool)
      requires o.free != [] || o.used != []
      ensures Taken(o) == if o.free == [] then o.used[0] else o.free[0]
    {
    }

    /** A multicast decision under way goes on with what it had left, but for the one entry that is evicted and entered. */
    method AddGroupToPeer(p: PeerId, g: G.Group, now: int, ghost ids: seq<Id>) returns (ghost e: Id, ghost left: seq<Id>)
      requires Valid() && p in members
      modifies this
      ensures Valid() && State() == F.Step(config, old(State()), F.Report(p, g, now))
      ensures SameKind(decision, old(decision)) && e.peer == p
      ensures old(Left(ids)) ==> Left(left) && Without(left, e) == Without(ids, e)
    {
      hide X.Inv, AllLinked, M.Inv, G.PeersOk, G.Rejoin, G.Enter, IdsRest, Without;
      ghost var t := F.Step(config, State(), F.Report(p, g, now));
      if g in members[p].tree {
        e, left := Id(p, 0), ids;
        Rejoin(p, g, now + config.interval);
      } else {
        e, left := Enter(p, g, now + config.interval, ids);
      }
      assert State() == t;
    }

    /** The timer of a membership has run out. */
    method RemoveGroupEntry(e: Id, now: int, ghost ids: seq<Id>)
      requires Valid() && e in joined && joined[e].endtime <= now
      modifies this
      ensures F.Enabled(old(State()), F.Expire(e.peer, old(joined[e].group), now))
      ensures Valid() && State() == F.Step(config, old(State()), F.Expire(e.peer, old(joined[e].group), now))
      ensures old(Left(ids)) ==> Left(Without(ids, e))
      ensures SameKind(decision, old(decision))
    {
      hide X.Inv, AllLinked, M.Inv, G.PeerOk, Remove, IdsRest, Without;
      var g := joined[e].group;
      G.EntryOf(Groups(), e, config.maxGroups);
      ghost var t := F.Step(config, State(), F.Expire(e.peer, g, now));
      G.DropIndex(Groups(), e);
      FreeEntry(e, G.Sigs(joined), G.SigOf(g), ids);
      var o := members[e.peer];
      members := members[e.peer := G.Peer(Release(o.pool, e.slot), o.tree - {g})];
      joined := joined - {e};
      assert State() == t;
    }

    /** A query for one group: its members must report again soon. */
    method LowerGroupTimers(g: G.Group, now: int)
      requires Valid()
      modifies this
      ensures Valid() && State() == F.Step(config, old(State()), F.Query(g, now))
    {
      hide X.Inv, M.Inv, G.PeersOk, Linked;
      ghost var was, t := Groups(), F.Step(config, State(), F.Query(g, now));
      G.QueryOk(Groups(), g, now + config.lastMemberTime, config.maxGroups);
      G.ListenersExact(Groups(), G.SigOf(g), config.maxGroups);
      ghost var q := G.Listeners(Groups(), G.SigOf(g));
      if G.SigOf(g) in sigTree {
        MasterListed(Idx(), G.Sigs(joined), G.SigOf(g));
        LowerAlong(sigTree[G.SigOf(g)], g, now + config.lastMemberTime, q);
      }
      assert State() == t;
    }

    method LowerAlong(master: Id, g: G.Group, limit: int, ghost q: seq<Id>)
      requires Linked(nodes, q) && Distinct(q) && master in q
      modifies this`joined
      ensures joined == G.Lowered(old(joined), q, g, limit)
    {
      hide G.Lowered, Distinct;
      var first := First(nodes, master, q);
      var at := Some(first);
      ghost var i := 0;
      G.LoweredExact(joined, q[..0], g, limit);
      assert joined == G.Lowered(joined, q[..0], g, limit);
      while at.Some?
        invariant 0 <= i <= |q| && at == At(q, i)
        invariant joined == G.Lowered(old(joined), q[..i], g, limit)
        decreases |q| - i
      {
        var e := at.value;
        assert nodes[q[i]] == NodeAt(q, i);
        G.LoweredNext(old(joined), q, i, g, limit);
        if e in joined && joined[e].group == g && joined[e].endtime > limit {
          joined := joined[e := G.Member(g, limit)];
        }
        at := nodes[e].next;
        i := i + 1;
      }
      assert q[..i] == q;
    }

    // ----- peers -----

    /** A flood under way that has not passed the last peer goes on to the new one. */
    method PeerInit(p: PeerId, ghost rest: seq<PeerId>)
      requires Valid() && p !in owners
      modifies this
      ensures Valid() && State() == F.Step(config, old(State()), F.AddPeer(p))
      ensures old(Pending(rest)) ==>
        Pending(if old(decision).Flood? && old(decision).peer.Some? then rest + [p] else rest)
    {
      hide X.Inv, AllLinked, M.Inv, G.Inv, FloodRest, MemberRest;
      if decision.Flood? && Pending(rest) {
        FloodWith(peers, decision.peer, rest, p);
      }
      ghost var t := F.Step(config, State(), F.AddPeer(p));
      peers := peers + [p];
      owners := owners[p := M.Owner(Fresh(config.maxMacs), map[])];
      members := members[p := G.Peer(Fresh(config.maxGroups), map[])];
      assert State() == t;
    }

    method DropEntry(e: Id, ghost ids: seq<Id>)
      requires X.Inv(Idx(), G.Sigs(joined)) && NodesOk() && e in joined
      modifies this`joined, this`sigTree, this`isMaster, this`nodes, this`lists, this`decision
      ensures G.SigOf(old(joined[e].group)) in old(lists) && e in old(lists)[G.SigOf(old(joined[e].group))] && e in old(isMaster)
      ensures Groups() == G.Drop(old(Groups()), e) && X.Inv(Idx(), G.Sigs(joined)) && NodesOk()
      ensures (old(Left(ids)) ==> Left(Without(ids, e))) && SameKind(decision, old(decision))
    {
      hide X.Inv, AllLinked, Remove, IdsRest, Without;
      G.DropIndex(Groups(), e);
      FreeEntry(e, G.Sigs(joined), G.SigOf(joined[e].group), ids);
      joined := joined - {e};
    }

    method FreeGroupEntries(p: PeerId, ghost ids: seq<Id>) returns (ghost kept: seq<Id>)
      requires G.Inv(Groups(), config.maxGroups) && NodesOk() && p in members
      modifies this`joined, this`sigTree, this`isMaster, this`nodes, this`lists, this`decision
      ensures NodesOk() && Distinct(members[p].pool.used) && forall k :: k in members[p].pool.used <==> Id(p, k) in old(joined)
      ensures Groups() == G.DropAll(old(Groups()), p, members[p].pool.used)
      ensures old(Left(ids)) ==> Left(kept) && Without(F.PeersOf(kept), p) == Without(F.PeersOf(ids), p)
      ensures SameKind(decision, old(decision))
    {
      hide X.Inv, AllLinked, Remove, G.PeersOk, Left, Without, F.PeersOf, G.Drop;
      G.UsedAll(Groups(), p, config.maxGroups);
      var q := members[p].pool.used;
      var i := 0;
      kept := ids;
      while i < |q|
        invariant 0 <= i <= |q| && NodesOk() && X.Inv(Idx(), G.Sigs(joined))
        invariant forall k :: k in q[i..] ==> Id(p, k) in joined
        invariant G.DropAll(Groups(), p, q[i..]) == G.DropAll(old(Groups()), p, q)
        invariant old(Left(ids)) ==> Left(kept) && Without(F.PeersOf(kept), p) == Without(F.PeersOf(ids), p)
        invariant SameKind(decision, old(decision))
      {
        assert q[i..][0] == q[i] && q[i..][1..] == q[i + 1..];
        G.FirstDropped(Groups(), p, q[i..]);
        OwnEntry(kept, Id(p, q[i]));
        DropEntry(Id(p, q[i]), kept);
        kept := Without(kept, Id(p, q[i]));
        i := i + 1;
      }
    }

    method ForgetMacs(p: PeerId)
      requires p in owners && forall k :: k in owners[p].pool.used ==> k in owners[p].mac
      modifies this`macTree
      ensures macTree == M.Forget(old(macTree), owners[p].pool.used, owners[p].mac)
    {
      var q := owners[p].pool.used;
      var i := 0;
      while i < |q|
        invariant 0 <= i <= |q|
        invariant M.Forget(macTree, q[i..], owners[p].mac) == M.Forget(old(macTree), q, owners[p].mac)
      {
        assert q[i..][0] == q[i] && q[i..][1..] == q[i + 1..];
        macTree := macTree - {owners[p].mac[q[i]]};
        i := i + 1;
      }
    }

    /** A flood that is at the peer is moved on before the peer leaves the list. */
    method LeavePeers(p: PeerId, ghost rest: seq<PeerId>)
      requires Distinct(peers) && p in peers
      modifies this`decision, this`peers
      ensures peers == Without(old(peers), p)
      ensures old(decision.Flood? && FloodRest(peers, decision.peer, rest)) ==>
        decision.Flood? && FloodRest(peers, decision.peer, Without(rest, p))
      ensures !old(decision).Flood? ==> decision == old(decision)
    {
      hide FloodRest, Without, IndexOf, Distinct;
      if decision.Flood? && FloodRest(peers, decision.peer, rest) {
        FloodWithout(peers, decision.peer, rest, p);
      }
      if decision == Flood(Some(p)) {
        decision := Flood(At(peers, IndexOf(peers, p) + 1));
      }
      peers := Without(peers, p);
    }

    method PeerGroupsFree(p: PeerId, ghost rest: seq<PeerId>)
      requires G.Inv(Groups(), config.maxGroups) && NodesOk() && p in members
      modifies this`joined, this`sigTree, this`isMaster, this`nodes, this`lists, this`decision, this`members
      ensures NodesOk() && Groups() == G.RemovePeer(old(Groups()), p, config.maxGroups) && SameKind(decision, old(decision))
      ensures old(decision.ToMembers? && decision.attached && MemberRest(lists, decision.member, rest)) ==>
        MemberRest(lists, decision.member, Without(rest, p))
    {
      hide X.Inv, AllLinked, G.PeersOk, IdsRest, Without, F.PeersOf;
      ghost var ids: seq<Id> := [];
      if decision.ToMembers? && MemberRest(lists, decision.member, rest) {
        ids :| IdsRest(lists, decision.member, ids) && rest == F.PeersOf(ids);
      }
      ghost var t := G.RemovePeer(Groups(), p, config.maxGroups);
      ghost var kept := FreeGroupEntries(p, ids);
      members := members - {p};
      assert Groups() == t;
      if old(Left(ids)) {
        PeerGone(Idx(), G.Sigs(joined), decision.member, kept, p);
      }
    }

    method PeerMacsFree(p: PeerId)
      requires M.Inv(Macs(), config.maxMacs) && p in owners
      modifies this`owners, this`macTree
      ensures Macs() == M.RemovePeer(old(Macs()), p, config.maxMacs)
    {
      hide M.TreeOk, M.OwnersOk;
      M.UsedHaveMacs(Macs(), p, config.maxMacs);
      ForgetMacs(p);
      owners := owners - {p};
    }

    /** The destinations of a pending decision are afterwards those that are left without the peer. */
    method PeerFree(p: PeerId, ghost rest: seq<PeerId>)
      requires Valid() && p in owners
      modifies this
      ensures Valid() && State() == F.Step(config, old(State()), F.RemovePeer(p))
      ensures old(Pending(rest)) && (old(decision).ToMembers? ==> old(decision.attached)) ==> Pending(Without(rest, p))
    {
      hide F.Inv, F.Step, AllLinked, G.Inv, G.RemovePeer, M.Inv, M.RemovePeer, MemberRest, FloodRest, IndexOf, Without;
      F.RemoveParts(config, State(), p);
      OneLess(if decision.Unicast? then decision.p else p, p);
      ghost var t := F.Step(config, State(), F.RemovePeer(p));
      if decision == Unicast(p) {
        decision := NoneLeft;
      }
      PeerGroupsFree(p, rest);
      PeerMacsFree(p);
      LeavePeers(p, rest);
      assert State() == t;
    }

    /** A frame has come from the peer. */
    method FrameSeen(p: PeerId, m: M.Mac)
      requires Valid() && p in owners
      modifies this
      ensures Valid() && State() == F.Step(config, old(State()), F.Seen(p, m))
    {
      hide X.Inv, AllLinked, G.Inv, M.TreeOk, M.OwnersOk, M.Learn;
      ghost var t := F.Step(config, State(), F.Seen(p, m));
      AddMacToPeer(p, m);
      assert State() == t;
    }

    // ----- deciding -----

    /** The destinations still to be handed out are `rest`. */
    ghost predicate Pending(rest: seq<PeerId>)
      reads this
    {
      match decision
      case NoneLeft => rest == []
      case Unicast(p) => rest == [p]
      case Flood(next) => FloodRest(peers, next, rest)
      case ToMembers(next, _) => MemberRest(lists, next, rest)
    }

    method NextDestination(ghost rest: seq<PeerId>) returns (p: Option<PeerId>)
      requires Distinct(peers) && NodesOk() && Pending(rest)
      modifies this`decision
      ensures p == At(rest, 0) && (p.None? ==> decision.NoneLeft?) && (p.Some? ==> Pending(rest[1..]))
    {
      hide FloodRest, MemberRest, AllLinked, Distinct, IndexOf;
      match decision {
        case NoneLeft =>
          return None;
        case Unicast(q) =>
          decision := NoneLeft;
          return Some(q);
        case Flood(next) =>
          FloodNext(peers, next, rest);
          if next.None? {
            decision := NoneLeft;
            return None;
          }
          decision := Flood(At(peers, IndexOf(peers, next.value) + 1));
          return next;
        case ToMembers(next, _) =>
          MemberNext(nodes, lists, next, rest);
          if next.None? {
            decision := NoneLeft;
            return None;
          }
          decision := ToMembers(nodes[next.value].next, true);
          return Some(next.value.peer);
      }
    }

    method Decide(f: F.Frame)
      requires Valid()
      modifies this`decision
      ensures Pending(F.Destinations(config, State(), f))
    {
      hide M.Inv, G.PeersOk, X.Inv, AllLinked, Linked;
      ghost var rest := F.Destinations(config, State(), f);
      decision := NoneLeft;
      if f.igmp || f.dest == F.BROADCAST {
        decision := Flood(At(peers, 0));
        assert peers[0..] == peers;
      } else if F.IsMulticast(f.dest) {
        var g := F.SigOfMac(f.dest);
        if g in sigTree {
          MasterListed(Idx(), G.Sigs(joined), g);
          G.ListenersExact(Groups(), g, config.maxGroups);
          AllLinkedAt(nodes, lists, g);
          var first := First(nodes, sigTree[g], lists[g]);
          decision := ToMembers(Some(first), true);
          assert lists[g][0..] == lists[g] && IdsRest(lists, decision.member, lists[g]);
          assert MemberRest(lists, decision.member, rest);
        }
      } else if f.dest in macTree {
        decision := Unicast(macTree[f.dest].peer);
      } else {
        decision := Flood(At(peers, 0));
        assert peers[0..] == peers;
      }
    }

    /**
    A frame of the device is looked at.  An earlier multicast decision that was not drained makes the call do nothing but
    detach its iterator.
    */
    method AnalyzeAndDecide(f: F.Frame, now: int)
      requires Valid()
      modifies this
      ensures Valid()
      ensures old(decision).ToMembers? ==> State() == old(State()) && decision == old(decision).(attached := false)
      ensures !old(decision).ToMembers? ==> Pending(F.Destinations(config, State(), f))
      ensures !old(decision).ToMembers? && f.igmp && f.query.Some? ==>
        State() == F.Step(config, old(State()), F.Query(f.query.value, now))
      ensures !(f.igmp && f.query.Some?) ==> State() == old(State())
    {
      if decision.ToMembers? {
        decision := decision.(attached := false);
        return;
      }
      decision := NoneLeft;
      if f.igmp && f.query.Some? {
        LowerGroupTimers(f.query.value, now);
      }
      Decide(f);
    }

    /** Takes one destination after another, looking one ahead. */
    method Drain(ghost all: seq<PeerId>) returns (out: seq<PeerId>)
      requires Distinct(peers) && NodesOk() && Pending(all)
      modifies this`decision
      ensures out == all && decision.NoneLeft?
    {
      hide AllLinked, Pending;
      out := [];
      var p := NextDestination(all);
      ghost var rest := if p.Some? then all[1..] else [];
      while p.Some?
        invariant (p.Some? ==> Pending(rest)) && (p.None? ==> decision.NoneLeft?)
        invariant all == out + (if p.Some? then [p.value] + rest else [])
        decreases |rest|, if p.Some? then 1 else 0
      {
        var next := NextDestination(rest);
        out := out + [p.value];
        p := next;
        rest := if p.Some? then rest[1..] else [];
      }
    }

    /** The device's frame goes to every destination. */
    method Forward(f: F.Frame, now: int) returns (out: seq<PeerId>)
      requires Valid() && decision.NoneLeft?
      modifies this
      ensures Valid() && decision.NoneLeft? && out == F.Destinations(config, State(), f)
      ensures State() == if f.igmp && f.query.Some? then F.Step(config, old(State()), F.Query(f.query.value, now)) else old(State())
    {
      hide M.Inv, G.Inv, AllLinked;
      AnalyzeAndDecide(f, now);
      out := Drain(F.Destinations(config, State(), f));
    }
  }
}
