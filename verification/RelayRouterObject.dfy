/**
The relay router as the source runs it: lists of flows changed in place, each flow a flow of the data protocol.
*/
module RelayRouterObject {
  import opened Wrappers
  import opened Seqs
  import D = DataProto
  import W = DataProtoWishes
  import R = RelayRouter
  import opened DataProtoObject
  import Calls = DataProtoCalls

  class DPRelayRouter {
    var from: map<R.PeerId, seq<R.FlowNo>>
    var to: map<R.PeerId, seq<R.FlowNo>>
    var links: map<R.PeerId, Option<D.SinkId>>
    var flows: map<R.FlowNo, R.Pair>
    var current: Option<R.FlowNo>
    const dp: DataProto

    ghost function State(): R.Router
      reads this
    {
      R.Router(from, to, links, flows, current)
    }

    ghost function Wishes(): W.Wishes
      reads dp
    {
      Calls.Wishes(dp)
    }

    ghost predicate Valid()
      reads this, dp
    {
      dp.Valid() && R.Inv(State()) && R.Follows(State(), Wishes())
    }

    constructor (dp: DataProto)
      requires dp.Valid() && dp.flows == map[]
      ensures Valid() && this.dp == dp && State() == R.Router(map[], map[], map[], map[], None)
    {
      this.dp := dp;
      from, to, links, flows, current := map[], map[], map[], map[], None;
    }

    /** Searches the source's list. */
    method FindFlow(s: R.PeerId, d: R.PeerId) returns (i: Option<R.FlowNo>)
      requires R.Inv(State()) && s in from
      ensures i == R.FindIn(flows, from[s], d)
    {
      var k := 0;
      while k < |from[s]|
        invariant 0 <= k <= |from[s]|
        invariant R.FindIn(flows, from[s], d) == R.FindIn(flows, from[s][k..], d)
      {
        assert from[s][k] in from[s];
        if flows[from[s][k]].dest == d {
          return Some(from[s][k]);
        }
        k := k + 1;
      }
      return None;
    }

    method CreateFlow(i: R.FlowNo, b: D.BufferId, x: R.Pair)
      requires Valid() && x.source in from && x.dest in to && i !in flows && b !in dp.buffers
      modifies this, dp
      ensures dp.Valid() && State() == R.CreateFlow(old(State()), i, x)
      ensures Wishes() == R.CreateWishes(old(State()), old(Wishes()), i, x)
    {
      hide D.Inv;
      Calls.InitFlow(dp, D.Relayed(i), b);
      flows := flows[i := x];
      from := from[x.source := from[x.source] + [i]];
      to := to[x.dest := to[x.dest] + [i]];
      if links[x.dest].Some? {
        Calls.Attach(dp, D.Relayed(i), links[x.dest].value);
      }
    }

    /** Takes the flow off its two lists and out of the router's hands. */
    method Unlist(i: R.FlowNo)
      requires i in flows && flows[i].source in from && flows[i].dest in to
      modifies this
      ensures State() == R.FreeFlow(old(State()), i)
    {
      var x := flows[i];
      if current == Some(i) {
        current := None;
      }
      to := to[x.dest := Without(to[x.dest], i)];
      from := from[x.source := Without(from[x.source], i)];
      flows := flows - {i};
    }

    method FreeFlow(i: R.FlowNo)
      requires dp.Valid() && i in flows && flows[i].source in from && flows[i].dest in to && flows[i].dest in links
      requires D.Relayed(i) in Wishes().desired && Wishes().desired[D.Relayed(i)] == links[flows[i].dest]
      modifies this, dp
      ensures dp.Valid() && State() == R.FreeFlow(old(State()), i)
      ensures Wishes() == R.FreeWishes(old(State()), old(Wishes()), i)
    {
      hide D.Inv;
      if links[flows[i].dest].Some? {
        Calls.Detach(dp, D.Relayed(i));
      }
      Unlist(i);
      Calls.FreeFlow(dp, D.Relayed(i));
    }

    /** The inactivity timer frees the flow, whatever it is doing. */
    method FlowInactive(i: R.FlowNo)
      requires Valid() && i in flows
      modifies this, dp
      ensures Valid() && State() == R.FreeFlow(old(State()), i) && R.LocalSame(old(Wishes()), Wishes())
    {
      hide D.Inv;
      R.FreeFlowKeeps(State(), i);
      R.FreeWishesFollow(State(), Wishes(), i);
      FreeFlow(i);
    }

    method SubmitFrame(s: R.PeerId, d: R.PeerId, i: R.FlowNo, b: D.BufferId)
      requires Valid() && s in from && d in to && i !in flows && b !in dp.buffers && current.None?
      modifies this, dp
      ensures Valid() && State() == R.Submit(old(State()), s, d, i) && R.LocalSame(old(Wishes()), Wishes())
    {
      hide D.Inv, R.Inv, R.Follows, R.LocalSame;
      ghost var was, w := State(), R.SubmitWishes(State(), Wishes(), s, d, i);
      var flow := FindFlow(s, d);
      if flow.None? {
        CreateFlow(i, b, R.Pair(s, d));
        flow := Some(i);
      }
      current := flow;
      assert State() == R.Submit(was, s, d, i);
      assert Wishes() == w;
    }

    /** The frame has reached its flow. */
    method FrameRouted()
      requires Valid()
      modifies this`current
      ensures Valid() && State() == old(State()).(current := None)
    {
      hide D.Inv;
      current := None;
    }

    method FreeFirst(p: R.PeerId, e: R.Side)
      requires Valid() && R.HasEnd(State(), p, e) && R.ListOf(State(), p, e) != []
      modifies this, dp
      ensures Valid() && R.LocalSame(old(Wishes()), Wishes()) && R.HasEnd(State(), p, e) && |flows| < |old(flows)|
      ensures R.FreeSide(State(), p, e) == R.FreeSide(old(State()), p, e)
    {
      hide D.Inv, R.Inv, R.Follows, R.LocalSame;
      R.FirstFreed(State(), p, e);
      var i := (if e.Source? then from else to)[p][0];
      R.WholeFlow(State(), Wishes(), i);
      R.FreeWishesFollow(State(), Wishes(), i);
      FreeFlow(i);
    }

    /** While the list has a first flow, that flow is freed. */
    method FreeSide(p: R.PeerId, e: R.Side)
      requires Valid() && R.HasEnd(State(), p, e)
      modifies this, dp
      ensures Valid() && State() == R.FreeSide(old(State()), p, e) && R.LocalSame(old(Wishes()), Wishes())
    {
      hide D.Inv, R.Inv, R.Follows;
      while (if e.Source? then from else to)[p] != []
        invariant Valid() && R.HasEnd(State(), p, e) && R.LocalSame(old(Wishes()), Wishes())
        invariant R.FreeSide(State(), p, e) == R.FreeSide(old(State()), p, e)
        decreases |flows|
      {
        ghost var w := Wishes();
        FreeFirst(p, e);
        R.LocalSameTwice(old(Wishes()), w, Wishes());
      }
    }

    method PeerInit(p: R.PeerId)
      requires Valid() && p !in from && p !in to
      modifies this
      ensures Valid() && State() == R.AddPeer(old(State()), p)
    {
      hide D.Inv, R.Follows;
      R.AddPeerKeeps(State(), p);
      R.AddPeerFollows(State(), Wishes(), p);
      from := from[p := []];
      to := to[p := []];
      links := links[p := None];
    }

    method RemoveEnds(p: R.PeerId)
      requires Valid() && forall i :: i in flows ==> flows[i].source != p && flows[i].dest != p
      modifies this
      ensures Valid() && State() == R.RemovePeer(old(State()), p)
    {
      hide D.Inv;
      R.RemovePeerKeeps(State(), p);
      R.RemovePeerFollows(State(), Wishes(), p);
      from, to, links := from - {p}, to - {p}, links - {p};
    }

    method PeerFree(p: R.PeerId)
      requires Valid() && p in from && p in to && links[p].None?
      modifies this, dp
      ensures Valid() && State() == R.Depart(old(State()), p) && R.LocalSame(old(Wishes()), Wishes())
    {
      hide D.Inv, R.Inv, R.Follows, R.LocalSame;
      ghost var w := Wishes();
      R.FreeSideExact(State(), p, R.Dest);
      FreeSide(p, R.Dest);
      ghost var v := Wishes();
      R.FreeSideExact(State(), p, R.Source);
      FreeSide(p, R.Source);
      R.LocalSameTwice(w, v, Wishes());
      RemoveEnds(p);
    }

    method AttachList(q: seq<R.FlowNo>, k: D.SinkId)
      requires dp.Valid() && Distinct(q) && k in Wishes().sinks
      requires forall i :: i in q ==> D.Relayed(i) in Wishes().desired && Wishes().desired[D.Relayed(i)].None?
      modifies dp
      ensures dp.Valid() && Wishes() == R.AttachAll(old(Wishes()), q, k)
    {
      hide D.Inv;
      ghost var w := Wishes();
      var n := 0;
      while n < |q|
        invariant 0 <= n <= |q| && dp.Valid() && k in Wishes().sinks
        invariant forall i :: i in q[n..] ==> D.Relayed(i) in Wishes().desired && Wishes().desired[D.Relayed(i)].None?
        invariant R.AttachAll(w, q, k) == R.AttachAll(Wishes(), q[n..], k)
      {
        R.AttachAllNext(Wishes(), q, n, k);
        Calls.Attach(dp, D.Relayed(q[n]), k);
        n := n + 1;
      }
    }

    method DetachList(q: seq<R.FlowNo>)
      requires dp.Valid() && Distinct(q)
      requires forall i :: i in q ==> D.Relayed(i) in Wishes().desired && Wishes().desired[D.Relayed(i)].Some?
      modifies dp
      ensures dp.Valid() && Wishes() == R.DetachAll(old(Wishes()), q)
    {
      hide D.Inv;
      ghost var w := Wishes();
      var n := 0;
      while n < |q|
        invariant 0 <= n <= |q| && dp.Valid()
        invariant forall i :: i in q[n..] ==> D.Relayed(i) in Wishes().desired && Wishes().desired[D.Relayed(i)].Some?
        invariant R.DetachAll(w, q) == R.DetachAll(Wishes(), q[n..])
      {
        R.DetachAllNext(Wishes(), q, n);
        Calls.Detach(dp, D.Relayed(q[n]));
        n := n + 1;
      }
    }

    /** The flows towards the peer are attached to the sink of its new link. */
    method SinkAttach(p: R.PeerId, k: D.SinkId)
      requires Valid() && p in to && links[p].None? && k in Wishes().sinks
      modifies this, dp
      ensures Valid() && State() == R.SetLink(old(State()), p, Some(k))
      ensures (forall i :: i in to[p] ==> D.Relayed(i) in old(Wishes()).desired && old(Wishes()).desired[D.Relayed(i)].None?)
      ensures Wishes() == R.AttachAll(old(Wishes()), to[p], k)
    {
      hide D.Inv, R.Follows;
      R.AttachAllFollows(State(), Wishes(), p, k);
      AttachList(to[p], k);
      links := links[p := Some(k)];
    }

    method SinkDetach(p: R.PeerId)
      requires Valid() && p in to && links[p].Some?
      modifies this, dp
      ensures Valid() && State() == R.SetLink(old(State()), p, None)
      ensures (forall i :: i in to[p] ==> D.Relayed(i) in old(Wishes()).desired && old(Wishes()).desired[D.Relayed(i)].Some?)
      ensures Wishes() == R.DetachAll(old(Wishes()), to[p])
    {
      hide D.Inv, R.Follows;
      R.DetachAllFollows(State(), Wishes(), p);
      DetachList(to[p]);
      links := links[p := None];
    }
  }
}
