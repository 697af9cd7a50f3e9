/** Relaying of frames between two other peers. */
module RelayRouter {
  // Each pair of a source and a destination has at most one flow; the flows towards a destination follow the
  // destination's link.

  import opened Wrappers
  import opened Seqs
  import D = DataProto
  import W = DataProtoWishes

  type PeerId = nat
  type FlowNo = nat

  datatype Pair = Pair(source: PeerId, dest: PeerId)

  datatype Side = Source | Dest

  function End(x: Pair, e: Side): PeerId {
    if e.Source? then x.source else x.dest
  }

  /**
  Each peer has a list of the flows from it and a list of the flows to it; `dp` is the sink of its link, if it has one.
  The flow that the frame being passed belongs to is remembered in `current`.
  */
  datatype Router = Router(
    from: map<PeerId, seq<FlowNo>>,
    to: map<PeerId, seq<FlowNo>>,
    dp: map<PeerId, Option<D.SinkId>>,
    flows: map<FlowNo, Pair>,
    current: Option<FlowNo>)

  // ----- what is always true -----

  /** The lists hold exactly the flows with the peer at that end, each once. */
  ghost predicate Indexed(index: map<PeerId, seq<FlowNo>>, flows: map<FlowNo, Pair>, e: Side) {
    && (forall p :: p in index ==> Distinct(index[p]) && forall i :: i in index[p] <==> i in flows && End(flows[i], e) == p)
    && (forall i :: i in flows ==> End(flows[i], e) in index)
  }

  ghost predicate OnePerPair(flows: map<FlowNo, Pair>) {
    forall i, j :: i in flows && j in flows && flows[i] == flows[j] ==> i == j
  }

  ghost predicate Inv(r: Router) {
    && Indexed(r.from, r.flows, Source) && Indexed(r.to, r.flows, Dest) && OnePerPair(r.flows)
    && r.dp.Keys == r.to.Keys
    && (r.current.Some? ==> r.current.value in r.flows)
  }

  /** The sink a flow desires is always the one of its destination's link. */
  ghost predicate Follows(r: Router, w: W.Wishes) {
    && (forall i :: D.Relayed(i) in w.desired <==> i in r.flows)
    && (forall i :: i in r.flows ==> r.flows[i].dest in r.dp && w.desired[D.Relayed(i)] == r.dp[r.flows[i].dest])
    && (forall p :: p in r.dp && r.dp[p].Some? ==> r.dp[p].value in w.sinks)
  }

  /** Nothing but relay flows differs in what the data protocol is asked for. */
  ghost predicate LocalSame(w: W.Wishes, v: W.Wishes) {
    && w.sinks == v.sinks
    && (forall p :: D.Local(p) in w.desired <==> D.Local(p) in v.desired)
    && (forall p :: D.Local(p) in w.desired ==> v.desired[D.Local(p)] == w.desired[D.Local(p)])
  }

  lemma LocalSameTwice(u: W.Wishes, v: W.Wishes, w: W.Wishes)
    requires LocalSame(u, v) && LocalSame(v, w)
    ensures LocalSame(u, w)
  {
  }

  // ----- the lists -----

  lemma IndexedAdd(index: map<PeerId, seq<FlowNo>>, flows: map<FlowNo, Pair>, e: Side, i: FlowNo, x: Pair)
    requires Indexed(index, flows, e) && i !in flows && End(x, e) in index
    ensures Indexed(index[End(x, e) := index[End(x, e)] + [i]], flows[i := x], e)
  {
  }

  lemma IndexedRemove(index: map<PeerId, seq<FlowNo>>, flows: map<FlowNo, Pair>, e: Side, i: FlowNo)
    requires Indexed(index, flows, e) && i in flows
    ensures var p := End(flows[i], e); Indexed(index[p := Without(index[p], i)], flows - {i}, e)
  {
    WithoutDistinct(index[End(flows[i], e)], i);
  }

  // ----- one flow -----

  /** The first flow of the list towards destination `d`. */
  function FindIn(flows: map<FlowNo, Pair>, q: seq<FlowNo>, d: PeerId): (i: Option<FlowNo>)
    requires forall i :: i in q ==> i in flows
    ensures i.Some? ==> i.value in q && flows[i.value].dest == d
    ensures i.None? ==> forall j :: j in q ==> flows[j].dest != d
  {
    if q == [] then None
    else if flows[q[0]].dest == d then Some(q[0])
    else FindIn(flows, q[1..], d)
  }

  function CreateFlow(r: Router, i: FlowNo, x: Pair): Router
    requires x.source in r.from && x.dest in r.to
  {
    r.(from := r.from[x.source := r.from[x.source] + [i]],
       to := r.to[x.dest := r.to[x.dest] + [i]],
       flows := r.flows[i := x])
  }

  function CreateWishes(r: Router, w: W.Wishes, i: FlowNo, x: Pair): W.Wishes
    requires D.Relayed(i) !in w.desired && x.dest in r.dp && (r.dp[x.dest].Some? ==> r.dp[x.dest].value in w.sinks)
  {
    var v := W.AddFlow(w, D.Relayed(i));
    if r.dp[x.dest].Some? then W.Attach(v, D.Relayed(i), r.dp[x.dest].value) else v
  }

  function FreeFlow(r: Router, i: FlowNo): Router
    requires i in r.flows && r.flows[i].source in r.from && r.flows[i].dest in r.to
  {
    var x := r.flows[i];
    r.(from := r.from[x.source := Without(r.from[x.source], i)],
       to := r.to[x.dest := Without(r.to[x.dest], i)],
       flows := r.flows - {i},
       current := if r.current == Some(i) then None else r.current)
  }

  function FreeWishes(r: Router, w: W.Wishes, i: FlowNo): W.Wishes
    requires i in r.flows && r.flows[i].dest in r.dp
    requires D.Relayed(i) in w.desired && w.desired[D.Relayed(i)] == r.dp[r.flows[i].dest]
  {
    W.RemoveFlow(if r.dp[r.flows[i].dest].Some? then W.Detach(w, D.Relayed(i)) else w, D.Relayed(i))
  }

  lemma WholeFlow(r: Router, w: W.Wishes, i: FlowNo)
    requires Inv(r) && Follows(r, w) && i in r.flows
    ensures r.flows[i].source in r.from && r.flows[i].dest in r.to && r.flows[i].dest in r.dp
    ensures D.Relayed(i) in w.desired && w.desired[D.Relayed(i)] == r.dp[r.flows[i].dest]
  {
  }

  lemma CreateFlowKeeps(r: Router, i: FlowNo, x: Pair)
    requires Inv(r) && x.source in r.from && x.dest in r.to && i !in r.flows
    requires forall j :: j in r.flows ==> r.flows[j] != x
    ensures Inv(CreateFlow(r, i, x))
  {
    IndexedAdd(r.from, r.flows, Source, i, x);
    IndexedAdd(r.to, r.flows, Dest, i, x);
  }

  lemma CreateWishesFollow(r: Router, w: W.Wishes, i: FlowNo, x: Pair)
    requires Follows(r, w) && x.source in r.from && x.dest in r.to && x.dest in r.dp && i !in r.flows
    ensures Follows(CreateFlow(r, i, x), CreateWishes(r, w, i, x)) && LocalSame(w, CreateWishes(r, w, i, x))
  {
  }

  lemma FreeFlowKeeps(r: Router, i: FlowNo)
    requires Inv(r) && i in r.flows
    ensures Inv(FreeFlow(r, i))
  {
    IndexedRemove(r.from, r.flows, Source, i);
    IndexedRemove(r.to, r.flows, Dest, i);
  }

  lemma FreeWishesFollow(r: Router, w: W.Wishes, i: FlowNo)
    requires Follows(r, w) && i in r.flows && r.flows[i].source in r.from && r.flows[i].dest in r.to
    ensures Follows(FreeFlow(r, i), FreeWishes(r, w, i)) && LocalSame(w, FreeWishes(r, w, i))
  {
  }

  // ----- a frame to relay -----

  /** A frame from `s` to `d` goes to their flow, which is created as `i` if there is none. */
  function Submit(r: Router, s: PeerId, d: PeerId, i: FlowNo): (t: Router)
    requires Inv(r) && s in r.from && d in r.to && i !in r.flows
    ensures Inv(t) && t.current.Some? && t.flows[t.current.value] == Pair(s, d)
    ensures t.from.Keys == r.from.Keys && t.to.Keys == r.to.Keys && t.dp == r.dp
    ensures t.flows == r.flows[t.current.value := Pair(s, d)]
  {
    var found := FindIn(r.flows, r.from[s], d);
    if found.Some? then r.(current := found)
    else
      CreateFlowKeeps(r, i, Pair(s, d));
      CreateFlow(r, i, Pair(s, d)).(current := Some(i))
  }

  function SubmitWishes(r: Router, w: W.Wishes, s: PeerId, d: PeerId, i: FlowNo): (v: W.Wishes)
    requires Inv(r) && Follows(r, w) && s in r.from && d in r.to && i !in r.flows
    ensures Follows(Submit(r, s, d, i), v) && LocalSame(w, v)
  {
    if FindIn(r.flows, r.from[s], d).Some? then w
    else
      CreateWishesFollow(r, w, i, Pair(s, d));
      CreateWishes(r, w, i, Pair(s, d))
  }

  // ----- a peer comes, gets a link, loses it and goes -----

  function AddPeer(r: Router, p: PeerId): Router {
    r.(from := r.from[p := []], to := r.to[p := []], dp := r.dp[p := None])
  }

  function RemovePeer(r: Router, p: PeerId): Router {
    r.(from := r.from - {p}, to := r.to - {p}, dp := r.dp - {p})
  }

  function SetLink(r: Router, p: PeerId, k: Option<D.SinkId>): Router {
    r.(dp := r.dp[p := k])
  }

  lemma SetLinkKeeps(r: Router, p: PeerId, k: Option<D.SinkId>)
    requires Inv(r) && p in r.dp
    ensures Inv(SetLink(r, p, k))
  {
    hide Indexed, OnePerPair;
  }

  lemma AddPeerKeeps(r: Router, p: PeerId)
    requires Inv(r) && p !in r.from && p !in r.to
    ensures Inv(AddPeer(r, p))
  {
  }

  lemma AddPeerFollows(r: Router, w: W.Wishes, p: PeerId)
    requires Follows(r, w) && p !in r.dp
    ensures Follows(AddPeer(r, p), w)
  {
  }

  /** The flow is attached to the sink, with every other flow of the list. */
  function AttachAll(w: W.Wishes, q: seq<FlowNo>, k: D.SinkId): (v: W.Wishes)
    requires Distinct(q) && k in w.sinks
    requires forall i :: i in q ==> D.Relayed(i) in w.desired && w.desired[D.Relayed(i)].None?
    ensures LocalSame(w, v) && v.desired.Keys == w.desired.Keys
    ensures forall i :: D.Relayed(i) in w.desired ==>
      v.desired[D.Relayed(i)] == if i in q then Some(k) else w.desired[D.Relayed(i)]
    decreases |q|
  {
    if q == [] then w
    else
      assert q[0] !in q[1..];
      AttachAll(W.Attach(w, D.Relayed(q[0]), k), q[1..], k)
  }

  function DetachAll(w: W.Wishes, q: seq<FlowNo>): (v: W.Wishes)
    requires Distinct(q)
    requires forall i :: i in q ==> D.Relayed(i) in w.desired && w.desired[D.Relayed(i)].Some?
    ensures LocalSame(w, v) && v.desired.Keys == w.desired.Keys
    ensures forall i :: D.Relayed(i) in w.desired ==>
      v.desired[D.Relayed(i)] == if i in q then None else w.desired[D.Relayed(i)]
    decreases |q|
  {
    if q == [] then w
    else
      assert q[0] !in q[1..];
      DetachAll(W.Detach(w, D.Relayed(q[0])), q[1..])
  }

  /** One more flow of the list is attached. */
  lemma AttachAllNext(w: W.Wishes, q: seq<FlowNo>, n: nat, k: D.SinkId)
    requires Distinct(q) && n < |q| && k in w.sinks
    requires forall i :: i in q[n..] ==> D.Relayed(i) in w.desired && w.desired[D.Relayed(i)].None?
    ensures var v := W.Attach(w, D.Relayed(q[n]), k);
      && (forall i :: i in q[n + 1..] ==> D.Relayed(i) in v.desired && v.desired[D.Relayed(i)].None?)
      && AttachAll(w, q[n..], k) == AttachAll(v, q[n + 1..], k)
  {
    assert q[n..][1..] == q[n + 1..];
  }

  lemma DetachAllNext(w: W.Wishes, q: seq<FlowNo>, n: nat)
    requires Distinct(q) && n < |q|
    requires forall i :: i in q[n..] ==> D.Relayed(i) in w.desired && w.desired[D.Relayed(i)].Some?
    ensures var v := W.Detach(w, D.Relayed(q[n]));
      && (forall i :: i in q[n + 1..] ==> D.Relayed(i) in v.desired && v.desired[D.Relayed(i)].Some?)
      && DetachAll(w, q[n..]) == DetachAll(v, q[n + 1..])
  {
    assert q[n..][1..] == q[n + 1..];
  }

  lemma AttachAllFollows(r: Router, w: W.Wishes, p: PeerId, k: D.SinkId)
    requires Follows(r, w) && Indexed(r.to, r.flows, Dest) && p in r.to && p in r.dp && r.dp[p].None? && k in w.sinks
    ensures Distinct(r.to[p])
    ensures forall i :: i in r.to[p] ==> D.Relayed(i) in w.desired && w.desired[D.Relayed(i)].None?
    ensures Follows(SetLink(r, p, Some(k)), AttachAll(w, r.to[p], k))
  {
  }

  lemma DetachAllFollows(r: Router, w: W.Wishes, p: PeerId)
    requires Follows(r, w) && Indexed(r.to, r.flows, Dest) && p in r.to && p in r.dp && r.dp[p].Some?
    ensures Distinct(r.to[p])
    ensures forall i :: i in r.to[p] ==> D.Relayed(i) in w.desired && w.desired[D.Relayed(i)].Some?
    ensures Follows(SetLink(r, p, None), DetachAll(w, r.to[p]))
  {
  }

  // ----- freeing every flow at one end -----

  predicate HasEnd(r: Router, p: PeerId, e: Side) {
    if e.Source? then p in r.from else p in r.to
  }

  function ListOf(r: Router, p: PeerId, e: Side): seq<FlowNo>
    requires HasEnd(r, p, e)
  {
    if e.Source? then r.from[p] else r.to[p]
  }

  function NotAt(flows: map<FlowNo, Pair>, p: PeerId, e: Side): map<FlowNo, Pair> {
    map i | i in flows && End(flows[i], e) != p :: flows[i]
  }

  /** The flow of the frame being passed, if it is still there. */
  function Still(current: Option<FlowNo>, flows: map<FlowNo, Pair>): Option<FlowNo> {
    if current.Some? && current.value in flows then current else None
  }

  /** What freeing flows leaves alone. */
  ghost predicate Freed(r: Router, flows: map<FlowNo, Pair>, t: Router) {
    && t.from.Keys == r.from.Keys && t.to.Keys == r.to.Keys && t.dp == r.dp && t.flows == flows
    && t.current == Still(r.current, flows)
  }

  lemma FirstFreed(r: Router, p: PeerId, e: Side)
    requires Inv(r) && HasEnd(r, p, e) && ListOf(r, p, e) != []
    ensures var i := ListOf(r, p, e)[0];
      && i in r.flows && End(r.flows[i], e) == p
      && Inv(FreeFlow(r, i)) && Freed(r, r.flows - {i}, FreeFlow(r, i)) && |r.flows - {i}| < |r.flows|
  {
    var i := ListOf(r, p, e)[0];
    assert i in ListOf(r, p, e);
    FreeFlowKeeps(r, i);
    FreeFlowFreed(r, i);
  }

  lemma FreeFlowFreed(r: Router, i: FlowNo)
    requires i in r.flows && r.flows[i].source in r.from && r.flows[i].dest in r.to
    requires r.current.Some? ==> r.current.value in r.flows
    ensures Freed(r, r.flows - {i}, FreeFlow(r, i)) && |r.flows - {i}| < |r.flows|
  {
    assert r.flows == (r.flows - {i})[i := r.flows[i]];
  }

  lemma NoneListed(r: Router, p: PeerId, e: Side)
    requires Inv(r) && HasEnd(r, p, e) && ListOf(r, p, e) == []
    ensures NotAt(r.flows, p, e) == r.flows
  {
  }

  /** The first flow of the list is freed until there is none. */
  function FreeSide(r: Router, p: PeerId, e: Side): (t: Router)
    requires Inv(r) && HasEnd(r, p, e)
    ensures Inv(t)
    decreases |r.flows|
  {
    if ListOf(r, p, e) == [] then r
    else
      FirstFreed(r, p, e);
      FreeSide(FreeFlow(r, ListOf(r, p, e)[0]), p, e)
  }

  /** Exactly the flows at that end go. */
  lemma {:induction false} FreeSideExact(r: Router, p: PeerId, e: Side)
    requires Inv(r) && HasEnd(r, p, e)
    ensures Freed(r, NotAt(r.flows, p, e), FreeSide(r, p, e))
    decreases |r.flows|
  {
    if ListOf(r, p, e) == [] {
      NoneListed(r, p, e);
    } else {
      var i := ListOf(r, p, e)[0];
      FirstFreed(r, p, e);
      var m := FreeFlow(r, i);
      FreeSideExact(m, p, e);
      FreedTwice(r, i, m, p, e, FreeSide(m, p, e));
    }
  }

  lemma FreedTwice(r: Router, i: FlowNo, m: Router, p: PeerId, e: Side, t: Router)
    requires i in r.flows && End(r.flows[i], e) == p
    requires Freed(r, r.flows - {i}, m) && Freed(m, NotAt(m.flows, p, e), t)
    ensures Freed(r, NotAt(r.flows, p, e), t)
  {
    assert NotAt(r.flows - {i}, p, e) == NotAt(r.flows, p, e);
  }

  /** When a peer goes, the flows to it and then the flows from it are freed, and its ends with them. */
  function Depart(r: Router, p: PeerId): (t: Router)
    requires Inv(r) && p in r.from && p in r.to
    ensures Inv(t)
    ensures t.from.Keys == r.from.Keys - {p} && t.to.Keys == r.to.Keys - {p} && t.dp == r.dp - {p}
    ensures t.flows == NotAt(NotAt(r.flows, p, Dest), p, Source) && t.current == Still(r.current, t.flows)
  {
    FreeSideExact(r, p, Dest);
    var a := FreeSide(r, p, Dest);
    FreeSideExact(a, p, Source);
    RemovePeerKeeps(FreeSide(a, p, Source), p);
    RemovePeer(FreeSide(a, p, Source), p)
  }

  lemma RemovePeerKeeps(r: Router, p: PeerId)
    requires Inv(r) && forall i :: i in r.flows ==> r.flows[i].source != p && r.flows[i].dest != p
    ensures Inv(RemovePeer(r, p))
  {
  }

  lemma RemovePeerFollows(r: Router, w: W.Wishes, p: PeerId)
    requires Follows(r, w) && forall i :: i in r.flows ==> r.flows[i].dest != p
    ensures Follows(RemovePeer(r, p), w)
  {
  }
}
