/**
The client as the source runs it: the peers, their lists, the relay router and the data protocol, changed in place.
*/
module RelayingObject {
  import opened Wrappers
  import opened Seqs
  import opened Relaying
  import opened RelayingWishes
  import C = RelayingClient
  import D = DataProto
  import W = DataProtoWishes
  import R = RelayRouter
  import Calls = DataProtoCalls
  import opened DataProtoObject
  import opened RelayRouterObject

  class Client {
    var peers: map<PeerId, Peer>
    var relays: seq<PeerId>
    var waiting: seq<PeerId>
    const router: DPRelayRouter
    const dp: DataProto

    ghost function State(): Net
      reads this
    {
      Net(peers, relays, waiting)
    }

    ghost function Wishes(): W.Wishes
      reads dp
    {
      Calls.Wishes(dp)
    }

    ghost predicate Valid()
      reads this, router, dp
    {
      router.dp == dp && dp.Valid() && Agreed(State(), router.State(), Wishes())
    }

    constructor (router: DPRelayRouter)
      requires router.Valid() && router.State() == R.Router(map[], map[], map[], map[], None)
      requires router.dp.flows == map[] && router.dp.sinks == map[]
      ensures Valid() && this.router == router && State() == Net(map[], [], [])
    {
      this.router, this.dp := router, router.dp;
      peers, relays, waiting := map[], [], [];
    }

    method RegisterNeedRelay(p: PeerId)
      requires Unconnected(State(), p)
      modifies this
      ensures State() == Register(old(State()), p)
    {
      waiting := waiting + [p];
      peers := peers[p := peers[p].(waiting := true)];
    }

    method UnregisterNeedRelay(p: PeerId)
      requires p in peers && peers[p].waiting
      modifies this
      ensures State() == Unregister(old(State()), p)
    {
      waiting := Without(waiting, p);
      peers := peers[p := peers[p].(waiting := false)];
    }

    method InstallRelaying(p: PeerId, r: PeerId)
      requires Unconnected(State(), p) && r in peers && peers[r].isRelay
      requires dp.Valid() && D.Local(p) in Wishes().desired && Wishes().desired[D.Local(p)].None? && r in Wishes().sinks
      modifies this, dp
      ensures State() == Install(old(State()), p, r)
      ensures dp.Valid() && Wishes() == W.Attach(old(Wishes()), D.Local(p), r)
    {
      peers := peers[r := peers[r].(users := peers[r].users + [p])];
      Calls.Attach(dp, D.Local(p), r);
      peers := peers[p := peers[p].(relaying := Some(r))];
    }

    method FreeRelaying(p: PeerId)
      requires p in peers && peers[p].relaying.Some? && peers[p].relaying.value in peers && peers[p].relaying.value != p
      requires dp.Valid() && D.Local(p) in Wishes().desired && Wishes().desired[D.Local(p)].Some?
      modifies this, dp
      ensures State() == Relaying.FreeRelaying(old(State()), p)
      ensures dp.Valid() && Wishes() == W.Detach(old(Wishes()), D.Local(p))
    {
      var r := peers[p].relaying.value;
      Calls.Detach(dp, D.Local(p));
      peers := peers[r := peers[r].(users := Without(peers[r].users, p))];
      peers := peers[p := peers[p].(relaying := None)];
    }

    /** The first waiting peer gets the first relay. */
    method AssignOne()
      requires Valid() && waiting != [] && relays != []
      modifies this, dp
      ensures Valid() && State() == AssignFirst(old(State()))
      ensures |waiting| < |old(waiting)|
    {
      hide Inv, R.Inv, LinksFollow, LocalAgrees, R.Follows, D.Inv;
      ghost var n := State();
      var p, r := waiting[0], relays[0];
      AssignFirstAgreed(n, router.State(), Wishes());
      UnregisterNeedRelay(p);
      InstallRelaying(p, r);
      assert State() == AssignFirst(n);
    }

    method AssignRelays()
      requires Valid()
      modifies this, dp
      ensures Valid() && State() == Assign(old(State()))
    {
      while waiting != []
        invariant Valid() && Assign(State()) == Assign(old(State()))
        decreases |waiting|
      {
        if relays == [] {
          return;
        }
        AssignOne();
      }
    }

    method DisbandOne(r: PeerId)
      requires Valid() && r in peers && peers[r].isRelay && peers[r].users != []
      modifies this, dp
      ensures Valid() && State() == DisbandFirst(old(State()), r)
    {
      hide Inv, R.Inv, LinksFollow, LocalAgrees, R.Follows, D.Inv;
      ghost var n := State();
      var p := peers[r].users[0];
      DisbandFirstAgreed(n, router.State(), Wishes(), r);
      FreeRelaying(p);
      RegisterNeedRelay(p);
      assert State() == DisbandFirst(n, r);
    }

    method EnableRelayProvider(p: PeerId)
      requires Valid() && p in peers && peers[p].haveLink && !peers[p].isRelay
      modifies this, dp
      ensures Valid() && State() == C.Enable(old(State()), p)
    {
      hide Inv, R.Inv, LinksFollow, LocalAgrees, R.Follows, D.Inv;
      MakeRelayAgreed(State(), router.State(), Wishes(), p);
      ghost var n := MakeRelay(State(), p);
      relays := relays + [p];
      peers := peers[p := peers[p].(users := [], isRelay := true)];
      assert State() == n;
      AssignRelays();
    }

    method DisableRelayProvider(p: PeerId)
      requires Valid() && p in peers && peers[p].isRelay
      modifies this, dp
      ensures Valid() && State() == C.Disable(old(State()), p)
    {
      hide Inv, R.Inv, LinksFollow, LocalAgrees, R.Follows, D.Inv;
      while peers[p].users != []
        invariant Valid() && p in peers && peers[p].isRelay && Inv(State())
        invariant Disband(State(), p) == Disband(old(State()), p)
        decreases |peers[p].users|
      {
        DisbandOne(p);
      }
      UnmakeRelayAgreed(State(), router.State(), Wishes(), p);
      ghost var n := UnmakeRelay(State(), p);
      relays := Without(relays, p);
      peers := peers[p := peers[p].(isRelay := false)];
      assert State() == n;
      AssignRelays();
    }

    /** Fails, changing nothing, when the transport or the sink cannot be set up. */
    method InitLink(p: PeerId, ok: bool)
      requires Valid() && Unconnected(State(), p)
      modifies this, router, dp
      ensures Valid() && State() == if ok then SetLink(old(State()), p, true) else old(State())
      ensures router.State() == if ok then R.SetLink(old(router.State()), p, Some(p)) else old(router.State())
    {
      hide Inv, R.Inv, LinksFollow, LocalAgrees, R.Follows, D.Inv;
      if !ok {
        return;
      }
      ghost var n := State();
      InitLinkAgreed(n, router.State(), Wishes(), p);
      Calls.InitSink(dp, p);
      Calls.Attach(dp, D.Local(p), p);
      router.SinkAttach(p, p);
      peers := peers[p := peers[p].(haveLink := true)];
      assert State() == SetLink(n, p, true);
    }

    /** Nothing desires the link's sink when it is freed. */
    method FreeLink(p: PeerId)
      requires Valid() && p in peers && peers[p].haveLink && !peers[p].isRelay
      modifies this, router, dp
      ensures Valid() && State() == SetLink(old(State()), p, false)
      ensures router.State() == R.SetLink(old(router.State()), p, None)
    {
      hide Inv, R.Inv, LinksFollow, LocalAgrees, R.Follows, D.Inv;
      ghost var n := State();
      FreeLinkAgreed(n, router.State(), Wishes(), p);
      router.SinkDetach(p);
      Calls.Detach(dp, D.Local(p));
      Calls.FreeSink(dp, p);
      peers := peers[p := peers[p].(haveLink := false)];
      assert State() == SetLink(n, p, false);
    }

    method CleanupConnections(p: PeerId)
      requires Valid() && p in peers
      modifies this, router, dp
      ensures Valid() && State() == C.Cleanup(old(State()), p)
      ensures router.State() == R.SetLink(old(router.State()), p, None)
    {
      hide Inv, R.Inv, LinksFollow, LocalAgrees, R.Follows, D.Inv, Assign;
      EndsOf(State(), router.State(), p);
      ghost var c := C.Cleanup(State(), p);
      if peers[p].haveLink {
        if peers[p].isRelay {
          DisableRelayProvider(p);
        }
        FreeLink(p);
      } else if peers[p].relaying.Some? {
        FreeRelayingAgreed(State(), router.State(), Wishes(), p);
        FreeRelaying(p);
      } else if peers[p].waiting {
        UnregisterAgreed(State(), router.State(), Wishes(), p);
        UnregisterNeedRelay(p);
      }
    }

    method NeedRelay(p: PeerId)
      requires Valid() && p in peers && !peers[p].isRelay
      modifies this, router, dp
      ensures Valid() && State() == C.NeedRelay(old(State()), p)
      ensures router.State() == R.SetLink(old(router.State()), p, None)
    {
      hide Inv, R.Inv, LinksFollow, LocalAgrees, R.Follows, D.Inv, Assign;
      EndsOf(State(), router.State(), p);
      ghost var n := C.Cleanup(State(), p);
      StatesOf(State());
      if peers[p].waiting {
        return;
      }
      if peers[p].haveLink {
        FreeLink(p);
      } else if peers[p].relaying.Some? {
        FreeRelayingAgreed(State(), router.State(), Wishes(), p);
        FreeRelaying(p);
      }
      assert State() == n;
      RegisterAgreed(State(), router.State(), Wishes(), p);
      RegisterNeedRelay(p);
      AssignRelays();
    }

    // ----- the handlers -----

    ghost function Whole(): C.Client
      reads this, router
    {
      C.Client(State(), router.State())
    }

    /** What holds between handlers. */
    ghost predicate Ready()
      reads this, router, dp
    {
      Valid() && C.Between(Whole())
    }

    method NewClient(p: PeerId, canRelay: bool, b: D.BufferId)
      requires Ready() && b !in dp.buffers
      modifies this, router, dp
      ensures Ready() && Whole() == C.Step(old(Whole()), C.Add(p, canRelay))
    {
      hide Inv, R.Inv, LinksFollow, LocalAgrees, R.Follows, D.Inv;
      if p in peers {
        return;
      }
      var x := Peer(false, None, false, false, [], canRelay);
      ghost var n := C.AddPeer(State(), p, canRelay);
      AddPeerAgreed(State(), router.State(), Wishes(), p, x);
      Calls.InitFlow(dp, D.Local(p), b);
      router.PeerInit(p);
      peers := peers[p := x];
      assert State() == n;
    }

    method EndClient(p: PeerId)
      requires Ready()
      modifies this, router, dp
      ensures Ready() && Whole() == C.Step(old(Whole()), C.Remove(p))
    {
      hide Inv, R.Inv, LinksFollow, LocalAgrees, R.Follows, D.Inv, R.LocalSame, C.Cleanup;
      if p !in peers {
        return;
      }
      ghost var c := C.CleanupClient(Whole(), p);
      ghost var n := C.RemovePeer(c.net, p);
      CleanupConnections(p);
      assert Whole() == c;
      EndsOf(State(), router.State(), p);
      ghost var w := Wishes();
      peers := peers - {p};
      router.PeerFree(p);
      RemovePeerAgreed(c.net, c.router, w, p, router.State(), Wishes());
      Calls.FreeFlow(dp, D.Local(p));
      assert State() == n;
    }

    /** A fresh link, when an address is tried; when there is none the peer is reset. */
    method FreshLink(p: PeerId, ok: bool)
      requires Ready() && p in peers
      modifies this, router, dp
      ensures Ready() && Whole() == C.Step(old(Whole()), C.Fresh(p, ok))
    {
      hide Inv, R.Inv, LinksFollow, LocalAgrees, R.Follows, D.Inv;
      ghost var c := C.CleanupClient(Whole(), p);
      CleanupConnections(p);
      assert Whole() == c;
      InitLink(p, ok);
      if !ok {
        EndsOf(State(), router.State(), p);
        CleanupConnections(p);
        assert Whole() == c;
      }
    }

    method ResetPeer(p: PeerId)
      requires Ready() && p in peers
      modifies this, router, dp
      ensures Ready() && Whole() == C.Step(old(Whole()), C.Reset(p))
    {
      hide Inv, R.Inv, LinksFollow, LocalAgrees, R.Follows, D.Inv, C.Cleanup;
      ghost var c := C.CleanupClient(Whole(), p);
      CleanupConnections(p);
      assert Whole() == c;
    }

    /** Neither side could bind an address for the other. */
    method CannotBind(p: PeerId)
      requires Ready() && p in peers
      modifies this, router, dp
      ensures Ready() && Whole() == C.Step(old(Whole()), C.CannotBind(p))
    {
      hide Inv, R.Inv, LinksFollow, LocalAgrees, R.Follows, D.Inv, C.NeedRelay;
      if !peers[p].isRelay {
        ghost var c := C.NeedRelayClient(Whole(), p);
        NeedRelay(p);
        assert Whole() == c;
      }
    }

    /** The sink reports that the peer is up or down. */
    method DataprotoHandler(p: PeerId, up: bool)
      requires Ready() && p in peers && peers[p].haveLink
      modifies this, router, dp
      ensures Ready() && Whole() == C.Step(old(Whole()), C.Report(p, up))
    {
      hide Inv, R.Inv, LinksFollow, LocalAgrees, R.Follows, D.Inv, C.Enable, C.Disable;
      ghost var c := C.ReportClient(Whole(), p, up);
      if up {
        if peers[p].canRelay && !peers[p].isRelay {
          EnableRelayProvider(p);
        }
      } else {
        if peers[p].isRelay {
          DisableRelayProvider(p);
        }
      }
      assert Whole() == c;
    }

    /** A frame from one peer for another. */
    method RelayFrame(s: PeerId, d: PeerId, i: R.FlowNo, b: D.BufferId)
      requires Ready() && C.Enabled(Whole(), C.Submit(s, d, i)) && b !in dp.buffers
      modifies this, router, dp
      ensures Ready() && Whole() == C.Step(old(Whole()), C.Submit(s, d, i))
    {
      hide Inv, R.Inv, LinksFollow, LocalAgrees, R.Follows, D.Inv, R.LocalSame, R.Submit;
      ghost var c := C.SubmitClient(Whole(), s, d, i);
      ghost var w := Wishes();
      EndsOf(State(), router.State(), s);
      EndsOf(State(), router.State(), d);
      router.SubmitFrame(s, d, i, b);
      LocalSameAgrees(State(), w, Wishes());
      assert Whole() == c;
    }

    /** The relayed frame has reached its flow. */
    method FrameRouted()
      requires Ready()
      modifies this, router
      ensures Ready() && Whole() == C.Step(old(Whole()), C.Routed)
    {
      hide Inv, R.Inv, LinksFollow, LocalAgrees, R.Follows, D.Inv;
      ghost var c := C.RoutedClient(Whole());
      router.FrameRouted();
      assert Whole() == c;
    }

    method FlowInactive(i: R.FlowNo)
      requires Ready() && C.Enabled(Whole(), C.Inactive(i))
      modifies this, router, dp
      ensures Ready() && Whole() == C.Step(old(Whole()), C.Inactive(i))
    {
      hide Inv, R.Inv, LinksFollow, LocalAgrees, R.Follows, D.Inv, R.LocalSame;
      ghost var c := C.InactiveClient(Whole(), i);
      ghost var w := Wishes();
      R.WholeFlow(router.State(), w, i);
      router.FlowInactive(i);
      LocalSameAgrees(State(), w, Wishes());
      assert Whole() == c;
    }
  }
}
