/** What the data protocol's callers see of it: which sinks exist and which sink each flow desires. */
module DataProtoWishes {
  import opened Wrappers
  import D = DataProto

  datatype Wishes = Wishes(sinks: set<D.SinkId>, desired: map<D.FlowId, Option<D.SinkId>>)

  function Of(s: D.State): Wishes {
    Wishes(s.sinks.Keys, map f | f in s.flows :: s.flows[f].desired)
  }

  function AddSink(w: Wishes, k: D.SinkId): Wishes
    requires k !in w.sinks
  {
    w.(sinks := w.sinks + {k})
  }

  /** A sink is freed only when no flow desires it. */
  function RemoveSink(w: Wishes, k: D.SinkId): Wishes
    requires k in w.sinks && Undesired(w, k)
  {
    w.(sinks := w.sinks - {k})
  }

  ghost predicate Undesired(w: Wishes, k: D.SinkId) {
    forall f :: f in w.desired ==> w.desired[f] != Some(k)
  }

  function AddFlow(w: Wishes, f: D.FlowId): Wishes
    requires f !in w.desired
  {
    w.(desired := w.desired[f := None])
  }

  function RemoveFlow(w: Wishes, f: D.FlowId): Wishes
    requires f in w.desired && w.desired[f].None?
  {
    w.(desired := w.desired - {f})
  }

  function Attach(w: Wishes, f: D.FlowId, k: D.SinkId): Wishes
    requires f in w.desired && w.desired[f].None? && k in w.sinks
  {
    w.(desired := w.desired[f := Some(k)])
  }

  function Detach(w: Wishes, f: D.FlowId): Wishes
    requires f in w.desired && w.desired[f].Some?
  {
    w.(desired := w.desired[f := None])
  }

  /** The obligations above are exactly those of the calls they stand for, and each call moves the wishes as they say. */
  lemma SinkCalls(s: D.State, k: D.SinkId)
    requires D.Inv(s)
    ensures D.Enabled(s, D.SinkInit(k)) <==> k !in Of(s).sinks
    ensures D.Enabled(s, D.SinkInit(k)) ==> Of(D.Step(s, D.SinkInit(k))) == AddSink(Of(s), k)
    ensures D.Enabled(s, D.SinkFree(k)) <==> k in Of(s).sinks && Undesired(Of(s), k)
    ensures D.Enabled(s, D.SinkFree(k)) ==> Of(D.Step(s, D.SinkFree(k))) == RemoveSink(Of(s), k)
  {
    assert D.Enabled(s, D.SinkFree(k)) <==> k in Of(s).sinks && Undesired(Of(s), k) by {
      if k in s.sinks && Undesired(Of(s), k) {
        forall f | f in s.flows
          ensures s.flows[f].desired != Some(k)
        {
          assert f in Of(s).desired;
        }
      }
    }
    if k in s.sinks && s.sinks[k].detaching.Some? {
      D.FinishShape(s, s.sinks[k].detaching.value);
    }
  }

  lemma FlowInitCall(s: D.State, f: D.FlowId, b: D.BufferId)
    requires D.Inv(s)
    ensures D.Enabled(s, D.FlowInit(f, b)) <==> f !in Of(s).desired && b !in s.buffers
    ensures D.Enabled(s, D.FlowInit(f, b)) ==> Of(D.Step(s, D.FlowInit(f, b))) == AddFlow(Of(s), f)
  {
    hide D.Inv;
    if D.Enabled(s, D.FlowInit(f, b)) {
      assert D.Step(s, D.FlowInit(f, b)).flows == s.flows[f := D.Flow(None, b)];
      assert D.Step(s, D.FlowInit(f, b)).sinks == s.sinks;
    }
  }

  /** A flow's buffer and the sink it is attached to exist. */
  lemma FlowSink(s: D.State, f: D.FlowId)
    requires D.Inv(s) && f in s.flows
    ensures s.flows[f].buffer in s.buffers
    ensures var k := s.buffers[s.flows[f].buffer].sink;
      (k.Some? ==> k.value in s.sinks) && (s.flows[f].desired.Some? ==> k.Some?)
  {
  }

  lemma FlowFreeCall(s: D.State, f: D.FlowId)
    requires D.Inv(s)
    ensures D.Enabled(s, D.FlowFree(f)) <==> f in Of(s).desired && Of(s).desired[f].None?
    ensures D.Enabled(s, D.FlowFree(f)) ==> Of(D.Step(s, D.FlowFree(f))) == RemoveFlow(Of(s), f)
  {
    hide D.Inv;
    if D.Enabled(s, D.FlowFree(f)) {
      FlowSink(s, f);
      var t := D.Move(s, D.FlowFree(f));
      assert t.flows == s.flows - {f};
      assert t.sinks.Keys == s.sinks.Keys;
    }
  }

  lemma AttachCall(s: D.State, f: D.FlowId, k: D.SinkId)
    requires D.Inv(s)
    ensures D.Enabled(s, D.Attach(f, k)) <==> f in Of(s).desired && Of(s).desired[f].None? && k in Of(s).sinks
    ensures D.Enabled(s, D.Attach(f, k)) ==> Of(D.Step(s, D.Attach(f, k))) == Attach(Of(s), f, k)
  {
    hide D.Inv;
    if D.Enabled(s, D.Attach(f, k)) {
      FlowSink(s, f);
      var t := D.Move(s, D.Attach(f, k));
      assert t.flows == s.flows[f := s.flows[f].(desired := Some(k))];
      assert t.sinks.Keys == s.sinks.Keys;
      assert Of(t).desired == Of(s).desired[f := Some(k)];
    }
  }

  lemma DetachCall(s: D.State, f: D.FlowId)
    requires D.Inv(s)
    ensures D.Enabled(s, D.Detach(f)) <==> f in Of(s).desired && Of(s).desired[f].Some?
    ensures D.Enabled(s, D.Detach(f)) ==> Of(D.Step(s, D.Detach(f))) == Detach(Of(s), f)
  {
    hide D.Inv;
    if D.Enabled(s, D.Detach(f)) {
      FlowSink(s, f);
      var t := D.Move(s, D.Detach(f));
      assert t.flows == s.flows[f := s.flows[f].(desired := None)];
      assert t.sinks.Keys == s.sinks.Keys;
      assert Of(t).desired == Of(s).desired[f := None];
    }
  }

  /** The queues' own events are invisible to the callers. */
  lemma QueueCalls(s: D.State, e: D.Event)
    requires D.Inv(s) && D.Enabled(s, e) && D.QueueEvent(e)
    ensures Of(D.Step(s, e)) == Of(s)
  {
    if e.QueueDone? {
      D.DoneKeepsWishes(s, e.k);
    }
  }
}
