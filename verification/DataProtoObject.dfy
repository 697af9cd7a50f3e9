/**
The data protocol as the source runs it: each call changes sinks, flows and buffers in place, in the source's order.
*/
module DataProtoObject {
  import opened Wrappers
  import D = DataProto

  class DataProto {
    var sinks: map<D.SinkId, D.Sink>
    var flows: map<D.FlowId, D.Flow>
    var buffers: map<D.BufferId, D.Buffer>

    ghost function State(): D.State
      reads this
    {
      D.State(sinks, flows, buffers)
    }

    ghost predicate Valid()
      reads this
    {
      D.Inv(State())
    }

    constructor ()
      ensures Valid() && sinks == map[] && flows == map[] && buffers == map[]
    {
      sinks, flows, buffers := map[], map[], map[];
    }

    method BufferAttach(b: D.BufferId, k: D.SinkId)
      requires b in buffers && buffers[b].sink.None?
      modifies this`buffers
      ensures State() == D.AttachBuffer(old(State()), b, k)
    {
      buffers := buffers[b := buffers[b].(sink := Some(k))];
    }

    method BufferDetach(b: D.BufferId)
      requires b in buffers && buffers[b].sink.Some? && buffers[b].sink.value in sinks
      modifies this`buffers, this`sinks
      ensures State() == D.DetachBuffer(old(State()), b)
    {
      var k := buffers[b].sink.value;
      if sinks[k].busy == D.Sending(b) {
        sinks := sinks[k := sinks[k].(busy := D.Idle)];
      }
      if sinks[k].detaching == Some(b) {
        sinks := sinks[k := sinks[k].(detaching := None)];
      }
      buffers := buffers[b := buffers[b].(sink := None)];
      assert sinks == D.DetachBuffer(old(State()), b).sinks;
    }

    method BufferScheduleDetach(b: D.BufferId)
      requires b in buffers && buffers[b].sink.Some? && buffers[b].sink.value in sinks
      requires var x := sinks[buffers[b].sink.value];
        x.busy == D.Sending(b) && (x.detaching.None? || x.detaching == Some(b))
      modifies this`sinks
      ensures State() == D.ScheduleDetach(old(State()), b)
    {
      var k := buffers[b].sink.value;
      if sinks[k].detaching == Some(b) {
        assert sinks == sinks[k := sinks[k].(detaching := Some(b))];
        return;
      }
      sinks := sinks[k := sinks[k].(detaching := Some(b))];
    }

    method BufferFinishDetach(b: D.BufferId)
      requires b in buffers && buffers[b].sink.Some? && buffers[b].sink.value in sinks
      requires sinks[buffers[b].sink.value].detaching == Some(b)
      requires buffers[b].flow.Some? ==> buffers[b].flow.value in flows
      modifies this`buffers, this`sinks
      ensures State() == D.FinishDetach(old(State()), b)
    {
      BufferDetach(b);
      if buffers[b].flow.None? {
        buffers := buffers - {b};
      } else if flows[buffers[b].flow.value].desired.Some? {
        BufferAttach(b, flows[buffers[b].flow.value].desired.value);
      }
    }

    method SinkInit(k: D.SinkId)
      requires Valid() && D.Enabled(State(), D.SinkInit(k))
      modifies this
      ensures Valid() && State() == D.Step(old(State()), D.SinkInit(k))
    {
      sinks := sinks[k := D.Sink(D.Idle, None)];
    }

    method SinkFree(k: D.SinkId)
      requires Valid() && D.Enabled(State(), D.SinkFree(k))
      modifies this
      ensures Valid() && State() == D.Step(old(State()), D.SinkFree(k))
      ensures forall b :: b in buffers ==> buffers[b].sink != Some(k)
    {
      D.SinkFreeKeeps(State(), k);
      if sinks[k].detaching.Some? {
        BufferFinishDetach(sinks[k].detaching.value);
      }
      sinks := sinks - {k};
    }

    method FlowInit(f: D.FlowId, b: D.BufferId)
      requires Valid() && D.Enabled(State(), D.FlowInit(f, b))
      modifies this
      ensures Valid() && State() == D.Step(old(State()), D.FlowInit(f, b))
    {
      ghost var was := State();
      flows := flows[f := D.Flow(None, b)];
      buffers := buffers[b := D.Buffer(Some(f), None)];
      assert State() == D.Step(was, D.FlowInit(f, b));
    }

    method FlowFree(f: D.FlowId)
      requires Valid() && D.Enabled(State(), D.FlowFree(f))
      modifies this
      ensures Valid() && State() == D.Step(old(State()), D.FlowFree(f))
    {
      ghost var was := State();
      var b := flows[f].buffer;
      if buffers[b].sink.Some? {
        if sinks[buffers[b].sink.value].busy == D.Sending(b) {
          BufferScheduleDetach(b);
          buffers := buffers[b := buffers[b].(flow := None)];
        } else {
          BufferDetach(b);
          buffers := buffers - {b};
        }
      } else {
        buffers := buffers - {b};
      }
      flows := flows - {f};
      assert State() == D.Step(was, D.FlowFree(f));
    }

    method FlowAttach(f: D.FlowId, k: D.SinkId)
      requires Valid() && D.Enabled(State(), D.Attach(f, k))
      modifies this
      ensures Valid() && State() == D.Step(old(State()), D.Attach(f, k))
    {
      ghost var was := State();
      var b := flows[f].buffer;
      if buffers[b].sink.Some? {
        assert sinks[buffers[b].sink.value].busy == D.Sending(b);
        BufferScheduleDetach(b);
      } else {
        BufferAttach(b, k);
      }
      flows := flows[f := flows[f].(desired := Some(k))];
      assert State() == D.Step(was, D.Attach(f, k));
    }

    method FlowDetach(f: D.FlowId)
      requires Valid() && D.Enabled(State(), D.Detach(f))
      modifies this
      ensures Valid() && State() == D.Step(old(State()), D.Detach(f))
    {
      ghost var was := State();
      var b := flows[f].buffer;
      assert buffers[b].sink.Some?;
      if sinks[buffers[b].sink.value].busy == D.Sending(b) {
        BufferScheduleDetach(b);
      } else {
        BufferDetach(b);
      }
      flows := flows[f := flows[f].(desired := None)];
      assert State() == D.Step(was, D.Detach(f));
    }

    method QueueSends(k: D.SinkId, busy: D.Busy)
      requires Valid() && D.Enabled(State(), D.QueueSends(k, busy))
      modifies this
      ensures Valid() && State() == D.Step(old(State()), D.QueueSends(k, busy))
    {
      sinks := sinks[k := sinks[k].(busy := busy)];
    }

    /** The queue has finished its packet; a detaching buffer's one-shot busy handler runs. */
    method QueueDone(k: D.SinkId)
      requires Valid() && D.Enabled(State(), D.QueueDone(k))
      modifies this
      ensures Valid() && State() == D.Step(old(State()), D.QueueDone(k))
    {
      ghost var was := State();
      sinks := sinks[k := sinks[k].(busy := D.Idle)];
      assert State() == D.SetSink(was, k, was.sinks[k].(busy := D.Idle));
      if sinks[k].detaching.Some? {
        BufferFinishDetach(sinks[k].detaching.value);
      }
      assert State() == D.Step(was, D.QueueDone(k));
    }
  }
}
