/**
The data protocol's calls as its callers see them: obligations and effects stated on the wishes alone.
*/
module DataProtoCalls {
  import D = DataProto
  import W = DataProtoWishes
  import opened DataProtoObject

  ghost function Wishes(dp: DataProto): W.Wishes
    reads dp
  {
    W.Of(dp.State())
  }

  method InitSink(dp: DataProto, k: D.SinkId)
    requires dp.Valid() && k !in Wishes(dp).sinks
    modifies dp
    ensures dp.Valid() && Wishes(dp) == W.AddSink(old(Wishes(dp)), k)
    ensures dp.buffers == old(dp.buffers)
  {
    W.SinkCalls(dp.State(), k);
    dp.SinkInit(k);
  }

  method FreeSink(dp: DataProto, k: D.SinkId)
    requires dp.Valid() && k in Wishes(dp).sinks && W.Undesired(Wishes(dp), k)
    modifies dp
    ensures dp.Valid() && Wishes(dp) == W.RemoveSink(old(Wishes(dp)), k)
  {
    W.SinkCalls(dp.State(), k);
    dp.SinkFree(k);
  }

  method InitFlow(dp: DataProto, f: D.FlowId, b: D.BufferId)
    requires dp.Valid() && f !in Wishes(dp).desired && b !in dp.buffers
    modifies dp
    ensures dp.Valid() && Wishes(dp) == W.AddFlow(old(Wishes(dp)), f)
  {
    W.FlowInitCall(dp.State(), f, b);
    dp.FlowInit(f, b);
  }

  method FreeFlow(dp: DataProto, f: D.FlowId)
    requires dp.Valid() && f in Wishes(dp).desired && Wishes(dp).desired[f].None?
    modifies dp
    ensures dp.Valid() && Wishes(dp) == W.RemoveFlow(old(Wishes(dp)), f)
  {
    W.FlowFreeCall(dp.State(), f);
    dp.FlowFree(f);
  }

  method Attach(dp: DataProto, f: D.FlowId, k: D.SinkId)
    requires dp.Valid() && f in Wishes(dp).desired && Wishes(dp).desired[f].None? && k in Wishes(dp).sinks
    modifies dp
    ensures dp.Valid() && Wishes(dp) == W.Attach(old(Wishes(dp)), f, k)
  {
    W.AttachCall(dp.State(), f, k);
    dp.FlowAttach(f, k);
  }

  method Detach(dp: DataProto, f: D.FlowId)
    requires dp.Valid() && f in Wishes(dp).desired && Wishes(dp).desired[f].Some?
    modifies dp
    ensures dp.Valid() && Wishes(dp) == W.Detach(old(Wishes(dp)), f)
  {
    W.DetachCall(dp.State(), f);
    dp.FlowDetach(f);
  }
}
