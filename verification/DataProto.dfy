/** Flows and sinks of the data protocol, with deferred detachment of a buffer whose packet is being sent. */
module DataProto {
  // A flow's buffer is attached to the queue of a sink.  While the queue is sending the buffer's packet it cannot be
  // detached; the detachment is then deferred until the queue is done with it.

  import opened Wrappers

  type SinkId = nat
  type BufferId = nat

  /** A peer's flow for the frames of this machine, or a flow for frames relayed between two other peers. */
  datatype FlowId = Local(peer: nat) | Relayed(no: nat)

  /** What the sink's fair queue is sending: nothing, the keep-alive flow's packet or a buffer's. */
  datatype Busy = Idle | KeepAlive | Sending(b: BufferId)

  datatype Sink = Sink(busy: Busy, detaching: Option<BufferId>)

  datatype Flow = Flow(desired: Option<SinkId>, buffer: BufferId)

  /** A buffer outlives its flow (which is then None) only while it waits to be detached. */
  datatype Buffer = Buffer(flow: Option<FlowId>, sink: Option<SinkId>)

  datatype State = State(sinks: map<SinkId, Sink>, flows: map<FlowId, Flow>, buffers: map<BufferId, Buffer>)

  // ----- what is always true -----

  /** The sink the buffer ought to be attached to. */
  function Wanted(s: State, b: BufferId): Option<SinkId>
    requires b in s.buffers
  {
    var f := s.buffers[b].flow;
    if f.Some? && f.value in s.flows then s.flows[f.value].desired else None
  }

  /** The buffer is waiting to be detached from its sink, whose queue is busy with it. */
  predicate Detaching(s: State, b: BufferId) {
    && b in s.buffers && s.buffers[b].sink.Some? && s.buffers[b].sink.value in s.sinks
    && s.sinks[s.buffers[b].sink.value] == Sink(Sending(b), Some(b))
  }

  ghost predicate FlowsOk(s: State) {
    forall f :: f in s.flows ==>
      && s.flows[f].buffer in s.buffers && s.buffers[s.flows[f].buffer].flow == Some(f)
      && (s.flows[f].desired.Some? ==> s.flows[f].desired.value in s.sinks)
  }

  ghost predicate BuffersOk(s: State) {
    forall b :: b in s.buffers ==>
      && (s.buffers[b].flow.Some? ==>
            s.buffers[b].flow.value in s.flows && s.flows[s.buffers[b].flow.value].buffer == b)
      && (s.buffers[b].sink.Some? ==> s.buffers[b].sink.value in s.sinks)
      && (s.buffers[b].flow.None? ==> Detaching(s, b))
      && (s.buffers[b].sink == Wanted(s, b) || Detaching(s, b))
  }

  ghost predicate SinksOk(s: State) {
    forall k :: k in s.sinks ==>
      && (s.sinks[k].busy.Sending? ==>
            s.sinks[k].busy.b in s.buffers && s.buffers[s.sinks[k].busy.b].sink == Some(k))
      && (s.sinks[k].detaching.Some? ==> s.sinks[k].busy == Sending(s.sinks[k].detaching.value))
  }

  ghost predicate Inv(s: State) {
    FlowsOk(s) && BuffersOk(s) && SinksOk(s)
  }

  // ----- the buffer operations -----

  function SetBuffer(s: State, b: BufferId, x: Buffer): State {
    s.(buffers := s.buffers[b := x])
  }

  function SetSink(s: State, k: SinkId, x: Sink): State {
    s.(sinks := s.sinks[k := x])
  }

  function AttachBuffer(s: State, b: BufferId, k: SinkId): State
    requires b in s.buffers
  {
    SetBuffer(s, b, s.buffers[b].(sink := Some(k)))
  }

  /** Freeing the queue flow also forgets that it was being sent, which happens only when the whole queue is freed. */
  function DetachBuffer(s: State, b: BufferId): State
    requires b in s.buffers && s.buffers[b].sink.Some? && s.buffers[b].sink.value in s.sinks
  {
    var k := s.buffers[b].sink.value;
    var x := s.sinks[k];
    SetBuffer(SetSink(s, k, Sink(if x.busy == Sending(b) then Idle else x.busy,
                                 if x.detaching == Some(b) then None else x.detaching)),
              b, s.buffers[b].(sink := None))
  }

  function ScheduleDetach(s: State, b: BufferId): State
    requires b in s.buffers && s.buffers[b].sink.Some? && s.buffers[b].sink.value in s.sinks
  {
    var k := s.buffers[b].sink.value;
    SetSink(s, k, s.sinks[k].(detaching := Some(b)))
  }

  function FreeBuffer(s: State, b: BufferId): State {
    s.(buffers := s.buffers - {b})
  }

  function FinishDetach(s: State, b: BufferId): State
    requires b in s.buffers && s.buffers[b].sink.Some? && s.buffers[b].sink.value in s.sinks
  {
    var t := DetachBuffer(s, b);
    if s.buffers[b].flow.None? then FreeBuffer(t, b)
    else if Wanted(s, b).Some? then AttachBuffer(t, b, Wanted(s, b).value)
    else t
  }

  predicate IsBusy(s: State, b: BufferId)
    requires b in s.buffers
  {
    var k := s.buffers[b].sink;
    k.Some? && k.value in s.sinks && s.sinks[k.value].busy == Sending(b)
  }

  // ----- the events -----

  datatype Event =
    | SinkInit(k: SinkId)
    | SinkFree(k: SinkId)
    | FlowInit(f: FlowId, b: BufferId)
    | FlowFree(f: FlowId)
    | Attach(f: FlowId, k: SinkId)
    | Detach(f: FlowId)
    | QueueSends(k: SinkId, busy: Busy)
    | QueueDone(k: SinkId)

  /** What the callers owe: sinks are freed only when no flow desires them, flows only when they desire none. */
  ghost predicate Enabled(s: State, e: Event) {
    match e
    case SinkInit(k) => k !in s.sinks
    case SinkFree(k) => k in s.sinks && forall f :: f in s.flows ==> s.flows[f].desired != Some(k)
    case FlowInit(f, b) => f !in s.flows && b !in s.buffers
    case FlowFree(f) => f in s.flows && s.flows[f].desired.None?
    case Attach(f, k) => f in s.flows && s.flows[f].desired.None? && k in s.sinks
    case Detach(f) => f in s.flows && s.flows[f].desired.Some?
    case QueueSends(k, busy) =>
      && k in s.sinks && s.sinks[k].busy.Idle? && !busy.Idle?
      && (busy.Sending? ==> busy.b in s.buffers && s.buffers[busy.b].sink == Some(k))
    case QueueDone(k) => k in s.sinks && !s.sinks[k].busy.Idle?
  }

  function Move(s: State, e: Event): State
    requires Inv(s) && Enabled(s, e)
  {
    match e
    case SinkInit(k) => SetSink(s, k, Sink(Idle, None))
    case SinkFree(k) =>
      var t := if s.sinks[k].detaching.Some? then FinishDetach(s, s.sinks[k].detaching.value) else s;
      t.(sinks := t.sinks - {k})
    case FlowInit(f, b) => s.(flows := s.flows[f := Flow(None, b)], buffers := s.buffers[b := Buffer(Some(f), None)])
    case FlowFree(f) =>
      var b := s.flows[f].buffer;
      var t := s.(flows := s.flows - {f});
      if s.buffers[b].sink.None? then FreeBuffer(t, b)
      else if IsBusy(s, b) then SetBuffer(ScheduleDetach(t, b), b, s.buffers[b].(flow := None))
      else FreeBuffer(DetachBuffer(t, b), b)
    case Attach(f, k) =>
      var b := s.flows[f].buffer;
      var t := s.(flows := s.flows[f := s.flows[f].(desired := Some(k))]);
      if s.buffers[b].sink.None? then AttachBuffer(t, b, k)
      else if IsBusy(s, b) then ScheduleDetach(t, b)
      else AttachBuffer(DetachBuffer(t, b), b, k)
    case Detach(f) =>
      var b := s.flows[f].buffer;
      var t := s.(flows := s.flows[f := s.flows[f].(desired := None)]);
      if IsBusy(s, b) then ScheduleDetach(t, b) else DetachBuffer(t, b)
    case QueueSends(k, busy) => SetSink(s, k, s.sinks[k].(busy := busy))
    case QueueDone(k) =>
      var t := SetSink(s, k, s.sinks[k].(busy := Idle));
      if s.sinks[k].detaching.Some? then FinishDetach(t, s.sinks[k].detaching.value) else t
  }

  /** One call or callback, as a function that keeps the invariant. */
  function Step(s: State, e: Event): (t: State)
    requires Inv(s) && Enabled(s, e)
    ensures Inv(t)
  {
    MoveKeepsInv(s, e);
    Move(s, e)
  }

  lemma MoveKeepsInv(s: State, e: Event)
    requires Inv(s) && Enabled(s, e)
    ensures Inv(Move(s, e))
  {
    match e
    case SinkInit(k) => SinkInitKeeps(s, k);
    case SinkFree(k) => SinkFreeKeeps(s, k);
    case FlowInit(f, b) => FlowInitKeeps(s, f, b);
    case FlowFree(f) => FlowFreeKeeps(s, f);
    case Attach(f, k) => AttachKeeps(s, f, k);
    case Detach(f) => DetachKeeps(s, f);
    case QueueSends(k, busy) => QueueSendsKeeps(s, k, busy);
    case QueueDone(k) => QueueDoneKeeps(s, k);
  }

  lemma SinkInitKeeps(s: State, k: SinkId)
    requires Inv(s) && Enabled(s, SinkInit(k))
    ensures Inv(Move(s, SinkInit(k)))
  {
  }

  function WithFlow(s: State, f: FlowId, b: BufferId): State {
    s.(flows := s.flows[f := Flow(None, b)], buffers := s.buffers[b := Buffer(Some(f), None)])
  }

  lemma FlowInitFlows(s: State, f: FlowId, b: BufferId)
    requires FlowsOk(s) && SinksOk(s) && f !in s.flows && b !in s.buffers
    ensures FlowsOk(WithFlow(s, f, b)) && SinksOk(WithFlow(s, f, b))
  {
  }

  lemma FlowInitBuffers(s: State, f: FlowId, b: BufferId)
    requires BuffersOk(s) && f !in s.flows && b !in s.buffers
    ensures BuffersOk(WithFlow(s, f, b))
  {
    var t := WithFlow(s, f, b);
    forall c | c in s.buffers
      ensures Wanted(t, c) == Wanted(s, c) && (Detaching(s, c) ==> Detaching(t, c))
    {
    }
  }

  lemma FlowInitKeeps(s: State, f: FlowId, b: BufferId)
    requires Inv(s) && Enabled(s, FlowInit(f, b))
    ensures Inv(Move(s, FlowInit(f, b)))
  {
    hide FlowsOk, SinksOk, BuffersOk;
    FlowInitFlows(s, f, b);
    FlowInitBuffers(s, f, b);
  }

  /** A flow that desires nothing is at no sink, or its buffer is waiting to be detached. */
  lemma Undesiring(s: State, f: FlowId)
    requires Inv(s) && f in s.flows && s.flows[f].desired.None?
    ensures var b := s.flows[f].buffer;
      b in s.buffers && s.buffers[b].flow == Some(f) && (s.buffers[b].sink.None? || Detaching(s, b))
  {
    hide SinksOk;
  }

  lemma FreeUnattached(s: State, f: FlowId)
    requires Inv(s) && f in s.flows && s.flows[f].buffer in s.buffers && s.buffers[s.flows[f].buffer].sink.None?
    ensures Inv(FreeBuffer(s.(flows := s.flows - {f}), s.flows[f].buffer))
  {
    var b := s.flows[f].buffer;
    var t := FreeBuffer(s.(flows := s.flows - {f}), b);
    assert FlowsOk(t) && SinksOk(t);
    forall c | c in t.buffers
      ensures Wanted(t, c) == Wanted(s, c) && (Detaching(s, c) ==> Detaching(t, c))
    {
    }
  }

  lemma FreeDetaching(s: State, f: FlowId)
    requires Inv(s) && f in s.flows && s.flows[f].desired.None? && Detaching(s, s.flows[f].buffer)
    ensures var b := s.flows[f].buffer; Inv(SetBuffer(s.(flows := s.flows - {f}), b, s.buffers[b].(flow := None)))
  {
    var b := s.flows[f].buffer;
    var t := SetBuffer(s.(flows := s.flows - {f}), b, s.buffers[b].(flow := None));
    assert FlowsOk(t) && SinksOk(t);
    forall c | c in t.buffers
      ensures (c != b ==> Wanted(t, c) == Wanted(s, c)) && (Detaching(s, c) ==> Detaching(t, c))
    {
    }
  }

  lemma FlowFreeKeeps(s: State, f: FlowId)
    requires Inv(s) && Enabled(s, FlowFree(f))
    ensures Inv(Move(s, FlowFree(f)))
  {
    hide FlowsOk, SinksOk, BuffersOk;
    var b := s.flows[f].buffer;
    Undesiring(s, f);
    if s.buffers[b].sink.None? {
      FreeUnattached(s, f);
    } else {
      FreeDetaching(s, f);
      var t := s.(flows := s.flows - {f});
      assert ScheduleDetach(t, b) == t;
    }
  }

  /** Inv, except that buffer `x` need not agree with its flow. */
  ghost predicate LooseInv(s: State, x: BufferId) {
    && FlowsOk(s) && SinksOk(s)
    && forall b :: b in s.buffers ==>
      && (s.buffers[b].flow.Some? ==>
            s.buffers[b].flow.value in s.flows && s.flows[s.buffers[b].flow.value].buffer == b)
      && (s.buffers[b].sink.Some? ==> s.buffers[b].sink.value in s.sinks)
      && (b != x ==> (s.buffers[b].flow.None? ==> Detaching(s, b)) && (s.buffers[b].sink == Wanted(s, b) || Detaching(s, b)))
  }

  lemma DetachBufferKeeps(s: State, b: BufferId)
    requires LooseInv(s, b) && b in s.buffers && s.buffers[b].sink.Some?
    ensures LooseInv(DetachBuffer(s, b), b)
  {
    var t := DetachBuffer(s, b);
    assert SinksOk(t);
    assert FlowsOk(t);
    forall c | c in t.buffers && c != b
      ensures Detaching(s, c) ==> Detaching(t, c)
    {
    }
  }

  lemma SetDesiredKeeps(s: State, f: FlowId, k: Option<SinkId>)
    requires Inv(s) && f in s.flows && (k.Some? ==> k.value in s.sinks)
    ensures var t := s.(flows := s.flows[f := s.flows[f].(desired := k)]);
      LooseInv(t, s.flows[f].buffer) && Wanted(t, s.flows[f].buffer) == k
  {
    var t := s.(flows := s.flows[f := s.flows[f].(desired := k)]);
    var b := s.flows[f].buffer;
    forall c | c in t.buffers && c != b
      ensures Wanted(t, c) == Wanted(s, c) && (Detaching(s, c) ==> Detaching(t, c))
    {
    }
  }

  /** A buffer alone among the agreeing ones is brought into agreement. */
  lemma Agreed(s: State, b: BufferId)
    requires LooseInv(s, b) && b in s.buffers && s.buffers[b].flow.Some? && (s.buffers[b].sink == Wanted(s, b) || Detaching(s, b))
    ensures Inv(s)
  {
    hide FlowsOk, SinksOk;
  }

  lemma AttachBufferKeeps(s: State, b: BufferId, k: SinkId)
    requires LooseInv(s, b) && b in s.buffers && s.buffers[b].sink.None? && k in s.sinks
    ensures LooseInv(AttachBuffer(s, b, k), b)
  {
    var t := AttachBuffer(s, b, k);
    assert SinksOk(t);
    assert FlowsOk(t);
    forall c | c in t.buffers && c != b
      ensures Wanted(t, c) == Wanted(s, c) && (Detaching(s, c) ==> Detaching(t, c))
    {
    }
  }

  lemma AttachKeeps(s: State, f: FlowId, k: SinkId)
    requires Inv(s) && Enabled(s, Attach(f, k))
    ensures Inv(Move(s, Attach(f, k)))
  {
    var b := s.flows[f].buffer;
    AttachBranchDead(s, f, k);
    SetDesiredKeeps(s, f, Some(k));
    var t := s.(flows := s.flows[f := s.flows[f].(desired := Some(k))]);
    hide FlowsOk, SinksOk, BuffersOk, LooseInv;
    if s.buffers[b].sink.None? {
      AttachBufferKeeps(t, b, k);
      Agreed(AttachBuffer(t, b, k), b);
    } else {
      assert ScheduleDetach(t, b) == t;
      Agreed(t, b);
    }
  }

  lemma ScheduleKeeps(s: State, b: BufferId)
    requires LooseInv(s, b) && b in s.buffers && IsBusy(s, b)
    ensures LooseInv(ScheduleDetach(s, b), b) && Detaching(ScheduleDetach(s, b), b)
  {
    var t := ScheduleDetach(s, b);
    assert FlowsOk(t) && SinksOk(t);
    forall c | c in t.buffers && c != b
      ensures Wanted(t, c) == Wanted(s, c) && (Detaching(s, c) ==> Detaching(t, c))
    {
    }
  }

  lemma Desiring(s: State, f: FlowId)
    requires Inv(s) && f in s.flows && s.flows[f].desired.Some?
    ensures var b := s.flows[f].buffer;
      b in s.buffers && s.buffers[b].flow == Some(f) && s.buffers[b].sink.Some? && s.buffers[b].sink.value in s.sinks
  {
    hide SinksOk;
  }

  lemma DetachKeeps(s: State, f: FlowId)
    requires Inv(s) && Enabled(s, Detach(f))
    ensures Inv(Move(s, Detach(f)))
  {
    hide FlowsOk, SinksOk, BuffersOk, LooseInv;
    var b := s.flows[f].buffer;
    var t := s.(flows := s.flows[f := s.flows[f].(desired := None)]);
    Desiring(s, f);
    SetDesiredKeeps(s, f, None);
    if IsBusy(s, b) {
      ScheduleKeeps(t, b);
      Agreed(ScheduleDetach(t, b), b);
    } else {
      DetachBufferKeeps(t, b);
      Agreed(DetachBuffer(t, b), b);
    }
  }

  lemma QueueSendsKeeps(s: State, k: SinkId, busy: Busy)
    requires Inv(s) && Enabled(s, QueueSends(k, busy))
    ensures Inv(Move(s, QueueSends(k, busy)))
  {
  }

  /** What finishing a deferred detachment does, whether or not the queue has already been marked idle. */
  lemma FinishShape(s: State, b: BufferId)
    requires Detaching(s, b)
    ensures var k := s.buffers[b].sink.value;
      var t := FinishDetach(s, b);
      && t.flows == s.flows && t.sinks == s.sinks[k := Sink(Idle, None)]
      && t.buffers == (if s.buffers[b].flow.None? then s.buffers - {b}
                       else s.buffers[b := Buffer(s.buffers[b].flow, Wanted(s, b))])
      && FinishDetach(SetSink(s, k, s.sinks[k].(busy := Idle)), b) == t
  {
  }

  /** What FinishShape says is left. */
  function Finished(s: State, b: BufferId): State
    requires Detaching(s, b)
  {
    State(s.sinks[s.buffers[b].sink.value := Sink(Idle, None)], s.flows,
          if s.buffers[b].flow.None? then s.buffers - {b} else s.buffers[b := Buffer(s.buffers[b].flow, Wanted(s, b))])
  }

  lemma FinishedBuffer(s: State, b: BufferId, c: BufferId)
    requires Detaching(s, b) && c in s.buffers && c != b
    ensures c in Finished(s, b).buffers && Finished(s, b).buffers[c] == s.buffers[c]
    ensures Wanted(Finished(s, b), c) == Wanted(s, c) && (Detaching(s, c) ==> Detaching(Finished(s, b), c))
  {
  }

  lemma FinishedFlowsSinks(s: State, b: BufferId)
    requires FlowsOk(s) && SinksOk(s) && BuffersOk(s) && Detaching(s, b)
    ensures FlowsOk(Finished(s, b)) && SinksOk(Finished(s, b)) && !Detaching(Finished(s, b), b)
  {
    hide BuffersOk;
    BufferFlow(s, b);
  }

  lemma BufferFlow(s: State, b: BufferId)
    requires BuffersOk(s) && b in s.buffers
    ensures s.buffers[b].flow.Some? ==> s.buffers[b].flow.value in s.flows && s.flows[s.buffers[b].flow.value].buffer == b
  {
  }

  lemma FinishedBuffers(s: State, b: BufferId)
    requires FlowsOk(s) && BuffersOk(s) && Detaching(s, b)
    ensures BuffersOk(Finished(s, b))
  {
    var t := Finished(s, b);
    BufferFlow(s, b);
    forall c | c in t.buffers && c != b
      ensures Wanted(t, c) == Wanted(s, c) && (Detaching(s, c) ==> Detaching(t, c))
    {
      FinishedBuffer(s, b, c);
    }
  }

  /** Finishing a deferred detachment brings the buffer to where its flow wants it, or frees it if it has none. */
  lemma FinishRestores(s: State, b: BufferId)
    requires Inv(s) && Detaching(s, b)
    ensures var t := FinishDetach(s, b);
      Inv(t) && (b in t.buffers ==> t.buffers[b].sink == Wanted(t, b) == Wanted(s, b) && !Detaching(t, b))
  {
    hide FlowsOk, SinksOk, BuffersOk;
    FinishShape(s, b);
    assert FinishDetach(s, b) == Finished(s, b);
    FinishedFlowsSinks(s, b);
    FinishedBuffers(s, b);
  }

  lemma QueueDoneKeeps(s: State, k: SinkId)
    requires Inv(s) && Enabled(s, QueueDone(k))
    ensures Inv(Move(s, QueueDone(k)))
  {
    if s.sinks[k].detaching.Some? {
      var b := s.sinks[k].detaching.value;
      FinishShape(s, b);
      FinishRestores(s, b);
    }
  }

  /** A sink that nobody desires and that is not detaching has no buffer. */
  lemma SinkEmpty(s: State, k: SinkId, b: BufferId)
    requires Inv(s) && Enabled(s, SinkFree(k)) && s.sinks[k].detaching.None? && b in s.buffers
    ensures s.buffers[b].sink != Some(k) && (s.sinks[k].busy.Sending? ==> s.sinks[k].busy.b != b)
  {
  }

  lemma SinkGone(s: State, k: SinkId)
    requires Inv(s) && Enabled(s, SinkFree(k)) && s.sinks[k].detaching.None?
    requires forall b :: b in s.buffers ==> s.buffers[b].sink != Some(k)
    ensures Inv(s.(sinks := s.sinks - {k}))
  {
    var t := s.(sinks := s.sinks - {k});
    forall c | c in s.buffers
      ensures Wanted(t, c) == Wanted(s, c) && (Detaching(s, c) ==> Detaching(t, c))
    {
    }
  }

  lemma SinkFreeKeeps(s: State, k: SinkId)
    requires Inv(s) && Enabled(s, SinkFree(k))
    ensures Inv(Move(s, SinkFree(k)))
    ensures forall b :: b in Move(s, SinkFree(k)).buffers ==> Move(s, SinkFree(k)).buffers[b].sink != Some(k)
  {
    var t := s;
    if s.sinks[k].detaching.Some? {
      DetachingHolds(s, k);
      FinishShape(s, s.sinks[k].detaching.value);
      FinishRestores(s, s.sinks[k].detaching.value);
      t := FinishDetach(s, s.sinks[k].detaching.value);
    }
    hide Inv, FinishDetach;
    forall b | b in t.buffers
      ensures t.buffers[b].sink != Some(k)
    {
      SinkEmpty(t, k, b);
    }
    SinkGone(t, k);
  }

  lemma DetachingHolds(s: State, k: SinkId)
    requires Inv(s) && k in s.sinks && s.sinks[k].detaching.Some?
    ensures Detaching(s, s.sinks[k].detaching.value) && s.buffers[s.sinks[k].detaching.value].sink == Some(k)
  {
  }

  // ----- what follows -----

  /** The asserts of the scheduling of a detachment hold wherever it is called. */
  lemma ScheduleAsserts(s: State, b: BufferId)
    requires Inv(s) && b in s.buffers && IsBusy(s, b)
    ensures var x := s.sinks[s.buffers[b].sink.value];
      x.detaching.None? || x.detaching == Some(b)
  {
  }

  /** Attaching never meets an attached buffer that is not busy: that branch of the source cannot be taken. */
  lemma AttachBranchDead(s: State, f: FlowId, k: SinkId)
    requires Inv(s) && Enabled(s, Attach(f, k))
    ensures var b := s.flows[f].buffer;
      s.buffers[b].sink.Some? ==> Detaching(s, b)
  {
  }

  /** At most one buffer waits to be detached from a sink, and buffers that do not wait agree with their flows. */
  lemma OneDetaching(s: State, b: BufferId, c: BufferId)
    requires Inv(s) && Detaching(s, b) && c in s.buffers && c != b && s.buffers[c].sink == s.buffers[b].sink
    ensures !Detaching(s, c) && s.buffers[c].sink == Wanted(s, c)
  {
  }

  ghost predicate Legal(s: State, es: seq<Event>)
    requires Inv(s)
    decreases |es|
  {
    es == [] || (Enabled(s, es[0]) && Legal(Step(s, es[0]), es[1..]))
  }

  function Run(s: State, es: seq<Event>): (t: State)
    requires Inv(s) && Legal(s, es)
    ensures Inv(t)
    decreases |es|
  {
    if es == [] then s else Run(Step(s, es[0]), es[1..])
  }

  /** The sink's own queue starts or ends a packet, or the sink goes. */
  predicate OfSink(e: Event, k: SinkId) {
    (e.SinkFree? && e.k == k) || (e.QueueSends? && e.k == k) || (e.QueueDone? && e.k == k)
  }

  /** The sink is busy with `x`; a buffer it is busy with is attached to it. */
  predicate BusyWith(s: State, k: SinkId, x: Busy) {
    k in s.sinks && s.sinks[k].busy == x && (x.Sending? ==> x.b in s.buffers && s.buffers[x.b].sink == Some(k))
  }

  lemma BusyKept(s: State, e: Event, k: SinkId, x: Busy)
    requires Inv(s) && Enabled(s, e) && !OfSink(e, k) && BusyWith(s, k, x)
    ensures BusyWith(Step(s, e), k, x)
  {
    hide FlowsOk, BuffersOk;
    match e
    case SinkFree(j) =>
      if s.sinks[j].detaching.Some? {
        OtherFinished(s, j, k, x);
      }
    case QueueDone(j) =>
      if s.sinks[j].detaching.Some? {
        OtherFinished(s, j, k, x);
      }
    case FlowFree(f) => FreeOf(s, f);
    case Attach(f, j) => FreeOf(s, f);
    case Detach(f) => Desiring(s, f);
    case _ =>
  }

  /** A flow's buffer that is at a sink while the flow desires none is the one the sink is busy with. */
  lemma FreeOf(s: State, f: FlowId)
    requires Inv(s) && f in s.flows && s.flows[f].desired.None?
    ensures s.flows[f].buffer in s.buffers
    ensures s.buffers[s.flows[f].buffer].sink.Some? ==> IsBusy(s, s.flows[f].buffer)
  {
  }

  lemma OtherFinished(s: State, j: SinkId, k: SinkId, x: Busy)
    requires Inv(s) && j in s.sinks && j != k && BusyWith(s, k, x) && s.sinks[j].detaching.Some?
    ensures Detaching(s, s.sinks[j].detaching.value)
    ensures BusyWith(FinishDetach(s, s.sinks[j].detaching.value), k, x)
    ensures BusyWith(FinishDetach(SetSink(s, j, s.sinks[j].(busy := Idle)), s.sinks[j].detaching.value), k, x)
  {
    DetachingHolds(s, j);
    FinishShape(s, s.sinks[j].detaching.value);
  }

  /** No packet is cut short: what a queue is busy with stays with it, whatever is attached, detached and freed meanwhile. */
  lemma {:induction false} NeverCutShort(s: State, es: seq<Event>, k: SinkId, x: Busy)
    requires Inv(s) && Legal(s, es) && BusyWith(s, k, x) && forall e :: e in es ==> !OfSink(e, k)
    ensures BusyWith(Run(s, es), k, x)
    decreases |es|
  {
    hide Inv, Step, BusyWith, OfSink;
    if es != [] {
      assert es[0] in es;
      BusyKept(s, es[0], k, x);
      NeverCutShort(Step(s, es[0]), es[1..], k, x);
    }
  }

  /** The queue's own events change nobody's wishes. */
  predicate QueueEvent(e: Event) { e.QueueSends? || e.QueueDone? }

  /** Each queue is told of its packet's end once more, if it is busy. */
  function Drain(s: State, ks: seq<SinkId>): (t: State)
    requires Inv(s)
    ensures Inv(t) && t.flows == s.flows && t.sinks.Keys == s.sinks.Keys
    decreases |ks|
  {
    if ks == [] then s
    else if ks[0] in s.sinks && !s.sinks[ks[0]].busy.Idle? then
      DoneKeepsWishes(s, ks[0]);
      Drain(Step(s, QueueDone(ks[0])), ks[1..])
    else Drain(s, ks[1..])
  }

  lemma DoneKeepsWishes(s: State, k: SinkId)
    requires Inv(s) && Enabled(s, QueueDone(k))
    ensures var t := Step(s, QueueDone(k));
      && t.flows == s.flows && t.sinks == s.sinks[k := Sink(Idle, None)]
  {
    if s.sinks[k].detaching.Some? {
      FinishShape(s, s.sinks[k].detaching.value);
    }
  }

  lemma {:induction false} DrainIdles(s: State, ks: seq<SinkId>, k: SinkId)
    requires Inv(s) && k in s.sinks && (k in ks || s.sinks[k].busy.Idle?)
    ensures k in Drain(s, ks).sinks && Drain(s, ks).sinks[k].busy.Idle?
    decreases |ks|
  {
    if ks != [] {
      if ks[0] in s.sinks && !s.sinks[ks[0]].busy.Idle? {
        DoneKeepsWishes(s, ks[0]);
        DrainIdles(Step(s, QueueDone(ks[0])), ks[1..], k);
      } else {
        DrainIdles(s, ks[1..], k);
      }
    }
  }

  /** Once every queue has finished the packet it is on, every buffer is exactly where its flow wants it. */
  lemma DeferredDetachSettles(s: State, ks: seq<SinkId>)
    requires Inv(s) && forall k :: k in s.sinks ==> k in ks
    ensures var t := Drain(s, ks);
      && t.flows == s.flows
      && forall b :: b in t.buffers ==> t.buffers[b].flow.Some? && t.buffers[b].sink == Wanted(t, b)
  {
    var t := Drain(s, ks);
    forall k | k in t.sinks
      ensures t.sinks[k].busy.Idle?
    {
      DrainIdles(s, ks, k);
    }
  }
}
