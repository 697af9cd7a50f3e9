/** The fair queue: a virtual-time packet scheduler. */
module FairQueue {
  // `Queue` is the scheduler's state with times kept as exact natural numbers.  The class `PacketPassFairQueue` holds the
  // same state in 64-bit words, subtracts and adds modulo 2^64, and never re-sorts its search tree; its methods are
  // proved to follow the exact machine.

  import opened Seqs
  import opened Wrappers

  /** A flow is named by its address, which also breaks ties between equal times. */
  type FlowId = nat

  const TWO_64: nat := 0x1_0000_0000_0000_0000
  const MAX_TIME: nat := TWO_64 - 1

  /** What PacketPassFairQueue_Init is given; it refuses anything that is not Valid. */
  datatype Config = Config(weight: nat, mtu: nat) {
    predicate Valid() {
      weight > 0 && mtu <= MAX_TIME && weight <= MAX_TIME - mtu
    }
  }

  /**
  `queued` is the in-order walk of the search tree.  It is a sequence and not a set, so that an order
  that no longer fits the keys can be expressed (and is excluded by Inv).
  */
  datatype Queue = Queue(
    flows: seq<FlowId>,
    time: map<FlowId, nat>,
    queued: seq<FlowId>,
    len: map<FlowId, nat>,
    sending: Option<FlowId>,
    sendingLen: nat,
    previous: Option<FlowId>,
    job: bool,
    freeing: bool)

  predicate Before(time: map<FlowId, nat>, a: FlowId, b: FlowId)
    requires a in time && b in time
  {
    time[a] < time[b] || (time[a] == time[b] && a < b)
  }

  predicate Known(q: seq<FlowId>, time: map<FlowId, nat>) {
    forall f :: f in q ==> f in time
  }

  predicate InTreeOrder(q: seq<FlowId>, time: map<FlowId, nat>)
    requires Known(q, time)
  {
    forall i, j :: 0 <= i < j < |q| ==> Before(time, q[i], q[j])
  }

  /** The tree walk after inserting `f`, descending by the keys as they are now. */
  function TreeInsert(q: seq<FlowId>, time: map<FlowId, nat>, f: FlowId): (r: seq<FlowId>)
    requires Known(q, time) && f in time
    ensures |r| == |q| + 1
    ensures forall g :: g in r <==> g == f || g in q
  {
    if q == [] || Before(time, f, q[0]) then [f] + q
    else [q[0]] + TreeInsert(q[1..], time, f)
  }

  // ----- what is always true -----

  ghost predicate Inv(c: Config, s: Queue) {
    && c.Valid()
    && (forall f :: f in s.flows <==> f in s.time)
    && Distinct(s.flows)
    && (forall f :: f in s.time ==> s.time[f] <= MAX_TIME)
    && Known(s.queued, s.time)
    && InTreeOrder(s.queued, s.time)
    && (forall f :: f in s.queued ==> f in s.len && s.len[f] <= c.mtu)
    && (s.sending.Some? ==> SendingOk(c, s, s.sending.value))
    && (s.previous.Some? ==> s.previous.value in s.time && s.previous.value !in s.queued && s.job)
    && (s.queued != [] && !s.freeing ==> s.sending.Some? || s.job)
  }

  /** The flow being sent is nowhere else, and is no later than any queued flow. */
  ghost predicate SendingOk(c: Config, s: Queue, f: FlowId) {
    && f in s.time && f !in s.queued && s.sendingLen <= c.mtu
    && s.previous.None? && !s.job
    && (forall q :: q in s.queued ==> q in s.time && s.time[f] <= s.time[q])
  }

  // ----- the handlers -----

  function Max(a: nat, b: nat): nat { if a >= b then a else b }

  function CurrentTime(s: Queue): nat
    requires s.sending.Some? ==> s.sending.value in s.time
    requires s.previous.Some? ==> s.previous.value in s.time
    requires Known(s.queued, s.time)
  {
    if s.sending.Some? then s.time[s.sending.value]
    else if s.queued != [] then
      if s.previous.Some? && s.time[s.previous.value] < s.time[s.queued[0]] then s.time[s.previous.value]
      else s.time[s.queued[0]]
    else if s.previous.Some? then s.time[s.previous.value]
    else 0
  }

  /** How much every time is moved back before `f`, just finished, is charged `amount`. */
  function Rebase(s: Queue, f: FlowId, amount: nat): nat
    requires f in s.time && Known(s.queued, s.time)
  {
    if s.time[f] + amount <= MAX_TIME then 0
    else if s.queued == [] then s.time[f]
    else s.time[s.queued[0]]
  }

  /** The times after charging `f`: exact, except that idle flows are cut off at zero. */
  function Charged(s: Queue, f: FlowId, amount: nat): map<FlowId, int>
    requires f in s.time && Known(s.queued, s.time)
  {
    var r := Rebase(s, f, amount);
    map g | g in s.time ::
      if g == f then s.time[g] - r + amount else if s.time[g] < r then 0 else s.time[g] - r
  }

  function Schedule(s: Queue): Queue
    requires s.queued != [] && s.queued[0] in s.len
  {
    s.(queued := s.queued[1..], sending := Some(s.queued[0]), sendingLen := s.len[s.queued[0]])
  }

  function Enqueue(c: Config, s: Queue, f: FlowId, n: nat): Queue
    requires Inv(c, s) && f in s.time
  {
    var s1 := if s.previous == Some(f) then s.(previous := None)
              else s.(time := s.time[f := Max(s.time[f], CurrentTime(s))]);
    s1.(queued := TreeInsert(s1.queued, s1.time, f), len := s1.len[f := n])
  }

  /** Everything that can happen to the queue from outside. */
  datatype Event =
    | FlowInit(f: FlowId)
    | FlowFree(f: FlowId)
    | Send(f: FlowId, n: nat)
    | OutputDone
    | RunJob
    | PrepareFree

  /** What the queue's callers owe it. */
  predicate Enabled(c: Config, s: Queue, e: Event) {
    match e
    case FlowInit(f) => !s.freeing && f !in s.time
    case FlowFree(f) => f in s.time && (s.freeing || s.sending != Some(f))
    case Send(f, n) => !s.freeing && f in s.time && f !in s.queued && s.sending != Some(f) && n <= c.mtu
    case OutputDone => !s.freeing && s.sending.Some?
    case RunJob => !s.freeing && s.job
    case PrepareFree => true
  }

  function Move(c: Config, s: Queue, e: Event): Queue
    requires Inv(c, s) && Enabled(c, s, e)
  {
    match e
    case FlowInit(f) => s.(flows := s.flows + [f], time := s.time[f := 0])
    case FlowFree(f) =>
      s.(flows := Without(s.flows, f), time := s.time - {f}, queued := Without(s.queued, f),
         sending := if s.sending == Some(f) then None else s.sending,
         previous := if s.previous == Some(f) then None else s.previous)
    case Send(f, n) =>
      var s1 := Enqueue(c, s, f, n);
      if s.sending.None? && !s.job then Schedule(s1) else s1
    case OutputDone =>
      var f := s.sending.value;
      ChargedInRange(c, s, f, c.weight + s.sendingLen);
      s.(sending := None, previous := Some(f), job := true, time := Charged(s, f, c.weight + s.sendingLen))
    case RunJob =>
      var s1 := s.(job := false, previous := None);
      if s1.queued != [] then Schedule(s1) else s1
    case PrepareFree => s.(freeing := true)
  }

  /** One handler run, as a function that keeps the invariant. */
  function Step(c: Config, s: Queue, e: Event): (r: Queue)
    requires Inv(c, s) && Enabled(c, s, e)
    ensures Inv(c, r)
  {
    MoveKeepsInv(c, s, e);
    Move(c, s, e)
  }

  /** What the handler of a finished packet relies on. */
  lemma SendingFacts(c: Config, s: Queue)
    requires Inv(c, s) && s.sending.Some?
    ensures var f := s.sending.value;
      && f in s.time && f !in s.queued && Known(s.queued, s.time) && s.previous.None? && !s.job
      && c.weight + s.sendingLen <= MAX_TIME
      && Charged(s.(sending := None), f, c.weight + s.sendingLen) == Charged(s, f, c.weight + s.sendingLen)
  {
  }

  // ----- renormalisation is exact -----

  /**
  When the finished flow was no later than every queued flow, the charged times fit 64 bits, no queued flow is cut
  off, and the order of the tree still fits the new keys.
  */
  lemma ChargedInRange(c: Config, s: Queue, f: FlowId, amount: nat)
    requires Inv(c, s) && s.sending == Some(f) && amount <= MAX_TIME
    ensures var t := Charged(s, f, amount);
      && t.Keys == s.time.Keys
      && (forall g :: g in t ==> 0 <= t[g] <= MAX_TIME)
      && t[f] == s.time[f] - Rebase(s, f, amount) + amount
      && (forall q :: q in s.queued ==> t[q] == s.time[q] - Rebase(s, f, amount))
  {
    forall q | q in s.queued
      ensures Rebase(s, f, amount) <= s.time[q]
    {
      var i :| 0 <= i < |s.queued| && s.queued[i] == q;
      if i > 0 {
        assert Before(s.time, s.queued[0], s.queued[i]);
      }
    }
  }

  lemma ShiftKeepsOrder(q: seq<FlowId>, t: map<FlowId, nat>, u: map<FlowId, nat>, r: nat)
    requires Known(q, t) && InTreeOrder(q, t)
    requires forall f :: f in q ==> f in u && u[f] == t[f] - r
    ensures InTreeOrder(q, u)
  {
    forall i, j | 0 <= i < j < |q|
      ensures Before(u, q[i], q[j])
    {
      assert Before(t, q[i], q[j]);
      assert q[i] in q && q[j] in q;
    }
  }

  // ----- the tree -----

  lemma {:induction false} TreeInsertOrdered(q: seq<FlowId>, time: map<FlowId, nat>, f: FlowId)
    requires Known(q, time) && InTreeOrder(q, time) && f in time && f !in q
    ensures InTreeOrder(TreeInsert(q, time, f), time)
  {
    if q == [] || Before(time, f, q[0]) {
      forall j | 0 < j < |q| + 1
        ensures Before(time, f, ([f] + q)[j])
      {
        if j > 1 { assert Before(time, q[0], q[j - 1]); }
      }
    } else {
      var rest := TreeInsert(q[1..], time, f);
      TreeInsertOrdered(q[1..], time, f);
      assert Before(time, q[0], f);
      forall j | 0 <= j < |rest|
        ensures Before(time, q[0], rest[j])
      {
        assert rest[j] in rest;
        if rest[j] != f {
          var k :| 0 <= k < |q[1..]| && q[1..][k] == rest[j];
          assert Before(time, q[0], q[k + 1]);
        }
      }
    }
  }

  lemma {:induction false} WithoutOrdered(q: seq<FlowId>, time: map<FlowId, nat>, f: FlowId)
    requires Known(q, time) && InTreeOrder(q, time)
    ensures InTreeOrder(Without(q, f), time)
  {
    if q != [] {
      WithoutOrdered(q[1..], time, f);
      var rest := Without(q[1..], f);
      forall j | 0 <= j < |rest|
        ensures Before(time, q[0], rest[j])
      {
        assert rest[j] in rest;
        var k :| 0 <= k < |q[1..]| && q[1..][k] == rest[j];
        assert Before(time, q[0], q[k + 1]);
      }
    }
  }

  // ----- every handler keeps the invariant -----

  lemma MoveKeepsInv(c: Config, s: Queue, e: Event)
    requires Inv(c, s) && Enabled(c, s, e)
    ensures Inv(c, Move(c, s, e))
  {
    match e
    case FlowInit(f) => InitKeepsInv(c, s, f);
    case FlowFree(f) => FreeKeepsInv(c, s, f);
    case Send(f, n) => SendKeepsInv(c, s, f, n);
    case OutputDone => DoneKeepsInv(c, s);
    case RunJob =>
      if s.queued != [] {
        ScheduleFirst(c, s.(job := false, previous := None));
      }
    case PrepareFree =>
  }

  lemma InitKeepsInv(c: Config, s: Queue, f: FlowId)
    requires Inv(c, s) && Enabled(c, s, FlowInit(f))
    ensures Inv(c, Move(c, s, FlowInit(f)))
  {
    ShiftKeepsOrder(s.queued, s.time, s.time[f := 0], 0);
  }

  lemma FreeKeepsInv(c: Config, s: Queue, f: FlowId)
    requires Inv(c, s) && Enabled(c, s, FlowFree(f))
    ensures Inv(c, Move(c, s, FlowFree(f)))
  {
    WithoutDistinct(s.flows, f);
    WithoutOrdered(s.queued, s.time, f);
    ShiftKeepsOrder(Without(s.queued, f), s.time, s.time - {f}, 0);
  }

  lemma SendKeepsInv(c: Config, s: Queue, f: FlowId, n: nat)
    requires Inv(c, s) && Enabled(c, s, Send(f, n))
    ensures Inv(c, Move(c, s, Send(f, n)))
  {
    EnqueueKeepsOrder(c, s, f, n);
    if s.sending.None? && !s.job {
      ScheduleFirst(c, Enqueue(c, s, f, n));
    }
  }

  lemma DoneKeepsInv(c: Config, s: Queue)
    requires Inv(c, s) && Enabled(c, s, OutputDone)
    ensures Inv(c, Move(c, s, OutputDone))
  {
    var f := s.sending.value;
    ChargedInRange(c, s, f, c.weight + s.sendingLen);
    ShiftKeepsOrder(s.queued, s.time, Move(c, s, OutputDone).time, Rebase(s, f, c.weight + s.sendingLen));
  }

  lemma EnqueueKeepsOrder(c: Config, s: Queue, f: FlowId, n: nat)
    requires Inv(c, s) && Enabled(c, s, Send(f, n))
    ensures var r := Enqueue(c, s, f, n);
      && r.time.Keys == s.time.Keys
      && (forall g :: g in s.time ==> s.time[g] <= r.time[g] <= MAX_TIME && (g != f ==> r.time[g] == s.time[g]))
      && Known(r.queued, r.time) && InTreeOrder(r.queued, r.time)
      && (s.sending.Some? ==> s.time[s.sending.value] <= r.time[f])
  {
    var t := Enqueue(c, s, f, n).time;
    ShiftKeepsOrder(s.queued, s.time, t, 0);
    TreeInsertOrdered(s.queued, t, f);
  }

  /** Scheduling takes the earliest flow, so what is sent is never later than what still waits. */
  lemma ScheduleFirst(c: Config, s: Queue)
    requires Known(s.queued, s.time) && InTreeOrder(s.queued, s.time) && s.queued != []
    requires forall f :: f in s.queued ==> f in s.len && s.len[f] <= c.mtu
    requires s.previous.None? && !s.job
    ensures var r := Schedule(s);
      && Known(r.queued, r.time) && InTreeOrder(r.queued, r.time)
      && SendingOk(c, r, s.queued[0])
  {
    forall q | q in s.queued[1..]
      ensures s.time[s.queued[0]] <= s.time[q] && q != s.queued[0]
    {
      var i :| 0 <= i < |s.queued[1..]| && s.queued[1..][i] == q;
      assert Before(s.time, s.queued[0], s.queued[i + 1]);
    }
  }

  // ----- runs -----

  function Start(): Queue { Queue([], map[], [], map[], None, 0, None, false, false) }

  lemma StartInv(c: Config)
    requires c.Valid()
    ensures Inv(c, Start())
  {
  }

  ghost predicate Legal(c: Config, s: Queue, es: seq<Event>)
    requires Inv(c, s)
    decreases |es|
  {
    es == [] || (Enabled(c, s, es[0]) && Legal(c, Step(c, s, es[0]), es[1..]))
  }

  function Run(c: Config, s: Queue, es: seq<Event>): (r: Queue)
    requires Inv(c, s) && Legal(c, s, es)
    ensures Inv(c, r)
    decreases |es|
  {
    if es == [] then s else Run(c, Step(c, s, es[0]), es[1..])
  }

  // ----- the scheduler as it is stored -----

  function Sub64(a: nat, b: nat): (r: nat)
    requires a < TWO_64 && b < TWO_64
    ensures r < TWO_64 && (r == a - b || r == a - b + TWO_64)
  {
    (a - b) % TWO_64
  }

  function Add64(a: nat, b: nat): (r: nat)
    requires a < TWO_64 && b < TWO_64
    ensures r < TWO_64 && (r == a + b || r == a + b - TWO_64)
  {
    (a + b) % TWO_64
  }

  class PacketPassFairQueue {
    const config: Config
    var flows: seq<FlowId>
    var time: map<FlowId, nat>
    var queued: seq<FlowId>
    var len: map<FlowId, nat>
    var sending: Option<FlowId>
    var sendingLen: nat
    var previous: Option<FlowId>
    var job: bool
    var freeing: bool

    ghost function State(): Queue
      reads this
    {
      Queue(flows, time, queued, len, sending, sendingLen, previous, job, freeing)
    }

    ghost predicate Valid()
      reads this
    {
      Inv(config, State())
    }

    constructor (c: Config)
      requires c.Valid()
      ensures Valid() && config == c && State() == Start()
    {
      config := c;
      flows, time, queued, len := [], map[], [], map[];
      sending, sendingLen, previous, job, freeing := None, 0, None, false, false;
    }

    method GetCurrentTime() returns (t: nat)
      requires Valid()
      ensures t == CurrentTime(State())
    {
      if sending.Some? {
        return time[sending.value];
      }
      t := 0;
      var have := false;
      if queued != [] {
        t, have := time[queued[0]], true;
      }
      if previous.Some? {
        if !have || time[previous.value] < t {
          t, have := time[previous.value], true;
        }
      }
      return if have then t else 0;
    }

    /** Move every time back by `subtract`; only the word of `flow` may wrap. */
    method SubtractTime(flow: FlowId, subtract: nat)
      requires subtract < TWO_64 && Distinct(flows)
      requires forall f :: f in flows <==> f in time
      requires forall f :: f in time ==> time[f] < TWO_64
      requires forall f :: f in queued ==> f in time && subtract <= time[f]
      modifies this`time
      ensures time == map g | g in old(time) ::
        if g != flow && old(time)[g] < subtract then 0 else Sub64(old(time)[g], subtract)
    {
      ghost var was := time;
      var i := 0;
      while i < |flows|
        invariant 0 <= i <= |flows|
        invariant time.Keys == was.Keys
        invariant forall j :: i <= j < |flows| ==> time[flows[j]] == was[flows[j]]
        invariant forall j :: 0 <= j < i ==>
          time[flows[j]] == if flows[j] != flow && was[flows[j]] < subtract then 0 else Sub64(was[flows[j]], subtract)
      {
        var someflow := flows[i];
        if subtract > time[someflow] && someflow != flow {
          assert someflow !in queued;
          time := time[someflow := 0];
        } else {
          time := time[someflow := Sub64(time[someflow], subtract)];
        }
        i := i + 1;
      }
    }

    /**
    The just-finished flow's word may wrap below zero in the subtraction and back above it in the addition; the tree is
    not touched.  The outcome is the exact one.
    */
    method IncrementSentFlow(flow: FlowId, amount: nat)
      requires Inv(config, State().(sending := Some(flow)))
      requires sending.None? && amount <= MAX_TIME
      modifies this`time
      ensures time == Charged(old(State()), flow, amount)
    {
      ghost var was := State().(sending := Some(flow));
      ChargedInRange(config, was, flow, amount);
      assert Charged(was, flow, amount) == Charged(old(State()), flow, amount);
      if amount > MAX_TIME - time[flow] {
        var subtract := if queued == [] then time[flow] else time[queued[0]];
        assert subtract == Rebase(was, flow, amount);
        SubtractTime(flow, subtract);
        assert time[flow] == Sub64(was.time[flow], subtract);
      }
      time := time[flow := Add64(time[flow], amount)];
      assert time[flow] == Charged(was, flow, amount)[flow];
      assert time == Charged(was, flow, amount);
    }

    method ScheduleNext()
      requires queued != [] && queued[0] in len
      modifies this`queued, this`sending, this`sendingLen
      ensures State() == Schedule(old(State()))
    {
      var qflow := queued[0];
      queued := queued[1..];
      sending := Some(qflow);
      sendingLen := len[qflow];
    }

    method ScheduleJobHandler()
      requires Valid() && Enabled(config, State(), RunJob)
      modifies this
      ensures Valid() && State() == Step(config, old(State()), RunJob)
    {
      assert sending.None?;
      job := false;
      previous := None;
      if queued != [] {
        ScheduleNext();
      }
    }

    method InputHandlerSend(flow: FlowId, dataLen: nat)
      requires Valid() && Enabled(config, State(), Send(flow, dataLen))
      modifies this
      ensures Valid() && State() == Step(config, old(State()), Send(flow, dataLen))
    {
      ghost var was := State();
      ghost var next := Enqueue(config, was, flow, dataLen);
      if previous == Some(flow) {
        previous := None;
      } else {
        var now := GetCurrentTime();
        time := time[flow := Max(time[flow], now)];
      }
      assert time == next.time && previous == next.previous;
      queued := TreeInsert(queued, time, flow);
      len := len[flow := dataLen];
      assert State() == next;
      if sending.None? && !job {
        ScheduleNext();
      }
      assert State() == Step(config, was, Send(flow, dataLen));
    }

    method OutputHandlerDone()
      requires Valid() && Enabled(config, State(), OutputDone)
      modifies this
      ensures Valid() && State() == Step(config, old(State()), OutputDone)
    {
      hide Inv, Charged;
      ghost var was := State();
      SendingFacts(config, was);
      var flow := sending.value;
      assert previous.None? && !job && flow !in queued;
      sending := None;
      assert State().(sending := Some(flow)) == was;
      IncrementSentFlow(flow, config.weight + sendingLen);
      previous := Some(flow);
      job := true;
      assert State() == Step(config, was, OutputDone);
    }

    method FlowInit(flow: FlowId)
      requires Valid() && Enabled(config, State(), Event.FlowInit(flow))
      modifies this
      ensures Valid() && State() == Step(config, old(State()), Event.FlowInit(flow))
    {
      time := time[flow := 0];
      flows := flows + [flow];
    }

    method FlowFree(flow: FlowId)
      requires Valid() && Enabled(config, State(), Event.FlowFree(flow))
      modifies this
      ensures Valid() && State() == Step(config, old(State()), Event.FlowFree(flow))
    {
      ghost var was := State();
      if sending == Some(flow) {
        sending := None;
      }
      if previous == Some(flow) {
        previous := None;
      }
      if flow in queued {
        queued := Without(queued, flow);
      }
      flows := Without(flows, flow);
      time := time - {flow};
      assert State() == Step(config, was, Event.FlowFree(flow));
    }

    method PrepareFree()
      requires Valid()
      modifies this
      ensures Valid() && State() == Step(config, old(State()), Event.PrepareFree)
    {
      freeing := true;
    }
  }
}
