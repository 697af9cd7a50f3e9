/** What the fair queue promises over whole runs: fairness between backlogged flows, and no starvation. */
module FairQueueFairness {
  import opened Wrappers
  import opened FairQueue

  /** The flow has a packet waiting or in transit, or may still renew its place before the schedule job runs. */
  predicate Backlogged(s: Queue, f: FlowId) {
    f in s.queued || s.sending == Some(f) || s.previous == Some(f)
  }

  function Abs(x: int): nat { if x < 0 then -x else x }

  /** The signed lead of `a` over `b` in virtual time. */
  function Lead(s: Queue, a: FlowId, b: FlowId): int
    requires a in s.time && b in s.time
  {
    var x: int := s.time[a];
    x - s.time[b]
  }

  // ----- service, as the callers see it -----

  /** The length each flow gave with its last packet. */
  type Lengths = map<FlowId, nat>

  function Noted(given: Lengths, e: Event): Lengths {
    if e.Send? then given[e.f := e.n] else given
  }

  function NotedAll(given: Lengths, es: seq<Event>): Lengths
    decreases |es|
  {
    if es == [] then given else NotedAll(Noted(given, es[0]), es[1..])
  }

  /** The queue's record of the packets waiting and in transit is what was given. */
  ghost predicate Told(s: Queue, given: Lengths) {
    && (forall f :: f in s.queued ==> f in given && f in s.len && s.len[f] == given[f])
    && (s.sending.Some? ==> s.sending.value in given && s.sendingLen == given[s.sending.value])
  }

  lemma ToldStep(c: Config, s: Queue, e: Event, given: Lengths)
    requires Inv(c, s) && Enabled(c, s, e) && Told(s, given)
    ensures Told(Step(c, s, e), Noted(given, e))
  {
    if e.Send? {
      EnqueueKeepsOrder(c, s, e.f, e.n);
    }
  }

  /** In every run from the start, the packet in transit has the length its flow gave with its last Send. */
  lemma {:induction false} ToldRun(c: Config, s: Queue, es: seq<Event>, given: Lengths)
    requires Inv(c, s) && Legal(c, s, es) && Told(s, given)
    ensures Told(Run(c, s, es), NotedAll(given, es))
    decreases |es|
  {
    hide Inv, Told;
    if es != [] {
      ToldStep(c, s, es[0], given);
      ToldRun(c, Step(c, s, es[0]), es[1..], Noted(given, es[0]));
    }
  }

  lemma ToldStart()
    ensures Told(Start(), map[])
  {
  }

  /** Weighted service `f` receives in one event: the weight and the length it gave, when its sending completes. */
  function Service(c: Config, s: Queue, e: Event, f: FlowId, given: Lengths): nat {
    if e.OutputDone? && s.sending == Some(f) && f in given then c.weight + given[f] else 0
  }

  function Served(c: Config, s: Queue, es: seq<Event>, f: FlowId, given: Lengths): nat
    requires Inv(c, s) && Legal(c, s, es)
    decreases |es|
  {
    if es == [] then 0
    else Service(c, s, es[0], f, given) + Served(c, Step(c, s, es[0]), es[1..], f, Noted(given, es[0]))
  }

  /** Both flows are backlogged in every state of the run. */
  ghost predicate BothBacklogged(c: Config, s: Queue, es: seq<Event>, a: FlowId, b: FlowId)
    requires Inv(c, s) && Legal(c, s, es)
    decreases |es|
  {
    && Backlogged(s, a) && Backlogged(s, b)
    && (es != [] ==> BothBacklogged(c, Step(c, s, es[0]), es[1..], a, b))
  }

  /** Only a completed packet moves the time of a flow that stays backlogged. */
  lemma TimeHolds(c: Config, s: Queue, e: Event, a: FlowId)
    requires Inv(c, s) && Enabled(c, s, e) && !e.OutputDone?
    requires Backlogged(s, a) && Backlogged(Step(c, s, e), a)
    ensures a in s.time && a in Step(c, s, e).time && Step(c, s, e).time[a] == s.time[a]
  {
    match e
    case Send(f, n) => assert f == a ==> s.previous == Some(f);
    case FlowInit(f) =>
    case FlowFree(f) =>
    case RunJob =>
    case PrepareFree =>
  }

  /** Service is conserved: it is exactly what moves the lead, renormalisation or not. */
  lemma LeadStep(c: Config, s: Queue, e: Event, a: FlowId, b: FlowId, given: Lengths)
    requires Inv(c, s) && Enabled(c, s, e) && a != b && Told(s, given)
    requires Backlogged(s, a) && Backlogged(s, b)
    requires Backlogged(Step(c, s, e), a) && Backlogged(Step(c, s, e), b)
    ensures a in Step(c, s, e).time && b in Step(c, s, e).time
    ensures Lead(Step(c, s, e), a, b) == Lead(s, a, b) + Service(c, s, e, a, given) - Service(c, s, e, b, given)
    ensures Service(c, s, e, a, given) > 0 ==> Lead(s, a, b) <= 0
    ensures Service(c, s, e, b, given) > 0 ==> Lead(s, a, b) >= 0
  {
    if e.OutputDone? {
      ChargedInRange(c, s, s.sending.value, c.weight + s.sendingLen);
    } else {
      TimeHolds(c, s, e, a);
      TimeHolds(c, s, e, b);
    }
  }

  /** Every state of the stretch has both flows, and service adds up to the change of the lead. */
  lemma {:induction false} ServiceMovesLead(c: Config, s: Queue, es: seq<Event>, a: FlowId, b: FlowId, given: Lengths)
    requires Inv(c, s) && Legal(c, s, es) && a != b && Told(s, given)
    requires BothBacklogged(c, s, es, a, b)
    ensures a in Run(c, s, es).time && b in Run(c, s, es).time
    ensures Served(c, s, es, a, given) - Served(c, s, es, b, given) == Lead(Run(c, s, es), a, b) - Lead(s, a, b)
    decreases |es|
  {
    if es != [] {
      ToldStep(c, s, es[0], given);
      LeadStep(c, s, es[0], a, b, given);
      ServiceMovesLead(c, Step(c, s, es[0]), es[1..], a, b, Noted(given, es[0]));
    }
  }

  lemma {:induction false} LeadStaysBounded(c: Config, s: Queue, es: seq<Event>, a: FlowId, b: FlowId, given: Lengths, bound: nat)
    requires Inv(c, s) && Legal(c, s, es) && a != b && Told(s, given)
    requires BothBacklogged(c, s, es, a, b)
    requires Abs(Lead(s, a, b)) <= bound && c.weight + c.mtu <= bound
    ensures a in Run(c, s, es).time && b in Run(c, s, es).time
    ensures Abs(Lead(Run(c, s, es), a, b)) <= bound
    decreases |es|
  {
    if es != [] {
      ToldStep(c, s, es[0], given);
      LeadStep(c, s, es[0], a, b, given);
      LeadStaysBounded(c, Step(c, s, es[0]), es[1..], a, b, Noted(given, es[0]), bound);
    }
  }

  /**
  Over any stretch in which two flows stay backlogged, the lead of one over the other never exceeds the larger of its
  starting value and one packet, and the service they receive differs by no more than that plus the starting value.
  */
  lemma Fairness(c: Config, s: Queue, es: seq<Event>, a: FlowId, b: FlowId, given: Lengths)
    requires Inv(c, s) && Legal(c, s, es) && a != b && Told(s, given)
    requires BothBacklogged(c, s, es, a, b)
    ensures a in Run(c, s, es).time && b in Run(c, s, es).time
    ensures var start := Abs(Lead(s, a, b));
      var bound := Max(start, c.weight + c.mtu);
      && Abs(Lead(Run(c, s, es), a, b)) <= bound
      && Abs(Served(c, s, es, a, given) - Served(c, s, es, b, given)) <= start + bound
  {
    hide Legal, Run, Served, InTreeOrder, Step;
    LeadStaysBounded(c, s, es, a, b, given, Max(Abs(Lead(s, a, b)), c.weight + c.mtu));
    ServiceMovesLead(c, s, es, a, b, given);
  }

  // ----- no starvation -----

  /** How far `g` may still run before it is later than a flow waiting at time `t`. */
  function Credit(time: map<FlowId, nat>, t: nat, g: FlowId): nat
    requires g in time
  {
    if time[g] <= t then t + 1 - time[g] else 0
  }

  function Credits(gs: seq<FlowId>, time: map<FlowId, nat>, t: nat, q: FlowId): nat
    requires Known(gs, time)
  {
    if gs == [] then 0
    else (if gs[0] == q then 0 else Credit(time, t, gs[0])) + Credits(gs[1..], time, t, q)
  }

  /** The credits of all flows other than `q`, against the time at which `q` waits. */
  function Debt(c: Config, s: Queue, q: FlowId): nat
    requires Inv(c, s) && q in s.time
  {
    Credits(s.flows, s.time, s.time[q], q)
  }

  lemma {:induction false} CreditsDrop(gs: seq<FlowId>, time: map<FlowId, nat>, t: nat,
                                       time': map<FlowId, nat>, t': nat, q: FlowId, g: FlowId)
    requires Known(gs, time) && Known(gs, time')
    requires forall h :: h in gs && h != q ==> Credit(time', t', h) <= Credit(time, t, h)
    ensures Credits(gs, time', t', q) <= Credits(gs, time, t, q)
    ensures (g in gs && g != q && Credit(time', t', g) < Credit(time, t, g)) ==>
      Credits(gs, time', t', q) < Credits(gs, time, t, q)
  {
    if gs != [] {
      CreditsDrop(gs[1..], time, t, time', t', q, g);
    }
  }

  /** The queue's own steps: the output finishing a packet, and the schedule job running. */
  predicate QueueStep(e: Event) { e.OutputDone? || e.RunJob? }

  function QueueSteps(es: seq<Event>): nat {
    if es == [] then 0 else (if QueueStep(es[0]) then 1 else 0) + QueueSteps(es[1..])
  }

  function Patience(c: Config, s: Queue, q: FlowId): nat
    requires Inv(c, s) && q in s.time
  {
    2 * Debt(c, s, q) + if s.job then 1 else 0
  }

  predicate FixedFlows(e: Event) { !e.FlowInit? && !e.FlowFree? }

  lemma DoneDropsDebt(c: Config, s: Queue, q: FlowId)
    requires Inv(c, s) && Enabled(c, s, OutputDone) && q in s.queued
    ensures Debt(c, Step(c, s, OutputDone), q) < Debt(c, s, q)
  {
    var f := s.sending.value;
    var r := Step(c, s, OutputDone);
    ChargedInRange(c, s, f, c.weight + s.sendingLen);
    CreditsDrop(s.flows, s.time, s.time[q], r.time, r.time[q], q, f);
  }

  lemma PatienceStep(c: Config, s: Queue, e: Event, q: FlowId)
    requires Inv(c, s) && Enabled(c, s, e) && FixedFlows(e) && q in s.queued
    ensures q in Step(c, s, e).time
    ensures Patience(c, Step(c, s, e), q) + (if QueueStep(e) then 1 else 0) <= Patience(c, s, q)
  {
    match e
    case OutputDone => DoneDropsDebt(c, s, q);
    case Send(f, n) =>
      EnqueueKeepsOrder(c, s, f, n);
      var r := Step(c, s, e);
      CreditsDrop(s.flows, s.time, s.time[q], r.time, s.time[q], q, f);
    case RunJob =>
    case PrepareFree =>
  }

  ghost predicate StaysQueued(c: Config, s: Queue, es: seq<Event>, q: FlowId)
    requires Inv(c, s) && Legal(c, s, es)
    decreases |es|
  {
    q in s.queued && (es != [] ==> StaysQueued(c, Step(c, s, es[0]), es[1..], q))
  }

  /**
  With a fixed set of flows, a queued flow outlasts at most Patience queue steps; and while it waits the queue is never
  stuck, so it is sent.
  */
  lemma {:induction false} NoStarvation(c: Config, s: Queue, es: seq<Event>, q: FlowId)
    requires Inv(c, s) && Legal(c, s, es)
    requires forall e :: e in es ==> FixedFlows(e)
    requires StaysQueued(c, s, es, q)
    ensures QueueSteps(es) <= Patience(c, s, q)
    ensures var r := Run(c, s, es);
      !r.freeing ==> Enabled(c, r, OutputDone) || Enabled(c, r, RunJob)
    decreases |es|
  {
    if es != [] {
      PatienceStep(c, s, es[0], q);
      NoStarvation(c, Step(c, s, es[0]), es[1..], q);
    }
  }

  // ----- every packet is sent once -----

  /** A flow leaves the queue by being sent, or when it is freed. */
  lemma LeavesBySending(c: Config, s: Queue, e: Event, q: FlowId)
    requires Inv(c, s) && Enabled(c, s, e) && q in s.queued && q !in Step(c, s, e).queued
    ensures Step(c, s, e).sending == Some(q) || e == FlowFree(q)
  {
    if e.Send? {
      EnqueueKeepsOrder(c, s, e.f, e.n);
    }
  }

  /** The flow has a packet that has not been answered. */
  predicate Owed(s: Queue, f: FlowId) {
    f in s.queued || s.sending == Some(f)
  }

  function Sends(es: seq<Event>, f: FlowId): nat {
    if es == [] then 0 else (if es[0].Send? && es[0].f == f then 1 else 0) + Sends(es[1..], f)
  }

  /** How many packets of `f` the output finishes. */
  function Finished(c: Config, s: Queue, es: seq<Event>, f: FlowId): nat
    requires Inv(c, s) && Legal(c, s, es)
    decreases |es|
  {
    if es == [] then 0
    else (if es[0].OutputDone? && s.sending == Some(f) then 1 else 0) + Finished(c, Step(c, s, es[0]), es[1..], f)
  }

  lemma OwedStep(c: Config, s: Queue, e: Event, f: FlowId)
    requires Inv(c, s) && Enabled(c, s, e) && e != FlowFree(f)
    ensures (if Owed(s, f) then 1 else 0) + (if e.Send? && e.f == f then 1 else 0)
      == (if e.OutputDone? && s.sending == Some(f) then 1 else 0) + (if Owed(Step(c, s, e), f) then 1 else 0)
  {
    if e.Send? {
      EnqueueKeepsOrder(c, s, e.f, e.n);
    }
  }

  /** While a flow lives, the packets it gave are those finished, and the one still waiting or in transit. */
  lemma {:induction false} PacketsConserved(c: Config, s: Queue, es: seq<Event>, f: FlowId)
    requires Inv(c, s) && Legal(c, s, es) && FlowFree(f) !in es
    ensures (if Owed(s, f) then 1 else 0) + Sends(es, f)
      == Finished(c, s, es, f) + (if Owed(Run(c, s, es), f) then 1 else 0)
    decreases |es|
  {
    hide Inv, Owed;
    if es != [] {
      OwedStep(c, s, es[0], f);
      PacketsConserved(c, Step(c, s, es[0]), es[1..], f);
    }
  }

  // ----- where a flow starts -----

  /** The time of the flow being sent, or else the least time of those queued and the one just finished. */
  ghost predicate Earliest(s: Queue, t: nat) {
    if s.sending.Some? then s.sending.value in s.time && t == s.time[s.sending.value]
    else
      && (forall f :: f in s.queued || s.previous == Some(f) ==> f in s.time && t <= s.time[f])
      && (exists f :: (f in s.queued || s.previous == Some(f)) && f in s.time && t == s.time[f])
  }

  /**
  A flow with a new packet is placed at its own time or at the earliest of the others, whichever is later; a flow that has
  just finished keeps its time, and so does one that finds the queue empty.
  */
  lemma StartsAt(c: Config, s: Queue, f: FlowId, n: nat)
    requires Inv(c, s) && Enabled(c, s, Send(f, n))
    ensures var r := Step(c, s, Send(f, n));
      && f in r.time && Owed(r, f)
      && (s.previous == Some(f) ==> r.time[f] == s.time[f])
      && (s.previous != Some(f) ==> forall t :: Earliest(s, t) ==> r.time[f] == Max(s.time[f], t))
      && (s.sending.None? && s.queued == [] && s.previous.None? ==> r.time[f] == s.time[f])
      && (s.sending.None? && (s.queued != [] || s.previous.Some?) ==> exists t :: Earliest(s, t))
  {
    EnqueueKeepsOrder(c, s, f, n);
    if s.sending.None? && (s.queued != [] || s.previous.Some?) {
      CurrentIsEarliest(c, s);
    }
    forall t | Earliest(s, t)
      ensures t == CurrentTime(s)
    {
      EarliestIs(c, s, t);
    }
  }

  lemma CurrentIsEarliest(c: Config, s: Queue)
    requires Inv(c, s) && s.sending.None? && (s.queued != [] || s.previous.Some?)
    ensures Earliest(s, CurrentTime(s))
  {
    forall g | g in s.queued
      ensures s.time[s.queued[0]] <= s.time[g]
    {
      var i :| 0 <= i < |s.queued| && s.queued[i] == g;
      assert i > 0 ==> Before(s.time, s.queued[0], s.queued[i]);
    }
    assert s.queued != [] ==> s.queued[0] in s.queued;
  }

  lemma EarliestIs(c: Config, s: Queue, t: nat)
    requires Inv(c, s) && Earliest(s, t)
    ensures t == CurrentTime(s)
  {
    if s.sending.None? {
      CurrentIsEarliest(c, s);
    }
  }

  // ----- flows at rest, and new flows -----

  /** The event is about the flow: it sends a packet, or its packet has been sent, or it comes or goes. */
  predicate About(s: Queue, e: Event, f: FlowId) {
    match e
    case OutputDone => s.sending == Some(f)
    case RunJob => false
    case PrepareFree => false
    case _ => e.f == f
  }

  /** The time `t` moved back by `r`, but not below zero. */
  function Back(t: nat, r: nat): nat { if t < r then 0 else t - r }

  /** Between the two states every flow that the event is not about has been moved back by `r`. */
  ghost predicate MovedBack(s: Queue, e: Event, t: Queue, r: nat) {
    forall f :: f in s.time && !About(s, e, f) ==> f in t.time && t.time[f] == Back(s.time[f], r)
  }

  /**
  A flow keeps its time, whether it waits or rests, until an event is about it; only when the time of a flow just served
  would not fit are all moved back by the same amount, which leaves the times of waiting flows as far apart as they were.
  */
  lemma RestingKeepsTime(c: Config, s: Queue, e: Event, given: Lengths)
    requires Inv(c, s) && Enabled(c, s, e) && Told(s, given)
    ensures e.OutputDone? ==> exists r: nat ::
      && MovedBack(s, e, Step(c, s, e), r) && (forall f :: f in s.queued ==> r <= s.time[f])
      && (r > 0 ==> s.time[s.sending.value] + c.weight + given[s.sending.value] > MAX_TIME)
    ensures !e.OutputDone? ==> MovedBack(s, e, Step(c, s, e), 0)
  {
    if e.OutputDone? {
      DoneMovesBack(c, s);
    } else if e.Send? {
      EnqueueKeepsOrder(c, s, e.f, e.n);
    }
  }

  lemma DoneMovesBack(c: Config, s: Queue)
    requires Inv(c, s) && Enabled(c, s, OutputDone)
    ensures var r := Rebase(s, s.sending.value, c.weight + s.sendingLen);
      MovedBack(s, OutputDone, Step(c, s, OutputDone), r) && forall f :: f in s.queued ==> r <= s.time[f]
  {
    SendingFacts(c, s);
    ChargedInRange(c, s, s.sending.value, c.weight + s.sendingLen);
  }

  /** The flows that have come and not yet sent anything. */
  function Untried(fs: set<FlowId>, e: Event): set<FlowId> {
    match e
    case FlowInit(f) => fs + {f}
    case FlowFree(f) => fs - {f}
    case Send(f, _) => fs - {f}
    case _ => fs
  }

  function UntriedAll(fs: set<FlowId>, es: seq<Event>): set<FlowId>
    decreases |es|
  {
    if es == [] then fs else UntriedAll(Untried(fs, es[0]), es[1..])
  }

  ghost predicate AtZero(s: Queue, fs: set<FlowId>) {
    forall f :: f in fs ==> f in s.time && s.time[f] == 0 && !Backlogged(s, f)
  }

  lemma AtZeroDone(c: Config, s: Queue, fs: set<FlowId>)
    requires Inv(c, s) && Enabled(c, s, OutputDone) && AtZero(s, fs)
    ensures AtZero(Step(c, s, OutputDone), fs)
  {
    DoneMovesBack(c, s);
  }

  lemma AtZeroSend(c: Config, s: Queue, f: FlowId, n: nat, fs: set<FlowId>)
    requires Inv(c, s) && Enabled(c, s, Send(f, n)) && AtZero(s, fs)
    ensures AtZero(Step(c, s, Send(f, n)), fs - {f})
  {
    EnqueueKeepsOrder(c, s, f, n);
  }

  lemma AtZeroStep(c: Config, s: Queue, e: Event, fs: set<FlowId>)
    requires Inv(c, s) && Enabled(c, s, e) && AtZero(s, fs)
    ensures AtZero(Step(c, s, e), Untried(fs, e))
  {
    match e
    case Send(f, n) => AtZeroSend(c, s, f, n, fs);
    case OutputDone => AtZeroDone(c, s, fs);
    case _ =>
  }

  lemma {:induction false} AtZeroRun(c: Config, s: Queue, es: seq<Event>, fs: set<FlowId>)
    requires Inv(c, s) && Legal(c, s, es) && AtZero(s, fs)
    ensures AtZero(Run(c, s, es), UntriedAll(fs, es))
    decreases |es|
  {
    hide Inv, AtZero;
    if es != [] {
      AtZeroStep(c, s, es[0], fs);
      AtZeroRun(c, Step(c, s, es[0]), es[1..], Untried(fs, es[0]));
    }
  }

  /** In every run, the first packet of a flow is placed level with the earliest, neither ahead of it nor behind. */
  lemma FirstPacketLevel(c: Config, es: seq<Event>, f: FlowId, n: nat)
    requires Inv(c, Start()) && Legal(c, Start(), es) && f in UntriedAll({}, es)
    requires Enabled(c, Run(c, Start(), es), Send(f, n))
    ensures var s := Run(c, Start(), es);
      var t := Step(c, s, Send(f, n)).time;
      && f in t && (forall x :: Earliest(s, x) ==> t[f] == x)
      && (s.sending.None? && s.queued == [] && s.previous.None? ==> t[f] == 0)
  {
    hide Inv, Legal, Run, UntriedAll, Earliest;
    AtZeroRun(c, Start(), es, {});
    StartsAt(c, Run(c, Start(), es), f, n);
  }

  // ----- the flow just served -----

  /** The flow has just been served, at time `t`, and the schedule job has not run yet. */
  ghost predicate JustServed(s: Queue, f: FlowId, t: nat) {
    s.previous == Some(f) && s.sending.None? && s.job && f in s.time && s.time[f] == t
  }

  lemma JustServedStep(c: Config, s: Queue, e: Event, f: FlowId, t: nat)
    requires Inv(c, s) && Enabled(c, s, e) && JustServed(s, f, t) && e != RunJob && !About(s, e, f)
    ensures JustServed(Step(c, s, e), f, t)
  {
    if e.Send? {
      EnqueueKeepsOrder(c, s, e.f, e.n);
    }
  }

  lemma NotAbout(c: Config, s: Queue, e: Event, f: FlowId, t: nat)
    requires Enabled(c, s, e) && JustServed(s, f, t) && FlowFree(f) != e && !(e.Send? && e.f == f)
    ensures !About(s, e, f)
  {
  }

  lemma {:induction false} JustServedRun(c: Config, s: Queue, es: seq<Event>, f: FlowId, t: nat)
    requires Inv(c, s) && Legal(c, s, es) && JustServed(s, f, t)
    requires forall e :: e in es ==> e != RunJob && FlowFree(f) != e && !(e.Send? && e.f == f)
    ensures JustServed(Run(c, s, es), f, t)
    decreases |es|
  {
    hide Inv, Step;
    if es != [] {
      assert es[0] in es;
      NotAbout(c, s, es[0], f, t);
      JustServedStep(c, s, es[0], f, t);
      JustServedRun(c, Step(c, s, es[0]), es[1..], f, t);
    }
  }

  /**
  A flow that sends again after its packet is done and before the schedule job runs keeps exactly the time it was charged
  to, whatever others do in between: it neither waits at the present time nor loses what it was ahead or behind.
  */
  lemma RenewsInPlace(c: Config, s: Queue, es: seq<Event>, n: nat)
    requires Inv(c, s) && Enabled(c, s, OutputDone) && Legal(c, Step(c, s, OutputDone), es)
    requires forall e :: e in es ==> e != RunJob && FlowFree(s.sending.value) != e && !(e.Send? && e.f == s.sending.value)
    requires Enabled(c, Run(c, Step(c, s, OutputDone), es), Send(s.sending.value, n))
    ensures var f, d := s.sending.value, Step(c, s, OutputDone);
      var t := Step(c, Run(c, d, es), Send(f, n));
      f in d.time && f in t.time && t.time[f] == d.time[f] && f in t.queued
  {
    hide Legal, Run;
    var f, d := s.sending.value, Step(c, s, OutputDone);
    ServedNow(c, s);
    JustServedRun(c, d, es, f, d.time[f]);
    EnqueueKeepsOrder(c, Run(c, d, es), f, n);
  }

  lemma ServedNow(c: Config, s: Queue)
    requires Inv(c, s) && Enabled(c, s, OutputDone)
    ensures var f, d := s.sending.value, Step(c, s, OutputDone); f in d.time && JustServed(d, f, d.time[f])
  {
    ChargedInRange(c, s, s.sending.value, c.weight + s.sendingLen);
  }
}
