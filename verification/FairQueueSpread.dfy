/** How far apart the times of two flows can be, and exactly when they are within one packet again. */
module FairQueueSpread {
  import opened Wrappers
  import opened FairQueue
  import opened FairQueueFairness

  // ----- catching up -----

  /** While `b` has not made up its delay, all that happens to the lead is what `b` is served. */
  lemma {:induction false} StillBehind(c: Config, s: Queue, es: seq<Event>, a: FlowId, b: FlowId, given: Lengths)
    requires Inv(c, s) && Legal(c, s, es) && a != b && BothBacklogged(c, s, es, a, b) && Told(s, given)
    requires Served(c, s, es, b, given) < Lead(s, a, b)
    ensures a in Run(c, s, es).time && b in Run(c, s, es).time
    ensures Lead(Run(c, s, es), a, b) == Lead(s, a, b) - Served(c, s, es, b, given)
    decreases |es|
  {
    if es != [] {
      ToldStep(c, s, es[0], given);
      LeadStep(c, s, es[0], a, b, given);
      StillBehind(c, Step(c, s, es[0]), es[1..], a, b, Noted(given, es[0]));
    }
  }

  /** Once `b` has been served its delay, the two are within one packet of each other. */
  lemma {:induction false} CaughtUp(c: Config, s: Queue, es: seq<Event>, a: FlowId, b: FlowId, given: Lengths)
    requires Inv(c, s) && Legal(c, s, es) && a != b && BothBacklogged(c, s, es, a, b) && Told(s, given)
    requires 0 <= Lead(s, a, b) <= Served(c, s, es, b, given)
    ensures a in Run(c, s, es).time && b in Run(c, s, es).time
    ensures Abs(Lead(Run(c, s, es), a, b)) <= c.weight + c.mtu
    decreases |es|
  {
    if es != [] {
      var t := Step(c, s, es[0]);
      ToldStep(c, s, es[0], given);
      LeadStep(c, s, es[0], a, b, given);
      if 0 <= Lead(t, a, b) <= Served(c, t, es[1..], b, Noted(given, es[0])) {
        CaughtUp(c, t, es[1..], a, b, Noted(given, es[0]));
      } else {
        LeadStaysBounded(c, t, es[1..], a, b, Noted(given, es[0]), c.weight + c.mtu);
      }
    }
  }

  /**
  At the end of a stretch with both flows backlogged, they are within one packet of each other if and only if the one that
  was behind has been served all of its delay but at most one packet.
  */
  lemma WithinPacketExact(c: Config, s: Queue, es: seq<Event>, a: FlowId, b: FlowId, given: Lengths)
    requires Inv(c, s) && Legal(c, s, es) && a != b && BothBacklogged(c, s, es, a, b) && Told(s, given) && Lead(s, a, b) >= 0
    ensures a in Run(c, s, es).time && b in Run(c, s, es).time
    ensures Abs(Lead(Run(c, s, es), a, b)) <= c.weight + c.mtu
      <==> Lead(s, a, b) <= Served(c, s, es, b, given) + c.weight + c.mtu
  {
    if Lead(s, a, b) <= Served(c, s, es, b, given) {
      CaughtUp(c, s, es, a, b, given);
    } else {
      StillBehind(c, s, es, a, b, given);
    }
  }

  // ----- two flows can be any distance apart -----

  lemma Cons(c: Config, s: Queue, e: Event, es: seq<Event>)
    requires Inv(c, s) && Enabled(c, s, e) && Legal(c, Step(c, s, e), es)
    ensures Legal(c, s, [e] + es) && Run(c, s, [e] + es) == Run(c, Step(c, s, e), es)
  {
    hide Inv, Enabled, Step;
    assert ([e] + es)[1..] == es;
  }

  /** Three flows, of which only flow 0 has ever sent anything, and nothing is being sent. */
  ghost predicate Alone(s: Queue, t: nat) {
    && s.queued == [] && s.sending.None? && s.previous.None? && !s.job && !s.freeing
    && s.time == map[0 := t, 1 := 0, 2 := 0]
  }

  /** Both flows have a packet waiting, and flow 0 is `n` ahead of flow 1. */
  ghost predicate Spread(s: Queue, n: nat) {
    0 in s.queued && 1 in s.queued && 0 in s.time && 1 in s.time && Lead(s, 0, 1) == n
  }

  /** The first to send in an idle queue is sent at once, and keeps its time. */
  lemma SendIdle(c: Config, s: Queue, t: nat, f: FlowId, n: nat)
    requires Inv(c, s) && Alone(s, t) && f <= 2 && n <= c.mtu
    ensures Enabled(c, s, Send(f, n))
    ensures Step(c, s, Send(f, n)) == s.(len := s.len[f := n], sending := Some(f), sendingLen := n)
  {
    hide Inv;
    assert s.time[f := Max(s.time[f], 0)] == s.time;
    assert TreeInsert([], s.time, f) == [f] && [f][1..] == [];
  }

  /** Behind a flow at time 0 a flow queues at its own time. */
  lemma SendBehind(c: Config, s: Queue, f: FlowId)
    requires Inv(c, s) && s.sending == Some(2) && 2 in s.time && s.time[2] == 0 && !s.freeing
    requires f in s.time && f != 2 && f !in s.queued
    ensures Enabled(c, s, Send(f, 0))
    ensures Step(c, s, Send(f, 0)) == s.(len := s.len[f := 0], queued := TreeInsert(s.queued, s.time, f))
  {
    assert s.time[f := Max(s.time[f], 0)] == s.time;
  }

  lemma Done(c: Config, s: Queue, t: nat)
    requires Inv(c, s) && s.sending == Some(0) && s.sendingLen == c.mtu && s.queued == [] && !s.freeing
    requires s.time == map[0 := t, 1 := 0, 2 := 0] && t + c.weight + c.mtu <= MAX_TIME
    ensures Enabled(c, s, OutputDone)
    ensures var s1 := Step(c, s, OutputDone);
      Enabled(c, s1, RunJob) && Alone(Step(c, s1, RunJob), t + c.weight + c.mtu)
  {
    hide Inv;
  }

  lemma Round(c: Config, s: Queue, t: nat)
    requires Inv(c, s) && Alone(s, t) && t + c.weight + c.mtu <= MAX_TIME
    ensures Enabled(c, s, Send(0, c.mtu))
    ensures var s1 := Step(c, s, Send(0, c.mtu));
      && Enabled(c, s1, OutputDone)
      && var s2 := Step(c, s1, OutputDone);
      && Enabled(c, s2, RunJob) && Alone(Step(c, s2, RunJob), t + c.weight + c.mtu)
  {
    hide Inv, Enabled, Step;
    SendIdle(c, s, t, 0, c.mtu);
    Done(c, Step(c, s, Send(0, c.mtu)), t);
  }

  /** Flow 2 sends; flow 1, which never has, and flow 0 queue up behind it. */
  lemma Meet(c: Config, s: Queue, t: nat)
    requires Inv(c, s) && Alone(s, t)
    ensures Enabled(c, s, Send(2, 0))
    ensures var s1 := Step(c, s, Send(2, 0));
      && Enabled(c, s1, Send(1, 0))
      && var s2 := Step(c, s1, Send(1, 0));
      && Enabled(c, s2, Send(0, 0)) && Spread(Step(c, s2, Send(0, 0)), t)
  {
    hide Inv, Enabled, Step;
    SendIdle(c, s, t, 2, 0);
    var s1 := Step(c, s, Send(2, 0));
    SendBehind(c, s1, 1);
    SendBehind(c, Step(c, s1, Send(1, 0)), 0);
  }

  lemma {:induction false} Drift(c: Config, s: Queue, t: nat, n: nat) returns (es: seq<Event>, m: nat)
    requires c.Valid() && Inv(c, s) && Alone(s, t) && n + c.weight + c.mtu <= MAX_TIME
    ensures m > n && Legal(c, s, es) && Spread(Run(c, s, es), m)
    decreases n + 1 - t
  {
    hide Inv, Enabled, Step, Alone;
    if t > n {
      m := t;
      Meet(c, s, t);
      var s1 := Step(c, s, Send(2, 0));
      var s2 := Step(c, s1, Send(1, 0));
      var s3 := Step(c, s2, Send(0, 0));
      assert Legal(c, s3, []) && Run(c, s3, []) == s3;
      Cons(c, s2, Send(0, 0), []);
      Cons(c, s1, Send(1, 0), [Send(0, 0)] + []);
      Cons(c, s, Send(2, 0), [Send(1, 0)] + ([Send(0, 0)] + []));
      es := [Send(2, 0)] + ([Send(1, 0)] + ([Send(0, 0)] + []));
    } else {
      Round(c, s, t);
      var s1 := Step(c, s, Send(0, c.mtu));
      var s2 := Step(c, s1, OutputDone);
      es, m := Drift(c, Step(c, s2, RunJob), t + c.weight + c.mtu, n);
      Cons(c, s2, RunJob, es);
      Cons(c, s1, OutputDone, [RunJob] + es);
      Cons(c, s, Send(0, c.mtu), [OutputDone] + ([RunJob] + es));
      es := [Send(0, c.mtu)] + ([OutputDone] + ([RunJob] + es));
    }
  }

  lemma ThreeFlows(c: Config)
    requires c.Valid()
    ensures var s := Start();
      && Inv(c, s) && Enabled(c, s, FlowInit(0))
      && var s1 := Step(c, s, FlowInit(0));
      && Enabled(c, s1, FlowInit(1))
      && var s2 := Step(c, s1, FlowInit(1));
      && Enabled(c, s2, FlowInit(2)) && Alone(Step(c, s2, FlowInit(2)), 0)
  {
    StartInv(c);
  }

  /**
  No bound on all times at once: for every `n` that leaves room for one packet in 64 bits there is a run from the start
  after which two flows wait that are more than `n` apart.
  */
  lemma AnyDistance(c: Config, n: nat) returns (es: seq<Event>)
    requires c.Valid() && n + c.weight + c.mtu <= MAX_TIME
    ensures Inv(c, Start()) && Legal(c, Start(), es)
    ensures var r := Run(c, Start(), es);
      && 0 in r.queued && 1 in r.queued && 0 in r.time && 1 in r.time && Abs(Lead(r, 0, 1)) > n
  {
    hide Inv, Enabled, Step, Alone;
    ThreeFlows(c);
    var s := Start();
    var s1 := Step(c, s, FlowInit(0));
    var s2 := Step(c, s1, FlowInit(1));
    var m: nat;
    es, m := Drift(c, Step(c, s2, FlowInit(2)), 0, n);
    Cons(c, s2, FlowInit(2), es);
    Cons(c, s1, FlowInit(1), [FlowInit(2)] + es);
    Cons(c, s, FlowInit(0), [FlowInit(1)] + ([FlowInit(2)] + es));
    es := [FlowInit(0)] + ([FlowInit(1)] + ([FlowInit(2)] + es));
  }
}
