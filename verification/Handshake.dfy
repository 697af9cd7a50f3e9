/** Passing packets between two objects. */
module Handshake {
  // The sender's Send, the provider's work and the answer are carried by jobs; the sender may ask for the operation to
  // be cancelled.

  import opened Seqs
  import opened PendingJobs

  type IfaceId = nat

  datatype Job = Operation(i: IfaceId) | RequestCancel(i: IfaceId) | Done(i: IfaceId) | Other(n: nat)

  datatype Phase = Idle | OperationPending | Busy | DonePending

  /** What happens between a Send and its answer, in order. */
  datatype Mark = Sent | Operated | Asked | Told | Finished | Answered

  /** The marks since the last Send, and those of the Sends that have been answered. */
  datatype Iface = Iface(phase: Phase, cancel: bool, session: seq<Mark>, past: seq<seq<Mark>>)

  datatype World = World(ifaces: map<IfaceId, Iface>, jobs: seq<Job>)

  // ----- the calls and the jobs -----

  function Mark1(x: Iface, m: Mark): Iface { x.(session := x.session + [m]) }

  function SendIface(x: Iface): Iface { x.(phase := OperationPending, cancel := false, session := [Sent]) }

  function SendJobs(q: seq<Job>, i: IfaceId): seq<Job> { Set(q, Operation(i)) }

  /** A cancel before the operation has started replaces the operation by the answer; a later one is passed on once. */
  function AskIface(x: Iface): Iface {
    var y := Mark1(x, Asked).(cancel := true);
    if !x.cancel && x.phase.OperationPending? then y.(phase := DonePending) else y
  }

  function AskJobs(q: seq<Job>, x: Iface, i: IfaceId): seq<Job> {
    if x.cancel then q
    else if x.phase.OperationPending? then Set(Without(q, Operation(i)), Done(i))
    else if x.phase.Busy? then Set(q, RequestCancel(i))
    else q
  }

  function FinishIface(x: Iface): Iface { Mark1(x, Finished).(phase := DonePending) }

  function FinishJobs(q: seq<Job>, i: IfaceId): seq<Job> { Set(Without(q, RequestCancel(i)), Done(i)) }

  function OperateIface(x: Iface): Iface { Mark1(x, Operated).(phase := Busy) }

  function TellIface(x: Iface): Iface { Mark1(x, Told) }

  function AnswerIface(x: Iface): Iface {
    Iface(Idle, x.cancel, [], x.past + [x.session + [Answered]])
  }

  datatype Event =
    | Add(i: IfaceId) | Send(i: IfaceId) | Ask(i: IfaceId) | Finish(i: IfaceId) | Execute | SetOther(n: nat) | UnsetOther(n: nat)

  /** What the asserts of the calls demand. */
  predicate Enabled(w: World, e: Event) {
    match e
    case Add(i) => i !in w.ifaces
    case Send(i) => i in w.ifaces && w.ifaces[i].phase.Idle?
    case Ask(i) => i in w.ifaces && !w.ifaces[i].phase.Idle?
    case Finish(i) => i in w.ifaces && w.ifaces[i].phase.Busy?
    case Execute => w.jobs != []
    case SetOther(_) => true
    case UnsetOther(_) => true
  }

  function SetIface(w: World, i: IfaceId, x: Iface, q: seq<Job>): World { World(w.ifaces[i := x], q) }

  function Run1(w: World, j: Job): World
    requires j.Other? || j.i in w.ifaces
  {
    match j
    case Operation(i) => SetIface(w, i, OperateIface(w.ifaces[i]), w.jobs)
    case RequestCancel(i) => SetIface(w, i, TellIface(w.ifaces[i]), w.jobs)
    case Done(i) => SetIface(w, i, AnswerIface(w.ifaces[i]), w.jobs)
    case Other(_) => w
  }

  function Step(w: World, e: Event): World
    requires Inv(w) && Enabled(w, e)
  {
    match e
    case Add(i) => SetIface(w, i, Iface(Idle, false, [], []), w.jobs)
    case Send(i) => SetIface(w, i, SendIface(w.ifaces[i]), SendJobs(w.jobs, i))
    case Ask(i) => SetIface(w, i, AskIface(w.ifaces[i]), AskJobs(w.jobs, w.ifaces[i], i))
    case Finish(i) => SetIface(w, i, FinishIface(w.ifaces[i]), FinishJobs(w.jobs, i))
    case Execute => assert w.jobs[0] in w.jobs; Run1(w.(jobs := w.jobs[1..]), w.jobs[0])
    case SetOther(n) => w.(jobs := Set(w.jobs, Other(n)))
    case UnsetOther(n) => w.(jobs := Without(w.jobs, Other(n)))
  }

  // ----- what is always true -----

  /** Which of the interface's jobs are on the list. */
  predicate JobsOk(q: seq<Job>, x: Iface, i: IfaceId) {
    && (Operation(i) in q <==> x.phase.OperationPending?)
    && (Done(i) in q <==> x.phase.DonePending?)
    && (RequestCancel(i) in q <==> x.phase.Busy? && x.cancel && Told !in x.session)
  }

  /**
  A part of a session, from the Send on: the operation runs at most once, right after the Send and so never after an
  early cancel; the provider is told of a cancel at most once, after it was asked for and before it has finished.
  */
  predicate Partial(s: seq<Mark>) {
    && s != [] && s[0] == Sent && Answered !in s
    && (forall k :: 0 <= k < |s| && s[k] == Sent ==> k == 0)
    && (forall k :: 0 <= k < |s| && s[k] == Operated ==> k == 1)
    && (forall k, l :: 0 <= k < |s| && 0 <= l < |s| && s[k] == Told && s[l] == Told ==> k == l)
    && (forall k, l :: 0 <= k < |s| && 0 <= l < |s| && s[k] == Finished && s[l] == Finished ==> k == l)
    && (forall k, l :: 0 <= k < |s| && 0 <= l < |s| && s[k] == Told && s[l] == Finished ==> k < l)
    && (forall k :: 0 <= k < |s| && s[k] == Told ==> Asked in s[..k])
    && (forall k :: 0 <= k < |s| && s[k] == Finished ==> |s| > 1 && s[1] == Operated)
  }

  /** The session is over when the provider has finished, or was never called because of an early cancel. */
  predicate Over(s: seq<Mark>) {
    Finished in s || (|s| > 1 && s[1] == Asked)
  }

  predicate SessionOk(x: Iface) {
    && (x.phase.Idle? ==> x.session == [])
    && (!x.phase.Idle? ==> Partial(x.session) && (x.cancel <==> Asked in x.session))
    && (x.phase.OperationPending? ==> x.session == [Sent])
    && (x.phase.Busy? ==> |x.session| > 1 && x.session[1] == Operated && Finished !in x.session)
    && (x.phase.DonePending? ==> Over(x.session))
  }

  /** Exactly one answer to one Send, at the end. */
  predicate Complete(s: seq<Mark>) {
    |s| > 0 && s[|s| - 1] == Answered && Partial(s[..|s| - 1]) && Over(s[..|s| - 1])
  }

  predicate PastOk(x: Iface) {
    forall k :: 0 <= k < |x.past| ==> Complete(x.past[k])
  }

  ghost predicate Inv(w: World) {
    && Distinct(w.jobs)
    && (forall j :: j in w.jobs && !j.Other? ==> j.i in w.ifaces)
    && (forall i :: i in w.ifaces ==> JobsOk(w.jobs, w.ifaces[i], i) && SessionOk(w.ifaces[i]) && PastOk(w.ifaces[i]))
  }

  // ----- one interface -----

  lemma AskPartial(s: seq<Mark>)
    requires Partial(s)
    ensures Partial(s + [Asked]) && (Over(s) ==> Over(s + [Asked])) && (s == [Sent] ==> Over(s + [Asked]))
    ensures Asked !in s ==> Told !in s
  {
    assert forall k :: 0 <= k < |s| ==> (s + [Asked])[..k] == s[..k];
  }

  lemma OperatePartial(s: seq<Mark>)
    requires s == [Sent]
    ensures Partial(s + [Operated])
  {
  }

  lemma TellPartial(s: seq<Mark>)
    requires Partial(s) && Asked in s && Told !in s && Finished !in s
    ensures Partial(s + [Told])
  {
    assert forall k :: 0 <= k < |s| ==> (s + [Told])[..k] == s[..k];
    assert (s + [Told])[..|s|] == s;
  }

  lemma FinishPartial(s: seq<Mark>)
    requires Partial(s) && |s| > 1 && s[1] == Operated && Finished !in s
    ensures Partial(s + [Finished]) && Over(s + [Finished])
  {
    assert forall k :: 0 <= k < |s| ==> (s + [Finished])[..k] == s[..k];
    assert (s + [Finished])[|s|] == Finished;
  }

  lemma SendKeeps(x: Iface)
    requires SessionOk(x) && PastOk(x) && x.phase.Idle?
    ensures SessionOk(SendIface(x)) && PastOk(SendIface(x))
  {
  }

  lemma AskKeeps(x: Iface)
    requires SessionOk(x) && PastOk(x) && !x.phase.Idle?
    ensures SessionOk(AskIface(x)) && PastOk(AskIface(x))
  {
    hide Partial, Over, Complete;
    AskPartial(x.session);
  }

  lemma OperateKeeps(x: Iface)
    requires SessionOk(x) && PastOk(x) && x.phase.OperationPending?
    ensures SessionOk(OperateIface(x)) && PastOk(OperateIface(x))
  {
    hide Partial, Over, Complete;
    OperatePartial(x.session);
  }

  lemma TellKeeps(x: Iface)
    requires SessionOk(x) && PastOk(x) && x.phase.Busy? && x.cancel && Told !in x.session
    ensures SessionOk(TellIface(x)) && PastOk(TellIface(x))
  {
    hide Partial, Over, Complete;
    TellPartial(x.session);
  }

  lemma FinishKeeps(x: Iface)
    requires SessionOk(x) && PastOk(x) && x.phase.Busy?
    ensures SessionOk(FinishIface(x)) && PastOk(FinishIface(x))
  {
    hide Partial, Over, Complete;
    FinishPartial(x.session);
  }

  lemma AnswerKeeps(x: Iface)
    requires SessionOk(x) && PastOk(x) && x.phase.DonePending?
    ensures SessionOk(AnswerIface(x)) && PastOk(AnswerIface(x))
  {
    hide Partial, Over;
    var s := x.session + [Answered];
    assert s[..|s| - 1] == x.session;
    assert Complete(s);
  }

  // ----- the whole -----

  /** Interface `i` is in order again, and no job of another interface has come or gone. */
  lemma OneIface(w: World, i: IfaceId, x: Iface, q: seq<Job>)
    requires Inv(w) && Distinct(q) && JobsOk(q, x, i) && SessionOk(x) && PastOk(x)
    requires forall j: Job :: !j.Other? && j.i != i ==> (j in q <==> j in w.jobs)
    ensures Inv(SetIface(w, i, x, q))
  {
    hide Distinct, SessionOk, PastOk;
    var t := SetIface(w, i, x, q);
    forall k | k in t.ifaces && k != i
      ensures JobsOk(q, t.ifaces[k], k)
    {
      assert JobsOk(w.jobs, w.ifaces[k], k);
    }
  }

  lemma SendStep(w: World, i: IfaceId)
    requires Inv(w) && Enabled(w, Send(i))
    ensures Inv(Step(w, Send(i)))
  {
    hide SessionOk, PastOk, Set;
    SendKeeps(w.ifaces[i]);
    OneIface(w, i, SendIface(w.ifaces[i]), SendJobs(w.jobs, i));
  }

  lemma AskStep(w: World, i: IfaceId)
    requires Inv(w) && Enabled(w, Ask(i))
    ensures Inv(Step(w, Ask(i)))
  {
    hide Set, PastOk, Partial, Over, Distinct;
    var x := w.ifaces[i];
    AskKeeps(x);
    AskPartial(x.session);
    WithoutDistinct(w.jobs, Operation(i));
    assert x.cancel <==> Asked in x.session;
    OneIface(w, i, AskIface(x), AskJobs(w.jobs, x, i));
  }

  lemma FinishStep(w: World, i: IfaceId)
    requires Inv(w) && Enabled(w, Finish(i))
    ensures Inv(Step(w, Finish(i)))
  {
    hide SessionOk, PastOk, Set, Distinct;
    FinishKeeps(w.ifaces[i]);
    WithoutDistinct(w.jobs, RequestCancel(i));
    OneIface(w, i, FinishIface(w.ifaces[i]), FinishJobs(w.jobs, i));
  }

  /** The job at the front is one whose handler's asserts hold. */
  lemma ExecuteStep(w: World)
    requires Inv(w) && Enabled(w, Execute)
    ensures Inv(Step(w, Execute))
    ensures match w.jobs[0]
      case Operation(i) => i in w.ifaces && w.ifaces[i].phase.OperationPending?
      case RequestCancel(i) => i in w.ifaces && w.ifaces[i].phase.Busy? && w.ifaces[i].cancel
      case Done(i) => i in w.ifaces && w.ifaces[i].phase.DonePending?
      case Other(_) => true
  {
    hide PastOk, Distinct, Partial, Over;
    var j, q := w.jobs[0], w.jobs[1..];
    assert j in w.jobs;
    TailDistinct(w.jobs);
    match j
    case Operation(i) =>
      OperateKeeps(w.ifaces[i]);
      OneIface(w, i, OperateIface(w.ifaces[i]), q);
    case RequestCancel(i) =>
      TellKeeps(w.ifaces[i]);
      OneIface(w, i, TellIface(w.ifaces[i]), q);
    case Done(i) =>
      AnswerKeeps(w.ifaces[i]);
      OneIface(w, i, AnswerIface(w.ifaces[i]), q);
    case Other(n) =>
      forall k | k in w.ifaces
        ensures JobsOk(q, w.ifaces[k], k)
      {
        assert JobsOk(w.jobs, w.ifaces[k], k);
      }
  }

  lemma TailDistinct(q: seq<Job>)
    requires Distinct(q) && q != []
    ensures Distinct(q[1..]) && q[0] !in q[1..] && forall j :: j in q <==> j == q[0] || j in q[1..]
  {
    assert q == [q[0]] + q[1..];
  }

  lemma OtherStep(w: World, e: Event)
    requires Inv(w) && Enabled(w, e) && (e.SetOther? || e.UnsetOther? || e.Add?)
    ensures Inv(Step(w, e))
  {
    hide Distinct, Set, Without;
    if e.UnsetOther? {
      WithoutDistinct(w.jobs, Other(e.n));
    }
    var t := Step(w, e);
    forall k | k in w.ifaces
      ensures JobsOk(t.jobs, w.ifaces[k], k)
    {
      assert JobsOk(w.jobs, w.ifaces[k], k);
    }
  }

  lemma StepKeepsInv(w: World, e: Event)
    requires Inv(w) && Enabled(w, e)
    ensures Inv(Step(w, e))
  {
    hide Inv;
    match e
    case Send(i) => SendStep(w, i);
    case Ask(i) => AskStep(w, i);
    case Finish(i) => FinishStep(w, i);
    case Execute => ExecuteStep(w);
    case _ => OtherStep(w, e);
  }

  // ----- runs -----

  ghost predicate Legal(w: World, es: seq<Event>)
    requires Inv(w)
    decreases |es|
  {
    StepsKeep(w, es);
    es == [] || (Enabled(w, es[0]) && Legal(Step(w, es[0]), es[1..]))
  }

  lemma StepsKeep(w: World, es: seq<Event>)
    requires Inv(w)
    ensures es != [] && Enabled(w, es[0]) ==> Inv(Step(w, es[0]))
  {
    if es != [] && Enabled(w, es[0]) {
      StepKeepsInv(w, es[0]);
    }
  }

  function Run(w: World, es: seq<Event>): (t: World)
    requires Inv(w) && Legal(w, es)
    ensures Inv(t)
    decreases |es|
  {
    if es == [] then w
    else
      StepKeepsInv(w, es[0]);
      Run(Step(w, es[0]), es[1..])
  }

  /** In every run every answered Send has exactly one answer and at most one operation, and none after an early cancel. */
  lemma AnsweredOnce(w: World, es: seq<Event>, i: IfaceId, k: nat, l: nat)
    requires Inv(w) && Legal(w, es) && i in Run(w, es).ifaces && k < |Run(w, es).ifaces[i].past|
    requires l < |Run(w, es).ifaces[i].past[k]|
    ensures var s := Run(w, es).ifaces[i].past[k];
      && (s[l] == Sent <==> l == 0) && (s[l] == Answered <==> l == |s| - 1) && (s[l] == Operated ==> l == 1)
      && (Operated !in s ==> |s| > 1 && s[1] == Asked)
  {
    var s := Run(w, es).ifaces[i].past[k];
    assert PastOk(Run(w, es).ifaces[i]) && Complete(s);
    var p := s[..|s| - 1];
    assert forall m :: 0 <= m < |p| ==> s[m] == p[m];
    if Finished in p {
      var f :| 0 <= f < |p| && p[f] == Finished;
      assert s[1] == Operated;
    }
  }

  // ----- the pending jobs -----

  /** The interface's jobs that the state and the cancel flag call for. */
  function JobsOf(phase: Phase, cancel: bool, i: IfaceId): set<Job> {
    match phase
    case Idle => {}
    case OperationPending => {Operation(i)}
    case Busy => if cancel then {RequestCancel(i)} else {}
    case DonePending => {Done(i)}
  }

  ghost predicate Determined(w: World, i: IfaceId)
    requires i in w.ifaces
  {
    forall j: Job :: !j.Other? && j.i == i ==> (j in w.jobs <==> j in JobsOf(w.ifaces[i].phase, w.ifaces[i].cancel, i))
  }

  /** State and flag determine the pending jobs unless the provider has already been told of the cancel. */
  lemma DeterminedExactly(w: World, i: IfaceId)
    requires Inv(w) && i in w.ifaces
    ensures Determined(w, i) <==> !(w.ifaces[i].phase.Busy? && Told in w.ifaces[i].session)
  {
    hide Distinct, PastOk;
    assert JobsOk(w.jobs, w.ifaces[i], i) && SessionOk(w.ifaces[i]);
    var x := w.ifaces[i];
    if x.phase.Busy? && Told in x.session {
      var k :| 0 <= k < |x.session| && x.session[k] == Told;
      assert Asked in x.session[..k];
      assert RequestCancel(i) !in w.jobs && RequestCancel(i) in JobsOf(x.phase, x.cancel, i);
    }
  }

  lemma RunFirst(w: World, e: Event, es: seq<Event>)
    requires Inv(w) && Enabled(w, e) && Inv(Step(w, e)) && Legal(Step(w, e), es)
    ensures Legal(w, [e] + es) && Run(w, [e] + es) == Run(Step(w, e), es)
  {
    hide Inv, Step;
    assert ([e] + es)[1..] == es;
  }

  /** A run in which they do not: the cancel job has run and the provider is still busy. */
  lemma NotAlwaysDetermined()
    ensures var es := [Add(0)] + ([Send(0)] + ([Execute] + ([Ask(0)] + ([Execute] + []))));
      var w := World(map[], []);
      Inv(w) && Legal(w, es) && 0 in Run(w, es).ifaces && !Determined(Run(w, es), 0)
  {
    hide Inv, Legal, Run, Determined;
    var w0 := World(map[], []);
    EmptyInv();
    StepKeepsInv(w0, Add(0));
    var w1 := Step(w0, Add(0));
    StepKeepsInv(w1, Send(0));
    var w2 := Step(w1, Send(0));
    assert w2.jobs == [Operation(0)];
    StepKeepsInv(w2, Execute);
    var w3 := Step(w2, Execute);
    assert w3.jobs == [] && w3.ifaces[0] == Iface(Busy, false, [Sent, Operated], []);
    StepKeepsInv(w3, Ask(0));
    var w4 := Step(w3, Ask(0));
    assert w4.jobs == [RequestCancel(0)];
    StepKeepsInv(w4, Execute);
    var w5 := Step(w4, Execute);
    assert w5.ifaces[0].session == [Sent, Operated, Asked, Told];
    DeterminedExactly(w5, 0);
    RunNone(w5);
    RunFirst(w4, Execute, []);
    RunFirst(w3, Ask(0), [Execute] + []);
    RunFirst(w2, Execute, [Ask(0)] + ([Execute] + []));
    RunFirst(w1, Send(0), [Execute] + ([Ask(0)] + ([Execute] + [])));
    RunFirst(w0, Add(0), [Send(0)] + ([Execute] + ([Ask(0)] + ([Execute] + []))));
  }

  lemma EmptyInv()
    ensures Inv(World(map[], []))
  {
  }

  lemma RunNone(w: World)
    requires Inv(w)
    ensures Legal(w, []) && Run(w, []) == w
  {
  }
}
