/** What the DHCP client asks for, accepts and reports over any run, told from the events alone. */
module DhcpRuns {
  import opened Wrappers
  import opened Dhcp

  // ----- the story so far -----

  /**
  The reply taken as the offer and the one that confirmed it, the lease last granted, the requests made for the offer, and
  when the client last did something, was last granted the lease and last began to renew it.
  */
  datatype Story = Story(
    phase: Phase, now: int, xid: nat, uses: nat, offer: Option<Reply>, ack: Option<Reply>, lease: nat, tries: nat,
    at: int, granted: int, renewing: int)

  predicate Complete(r: Reply) { r.address != 0 && r.lease.Some? && r.mask.Some? }

  /** An offer for the request the client has broadcast. */
  predicate Takes(s: Story, e: Event) {
    s.phase == SentDiscover && e.Receive? && e.r.kind == OfferReply && e.r.xid == s.xid && Complete(e.r)
  }

  predicate OfOffer(s: Story, r: Reply) { s.offer.Some? && r.xid == s.xid && r.server == s.offer.value.server }

  /** The server of the offer grants the offered address. */
  predicate Confirms(s: Story, e: Event) {
    && (s.phase == SentRequest || s.phase == Renewing)
    && e.Receive? && e.r.kind == AckReply && Complete(e.r) && OfOffer(s, e.r) && e.r.address == s.offer.value.address
  }

  /** The server of the offer refuses it, or takes it back. */
  predicate Refuses(s: Story, e: Event) {
    && (s.phase == SentRequest || s.phase == Finished || s.phase == Renewing)
    && e.Receive? && e.r.kind == NakReply && OfOffer(s, e.r)
  }

  /** The client begins anew: nobody answered, four requests were in vain, or the lease is over. */
  predicate Restarts(s: Story, e: Event) {
    e.Fire? && (e.t == ResetTimer || e.t == LeaseTimer || (e.t == RequestTimer && s.tries == 4))
  }

  function Begun(s: Story, anew: bool, random: Option<nat>): Story {
    var x := if anew then (if random.Some? then random.value else 3416960072) else s.xid;
    s.(phase := SentDiscover, xid := x, uses := if anew then 1 else s.uses + 1, at := s.now)
  }

  function StoryStep(s: Story, e: Event): Story {
    if e.Pass? then s.(now := s.now + e.dt)
    else if Takes(s, e) then s.(phase := SentRequest, offer := Some(e.r), tries := 1, at := s.now)
    else if Confirms(s, e) then
      s.(phase := Finished, ack := if s.phase == SentRequest then Some(e.r) else s.ack, lease := e.r.lease.value,
         at := s.now, granted := s.now)
    else if Refuses(s, e) then s.(phase := Resetting, at := s.now)
    else if Restarts(s, e) then Begun(s, s.phase == Resetting || e.t == LeaseTimer || s.uses == 8, e.random)
    else if e.Fire? && e.t == RequestTimer then s.(tries := s.tries + 1, at := s.now)
    else if e.Fire? && e.t == RenewTimer then s.(phase := Renewing, at := s.now, renewing := s.now)
    else if e.Fire? then s.(at := s.now)
    else s
  }

  function StoryRun(s: Story, es: seq<Event>): Story
    decreases |es|
  {
    if es == [] then s else StoryRun(StoryStep(s, es[0]), es[1..])
  }

  function Beginning(now: int, random: Option<nat>): Story {
    Begun(Story(Resetting, now, 0, 0, None, None, 0, 0, now, now, now), true, random)
  }

  // ----- the client follows it -----

  /** The timers that run and when each is due. */
  function Due(s: Story): map<Timer, int> {
    match s.phase
    case Resetting => map[ResetTimer := s.at + 4000]
    case SentDiscover => map[ResetTimer := s.at + 4000]
    case SentRequest => map[RequestTimer := s.at + 3000]
    case Finished => map[RenewTimer := s.granted + 500 * s.lease]
    case Renewing => map[RenewRequestTimer := s.at + 20000, LeaseTimer := s.renewing + 500 * s.lease]
  }

  predicate Asks(s: Story) { s.phase == SentRequest || s.phase == Finished || s.phase == Renewing }

  predicate Holds(s: Story) { s.phase == Finished || s.phase == Renewing }

  /** The address held is that of the offer, and the rest is what the reply that confirmed it said. */
  predicate Given(s: Story, a: Acked) {
    && s.offer.Some? && s.ack.Some? && s.ack.value.mask.Some?
    && s.ack.value.address == s.offer.value.address && s.ack.value.server == s.offer.value.server
    && a == Acked(s.lease, s.ack.value.mask.value, s.ack.value.router, s.ack.value.dns)
  }

  predicate Follows(c: Core, s: Story) {
    && c.phase == s.phase && c.now == s.now && c.xid == s.xid && c.xidUses == s.uses && c.timers == Due(s)
    && (Asks(s) ==> s.offer.Some? && c.offered == Offer(s.offer.value.address, s.offer.value.server))
    && (s.phase == SentRequest ==> c.requests == s.tries)
    && (Holds(s) ==> Given(s, c.acked) && c.ackedAt == s.granted)
  }

  lemma BeginningFollows(now: int, random: Option<nat>)
    ensures Follows(Start(now, random), Beginning(now, random))
  {
  }

  lemma NakFollows(c: Core, r: Reply, s: Story)
    requires Inv(c) && Follows(c, s) && r.kind == NakReply
    ensures Follows(Step(c, Receive(r)), StoryStep(s, Receive(r)))
  {
    if Refuses(s, Receive(r)) {
      assert OnNak(c, r).timers == map[ResetTimer := s.now + 4000];
    }
  }

  lemma OfferFollows(c: Core, r: Reply, s: Story)
    requires Inv(c) && Follows(c, s) && r.kind == OfferReply
    ensures Follows(Step(c, Receive(r)), StoryStep(s, Receive(r)))
  {
    if Takes(s, Receive(r)) {
      assert OnOffer(c, r).timers == map[RequestTimer := s.now + 3000];
    }
  }

  lemma AckFollows(c: Core, r: Reply, s: Story)
    requires Inv(c) && Follows(c, s) && r.kind == AckReply
    ensures Follows(Step(c, Receive(r)), StoryStep(s, Receive(r)))
  {
    hide Inv;
    if Confirms(s, Receive(r)) && s.phase == SentRequest {
      assert OnAck(c, r).timers == map[RenewTimer := s.now + 500 * r.lease.value];
    } else if Confirms(s, Receive(r)) {
      assert OnRenewed(c, r).timers == map[RenewTimer := s.now + 500 * r.lease.value];
    }
  }

  lemma ReplyFollows(c: Core, r: Reply, s: Story)
    requires Inv(c) && Follows(c, s)
    ensures Follows(Step(c, Receive(r)), StoryStep(s, Receive(r)))
  {
    hide Inv, Follows, Step, StoryStep;
    match r.kind
    case OfferReply => OfferFollows(c, r, s);
    case AckReply => AckFollows(c, r, s);
    case NakReply => NakFollows(c, r, s);
  }

  lemma ResetFollows(c: Core, random: Option<nat>, s: Story)
    requires Inv(c) && Follows(c, s) && Enabled(c, Fire(ResetTimer, random))
    ensures Follows(Step(c, Fire(ResetTimer, random)), StoryStep(s, Fire(ResetTimer, random)))
  {
    assert Step(c, Fire(ResetTimer, random)).timers == map[ResetTimer := s.now + 4000];
  }

  lemma InVainFollows(c: Core, random: Option<nat>, s: Story)
    requires Inv(c) && Follows(c, s) && Enabled(c, Fire(RequestTimer, random)) && s.tries == 4
    ensures Follows(Step(c, Fire(RequestTimer, random)), StoryStep(s, Fire(RequestTimer, random)))
  {
    assert Step(c, Fire(RequestTimer, random)).timers == map[ResetTimer := s.now + 4000];
  }

  lemma LeaseFollows(c: Core, random: Option<nat>, s: Story)
    requires Inv(c) && Follows(c, s) && Enabled(c, Fire(LeaseTimer, random))
    ensures Follows(Step(c, Fire(LeaseTimer, random)), StoryStep(s, Fire(LeaseTimer, random)))
  {
    assert Step(c, Fire(LeaseTimer, random)).timers == map[ResetTimer := s.now + 4000];
  }

  lemma RequestFollows(c: Core, random: Option<nat>, s: Story)
    requires Inv(c) && Follows(c, s) && Enabled(c, Fire(RequestTimer, random)) && s.tries != 4
    ensures Follows(Step(c, Fire(RequestTimer, random)), StoryStep(s, Fire(RequestTimer, random)))
  {
    assert Step(c, Fire(RequestTimer, random)).timers == map[RequestTimer := s.now + 3000];
  }

  lemma RenewFollows(c: Core, t: Timer, random: Option<nat>, s: Story)
    requires Inv(c) && Follows(c, s) && Enabled(c, Fire(t, random)) && (t == RenewTimer || t == RenewRequestTimer)
    ensures Follows(Step(c, Fire(t, random)), StoryStep(s, Fire(t, random)))
  {
    assert Step(c, Fire(t, random)).timers == Due(StoryStep(s, Fire(t, random)));
  }

  lemma TimerFollows(c: Core, t: Timer, random: Option<nat>, s: Story)
    requires Inv(c) && Follows(c, s) && Enabled(c, Fire(t, random))
    ensures Follows(Step(c, Fire(t, random)), StoryStep(s, Fire(t, random)))
  {
    hide Inv, Follows, Step, StoryStep;
    if t == RequestTimer && s.tries == 4 {
      InVainFollows(c, random, s);
    } else {
      match t
      case ResetTimer => ResetFollows(c, random, s);
      case RequestTimer => RequestFollows(c, random, s);
      case RenewTimer => RenewFollows(c, t, random, s);
      case RenewRequestTimer => RenewFollows(c, t, random, s);
      case LeaseTimer => LeaseFollows(c, random, s);
    }
  }

  lemma FollowsStep(c: Core, e: Event, s: Story)
    requires Inv(c) && Enabled(c, e) && Follows(c, s)
    ensures Follows(Step(c, e), StoryStep(s, e))
  {
    match e
    case Receive(r) => ReplyFollows(c, r, s);
    case Fire(t, random) => TimerFollows(c, t, random, s);
    case SendDone =>
    case Pass(_) =>
  }

  /** The client's state, timers, offer and lease are at any time what its story says. */
  lemma {:induction false} FollowsRun(c: Core, es: seq<Event>, s: Story)
    requires Inv(c) && Legal(c, es) && Follows(c, s)
    ensures Follows(Run(c, es), StoryRun(s, es))
    decreases |es|
  {
    hide Inv, Follows, Step, StoryStep;
    if es != [] {
      StepKeepsInv(c, es[0]);
      FollowsStep(c, es[0], s);
      FollowsRun(Step(c, es[0]), es[1..], StoryStep(s, es[0]));
    }
  }

  // ----- what is sent -----

  /** A DISCOVER begins; a REQUEST names the offer, with its server while requesting and without while renewing. */
  predicate Rightful(s: Story, m: Message) {
    match m
    case Discover(x) => s.phase == SentDiscover && x == s.xid
    case Request(x, a, v) =>
      && x == s.xid && s.offer.Some? && a == s.offer.value.address
      && (s.phase == SentRequest || s.phase == Renewing)
      && v == if s.phase == SentRequest then Some(s.offer.value.server) else None
  }

  /** Exactly one message more has been sent, and rightly. */
  predicate OneMore(c: Core, d: Core, t: Story) {
    d.sending && |d.sent| == |c.sent| + 1 && c.sent <= d.sent && Rightful(t, d.sent[|c.sent|])
  }

  lemma ReplySent(c: Core, r: Reply, s: Story)
    requires Inv(c) && Follows(c, s)
    ensures var d := Step(c, Receive(r));
      if !c.sending && Takes(s, Receive(r)) then OneMore(c, d, StoryStep(s, Receive(r)))
      else d.sent == c.sent && d.sending == c.sending
  {
    hide Inv;
  }

  lemma BegunSent(c: Core, t: Timer, random: Option<nat>, s: Story)
    requires Inv(c) && Follows(c, s) && Enabled(c, Fire(t, random)) && Restarts(s, Fire(t, random))
    ensures var d := Step(c, Fire(t, random));
      if !c.sending then OneMore(c, d, StoryStep(s, Fire(t, random))) else d.sent == c.sent && d.sending
  {
  }

  lemma RequestSent(c: Core, t: Timer, random: Option<nat>, s: Story)
    requires Inv(c) && Follows(c, s) && Enabled(c, Fire(t, random)) && !Restarts(s, Fire(t, random))
    ensures var d := Step(c, Fire(t, random));
      if !c.sending then OneMore(c, d, StoryStep(s, Fire(t, random))) else d.sent == c.sent && d.sending
  {
  }

  lemma TimerSent(c: Core, t: Timer, random: Option<nat>, s: Story)
    requires Inv(c) && Follows(c, s) && Enabled(c, Fire(t, random))
    ensures var d := Step(c, Fire(t, random));
      if !c.sending then OneMore(c, d, StoryStep(s, Fire(t, random))) else d.sent == c.sent && d.sending
  {
    hide Inv, Follows, Step, StoryStep, OneMore;
    if Restarts(s, Fire(t, random)) {
      BegunSent(c, t, random, s);
    } else {
      RequestSent(c, t, random, s);
    }
  }

  /** The client sends on taking an offer and when a timer fires, unless it is still sending, and never otherwise. */
  lemma SentStep(c: Core, e: Event, s: Story)
    requires Inv(c) && Enabled(c, e) && Follows(c, s)
    ensures var d, t := Step(c, e), StoryStep(s, e);
      if !c.sending && (Takes(s, e) || e.Fire?)
      then OneMore(c, d, t) else d.sent == c.sent && (d.sending <==> c.sending && e != SendDone)
  {
    hide Inv, Follows, OnReply, OnTimer, StoryStep, OneMore;
    match e
    case Receive(r) => ReplySent(c, r, s);
    case Fire(t, random) => TimerSent(c, t, random, s);
    case SendDone =>
    case Pass(_) =>
  }

  /** Every message ever sent was rightful when it was sent. */
  lemma {:induction false} EverySent(c: Core, es: seq<Event>, s: Story, i: nat)
    requires Inv(c) && Legal(c, es) && Follows(c, s) && |c.sent| <= i < |Run(c, es).sent|
    ensures exists k :: 0 < k <= |es| && Rightful(StoryRun(s, es[..k]), Run(c, es).sent[i])
    decreases |es|
  {
    hide Inv, Follows, Step, StoryStep, Rightful;
    if es != [] {
      StepKeepsInv(c, es[0]);
      FollowsStep(c, es[0], s);
      SentStep(c, es[0], s);
      var d, t := Step(c, es[0]), StoryStep(s, es[0]);
      if i < |d.sent| {
        SentStays(d, es[1..]);
        assert es[..1][1..] == [] && StoryRun(t, []) == t;
        assert Rightful(StoryRun(s, es[..1]), Run(c, es).sent[i]);
      } else {
        EverySent(d, es[1..], t, i);
        var k :| 0 < k <= |es[1..]| && Rightful(StoryRun(t, es[1..][..k]), Run(c, es).sent[i]);
        assert es[..k + 1][1..] == es[1..][..k];
        assert Rightful(StoryRun(s, es[..k + 1]), Run(c, es).sent[i]);
      }
    }
  }

  lemma TimerGrows(c: Core, t: Timer, random: Option<nat>)
    ensures c.sent <= OnTimer(c, t, random).sent
  {
  }

  lemma SentGrows(c: Core, e: Event)
    ensures c.sent <= Step(c, e).sent
  {
    hide OnTimer;
    if e.Fire? {
      TimerGrows(c, e.t, e.random);
    }
  }

  lemma {:induction false} SentStays(c: Core, es: seq<Event>)
    ensures c.sent <= Run(c, es).sent
    decreases |es|
  {
    hide Step;
    if es != [] {
      SentGrows(c, es[0]);
      SentStays(Step(c, es[0]), es[1..]);
    }
  }

  // ----- what is reported -----

  /** UP is reported on the first grant of an offer, DOWN when a held address is refused or its lease is over. */
  lemma ReportStep(c: Core, e: Event, s: Story)
    requires Inv(c) && Enabled(c, e) && Follows(c, s)
    ensures var d := Step(c, e);
      d.reports == c.reports + if s.phase == SentRequest && Confirms(s, e) then [Up]
                               else if (Holds(s) && Refuses(s, e)) || (e.Fire? && e.t == LeaseTimer) then [Down]
                               else []
  {
  }

  // ----- the main results -----

  lemma Reached(now: int, random: Option<nat>, es: seq<Event>)
    requires Legal(Start(now, random), es)
    ensures Inv(Run(Start(now, random), es)) && Follows(Run(Start(now, random), es), StoryRun(Beginning(now, random), es))
  {
    hide Inv, Follows, Start, Beginning;
    StartInv(now, random, 0);
    RunKeepsInv(Start(now, random), es);
    BeginningFollows(now, random);
    FollowsRun(Start(now, random), es, Beginning(now, random));
  }

  /** Whatever is sent in a run from the start is a rightful DISCOVER or REQUEST. */
  lemma RequestsNameOffer(now: int, random: Option<nat>, es: seq<Event>, i: nat)
    requires Legal(Start(now, random), es) && i < |Run(Start(now, random), es).sent|
    ensures exists k :: 0 <= k <= |es| && Rightful(StoryRun(Beginning(now, random), es[..k]), Run(Start(now, random), es).sent[i])
  {
    hide Inv, Follows, Step, StoryStep;
    var c, s := Start(now, random), Beginning(now, random);
    StartInv(now, random, 0);
    BeginningFollows(now, random);
    if i == 0 {
      SentStays(c, es);
      assert StoryRun(s, es[..0]) == s;
      assert Rightful(StoryRun(s, es[..0]), Run(c, es).sent[i]);
    } else {
      EverySent(c, es, s, i);
    }
  }

  /**
  After any run: UP is reported exactly when the server of the last offer taken grants its address, and the client then
  has the mask, router, name servers and lease of that very reply.
  */
  lemma UpExactly(now: int, random: Option<nat>, es: seq<Event>, e: Event)
    requires Legal(Start(now, random), es) && Enabled(Run(Start(now, random), es), e)
    ensures var c, s := Run(Start(now, random), es), StoryRun(Beginning(now, random), es);
      var d := Step(c, e);
      && (d.reports == c.reports + [Up] <==> s.phase == SentRequest && Confirms(s, e))
      && (s.phase == SentRequest && Confirms(s, e) ==>
            d.acked == Acked(e.r.lease.value, e.r.mask.value, e.r.router, e.r.dns) && d.ackedAt == c.now && Holding(d))
  {
    hide Inv, Legal, Run, Start, Beginning, StoryRun;
    Reached(now, random, es);
    var c, s := Run(Start(now, random), es), StoryRun(Beginning(now, random), es);
    ReportStep(c, e, s);
    assert (c.reports + [Down])[|c.reports|] == Down && (c.reports + [Up])[|c.reports|] == Up;
  }

  /** After any run: a refusal by the server of the last offer taken ends it, and is reported if the address was held. */
  lemma RefusalEnds(now: int, random: Option<nat>, es: seq<Event>, e: Event)
    requires Legal(Start(now, random), es) && Enabled(Run(Start(now, random), es), e)
    requires Refuses(StoryRun(Beginning(now, random), es), e)
    ensures var c := Run(Start(now, random), es); var d := Step(c, e);
      d.phase == Resetting && !Holding(d) && d.reports == c.reports + if Holding(c) then [Down] else []
  {
    hide Inv, Legal, Run, Start, Beginning, StoryRun;
    Reached(now, random, es);
    var c, s := Run(Start(now, random), es), StoryRun(Beginning(now, random), es);
    ReportStep(c, e, s);
  }

  /** After any run: an address that is held is given up in no other way than by such a refusal or the end of the lease. */
  lemma GivenUpExactly(now: int, random: Option<nat>, es: seq<Event>, e: Event)
    requires Legal(Start(now, random), es) && Enabled(Run(Start(now, random), es), e) && Holding(Run(Start(now, random), es))
    ensures var c, s := Run(Start(now, random), es), StoryRun(Beginning(now, random), es);
      && (!Holding(Step(c, e)) <==> Refuses(s, e) || (e.Fire? && e.t == LeaseTimer))
      && (!Holding(Step(c, e)) <==> Step(c, e).reports == c.reports + [Down])
  {
    hide Legal, Run, Start, Beginning, StoryRun;
    Reached(now, random, es);
    var c, s := Run(Start(now, random), es), StoryRun(Beginning(now, random), es);
    ReportStep(c, e, s);
    FollowsStep(c, e, s);
  }
}
