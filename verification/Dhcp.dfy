/** The DHCP client: five states, five timers, and reports that the address is up or down. */
module Dhcp {
  import opened Wrappers

  const RESET_TIMEOUT: int := 4000
  const REQUEST_TIMEOUT: int := 3000
  const RENEW_REQUEST_TIMEOUT: int := 20000
  const MAX_REQUESTS: nat := 4
  const XID_REUSE_MAX: nat := 8
  const FALLBACK_XID: nat := 3416960072

  function RenewTimeout(lease: nat): int { 500 * lease }

  function LeaseTimeout(lease: nat): int { 1000 * lease - RenewTimeout(lease) }

  datatype Phase = Resetting | SentDiscover | SentRequest | Finished | Renewing

  datatype Timer = ResetTimer | RequestTimer | RenewTimer | RenewRequestTimer | LeaseTimer

  datatype Offer = Offer(address: nat, server: nat)

  datatype Acked = Acked(lease: nat, mask: nat, router: Option<nat>, dns: seq<nat>)

  datatype Report = Up | Down

  datatype Message = Discover(xid: nat) | Request(xid: nat, address: nat, server: Option<nat>)

  /** The running timers with the time each is due; `sent` and `reports` are what the client has done so far. */
  datatype Core = Core(
    phase: Phase,
    now: int,
    timers: map<Timer, int>,
    requests: nat,
    xid: nat,
    xidUses: nat,
    offered: Offer,
    acked: Acked,
    sending: bool,
    sent: seq<Message>,
    reports: seq<Report>,
    ackedAt: int)

  /** A reply that has passed the checks of its header and options. */
  datatype Kind = OfferReply | AckReply | NakReply
  datatype Reply = Reply(kind: Kind, xid: nat, server: nat, address: nat, lease: Option<nat>, mask: Option<nat>,
                         router: Option<nat>, dns: seq<nat>)

  // ----- what the handlers do -----

  function Set(c: Core, t: Timer, after: int): Core { c.(timers := c.timers[t := c.now + after]) }

  function Stop(c: Core, t: Timer): Core { c.(timers := c.timers - {t}) }

  /** Nothing is sent while an earlier message still is. */
  function Send(c: Core, m: Message): Core {
    if c.sending then c else c.(sending := true, sent := c.sent + [m])
  }

  function Tell(c: Core, r: Report): Core { c.(reports := c.reports + [r]) }

  function StartProcess(c: Core, newXid: bool, random: Option<nat>): Core {
    var d := if newXid || c.xidUses == XID_REUSE_MAX
             then c.(xid := if random.Some? then random.value else FALLBACK_XID, xidUses := 0) else c;
    var e := d.(xidUses := d.xidUses + 1);
    Set(Send(e, Discover(e.xid)), ResetTimer, RESET_TIMEOUT).(phase := SentDiscover)
  }

  function OnNak(c: Core, r: Reply): Core {
    if !(c.phase.SentRequest? || c.phase.Finished? || c.phase.Renewing?) || r.server != c.offered.server then c
    else if c.phase.SentRequest? then
      Set(Stop(c, RequestTimer), ResetTimer, RESET_TIMEOUT).(phase := Resetting)
    else if c.phase.Finished? then
      Tell(Set(Stop(c, RenewTimer), ResetTimer, RESET_TIMEOUT).(phase := Resetting), Down)
    else
      Tell(Set(Stop(Stop(c, RenewRequestTimer), LeaseTimer), ResetTimer, RESET_TIMEOUT).(phase := Resetting), Down)
  }

  function OnOffer(c: Core, r: Reply): Core {
    var o := Offer(r.address, r.server);
    var d := Send(c.(offered := o), Request(c.xid, o.address, Some(o.server)));
    Set(Stop(d, ResetTimer), RequestTimer, REQUEST_TIMEOUT).(phase := SentRequest, requests := 1)
  }

  predicate Accepts(c: Core, r: Reply) { r.address == c.offered.address && r.server == c.offered.server }

  function OnAck(c: Core, r: Reply): Core
    requires r.lease.Some? && r.mask.Some?
  {
    var d := Stop(c.(acked := Acked(r.lease.value, r.mask.value, r.router, r.dns), ackedAt := c.now), RequestTimer);
    Tell(Set(d, RenewTimer, RenewTimeout(r.lease.value)).(phase := Finished), Up)
  }

  /** A renewal changes the lease time only, and is no news. */
  function OnRenewed(c: Core, r: Reply): Core
    requires r.lease.Some?
  {
    var d := Stop(Stop(c.(acked := c.acked.(lease := r.lease.value), ackedAt := c.now), RenewRequestTimer), LeaseTimer);
    Set(d, RenewTimer, RenewTimeout(r.lease.value)).(phase := Finished)
  }

  function OnReply(c: Core, r: Reply): Core {
    if c.phase.Resetting? || r.xid != c.xid then c
    else if r.kind.NakReply? then OnNak(c, r)
    else if r.address == 0 || r.lease.None? || r.mask.None? then c
    else if c.phase.SentDiscover? && r.kind.OfferReply? then OnOffer(c, r)
    else if c.phase.SentRequest? && r.kind.AckReply? && Accepts(c, r) then OnAck(c, r)
    else if c.phase.Renewing? && r.kind.AckReply? && Accepts(c, r) then OnRenewed(c, r)
    else c
  }

  function OnTimer(c: Core, t: Timer, random: Option<nat>): Core {
    var d := Stop(c, t);
    match t
    case ResetTimer => StartProcess(d, c.phase.Resetting?, random)
    case RequestTimer =>
      if c.requests == MAX_REQUESTS then StartProcess(d, false, random)
      else Set(Send(d, Request(c.xid, c.offered.address, Some(c.offered.server))), RequestTimer, REQUEST_TIMEOUT)
             .(requests := c.requests + 1)
    case RenewTimer =>
      var e := Set(Send(d, Request(c.xid, c.offered.address, None)), RenewRequestTimer, RENEW_REQUEST_TIMEOUT);
      Set(e, LeaseTimer, LeaseTimeout(c.acked.lease)).(phase := Renewing)
    case RenewRequestTimer =>
      Set(Send(d, Request(c.xid, c.offered.address, None)), RenewRequestTimer, RENEW_REQUEST_TIMEOUT)
    case LeaseTimer => Tell(StartProcess(Stop(d, RenewRequestTimer), true, random), Down)
  }

  datatype Event = Receive(r: Reply) | Fire(t: Timer, random: Option<nat>) | SendDone | Pass(dt: nat)

  predicate Enabled(c: Core, e: Event) {
    match e
    case Fire(t, _) => t in c.timers && c.timers[t] <= c.now
    case SendDone => c.sending
    case _ => true
  }

  function Step(c: Core, e: Event): Core {
    match e
    case Receive(r) => OnReply(c, r)
    case Fire(t, random) => OnTimer(c, t, random)
    case SendDone => c.(sending := false)
    case Pass(dt) => c.(now := c.now + dt)
  }

  function Start(now: int, random: Option<nat>): Core {
    StartProcess(Core(Resetting, now, map[], 0, 0, 0, Offer(0, 0), Acked(0, 0, None, []), false, [], [], now), true, random)
  }

  // ----- what is always true -----

  /** The timers that run in each state. */
  function TimersOf(p: Phase): set<Timer> {
    match p
    case Resetting => {ResetTimer}
    case SentDiscover => {ResetTimer}
    case SentRequest => {RequestTimer}
    case Finished => {RenewTimer}
    case Renewing => {RenewRequestTimer, LeaseTimer}
  }

  predicate Holding(c: Core) { c.phase.Finished? || c.phase.Renewing? }

  /** Up, down, up, down, and so on. */
  predicate Alternates(rs: seq<Report>) {
    forall i :: 0 <= i < |rs| ==> rs[i] == if i % 2 == 0 then Up else Down
  }

  predicate Inv(c: Core) {
    && c.timers.Keys == TimersOf(c.phase)
    && Alternates(c.reports) && (Holding(c) <==> |c.reports| % 2 == 1)
    && (c.phase.SentRequest? ==> 1 <= c.requests <= MAX_REQUESTS)
    && 1 <= c.xidUses <= XID_REUSE_MAX
  }

  lemma StartInv(now: int, random: Option<nat>, late: nat)
    ensures Inv(Start(now, random)) && OnTime(Start(now, random), late)
  {
  }

  lemma NakKeeps(c: Core, r: Reply, late: nat)
    requires Inv(c)
    ensures Inv(OnNak(c, r)) && (OnTime(c, late) ==> OnTime(OnNak(c, r), late))
  {
    assert OnNak(c, r).timers.Keys == TimersOf(OnNak(c, r).phase);
  }

  lemma OfferKeeps(c: Core, r: Reply, late: nat)
    requires Inv(c) && c.phase.SentDiscover?
    ensures Inv(OnOffer(c, r)) && (OnTime(c, late) ==> OnTime(OnOffer(c, r), late))
  {
    assert OnOffer(c, r).timers.Keys == TimersOf(SentRequest);
  }

  lemma AckKeeps(c: Core, r: Reply, late: nat)
    requires Inv(c) && c.phase.SentRequest? && r.lease.Some? && r.mask.Some?
    ensures Inv(OnAck(c, r)) && (OnTime(c, late) ==> OnTime(OnAck(c, r), late))
  {
    assert OnAck(c, r).timers.Keys == TimersOf(Finished);
  }

  lemma RenewedKeeps(c: Core, r: Reply, late: nat)
    requires Inv(c) && c.phase.Renewing? && r.lease.Some?
    ensures Inv(OnRenewed(c, r)) && (OnTime(c, late) ==> OnTime(OnRenewed(c, r), late))
  {
    assert OnRenewed(c, r).timers.Keys == TimersOf(Finished);
  }

  lemma ReplyKeeps(c: Core, r: Reply, late: nat)
    requires Inv(c)
    ensures Inv(OnReply(c, r)) && (OnTime(c, late) ==> OnTime(OnReply(c, r), late))
  {
    hide Inv, OnTime, OnNak, OnOffer, OnAck, OnRenewed;
    NakKeeps(c, r, late);
    if c.phase.SentDiscover? {
      OfferKeeps(c, r, late);
    }
    if c.phase.SentRequest? && r.lease.Some? && r.mask.Some? {
      AckKeeps(c, r, late);
    }
    if c.phase.Renewing? && r.lease.Some? {
      RenewedKeeps(c, r, late);
    }
  }

  lemma ResetKeeps(c: Core, random: Option<nat>, late: nat)
    requires Inv(c) && Enabled(c, Fire(ResetTimer, random))
    ensures var d := OnTimer(c, ResetTimer, random); Inv(d) && (OnTime(c, late) ==> OnTime(d, late))
  {
    assert OnTimer(c, ResetTimer, random).timers.Keys == TimersOf(SentDiscover);
  }

  lemma RequestKeeps(c: Core, random: Option<nat>, late: nat)
    requires Inv(c) && Enabled(c, Fire(RequestTimer, random))
    ensures var d := OnTimer(c, RequestTimer, random); Inv(d) && (OnTime(c, late) ==> OnTime(d, late))
  {
    assert OnTimer(c, RequestTimer, random).timers.Keys == TimersOf(OnTimer(c, RequestTimer, random).phase);
  }

  lemma RenewKeeps(c: Core, random: Option<nat>, late: nat)
    requires Inv(c) && Enabled(c, Fire(RenewTimer, random))
    ensures var d := OnTimer(c, RenewTimer, random); Inv(d) && (OnTime(c, late) ==> OnTime(d, late))
  {
    assert OnTimer(c, RenewTimer, random).timers.Keys == TimersOf(Renewing);
  }

  lemma RenewRequestKeeps(c: Core, random: Option<nat>, late: nat)
    requires Inv(c) && Enabled(c, Fire(RenewRequestTimer, random))
    ensures var d := OnTimer(c, RenewRequestTimer, random); Inv(d) && (OnTime(c, late) ==> OnTime(d, late))
  {
    assert OnTimer(c, RenewRequestTimer, random).timers.Keys == TimersOf(Renewing);
  }

  lemma LeaseKeeps(c: Core, random: Option<nat>, late: nat)
    requires Inv(c) && Enabled(c, Fire(LeaseTimer, random))
    ensures var d := OnTimer(c, LeaseTimer, random); Inv(d) && (OnTime(c, late) ==> OnTime(d, late))
  {
    assert OnTimer(c, LeaseTimer, random).timers.Keys == TimersOf(SentDiscover);
  }

  lemma TimerKeeps(c: Core, t: Timer, random: Option<nat>, late: nat)
    requires Inv(c) && Enabled(c, Fire(t, random))
    ensures var d := OnTimer(c, t, random); Inv(d) && (OnTime(c, late) ==> OnTime(d, late))
  {
    hide Inv, OnTime, OnTimer;
    match t
    case ResetTimer => ResetKeeps(c, random, late);
    case RequestTimer => RequestKeeps(c, random, late);
    case RenewTimer => RenewKeeps(c, random, late);
    case RenewRequestTimer => RenewRequestKeeps(c, random, late);
    case LeaseTimer => LeaseKeeps(c, random, late);
  }

  /** Whenever timers fire and whatever is received, the running timers are those of the state and the reports alternate. */
  lemma StepKeepsInv(c: Core, e: Event)
    requires Inv(c) && Enabled(c, e)
    ensures Inv(Step(c, e))
  {
    if e.Receive? {
      ReplyKeeps(c, e.r, 0);
    } else if e.Fire? {
      TimerKeeps(c, e.t, e.random, 0);
    }
  }

  // ----- timers that fire on time -----

  /**
  No running timer is overdue by more than `late`; so the address is renewed half-way through the lease and given up at
  its end (section 4.4.5 of RFC 2131), which is set when the renewal timer fires and so shares its delay.
  */
  predicate OnTime(c: Core, late: nat) {
    && (forall t :: t in c.timers ==> c.now <= c.timers[t] + late)
    && c.ackedAt <= c.now
    && (c.phase.Finished? && RenewTimer in c.timers ==> c.timers[RenewTimer] == c.ackedAt + RenewTimeout(c.acked.lease))
    && (c.phase.Renewing? && LeaseTimer in c.timers ==>
          0 <= c.timers[LeaseTimer] - (c.ackedAt + 1000 * c.acked.lease) <= late)
  }

  /** Time does not pass more than `late` beyond a timer that is due. */
  predicate Punctual(c: Core, e: Event, late: nat) {
    e.Pass? ==> forall t :: t in c.timers ==> c.now + e.dt <= c.timers[t] + late
  }

  lemma PunctualStep(c: Core, e: Event, late: nat)
    requires Inv(c) && OnTime(c, late) && Enabled(c, e) && Punctual(c, e, late)
    ensures OnTime(Step(c, e), late)
  {
    if e.Receive? {
      ReplyKeeps(c, e.r, late);
    } else if e.Fire? {
      TimerKeeps(c, e.t, e.random, late);
    }
  }

  predicate Legal(c: Core, es: seq<Event>)
    decreases |es|
  {
    es == [] || (Enabled(c, es[0]) && Legal(Step(c, es[0]), es[1..]))
  }

  predicate AllPunctual(c: Core, es: seq<Event>, late: nat)
    decreases |es|
  {
    es == [] || (Punctual(c, es[0], late) && AllPunctual(Step(c, es[0]), es[1..], late))
  }

  function Run(c: Core, es: seq<Event>): Core
    decreases |es|
  {
    if es == [] then c else Run(Step(c, es[0]), es[1..])
  }

  lemma {:induction false} RunKeepsInv(c: Core, es: seq<Event>)
    requires Inv(c) && Legal(c, es)
    ensures Inv(Run(c, es))
    decreases |es|
  {
    if es != [] {
      StepKeepsInv(c, es[0]);
      RunKeepsInv(Step(c, es[0]), es[1..]);
    }
  }

  /**
  When no timer fires more than `late` after it is due, the address is never held past its lease, counted from the last
  acknowledgement, by more than the delay of the two timers that end it; with `late` 0, never past its lease.
  */
  lemma {:induction false} LeaseRespected(c: Core, es: seq<Event>, late: nat)
    requires Inv(c) && OnTime(c, late) && Legal(c, es) && AllPunctual(c, es, late)
    ensures var t := Run(c, es); Holding(t) ==> t.ackedAt <= t.now <= t.ackedAt + 1000 * t.acked.lease + 2 * late
    decreases |es|
  {
    if es == [] {
      assert c.phase.Finished? ==> RenewTimer in c.timers;
      assert c.phase.Renewing? ==> LeaseTimer in c.timers;
    } else {
      StepKeepsInv(c, es[0]);
      PunctualStep(c, es[0], late);
      LeaseRespected(Step(c, es[0]), es[1..], late);
    }
  }
}
