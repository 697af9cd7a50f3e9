/**
The DHCP client as the source runs it: state, timers and counters changed in place by the handlers.
*/
module DhcpObject {
  import opened Wrappers
  import opened H = Dhcp

  class BDHCPClientCore {
    var phase: Phase
    var timers: map<Timer, int>
    var requests: nat
    var xid: nat
    var xidUses: nat
    var offered: Offer
    var acked: Acked
    var sending: bool
    var sent: seq<Message>
    var reports: seq<Report>
    var now: int
    ghost var ackedAt: int

    ghost function State(): Core
      reads this
    {
      Core(phase, now, timers, requests, xid, xidUses, offered, acked, sending, sent, reports, ackedAt)
    }

    ghost predicate Valid()
      reads this
    {
      H.Inv(State())
    }

    constructor (now: int, random: Option<nat>)
      ensures Valid() && State() == Start(now, random)
    {
      phase, timers, requests, xidUses, offered, acked := Resetting, map[], 0, 0, Offer(0, 0), Acked(0, 0, None, []);
      sending, sent, reports, this.now, ackedAt := false, [], [], now, now;
      xid := 0;
      new;
      StartProcess(true, random);
      StartInv(now, random, 0);
    }

    method SetTimer(t: Timer, after: int)
      modifies this`timers
      ensures State() == Set(old(State()), t, after)
    {
      timers := timers[t := now + after];
    }

    method RemoveTimer(t: Timer)
      modifies this`timers
      ensures State() == Stop(old(State()), t)
    {
      timers := timers - {t};
    }

    method SendMessage(m: Message)
      modifies this`sending, this`sent
      ensures State() == Send(old(State()), m)
    {
      if sending {
        return;
      }
      sent := sent + [m];
      sending := true;
    }

    method Tell(r: Report)
      modifies this`reports
      ensures State() == H.Tell(old(State()), r)
    {
      reports := reports + [r];
    }

    method StartProcess(newXid: bool, random: Option<nat>)
      modifies this
      ensures State() == H.StartProcess(old(State()), newXid, random)
    {
      if newXid || xidUses == XID_REUSE_MAX {
        xid := if random.Some? then random.value else FALLBACK_XID;
        xidUses := 0;
      }
      xidUses := xidUses + 1;
      SendMessage(Discover(xid));
      SetTimer(ResetTimer, RESET_TIMEOUT);
      phase := SentDiscover;
    }

    method Nak(r: Reply)
      modifies this
      ensures State() == OnNak(old(State()), r)
    {
      if !phase.SentRequest? && !phase.Finished? && !phase.Renewing? {
        return;
      }
      if r.server != offered.server {
        return;
      }
      if phase.SentRequest? {
        RemoveTimer(RequestTimer);
        SetTimer(ResetTimer, RESET_TIMEOUT);
        phase := Resetting;
      } else if phase.Finished? {
        RemoveTimer(RenewTimer);
        SetTimer(ResetTimer, RESET_TIMEOUT);
        phase := Resetting;
        Tell(Down);
      } else {
        RemoveTimer(RenewRequestTimer);
        RemoveTimer(LeaseTimer);
        SetTimer(ResetTimer, RESET_TIMEOUT);
        phase := Resetting;
        Tell(Down);
      }
    }

    method Offered(r: Reply)
      modifies this
      ensures State() == OnOffer(old(State()), r)
    {
      offered := Offer(r.address, r.server);
      SendMessage(Request(xid, offered.address, Some(offered.server)));
      RemoveTimer(ResetTimer);
      SetTimer(RequestTimer, REQUEST_TIMEOUT);
      phase := SentRequest;
      requests := 1;
    }

    method Acknowledged(r: Reply)
      requires r.lease.Some? && r.mask.Some?
      modifies this
      ensures State() == OnAck(old(State()), r)
    {
      acked := Acked(r.lease.value, r.mask.value, r.router, r.dns);
      ackedAt := now;
      RemoveTimer(RequestTimer);
      SetTimer(RenewTimer, RenewTimeout(acked.lease));
      phase := Finished;
      Tell(Up);
    }

    method Renewed(r: Reply)
      requires r.lease.Some?
      modifies this
      ensures State() == OnRenewed(old(State()), r)
    {
      acked := acked.(lease := r.lease.value);
      ackedAt := now;
      RemoveTimer(RenewRequestTimer);
      RemoveTimer(LeaseTimer);
      SetTimer(RenewTimer, RenewTimeout(acked.lease));
      phase := Finished;
    }

    method RecvHandlerDone(r: Reply)
      requires Valid()
      modifies this
      ensures Valid() && State() == Step(old(State()), Receive(r))
    {
      hide H.Inv, OnNak, OnOffer, OnAck, OnRenewed;
      ReplyKeeps(State(), r, 0);
      if phase.Resetting? || r.xid != xid {
        return;
      }
      if r.kind.NakReply? {
        Nak(r);
        return;
      }
      if r.address == 0 || r.lease.None? || r.mask.None? {
        return;
      }
      if phase.SentDiscover? && r.kind.OfferReply? {
        Offered(r);
      } else if phase.SentRequest? && r.kind.AckReply? {
        if r.address != offered.address || r.server != offered.server {
          return;
        }
        Acknowledged(r);
      } else if phase.Renewing? && r.kind.AckReply? {
        if r.address != offered.address || r.server != offered.server {
          return;
        }
        Renewed(r);
      }
    }

    /** A timer has run out: it is no longer running when its handler is called, and its state is the one expected. */
    method TimerHandler(t: Timer, random: Option<nat>)
      requires Valid() && H.Enabled(State(), Fire(t, random))
      modifies this
      ensures Valid() && State() == Step(old(State()), Fire(t, random))
    {
      ghost var was := State();
      TimerKeeps(was, t, random, 0);
      assert t in TimersOf(phase);
      hide H.Inv;
      RemoveTimer(t);
      match t {
        case ResetTimer =>
          assert phase.Resetting? || phase.SentDiscover?;
          StartProcess(phase.Resetting?, random);
        case RequestTimer =>
          assert phase.SentRequest?;
          if requests == MAX_REQUESTS {
            StartProcess(false, random);
            return;
          }
          SendMessage(Request(xid, offered.address, Some(offered.server)));
          SetTimer(RequestTimer, REQUEST_TIMEOUT);
          requests := requests + 1;
        case RenewTimer =>
          assert phase.Finished?;
          SendMessage(Request(xid, offered.address, None));
          SetTimer(RenewRequestTimer, RENEW_REQUEST_TIMEOUT);
          SetTimer(LeaseTimer, LeaseTimeout(acked.lease));
          phase := Renewing;
        case RenewRequestTimer =>
          assert phase.Renewing?;
          SendMessage(Request(xid, offered.address, None));
          SetTimer(RenewRequestTimer, RENEW_REQUEST_TIMEOUT);
        case LeaseTimer =>
          assert phase.Renewing?;
          RemoveTimer(RenewRequestTimer);
          StartProcess(true, random);
          Tell(Down);
      }
    }

    method SendHandlerDone()
      requires Valid() && sending
      modifies this
      ensures Valid() && State() == Step(old(State()), SendDone)
    {
      sending := false;
    }
  }
}
