/**
One packet-passing interface as the source runs it, with its three jobs on a shared list.
*/
module HandshakeObject {
  import opened Seqs
  import opened PendingJobs
  import L = LinkedNodes
  import opened H = Handshake

  class PacketPassInterface {
    const i: IfaceId
    const group: BPendingGroup<Job>
    const hasCancel: bool
    var phase: Phase
    var cancelRequested: bool
    ghost var session: seq<Mark>
    ghost var past: seq<seq<Mark>>

    ghost function State(): Iface
      reads this
    {
      Iface(phase, cancelRequested, session, past)
    }

    ghost predicate Valid()
      reads this, group
    {
      && group.Valid() && Operation(i) in group.nodes && RequestCancel(i) in group.nodes && Done(i) in group.nodes
      && JobsOk(group.jobs, State(), i) && SessionOk(State()) && PastOk(State())
    }

    constructor (i: IfaceId, group: BPendingGroup<Job>, hasCancel: bool)
      requires group.Valid() && Operation(i) !in group.nodes && RequestCancel(i) !in group.nodes && Done(i) !in group.nodes
      modifies group
      ensures Valid() && this.i == i && this.group == group && State() == Iface(Idle, false, [], [])
      ensures group.jobs == old(group.jobs)
    {
      hide Distinct, L.Linked, Partial, Over;
      this.i, this.group, this.hasCancel := i, group, hasCancel;
      phase, cancelRequested, session, past := Idle, false, [], [];
      new;
      group.InitJob(Operation(i));
      group.InitJob(RequestCancel(i));
      group.InitJob(Done(i));
    }

    method Send()
      requires Valid() && phase.Idle?
      modifies this, group
      ensures Valid() && State() == SendIface(old(State())) && group.jobs == SendJobs(old(group.jobs), i)
    {
      hide Distinct, L.Linked, Partial, Over;
      SendKeeps(State());
      group.SetJob(Operation(i));
      phase, cancelRequested := OperationPending, false;
      session := [Sent];
    }

    /** A repeated request is ignored. */
    method Cancel()
      requires Valid() && !phase.Idle? && hasCancel
      modifies this, group
      ensures Valid() && State() == AskIface(old(State())) && group.jobs == AskJobs(old(group.jobs), old(State()), i)
    {
      hide Distinct, L.Linked, Partial, Over;
      AskKeeps(State());
      AskPartial(session);
      session := session + [Asked];
      if cancelRequested {
        return;
      }
      cancelRequested := true;
      if phase.OperationPending? {
        group.UnsetJob(Operation(i));
        group.SetJob(Done(i));
        phase := DonePending;
      } else if phase.Busy? {
        group.SetJob(RequestCancel(i));
      }
    }

    /** The provider is done with the packet. */
    method Finish()
      requires Valid() && phase.Busy?
      modifies this, group
      ensures Valid() && State() == FinishIface(old(State())) && group.jobs == FinishJobs(old(group.jobs), i)
    {
      hide Distinct, L.Linked, Partial, Over;
      FinishKeeps(State());
      group.UnsetJob(RequestCancel(i));
      group.SetJob(Done(i));
      phase := DonePending;
      session := session + [Finished];
    }

    /** The list was right to run this job: each handler finds the state its assert demands. */
    method JobOperation()
      requires group.Valid() && SessionOk(State()) && PastOk(State()) && phase.OperationPending?
      modifies this
      ensures State() == OperateIface(old(State())) && SessionOk(State()) && PastOk(State())
    {
      hide Partial, Over;
      OperateKeeps(State());
      phase := Busy;
      session := session + [Operated];
    }

    method JobRequestCancel()
      requires SessionOk(State()) && PastOk(State()) && phase.Busy? && cancelRequested && Told !in session
      modifies this`session
      ensures State() == TellIface(old(State())) && SessionOk(State()) && PastOk(State())
    {
      hide Partial, Over;
      TellKeeps(State());
      session := session + [Told];
    }

    method JobDone()
      requires SessionOk(State()) && PastOk(State()) && phase.DonePending?
      modifies this
      ensures State() == AnswerIface(old(State())) && SessionOk(State()) && PastOk(State())
    {
      hide Partial, Over;
      AnswerKeeps(State());
      phase := Idle;
      past := past + [session + [Answered]];
      session := [];
    }

    /** Runs the job at the front of the list, if it is one of this interface's. */
    method Execute() returns (job: Job)
      requires Valid() && group.jobs != [] && !group.jobs[0].Other? && group.jobs[0].i == i
      modifies this, group
      ensures Valid() && job == old(group.jobs)[0] && group.jobs == old(group.jobs)[1..]
      ensures State() == match job
        case Operation(_) => OperateIface(old(State()))
        case RequestCancel(_) => TellIface(old(State()))
        case _ => AnswerIface(old(State()))
    {
      hide Distinct, L.Linked, Partial, Over, Complete, PastOk;
      assert group.jobs[0] in group.jobs;
      TailOf(group.jobs);
      job := group.ExecuteJob();
      match job {
        case Operation(_) => JobOperation();
        case RequestCancel(_) => JobRequestCancel();
        case Done(_) => JobDone();
        case Other(_) => assert false;
      }
    }

    lemma TailOf(q: seq<Job>)
      requires q != []
      ensures forall j :: j in q <==> j == q[0] || j in q[1..]
    {
      assert q == [q[0]] + q[1..];
    }
  }
}
