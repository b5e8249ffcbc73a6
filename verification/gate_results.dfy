/** Exact results about the gate: parked dispatches, lost claims, and what moves a binding. */
module GateResults {
  import opened Prelude
  import opened ApprovalBinding
  import opened Gate
  import opened GateInvariants
  import opened GateSteps
  import opened GateCounts
  import opened GateTheorems
  import opened GateExact

  // -- Pending approvals and parked dispatches --------------

  /** Behind every pending approval the dispatch is parked. */
  ghost predicate Parked(s: State) {
    forall a :: 0 <= a < |s.approvals| && s.approvals[a].status.Pending? ==>
      s.approvals[a].dispatch < |s.dispatches| && s.dispatches[s.approvals[a].dispatch].status.AwaitingApproval?
  }

  /**
   A worker that has found its run not cancelled escalates it although its
   dispatch was cancelled and its job enabled again since that read.
   */
  predicate EscalatesCancelled(s: State, op: Op) {
    && op.EscalateOp? && Attends(s, op.d) && s.workers[op.d].phase.Escalating?
    && s.dispatches[op.d].status.Cancelled?
    && s.jobs[s.dispatches[op.d].job].enabled && BindingNow(s, op.d).Success?
  }

  lemma {:induction false} OnlyPendingLeadsToPending(p: ApprovalStatus, k: nat)
    requires Walks(p, ApprovalStatus.Pending, k)
    ensures p.Pending? && k == 0
    decreases k
  {
    if k > 0 {
      var m :| Edge(p, m) && Walks(m, ApprovalStatus.Pending, k - 1);
      OnlyPendingLeadsToPending(m, k - 1);
    }
  }

  /** A pending approval that was there before still has its dispatch parked. */
  lemma StaysParked(s: State, op: Op, a: nat)
    requires Inv(s) && Parked(s) && a < |s.approvals| && a < |Step(s, op).approvals|
    requires Step(s, op).approvals[a].status.Pending?
    ensures var t, d := Step(s, op), s.approvals[a].dispatch;
      t.approvals[a].dispatch == d && d < |t.dispatches| && t.dispatches[d].status.AwaitingApproval?
  {
    hide Step, Around;
    var t, d := Step(s, op), s.approvals[a].dispatch;
    AroundAt(s, d);
    hide Inv, Evolved;
    StepKeeps(s, op);
    PendingBefore(s, t, a);
    ParkedIsHeld(s, d, a);
    hide HeldBy, WorkerOk, RowOk;
    HeldRowMoves(s, op, d, a);
    assert ApprovalOn(s, d, a);
  }

  lemma ParkedIsHeld(s: State, d: nat, a: nat)
    requires d < |s.dispatches| && (d in s.workers ==> WorkerOk(s, d)) && s.dispatches[d].status.AwaitingApproval?
    requires ApprovalOn(s, d, a) && s.approvals[a].status.Pending?
    ensures HeldBy(s, d, a)
  {}

  lemma PendingBefore(s: State, t: State, a: nat)
    requires Evolved(s, t) && a < |s.approvals| && a < |t.approvals| && t.approvals[a].status.Pending?
    ensures s.approvals[a].status.Pending? && t.approvals[a].dispatch == s.approvals[a].dispatch
  {
    assert ApprovalEvolved(s.approvals[a], t.approvals[a]);
    OnlyPendingLeadsToPending(s.approvals[a].status, t.approvals[a].version - s.approvals[a].version);
  }

  /** The approval a step adds, and the row it leaves. */
  lemma NewApproval(s: State, op: Op)
    requires Inv(s) && (op.OpenGateOp? || op.EscalateOp?)
    ensures var t, n := Step(s, op), |s.approvals|;
      && |t.approvals| <= n + 1
      && (|t.approvals| == n + 1 ==>
            && t.approvals[n].status.Pending? && t.approvals[n].dispatch == op.d && op.d < |t.dispatches|
            && (t.dispatches[op.d].status.AwaitingApproval? <==> !EscalatesCancelled(s, op)))
      && (EscalatesCancelled(s, op) ==> |t.approvals| == n + 1)
  {
    if Attends(s, op.d) {
      var d := op.d;
      AroundAt(s, d);
      if op.EscalateOp? && s.workers[d].phase.Escalating? {
        var r := s.workers[d].phase.run;
        assert LiveOn(s, d, r);
        NoActiveOfKind(s, d, AuthorizationGate);
        hide Inv, Around, WorkerOk, BindingNow;
      } else {
        hide Inv, Around, WorkerOk, BindingNow;
      }
    }
  }

  lemma NoActiveOfKind(s: State, d: nat, kind: GateKind)
    requires NoActiveOn(s, d)
    ensures forall ap <- s.approvals :: !ActiveOfKind(ap, d, kind)
  {
    forall ap | ap in s.approvals ensures !ActiveOfKind(ap, d, kind) {
      var a :| 0 <= a < |s.approvals| && s.approvals[a] == ap;
      assert ApprovalOn(s, d, a) ==> !Active(s.approvals[a].status);
    }
  }

  lemma OthersAddNoApproval(s: State, op: Op)
    requires !op.OpenGateOp? && !op.EscalateOp?
    ensures |Step(s, op).approvals| == |s.approvals|
  {
    if op.ExecuteOp? { ExecuteAddsNoApproval(s, op.d, op.actorFits, op.next); }
    else { OthersAddNothing(s, op); }
    hide Execute;
  }

  /**
   Pending approvals keep their dispatches parked through every step but one:
   an escalation of a run whose dispatch has been cancelled since the worker
   read that the run was not to be cancelled.
   */
  lemma ParkedUnlessEscalatedLate(s: State, op: Op)
    requires Inv(s) && Parked(s)
    ensures Parked(Step(s, op)) <==> !EscalatesCancelled(s, op)
  {
    hide Step, Inv, Attends, BindingNow;
    var t := Step(s, op);
    if op.OpenGateOp? || op.EscalateOp? { NewApproval(s, op); } else { OthersAddNoApproval(s, op); }
    assert EscalatesCancelled(s, op) ==> op.EscalateOp?;
    hide EscalatesCancelled;
    var n := |s.approvals|;
    forall a | 0 <= a < |t.approvals| && t.approvals[a].status.Pending? && a < n
      ensures t.approvals[a].dispatch < |t.dispatches| && t.dispatches[t.approvals[a].dispatch].status.AwaitingApproval?
    {
      StaysParked(s, op, a);
    }
  }

  // -- What a decision does ---------------------------------

  /** Approval a, its gate run and its dispatch have ended together. */
  ghost predicate EndedAs(s: State, a: nat, status: ApprovalStatus) {
    && a < |s.approvals| && s.approvals[a].status == status
    && s.approvals[a].run < |s.runs| && s.runs[s.approvals[a].run].status.Cancelled?
    && s.approvals[a].dispatch < |s.dispatches| && !Open(s.dispatches[s.approvals[a].dispatch].status)
  }

  /**
   A decision on a pending approval: it is refused to an actor outside the
   scope; an approval that was overtaken is cancelled; otherwise it is granted
   and its dispatch is due at once, and this never fails.
   */
  lemma DecisionExactly(s: State, a: nat, decision: Decision, actorFits: bool, at: Time, next: Option<Time>)
    requires Inv(s) && a < |s.approvals| && s.approvals[a].status.Pending?
    ensures var t, ap := Decide(s, a, decision, actorFits, at, next), s.approvals[a];
      if (decision.Approve? || decision.Reject?) && ap.scoped && !actorFits then t == s
      else if decision.Reject? then EndedAs(t, a, ApprovalStatus.Rejected)
      else if decision.TimeOut? then EndedAs(t, a, ApprovalStatus.TimedOut)
      else if decision.Withdraw? then EndedAs(t, a, ApprovalStatus.Cancelled)
      else if BindingRaises(s, a) then t == s
      else if Overtaken(s, a) then EndedAs(t, a, ApprovalStatus.Cancelled)
      else
        && a < |t.approvals| && t.approvals[a].status.Approved?
        && ap.run < |t.runs| && t.runs[ap.run].status.Approved?
        && ap.dispatch < |s.dispatches| && ap.dispatch < |t.dispatches|
        && t.dispatches[ap.dispatch] == Requeued(s.dispatches[ap.dispatch], Some(at))
  {
    var d := s.approvals[a].dispatch;
    AroundAt(s, d);
    assert ApprovalOn(s, d, a);
    assert Coupled(s, a);
    assert ActiveOn(s, d, a);
    hide Inv, Around, BindingRaises, Refused, BindingNow;
    RefusalEnds(s, a, ApprovalStatus.Rejected, next);
    RefusalEnds(s, a, ApprovalStatus.TimedOut, next);
    RefusalEnds(s, a, ApprovalStatus.Cancelled, next);
    hide EndedAs;
  }

  lemma RefusalEnds(s: State, a: nat, status: ApprovalStatus, next: Option<Time>)
    requires a < |s.approvals| && s.approvals[a].status.Pending? && Coupled(s, a) && RowOk(s, s.approvals[a].dispatch)
    requires status.Cancelled? || status.Rejected? || status.TimedOut?
    ensures EndedAs(Refused(PutApproval(s, a, status), s.approvals[a], next), a, status)
  {
    var d := s.approvals[a].dispatch;
    assert ActiveOn(s, d, a);
    hide Refused, Coupled;
    RefusalMoves(s, Refused(PutApproval(s, a, status), s.approvals[a], next), d, a, status, next);
    RefusedRows(PutApproval(s, a, status), s.approvals[a], next);
    assert Coupled(Refused(PutApproval(s, a, status), s.approvals[a], next), a);
    EndedByCoupling(Refused(PutApproval(s, a, status), s.approvals[a], next), a, status);
  }

  lemma EndedByCoupling(t: State, a: nat, status: ApprovalStatus)
    requires a < |t.approvals| && Coupled(t, a) && t.approvals[a].status == status
    requires status.Cancelled? || status.Rejected? || status.TimedOut?
    ensures EndedAs(t, a, status)
  {}

  // -- Both hazards can be reached --------------------------

  const GATED := Job(true, None, false, true, "", None)
  const PLAIN := Job(true, None, false, false, "", None)
  const NOWHERE := Origin(None, None, None)

  /** Claim, gate, grant, claim again, and lose the worker. */
  const LOSING: seq<Op> := [
    EnqueueOp(0, Manual, NOWHERE, 0), StartOp(0, 30), ReadGateOp(0), OpenGateOp(0, false),
    DecideOp(0, Approve, true, 5, None), StartOp(0, 60), CrashOp]

  /** Start, pass the check for a cancellation, be cancelled, have the job enabled again, and only then escalate. */
  const LATE: seq<Op> := [
    EnqueueOp(0, Manual, NOWHERE, 0), StartOp(0, 30), ReadGateOp(0), ExecuteOp(0, true, None), ReadCancelOp(0),
    CancelJobOp(0, None), EditJobOp(0, PLAIN), EscalateOp(0, false)]

  lemma RootBinding(job: Job, d: StableDispatch)
    requires job.parent == None
    ensures Binding([job], 0, d) == Success(Payload(Stable([job], 0), [], d))
  {}

  const BOUND := Payload(Stable([GATED], 0), [], Fixed(0, ROW))
  const GATE := Approval(0, 0, 0, JobGate, BOUND, false, ApprovalStatus.Pending, 0)
  const GATE_RUN := Run(0, 0, RunStatus.AwaitingApproval, None, false)
  /** The state in which the gated job's dispatch waits for a decision. */
  const PARKED := State([GATED], [Unclaimed(CLAIMED, DispatchStatus.AwaitingApproval)], [GATE_RUN], [GATE], map[], 1, 0)

  lemma ParksFirst()
    ensures Step(Step(Step(Step(Initial([GATED]), LOSING[0]), LOSING[1]), LOSING[2]), LOSING[3]) == PARKED
  {
    var s0 := Initial([GATED]);
    var s1 := Step(s0, LOSING[0]);
    assert s1 == s0.(dispatches := [ROW]);
    var s2 := Step(s1, LOSING[1]);
    assert s2 == s1.(dispatches := [CLAIMED], workers := map[0 := Worker(0, true, Fresh)], nextToken := 1);
    var s3 := Step(s2, LOSING[2]);
    assert s3 == s2.(workers := map[0 := Worker(0, true, Ready(None, false))]);
    RootBinding(GATED, Fixed(0, ROW));
    var s4 := Step(s3, LOSING[3]);
    assert s4.runs == [GATE_RUN] && s4.approvals == [GATE] && s4.workers == map[];
  }

  lemma LosesThen()
    ensures Lost(Step(Step(Step(PARKED, LOSING[4]), LOSING[5]), LOSING[6]), 0, 0)
  {
    RootBinding(GATED, Fixed(0, PARKED.dispatches[0]));
    var s5 := Step(PARKED, LOSING[4]);
    assert s5 == PARKED.(runs := [GATE_RUN.(status := RunStatus.Approved)],
                         approvals := [GATE.(status := ApprovalStatus.Approved, version := 1)],
                         dispatches := [Requeued(CLAIMED, Some(5))]);
    var s7 := Step(Step(s5, LOSING[5]), LOSING[6]);
    assert ActiveOn(s7, 0, 0);
  }

  /** The loss is real: it can be reached. */
  lemma LostClaimsHappen()
    ensures Lost(After(Initial([GATED]), LOSING), 0, 0)
  {
    hide Step, Lost;
    Unroll7(Initial([GATED]), LOSING);
    ParksFirst();
    LosesThen();
  }

  lemma Unroll7(s: State, ops: seq<Op>)
    requires |ops| == 7
    ensures After(s, ops)
         == Step(Step(Step(Step(Step(Step(Step(s, ops[0]), ops[1]), ops[2]), ops[3]), ops[4]), ops[5]), ops[6])
  {
    hide Step;
    assert forall k :: 0 <= k < 6 ==> ops[1..][k] == ops[k + 1];
    var s1 := Step(s, ops[0]);
    var s2 := Step(s1, ops[1]);
    var s3 := Step(s2, ops[2]);
    var s4 := Step(s3, ops[3]);
    var s5 := Step(s4, ops[4]);
    var s6 := Step(s5, ops[5]);
    assert ops[1..][1..] == ops[2..] && ops[2..][1..] == ops[3..] && ops[3..][1..] == ops[4..];
    assert ops[4..][1..] == ops[5..] && ops[5..][1..] == ops[6..] && ops[6..][1..] == [];
    assert After(s, ops) == After(s1, ops[1..]) == After(s2, ops[2..]) == After(s3, ops[3..]);
    assert After(s3, ops[3..]) == After(s4, ops[4..]) == After(s5, ops[5..]) == After(s6, ops[6..]);
    assert After(s6, ops[6..]) == After(Step(s6, ops[6]), []);
  }

  const ROW := Dispatch(0, Manual, NOWHERE, 0, DispatchStatus.Pending, 0, None, None, 0)
  const CLAIMED :=
    ROW.(status := DispatchStatus.Claimed, claim := Some(Claim(0, 0)), expires := Some(30), attempts := 1)
  const EXECUTION := Run(0, 0, RunStatus.Running, None, false)
  /** The state in which the plain job's run has started and is about to escalate. */
  const STARTED := State([PLAIN], [CLAIMED], [EXECUTION], [], map[0 := Worker(0, false, Escalating(0))], 1, 0)

  lemma StartsPlainly()
    ensures Step(Step(Step(Step(Step(Initial([PLAIN]), LATE[0]), LATE[1]), LATE[2]), LATE[3]), LATE[4]) == STARTED
  {
    var s0 := Initial([PLAIN]);
    var s1 := Step(s0, LATE[0]);
    assert s1 == s0.(dispatches := [ROW]);
    var s2 := Step(s1, LATE[1]);
    assert s2 == s1.(dispatches := [CLAIMED], workers := map[0 := Worker(0, false, Fresh)], nextToken := 1);
    var s3 := Step(s2, LATE[2]);
    assert s3 == s2.(workers := map[0 := Worker(0, false, Ready(None, false))]);
    var s4 := Step(s3, LATE[3]);
    assert s4.runs == [EXECUTION] && s4.workers == map[0 := Worker(0, false, Executing(0))];
  }

  lemma EscalatesLate()
    ensures !Parked(Step(Step(Step(STARTED, LATE[5]), LATE[6]), LATE[7]))
  {
    var s5 := Step(STARTED, LATE[5]);
    CancelsOnly(STARTED);
    hide CancelJob;
    var row := CLAIMED.(status := DispatchStatus.Cancelled, expires := None);
    assert s5 == STARTED.(jobs := [PLAIN.(enabled := false)], runs := [EXECUTION.(cancelRequested := true)],
                          dispatches := [row]);
    var s6 := Step(s5, LATE[6]);
    assert s6 == s5.(jobs := [PLAIN]);
    RootBinding(PLAIN, Fixed(0, row));
    var s7 := Step(s6, LATE[7]);
    assert |s7.approvals| == 1 && s7.approvals[0].status.Pending? && s7.approvals[0].dispatch == 0;
    assert s7.dispatches[0].status.Cancelled?;
  }

  /** So the exception is real: the pending approval of a cancelled dispatch can be reached. */
  lemma LateEscalationHappens()
    ensures Inv(After(Initial([PLAIN]), LATE)) && !Parked(After(Initial([PLAIN]), LATE))
  {
    hide Step, Evolved;
    HistoryKeeps(Initial([PLAIN]), LATE);
    hide Inv;
    assert forall k :: 0 <= k < 7 ==> LATE[1..][k] == LATE[k + 1];
    assert After(Initial([PLAIN]), LATE) == After(Step(Initial([PLAIN]), LATE[0]), LATE[1..]);
    Unroll7(Step(Initial([PLAIN]), LATE[0]), LATE[1..]);
    StartsPlainly();
    EscalatesLate();
  }

  /** Cancelling the only job, with one claimed dispatch and one running run. */
  lemma CancelsOnly(s: State)
    requires |s.jobs| == |s.dispatches| == |s.runs| == 1 && s.approvals == []
    requires s.dispatches[0].job == 0 && Open(s.dispatches[0].status) && s.runs[0].job == 0 && s.runs[0].status.Running?
    ensures CancelJob(s, 0, None)
         == s.(jobs := [s.jobs[0].(enabled := false)], runs := [s.runs[0].(cancelRequested := true)],
               dispatches := [s.dispatches[0].(status := DispatchStatus.Cancelled, expires := None)])
  {
    var t := s.(jobs := s.jobs[0 := s.jobs[0].(enabled := false)]);
    assert StrikeForJob(t, 0, 0) == t;
    var u := StrikeForJob(t, 0, 1);
    assert u == StrikeDispatch(t, 0);
    assert CancelForJob(u, 0, None, 0) == u;
    assert StopForJob(u, 0, 0) == u;
    assert StopForJob(u, 0, 1) == StopRun(u, 0);
    assert s.jobs[0 := s.jobs[0].(enabled := false)] == [s.jobs[0].(enabled := false)];
    assert s.runs[0 := s.runs[0].(cancelRequested := true)] == [s.runs[0].(cancelRequested := true)];
    var row := s.dispatches[0].(status := DispatchStatus.Cancelled, expires := None);
    assert s.dispatches[0 := row] == [row];
  }

  // -- What moves a binding ---------------------------------

  lemma RefusedOnlyDisables(s: State, ap: Approval, next: Option<Time>)
    ensures OnlyDisables(s.jobs, Refused(s, ap, next).jobs)
  {
    GateRowsKeepJobs(s, ap.run, ap.dispatch);
    hide CancelGateRun, CancelGateDispatch;
  }

  lemma GateRowsKeepJobs(s: State, r: nat, d: nat)
    ensures CancelGateRun(s, r).jobs == s.jobs && CancelGateDispatch(CancelGateRun(s, r), d).jobs == s.jobs
  {}

  lemma CancelOnlyDisables(s: State, a: nat, next: Option<Time>)
    ensures OnlyDisables(s.jobs, CancelApproval(s, a, next).jobs)
  {
    hide Refused;
    if a < |s.approvals| { RefusedOnlyDisables(PutApproval(s, a, ApprovalStatus.Cancelled), s.approvals[a], next); }
  }

  lemma LatestCancelOnlyDisables(s: State, d: nat, next: Option<Time>)
    ensures OnlyDisables(s.jobs, CancelForDispatch(s, d, next).jobs)
  {
    hide CancelApproval;
    var a := LatestActive(s.approvals, d, |s.approvals|);
    if a.Some? { CancelOnlyDisables(s, a.value, next); }
  }

  lemma BeginOnlyDisables(s: State, d: nat, actorFits: bool, next: Option<Time>)
    ensures var b := BeginDispatch(s, d, actorFits, next); b.Declined? ==> OnlyDisables(s.jobs, b.state.jobs)
  {
    hide CancelApproval, Mismatched, BindingRaises;
    var a := Latest(s.approvals, d, |s.approvals|);
    if a.Some? { CancelOnlyDisables(s, a.value, next); }
  }

  lemma DecideOnlyDisables(s: State, a: nat, decision: Decision, actorFits: bool, at: Time, next: Option<Time>)
    ensures OnlyDisables(s.jobs, Decide(s, a, decision, actorFits, at, next).jobs)
  {
    hide Refused, Overtaken, BindingRaises;
    if a < |s.approvals| {
      forall st: ApprovalStatus
        ensures OnlyDisables(s.jobs, Refused(PutApproval(s, a, st), s.approvals[a], next).jobs)
      {
        RefusedOnlyDisables(PutApproval(s, a, st), s.approvals[a], next);
      }
    }
  }

  lemma RecoverOnlyDisables(s: State, a: nat, now: Time, next: Option<Time>)
    ensures OnlyDisables(s.jobs, RecoverApproval(s, a, now, next).jobs)
  {
    hide CancelApproval, HasExecutionRun;
    CancelOnlyDisables(s, a, next);
  }

  lemma {:induction false} ApprovalFoldsOnlyDisable(s: State, n: nat, j: nat, now: Time, next: Option<Time>)
    ensures OnlyDisables(s.jobs, RecoverApprovals(s, now, next, n).jobs)
    ensures OnlyDisables(s.jobs, CancelUnavailable(s, next, n).jobs)
    ensures OnlyDisables(s.jobs, CancelForJob(s, j, next, n).jobs)
  {
    hide CancelApproval, RecoverApproval;
    if n > 0 {
      ApprovalFoldsOnlyDisable(s, n - 1, j, now, next);
      CancelOnlyDisables(CancelUnavailable(s, next, n - 1), n - 1, next);
      CancelOnlyDisables(CancelForJob(s, j, next, n - 1), n - 1, next);
      RecoverOnlyDisables(RecoverApprovals(s, now, next, n - 1), n - 1, now, next);
    }
  }

  lemma {:induction false} QueueFoldsKeepJobs(s: State, n: nat, j: nat, now: Time)
    ensures n <= |s.dispatches| ==> RecoverStale(s, now, n).jobs == s.jobs && SweepDisabled(s, n).jobs == s.jobs
    ensures StrikeForJob(s, j, n).jobs == s.jobs && StopForJob(s, j, n).jobs == s.jobs
  {
    hide StaleClaim;
    if n > 0 { QueueFoldsKeepJobs(s, n - 1, j, now); }
  }

  lemma CancelJobOnlyDisables(s: State, j: nat, next: Option<Time>)
    ensures OnlyDisables(s.jobs, CancelJob(s, j, next).jobs)
  {
    hide StrikeForJob, CancelForJob, StopForJob;
    if j < |s.jobs| {
      var s0 := s.(jobs := s.jobs[j := s.jobs[j].(enabled := false)]);
      QueueFoldsKeepJobs(s0, |s.dispatches|, j, 0);
      var t := StrikeForJob(s0, j, |s.dispatches|);
      ApprovalFoldsOnlyDisable(t, |t.approvals|, j, 0, next);
      var u := CancelForJob(t, j, next, |t.approvals|);
      QueueFoldsKeepJobs(u, |u.runs|, j, 0);
    }
  }

  lemma SkipsOnlyDisable(s: State, d: nat, actorFits: bool, next: Option<Time>)
    ensures OnlyDisables(s.jobs, SkipBegin(s, d, actorFits, next).jobs)
    ensures OnlyDisables(s.jobs, SkipMark(s, d, next).jobs)
    ensures OnlyDisables(s.jobs, Drop(s, d, next).jobs)
  {
    hide BeginDispatch, CancelForDispatch;
    BeginOnlyDisables(s, d, actorFits, next);
    LatestCancelOnlyDisables(s, d, next);
  }

  lemma ExecuteOnlyDisables(s: State, d: nat, actorFits: bool, next: Option<Time>)
    ensures OnlyDisables(s.jobs, Execute(s, d, actorFits, next).jobs)
  {
    hide BeginDispatch;
    BeginOnlyDisables(s, d, actorFits, next);
  }

  lemma RowOpsKeepJobs(s: State, op: Op)
    requires op.EnqueueOp? || op.RescheduleOp? || op.StartOp? || op.RenewOp? || op.ReadGateOp? || op.HandBackOp?
      || op.SkipCloseOp? || op.TimeOutRunOp? || op.DieOp? || op.CrashOp? || op.RequestCancelOp?
      || op.ReadCancelOp? || op.FinishOp? || op.DeferOp? || op.ReplayOp?
    ensures Step(s, op).jobs == s.jobs
  {}

  lemma GatesKeepJobs(s: State, d: nat, scoped: bool)
    ensures OpenGate(s, d, scoped).jobs == s.jobs && Escalate(s, d, scoped).jobs == s.jobs
  {}

  /** Every step but an operator's edit leaves the contracts of all jobs, up to disabling some. */
  lemma StepOnlyDisables(s: State, op: Op)
    requires !op.EditJobOp?
    ensures OnlyDisables(s.jobs, Step(s, op).jobs)
  {
    hide Drop, SkipBegin, SkipMark, Execute, OpenGate, Escalate, Decide, CancelApproval, CancelJob, RecoverStale,
         SweepDisabled, RecoverApprovals, CancelUnavailable, Finish, ReplayOrphan, DeferApproval, StartWorker;
    match op
    case DropOp(d, next) => SkipsOnlyDisable(s, d, false, next);
    case SkipMarkOp(d, next) => SkipsOnlyDisable(s, d, false, next);
    case SkipBeginOp(d, actorFits, next) => SkipsOnlyDisable(s, d, actorFits, next);
    case ExecuteOp(d, actorFits, next) => ExecuteOnlyDisables(s, d, actorFits, next);
    case OpenGateOp(d, scoped) => GatesKeepJobs(s, d, scoped);
    case EscalateOp(d, scoped) => GatesKeepJobs(s, d, scoped);
    case DecideOp(a, decision, actorFits, at, next) => DecideOnlyDisables(s, a, decision, actorFits, at, next);
    case CancelOp(a, next) => CancelOnlyDisables(s, a, next);
    case RecoverStaleOp(now) => QueueFoldsKeepJobs(s, |s.dispatches|, 0, now);
    case SweepDisabledOp => QueueFoldsKeepJobs(s, |s.dispatches|, 0, 0);
    case RecoverApprovalsOp(now, next) => ApprovalFoldsOnlyDisable(s, |s.approvals|, 0, now, next);
    case CancelUnavailableOp(next) => ApprovalFoldsOnlyDisable(s, |s.approvals|, 0, 0, next);
    case CancelJobOp(j, next) => CancelJobOnlyDisables(s, j, next);
    case AddJobOp(_) =>
    case BlockOp(_) =>
    case _ =>
      RowOpsKeepJobs(s, op);
      hide Step;
  }

  /** The job of dispatch d and its ancestors. */
  function Bound(s: State, d: nat): seq<nat>
    requires d < |s.dispatches| && s.dispatches[d].job < |s.jobs| && BindingNow(s, d).Success?
  {
    [s.dispatches[d].job] + Lineage(s.jobs, s.dispatches[d].job).value
  }

  /**
   No claim, release, deferral, decision or recovery moves the binding an
   approval is checked against: a step other than an edit of a job changes it
   exactly when it disables the job or one of its ancestors.
   */
  lemma BindingMovesOnlyByDisabling(s: State, op: Op, d: nat)
    requires Inv(s) && d < |s.dispatches| && s.dispatches[d].job < |s.jobs| && BindingNow(s, d).Success?
    requires !op.EditJobOp?
    ensures var t := Step(s, op);
      && d < |t.dispatches| && t.dispatches[d].job == s.dispatches[d].job < |t.jobs|
      && (forall x <- Bound(s, d) :: x < |s.jobs| && x < |t.jobs|)
      && (BindingNow(t, d) == BindingNow(s, d)
          <==> forall x <- Bound(s, d) :: t.jobs[x].enabled == s.jobs[x].enabled)
  {
    var t := Step(s, op);
    StepKeeps(s, op);
    StepOnlyDisables(s, op);
    assert DispatchEvolved(s.dispatches[d], t.dispatches[d]);
    hide Step, Inv, Evolved;
    var j, fixed := s.dispatches[d].job, Fixed(d, s.dispatches[d]);
    assert Fixed(d, t.dispatches[d]) == fixed;
    BindingByColumns(s.jobs, t.jobs, j, fixed);
  }
}
