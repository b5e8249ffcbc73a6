/** Which transactions add runs and approvals: no others do. */
module GateCounts {
  import opened Prelude
  import opened ApprovalBinding
  import opened Gate

  ghost predicate SameCounts(s: State, t: State) {
    |t.runs| == |s.runs| && |t.approvals| == |s.approvals|
  }

  /** No run, no approval, and every worker as it was. */
  ghost predicate AddsNothing(s: State, t: State) {
    SameCounts(s, t) && t.workers == s.workers
  }

  lemma {:induction false} QueueFoldsAddNothing(s: State, n: nat, j: nat, now: Time)
    ensures n <= |s.dispatches| ==> AddsNothing(s, RecoverStale(s, now, n)) && AddsNothing(s, SweepDisabled(s, n))
    ensures AddsNothing(s, StrikeForJob(s, j, n))
  {
    hide StaleClaim;
    if n > 0 { QueueFoldsAddNothing(s, n - 1, j, now); }
  }

  lemma {:induction false} StopForJobAddsNothing(s: State, j: nat, n: nat)
    ensures AddsNothing(s, StopForJob(s, j, n))
  {
    if n > 0 { StopForJobAddsNothing(s, j, n - 1); }
  }

  lemma {:induction false} ApprovalFoldsAddNothing(s: State, n: nat, j: nat, now: Time, next: Option<Time>)
    ensures AddsNothing(s, RecoverApprovals(s, now, next, n))
    ensures AddsNothing(s, CancelUnavailable(s, next, n))
    ensures AddsNothing(s, CancelForJob(s, j, next, n))
  {
    hide CancelApproval, RecoverApproval;
    if n > 0 {
      ApprovalFoldsAddNothing(s, n - 1, j, now, next);
      CancelAddsNothing(CancelUnavailable(s, next, n - 1), n - 1, next);
      CancelAddsNothing(CancelForJob(s, j, next, n - 1), n - 1, next);
      RecoverAddsNothing(RecoverApprovals(s, now, next, n - 1), n - 1, now, next);
    }
  }

  lemma RefusedAddsNothing(s: State, ap: Approval, next: Option<Time>)
    ensures AddsNothing(s, Refused(s, ap, next))
  {}

  lemma CancelAddsNothing(s: State, a: nat, next: Option<Time>)
    ensures AddsNothing(s, CancelApproval(s, a, next))
  {
    if a < |s.approvals| { RefusedAddsNothing(PutApproval(s, a, ApprovalStatus.Cancelled), s.approvals[a], next); }
  }

  lemma RecoverAddsNothing(s: State, a: nat, now: Time, next: Option<Time>)
    ensures AddsNothing(s, RecoverApproval(s, a, now, next))
  {
    hide CancelApproval, HasExecutionRun;
    CancelAddsNothing(s, a, next);
  }

  lemma BeginAddsNothing(s: State, d: nat, actorFits: bool, next: Option<Time>)
    ensures var b := BeginDispatch(s, d, actorFits, next); b.Declined? ==> AddsNothing(s, b.state)
  {
    hide CancelApproval, Mismatched, BindingRaises;
    match Latest(s.approvals, d, |s.approvals|)
    case None =>
    case Some(a) => CancelAddsNothing(s, a, next);
  }

  /** Only the transactions that open a gate or start an execution add runs or approvals. */
  lemma OthersAddNothing(s: State, op: Op)
    requires !op.OpenGateOp? && !op.ExecuteOp? && !op.EscalateOp?
    ensures SameCounts(s, Step(s, op))
  {
    hide CancelApproval, BeginDispatch, CancelForDispatch, MarkDispatched, Decide, DeferApproval, CancelJob,
         RecoverStale, SweepDisabled, RecoverApprovals, CancelUnavailable, Finish, ReadCancellation, ReplayOrphan,
         BlockOrphan, StartWorker, SetSchedule, RenewClaim, ReadGate, HandBack, SkipClose, TimeOutRun;
    match op
    case DropOp(d, next) => LatestCancelAddsNothing(s, d, next);
    case SkipBeginOp(d, actorFits, next) => BeginAddsNothing(s, d, actorFits, next);
    case SkipMarkOp(d, next) => LatestCancelAddsNothing(s, d, next); MarkAddsNothing(s, d);
    case FinishOp(d, status, outcome) => if Final(status) { FinishAddsNothing(s, d, status, outcome); }
    case ReadCancelOp(d) => ReadCancelAddsNothing(s, d);
    case DecideOp(a, decision, actorFits, at, next) => DecideAddsNothing(s, a, decision, actorFits, at, next);
    case CancelOp(a, next) => CancelAddsNothing(s, a, next);
    case DeferOp(d, when) => DeferAddsNothing(s, d, when);
    case RecoverStaleOp(now) => QueueFoldsAddNothing(s, |s.dispatches|, 0, now);
    case SweepDisabledOp => QueueFoldsAddNothing(s, |s.dispatches|, 0, 0);
    case RecoverApprovalsOp(now, next) => ApprovalFoldsAddNothing(s, |s.approvals|, 0, now, next);
    case CancelUnavailableOp(next) => ApprovalFoldsAddNothing(s, |s.approvals|, 0, 0, next);
    case CancelJobOp(j, next) => CancelJobAddsNothing(s, j, next);
    case ReplayOp(r, when) => OrphansAddNothing(s, r, when);
    case BlockOp(r) => OrphansAddNothing(s, r, None);
    case _ => RowOpsAddNothing(s, op);
  }

  lemma RowOpsAddNothing(s: State, op: Op)
    requires op.EnqueueOp? || op.RescheduleOp? || op.StartOp? || op.RenewOp? || op.ReadGateOp? || op.HandBackOp?
      || op.SkipCloseOp? || op.TimeOutRunOp? || op.AddJobOp? || op.EditJobOp? || op.DieOp? || op.CrashOp?
      || op.RequestCancelOp?
    ensures SameCounts(s, Step(s, op))
  {}

  lemma LatestCancelAddsNothing(s: State, d: nat, next: Option<Time>)
    ensures AddsNothing(s, CancelForDispatch(s, d, next))
  {
    hide CancelApproval;
    var a := LatestActive(s.approvals, d, |s.approvals|);
    if a.Some? { CancelAddsNothing(s, a.value, next); }
  }

  lemma MarkAddsNothing(s: State, d: nat)
    ensures AddsNothing(s, MarkDispatched(s, d))
  {}

  lemma DeferAddsNothing(s: State, d: nat, at: Option<Time>)
    ensures AddsNothing(s, DeferApproval(s, d, at))
  {}

  lemma FinishAddsNothing(s: State, d: nat, status: RunStatus, outcome: Outcome)
    requires Final(status)
    ensures SameCounts(s, Finish(s, d, status, outcome))
  {}

  lemma ReadCancelAddsNothing(s: State, d: nat)
    ensures SameCounts(s, ReadCancellation(s, d))
  {
    FinishAddsNothing(s, d, RunStatus.Error, Complete);
    hide Finish;
  }

  lemma OrphansAddNothing(s: State, r: nat, when: Option<Time>)
    ensures AddsNothing(s, ReplayOrphan(s, r, when)) && AddsNothing(s, BlockOrphan(s, r))
  {}

  lemma DecideAddsNothing(s: State, a: nat, decision: Decision, actorFits: bool, at: Time, next: Option<Time>)
    ensures AddsNothing(s, Decide(s, a, decision, actorFits, at, next))
  {
    hide Refused, Overtaken, BindingRaises;
    if a < |s.approvals| {
      forall st: ApprovalStatus ensures AddsNothing(s, Refused(PutApproval(s, a, st), s.approvals[a], next)) {
        RefusedAddsNothing(PutApproval(s, a, st), s.approvals[a], next);
      }
    }
  }

  lemma CancelJobAddsNothing(s: State, j: nat, next: Option<Time>)
    ensures AddsNothing(s, CancelJob(s, j, next))
  {
    hide StrikeForJob, CancelForJob, StopForJob;
    if j < |s.jobs| {
      var s0 := s.(jobs := s.jobs[j := s.jobs[j].(enabled := false)]);
      QueueFoldsAddNothing(s0, |s.dispatches|, j, 0);
      var t := StrikeForJob(s0, j, |s.dispatches|);
      ApprovalFoldsAddNothing(t, |t.approvals|, j, 0, next);
      var u := CancelForJob(t, j, next, |t.approvals|);
      StopForJobAddsNothing(u, j, |u.runs|);
    }
  }

  lemma ExecuteAddsNoApproval(s: State, d: nat, actorFits: bool, next: Option<Time>)
    ensures |Execute(s, d, actorFits, next).approvals| == |s.approvals|
  {
    hide BeginDispatch;
    BeginAddsNothing(s, d, actorFits, next);
  }

  lemma EscalateAddsNoRun(s: State, d: nat, scoped: bool)
    ensures |Escalate(s, d, scoped).runs| == |s.runs|
  {}
}
