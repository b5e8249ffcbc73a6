/**
 When an escalation can meet a cancelled dispatch. The worker reads whether its
 run is to be cancelled before it escalates; only a cancellation of its job
 after that read, and before the escalation, goes unnoticed.
 */
module GateEscalation {
  import opened Prelude
  import opened ApprovalBinding
  import opened Gate
  import opened GateInvariants
  import opened GateSteps
  import opened GateCounts
  import opened GateTheorems
  import opened GateRecovery
  import opened GateExact
  import opened GateResults

  // -- What cancels a dispatch behind a live run ------------

  /** Dispatch d is claimed behind live run r; a worker on it is the one of r. */
  ghost predicate Runs(s: State, d: nat, r: nat) {
    && d < |s.dispatches| && s.dispatches[d].status.Claimed? && s.dispatches[d].job < |s.jobs|
    && LiveOn(s, d, r)
    && (forall a :: ApprovalOn(s, d, a) ==> s.approvals[a].status.Dispatched?)
    && (d in s.workers ==> Started(s.workers[d].phase) && s.workers[d].phase.run == r)
  }

  lemma RunsWhen(s: State, d: nat, r: nat)
    requires Inv(s) && d < |s.dispatches| && LiveOn(s, d, r) && s.dispatches[d].status.Claimed?
    ensures Runs(s, d, r)
  {
    AroundAt(s, d);
    if d in s.workers {
      assert RunOn(s, d, r);
      assert LiveOn(s, d, s.workers[d].phase.run);
    }
  }

  /** Run r has ended, or its dispatch is not cancelled. */
  ghost predicate NotStruck(t: State, d: nat, r: nat) {
    d < |t.dispatches| && r < |t.runs| && (Live(t.runs[r].status) ==> !t.dispatches[d].status.Cancelled?)
  }

  lemma CancelBeside(s: State, t: State, b: nat, next: Option<Time>, d: nat)
    requires Inv(t) && d < |s.dispatches| && NoActiveOn(s, d) && SameOn(s, t, d)
    ensures SameOn(s, CancelApproval(t, b, next), d)
  {
    if b < |t.approvals| && t.approvals[b].dispatch == d {
      assert ApprovalOn(t, d, b) && ApprovalOn(s, d, b);
      assert CancelApproval(t, b, next) == t;
    } else {
      hide CancelApproval;
      CancelElsewhere(t, b, next, d);
      SameOnComposes(s, t, CancelApproval(t, b, next), d);
    }
  }

  /** Sweeping up approvals leaves a dispatch without active approvals as it is. */
  lemma {:induction false} SweptBeside(s: State, j: nat, next: Option<Time>, n: nat, d: nat)
    requires Inv(s) && d < |s.dispatches| && NoActiveOn(s, d)
    ensures SameOn(s, CancelUnavailable(s, next, n), d) && SameOn(s, CancelForJob(s, j, next, n), d)
  {
    hide CancelApproval, Inv, Evolved, SameOn, NoneActiveFor, NoActiveOn;
    if n > 0 {
      SweptBeside(s, j, next, n - 1, d);
      CancelUnavailableKeeps(s, next, n - 1);
      CancelForJobKeeps(s, j, next, n - 1);
      CancelBeside(s, CancelUnavailable(s, next, n - 1), n - 1, next, d);
      CancelBeside(s, CancelForJob(s, j, next, n - 1), n - 1, next, d);
    } else {
      SameOnStill(s, d);
    }
  }

  lemma SameOnIsNotStruck(s: State, t: State, d: nat, r: nat)
    requires Runs(s, d, r) && SameOn(s, t, d)
    ensures NotStruck(t, d, r)
  {}

  lemma HeldIsNotStruck(s: State, t: State, d: nat, r: nat)
    requires Runs(s, d, r) && RowHeld(s, t, d) && |s.runs| <= |t.runs|
    ensures NotStruck(t, d, r)
  {}

  /** Cancelling another job. */
  lemma OtherJobNotStruck(s: State, j: nat, next: Option<Time>, d: nat, r: nat)
    requires Inv(s) && Runs(s, d, r) && s.dispatches[d].job != j
    ensures NotStruck(CancelJob(s, j, next), d, r)
  {
    if j < |s.jobs| {
      var s0 := s.(jobs := s.jobs[j := s.jobs[j].(enabled := false)]);
      CancelJobAddsNothing(s, j, next);
      assert NoActiveOn(s, d);
      hide Inv, Evolved;
      JobsChangeKeeps(s, s0);
      StrikeForJobKeeps(s0, j, |s.dispatches|);
      StrikeHolds(s0, j, |s.dispatches|, d);
      hide StrikeForJob, CancelForJob, StopForJob;
      var t := StrikeForJob(s0, j, |s.dispatches|);
      assert NoActiveOn(t, d) by { assert forall a :: ApprovalOn(t, d, a) ==> ApprovalOn(s, d, a); }
      SweptBeside(t, j, next, |t.approvals|, d);
      var u := CancelForJob(t, j, next, |t.approvals|);
      StopHolds(u, j, |u.runs|);
    }
  }

  lemma DecideNotStruck(s: State, b: nat, decision: Decision, actorFits: bool, at: Time, next: Option<Time>, d: nat,
                        r: nat)
    requires Inv(s) && Runs(s, d, r)
    ensures NotStruck(Decide(s, b, decision, actorFits, at, next), d, r)
  {
    if b < |s.approvals| && s.approvals[b].status.Pending? {
      assert !ApprovalOn(s, d, b);
      DecideAddsNothing(s, b, decision, actorFits, at, next);
      hide Decide, Inv;
      DecideElsewhere(s, b, decision, actorFits, at, next, d);
    }
  }

  lemma DeferNotStruck(s: State, e: nat, when: Option<Time>, d: nat, r: nat)
    requires Runs(s, d, r)
    ensures NotStruck(DeferApproval(s, e, when), d, r)
  {
    var b := Latest(s.approvals, e, |s.approvals|);
    if e == d && b.Some? { assert ApprovalOn(s, d, b.value); }
  }

  lemma RecoveryNotStruck(s: State, now: Time, next: Option<Time>, d: nat, r: nat)
    requires Inv(s) && Runs(s, d, r)
    ensures NotStruck(RecoverStale(s, now, |s.dispatches|), d, r)
    ensures NotStruck(RecoverApprovals(s, now, next, |s.approvals|), d, r)
    ensures NotStruck(SweepDisabled(s, |s.dispatches|), d, r)
  {
    assert !DispatchingBelow(s, d, |s.approvals|);
    QueueFoldsAddNothing(s, |s.dispatches|, 0, now);
    hide Inv, RecoverStale, RecoverApprovals, SweepDisabled;
    StaleRows(s, now, |s.dispatches|, d);
    RecoveryLeaves(s, now, next, |s.approvals|, d);
    SweepHolds(s, |s.dispatches|, d);
  }

  lemma OthersNotStruck(s: State, op: Op, d: nat, r: nat)
    requires Inv(s) && Runs(s, d, r) && !WorkerOp(op)
    requires op.CancelJobOp? ==> s.dispatches[d].job != op.j
    ensures NotStruck(Step(s, op), d, r)
  {
    assert NoActiveOn(s, d);
    hide Inv, CancelApproval, Decide, DeferApproval, RecoverStale, RecoverApprovals, CancelUnavailable, SweepDisabled,
         CancelJob, ReplayOrphan, BlockOrphan, NoActiveOn, NotStruck;
    match op
    case DecideOp(b, decision, actorFits, at, next) => DecideNotStruck(s, b, decision, actorFits, at, next, d, r);
    case CancelOp(b, next) =>
      SameOnStill(s, d);
      CancelBeside(s, s, b, next, d);
      SameOnIsNotStruck(s, Step(s, op), d, r);
    case DeferOp(e, when) => DeferNotStruck(s, e, when, d, r);
    case RecoverStaleOp(now) => RecoveryNotStruck(s, now, None, d, r);
    case RecoverApprovalsOp(now, next) => RecoveryNotStruck(s, now, next, d, r);
    case SweepDisabledOp => RecoveryNotStruck(s, 0, None, d, r);
    case CancelUnavailableOp(next) =>
      SweptBeside(s, 0, next, |s.approvals|, d);
      SameOnIsNotStruck(s, Step(s, op), d, r);
    case CancelJobOp(j, next) => OtherJobNotStruck(s, j, next, d, r);
    case ReplayOp(q, when) => OrphansNotStruck(s, q, when, d, r);
    case BlockOp(q) => OrphansNotStruck(s, q, None, d, r);
    case _ => RowOpsNotStruck(s, op, d, r);
  }

  lemma RowOpsNotStruck(s: State, op: Op, d: nat, r: nat)
    requires Runs(s, d, r)
    requires op.AddJobOp? || op.EditJobOp? || op.EnqueueOp? || op.RescheduleOp? || op.CrashOp? || op.RequestCancelOp?
      || op.TimeOutRunOp?
    ensures NotStruck(Step(s, op), d, r)
  {}

  lemma OrphansNotStruck(s: State, q: nat, when: Option<Time>, d: nat, r: nat)
    requires Runs(s, d, r)
    ensures NotStruck(ReplayOrphan(s, q, when), d, r) && NotStruck(BlockOrphan(s, q), d, r)
  {}

  /** The worker of r leaves its dispatch claimed while r is live. */
  lemma OwnWorkerNotStruck(s: State, op: Op, d: nat, r: nat)
    requires Runs(s, d, r) && WorkerOp(op) && op.d == d
    ensures NotStruck(Step(s, op), d, r)
  {
    hide OpenApproval, BindingNow;
    if op.EscalateOp? && Attends(s, d) && s.workers[d].phase.Escalating? { EscalationEndsRun(s, d, r, op.scoped); }
    hide Escalate;
  }

  lemma EscalationEndsRun(s: State, d: nat, r: nat, scoped: bool)
    requires Runs(s, d, r) && Attends(s, d) && s.workers[d].phase.Escalating?
    ensures NotStruck(Escalate(s, d, scoped), d, r)
  {
    hide BindingNow;
  }

  /** So do the workers of other dispatches. */
  lemma OtherWorkersNotStruck(s: State, op: Op, d: nat, r: nat)
    requires Inv(s) && Runs(s, d, r) && WorkerOp(op) && op.d != d
    ensures NotStruck(Step(s, op), d, r)
  {
    StepKeeps(s, op);
    var e, t := op.d, Step(s, op);
    hide Inv, NotStruck, Runs;
    assert |s.runs| <= |t.runs|;
    hide Evolved;
    assert RowHeld(s, t, d) by { OtherWorkersHold(s, op, d); }
    HeldIsNotStruck(s, t, d, r);
  }

  /** Only cancelling its job cancels a dispatch behind a run that stays live. */
  lemma ClaimKept(s: State, op: Op, d: nat, r: nat)
    requires Inv(s) && Runs(s, d, r)
    requires op.CancelJobOp? ==> s.dispatches[d].job != op.j
    ensures var t := Step(s, op); LiveOn(t, d, r) ==> d < |t.dispatches| && t.dispatches[d].status.Claimed?
  {
    StepKeeps(s, op);
    hide Step, Inv, Evolved, Runs;
    if WorkerOp(op) {
      if op.d == d { OwnWorkerNotStruck(s, op, d, r); } else { OtherWorkersNotStruck(s, op, d, r); }
    } else { OthersNotStruck(s, op, d, r); }
    var t := Step(s, op);
    assert d < |t.dispatches| && NotStruck(t, d, r);
    if LiveOn(t, d, r) { AroundAt(t, d); }
  }

  // -- Cancelled behind a live run means asked to stop ------

  ghost predicate CancelledBehind(s: State, r: int) {
    && 0 <= r < |s.runs| && Live(s.runs[r].status)
    && s.runs[r].dispatch < |s.dispatches| && s.dispatches[s.runs[r].dispatch].status.Cancelled?
  }

  /** A live run whose dispatch was cancelled has been asked to stop. */
  ghost predicate Flagged(s: State) { forall r :: CancelledBehind(s, r) ==> s.runs[r].cancelRequested }

  lemma {:induction false} StopFlags(s: State, j: nat, n: nat, r: nat)
    requires r < |s.runs| && s.runs[r].job == j
    ensures var t := StopForJob(s, j, n);
      && r < |t.runs| && t.runs[r].job == j
      && (r < n && Live(t.runs[r].status) ==> t.runs[r].cancelRequested)
      && (r >= n ==> t.runs[r] == s.runs[r])
  {
    if n > 0 { StopFlags(s, j, n - 1, r); }
  }

  lemma CancelJobFlags(s: State, j: nat, next: Option<Time>, r: nat)
    requires Inv(s) && j < |s.jobs| && r < |s.runs| && s.runs[r].job == j
    ensures var t := CancelJob(s, j, next); r < |t.runs| && (Live(t.runs[r].status) ==> t.runs[r].cancelRequested)
  {
    var s0 := s.(jobs := s.jobs[j := s.jobs[j].(enabled := false)]);
    JobsChangeKeeps(s, s0);
    hide Inv, StrikeForJob, CancelForJob, StopForJob;
    StrikeForJobKeeps(s0, j, |s.dispatches|);
    var t := StrikeForJob(s0, j, |s.dispatches|);
    CancelForJobKeeps(t, j, next, |t.approvals|);
    var u := CancelForJob(t, j, next, |t.approvals|);
    assert RunEvolved(s0.runs[r], t.runs[r]) && RunEvolved(t.runs[r], u.runs[r]);
    StopFlags(u, j, |u.runs|, r);
  }

  lemma ExecuteKeepsRows(s: State, d: nat, actorFits: bool, next: Option<Time>)
    requires |Execute(s, d, actorFits, next).runs| > |s.runs|
    ensures Execute(s, d, actorFits, next).dispatches == s.dispatches
  {
    hide BeginDispatch;
    BeginAddsNothing(s, d, actorFits, next);
  }

  lemma StepFlags(s: State, op: Op)
    requires Inv(s) && Flagged(s)
    ensures Flagged(Step(s, op))
  {
    var t := Step(s, op);
    hide Step, Inv, Evolved;
    forall r | CancelledBehind(t, r) ensures t.runs[r].cancelRequested {
      if r < |s.runs| && Live(s.runs[r].status) { LiveRunFlagged(s, op, r); } else { NewRunClaimed(s, op, r); }
    }
  }

  lemma LiveRunFlagged(s: State, op: Op, r: nat)
    requires Inv(s) && Flagged(s) && r < |s.runs| && Live(s.runs[r].status)
    ensures var t := Step(s, op); var d := s.runs[r].dispatch;
      && r < |t.runs| && t.runs[r].dispatch == d < |t.dispatches|
      && (Live(t.runs[r].status) && t.dispatches[d].status.Cancelled? ==> t.runs[r].cancelRequested)
  {
    var t, d := Step(s, op), s.runs[r].dispatch;
    StepKeeps(s, op);
    AroundAt(s, d);
    assert LiveOn(s, d, r) && RunOn(s, d, r);
    assert RunEvolved(s.runs[r], t.runs[r]);
    hide Evolved, Around;
    assert CancelledBehind(s, r) <==> s.dispatches[d].status.Cancelled?;
    if s.dispatches[d].status.Claimed? {
      RunsWhen(s, d, r);
      hide Inv, Step;
      if op.CancelJobOp? && op.j == s.dispatches[d].job {
        CancelJobFlags(s, op.j, op.next, r);
        CancelJobIsStep(s, op.j, op.next);
      } else { ClaimKept(s, op, d, r); }
    }
  }

  lemma NewRunClaimed(s: State, op: Op, r: nat)
    requires Inv(s) && r < |Step(s, op).runs| && Live(Step(s, op).runs[r].status)
    requires r < |s.runs| ==> !Live(s.runs[r].status)
    ensures var t := Step(s, op);
      t.runs[r].dispatch < |t.dispatches| && !t.dispatches[t.runs[r].dispatch].status.Cancelled?
  {
    WhereExecutionsComeFrom(s, op, r);
    hide Inv;
    ExecuteKeepsRows(s, op.d, op.actorFits, op.next);
    hide Execute;
  }

  lemma {:induction false} HistoryFlags(s: State, ops: seq<Op>)
    requires Inv(s) && Flagged(s)
    ensures Flagged(After(s, ops))
    decreases |ops|
  {
    hide Inv, Step, Flagged, Evolved;
    if ops != [] {
      StepKeeps(s, ops[0]);
      StepFlags(s, ops[0]);
      HistoryFlags(Step(s, ops[0]), ops[1..]);
    }
  }

  // -- The window after the worker's check ------------------

  /** The worker of dispatch d in t is the one of s. */
  ghost predicate SameWorker(s: State, t: State, d: nat) {
    d in t.workers ==> d in s.workers && t.workers[d] == s.workers[d]
  }

  lemma OthersKeepWorkers(s: State, op: Op, d: nat)
    requires !WorkerOp(op)
    ensures SameWorker(s, Step(s, op), d)
  {
    hide CancelApproval, Decide, DeferApproval, CancelJob, RecoverStale, SweepDisabled, RecoverApprovals,
         CancelUnavailable, ReplayOrphan, BlockOrphan;
    match op
    case DecideOp(a, decision, actorFits, at, next) => DecideAddsNothing(s, a, decision, actorFits, at, next);
    case CancelOp(a, next) => CancelAddsNothing(s, a, next);
    case DeferOp(e, when) => DeferAddsNothing(s, e, when);
    case RecoverStaleOp(now) => QueueFoldsAddNothing(s, |s.dispatches|, 0, now);
    case SweepDisabledOp => QueueFoldsAddNothing(s, |s.dispatches|, 0, 0);
    case RecoverApprovalsOp(now, next) => ApprovalFoldsAddNothing(s, |s.approvals|, 0, now, next);
    case CancelUnavailableOp(next) => ApprovalFoldsAddNothing(s, |s.approvals|, 0, 0, next);
    case CancelJobOp(j, next) => CancelJobAddsNothing(s, j, next);
    case ReplayOp(r, when) => OrphansAddNothing(s, r, when);
    case BlockOp(r) => OrphansAddNothing(s, r, None);
    case _ =>
  }

  lemma OtherWorkersStay(s: State, op: Op, d: nat)
    requires WorkerOp(op) && op.d != d
    ensures SameWorker(s, Step(s, op), d)
  {
    hide Step, SameWorker;
    if op.OpenGateOp? || op.EscalateOp? { GateWorkersStay(s, op, d); }
    else if op.DropOp? || op.SkipMarkOp? || op.SkipBeginOp? || op.ExecuteOp? { ApprovalWorkersStay(s, op, d); }
    else { PlainWorkersStay(s, op, d); }
  }

  lemma PlainWorkersStay(s: State, op: Op, d: nat)
    requires op.StartOp? || op.RenewOp? || op.ReadGateOp? || op.HandBackOp? || op.SkipCloseOp? || op.ReadCancelOp?
      || op.FinishOp? || op.DieOp?
    requires op.d != d
    ensures SameWorker(s, Step(s, op), d)
  {}

  lemma ApprovalWorkersStay(s: State, op: Op, d: nat)
    requires op.DropOp? || op.SkipMarkOp? || op.SkipBeginOp? || op.ExecuteOp?
    requires op.d != d
    ensures SameWorker(s, Step(s, op), d)
  {
    hide CancelForDispatch, MarkDispatched, BeginDispatch, Consume;
    match op
    case DropOp(e, next) => LatestCancelAddsNothing(s, e, next);
    case SkipMarkOp(e, next) => LatestCancelAddsNothing(s, e, next); MarkAddsNothing(s, e);
    case SkipBeginOp(e, actorFits, next) => BeginAddsNothing(s, e, actorFits, next);
    case ExecuteOp(e, actorFits, next) => BeginAddsNothing(s, e, actorFits, next); ConsumeOnlySpends();
  }

  lemma GateWorkersStay(s: State, op: Op, d: nat)
    requires (op.OpenGateOp? || op.EscalateOp?) && op.d != d
    ensures SameWorker(s, Step(s, op), d)
  {
    hide OpenApproval;
    var e, scoped := op.d, op.scoped;
    if Attends(s, e) {
      if op.OpenGateOp? {
        OpenKeepsWorkers(AddRun(s, e, RunStatus.AwaitingApproval, None), e, |s.runs|, JobGate, scoped);
      } else if s.workers[e].phase.Escalating? && s.workers[e].phase.run < |s.runs| {
        OpenKeepsWorkers(s, e, s.workers[e].phase.run, AuthorizationGate, scoped);
      }
    }
  }

  lemma OpenKeepsWorkers(s: State, d: nat, r: nat, kind: GateKind, scoped: bool)
    requires d < |s.dispatches| && s.dispatches[d].job < |s.jobs| && r < |s.runs|
    ensures var t := OpenApproval(s, d, r, kind, scoped); t.Some? ==> t.value.workers == s.workers
  {
    hide BindingNow;
  }

  /** A worker that is about to escalate was so before, or has just found its run not cancelled. */
  lemma EscalatingFrom(s: State, op: Op, d: nat)
    requires d in Step(s, op).workers && Step(s, op).workers[d].phase.Escalating?
    ensures d in s.workers
    ensures s.workers[d] != Step(s, op).workers[d] ==>
      && op == ReadCancelOp(d) && Attends(s, d) && s.workers[d].phase == Executing(Step(s, op).workers[d].phase.run)
      && s.workers[d].phase.run < |s.runs| && !s.runs[s.workers[d].phase.run].cancelRequested
      && Step(s, op) == PutWorker(s, d, Escalating(s.workers[d].phase.run))
  {
    if !WorkerOp(op) { OthersKeepWorkers(s, op, d); }
    else if op.d != d { OtherWorkersStay(s, op, d); }
    else {
      hide OpenApproval, CancelForDispatch, MarkDispatched, BeginDispatch, BindingNow, Consume, Attends;
    }
  }

  function JobOf(s: State, d: nat): nat { if d < |s.dispatches| then s.dispatches[d].job else 0 }

  /** A worker on d that is about to escalate still has its claim. */
  ghost predicate EscalatesClaimed(s: State, d: nat) {
    d in s.workers && s.workers[d].phase.Escalating? ==> d < |s.dispatches| && s.dispatches[d].status.Claimed?
  }

  /** The job of dispatch d is cancelled between its worker's check and its escalation. */
  ghost predicate Disturbs(s: State, op: Op, d: nat) {
    op.CancelJobOp? && d in s.workers && s.workers[d].phase.Escalating? && op.j == JobOf(s, d)
  }

  ghost predicate Disturbed(s: State, ops: seq<Op>, d: nat)
    decreases |ops|
  {
    ops != [] && (Disturbs(s, ops[0], d) || Disturbed(Step(s, ops[0]), ops[1..], d))
  }

  lemma ClaimedByRead(s: State, op: Op, d: nat)
    requires Inv(s) && Flagged(s) && EscalatesClaimed(s, d) && !Disturbs(s, op, d)
    requires d in Step(s, op).workers && Step(s, op).workers[d].phase.Escalating?
    ensures d < |Step(s, op).dispatches| && Step(s, op).dispatches[d].status.Claimed?
  {
    var t := Step(s, op);
    EscalatingFrom(s, op, d);
    StepKeeps(s, op);
    AroundAt(s, d);
    hide Step;
    AroundAt(t, d);
    var r := s.workers[d].phase.run;
    hide Inv, Evolved, Around;
    assert LiveOn(s, d, r) && LiveOn(t, d, r);
    if s.workers[d] == t.workers[d] {
      RunsWhen(s, d, r);
      ClaimKept(s, op, d, r);
    } else {
      assert CancelledBehind(s, r) <==> s.dispatches[d].status.Cancelled?;
      assert t.dispatches == s.dispatches;
    }
  }

  lemma {:induction false} ClaimedUntilDisturbed(s: State, ops: seq<Op>, d: nat)
    requires Inv(s) && Flagged(s) && EscalatesClaimed(s, d) && !Disturbed(s, ops, d)
    ensures EscalatesClaimed(After(s, ops), d)
    decreases |ops|
  {
    if ops != [] {
      var t := Step(s, ops[0]);
      hide Inv, Step, Flagged, Evolved, Disturbs;
      StepKeeps(s, ops[0]);
      StepFlags(s, ops[0]);
      if d in t.workers && t.workers[d].phase.Escalating? { ClaimedByRead(s, ops[0], d); }
      ClaimedUntilDisturbed(t, ops[1..], d);
    }
  }

  /**
   Over any history an escalation meets a cancelled dispatch only if the job was
   cancelled between the worker's check and the escalation; the run it turns
   into a gate run has then been asked to stop.
   */
  lemma EscalatesCancelledOnlyInside(jobs: seq<Job>, ops: seq<Op>, op: Op)
    requires EscalatesCancelled(After(Initial(jobs), ops), op)
    ensures Disturbed(Initial(jobs), ops, op.d)
    ensures var t := After(Initial(jobs), ops);
      t.workers[op.d].phase.run < |t.runs| && t.runs[t.workers[op.d].phase.run].cancelRequested
  {
    var t, d := After(Initial(jobs), ops), op.d;
    HistoryKeeps(Initial(jobs), ops);
    HistoryFlags(Initial(jobs), ops);
    AroundAt(t, d);
    assert CancelledBehind(t, t.workers[d].phase.run);
    hide Inv, Around, Step, Evolved;
    if !Disturbed(Initial(jobs), ops, d) { ClaimedUntilDisturbed(Initial(jobs), ops, d); }
  }

  lemma {:induction false} ParkedUntilDisturbed(s: State, ops: seq<Op>)
    requires Inv(s) && Flagged(s) && Parked(s)
    requires forall d :: EscalatesClaimed(s, d) && !Disturbed(s, ops, d)
    ensures Parked(After(s, ops))
    decreases |ops|
  {
    if ops != [] {
      var t := Step(s, ops[0]);
      if ops[0].EscalateOp? { assert EscalatesClaimed(s, ops[0].d); }
      ParkedUnlessEscalatedLate(s, ops[0]);
      hide Inv, Step, Flagged, Evolved, EscalatesCancelled, Parked, Disturbs;
      StepKeeps(s, ops[0]);
      StepFlags(s, ops[0]);
      forall d ensures EscalatesClaimed(t, d) && !Disturbed(t, ops[1..], d) {
        assert EscalatesClaimed(s, d) && !Disturbed(s, ops, d);
        if d in t.workers && t.workers[d].phase.Escalating? { ClaimedByRead(s, ops[0], d); }
      }
      ParkedUntilDisturbed(t, ops[1..]);
    }
  }

  /** Unless such a cancellation comes in between, every pending approval of a history has its dispatch parked. */
  lemma ParkedInEveryOtherHistory(jobs: seq<Job>, ops: seq<Op>)
    requires forall d :: !Disturbed(Initial(jobs), ops, d)
    ensures Parked(After(Initial(jobs), ops))
  {
    ParkedUntilDisturbed(Initial(jobs), ops);
  }
}
