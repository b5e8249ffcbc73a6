/** What every history of claims, approvals, decisions, crashes and recoveries keeps. */
module GateTheorems {
  import opened Prelude
  import opened ApprovalBinding
  import opened Gate
  import opened GateInvariants
  import opened GateSteps
  import opened GateCounts

  // -- Every step, every history ----------------------------

  ghost predicate WorkerOp(op: Op) {
    op.StartOp? || op.RenewOp? || op.ReadGateOp? || op.HandBackOp? || op.DropOp? || op.OpenGateOp? || op.ExecuteOp?
    || op.SkipBeginOp? || op.SkipMarkOp? || op.SkipCloseOp? || op.ReadCancelOp? || op.EscalateOp?
    || op.FinishOp? || op.DieOp?
  }

  lemma WorkerStepKeeps(s: State, op: Op)
    requires Inv(s) && WorkerOp(op)
    ensures Inv(Step(s, op)) && Evolved(s, Step(s, op))
  {
    hide Inv, Evolved, StartWorker, RenewClaim, ReadGate, HandBack, Drop, OpenGate, Execute,
         SkipBegin, SkipMark, SkipClose, ReadCancellation, Escalate, Finish;
    match op
    case StartOp(d, at) => StartKeeps(s, d, at);
    case RenewOp(d, now, at) => if d in s.workers { RenewKeeps(s, d, s.workers[d].token, now, at); } else { Stays(s); }
    case ReadGateOp(d) => ReadGateKeeps(s, d);
    case HandBackOp(d, when) => HandBackKeeps(s, d, when);
    case DropOp(d, next) => DropKeeps(s, d, next);
    case OpenGateOp(d, scoped) => OpenGateKeeps(s, d, scoped);
    case ExecuteOp(d, actorFits, next) => ExecuteKeeps(s, d, actorFits, next);
    case SkipBeginOp(d, actorFits, next) => SkipBeginKeeps(s, d, actorFits, next);
    case SkipMarkOp(d, next) => SkipMarkKeeps(s, d, next);
    case SkipCloseOp(d) => SkipCloseKeeps(s, d);
    case ReadCancelOp(d) => ReadCancelKeeps(s, d);
    case EscalateOp(d, scoped) => EscalateKeeps(s, d, scoped);
    case FinishOp(d, status, outcome) => if Final(status) { FinishKeeps(s, d, status, outcome); } else { Stays(s); }
    case DieOp(d) => WorkerEnds(s, d);
  }

  lemma OtherStepKeeps(s: State, op: Op)
    requires Inv(s) && !WorkerOp(op)
    ensures Inv(Step(s, op)) && Evolved(s, Step(s, op))
  {
    hide Inv, Evolved, Enqueue, SetSchedule, Decide, CancelApproval, DeferApproval, RecoverStale,
         RecoverApprovals, CancelUnavailable, SweepDisabled, CancelJob, TimeOutRun, ReplayOrphan, BlockOrphan;
    match op
    case AddJobOp(job) => JobsChangeKeeps(s, Step(s, op));
    case EditJobOp(j, job) => JobsChangeKeeps(s, Step(s, op));
    case EnqueueOp(j, kind, origin, at) => EnqueueKeeps(s, j, kind, origin, at);
    case RescheduleOp(d, at) => ScheduleKeeps(s, d, at);
    case CrashOp => CrashKeeps(s);
    case DecideOp(a, decision, actorFits, at, next) => DecideKeeps(s, a, decision, actorFits, at, next);
    case CancelOp(a, next) => CancelKeeps(s, a, next);
    case DeferOp(d, when) => DeferKeeps(s, d, when);
    case RecoverStaleOp(now) => RecoverStaleKeeps(s, now, |s.dispatches|);
    case RecoverApprovalsOp(now, next) => RecoverApprovalsKeeps(s, now, next, |s.approvals|);
    case CancelUnavailableOp(next) => CancelUnavailableKeeps(s, next, |s.approvals|);
    case SweepDisabledOp => SweepDisabledKeeps(s, |s.dispatches|);
    case CancelJobOp(j, next) => CancelJobKeeps(s, j, next);
    case RequestCancelOp(r) => RequestCancelKeeps(s, r);
    case TimeOutRunOp(r) => TimeOutKeeps(s, r);
    case ReplayOp(r, when) => ReplayKeeps(s, r, when);
    case BlockOp(r) => BlockKeeps(s, r);
  }

  lemma StepKeeps(s: State, op: Op)
    requires Inv(s)
    ensures Inv(Step(s, op)) && Evolved(s, Step(s, op))
  {
    hide Inv, Evolved, Step;
    if WorkerOp(op) { WorkerStepKeeps(s, op); } else { OtherStepKeeps(s, op); }
  }

  lemma {:induction false} HistoryKeeps(s: State, ops: seq<Op>)
    requires Inv(s)
    ensures Inv(After(s, ops)) && Evolved(s, After(s, ops))
    decreases |ops|
  {
    hide Inv, Evolved, Step;
    if ops == [] { Stays(s); } else {
      StepKeeps(s, ops[0]);
      HistoryKeeps(Step(s, ops[0]), ops[1..]);
      EvolvedTransitive(s, Step(s, ops[0]), After(s, ops));
    }
  }

  lemma CancelJobIsStep(s: State, j: nat, next: Option<Time>)
    ensures Step(s, CancelJobOp(j, next)) == CancelJob(s, j, next)
  {}

  function Initial(jobs: seq<Job>): State { State(jobs, [], [], [], map[], 0, 0) }

  /** Over any history no dispatch has two live runs, and a queued or parked one has none. */
  lemma OneLiveRun(jobs: seq<Job>, ops: seq<Op>, r: nat, q: nat)
    requires var t := After(Initial(jobs), ops);
      && r < |t.runs| && q < |t.runs|
      && Live(t.runs[r].status) && Live(t.runs[q].status) && t.runs[r].dispatch == t.runs[q].dispatch
    ensures r == q
    ensures var t := After(Initial(jobs), ops);
      var d := t.runs[r].dispatch;
      && d < |t.dispatches|
      && (t.dispatches[d].status.Claimed? || t.dispatches[d].status.Cancelled?)
      && forall a :: ApprovalOn(t, d, a) ==> t.approvals[a].status.Dispatched?
  {
    HistoryKeeps(Initial(jobs), ops);
    var t := After(Initial(jobs), ops);
    var d := t.runs[r].dispatch;
    AroundAt(t, d);
    assert LiveOn(t, d, r) && LiveOn(t, d, q);
  }

  /** Over any history an approval, its gate run and its dispatch agree. */
  lemma GatesCoupled(jobs: seq<Job>, ops: seq<Op>, a: nat)
    requires a < |After(Initial(jobs), ops).approvals|
    ensures Coupled(After(Initial(jobs), ops), a)
  {
    HistoryKeeps(Initial(jobs), ops);
    var t := After(Initial(jobs), ops);
    AroundAt(t, t.approvals[a].dispatch);
    assert ApprovalOn(t, t.approvals[a].dispatch, a);
  }

  ghost predicate Refusal(st: ApprovalStatus) { st.Rejected? || st.TimedOut? || st.Cancelled? }

  lemma EndedStaysEnded(p: ApprovalStatus, q: ApprovalStatus, k: nat)
    requires !Active(p) && Walks(p, q, k)
    ensures q == p && k == 0
  {}

  /**
   A refused approval stays refused, its dispatch stays closed as it was, and no
   run ever spends it, whatever happens afterwards.
   */
  lemma RefusedForGood(s: State, ops: seq<Op>, a: nat)
    requires Inv(s) && a < |s.approvals| && Refusal(s.approvals[a].status)
    ensures var t := After(s, ops); var d := s.approvals[a].dispatch;
      && a < |t.approvals| && t.approvals[a] == s.approvals[a]
      && d < |s.dispatches| && d < |t.dispatches|
      && t.dispatches[d].status == s.dispatches[d].status && !Open(t.dispatches[d].status)
      && forall r :: 0 <= r < |t.runs| ==> t.runs[r].approvalUsed != Some(a)
  {
    var t, d := After(s, ops), s.approvals[a].dispatch;
    HistoryKeeps(s, ops);
    AroundAt(s, d);
    assert ApprovalOn(s, d, a);
    assert Coupled(s, a);
    assert ApprovalEvolved(s.approvals[a], t.approvals[a]);
    EndedStaysEnded(s.approvals[a].status, t.approvals[a].status, t.approvals[a].version - s.approvals[a].version);
    assert DispatchEvolved(s.dispatches[d], t.dispatches[d]);
    forall r | 0 <= r < |t.runs| ensures t.runs[r].approvalUsed != Some(a) {
      AroundAt(t, t.runs[r].dispatch);
      assert !Uses(t, t.runs[r].dispatch, r, a);
    }
  }

  /** At most one run ever spends an approval, and only one that ended as dispatched. */
  lemma SpentOnce(jobs: seq<Job>, ops: seq<Op>, a: nat, r: nat, q: nat)
    requires var t := After(Initial(jobs), ops);
      r < |t.runs| && q < |t.runs| && t.runs[r].approvalUsed == Some(a) && t.runs[q].approvalUsed == Some(a)
    ensures r == q
    ensures var t := After(Initial(jobs), ops);
      a < |t.approvals| && t.approvals[a].status.Dispatched? && t.approvals[a].dispatch == t.runs[r].dispatch
      && t.approvals[a].run != r
  {
    HistoryKeeps(Initial(jobs), ops);
    var t := After(Initial(jobs), ops);
    var d, e := t.runs[r].dispatch, t.runs[q].dispatch;
    AroundAt(t, d);
    AroundAt(t, e);
    assert Uses(t, d, r, a) && Uses(t, e, q, a);
  }

  // -- Enqueueing under an id -------------------------------

  /**
   The dispatch under an id is there for good: whatever happens in between, a
   repeated call changes nothing, and returns that dispatch exactly if it asks
   for the same job, kind and source run.
   */
  lemma EnqueuedForGood(s: State, stored: Option<nat>, j: nat, kind: Kind, origin: Origin, at: Time, ops: seq<Op>,
                        i: nat, otherKind: Kind, other: Origin, later: Time)
    requires Inv(s) && EnqueueUnder(s, stored, j, kind, origin, at).1.Success?
    ensures var (u, r) := EnqueueUnder(s, stored, j, kind, origin, at); var t := After(u, ops);
      i < |t.jobs| ==>
        EnqueueUnder(t, Some(r.value), i, otherKind, other, later)
        == (t, if i == j && otherKind == kind && other.sourceRun == origin.sourceRun
               then Success(r.value) else Failure(OtherDispatch(r.value)))
  {
    var (u, r) := EnqueueUnder(s, stored, j, kind, origin, at);
    EnqueueKeeps(s, j, kind, origin, at);
    assert Inv(u);
    assert r.value < |u.dispatches| && SameDispatch(u.dispatches[r.value], j, kind, origin);
    HistoryKeeps(u, ops);
    var t := After(u, ops);
    hide Inv, After;
    assert DispatchEvolved(u.dispatches[r.value], t.dispatches[r.value]);
  }

  // -- Where executions come from ---------------------------

  /** Run r of t is the execution the worker on d created from s, and is entitled to. */
  ghost predicate Entitled(s: State, t: State, d: nat, r: nat, actorFits: bool)
    requires r < |t.runs|
  {
    && Attends(s, d) && HoldsClaim(s, d) && s.jobs[s.dispatches[d].job].enabled
    && t.runs[r].dispatch == d && d in t.workers && t.workers[d].phase == Executing(r)
    && match t.runs[r].approvalUsed
       case None => !s.workers[d].gated && NoActiveOn(s, d)
       case Some(a) =>
         && a < |s.approvals| && s.approvals[a].dispatch == d && s.approvals[a].status.Approved?
         && BindingNow(s, d) == Success(s.approvals[a].binding)
         && (s.approvals[a].scoped ==> actorFits)
         && a < |t.approvals|
         && t.approvals[a]
            == s.approvals[a].(status := ApprovalStatus.Dispatched, version := s.approvals[a].version + 2)
  }

  /**
   A run becomes live in one way only: the worker that holds the current claim
   of its dispatch creates it while the job is enabled. Without an approval,
   the job did not ask for one when the worker started and none is active; with
   one, that approval was granted, its binding still is the job's, and it is
   spent in the same transaction, two versions on.
   */
  lemma WhereExecutionsComeFrom(s: State, op: Op, r: nat)
    requires Inv(s) && r < |Step(s, op).runs| && Live(Step(s, op).runs[r].status)
    requires r < |s.runs| ==> !Live(s.runs[r].status)
    ensures r == |s.runs| && op.ExecuteOp? && Entitled(s, Step(s, op), op.d, r, op.actorFits)
  {
    hide Entitled, Inv;
    var t := Step(s, op);
    StepKeeps(s, op);
    NothingRevives(s, t);
    hide Evolved;
    if op.OpenGateOp? { OpenGateAddsNoLiveRun(s, op.d, op.scoped); }
    if op.EscalateOp? { EscalateAddsNoRun(s, op.d, op.scoped); }
    if !op.OpenGateOp? && !op.ExecuteOp? && !op.EscalateOp? { OthersAddNothing(s, op); }
    hide OpenGate, Escalate, Step;
    assert op.ExecuteOp?;
    ExecuteAddsRun(s, op.d, op.actorFits, op.next);
    assert t == Execute(s, op.d, op.actorFits, op.next);
  }

  lemma NothingRevives(s: State, t: State)
    requires Evolved(s, t)
    ensures forall r :: 0 <= r < |s.runs| && Live(t.runs[r].status) ==> Live(s.runs[r].status)
  {
    forall r | 0 <= r < |s.runs| && Live(t.runs[r].status) ensures Live(s.runs[r].status) {
      assert RunEvolved(s.runs[r], t.runs[r]);
    }
  }

  lemma OpenGateAddsNoLiveRun(s: State, d: nat, scoped: bool)
    requires Inv(s)
    ensures var t := OpenGate(s, d, scoped);
      |t.runs| <= |s.runs| + 1 && (|t.runs| > |s.runs| ==> !Live(t.runs[|s.runs|].status))
  {}

  lemma ExecuteAddsRun(s: State, d: nat, actorFits: bool, next: Option<Time>)
    requires Inv(s) && |Execute(s, d, actorFits, next).runs| > |s.runs|
    ensures |Execute(s, d, actorFits, next).runs| == |s.runs| + 1
    ensures Entitled(s, Execute(s, d, actorFits, next), d, |s.runs|, actorFits)
  {
    AroundAt(s, d);
    BeginAddsNothing(s, d, actorFits, next);
    if s.workers[d].phase.gate.Some? {
      var b := BeginDispatch(s, d, actorFits, next);
      BeginNeeds(s, d, actorFits, next);
      hide Inv, Around, BeginDispatch;
    }
  }

  /** What an approval must be for its dispatch to begin. */
  lemma BeginNeeds(s: State, d: nat, actorFits: bool, next: Option<Time>)
    requires d < |s.dispatches| && Around(s, d)
    ensures var b := BeginDispatch(s, d, actorFits, next); b.Began? ==>
      var a := b.approval;
      && s.approvals[a].dispatch == d && s.approvals[a].status.Approved? && s.approvals[a].run < |s.runs|
      && Enabled(s, s.dispatches[d].job) && BindingNow(s, d) == Success(s.approvals[a].binding)
      && (s.approvals[a].scoped ==> actorFits)
  {
    match Latest(s.approvals, d, |s.approvals|)
    case None =>
    case Some(a) =>
      assert ApprovalOn(s, d, a);
      assert Coupled(s, a);
  }
}
