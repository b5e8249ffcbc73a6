/**
 A dispatch that waits behind an approval moves only when the approval does.
 Two consequences are exact: when a pending approval's dispatch is parked, and
 that a granted claim whose worker was lost stays lost until it is cancelled.
 */
module GateExact {
  import opened Prelude
  import opened ApprovalBinding
  import opened Gate
  import opened GateInvariants
  import opened GateSteps
  import opened GateTheorems
  import opened GateRecovery

  /** Dispatch d has no worker and is held by approval a, which is pending or approved. */
  ghost predicate HeldBy(s: State, d: nat, a: nat) {
    && d < |s.dispatches| && d !in s.workers
    && (s.dispatches[d].status.AwaitingApproval? || s.dispatches[d].status.Claimed?)
    && ActiveOn(s, d, a) && !s.approvals[a].status.Dispatching?
  }

  /** The row of d and its approvals are as they were and no worker has come to it. */
  ghost predicate RowHeld(s: State, t: State, d: nat) {
    && d < |s.dispatches| && d < |t.dispatches| && t.dispatches[d] == s.dispatches[d]
    && (d in t.workers ==> d in s.workers)
    && forall a :: ApprovalOn(s, d, a) ==> a < |t.approvals| && t.approvals[a] == s.approvals[a]
  }

  /** Approval a was refused, or granted if it was pending. */
  ghost predicate Decided(s: State, t: State, a: nat) {
    && a < |s.approvals| && a < |t.approvals|
    && (Refusal(t.approvals[a].status) || (s.approvals[a].status.Pending? && t.approvals[a].status.Approved?))
  }

  ghost predicate Held(s: State, t: State, d: nat, a: nat) {
    Decided(s, t, a) || RowHeld(s, t, d)
  }

  lemma OnlyActiveOn(s: State, d: nat, a: nat, b: nat)
    requires Inv(s) && HeldBy(s, d, a) && ApprovalOn(s, d, b) && b != a
    ensures b < a && !Active(s.approvals[b].status)
  {
    AroundAt(s, d);
    assert !ActiveOn(s, d, b);
  }

  /** Cancelling any approval moves a, or leaves the row it holds. */
  lemma CancelHolds(s: State, b: nat, next: Option<Time>, d: nat, a: nat)
    requires Inv(s) && HeldBy(s, d, a)
    ensures Held(s, CancelApproval(s, b, next), d, a)
  {
    var t := CancelApproval(s, b, next);
    if b == a { CancelOwn(s, a, next); }
    else if b < |s.approvals| && s.approvals[b].dispatch == d {
      OnlyActiveOn(s, d, a, b);
      assert t == s;
    } else {
      hide CancelApproval;
      CancelElsewhere(s, b, next, d);
    }
  }

  lemma LatestCancelHolds(s: State, e: nat, next: Option<Time>, d: nat)
    requires Inv(s) && d < |s.dispatches| && e != d
    ensures RowHeld(s, CancelForDispatch(s, e, next), d)
  {
    hide CancelApproval;
    var b := LatestActive(s.approvals, e, |s.approvals|);
    if b.Some? { CancelElsewhere(s, b.value, next, d); }
  }

  lemma BeginHolds(s: State, e: nat, actorFits: bool, next: Option<Time>, d: nat)
    requires Inv(s) && d < |s.dispatches| && e != d
    ensures var b := BeginDispatch(s, e, actorFits, next);
      && (b.Declined? ==> RowHeld(s, b.state, d))
      && (b.Began? ==> s.approvals[b.approval].dispatch == e)
  {
    hide CancelApproval, BindingRaises;
    var b := Latest(s.approvals, e, |s.approvals|);
    if b.Some? {
      NeverMismatched(s, b.value);
      CancelElsewhere(s, b.value, next, d);
    }
  }

  lemma DeferHolds(s: State, e: nat, when: Option<Time>, d: nat, a: nat)
    requires Inv(s) && HeldBy(s, d, a)
    ensures RowHeld(s, DeferApproval(s, e, when), d)
  {
    var b := Latest(s.approvals, e, |s.approvals|);
    if e == d && b.Some? && b.value != a { OnlyActiveOn(s, d, a, b.value); }
  }

  lemma DecideMovesOwn(s: State, a: nat, decision: Decision, actorFits: bool, at: Time, next: Option<Time>)
    requires a < |s.approvals|
    ensures var t := Decide(s, a, decision, actorFits, at, next); t == s || Decided(s, t, a)
  {
    hide Refused, BindingRaises, Overtaken;
    forall st: ApprovalStatus
      ensures Refused(PutApproval(s, a, st), s.approvals[a], next).approvals == PutApproval(s, a, st).approvals
    {
      RefusedRows(PutApproval(s, a, st), s.approvals[a], next);
    }
  }

  lemma DecideElsewhere(s: State, b: nat, decision: Decision, actorFits: bool, at: Time, next: Option<Time>, d: nat)
    requires Inv(s) && d < |s.dispatches| && b < |s.approvals| && s.approvals[b].dispatch != d
    ensures RowHeld(s, Decide(s, b, decision, actorFits, at, next), d)
  {
    hide Refused, BindingRaises, Overtaken, Inv;
    if s.approvals[b].status.Pending? {
      RefusalElsewhere(s, b, ApprovalStatus.Cancelled, next, d);
      RefusalElsewhere(s, b, ApprovalStatus.Rejected, next, d);
      RefusalElsewhere(s, b, ApprovalStatus.TimedOut, next, d);
    }
  }

  lemma DecideHolds(s: State, b: nat, decision: Decision, actorFits: bool, at: Time, next: Option<Time>, d: nat, a: nat)
    requires Inv(s) && HeldBy(s, d, a)
    ensures var t := Decide(s, b, decision, actorFits, at, next); Held(s, t, d, a)
  {
    if b < |s.approvals| && s.approvals[b].status.Pending? {
      if b != a && s.approvals[b].dispatch == d { OnlyActiveOn(s, d, a, b); }
      hide Decide;
      if b == a { DecideMovesOwn(s, a, decision, actorFits, at, next); }
      else { DecideElsewhere(s, b, decision, actorFits, at, next, d); }
    }
  }

  lemma OrphansHold(s: State, r: nat, when: Option<Time>, d: nat, a: nat)
    requires Inv(s) && HeldBy(s, d, a)
    ensures RowHeld(s, ReplayOrphan(s, r, when), d) && RowHeld(s, BlockOrphan(s, r), d)
  {
    AroundAt(s, d);
    assert r < |s.runs| && s.runs[r].status.Running? ==> !LiveOn(s, d, r);
  }

  lemma {:induction false} UnavailableHolds(s: State, next: Option<Time>, n: nat, d: nat, a: nat)
    requires Inv(s) && HeldBy(s, d, a)
    ensures Held(s, CancelUnavailable(s, next, n), d, a)
  {
    hide CancelApproval, Inv, Evolved, HeldBy, Held;
    if n > 0 {
      UnavailableHolds(s, next, n - 1, d, a);
      CancelUnavailableKeeps(s, next, n - 1);
      UnavailableOne(s, CancelUnavailable(s, next, n - 1), n - 1, next, d, a);
    } else {
      HeldStill(s, d, a);
    }
  }

  lemma UnavailableOne(s: State, t: State, b: nat, next: Option<Time>, d: nat, a: nat)
    requires HeldBy(s, d, a) && Inv(t) && Held(s, t, d, a)
    ensures var u := if b < |t.approvals| && !Enabled(t, t.approvals[b].job) then CancelApproval(t, b, next) else t;
      Held(s, u, d, a)
  {
    hide Inv, CancelApproval, HeldBy, Held;
    CancelMovesOn(s, t, b, next, d, a);
  }

  /** The same from a later state: an approval that has moved does not come back. */
  lemma CancelMovesOn(s: State, t: State, b: nat, next: Option<Time>, d: nat, a: nat)
    requires HeldBy(s, d, a) && Inv(t)
    requires Held(s, t, d, a)
    ensures var u := CancelApproval(t, b, next); Held(s, u, d, a)
  {
    var u := CancelApproval(t, b, next);
    if Decided(s, t, a) {
      CancelOnlyOne(t, b, next);
      CancelOwn(t, a, next);
    } else {
      hide CancelApproval;
      RowHeldTransfers(s, t, d, a);
      CancelHolds(t, b, next, d, a);
    }
  }

  lemma CancelOwn(s: State, a: nat, next: Option<Time>)
    requires a < |s.approvals|
    ensures var t := CancelApproval(s, a, next);
      a < |t.approvals|
      && t.approvals[a].status
         == if Active(s.approvals[a].status) then ApprovalStatus.Cancelled else s.approvals[a].status
  {
    hide Refused;
    RefusedRows(PutApproval(s, a, ApprovalStatus.Cancelled), s.approvals[a], next);
  }

  lemma RowHeldTransfers(s: State, t: State, d: nat, a: nat)
    requires HeldBy(s, d, a) && RowHeld(s, t, d)
    ensures HeldBy(t, d, a)
  {
    assert ApprovalOn(s, d, a);
  }

  lemma {:induction false} StrikeHolds(s: State, j: nat, n: nat, d: nat)
    requires d < |s.dispatches| && s.dispatches[d].job != j
    ensures var t := StrikeForJob(s, j, n); RowHeld(s, t, d) && t.workers == s.workers && t.approvals == s.approvals
  {
    if n > 0 { StrikeHolds(s, j, n - 1, d); }
  }

  lemma {:induction false} CancelForJobHolds(s: State, j: nat, next: Option<Time>, n: nat, d: nat, a: nat)
    requires Inv(s) && HeldBy(s, d, a)
    ensures Held(s, CancelForJob(s, j, next, n), d, a)
  {
    hide CancelApproval, Inv, Evolved, HeldBy, Held, NoneActiveFor;
    if n > 0 {
      CancelForJobHolds(s, j, next, n - 1, d, a);
      CancelForJobKeeps(s, j, next, n - 1);
      CancelForJobOne(s, CancelForJob(s, j, next, n - 1), j, n - 1, next, d, a);
    } else {
      HeldStill(s, d, a);
    }
  }

  lemma CancelForJobOne(s: State, t: State, j: nat, b: nat, next: Option<Time>, d: nat, a: nat)
    requires HeldBy(s, d, a) && Inv(t) && Held(s, t, d, a)
    ensures Held(s, if b < |t.approvals| && t.approvals[b].job == j then CancelApproval(t, b, next) else t, d, a)
  {
    hide Inv, CancelApproval, HeldBy, Held;
    CancelMovesOn(s, t, b, next, d, a);
  }

  lemma HeldStill(s: State, d: nat, a: nat)
    requires HeldBy(s, d, a)
    ensures Held(s, s, d, a)
  {}

  lemma {:induction false} StopHolds(s: State, j: nat, n: nat)
    ensures var t := StopForJob(s, j, n);
      t.dispatches == s.dispatches && t.workers == s.workers && t.approvals == s.approvals
  {
    if n > 0 { StopHolds(s, j, n - 1); }
  }

  lemma CancelJobHolds(s: State, j: nat, next: Option<Time>, d: nat, a: nat)
    requires Inv(s) && HeldBy(s, d, a)
    ensures Held(s, CancelJob(s, j, next), d, a)
  {
    HeldStill(s, d, a);
    if j < |s.jobs| {
      hide Inv, HeldBy, Held;
      var s0 := s.(jobs := s.jobs[j := s.jobs[j].(enabled := false)]);
      CancelJobHoldsApproval(s, s0, j, next, d, a);
      hide StrikeForJob, CancelForJob, StopForJob;
      var t := StrikeForJob(s0, j, |s.dispatches|);
      var u := CancelForJob(t, j, next, |t.approvals|);
      StopHolds(u, j, |u.runs|);
      HeldAlike(s, u, StopForJob(u, j, |u.runs|), d, a);
    }
  }

  lemma HeldAlike(s: State, t: State, u: State, d: nat, a: nat)
    requires Held(s, t, d, a) && u.dispatches == t.dispatches && u.workers == t.workers && u.approvals == t.approvals
    ensures Held(s, u, d, a)
  {}

  lemma CancelJobHoldsApproval(s: State, s0: State, j: nat, next: Option<Time>, d: nat, a: nat)
    requires Inv(s) && HeldBy(s, d, a) && s0 == s.(jobs := s0.jobs) && |s0.jobs| == |s.jobs|
    ensures var t := StrikeForJob(s0, j, |s.dispatches|); Held(s, CancelForJob(t, j, next, |t.approvals|), d, a)
  {
    AroundAt(s, d);
    assert Coupled(s, a);
    hide Inv, Evolved, Around, Coupled, Held, NoneActiveFor;
    JobsChangeKeeps(s, s0);
    StrikeForJobKeeps(s0, j, |s.dispatches|);
    StrikeKeepsApprovals(s0, j, |s.dispatches|);
    var t := StrikeForJob(s0, j, |s.dispatches|);
    if s.approvals[a].job == j {
      CancelForJobCancels(t, j, next, |t.approvals|, a);
      CancelledIsHeld(s, CancelForJob(t, j, next, |t.approvals|), d, a);
    } else {
      StrikeHolds(s0, j, |s.dispatches|, d);
      HeldByTransfers(s, t, d, a);
      CancelForJobHolds(t, j, next, |t.approvals|, d, a);
      HeldBefore(s, t, CancelForJob(t, j, next, |t.approvals|), d, a);
    }
  }

  lemma CancelledIsHeld(s: State, u: State, d: nat, a: nat)
    requires a < |s.approvals| && a < |u.approvals| && u.approvals[a].status.Cancelled?
    ensures Held(s, u, d, a)
  {}

  lemma HeldBefore(s: State, t: State, u: State, d: nat, a: nat)
    requires t.approvals == s.approvals && t.workers == s.workers && RowHeld(s, t, d) && Held(t, u, d, a)
    ensures Held(s, u, d, a)
  {
    assert forall b :: ApprovalOn(s, d, b) ==> ApprovalOn(t, d, b);
  }

  lemma HeldByTransfers(s: State, t: State, d: nat, a: nat)
    requires HeldBy(s, d, a) && t.approvals == s.approvals && t.workers == s.workers && RowHeld(s, t, d)
    ensures HeldBy(t, d, a)
  {
    assert ApprovalOn(s, d, a);
  }

  lemma {:induction false} StrikeKeepsApprovals(s: State, j: nat, n: nat)
    ensures StrikeForJob(s, j, n).approvals == s.approvals
  {
    if n > 0 { StrikeKeepsApprovals(s, j, n - 1); }
  }

  lemma {:induction false} CancelForJobCancels(s: State, j: nat, next: Option<Time>, n: nat, a: nat)
    requires a < |s.approvals| && s.approvals[a].job == j && Active(s.approvals[a].status)
    ensures var t := CancelForJob(s, j, next, n);
      && a < |t.approvals| && t.approvals[a].job == j
      && (a < n ==> t.approvals[a].status.Cancelled?)
      && (a >= n ==> t.approvals[a] == s.approvals[a])
  {
    hide CancelApproval;
    if n > 0 {
      CancelForJobCancels(s, j, next, n - 1, a);
      var t := CancelForJob(s, j, next, n - 1);
      CancelOnlyOne(t, n - 1, next);
      CancelOwn(t, a, next);
    }
  }

  lemma {:induction false} SweepHolds(s: State, n: nat, d: nat)
    requires n <= |s.dispatches| && d < |s.dispatches| && !s.dispatches[d].status.Pending?
    ensures var t := SweepDisabled(s, n); RowHeld(s, t, d) && t.workers == s.workers
  {
    if n > 0 { SweepHolds(s, n - 1, d); }
  }

  lemma SweepsHold(s: State, now: Time, next: Option<Time>, d: nat, a: nat)
    requires Inv(s) && HeldBy(s, d, a)
    ensures RowHeld(s, RecoverStale(s, now, |s.dispatches|), d)
    ensures RowHeld(s, RecoverApprovals(s, now, next, |s.approvals|), d)
    ensures RowHeld(s, SweepDisabled(s, |s.dispatches|), d)
  {
    AroundAt(s, d);
    assert Coupled(s, a);
    assert RunOn(s, d, s.approvals[a].run);
    assert !DispatchingBelow(s, d, |s.approvals|) by {
      forall b | ApprovalOn(s, d, b) ensures !s.approvals[b].status.Dispatching? {
        if b != a { OnlyActiveOn(s, d, a, b); }
      }
    }
    hide Inv, Around, RecoverStale, RecoverApprovals, SweepDisabled;
    StaleRows(s, now, |s.dispatches|, d);
    RecoveryLeaves(s, now, next, |s.approvals|, d);
    SweepHolds(s, |s.dispatches|, d);
  }

  lemma WorkersHold(s: State, op: Op, d: nat)
    requires d < |s.dispatches|
    requires op.StartOp? || op.RenewOp? || op.ReadGateOp? || op.HandBackOp? || op.SkipCloseOp? || op.ReadCancelOp?
      || op.FinishOp? || op.DieOp?
    requires op.d != d
    ensures RowHeld(s, Step(s, op), d)
  {}

  lemma OpenElsewhere(s: State, e: nat, r: nat, kind: GateKind, scoped: bool, d: nat)
    requires e < |s.dispatches| && s.dispatches[e].job < |s.jobs| && r < |s.runs| && d < |s.dispatches| && e != d
    ensures var t := OpenApproval(s, e, r, kind, scoped); t.Some? ==> RowHeld(s, t.value, d)
  {
    hide BindingNow;
  }

  lemma GatesHold(s: State, op: Op, d: nat)
    requires Inv(s) && d < |s.dispatches| && (op.OpenGateOp? || op.EscalateOp?) && op.d != d
    ensures RowHeld(s, Step(s, op), d)
  {
    hide Inv, OpenApproval;
    if Attends(s, op.d) {
      if op.OpenGateOp? {
        OpenElsewhere(AddRun(s, op.d, RunStatus.AwaitingApproval, None), op.d, |s.runs|, JobGate, op.scoped, d);
      } else if s.workers[op.d].phase.Escalating? && s.workers[op.d].phase.run < |s.runs| {
        OpenElsewhere(s, op.d, s.workers[op.d].phase.run, AuthorizationGate, op.scoped, d);
      }
    }
  }

  lemma DropsHold(s: State, op: Op, d: nat)
    requires Inv(s) && d < |s.dispatches| && (op.DropOp? || op.SkipMarkOp?) && op.d != d
    ensures RowHeld(s, Step(s, op), d)
  {
    hide Inv, CancelForDispatch, MarkDispatched;
    LatestCancelHolds(s, op.d, op.next, d);
    MarkHolds(s, op.d);
  }

  lemma ExecuteHolds(s: State, e: nat, actorFits: bool, next: Option<Time>, d: nat)
    requires Inv(s) && d < |s.dispatches| && e != d
    ensures RowHeld(s, Execute(s, e, actorFits, next), d)
  {
    hide Inv, BeginDispatch, Consume;
    BeginHolds(s, e, actorFits, next, d);
    ConsumeOnlySpends();
  }

  lemma SkipHolds(s: State, e: nat, actorFits: bool, next: Option<Time>, d: nat)
    requires Inv(s) && d < |s.dispatches| && e != d
    ensures RowHeld(s, SkipBegin(s, e, actorFits, next), d)
  {
    hide Inv, BeginDispatch;
    BeginHolds(s, e, actorFits, next, d);
  }

  lemma BeginsHold(s: State, op: Op, d: nat)
    requires Inv(s) && d < |s.dispatches| && (op.ExecuteOp? || op.SkipBeginOp?) && op.d != d
    ensures RowHeld(s, Step(s, op), d)
  {
    hide Inv;
    ExecuteHolds(s, op.d, op.actorFits, op.next, d);
    SkipHolds(s, op.d, op.actorFits, op.next, d);
    hide Execute, SkipBegin;
  }

  lemma ConsumeOnlySpends()
    ensures forall s: State, a: nat {:trigger Consume(s, a)} | a < |s.approvals| ::
      var t := Consume(s, a);
      && t.dispatches == s.dispatches && t.workers == s.workers && |t.approvals| == |s.approvals|
      && forall b :: 0 <= b < |s.approvals| && b != a ==> t.approvals[b] == s.approvals[b]
  {}

  lemma MarkHolds(s: State, e: nat)
    ensures var t := MarkDispatched(s, e);
      && t.dispatches == s.dispatches && t.workers == s.workers && |t.approvals| == |s.approvals|
      && forall b :: 0 <= b < |s.approvals| && s.approvals[b].dispatch != e ==> t.approvals[b] == s.approvals[b]
  {}

  /** A worker leaves the row and the approvals of every dispatch but its own. */
  lemma OtherWorkersHold(s: State, op: Op, d: nat)
    requires Inv(s) && d < |s.dispatches| && WorkerOp(op) && op.d != d
    ensures RowHeld(s, Step(s, op), d)
  {
    hide Inv, Step;
    if op.OpenGateOp? || op.EscalateOp? { GatesHold(s, op, d); }
    else if op.DropOp? || op.SkipMarkOp? { DropsHold(s, op, d); }
    else if op.ExecuteOp? || op.SkipBeginOp? { BeginsHold(s, op, d); }
    else { WorkersHold(s, op, d); }
  }

  lemma NoWorkerHolds(s: State, op: Op, d: nat)
    requires d < |s.dispatches| && d !in s.workers && !s.dispatches[d].status.Pending? && WorkerOp(op) && op.d == d
    ensures RowHeld(s, Step(s, op), d)
  {}

  /** Whatever the step: the approval moves, or the row it holds stays. */
  lemma HeldRowMoves(s: State, op: Op, d: nat, a: nat)
    requires Inv(s) && HeldBy(s, d, a)
    ensures Held(s, Step(s, op), d, a)
  {
    hide Inv;
    if WorkerOp(op) {
      hide Step;
      if op.d == d { NoWorkerHolds(s, op, d); } else { OtherWorkersHold(s, op, d); }
    } else {
      OthersHold(s, op, d, a);
    }
  }

  lemma OthersHold(s: State, op: Op, d: nat, a: nat)
    requires Inv(s) && HeldBy(s, d, a) && !WorkerOp(op)
    ensures Held(s, Step(s, op), d, a)
  {
    hide Inv, CancelApproval, Decide, DeferApproval, RecoverStale, RecoverApprovals, CancelUnavailable, SweepDisabled,
         CancelJob, ReplayOrphan, BlockOrphan;
    match op
    case DecideOp(b, decision, actorFits, at, next) => DecideHolds(s, b, decision, actorFits, at, next, d, a);
    case CancelOp(b, next) => CancelHolds(s, b, next, d, a);
    case DeferOp(e, when) => DeferHolds(s, e, when, d, a);
    case RecoverStaleOp(now) => SweepsHold(s, now, None, d, a);
    case RecoverApprovalsOp(now, next) => SweepsHold(s, now, next, d, a);
    case SweepDisabledOp => SweepsHold(s, 0, None, d, a);
    case CancelUnavailableOp(next) => UnavailableHolds(s, next, |s.approvals|, d, a);
    case CancelJobOp(j, next) => CancelJobHolds(s, j, next, d, a);
    case ReplayOp(r, when) => OrphansHold(s, r, when, d, a);
    case BlockOp(r) => OrphansHold(s, r, None, d, a);
    case _ =>
  }

  // -- A claim lost behind a granted approval ---------------

  /** The row of d is claimed for granted approval a and no worker is at it. */
  ghost predicate Lost(s: State, d: nat, a: nat) {
    HeldBy(s, d, a) && s.dispatches[d].status.Claimed? && s.approvals[a].status.Approved?
  }

  lemma LostStep(s: State, op: Op, d: nat, a: nat)
    requires Inv(s) && Lost(s, d, a)
    ensures var t := Step(s, op);
      && a < |t.approvals|
      && (Refusal(t.approvals[a].status)
          || (Lost(t, d, a) && t.dispatches[d] == s.dispatches[d] && t.approvals[a] == s.approvals[a]))
  {
    HeldRowMoves(s, op, d, a);
    var t := Step(s, op);
    hide Inv, Step;
    if !Decided(s, t, a) { RowHeldTransfers(s, t, d, a); }
  }

  /**
   A worker that is lost between its claim and its execution run leaves its
   dispatch claimed for good: whatever happens next, sweeps and decisions and
   other workers included, row and approval stay as they are until the approval
   is cancelled. The dispatch then never runs.
   */
  lemma {:induction false} LostUntilCancelled(s: State, ops: seq<Op>, d: nat, a: nat)
    requires Inv(s) && Lost(s, d, a)
    ensures var t := After(s, ops);
      && a < |t.approvals| && d < |t.dispatches|
      && (if Active(t.approvals[a].status)
          then Lost(t, d, a) && t.dispatches[d] == s.dispatches[d] && t.approvals[a] == s.approvals[a]
          else t.approvals[a].status.Cancelled? && !Open(t.dispatches[d].status))
      && forall r :: 0 <= r < |t.runs| ==> !LiveOn(t, d, r) && t.runs[r].approvalUsed != Some(a)
    decreases |ops|
  {
    var t := After(s, ops);
    HistoryKeeps(s, ops);
    if ops != [] {
      var u := Step(s, ops[0]);
      LostStep(s, ops[0], d, a);
      StepKeeps(s, ops[0]);
      hide Inv, Step, Evolved;
      if Refusal(u.approvals[a].status) {
        CancelledOnly(s, u, a);
        RefusedForGood(u, ops[1..], a);
        NothingLiveAtClosed(t, d, a);
      } else {
        LostUntilCancelled(u, ops[1..], d, a);
      }
    } else {
      NothingLiveAtClosed(s, d, a);
    }
  }

  lemma CancelledOnly(s: State, u: State, a: nat)
    requires Evolved(s, u) && a < |s.approvals| && s.approvals[a].status.Approved? && Refusal(u.approvals[a].status)
    ensures u.approvals[a].status.Cancelled? && u.approvals[a].dispatch == s.approvals[a].dispatch
  {
    var p, q := s.approvals[a], u.approvals[a];
    assert ApprovalEvolved(p, q);
    FromApproved(p.status, q.status, q.version - p.version);
  }

  /** A granted approval can no longer be rejected or time out. */
  lemma {:induction false} FromApproved(p: ApprovalStatus, q: ApprovalStatus, k: nat)
    requires Walks(p, q, k) && (p.Approved? || p.Dispatching? || p.Dispatched? || p.Cancelled?)
    ensures q.Approved? || q.Dispatching? || q.Dispatched? || q.Cancelled?
    decreases k
  {
    if k > 0 {
      var m :| Edge(p, m) && Walks(m, q, k - 1);
      FromApproved(m, q, k - 1);
    }
  }

  lemma NothingLiveAtClosed(t: State, d: nat, a: nat)
    requires Inv(t) && d < |t.dispatches| && ApprovalOn(t, d, a)
    requires t.approvals[a].status.Approved? || Refusal(t.approvals[a].status)
    ensures forall r :: 0 <= r < |t.runs| ==> !LiveOn(t, d, r) && t.runs[r].approvalUsed != Some(a)
  {
    AroundAt(t, d);
    assert Coupled(t, a);
    forall r | 0 <= r < |t.runs| ensures !LiveOn(t, d, r) && t.runs[r].approvalUsed != Some(a) {
      AroundAt(t, t.runs[r].dispatch);
      assert !Uses(t, t.runs[r].dispatch, r, a);
    }
  }
}
