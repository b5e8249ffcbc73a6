/** What recovery restores, what it cannot, and what moves a gated dispatch at all. */
module GateRecovery {
  import opened Prelude
  import opened ApprovalBinding
  import opened Gate
  import opened GateInvariants
  import opened GateSteps
  import opened GateCounts

  // -- The two sweeps, row by row ---------------------------

  lemma {:induction false} StaleRows(s: State, now: Time, n: nat, d: nat)
    requires n <= |s.dispatches| && d < |s.dispatches|
    ensures var t := RecoverStale(s, now, n);
      && t == s.(dispatches := t.dispatches)
      && t.dispatches[d] == if d < n && StaleClaim(s, d, now) then Requeued(s.dispatches[d], None) else s.dispatches[d]
  {
    if n > 0 {
      StaleRows(s, now, n - 1, d);
      StaleRows(s, now, n - 1, n - 1);
    }
  }

  /** Nothing of dispatch d that recovery looks at differs between s and t. */
  ghost predicate SameOn(s: State, t: State, d: nat) {
    && d < |s.dispatches| && |t.dispatches| == |s.dispatches| && t.dispatches[d] == s.dispatches[d]
    && |t.runs| == |s.runs| && |t.approvals| == |s.approvals|
    && (forall r :: RunOn(s, d, r) ==> t.runs[r] == s.runs[r])
    && (forall a :: ApprovalOn(s, d, a) ==> t.approvals[a] == s.approvals[a])
    && (forall r :: RunOn(t, d, r) ==> RunOn(s, d, r))
    && (forall a :: ApprovalOn(t, d, a) ==> ApprovalOn(s, d, a))
    && t.workers == s.workers
  }

  /** A change that stays with the rows of approval a leaves the other dispatches alone. */
  lemma MovesElsewhere(s: State, t: State, e: nat, a: nat, d: nat)
    requires e < |s.dispatches| && d < |s.dispatches| && e != d
    requires ApprovalMoves(s, t, e, a) && Coupled(s, a) && t.workers == s.workers
    ensures SameOn(s, t, d)
  {}

  lemma RefusalElsewhere(s: State, a: nat, status: ApprovalStatus, next: Option<Time>, d: nat)
    requires Inv(s) && a < |s.approvals| && s.approvals[a].dispatch != d && d < |s.dispatches|
    requires Active(s.approvals[a].status)
    requires status.Cancelled? || (s.approvals[a].status.Pending? && (status.Rejected? || status.TimedOut?))
    ensures SameOn(s, Refused(PutApproval(s, a, status), s.approvals[a], next), d)
  {
    var e := s.approvals[a].dispatch;
    AroundAt(s, e);
    assert ApprovalOn(s, e, a);
    assert ActiveOn(s, e, a);
    assert Coupled(s, a);
    hide Inv, Around, Refused, SameOn, Coupled, ApprovalMoves;
    var t := Refused(PutApproval(s, a, status), s.approvals[a], next);
    RefusalMoves(s, t, e, a, status, next);
    MovesElsewhere(s, t, e, a, d);
  }

  lemma CancelElsewhere(s: State, a: nat, next: Option<Time>, d: nat)
    requires Inv(s) && d < |s.dispatches| && (a < |s.approvals| ==> s.approvals[a].dispatch != d)
    ensures SameOn(s, CancelApproval(s, a, next), d)
  {
    hide Refused;
    if a < |s.approvals| && Active(s.approvals[a].status) {
      RefusalElsewhere(s, a, ApprovalStatus.Cancelled, next, d);
    }
  }

  lemma RecoverElsewhere(s: State, a: nat, now: Time, next: Option<Time>, d: nat)
    requires Inv(s) && d < |s.dispatches| && (a < |s.approvals| ==> s.approvals[a].dispatch != d)
    ensures SameOn(s, RecoverApproval(s, a, now, next), d)
  {
    CancelElsewhere(s, a, next, d);
    if a < |s.approvals| {
      var e := s.approvals[a].dispatch;
      AroundAt(s, e);
      assert ApprovalOn(s, e, a);
      assert Coupled(s, a);
      hide CancelApproval, HasExecutionRun, Inv, Around;
    }
  }

  ghost predicate DispatchingBelow(s: State, d: nat, n: nat) {
    exists a :: 0 <= a < n && ApprovalOn(s, d, a) && s.approvals[a].status.Dispatching?
  }

  lemma BelowShrinks(s: State, d: nat, n: nat)
    requires !DispatchingBelow(s, d, n + 1)
    ensures !DispatchingBelow(s, d, n)
  {
    assert forall a :: 0 <= a < n && ApprovalOn(s, d, a) ==> !s.approvals[a].status.Dispatching?;
  }

  lemma SameOnSizes(s: State, t: State, d: nat)
    requires d < |s.dispatches| && SameOn(s, t, d)
    ensures |t.dispatches| == |s.dispatches| && |t.approvals| == |s.approvals|
  {}

  lemma SameOnComposes(s: State, t: State, u: State, d: nat)
    requires d < |s.dispatches| && SameOn(s, t, d) && SameOn(t, u, d)
    ensures SameOn(s, u, d)
  {}

  /** Approval recovery leaves a dispatch without a dispatching approval as it is. */
  lemma {:induction false} RecoveryLeaves(s: State, now: Time, next: Option<Time>, n: nat, d: nat)
    requires Inv(s) && d < |s.dispatches| && n <= |s.approvals| && !DispatchingBelow(s, d, n)
    ensures SameOn(s, RecoverApprovals(s, now, next, n), d)
  {
    hide Inv, RecoverApproval, Evolved, SameOn, DispatchingBelow;
    if n > 0 {
      BelowShrinks(s, d, n - 1);
      RecoveryLeaves(s, now, next, n - 1, d);
      RecoverApprovalsKeeps(s, now, next, n - 1);
      RecoveryLeavesOne(s, RecoverApprovals(s, now, next, n - 1), now, next, n - 1, d);
    } else {
      SameOnStill(s, d);
    }
  }

  lemma SameOnStill(s: State, d: nat)
    requires d < |s.dispatches|
    ensures SameOn(s, s, d)
  {}

  lemma RecoveryLeavesOne(s: State, t: State, now: Time, next: Option<Time>, a: nat, d: nat)
    requires d < |s.dispatches| && Inv(t) && SameOn(s, t, d) && !DispatchingBelow(s, d, a + 1)
    ensures SameOn(s, RecoverApproval(t, a, now, next), d)
  {
    hide Inv, RecoverApproval, SameOn, DispatchingBelow;
    SameOnSizes(s, t, d);
    if ApprovalOn(t, d, a) { RecoverIdle(s, t, a, now, next, d); }
    else { RecoverElsewhere(t, a, now, next, d); }
    SameOnComposes(s, t, RecoverApproval(t, a, now, next), d);
  }

  lemma RecoverIdle(s: State, t: State, a: nat, now: Time, next: Option<Time>, d: nat)
    requires d < |s.dispatches| && SameOn(s, t, d) && ApprovalOn(t, d, a) && !DispatchingBelow(s, d, a + 1)
    ensures SameOn(t, RecoverApproval(t, a, now, next), d)
  {
    assert ApprovalOn(s, d, a);
  }

  /** A claimed dispatch with a dispatching approval is requeued once its claim has expired. */
  lemma {:induction false} RecoveryRequeues(s: State, now: Time, next: Option<Time>, n: nat, d: nat, a: nat)
    requires Inv(s) && d < |s.dispatches| && a < n <= |s.approvals|
    requires ApprovalOn(s, d, a) && s.approvals[a].status.Dispatching? && s.dispatches[d].status.Claimed?
    ensures var t := RecoverApprovals(s, now, next, n); var row := s.dispatches[d];
      && d < |t.dispatches| && row.expires.Some?
      && t.dispatches[d] == if row.expires.value <= now then Requeued(row, None) else row
  {
    hide RecoverApproval;
    AroundAt(s, d);
    assert ActiveOn(s, d, a);
    RecoverApprovalsKeeps(s, now, next, n - 1);
    var t := RecoverApprovals(s, now, next, n - 1);
    if n - 1 == a {
      assert !DispatchingBelow(s, d, a) by {
        forall b | 0 <= b < a && ApprovalOn(s, d, b) ensures !s.approvals[b].status.Dispatching? {
          assert !ActiveOn(s, d, b);
        }
      }
      RecoveryLeaves(s, now, next, a, d);
      RecoverDue(s, t, a, now, next, d);
    } else {
      RecoveryRequeues(s, now, next, n - 1, d, a);
      assert Evolved(s, t);
      assert ApprovalEvolved(s.approvals[n - 1], t.approvals[n - 1]) by { RecoverCounts(s, now, next, n - 1); }
      assert !ApprovalOn(s, d, n - 1);
      hide Inv, Evolved, Around;
      RecoverElsewhere(t, n - 1, now, next, d);
    }
  }

  lemma RecoverCounts(s: State, now: Time, next: Option<Time>, n: nat)
    ensures SameCounts(s, RecoverApprovals(s, now, next, n))
  {
    ApprovalFoldsAddNothing(s, n, 0, now, next);
  }

  lemma RecoverDue(s: State, t: State, a: nat, now: Time, next: Option<Time>, d: nat)
    requires Inv(s) && d < |s.dispatches| && SameOn(s, t, d) && ApprovalOn(s, d, a)
    requires s.approvals[a].status.Dispatching? && s.dispatches[d].status.Claimed?
    ensures var row := s.dispatches[d]; var u := RecoverApproval(t, a, now, next);
      && d < |u.dispatches| && row.expires.Some?
      && u.dispatches[d] == if row.expires.value <= now then Requeued(row, None) else row
  {
    AroundAt(s, d);
    assert !HasExecutionRun(t, a) by {
      forall r | 0 <= r < |t.runs| ensures !(t.runs[r].dispatch == d && t.runs[r].approvalUsed == Some(a)) {
        if RunOn(t, d, r) {
          assert RunOn(s, d, r);
          assert !Uses(s, d, r, a);
        }
      }
    }
  }

  /**
   The tick's two sweeps return a claimed dispatch to the queue exactly when its
   claim has expired and either none of its runs is active or an approval was
   caught between its two transactions. Otherwise they leave the row as it is.
   */
  lemma RecoversExactly(s: State, now: Time, next: Option<Time>, d: nat)
    requires Inv(s) && d < |s.dispatches| && s.dispatches[d].status.Claimed?
    ensures var t := RecoverStale(s, now, |s.dispatches|);
      var u := RecoverApprovals(t, now, next, |t.approvals|);
      var row := s.dispatches[d];
      var due := row.expires.Some? && row.expires.value <= now
                 && (!HasActiveRun(s.runs, d) || DispatchingBelow(s, d, |s.approvals|));
      && d < |u.dispatches|
      && u.dispatches[d] == if due then Requeued(row, None) else row
  {
    var t := RecoverStale(s, now, |s.dispatches|);
    AroundAt(s, d);
    StaleRows(s, now, |s.dispatches|, d);
    RecoverStaleKeeps(s, now, |s.dispatches|);
    assert DispatchingBelow(t, d, |t.approvals|) == DispatchingBelow(s, d, |s.approvals|) by {
      assert forall a :: ApprovalOn(t, d, a) <==> ApprovalOn(s, d, a);
    }
    if DispatchingBelow(s, d, |s.approvals|) {
      var a :| ApprovalOn(s, d, a) && s.approvals[a].status.Dispatching?;
      assert Coupled(s, a);
      assert RunOn(s, d, s.approvals[a].run);
      assert HasActiveRun(s.runs, d);
      hide Inv, Around, RecoverStale;
      assert ApprovalOn(t, d, a);
      RecoveryRequeues(t, now, next, |t.approvals|, d, a);
    } else {
      hide Inv, Around, RecoverStale;
      RecoveryLeaves(t, now, next, |t.approvals|, d);
    }
  }

  /**
   So a dispatch claimed for a granted approval is never recovered if its worker
   is lost before the execution run exists: at no time does either sweep touch it.
   */
  lemma GrantedClaimIsNeverRecovered(s: State, now: Time, next: Option<Time>, d: nat, a: nat)
    requires Inv(s) && ActiveOn(s, d, a) && s.approvals[a].status.Approved? && d < |s.dispatches|
    requires s.dispatches[d].status.Claimed?
    ensures var t := RecoverStale(s, now, |s.dispatches|);
      var u := RecoverApprovals(t, now, next, |t.approvals|);
      d < |u.dispatches| && u.dispatches[d] == s.dispatches[d]
  {
    AroundAt(s, d);
    assert Coupled(s, a);
    assert RunOn(s, d, s.approvals[a].run);
    assert !DispatchingBelow(s, d, |s.approvals|) by {
      forall b | ApprovalOn(s, d, b) ensures !s.approvals[b].status.Dispatching? {
        assert ActiveOn(s, d, b) ==> a <= b && b <= a;
      }
    }
    hide Inv, Around, RecoverStale, RecoverApprovals;
    RecoversExactly(s, now, next, d);
  }
}
