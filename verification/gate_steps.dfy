/** Every step of the gate protocol keeps the invariant and moves rows only forward. */
module GateSteps {
  import opened Prelude
  import opened ApprovalBinding
  import opened Gate
  import opened GateInvariants

  ghost predicate Good(s: State, t: State) { Inv(t) && Evolved(s, t) }

  lemma Stays(s: State)
    requires Inv(s)
    ensures Good(s, s)
  {
    forall a | 0 <= a < |s.approvals| ensures ApprovalEvolved(s.approvals[a], s.approvals[a]) {
      assert Walks(s.approvals[a].status, s.approvals[a].status, 0);
    }
  }

  /** A worker that is gone needs nothing of the rows. */
  lemma WorkerEnds(s: State, d: nat)
    requires Inv(s)
    ensures Good(s, EndWorker(s, d))
  {
    var t := EndWorker(s, d);
    if d < |s.dispatches| {
      hide Inv, Around;
      AroundAt(s, d);
      RowFitsWhen(s, d, s.dispatches[d]);
      NoLiveOrClaimed(s, d);
      RowMovesKeeps(s, t, d);
    } else {
      assert d !in s.workers;
      assert t == s;
      Stays(s);
    }
  }

  lemma AroundAt(s: State, d: nat)
    requires Inv(s) && d < |s.dispatches|
    ensures Around(s, d) && RowOk(s, d) && (d in s.workers ==> WorkerOk(s, d))
  {}

  lemma NoLiveOrClaimed(s: State, d: nat)
    requires d < |s.dispatches| && Around(s, d)
    ensures NoLiveOn(s, d) || s.dispatches[d].status.Claimed? || s.dispatches[d].status.Cancelled?
  {
    if !NoLiveOn(s, d) {
      var r :| RunOn(s, d, r) && Live(s.runs[r].status);
      assert LiveOn(s, d, r);
    }
  }

  ghost predicate NoDispatchingOn(s: State, d: nat) {
    forall a :: ApprovalOn(s, d, a) ==> !s.approvals[a].status.Dispatching?
  }

  lemma RowFitsWhen(s: State, d: nat, row: Dispatch)
    requires d < |s.dispatches| && Around(s, d)
    requires var was := s.dispatches[d].status;
      || row.status == was
      || row.status.Cancelled?
      || ((was.Claimed? || was.Pending?) && (row.status.Done? || row.status.Failed?))
      || (was.Claimed? && row.status.Pending? && NoDispatchingOn(s, d))
      || (was.Pending? && row.status.Claimed?)
    ensures RowFits(s, row, d)
  {
    forall a | ApprovalOn(s, d, a)
      ensures match s.approvals[a].status
              case Pending => row.status.AwaitingApproval? || row.status.Cancelled?
              case Approved => !row.status.AwaitingApproval?
              case Dispatching => !row.status.AwaitingApproval? && !row.status.Pending?
              case Dispatched => true
              case _ => !Open(row.status)
    {
      assert Coupled(s, a);
    }
  }

  // -- The dispatch queue -----------------------------------

  lemma ScheduleKeeps(s: State, d: nat, at: Time)
    requires Inv(s)
    ensures Good(s, SetSchedule(s, d, at))
  {
    var t := SetSchedule(s, d, at);
    if t == s { Stays(s); } else {
      AroundAt(s, d);
      SameStatusKeeps(s, d, t.dispatches[d]);
    }
  }

  lemma SameStatusKeeps(s: State, d: nat, row: Dispatch)
    requires Inv(s) && d < |s.dispatches|
    requires row == s.dispatches[d].(scheduledFor := row.scheduledFor, expires := row.expires)
    requires RowOk(PutDispatch(s, d, row), d)
    ensures Good(s, PutDispatch(s, d, row))
  {
    hide Inv, Around;
    var t := PutDispatch(s, d, row);
    AroundAt(s, d);
    RowFitsWhen(s, d, t.dispatches[d]);
    NoLiveOrClaimed(s, d);
    RowMovesKeeps(s, t, d);
  }

  lemma RenewKeeps(s: State, d: nat, token: Token, now: Time, expires: Time)
    requires Inv(s)
    ensures Good(s, RenewClaim(s, d, token, now, expires))
  {
    var t := RenewClaim(s, d, token, now, expires);
    if t == s { Stays(s); } else {
      AroundAt(s, d);
      SameStatusKeeps(s, d, t.dispatches[d]);
    }
  }

  lemma StartKeeps(s: State, d: nat, expires: Time)
    requires Inv(s)
    ensures Good(s, StartWorker(s, d, expires))
  {
    var t := StartWorker(s, d, expires);
    if d < |s.dispatches| && d !in s.workers && s.dispatches[d].status.Pending? && Enabled(s, s.dispatches[d].job) {
      AroundAt(s, d);
      NoLiveOrClaimed(s, d);
      assert t.workers - {d} == s.workers - {d};
      forall a | ActiveOn(t, d, a) ensures t.approvals[a].status.Approved? {
        assert ApprovalOn(s, d, a);
        assert Coupled(s, a);
      }
      assert forall r :: RunOn(t, d, r) ==> RunOn(s, d, r);
      hide Inv, Around;
      RowFitsWhen(s, d, t.dispatches[d]);
      RowMovesKeeps(s, t, d);
    } else { Stays(s); }
  }

  /** The row of d closes, or is requeued from a claim, and its worker stays or ends. */
  lemma RowSettles(s: State, t: State, d: nat)
    requires Inv(s) && d < |s.dispatches| && RowMoves(s, t, d)
    requires t.dispatches[d].status.Cancelled?
      || (NoLiveOn(s, d) && (s.dispatches[d].status.Claimed? || s.dispatches[d].status.Pending?)
          && (t.dispatches[d].status.Done? || t.dispatches[d].status.Failed?))
      || (NoLiveOn(s, d) && NoDispatchingOn(s, d) && s.dispatches[d].status.Claimed?
          && t.dispatches[d].status.Pending? && t.dispatches[d].claim == None && t.dispatches[d].expires == None)
    requires t.dispatches[d].claim == None || t.dispatches[d].claim == s.dispatches[d].claim
    requires t.nextToken == s.nextToken
    requires d in t.workers ==> d in s.workers && t.workers[d] == s.workers[d]
    ensures Good(s, t)
  {
    AroundAt(s, d);
    assert d in t.workers ==> WorkerOk(t, d) by {
      if d in t.workers {
        assert forall r :: RunOn(t, d, r) ==> RunOn(s, d, r);
        assert forall a :: ActiveOn(t, d, a) ==> ActiveOn(s, d, a);
        assert forall a :: ApprovalOn(t, d, a) ==> ApprovalOn(s, d, a);
      }
    }
    hide Inv, Around, WorkerOk;
    RowFitsWhen(s, d, t.dispatches[d]);
    RowMovesKeeps(s, t, d);
  }

  lemma StrikeKeeps(s: State, d: nat)
    requires Inv(s)
    ensures Good(s, StrikeDispatch(s, d))
  {
    var t := StrikeDispatch(s, d);
    if t == s { Stays(s); } else { RowSettles(s, t, d); }
  }

  /** A worker ends and closes its dispatch, which is not live. */
  lemma CloseAndEndKeeps(s: State, d: nat, status: DispatchStatus)
    requires Inv(s) && d in s.workers && !Open(status)
    requires status.Cancelled? || NoLiveOn(s, d)
    ensures Good(s, EndWorker(CloseDispatch(s, d, status), d))
  {
    var t := EndWorker(CloseDispatch(s, d, status), d);
    AroundAt(s, d);
    if t == EndWorker(s, d) { WorkerEnds(s, d); } else { RowSettles(s, t, d); }
  }

  lemma HandBackKeeps(s: State, d: nat, at: Option<Time>)
    requires Inv(s)
    ensures Good(s, HandBack(s, d, at))
  {
    var t := HandBack(s, d, at);
    if t == s { Stays(s); }
    else if t == EndWorker(s, d) { WorkerEnds(s, d); }
    else {
      AroundAt(s, d);
      assert NoDispatchingOn(s, d) by {
        forall a | ApprovalOn(s, d, a) ensures !s.approvals[a].status.Dispatching? {
          assert ActiveOn(s, d, a) ==> s.approvals[a].status.Approved?;
        }
      }
      RowSettles(s, t, d);
    }
  }

  lemma RecoverStaleOneKeeps(s: State, d: nat, now: Time)
    requires Inv(s) && StaleClaim(s, d, now)
    ensures Good(s, PutDispatch(s, d, Requeued(s.dispatches[d], None)))
  {
    AroundAt(s, d);
    assert NoLiveOn(s, d);
    assert NoDispatchingOn(s, d) by {
      forall a | ApprovalOn(s, d, a) ensures !s.approvals[a].status.Dispatching? {
        assert Coupled(s, a);
      }
    }
    RowSettles(s, PutDispatch(s, d, Requeued(s.dispatches[d], None)), d);
  }

  lemma {:induction false} RecoverStaleKeeps(s: State, now: Time, n: nat)
    requires Inv(s) && n <= |s.dispatches|
    ensures Good(s, RecoverStale(s, now, n))
  {
    hide Inv, Evolved;
    if n == 0 { Stays(s); } else {
      RecoverStaleKeeps(s, now, n - 1);
      var t := RecoverStale(s, now, n - 1);
      if StaleClaim(t, n - 1, now) {
        RecoverStaleOneKeeps(t, n - 1, now);
        EvolvedTransitive(s, t, RecoverStale(s, now, n));
      }
    }
  }

  lemma {:induction false} SweepDisabledKeeps(s: State, n: nat)
    requires Inv(s) && n <= |s.dispatches|
    ensures Good(s, SweepDisabled(s, n))
  {
    hide Inv, Evolved;
    if n == 0 { Stays(s); } else {
      SweepDisabledKeeps(s, n - 1);
      var t := SweepDisabled(s, n - 1);
      StrikeKeeps(t, n - 1);
      EvolvedTransitive(s, t, StrikeDispatch(t, n - 1));
    }
  }

  // -- Approvals --------------------------------------------

  /** Any refusal: the approval, its gate run and its dispatch end together. */
  lemma RefusalKeeps(s: State, a: nat, status: ApprovalStatus, next: Option<Time>)
    requires Inv(s) && a < |s.approvals| && Active(s.approvals[a].status)
    requires status.Cancelled? || (s.approvals[a].status.Pending? && (status.Rejected? || status.TimedOut?))
    ensures Good(s, Refused(PutApproval(s, a, status), s.approvals[a], next))
  {
    var d := s.approvals[a].dispatch;
    var t := Refused(PutApproval(s, a, status), s.approvals[a], next);
    AroundAt(s, d);
    assert ApprovalOn(s, d, a);
    assert Coupled(s, a);
    assert ActiveOn(s, d, a);
    hide Inv, Around, WorkerOk, Refused, RowOk;
    RefusalMoves(s, t, d, a, status, next);
    if d in t.workers { RefusalKeepsWorker(s, t, d, a); }
    ApprovalMovesKeeps(s, t, d, a);
  }

  lemma RefusalMoves(s: State, t: State, d: nat, a: nat, status: ApprovalStatus, next: Option<Time>)
    requires d < |s.dispatches| && RowOk(s, d) && ActiveOn(s, d, a) && Coupled(s, a)
    requires status.Cancelled? || (s.approvals[a].status.Pending? && (status.Rejected? || status.TimedOut?))
    requires t == Refused(PutApproval(s, a, status), s.approvals[a], next)
    ensures ApprovalMoves(s, t, d, a) && RowOk(t, d) && Coupled(t, a)
    ensures t.workers == s.workers && t.nextToken == s.nextToken
    ensures t.dispatches[d] == s.dispatches[d] || t.dispatches[d].status.Cancelled?
    ensures t.runs == s.runs[s.approvals[a].run := s.runs[s.approvals[a].run].(status := RunStatus.Cancelled)]
    ensures !Active(t.approvals[a].status)
  {
    var s1 := PutApproval(s, a, status);
    var s2 := CancelGateRun(s1, s.approvals[a].run);
    var s3 := CancelGateDispatch(s2, d);
    assert t.runs == s3.runs && t.approvals == s3.approvals && t.dispatches == s3.dispatches && |t.jobs| == |s3.jobs|;
  }

  /** An approval that becomes inactive, and an open row that is cancelled, suit the worker. */
  lemma RefusalKeepsWorker(s: State, t: State, d: nat, a: nat)
    requires d < |s.dispatches| && d in s.workers && WorkerOk(s, d) && ActiveOn(s, d, a)
    requires t.workers == s.workers && t.epoch == s.epoch && t.nextToken == s.nextToken
    requires |t.dispatches| == |s.dispatches|
    requires t.dispatches[d] == s.dispatches[d] || t.dispatches[d].status.Cancelled?
    requires |t.approvals| == |s.approvals| && t.approvals == s.approvals[a := t.approvals[a]]
    requires t.approvals[a].dispatch == d && !Active(t.approvals[a].status)
    requires |t.runs| == |s.runs| && s.approvals[a].run < |s.runs|
    requires Waiting(s.runs[s.approvals[a].run].status) && !s.runs[s.approvals[a].run].status.Pending?
    requires t.runs == s.runs[s.approvals[a].run := s.runs[s.approvals[a].run].(status := RunStatus.Cancelled)]
    ensures WorkerOk(t, d)
  {
    assert forall b :: ApprovalOn(t, d, b) <==> ApprovalOn(s, d, b);
    assert forall b :: ActiveOn(t, d, b) ==> ActiveOn(s, d, b) && t.approvals[b] == s.approvals[b];
    assert forall r :: RunOn(t, d, r) <==> RunOn(s, d, r);
  }

  lemma CancelKeeps(s: State, a: nat, next: Option<Time>)
    requires Inv(s)
    ensures Good(s, CancelApproval(s, a, next))
  {
    hide Inv, Evolved;
    if a < |s.approvals| && Active(s.approvals[a].status) { RefusalKeeps(s, a, ApprovalStatus.Cancelled, next); }
    else { Stays(s); }
  }

  lemma GrantKeeps(s: State, a: nat, at: Time)
    requires Inv(s) && a < |s.approvals| && s.approvals[a].status.Pending? && Grant(s, a, at).Success?
    ensures Good(s, Grant(s, a, at).value)
  {
    var ap := s.approvals[a];
    var d := ap.dispatch;
    var t := Grant(s, a, at).value;
    AroundAt(s, d);
    assert ApprovalOn(s, d, a);
    assert Coupled(s, a);
    assert ActiveOn(s, d, a);
    assert d !in t.workers;
    hide Inv, Around, WorkerOk;
    ApprovalMovesKeeps(s, t, d, a);
  }

  lemma DecideKeeps(s: State, a: nat, decision: Decision, actorFits: bool, at: Time, next: Option<Time>)
    requires Inv(s)
    ensures Good(s, Decide(s, a, decision, actorFits, at, next))
  {
    hide Inv, Evolved, Refused, Grant, Overtaken, BindingRaises;
    if a >= |s.approvals| || !s.approvals[a].status.Pending? { Stays(s); }
    else if (decision.Approve? || decision.Reject?) && s.approvals[a].scoped && !actorFits { Stays(s); }
    else if decision.Approve? {
      if BindingRaises(s, a) { Stays(s); }
      else if Overtaken(s, a) { RefusalKeeps(s, a, ApprovalStatus.Cancelled, next); }
      else if Grant(s, a, at).Success? { GrantKeeps(s, a, at); }
      else { Stays(s); }
    }
    else if decision.Reject? { RefusalKeeps(s, a, ApprovalStatus.Rejected, next); }
    else if decision.TimeOut? { RefusalKeeps(s, a, ApprovalStatus.TimedOut, next); }
    else { RefusalKeeps(s, a, ApprovalStatus.Cancelled, next); }
  }

  lemma CancelForDispatchKeeps(s: State, d: nat, next: Option<Time>)
    requires Inv(s)
    ensures Good(s, CancelForDispatch(s, d, next)) && CancelForDispatch(s, d, next).workers == s.workers
  {
    hide Inv, Evolved;
    match LatestActive(s.approvals, d, |s.approvals|)
    case None => Stays(s);
    case Some(a) =>
      hide CancelApproval;
      CancelKeeps(s, a, next);
      CancelOnlyOne(s, a, next);
  }

  lemma ConsumeKeeps(s: State, a: nat)
    requires Inv(s) && a < |s.approvals| && s.approvals[a].status.Dispatching?
    ensures Good(s, Consume(s, a))
  {
    var d := s.approvals[a].dispatch;
    var t := Consume(s, a);
    AroundAt(s, d);
    assert ApprovalOn(s, d, a);
    assert Coupled(s, a);
    assert ActiveOn(s, d, a);
    if d in t.workers {
      assert forall b :: ActiveOn(t, d, b) ==> ActiveOn(s, d, b);
      assert forall r :: RunOn(t, d, r) <==> RunOn(s, d, r);
      assert forall b :: ApprovalOn(t, d, b) <==> ApprovalOn(s, d, b);
      assert WorkerOk(t, d);
    }
    hide Inv, Around, WorkerOk;
    ApprovalMovesKeeps(s, t, d, a);
  }

  lemma MarkKeeps(s: State, d: nat)
    requires Inv(s)
    ensures Good(s, MarkDispatched(s, d)) && MarkDispatched(s, d).workers == s.workers
  {
    hide Inv, Evolved;
    match Latest(s.approvals, d, |s.approvals|)
    case None => Stays(s);
    case Some(a) => if s.approvals[a].status.Dispatching? { ConsumeKeeps(s, a); } else { Stays(s); }
  }

  /** A dispatching approval goes back to approved, and its dispatch, unless closed, to the queue. */
  lemma RetreatKeeps(s: State, a: nat, at: Option<Time>)
    requires Inv(s) && a < |s.approvals| && s.approvals[a].status.Dispatching?
    requires var d := s.approvals[a].dispatch; d < |s.dispatches|
    ensures var d := s.approvals[a].dispatch;
            var t := PutApproval(s, a, ApprovalStatus.Approved);
            && (s.dispatches[d].status.Claimed? ==> Good(s, PutDispatch(t, d, Requeued(s.dispatches[d], at))))
            && (!s.dispatches[d].status.Claimed? ==> Good(s, t))
  {
    var d := s.approvals[a].dispatch;
    var t := PutApproval(s, a, ApprovalStatus.Approved);
    var u := if s.dispatches[d].status.Claimed? then PutDispatch(t, d, Requeued(s.dispatches[d], at)) else t;
    AroundAt(s, d);
    assert ApprovalOn(s, d, a);
    assert Coupled(s, a);
    assert ActiveOn(s, d, a);
    if d in u.workers {
      assert forall b :: ActiveOn(u, d, b) <==> ActiveOn(s, d, b);
      assert forall r :: RunOn(u, d, r) <==> RunOn(s, d, r);
      assert forall b :: ApprovalOn(u, d, b) <==> ApprovalOn(s, d, b);
      assert WorkerOk(u, d);
    }
    hide Inv, Around, WorkerOk;
    ApprovalMovesKeeps(s, u, d, a);
  }

  lemma DeferKeeps(s: State, d: nat, at: Option<Time>)
    requires Inv(s)
    ensures Good(s, DeferApproval(s, d, at))
  {
    var a := Latest(s.approvals, d, |s.approvals|);
    if a.None? || !s.approvals[a.value].status.Dispatching? { Stays(s); } else {
      assert d < |s.dispatches|;
      hide Inv, Evolved;
      RetreatKeeps(s, a.value, at);
    }
  }

  lemma RecoverApprovalKeeps(s: State, a: nat, now: Time, next: Option<Time>)
    requires Inv(s)
    ensures Good(s, RecoverApproval(s, a, now, next))
  {
    if a >= |s.approvals| || !s.approvals[a].status.Dispatching? { Stays(s); } else {
      var d := s.approvals[a].dispatch;
      assert d < |s.dispatches| && Coupled(s, a) by {
        AroundAt(s, d);
        assert ApprovalOn(s, d, a);
      }
      hide Inv, Evolved, Consume, CancelApproval, HasExecutionRun;
      if HasExecutionRun(s, a) || s.dispatches[d].status.Done? { ConsumeKeeps(s, a); }
      else if !Open(s.dispatches[d].status) { CancelKeeps(s, a, next); }
      else if !(s.dispatches[d].expires.Some? && s.dispatches[d].expires.value <= now) { Stays(s); }
      else { RetreatKeeps(s, a, None); }
    }
  }

  lemma {:induction false} RecoverApprovalsKeeps(s: State, now: Time, next: Option<Time>, n: nat)
    requires Inv(s)
    ensures Good(s, RecoverApprovals(s, now, next, n))
  {
    hide Inv, Evolved, RecoverApproval;
    if n == 0 { Stays(s); } else {
      RecoverApprovalsKeeps(s, now, next, n - 1);
      var t := RecoverApprovals(s, now, next, n - 1);
      RecoverApprovalKeeps(t, n - 1, now, next);
      EvolvedTransitive(s, t, RecoverApproval(t, n - 1, now, next));
    }
  }

  lemma {:induction false} CancelUnavailableKeeps(s: State, next: Option<Time>, n: nat)
    requires Inv(s)
    ensures Good(s, CancelUnavailable(s, next, n))
  {
    hide Inv, Evolved, CancelApproval;
    if n == 0 { Stays(s); } else {
      CancelUnavailableKeeps(s, next, n - 1);
      var t := CancelUnavailable(s, next, n - 1);
      CancelKeeps(t, n - 1, next);
      EvolvedTransitive(s, t, CancelApproval(t, n - 1, next));
    }
  }

  // -- Cancelling a job -------------------------------------

  lemma {:induction false} StrikeForJobKeeps(s: State, j: nat, n: nat)
    requires Inv(s)
    ensures Good(s, StrikeForJob(s, j, n))
  {
    hide Inv, Evolved, StrikeDispatch;
    if n == 0 { Stays(s); } else {
      StrikeForJobKeeps(s, j, n - 1);
      var t := StrikeForJob(s, j, n - 1);
      StrikeKeeps(t, n - 1);
      EvolvedTransitive(s, t, StrikeDispatch(t, n - 1));
    }
  }

  ghost predicate NoneActiveFor(s: State, j: nat, n: nat) {
    forall a :: 0 <= a < n && a < |s.approvals| && s.approvals[a].job == j ==> !Active(s.approvals[a].status)
  }

  lemma CancelOnlyOne(s: State, a: nat, next: Option<Time>)
    ensures var t := CancelApproval(s, a, next);
            && |t.approvals| == |s.approvals|
            && (forall b :: 0 <= b < |s.approvals| && b != a ==> t.approvals[b] == s.approvals[b])
            && (a < |s.approvals| ==> !Active(t.approvals[a].status) && t.approvals[a].job == s.approvals[a].job)
            && t.workers == s.workers
  {
    if a < |s.approvals| && Active(s.approvals[a].status) {
      RefusedRows(PutApproval(s, a, ApprovalStatus.Cancelled), s.approvals[a], next);
    }
  }

  lemma RefusedRows(s: State, ap: Approval, next: Option<Time>)
    ensures Refused(s, ap, next).approvals == s.approvals && Refused(s, ap, next).workers == s.workers
  {}

  lemma {:induction false} CancelForJobKeeps(s: State, j: nat, next: Option<Time>, n: nat)
    requires Inv(s)
    ensures var t := CancelForJob(s, j, next, n); Good(s, t) && NoneActiveFor(t, j, n)
  {
    hide Inv, Evolved, CancelApproval;
    if n == 0 { Stays(s); } else {
      CancelForJobKeeps(s, j, next, n - 1);
      var t := CancelForJob(s, j, next, n - 1);
      CancelKeeps(t, n - 1, next);
      CancelOnlyOne(t, n - 1, next);
      EvolvedTransitive(s, t, CancelApproval(t, n - 1, next));
    }
  }

  lemma StopRunKeeps(s: State, r: nat, j: nat)
    requires Inv(s) && NoneActiveFor(s, j, |s.approvals|)
    requires r < |s.runs| ==> s.runs[r].job == j
    ensures Good(s, StopRun(s, r))
  {
    var t := StopRun(s, r);
    if t == s { Stays(s); } else {
      var d := s.runs[r].dispatch;
      AroundAt(s, d);
      assert RunOn(s, d, r);
      assert NoActiveOn(s, d) by {
        forall a | ApprovalOn(s, d, a) ensures !Active(s.approvals[a].status) {
          assert Coupled(s, a);
        }
      }
      RunChangeKeeps(s, t, d, r);
    }
  }

  /** One run is flagged or ends; the row and the worker of its dispatch stay. */
  lemma RunChangeKeeps(s: State, t: State, d: nat, r: nat)
    requires Inv(s) && d < |s.dispatches| && RunMoves(s, t, d, r)
    requires t.dispatches == s.dispatches && t.workers == s.workers
    requires s.runs[r].status != t.runs[r].status ==> d in s.workers ==>
      !(Started(s.workers[d].phase) && s.workers[d].phase.run == r)
    ensures Good(s, t)
  {
    AroundAt(s, d);
    if d in t.workers {
      assert forall q :: RunOn(t, d, q) <==> RunOn(s, d, q);
      assert forall a :: ActiveOn(t, d, a) <==> ActiveOn(s, d, a);
      assert forall a :: ApprovalOn(t, d, a) <==> ApprovalOn(s, d, a);
      assert WorkerOk(t, d);
    }
    assert NoLiveOn(s, d) ==> NoLiveOn(t, d) by {
      assert forall q :: RunOn(t, d, q) ==> RunOn(s, d, q);
    }
    hide Inv, Around, WorkerOk;
    NoLiveOrClaimed(s, d);
    RowFitsWhen(s, d, s.dispatches[d]);
    RunMovesKeeps(s, t, d, r);
  }

  lemma {:induction false} StopForJobKeeps(s: State, j: nat, n: nat)
    requires Inv(s) && NoneActiveFor(s, j, |s.approvals|)
    ensures var t := StopForJob(s, j, n); Good(s, t) && t.approvals == s.approvals
  {
    hide Inv, Evolved;
    if n == 0 { Stays(s); } else {
      StopForJobKeeps(s, j, n - 1);
      var t := StopForJob(s, j, n - 1);
      if n - 1 < |t.runs| && t.runs[n - 1].job == j {
        StopRunKeeps(t, n - 1, j);
        EvolvedTransitive(s, t, StopRun(t, n - 1));
      }
    }
  }

  /** No column of a job but its id matters to the invariant. */
  lemma JobsChangeKeeps(s: State, t: State)
    requires Inv(s) && t == s.(jobs := t.jobs) && |s.jobs| <= |t.jobs|
    ensures Good(s, t)
  {
    forall d | 0 <= d < |t.dispatches| ensures Around(t, d) {
      Frame(s, t, d);
    }
    Stays(s);
  }

  lemma CancelJobKeeps(s: State, j: nat, next: Option<Time>)
    requires Inv(s)
    ensures Good(s, CancelJob(s, j, next))
  {
    if j >= |s.jobs| { Stays(s); } else {
      var s0 := s.(jobs := s.jobs[j := s.jobs[j].(enabled := false)]);
      JobsChangeKeeps(s, s0);
      hide Inv, Evolved, StrikeForJob, CancelForJob, StopForJob;
      StrikeForJobKeeps(s0, j, |s.dispatches|);
      var t := StrikeForJob(s0, j, |s.dispatches|);
      CancelForJobKeeps(t, j, next, |t.approvals|);
      var u := CancelForJob(t, j, next, |t.approvals|);
      CancelForJobLength(t, j, next, |t.approvals|);
      StopForJobKeeps(u, j, |u.runs|);
      EvolvedTransitive(s, s0, t);
      EvolvedTransitive(s, t, u);
      EvolvedTransitive(s, u, StopForJob(u, j, |u.runs|));
    }
  }

  lemma {:induction false} CancelForJobLength(s: State, j: nat, next: Option<Time>, n: nat)
    ensures |CancelForJob(s, j, next, n).approvals| == |s.approvals|
  {
    hide CancelApproval;
    if n > 0 {
      CancelForJobLength(s, j, next, n - 1);
      CancelOnlyOne(CancelForJob(s, j, next, n - 1), n - 1, next);
    }
  }

  // -- The worker -------------------------------------------

  /** A worker past its reads needs only that nothing of its dispatch is live. */
  lemma PhaseKeeps(s: State, d: nat, phase: Phase)
    requires Inv(s) && d in s.workers && !Started(s.workers[d].phase)
    requires phase.Skipping? || phase.Closing?
      || (phase.Ready? && s.workers[d].phase.Fresh? && (phase.bypass <==> phase.gate.Some?)
          && (phase.gate.None? ==> NoActiveOn(s, d)))
    ensures Good(s, PutWorker(s, d, phase))
  {
    var t := PutWorker(s, d, phase);
    AroundAt(s, d);
    assert forall r :: RunOn(t, d, r) <==> RunOn(s, d, r);
    assert forall a :: ActiveOn(t, d, a) <==> ActiveOn(s, d, a);
    assert forall a :: ApprovalOn(t, d, a) <==> ApprovalOn(s, d, a);
    assert WorkerOk(t, d);
    hide Inv, Around, WorkerOk;
    NoLiveOrClaimed(s, d);
    RowFitsWhen(s, d, s.dispatches[d]);
    RowMovesKeeps(s, t, d);
  }

  lemma ReadGateKeeps(s: State, d: nat)
    requires Inv(s)
    ensures Good(s, ReadGate(s, d))
  {
    if Attends(s, d) && s.workers[d].phase.Fresh? {
      AroundAt(s, d);
      var gate := LatestActive(s.approvals, d, |s.approvals|);
      if gate.Some? { assert ActiveOn(s, d, gate.value); }
      assert gate.None? ==> NoActiveOn(s, d);
      hide Inv, Around, WorkerOk, Evolved;
      PhaseKeeps(s, d, Ready(gate, gate.Some? && s.approvals[gate.value].status.Approved?));
    } else { Stays(s); }
  }

  lemma ThenEnds(s: State, t: State, d: nat)
    requires Good(s, t)
    ensures Good(s, EndWorker(t, d))
  {
    hide Inv, Evolved;
    WorkerEnds(t, d);
    EvolvedTransitive(s, t, EndWorker(t, d));
  }

  lemma DropKeeps(s: State, d: nat, next: Option<Time>)
    requires Inv(s)
    ensures Good(s, Drop(s, d, next))
  {
    if Attends(s, d) && s.workers[d].phase.Ready? {
      hide Inv, Evolved;
      if Cleared(s.workers[d]) && s.workers[d].phase.gate.Some? {
        CancelForDispatchKeeps(s, d, next);
        ThenEnds(s, CancelForDispatch(s, d, next), d);
      } else {
        CloseAndEndKeeps(s, d, DispatchStatus.Cancelled);
      }
    } else { Stays(s); }
  }

  lemma OpensGate(s: State, d: nat, r: nat, kind: GateKind, scoped: bool, t: State)
    requires d < |s.dispatches| && s.dispatches[d].job < |s.jobs| && r < |s.runs|
    requires NoActiveOn(s, d) && OpenApproval(s, d, r, kind, scoped) == Some(t)
    ensures forall ap <- s.approvals :: !ActiveOfKind(ap, d, kind)
    ensures s.runs[r].dispatch == d && s.runs[r].job == s.dispatches[d].job
    ensures t.jobs == s.jobs && t.workers == s.workers && t.nextToken == s.nextToken && t.epoch == s.epoch
    ensures t.approvals == s.approvals + [t.approvals[|s.approvals|]] && |t.approvals| == |s.approvals| + 1
    ensures var ap := t.approvals[|s.approvals|];
            ap.job == s.dispatches[d].job && ap.run == r && ap.dispatch == d && ap.status.Pending? && ap.version == 0
    ensures t.runs == if Live(s.runs[r].status)
                      then s.runs[r := s.runs[r].(status := RunStatus.AwaitingApproval)] else s.runs
    ensures var row := s.dispatches[d];
            t.dispatches == if row.status.Pending? || row.status.Claimed?
                            then s.dispatches[d := Unclaimed(row, DispatchStatus.AwaitingApproval)] else s.dispatches
  {
    forall ap | ap in s.approvals ensures !ActiveOfKind(ap, d, kind) {
      var a :| 0 <= a < |s.approvals| && s.approvals[a] == ap;
      assert ApprovalOn(s, d, a) ==> !Active(s.approvals[a].status);
    }
  }

  lemma OpenGateKeeps(s: State, d: nat, scoped: bool)
    requires Inv(s)
    ensures Good(s, OpenGate(s, d, scoped))
  {
    if Attends(s, d) && s.workers[d].phase.Ready? && !Cleared(s.workers[d]) {
      AroundAt(s, d);
      hide Inv, Evolved, OpenApproval;
      var u := AddRun(s, d, RunStatus.AwaitingApproval, None);
      if !HoldsClaim(s, d) || OpenApproval(u, d, |s.runs|, JobGate, scoped).None? { WorkerEnds(s, d); } else {
        var t := OpenApproval(u, d, |s.runs|, JobGate, scoped).value;
        assert NoActiveOn(u, d) by {
          assert forall a :: ApprovalOn(u, d, a) ==> ApprovalOn(s, d, a);
        }
        OpensGate(u, d, |s.runs|, JobGate, scoped, t);
        GateOpensKeeps(s, EndWorker(t, d), d, |s.runs|);
      }
    } else { Stays(s); }
  }

  lemma EscalateKeeps(s: State, d: nat, scoped: bool)
    requires Inv(s)
    ensures Good(s, Escalate(s, d, scoped))
  {
    if Attends(s, d) && s.workers[d].phase.Escalating? && s.workers[d].phase.run < |s.runs| {
      AroundAt(s, d);
      var r := s.workers[d].phase.run;
      assert LiveOn(s, d, r);
      hide Inv, Evolved, OpenApproval, WorkerOk;
      if OpenApproval(s, d, r, AuthorizationGate, scoped).None? { WorkerEnds(s, d); } else {
        var t := OpenApproval(s, d, r, AuthorizationGate, scoped).value;
        OpensGate(s, d, r, AuthorizationGate, scoped, t);
        GateOpensKeeps(s, EndWorker(t, d), d, r);
      }
    } else { Stays(s); }
  }

  /** What beginApprovalDispatch leaves behind when it does not move the approval on. */
  lemma DeclinedKeeps(s: State, d: nat, actorFits: bool, next: Option<Time>)
    requires Inv(s) && BeginDispatch(s, d, actorFits, next).Declined?
    ensures var t := BeginDispatch(s, d, actorFits, next).state; Good(s, t) && t.workers == s.workers
  {
    var t := BeginDispatch(s, d, actorFits, next).state;
    match Latest(s.approvals, d, |s.approvals|)
    case None => Stays(s);
    case Some(a) =>
      NeverMismatched(s, a);
      hide Inv, Evolved, Mismatched, CancelApproval, BindingRaises;
      if t == s { Stays(s); } else {
        CancelKeeps(s, a, next);
        CancelOnlyOne(s, a, next);
      }
  }

  /** An approval, its gate run and its dispatch always name each other. */
  lemma NeverMismatched(s: State, a: nat)
    requires Inv(s) && a < |s.approvals|
    ensures !Mismatched(s, s.approvals[a])
  {
    var d := s.approvals[a].dispatch;
    AroundAt(s, d);
    assert ApprovalOn(s, d, a);
    assert Coupled(s, a);
    assert RunOn(s, d, s.approvals[a].run);
  }

  /** The worker on d moves approval a to dispatching. */
  lemma BeganKeeps(s: State, d: nat, actorFits: bool, next: Option<Time>)
    requires Inv(s) && Attends(s, d) && s.workers[d].phase.Ready? && BeginDispatch(s, d, actorFits, next).Began?
    ensures var a := BeginDispatch(s, d, actorFits, next).approval;
            && ActiveOn(s, d, a) && s.approvals[a].status.Approved? && s.dispatches[d].status.Claimed?
            && Good(s, PutWorker(PutApproval(s, a, ApprovalStatus.Dispatching), d, Skipping(true)))
  {
    var a := BeginDispatch(s, d, actorFits, next).approval;
    var t := PutWorker(PutApproval(s, a, ApprovalStatus.Dispatching), d, Skipping(true));
    AroundAt(s, d);
    assert ActiveOn(s, d, a);
    assert Coupled(s, a);
    assert forall r :: RunOn(t, d, r) <==> RunOn(s, d, r);
    assert WorkerOk(t, d);
    hide Inv, Around, WorkerOk, BeginDispatch;
    ApprovalMovesKeeps(s, t, d, a);
  }

  lemma SkipBeginKeeps(s: State, d: nat, actorFits: bool, next: Option<Time>)
    requires Inv(s)
    ensures Good(s, SkipBegin(s, d, actorFits, next))
  {
    if !(Attends(s, d) && Cleared(s.workers[d])) { Stays(s); }
    else if s.workers[d].phase.gate.None? { PhaseKeeps(s, d, Closing); }
    else {
      hide Inv, Evolved, BeginDispatch;
      match BeginDispatch(s, d, actorFits, next)
      case Raised => WorkerEnds(s, d);
      case Began(_) => BeganKeeps(s, d, actorFits, next);
      case Declined(t, _) =>
        DeclinedKeeps(s, d, actorFits, next);
        PhaseKeeps(t, d, Skipping(false));
        EvolvedTransitive(s, t, PutWorker(t, d, Skipping(false)));
    }
  }

  lemma SkipMarkKeeps(s: State, d: nat, next: Option<Time>)
    requires Inv(s)
    ensures Good(s, SkipMark(s, d, next))
  {
    if !(Attends(s, d) && s.workers[d].phase.Skipping?) { Stays(s); } else {
      hide Inv, Evolved, MarkDispatched, CancelForDispatch;
      MarkKeeps(s, d);
      CancelForDispatchKeeps(s, d, next);
      var t := if s.workers[d].phase.begun then MarkDispatched(s, d) else CancelForDispatch(s, d, next);
      PhaseKeeps(t, d, Closing);
      EvolvedTransitive(s, t, PutWorker(t, d, Closing));
    }
  }

  lemma SkipCloseKeeps(s: State, d: nat)
    requires Inv(s)
    ensures Good(s, SkipClose(s, d))
  {
    if Attends(s, d) && s.workers[d].phase.Closing? {
      AroundAt(s, d);
      hide Inv, Evolved;
      CloseAndEndKeeps(s, d, DispatchStatus.Done);
    } else { Stays(s); }
  }

  /** The worker on d, with nothing live and no active approval, starts its run. */
  lemma StartsRun(s: State, d: nat, used: Option<nat>)
    requires Inv(s) && Attends(s, d) && HoldsClaim(s, d) && NoLiveOn(s, d) && NoActiveOn(s, d)
    requires used.Some? ==>
      && ApprovalOn(s, d, used.value) && s.approvals[used.value].status.Dispatched?
      && forall q :: RunOn(s, d, q) ==> s.runs[q].approvalUsed != used
    ensures Good(s, PutWorker(AddRun(s, d, RunStatus.Running, used), d, Executing(|s.runs|)))
  {
    var t := PutWorker(AddRun(s, d, RunStatus.Running, used), d, Executing(|s.runs|));
    AroundAt(s, d);
    assert RunOn(t, d, |s.runs|);
    assert forall a :: ActiveOn(t, d, a) <==> ActiveOn(s, d, a);
    assert WorkerOk(t, d);
    hide Inv, Around, WorkerOk;
    ExecutionStartsKeeps(s, t, d, used);
  }

  lemma ExecuteKeeps(s: State, d: nat, actorFits: bool, next: Option<Time>)
    requires Inv(s)
    ensures Good(s, Execute(s, d, actorFits, next))
  {
    if !(Attends(s, d) && Cleared(s.workers[d])) { Stays(s); }
    else if s.workers[d].phase.gate.None? { ExecuteUngatedKeeps(s, d, actorFits, next); }
    else {
      hide Inv, Evolved, BeginDispatch;
      if !HoldsClaim(s, d) { Stays(s); } else {
        match BeginDispatch(s, d, actorFits, next)
        case Raised => Stays(s);
        case Declined(t, _) =>
          DeclinedKeeps(s, d, actorFits, next);
          ThenEnds(s, t, d);
          Stays(s);
        case Began(a) => SpendKeeps(s, d, actorFits, next);
      }
    }
  }

  lemma ExecuteUngatedKeeps(s: State, d: nat, actorFits: bool, next: Option<Time>)
    requires Inv(s) && Attends(s, d) && Cleared(s.workers[d]) && s.workers[d].phase.gate.None?
    ensures Good(s, Execute(s, d, actorFits, next))
  {
    AroundAt(s, d);
    assert NoActiveOn(s, d) && NoLiveOn(s, d);
    if !HoldsClaim(s, d) { WorkerEnds(s, d); }
    else if !s.jobs[s.dispatches[d].job].enabled {
      var t := EndWorker(CancelGateDispatch(s, d), d);
      hide Inv, Around, WorkerOk;
      RowSettles(s, t, d);
    }
    else {
      hide Inv, Evolved;
      StartsRun(s, d, None);
    }
  }

  lemma SpendKeeps(s: State, d: nat, actorFits: bool, next: Option<Time>)
    requires Inv(s) && Attends(s, d) && Cleared(s.workers[d]) && s.workers[d].phase.gate.Some? && HoldsClaim(s, d)
    requires BeginDispatch(s, d, actorFits, next).Began?
    ensures Good(s, Execute(s, d, actorFits, next))
  {
    var a := BeginDispatch(s, d, actorFits, next).approval;
    var t1 := PutWorker(PutApproval(s, a, ApprovalStatus.Dispatching), d, Skipping(true));
    var t2 := Consume(t1, a);
    AroundAt(s, d);
    BeganKeeps(s, d, actorFits, next);
    assert NoLiveOn(s, d);
    assert s.approvals[a].run < |s.runs| by { assert Coupled(s, a); }
    SpendIsThreeMoves(s, d, a);
    SpentAlone(s, d, a);
    hide Inv, Evolved, Around, WorkerOk, Consume, NoLiveOn, NoActiveOn;
    assert t1.approvals[a].status.Dispatching?;
    ConsumeKeeps(t1, a);
    ConsumeRows(t1, a);
    StartsRun(t2, d, Some(a));
    EvolvedTransitive(s, t1, t2);
    EvolvedTransitive(s, t2, Execute(s, d, actorFits, next));
  }

  /** Once approval a is spent nothing of d is active or live, and no run has used a. */
  lemma SpentAlone(s: State, d: nat, a: nat)
    requires d < |s.dispatches| && Around(s, d) && d in s.workers
    requires NoLiveOn(s, d) && ActiveOn(s, d, a) && s.approvals[a].status.Approved?
    ensures var t := Consume(PutWorker(PutApproval(s, a, ApprovalStatus.Dispatching), d, Skipping(true)), a);
            NoActiveOn(t, d) && NoLiveOn(t, d) && forall q :: RunOn(t, d, q) ==> t.runs[q].approvalUsed != Some(a)
  {
    var t := Consume(PutWorker(PutApproval(s, a, ApprovalStatus.Dispatching), d, Skipping(true)), a);
    assert forall b :: ApprovalOn(t, d, b) ==> ApprovalOn(s, d, b) && (b != a ==> !ActiveOn(s, d, b));
    forall q | RunOn(t, d, q) ensures t.runs[q].approvalUsed != Some(a) && !Live(t.runs[q].status) {
      assert RunOn(s, d, q) && t.runs[q].approvalUsed == s.runs[q].approvalUsed;
      assert !Uses(s, d, q, a);
    }
  }

  lemma ConsumeRows(s: State, a: nat)
    requires a < |s.approvals|
    ensures var t := Consume(s, a);
            && t.workers == s.workers && t.dispatches == s.dispatches && |t.runs| == |s.runs|
            && t.jobs == s.jobs && t.epoch == s.epoch
            && |t.approvals| == |s.approvals|
            && t.approvals[a].status.Dispatched? && t.approvals[a].dispatch == s.approvals[a].dispatch
  {}

  lemma SpendIsThreeMoves(s: State, d: nat, a: nat)
    requires Attends(s, d) && a < |s.approvals| && s.approvals[a].run < |s.runs|
    ensures var t := AddRun(PutApproval(s, a, ApprovalStatus.Dispatching), d, RunStatus.Running, Some(a));
            var t2 := Consume(PutWorker(PutApproval(s, a, ApprovalStatus.Dispatching), d, Skipping(true)), a);
            && d in t2.workers
            && PutWorker(Consume(t, a), d, Executing(|s.runs|))
               == PutWorker(AddRun(t2, d, RunStatus.Running, Some(a)), d, Executing(|s.runs|))
  {
    var r := s.approvals[a].run;
    var run := s.runs[r].(status := RunStatus.Skipped);
    var added := Run(s.dispatches[d].job, d, RunStatus.Running, Some(a), false);
    assert (s.runs + [added])[r := run] == s.runs[r := run] + [added];
    var w := s.workers[d];
    assert s.workers[d := w.(phase := Skipping(true))][d := w.(phase := Executing(|s.runs|))]
        == s.workers[d := w.(phase := Executing(|s.runs|))];
  }

  lemma FinishKeeps(s: State, d: nat, status: RunStatus, outcome: Outcome)
    requires Inv(s) && Final(status)
    ensures Good(s, Finish(s, d, status, outcome))
  {
    var t := Finish(s, d, status, outcome);
    if !(Attends(s, d) && s.workers[d].phase.Executing? && s.workers[d].phase.run < |s.runs|) { Stays(s); } else {
      AroundAt(s, d);
      var r := s.workers[d].phase.run;
      assert LiveOn(s, d, r);
      assert NoDispatchingOn(s, d);
      FinishMoves(s, d, status, outcome);
      assert NoLiveOn(t, d) by {
        forall q | RunOn(t, d, q) ensures !Live(t.runs[q].status) {
          assert RunOn(s, d, q);
          assert LiveOn(s, d, q) ==> q == r;
        }
      }
      hide Inv, Around, WorkerOk, RowOk, Finish;
      RowFitsWhen(s, d, t.dispatches[d]);
      hide RunMoves;
      RunMovesKeeps(s, t, d, r);
    }
  }

  lemma FinishMoves(s: State, d: nat, status: RunStatus, outcome: Outcome)
    requires Attends(s, d) && RowOk(s, d) && WorkerOk(s, d) && s.workers[d].phase.Executing? && Final(status)
    requires s.dispatches[d].status.Claimed? || s.dispatches[d].status.Cancelled?
    requires NoActiveOn(s, d)
    ensures var t := Finish(s, d, status, outcome);
            && RunMoves(s, t, d, s.workers[d].phase.run) && RowOk(t, d) && d !in t.workers
            && Final(t.runs[s.workers[d].phase.run].status)
            && (t.dispatches[d].status == s.dispatches[d].status || t.dispatches[d].status.Cancelled?
                || (s.dispatches[d].status.Claimed?
                    && (t.dispatches[d].status.Done? || t.dispatches[d].status.Pending?)))
  {
    assert (s.workers - {d}) - {d} == s.workers - {d};
  }

  lemma ReadCancelKeeps(s: State, d: nat)
    requires Inv(s)
    ensures Good(s, ReadCancellation(s, d))
  {
    if Attends(s, d) && s.workers[d].phase.Executing? && s.workers[d].phase.run < |s.runs| {
      if s.runs[s.workers[d].phase.run].cancelRequested { FinishKeeps(s, d, RunStatus.Error, Complete); }
      else {
        var t := PutWorker(s, d, Escalating(s.workers[d].phase.run));
        AroundAt(s, d);
        assert forall r :: RunOn(t, d, r) <==> RunOn(s, d, r);
        assert WorkerOk(t, d);
        hide Inv, Around, WorkerOk;
        NoLiveOrClaimed(s, d);
        RowFitsWhen(s, d, s.dispatches[d]);
        RowMovesKeeps(s, t, d);
      }
    } else { Stays(s); }
  }

  // -- Health checks and start-up recovery ------------------

  lemma TimeOutKeeps(s: State, r: nat)
    requires Inv(s)
    ensures Good(s, TimeOutRun(s, r))
  {
    var t := TimeOutRun(s, r);
    if t == s { Stays(s); } else {
      LiveRunChangeKeeps(s, t, r);
    }
  }

  /** A running run that no worker attends is flagged or ends. */
  lemma LiveRunChangeKeeps(s: State, t: State, r: nat)
    requires Inv(s) && r < |s.runs| && s.runs[r].status.Running?
    requires |t.runs| == |s.runs| && t == s.(runs := s.runs[r := t.runs[r]]) && RunEvolved(s.runs[r], t.runs[r])
    requires t.runs[r].status.Running? || (Final(t.runs[r].status) && !Attended(s, r))
    ensures Good(s, t)
  {
    var d := s.runs[r].dispatch;
    AroundAt(s, d);
    assert LiveOn(s, d, r);
    RunChangeKeeps(s, t, d, r);
  }

  lemma RequestCancelKeeps(s: State, r: nat)
    requires Inv(s)
    ensures Good(s, Step(s, RequestCancelOp(r)))
  {
    var t := Step(s, RequestCancelOp(r));
    if t == s { Stays(s); } else {
      var d := s.runs[r].dispatch;
      assert RunOn(s, d, r);
      RunChangeKeeps(s, t, d, r);
    }
  }

  lemma OrphanEnds(s: State, t: State, r: nat)
    requires Inv(s) && s.workers == map[] && r < |s.runs| && s.runs[r].status.Running?
    requires var d := s.runs[r].dispatch;
      && d < |s.dispatches| && |t.dispatches| == |s.dispatches| && |t.runs| == |s.runs| && |t.jobs| == |s.jobs|
      && t == s.(runs := s.runs[r := s.runs[r].(status := t.runs[r].status)],
                 dispatches := s.dispatches[d := s.dispatches[d].(status := t.dispatches[d].status,
                                                                  expires := t.dispatches[d].expires)],
                 jobs := t.jobs)
      && Final(t.runs[r].status)
      && (t.dispatches[d] == s.dispatches[d]
          || (s.dispatches[d].status.Claimed? && (t.dispatches[d].status.Done? || t.dispatches[d].status.Failed?)))
    ensures Good(s, t)
  {
    var d := s.runs[r].dispatch;
    AroundAt(s, d);
    assert LiveOn(s, d, r);
    assert NoLiveOn(t, d) by {
      forall q | RunOn(t, d, q) ensures !Live(t.runs[q].status) {
        assert RunOn(s, d, q);
        assert LiveOn(s, d, q) ==> q == r;
      }
    }
    assert RowOk(t, d);
    hide Inv, Around;
    RowFitsWhen(s, d, t.dispatches[d]);
    RunMovesKeeps(s, t, d, r);
  }

  lemma EnqueueKeeps(s: State, j: nat, kind: Kind, origin: Origin, at: Time)
    requires Inv(s)
    ensures Good(s, Enqueue(s, j, kind, origin, at))
  {
    var t := Enqueue(s, j, kind, origin, at);
    Stays(s);
    if j < |s.jobs| {
      var n := |s.dispatches|;
      forall d | 0 <= d < n ensures Around(t, d) {
        Frame(s, t, d);
      }
      assert forall r :: !RunOn(t, n, r);
      assert forall a :: !ApprovalOn(t, n, a);
      assert Around(t, n);
    }
  }

  lemma ReplayKeeps(s: State, r: nat, when: Option<Time>)
    requires Inv(s)
    ensures Good(s, ReplayOrphan(s, r, when))
  {
    if s.workers == map[] && r < |s.runs| && s.runs[r].status.Running? {
      var u := ReplayOrphan(s, r, None);
      var d := s.runs[r].dispatch;
      AroundAt(s, d);
      assert LiveOn(s, d, r);
      OrphanEnds(s, u, r);
      hide Inv, Evolved, Enqueue;
      if when.Some? {
        EnqueueKeeps(u, s.runs[r].job, Retry, Origin(Some(r), Some(r), Some(r)), when.value);
        EvolvedTransitive(s, u, ReplayOrphan(s, r, when));
      }
    } else { Stays(s); }
  }

  lemma BlockKeeps(s: State, r: nat)
    requires Inv(s)
    ensures Good(s, BlockOrphan(s, r))
  {
    if s.workers == map[] && r < |s.runs| && s.runs[r].status.Running? {
      var d := s.runs[r].dispatch;
      AroundAt(s, d);
      assert LiveOn(s, d, r);
      OrphanEnds(s, BlockOrphan(s, r), r);
    } else { Stays(s); }
  }

  lemma CrashKeeps(s: State)
    requires Inv(s)
    ensures Good(s, Step(s, CrashOp))
  {
    var t := Step(s, CrashOp);
    Stays(s);
    forall d | 0 <= d < |t.dispatches| ensures Around(t, d) {
      var u := s.(workers := s.workers - {d});
      AroundAt(s, d);
      CrashAround(s, t, d);
    }
  }

  lemma CrashAround(s: State, t: State, d: nat)
    requires d < |s.dispatches| && Around(s, d) && t == s.(workers := map[], epoch := s.epoch + 1)
    ensures Around(t, d)
  {
    hide WorkerOk;
    assert forall q :: RunOn(t, d, q) <==> RunOn(s, d, q);
    assert forall a :: ApprovalOn(t, d, a) <==> ApprovalOn(s, d, a);
    assert forall q :: LiveOn(t, d, q) <==> LiveOn(s, d, q);
    assert forall a :: ActiveOn(t, d, a) <==> ActiveOn(s, d, a);
    assert forall q, a :: Uses(t, d, q, a) <==> Uses(s, d, q, a);
    forall a | ApprovalOn(t, d, a) ensures Coupled(t, a) { assert Coupled(s, a); }
    assert UsedOnce(t, d);
    assert OwnGateRuns(t, d);
    assert NewestActive(t, d);
  }
}
