/**
 The tables of the gate protocol as the source changes them: guarded updates
 of rows, and loops over rows in the sweeps. Each method is shown to be the
 corresponding function of module Gate.
 */
module GateStore {
  import opened Prelude
  import opened ApprovalBinding
  import opened Gate
  import opened GateCascade

  class GateTables {
    var jobs: seq<Job>
    var dispatches: seq<Dispatch>
    var runs: seq<Run>
    var approvals: seq<Approval>
    var workers: map<nat, Worker>
    var nextToken: Token
    var epoch: nat

    ghost function Value(): State
      reads this
    {
      State(jobs, dispatches, runs, approvals, workers, nextToken, epoch)
    }

    constructor (initial: seq<Job>)
      ensures Value() == State(initial, [], [], [], map[], 0, 0)
    {
      jobs, dispatches, runs, approvals := initial, [], [], [];
      workers, nextToken, epoch := map[], 0, 0;
    }

    // -- The dispatch queue ---------------------------------

    /** `stored` is the dispatch that already has the caller's id, if any. */
    method EnqueueDispatch(stored: Option<nat>, j: nat, kind: Kind, origin: Origin, at: Time)
      returns (r: Result<nat, EnqueueError>)
      modifies this`dispatches
      ensures (Value(), r) == EnqueueUnder(old(Value()), stored, j, kind, origin, at)
    {
      if j >= |jobs| { return Failure(UnknownJob); }
      if stored.Some? && stored.value < |dispatches| {
        var row := dispatches[stored.value];
        return if row.job == j && row.kind == kind && row.origin.sourceRun == origin.sourceRun
               then Success(stored.value) else Failure(OtherDispatch(stored.value));
      }
      dispatches := dispatches + [Dispatch(j, kind, origin, at, DispatchStatus.Pending, at, None, None, 0)];
      return Success(|dispatches| - 1);
    }

    method ClaimForWorker(d: nat, expires: Time) returns (claimed: bool)
      modifies this`dispatches, this`workers, this`nextToken
      ensures Value() == StartWorker(old(Value()), d, expires)
      ensures claimed <==> d < |old(dispatches)| && d !in old(workers) && old(dispatches)[d].status.Pending?
                           && Enabled(old(Value()), old(dispatches)[d].job)
    {
      if d >= |dispatches| || d in workers || !dispatches[d].status.Pending? { return false; }
      var row := dispatches[d];
      if row.job >= |jobs| || !jobs[row.job].enabled { return false; }
      dispatches := dispatches[d := row.(status := DispatchStatus.Claimed, claim := Some(Claim(epoch, nextToken)),
                                         expires := Some(expires), attempts := row.attempts + 1)];
      workers := workers[d := Worker(nextToken, jobs[row.job].approvalRequired, Fresh)];
      nextToken := nextToken + 1;
      return true;
    }

    method RenewDispatchClaim(d: nat, token: Token, now: Time, expires: Time)
      modifies this`dispatches
      ensures Value() == RenewClaim(old(Value()), d, token, now, expires)
    {
      if d < |dispatches| {
        var row := dispatches[d];
        if row.status.Claimed? && row.claim == Some(Claim(epoch, token)) && row.expires.Some?
          && row.expires.value > now
        {
          dispatches := dispatches[d := row.(expires := Some(expires))];
        }
      }
    }

    /** Under this dispatcher's identity: a row claimed by another is out of reach. */
    method Release(d: nat, at: Option<Time>)
      modifies this`dispatches
      ensures Value() == ReleaseDispatch(old(Value()), d, at)
    {
      if d < |dispatches| {
        var row := dispatches[d];
        if (row.status.Claimed? || row.status.AwaitingApproval?)
          && (row.claim == None || row.claim.value.owner == epoch)
        {
          dispatches := dispatches[d := Requeued(row, at)];
        }
      }
    }

    method SetDispatchStatus(d: nat, status: DispatchStatus)
      requires !Open(status)
      modifies this`dispatches
      ensures Value() == CloseDispatch(old(Value()), d, status)
    {
      if d < |dispatches| {
        var row := dispatches[d];
        if Open(row.status) && (row.claim == None || row.claim.value.owner == epoch) {
          dispatches := dispatches[d := row.(status := status, expires := None)];
        }
      }
    }

    method AnyActiveRun(d: nat) returns (found: bool)
      ensures found == HasActiveRun(runs, d)
    {
      found := false;
      for r := 0 to |runs|
        invariant !found
        invariant forall q :: 0 <= q < r ==> !(runs[q].dispatch == d && ActiveRun(runs[q].status))
      {
        if runs[r].dispatch == d && ActiveRun(runs[r].status) { return true; }
      }
    }

    method RecoverStaleDispatchClaims(now: Time)
      modifies this`dispatches
      ensures Value() == RecoverStale(old(Value()), now, |old(dispatches)|)
    {
      for d := 0 to |dispatches|
        invariant |dispatches| == |old(dispatches)|
        invariant Value() == RecoverStale(old(Value()), now, d)
      {
        var row := dispatches[d];
        if row.status.Claimed? && row.expires.Some? && row.expires.value <= now {
          var busy := AnyActiveRun(d);
          if !busy { dispatches := dispatches[d := Requeued(row, None)]; }
        }
      }
    }

    method CancelDisabledDispatches()
      modifies this`dispatches
      ensures Value() == SweepDisabled(old(Value()), |old(dispatches)|)
    {
      for d := 0 to |dispatches|
        invariant |dispatches| == |old(dispatches)|
        invariant Value() == SweepDisabled(old(Value()), d)
      {
        var row := dispatches[d];
        if row.status.Pending? && row.job < |jobs| && !jobs[row.job].enabled {
          dispatches := dispatches[d := row.(status := DispatchStatus.Cancelled, expires := None)];
        }
      }
    }

    // -- Approvals ------------------------------------------

    method CurrentBinding(d: nat) returns (r: Result<Payload, LineageError>)
      requires d < |dispatches| && dispatches[d].job < |jobs|
      ensures r == BindingNow(Value(), d)
    {
      var j := dispatches[d].job;
      var lineage := LoadLineage(jobs, j);
      if lineage.Failure? { return Failure(lineage.error); }
      WalkInTable(jobs, j);
      return Success(Payload(Stable(jobs, j), StableAll(jobs, lineage.value), Fixed(d, dispatches[d])));
    }

    method LatestApproval(d: nat) returns (r: Option<nat>)
      ensures r == Latest(approvals, d, |approvals|)
    {
      var n: nat := |approvals|;
      while n > 0
        invariant n <= |approvals| && Latest(approvals, d, |approvals|) == Latest(approvals, d, n)
      {
        n := n - 1;
        if approvals[n].dispatch == d { return Some(n); }
      }
      return None;
    }

    method ActiveApproval(d: nat) returns (r: Option<nat>)
      ensures r == LatestActive(approvals, d, |approvals|)
    {
      var n: nat := |approvals|;
      while n > 0
        invariant n <= |approvals| && LatestActive(approvals, d, |approvals|) == LatestActive(approvals, d, n)
      {
        n := n - 1;
        if approvals[n].dispatch == d && Active(approvals[n].status) { return Some(n); }
      }
      return None;
    }

    method FinishRefused(r: nat, d: nat)
      modifies this`runs, this`dispatches
      ensures Value() == CancelGateDispatch(CancelGateRun(old(Value()), r), d)
    {
      if r < |runs| && Waiting(runs[r].status) {
        runs := runs[r := runs[r].(status := RunStatus.Cancelled)];
      }
      if d < |dispatches| && Open(dispatches[d].status) {
        dispatches := dispatches[d := Unclaimed(dispatches[d], DispatchStatus.Cancelled)];
      }
    }

    method ConsumeApprovalOccurrence(j: nat, d: nat, next: Option<Time>)
      modifies this`jobs
      ensures Value() == ConsumeOccurrence(old(Value()), j, d, next)
    {
      if j >= |jobs| || !jobs[j].enabled || jobs[j].parent.Some? || d >= |dispatches| { return; }
      var job, row := jobs[j], dispatches[d];
      if !(row.kind.Schedule? || row.kind.At?) { return; }
      if job.nextRunAt.Some? && job.nextRunAt.value > row.scheduledFor { return; }
      if row.kind.At? || job.oneShot {
        jobs := jobs[j := job.(enabled := false, nextRunAt := None)];
      } else {
        jobs := jobs[j := job.(nextRunAt := next)];
      }
    }

    method Refuse(a: nat, status: ApprovalStatus, next: Option<Time>)
      requires a < |approvals|
      modifies this`jobs, this`dispatches, this`runs, this`approvals
      ensures Value() == Refused(PutApproval(old(Value()), a, status), old(approvals)[a], next)
    {
      var ap := approvals[a];
      approvals := approvals[a := ap.(status := status, version := ap.version + 1)];
      FinishRefused(ap.run, ap.dispatch);
      ConsumeApprovalOccurrence(ap.job, ap.dispatch, next);
    }

    method CancelOneApproval(a: nat, next: Option<Time>)
      modifies this`jobs, this`dispatches, this`runs, this`approvals
      ensures Value() == CancelApproval(old(Value()), a, next)
    {
      hide Refused;
      if a < |approvals| && Active(approvals[a].status) {
        Refuse(a, ApprovalStatus.Cancelled, next);
      }
    }

    method CancelApprovalForDispatch(d: nat, next: Option<Time>)
      modifies this`jobs, this`dispatches, this`runs, this`approvals
      ensures Value() == CancelForDispatch(old(Value()), d, next)
    {
      hide CancelApproval;
      var a := ActiveApproval(d);
      if a.Some? { CancelOneApproval(a.value, next); }
    }

    method CancelApprovalsForJob(j: nat, next: Option<Time>)
      modifies this`jobs, this`dispatches, this`runs, this`approvals
      ensures Value() == CancelForJob(old(Value()), j, next, |old(approvals)|)
    {
      hide CancelApproval;
      var n: nat := |approvals|;
      for a := 0 to n
        invariant Value() == CancelForJob(old(Value()), j, next, a)
      {
        if a < |approvals| && approvals[a].job == j { CancelOneApproval(a, next); }
      }
    }

    method CancelUnavailableJobApprovals(next: Option<Time>)
      modifies this`jobs, this`dispatches, this`runs, this`approvals
      ensures Value() == CancelUnavailable(old(Value()), next, |old(approvals)|)
    {
      hide CancelApproval;
      var n: nat := |approvals|;
      for a := 0 to n
        invariant Value() == CancelUnavailable(old(Value()), next, a)
      {
        if a < |approvals| && (approvals[a].job >= |jobs| || !jobs[approvals[a].job].enabled) {
          CancelOneApproval(a, next);
        }
      }
    }

    /** Whether the approval can still be granted, an error, or why not. */
    method CheckGrant(a: nat) returns (raised: bool, overtaken: bool)
      requires a < |approvals|
      ensures raised == BindingRaises(Value(), a)
      ensures !raised ==> overtaken == Overtaken(Value(), a)
    {
      var ap := approvals[a];
      if ap.job >= |jobs| || !jobs[ap.job].enabled { return false, true; }
      if ap.dispatch >= |dispatches| || dispatches[ap.dispatch].job >= |jobs| { return false, true; }
      var bound := CurrentBinding(ap.dispatch);
      if bound.Failure? { return true, true; }
      raised := false;
      overtaken := bound != Success(ap.binding)
        || (ap.run < |runs| && !(runs[ap.run].status.AwaitingApproval? || runs[ap.run].status.Pending?))
        || dispatches[ap.dispatch].status.Cancelled?;
    }

    /** Granting: an error, when the dispatch can no longer be released, changes nothing. */
    method GrantApproval(a: nat, at: Time)
      requires a < |approvals|
      modifies this`dispatches, this`runs, this`approvals
      ensures Value() == match Grant(old(Value()), a, at) case Success(t) => t case Failure(_) => old(Value())
    {
      var ap := approvals[a];
      if ap.dispatch < |dispatches| && !dispatches[ap.dispatch].status.AwaitingApproval?
        && !dispatches[ap.dispatch].status.Pending?
      {
        return;
      }
      approvals := approvals[a := ap.(status := ApprovalStatus.Approved, version := ap.version + 1)];
      if ap.run < |runs| && (runs[ap.run].status.AwaitingApproval? || runs[ap.run].status.Pending?) {
        runs := runs[ap.run := runs[ap.run].(status := RunStatus.Approved)];
      }
      if ap.dispatch < |dispatches| && dispatches[ap.dispatch].status.AwaitingApproval? {
        dispatches := dispatches[ap.dispatch := Requeued(dispatches[ap.dispatch], Some(at))];
      }
    }

    method TransitionPendingApproval(a: nat, decision: Decision, actorFits: bool, at: Time, next: Option<Time>)
      modifies this`jobs, this`dispatches, this`runs, this`approvals
      ensures Value() == Decide(old(Value()), a, decision, actorFits, at, next)
    {
      hide Refused, Grant, BindingRaises, Overtaken;
      if a >= |approvals| || !approvals[a].status.Pending? { return; }
      if (decision.Approve? || decision.Reject?) && approvals[a].scoped && !actorFits { return; }
      match decision
      case Approve =>
        var raised, overtaken := CheckGrant(a);
        if raised { return; }
        if overtaken { Refuse(a, ApprovalStatus.Cancelled, next); } else { GrantApproval(a, at); }
      case Reject => Refuse(a, ApprovalStatus.Rejected, next);
      case TimeOut => Refuse(a, ApprovalStatus.TimedOut, next);
      case Withdraw => Refuse(a, ApprovalStatus.Cancelled, next);
    }

    /** Moves the newest approval of d to dispatching, cancels it, leaves it, or raises. */
    method BeginApprovalDispatch(d: nat, actorFits: bool, next: Option<Time>)
        returns (began: bool, latest: Option<nat>, raised: bool)
      modifies this`jobs, this`dispatches, this`runs, this`approvals
      ensures match BeginDispatch(old(Value()), d, actorFits, next)
              case Began(a) => began && !raised && latest == Some(a)
                               && Value() == PutApproval(old(Value()), a, ApprovalStatus.Dispatching)
              case Declined(t, l) => !began && !raised && latest == l && Value() == t
              case Raised => !began && raised && Value() == old(Value())
    {
      hide CancelApproval;
      began, raised := false, false;
      latest := LatestApproval(d);
      if latest.None? { return; }
      var a := latest.value;
      var ap := approvals[a];
      if !ap.status.Approved? { return; }
      if ap.dispatch >= |dispatches| || dispatches[ap.dispatch].job != ap.job
        || ap.run >= |runs| || runs[ap.run].job != ap.job || runs[ap.run].dispatch != ap.dispatch
      {
        approvals := approvals[a := ap.(status := ApprovalStatus.Cancelled, version := ap.version + 1)];
        if d < |dispatches| && Open(dispatches[d].status) {
          dispatches := dispatches[d := Unclaimed(dispatches[d], DispatchStatus.Cancelled)];
        }
        return;
      }
      if ap.job >= |jobs| || !jobs[ap.job].enabled { CancelOneApproval(a, next); return; }
      var bound := CurrentBinding(ap.dispatch);
      if bound.Failure? { raised := true; return; }
      if bound != Success(ap.binding) { CancelOneApproval(a, next); return; }
      if !dispatches[ap.dispatch].status.Claimed? { return; }
      if ap.scoped && !actorFits { CancelOneApproval(a, next); return; }
      approvals := approvals[a := ap.(status := ApprovalStatus.Dispatching, version := ap.version + 1)];
      began := true;
    }

    method SpendApproval(a: nat)
      requires a < |approvals|
      modifies this`runs, this`approvals
      ensures Value() == Consume(old(Value()), a)
    {
      var ap := approvals[a];
      approvals := approvals[a := ap.(status := ApprovalStatus.Dispatched, version := ap.version + 1)];
      if ap.run < |runs| && runs[ap.run].status.Approved? {
        runs := runs[ap.run := runs[ap.run].(status := RunStatus.Skipped)];
      }
    }

    method MarkApprovalDispatched(d: nat)
      modifies this`runs, this`approvals
      ensures Value() == MarkDispatched(old(Value()), d)
    {
      var a := LatestApproval(d);
      if a.Some? && approvals[a.value].status.Dispatching? { SpendApproval(a.value); }
    }

    method DeferApprovalDispatch(d: nat, at: Option<Time>)
      modifies this`dispatches, this`approvals
      ensures Value() == DeferApproval(old(Value()), d, at)
    {
      var a := LatestApproval(d);
      if a.None? || !approvals[a.value].status.Dispatching? { return; }
      var ap := approvals[a.value];
      approvals := approvals[a.value := ap.(status := ApprovalStatus.Approved, version := ap.version + 1)];
      if d < |dispatches| && dispatches[d].status.Claimed? {
        dispatches := dispatches[d := Requeued(dispatches[d], at)];
      }
    }

    method ExecutionRunExists(a: nat) returns (found: bool)
      requires a < |approvals|
      ensures found == HasExecutionRun(Value(), a)
    {
      var ap := approvals[a];
      found := false;
      for r := 0 to |runs|
        invariant !found
        invariant forall q :: 0 <= q < r ==>
          !(runs[q].dispatch == ap.dispatch && q != ap.run && runs[q].job == ap.job && runs[q].approvalUsed == Some(a))
      {
        if runs[r].dispatch == ap.dispatch && r != ap.run && runs[r].job == ap.job && runs[r].approvalUsed == Some(a) {
          return true;
        }
      }
    }

    method RecoverOneApproval(a: nat, now: Time, next: Option<Time>)
      modifies this`jobs, this`dispatches, this`runs, this`approvals
      ensures Value() == RecoverApproval(old(Value()), a, now, next)
    {
      hide CancelApproval, Consume, HasExecutionRun;
      if a >= |approvals| || !approvals[a].status.Dispatching? { return; }
      var ap := approvals[a];
      var d := ap.dispatch;
      var executed := ExecutionRunExists(a);
      if executed || (d < |dispatches| && dispatches[d].status.Done?) { SpendApproval(a); return; }
      if d >= |dispatches| || !Open(dispatches[d].status) { CancelOneApproval(a, next); return; }
      var row := dispatches[d];
      if row.status.Claimed? && !(row.expires.Some? && row.expires.value <= now) { return; }
      approvals := approvals[a := ap.(status := ApprovalStatus.Approved, version := ap.version + 1)];
      dispatches := dispatches[d := Requeued(row, None)];
    }

    method RecoverInterruptedApprovalDispatches(now: Time, next: Option<Time>)
      modifies this`jobs, this`dispatches, this`runs, this`approvals
      ensures Value() == RecoverApprovals(old(Value()), now, next, |old(approvals)|)
    {
      hide RecoverApproval;
      var n: nat := |approvals|;
      for a := 0 to n
        invariant Value() == RecoverApprovals(old(Value()), now, next, a)
      {
        RecoverOneApproval(a, now, next);
      }
    }

    /** Inserts a pending approval with gate run r and parks dispatch d; false when it raises. */
    method CreateApproval(d: nat, r: nat, kind: GateKind, scoped: bool) returns (ok: bool)
      requires d < |dispatches| && dispatches[d].job < |jobs| && r < |runs|
      modifies this`dispatches, this`runs, this`approvals
      ensures match OpenApproval(old(Value()), d, r, kind, scoped)
              case None => !ok && Value() == old(Value())
              case Some(t) => ok && Value() == t
    {
      var row := dispatches[d];
      if !jobs[row.job].enabled || runs[r].job != row.job || runs[r].dispatch != d { return false; }
      var found, other := false, false;
      for a := 0 to |approvals|
        invariant found <==> exists b :: 0 <= b < a && ActiveOfKind(approvals[b], d, kind)
        invariant other <==> exists b :: 0 <= b < a && ActiveOfKind(approvals[b], d, kind) && approvals[b].run != r
      {
        if ActiveOfKind(approvals[a], d, kind) {
          found := true;
          if approvals[a].run != r { other := true; }
        }
      }
      assert found <==> exists ap <- approvals :: ActiveOfKind(ap, d, kind);
      if found { return !other; }
      var bound := CurrentBinding(d);
      if bound.Failure? { return false; }
      approvals := approvals + [Approval(row.job, r, d, kind, bound.value, scoped, ApprovalStatus.Pending, 0)];
      if Live(runs[r].status) { runs := runs[r := runs[r].(status := RunStatus.AwaitingApproval)]; }
      if row.status.Pending? || row.status.Claimed? {
        dispatches := dispatches[d := Unclaimed(row, DispatchStatus.AwaitingApproval)];
      }
      return true;
    }

    // -- The worker's transactions --------------------------

    method StopWorker(d: nat)
      modifies this`workers
      ensures Value() == EndWorker(old(Value()), d)
    {
      workers := workers - {d};
    }

    method SetPhase(d: nat, phase: Phase)
      requires d in workers
      modifies this`workers
      ensures Value() == PutWorker(old(Value()), d, phase)
    {
      workers := workers[d := workers[d].(phase := phase)];
    }

    method ReadApprovedGate(d: nat)
      modifies this`workers
      ensures Value() == ReadGate(old(Value()), d)
    {
      if d in workers && d < |dispatches| && dispatches[d].job < |jobs| && workers[d].phase.Fresh? {
        var gate := ActiveApproval(d);
        SetPhase(d, Ready(gate, gate.Some? && approvals[gate.value].status.Approved?));
      }
    }

    method OpenApprovalGate(d: nat, scoped: bool)
      modifies this`dispatches, this`runs, this`approvals, this`workers
      ensures Value() == OpenGate(old(Value()), d, scoped)
    {
      hide OpenApproval;
      if !(d in workers && d < |dispatches| && dispatches[d].job < |jobs|) { return; }
      var w := workers[d];
      if !w.phase.Ready? || w.phase.bypass || !w.gated { return; }
      if dispatches[d].status.Claimed? && dispatches[d].claim == Some(Claim(epoch, w.token)) {
        var was := runs;
        runs := runs + [Run(dispatches[d].job, d, RunStatus.AwaitingApproval, None, false)];
        var ok := CreateApproval(d, |was|, JobGate, scoped);
        if !ok { runs := was; }
      }
      StopWorker(d);
    }

    method CreateExecutionRun(d: nat, actorFits: bool, next: Option<Time>)
      modifies this`jobs, this`dispatches, this`runs, this`approvals, this`workers
      ensures Value() == Execute(old(Value()), d, actorFits, next)
    {
      hide BeginDispatch, Consume;
      if !(d in workers && d < |dispatches| && dispatches[d].job < |jobs|) { return; }
      var w := workers[d];
      if !w.phase.Ready? || (!w.phase.bypass && w.gated) { return; }
      var current := dispatches[d].status.Claimed? && dispatches[d].claim == Some(Claim(epoch, w.token));
      var j := dispatches[d].job;
      var r := |runs|;
      if w.phase.gate.None? {
        if !current { StopWorker(d); return; }
        if !jobs[j].enabled {
          dispatches := dispatches[d := Unclaimed(dispatches[d], DispatchStatus.Cancelled)];
          StopWorker(d);
          return;
        }
        runs := runs + [Run(j, d, RunStatus.Running, None, false)];
        SetPhase(d, Executing(r));
        return;
      }
      if !current { return; }
      SpendAndStart(d, actorFits, next);
    }

    /** The gated half: begin, create the run, mark, all or nothing. */
    method SpendAndStart(d: nat, actorFits: bool, next: Option<Time>)
      requires Attends(Value(), d) && Cleared(workers[d]) && workers[d].phase.gate.Some? && HoldsClaim(Value(), d)
      modifies this`jobs, this`dispatches, this`runs, this`approvals, this`workers
      ensures Value() == Execute(old(Value()), d, actorFits, next)
    {
      hide BeginDispatch, Consume;
      var jobs0, dispatches0, runs0, approvals0 := jobs, dispatches, runs, approvals;
      var began, latest, raised := BeginApprovalDispatch(d, actorFits, next);
      if began {
        runs := runs + [Run(dispatches[d].job, d, RunStatus.Running, Some(latest.value), false)];
        SpendApproval(latest.value);
        SetPhase(d, Executing(|runs0|));
      } else if !raised && latest.Some? && latest.value < |approvals| && approvals[latest.value].status.Cancelled? {
        StopWorker(d);
      } else {
        jobs, dispatches, runs, approvals := jobs0, dispatches0, runs0, approvals0;
      }
    }

    /** The compare-and-swap of the run and the dispatch's end, in one transaction. */
    method FinishRun(d: nat, status: RunStatus, outcome: Outcome)
      requires Final(status)
      modifies this`dispatches, this`runs, this`workers
      ensures Value() == Finish(old(Value()), d, status, outcome)
    {
      if !(d in workers && d < |dispatches| && dispatches[d].job < |jobs| && workers[d].phase.Executing?
           && workers[d].phase.run < |runs|) { return; }
      var r := workers[d].phase.run;
      var run := runs[r];
      var changed := ActiveRun(run.status);
      if changed {
        runs := runs[r := run.(status := if run.cancelRequested then RunStatus.Cancelled else status)];
      }
      var cancelled := runs[r].status.Cancelled? || run.cancelRequested;
      if !changed || cancelled {
        SetDispatchStatus(d, if cancelled then DispatchStatus.Cancelled else DispatchStatus.Failed);
      } else if outcome.PutOff? {
        Release(d, Some(outcome.at));
      } else {
        SetDispatchStatus(d, DispatchStatus.Done);
      }
      StopWorker(d);
    }

    /** The check after the provider's answer: a cancelled run is ended, any other may escalate. */
    method AbortIfCancelled(d: nat)
      modifies this`dispatches, this`runs, this`workers
      ensures Value() == ReadCancellation(old(Value()), d)
    {
      if d in workers && d < |dispatches| && dispatches[d].job < |jobs| && workers[d].phase.Executing?
        && workers[d].phase.run < |runs|
      {
        if runs[workers[d].phase.run].cancelRequested {
          FinishRun(d, RunStatus.Error, Complete);
        } else {
          SetPhase(d, Escalating(workers[d].phase.run));
        }
      }
    }

    method EscalateAuthorization(d: nat, scoped: bool)
      modifies this`dispatches, this`runs, this`approvals, this`workers
      ensures Value() == Escalate(old(Value()), d, scoped)
    {
      hide OpenApproval;
      if d in workers && d < |dispatches| && dispatches[d].job < |jobs| && workers[d].phase.Escalating?
        && workers[d].phase.run < |runs|
      {
        var _ := CreateApproval(d, workers[d].phase.run, AuthorizationGate, scoped);
        StopWorker(d);
      }
    }

    // -- Cancelling a job -----------------------------------

    method StrikeJobDispatches(j: nat)
      modifies this`dispatches
      ensures Value() == StrikeForJob(old(Value()), j, |old(dispatches)|)
    {
      var n: nat := |dispatches|;
      for d := 0 to n
        invariant |dispatches| == n
        invariant Value() == StrikeForJob(old(Value()), j, d)
      {
        if dispatches[d].job == j && Open(dispatches[d].status) {
          dispatches := dispatches[d := dispatches[d].(status := DispatchStatus.Cancelled, expires := None)];
        }
      }
    }

    method StopJobRuns(j: nat)
      modifies this`runs
      ensures Value() == StopForJob(old(Value()), j, |old(runs)|)
    {
      var n: nat := |runs|;
      for r := 0 to n
        invariant |runs| == n
        invariant Value() == StopForJob(old(Value()), j, r)
      {
        if runs[r].job == j && ActiveRun(runs[r].status) {
          runs := runs[r := runs[r].(cancelRequested := true,
                                     status := if runs[r].status.Running?
                                               then runs[r].status else RunStatus.Cancelled)];
        }
      }
    }

    method CancelOneJob(j: nat, next: Option<Time>)
      modifies this`jobs, this`dispatches, this`runs, this`approvals
      ensures Value() == CancelJob(old(Value()), j, next)
    {
      hide StrikeForJob, CancelForJob, StopForJob;
      if j < |jobs| {
        jobs := jobs[j := jobs[j].(enabled := false)];
        StrikeJobDispatches(j);
        CancelApprovalsForJob(j, next);
        StopJobRuns(j);
      }
    }

    /** The job and, for a cascade, its descendants level by level; a parent cycle is walked once. */
    method CollectJobs(j: nat, cascade: bool) returns (cancelled: seq<nat>)
      ensures cancelled == Reached(jobs, j, cascade)
    {
      var pending, seen: set<nat> := [j], {};
      cancelled := [];
      assert Unseen(|jobs|, {}) == Ids(|jobs|);
      hide Collect, Ids, Children, Unseen;
      while pending != []
        invariant cancelled + Collect(jobs, pending, Unseen(|jobs|, seen), cascade) == Reached(jobs, j, cascade)
        decreases Unseen(|jobs|, seen), |pending|
      {
        var x := pending[0];
        SeesOne(|jobs|, seen, x);
        CollectOne(jobs, pending, Unseen(|jobs|, seen), cascade);
        pending := pending[1..];
        if x in seen || x >= |jobs| { continue; }
        seen := seen + {x};
        cancelled := cancelled + [x];
        pending := pending + if cascade then Children(jobs, x, |jobs|) else [];
      }
      CollectNone(jobs, Unseen(|jobs|, seen), cascade);
    }

    method CancelWholeJob(j: nat, cascade: bool, next: Option<Time>)
      modifies this`jobs, this`dispatches, this`runs, this`approvals
      ensures Value() == CancelCascade(old(Value()), j, cascade, next)
    {
      hide CancelJob, Reached, Collect;
      var cancelled := CollectJobs(j, cascade);
      for i := 0 to |cancelled|
        invariant CancelAll(Value(), cancelled[i..], next) == CancelCascade(old(Value()), j, cascade, next)
      {
        CancelOneJob(cancelled[i], next);
        assert cancelled[i..][1..] == cancelled[i + 1..];
      }
    }
  }
}
