/** The rows around one run as its endings change them, one field at a time. */
module CompletionStore {
  import opened Prelude
  import opened Gate
  import opened Completion

  class RunRecord {
    var status: RunStatus
    var fence: Option<Fence>
    var cancelRequested: bool
    var lease: Option<Fence>
    var dispatch: DispatchStatus
    var key: KeyState
    var jobEnabled: bool
    var evidence: Option<RunStatus>
    var effects: Effects

    ghost function Value(): Db
      reads this
    {
      Db(status, fence, cancelRequested, lease, dispatch, key, jobEnabled, evidence, effects)
    }

    constructor (owner: Option<Fence>, live: Option<Fence>, idem: KeyState)
      ensures Value() == Db(RunStatus.Running, owner, false, live, DispatchStatus.Claimed, idem, true, None, NOTHING)
    {
      status, fence, cancelRequested, lease := RunStatus.Running, owner, false, live;
      dispatch, key, jobEnabled, evidence := DispatchStatus.Claimed, idem, true, None;
      effects := NOTHING;
    }

    method TransitionRunTerminal(wanted: RunStatus, caller: Option<Fence>)
      returns (changed: bool, cancelled: bool, fenced: bool)
      requires Final(wanted)
      modifies this`status
      ensures var e := End(old(Value()), wanted, caller);
        Value() == e.db && changed == e.changed && cancelled == e.cancelled && fenced == e.fenced
    {
      var owned := if caller.Some? then fence == caller && lease == caller else fence == None;
      changed := ActiveRun(status) && owned;
      fenced := caller.Some? && !changed && ActiveRun(status);
      if changed { status := if cancelRequested then RunStatus.Cancelled else wanted; }
      cancelled := status.Cancelled? || cancelRequested;
    }

    method SetDispatchStatus(to: DispatchStatus)
      modifies this`dispatch
      ensures Value() == CloseTo(old(Value()), to)
    {
      if Open(dispatch) { dispatch := to; }
    }

    method SettleKey(action: KeyAction)
      modifies this`key
      ensures Value() == old(Value()).(key := Settle(old(key), action))
    {
      if key != NoKey {
        match action
        case Keep => key := Kept;
        case Release => key := Released;
        case Leave =>
      }
    }

    /** On a mismatch of the prepared evidence the transaction is undone: None, and the status it met. */
    method PerformBookkeeping(r: Report, caller: Option<Fence>, prepared: Option<RunStatus>)
      returns (redo: Option<RunStatus>)
      requires Final(r.status)
      modifies this
      ensures match Bookkeep(old(Value()), r, caller, prepared)
              case Success(db) => redo == None && Value() == db
              case Failure(st) => redo == Some(st) && Value() == old(Value())
    {
      hide Settle, CloseTo, End, Continue;
      var before := status;
      var changed, cancelled, fenced := TransitionRunTerminal(r.status, caller);
      if changed && prepared.Some? {
        if prepared.value != status {
          redo := Some(status);
          status := before;
          return;
        }
        evidence := prepared;
      }
      if !changed || cancelled || fenced {
        if !fenced { SettleKey(Release); }
        SetDispatchStatus(if cancelled then DispatchStatus.Cancelled else DispatchStatus.Failed);
      } else {
        RunPostCompletionEffects(r);
      }
      return None;
    }

    method RunPostCompletionEffects(r: Report)
      modifies this`key, this`dispatch, this`jobEnabled, this`effects
      ensures Value() == Continue(old(Value()), r)
    {
      hide Settle, SetOff, Admitted, Concludes;
      SettleKey(r.keyAction);
      var q := Admitted(r, jobEnabled);
      Record(q);
      if Concludes(q) && (r.disableJob || r.selfDestructs) { jobEnabled := false; }
      if !r.putOff {
        SetDispatchStatus(DispatchStatus.Done);
      } else if dispatch.Claimed? || dispatch.AwaitingApproval? {
        dispatch := DispatchStatus.Pending;
      }
    }

    method Record(r: Report)
      modifies this`effects
      ensures effects == SetOff(old(effects), r)
    {
      if r.putOff {
        effects := effects.(putOffs := effects.putOffs + 1);
      } else if r.drainRetry {
        if r.mayDrain { effects := effects.(retries := effects.retries + 1); }
      } else if r.status.Error? && (r.mayRetry || r.mayRetryTransient) {
        effects := effects.(retries := effects.retries + 1);
        if r.mayRetry && r.retryFiresChildren && !r.skipChildren {
          effects := effects.(children := effects.children + 1);
        }
        if r.delivers { effects := effects.(deliveries := effects.deliveries + 1); }
      } else {
        if !r.skipJobUpdate { effects := effects.(jobUpdates := effects.jobUpdates + 1); }
        if !r.skipChildren { effects := effects.(children := effects.children + 1); }
        if r.delivers && !r.selfDestructs { effects := effects.(deliveries := effects.deliveries + 1); }
      }
    }

    method AbortPreparedRun(wanted: RunStatus, caller: Option<Fence>, skipJobUpdate: bool, skipChildren: bool,
                            disableJob: bool)
      requires Final(wanted)
      modifies this
      ensures Value() == Abort(old(Value()), wanted, caller, skipJobUpdate, skipChildren, disableJob)
    {
      hide Settle, CloseTo, End;
      ghost var e := End(Value(), wanted, caller);
      var changed, cancelled, fenced := TransitionRunTerminal(wanted, caller);
      if !fenced { SettleKey(Release); }
      assert Value() == if e.fenced then e.db else e.db.(key := Settle(e.db.key, Release));
      if !changed || cancelled || fenced {
        SetDispatchStatus(if cancelled then DispatchStatus.Cancelled else DispatchStatus.Failed);
      } else {
        RunAbortEffects(skipJobUpdate, skipChildren, disableJob);
      }
    }

    method RunAbortEffects(skipJobUpdate: bool, skipChildren: bool, disableJob: bool)
      modifies this`effects, this`jobEnabled, this`dispatch
      ensures Value() == AbortEffects(old(Value()), skipJobUpdate, skipChildren, disableJob)
    {
      hide CloseTo;
      if !skipJobUpdate { effects := effects.(jobUpdates := effects.jobUpdates + 1); }
      if disableJob { jobEnabled := false; }
      if !skipChildren { effects := effects.(children := effects.children + 1); }
      SetDispatchStatus(DispatchStatus.Done);
    }

    method BlockRecovery(allowed: bool)
      modifies this`status, this`jobEnabled, this`dispatch
      ensures Value() == BlockRun(old(Value()), allowed)
    {
      if status.Running? && allowed {
        status := RunStatus.RecoveryBlocked;
        jobEnabled := false;
        SetDispatchStatus(DispatchStatus.Failed);
      }
    }

    /** The operator's cancellation of the job. */
    method CancelJobOfRun()
      modifies this
      ensures Value() == StopJob(old(Value()))
    {
      jobEnabled := false;
      SetDispatchStatus(DispatchStatus.Cancelled);
      if status.Running? {
        RequestCancellation();
      } else if Waiting(status) {
        cancelRequested := true;
        status := RunStatus.Cancelled;
      }
    }

    method RequestCancellation()
      modifies this`cancelRequested
      ensures Value() == FlagRun(old(Value()))
    {
      if ActiveRun(status) { cancelRequested := true; }
    }

    /** Evidence that cannot be recorded undoes the transaction, and the run is quarantined instead. */
    method CommitTimeout(caller: Option<Fence>, recorded: bool, mayRetry: bool)
      modifies this
      ensures Value() == TimeOutBy(old(Value()), caller, recorded, mayRetry)
    {
      var before := status;
      var changed, _, _ := TransitionRunTerminal(RunStatus.Timeout, caller);
      if !changed { return; }
      if !recorded {
        status := before;
        BlockRecovery(true);
      } else if mayRetry && jobEnabled {
        effects := effects.(retries := effects.retries + 1);
      } else {
        effects := effects.(jobUpdates := effects.jobUpdates + 1);
      }
    }

    method ProcessOrphan(atLeastOnce: bool, oneShot: bool, recorded: bool, leading: bool)
      modifies this
      ensures Value() == ReplayRun(old(Value()), atLeastOnce, oneShot, recorded, leading)
    {
      if !status.Running? { return; }
      if !recorded { BlockRecovery(leading); return; }
      status := RunStatus.Crashed;
      if dispatch.Claimed? || dispatch.AwaitingApproval? { dispatch := DispatchStatus.Done; }
      SettleKey(Release);
      effects := effects.(jobUpdates := effects.jobUpdates + 1);
      if atLeastOnce {
        effects := effects.(replays := effects.replays + 1);
      } else if oneShot {
        jobEnabled := false;
      }
    }
  }
}
