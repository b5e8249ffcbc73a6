/**
 The end of one run. Normal completion, a preparation abort, the health check
 and start-up recovery race to end it; each commits its effects in the
 transaction that ends the run.
 */
module Completion {
  import opened Prelude
  import opened Gate

  /** A dispatcher's owner and fencing token. */
  datatype Fence = Fence(owner: nat, token: nat)

  datatype KeyState = NoKey | Held | Kept | Released

  datatype KeyAction = Keep | Release | Leave

  /** What ending the run has set off so far. */
  datatype Effects = Effects(
    jobUpdates: nat,
    retries: nat,
    replays: nat,
    putOffs: nat,
    children: nat,
    deliveries: nat)

  const NOTHING := Effects(0, 0, 0, 0, 0, 0)

  datatype Db = Db(
    status: RunStatus,
    fence: Option<Fence>,
    cancelRequested: bool,
    lease: Option<Fence>,
    dispatch: DispatchStatus,
    key: KeyState,
    jobEnabled: bool,
    evidence: Option<RunStatus>,
    effects: Effects)

  // -- The compare-and-swap ---------------------------------

  datatype Ending = Ending(db: Db, changed: bool, status: RunStatus, cancelled: bool, fenced: bool)

  predicate MayEnd(db: Db, fence: Option<Fence>) {
    && ActiveRun(db.status)
    && if fence.Some? then db.fence == fence && db.lease == fence else db.fence == None
  }

  /** The status an ending would have now: a requested cancellation wins. */
  function Effective(db: Db, status: RunStatus): RunStatus {
    if db.cancelRequested then RunStatus.Cancelled else status
  }

  /** transitionRunTerminal as completeRunFenced reports it. */
  function End(db: Db, status: RunStatus, fence: Option<Fence>): (e: Ending)
    requires Final(status)
    ensures e.changed ==> ActiveRun(db.status) && Final(e.db.status) && !e.fenced
    ensures !e.changed ==> e.db == db
    ensures e.db == db.(status := e.db.status) && e.status == e.db.status
    ensures e.fenced <==> fence.Some? && ActiveRun(db.status) && (db.fence != fence || db.lease != fence)
  {
    if MayEnd(db, fence) then
      var t := db.(status := Effective(db, status));
      Ending(t, true, t.status, db.cancelRequested || status.Cancelled?, false)
    else
      Ending(db, false, db.status, db.status.Cancelled? || db.cancelRequested, fence.Some? && ActiveRun(db.status))
  }

  predicate RunsEffects(e: Ending) { e.changed && !e.cancelled && !e.fenced }

  function CloseTo(db: Db, status: DispatchStatus): (t: Db)
    ensures t == db.(dispatch := t.dispatch) && (!Open(status) ==> !Open(t.dispatch))
  {
    if Open(db.dispatch) then db.(dispatch := status) else db
  }

  // -- Normal completion ------------------------------------

  /** What an execution reports, and what its job allows, when it is finalized. */
  datatype Report = Report(
    status: RunStatus,
    putOff: bool,
    drainRetry: bool,
    mayDrain: bool,
    mayRetry: bool,
    mayRetryTransient: bool,
    retryFiresChildren: bool,
    skipJobUpdate: bool,
    skipChildren: bool,
    disableJob: bool,
    selfDestructs: bool,
    delivers: bool,
    keyAction: KeyAction)

  function Count(b: bool): nat { if b then 1 else 0 }

  function Settle(key: KeyState, action: KeyAction): KeyState {
    if key.NoKey? || action.Leave? then key else if action.Keep? then Kept else Released
  }

  /** No retry and no new date follows: the occurrence is over. */
  predicate Concludes(r: Report) {
    !r.putOff && !r.drainRetry && !(r.status.Error? && (r.mayRetry || r.mayRetryTransient))
  }

  /** What the branches of performBookkeeping set off. */
  function SetOff(fx: Effects, r: Report): Effects {
    if r.putOff then fx.(putOffs := fx.putOffs + 1)
    else if r.drainRetry then fx.(retries := fx.retries + Count(r.mayDrain))
    else if r.status.Error? && r.mayRetry then
      fx.(retries := fx.retries + 1,
          children := fx.children + Count(r.retryFiresChildren && !r.skipChildren),
          deliveries := fx.deliveries + Count(r.delivers))
    else if r.status.Error? && r.mayRetryTransient then
      fx.(retries := fx.retries + 1, deliveries := fx.deliveries + Count(r.delivers))
    else
      fx.(jobUpdates := fx.jobUpdates + Count(!r.skipJobUpdate),
          children := fx.children + Count(!r.skipChildren),
          deliveries := fx.deliveries + Count(r.delivers && !r.selfDestructs))
  }

  /** A drain retry and a retry of a transient error read the job again and need it enabled. */
  function Admitted(r: Report, enabled: bool): Report {
    r.(mayDrain := r.mayDrain && enabled, mayRetryTransient := r.mayRetryTransient && enabled)
  }

  /** Once the run has ended in this transaction. */
  function Continue(db: Db, r: Report): Db {
    var q := Admitted(r, db.jobEnabled);
    var t := db.(key := Settle(db.key, r.keyAction),
                 jobEnabled := db.jobEnabled && !(Concludes(q) && (r.disableJob || r.selfDestructs)),
                 effects := SetOff(db.effects, q));
    if !r.putOff then CloseTo(t, DispatchStatus.Done)
    else if t.dispatch.Claimed? || t.dispatch.AwaitingApproval? then t.(dispatch := DispatchStatus.Pending)
    else t
  }

  /**
   The completion transaction. Evidence prepared for another status than the
   one the run ends with undoes it and reports that status.
   */
  function Bookkeep(db: Db, r: Report, fence: Option<Fence>, prepared: Option<RunStatus>): Result<Db, RunStatus>
    requires Final(r.status)
  {
    var e := End(db, r.status, fence);
    if e.changed && prepared.Some? && prepared.value != e.status then Failure(e.status)
    else
      var t := if e.changed && prepared.Some? then e.db.(evidence := prepared) else e.db;
      if !RunsEffects(e) then
        var u := if e.fenced then t else t.(key := Settle(t.key, Release));
        Success(CloseTo(u, if e.cancelled then DispatchStatus.Cancelled else DispatchStatus.Failed))
      else Success(Continue(t, r))
  }

  // -- The other endings ------------------------------------

  function Abort(db: Db, status: RunStatus, fence: Option<Fence>, skipJobUpdate: bool, skipChildren: bool,
                 disableJob: bool): Db
    requires Final(status)
  {
    var e := End(db, status, fence);
    var t := if e.fenced then e.db else e.db.(key := Settle(e.db.key, Release));
    if !RunsEffects(e) then CloseTo(t, if e.cancelled then DispatchStatus.Cancelled else DispatchStatus.Failed)
    else AbortEffects(t, skipJobUpdate, skipChildren, disableJob)
  }

  /** Once an aborted run has ended in this transaction. */
  function AbortEffects(db: Db, skipJobUpdate: bool, skipChildren: bool, disableJob: bool): Db {
    var fx := db.effects;
    CloseTo(db.(jobEnabled := db.jobEnabled && !disableJob,
                effects := fx.(jobUpdates := fx.jobUpdates + Count(!skipJobUpdate),
                               children := fx.children + Count(!skipChildren))), DispatchStatus.Done)
  }

  /** A run that cannot be recovered or recorded is blocked, its job disabled, its dispatch failed. */
  function BlockRun(db: Db, allowed: bool): Db {
    if db.status.Running? && allowed
    then CloseTo(db.(status := RunStatus.RecoveryBlocked, jobEnabled := false), DispatchStatus.Failed)
    else db
  }

  /**
   The health check: the bookkeeping follows the change, whatever status won. It
   reads the job in the same transaction and retries only an enabled one.
   */
  function TimeOutBy(db: Db, fence: Option<Fence>, recorded: bool, mayRetry: bool): Db {
    var e := End(db, RunStatus.Timeout, fence);
    if !e.changed then e.db
    else if !recorded then BlockRun(db, MayEnd(db, fence))
    else
      var fx := e.db.effects;
      e.db.(effects := if mayRetry && db.jobEnabled then fx.(retries := fx.retries + 1)
                         else fx.(jobUpdates := fx.jobUpdates + 1))
  }

  /** Start-up recovery of an orphan; `leading` says that this dispatcher's lease is live. */
  function ReplayRun(db: Db, atLeastOnce: bool, oneShot: bool, recorded: bool, leading: bool): Db {
    if !db.status.Running? then db
    else if !recorded then BlockRun(db, leading)
    else
      var t := db.(status := RunStatus.Crashed,
                   dispatch := if db.dispatch.Claimed? || db.dispatch.AwaitingApproval?
                               then DispatchStatus.Done else db.dispatch,
                   key := Settle(db.key, Release),
                   jobEnabled := db.jobEnabled && (atLeastOnce || !oneShot));
      var fx := t.effects;
      t.(effects := fx.(jobUpdates := fx.jobUpdates + 1, replays := fx.replays + Count(atLeastOnce)))
  }

  /**
   An operator cancels the job: it is disabled and its dispatch closed; a
   running run is asked to stop, one that has not started is cancelled.
   */
  function StopJob(db: Db): Db {
    var t := CloseTo(db.(jobEnabled := false), DispatchStatus.Cancelled);
    if t.status.Running? then t.(cancelRequested := true)
    else if Waiting(t.status) then t.(cancelRequested := true, status := RunStatus.Cancelled)
    else t
  }

  /** Only the run is asked to stop; its job stays as it is. */
  function FlagRun(db: Db): Db {
    if ActiveRun(db.status) then db.(cancelRequested := true) else db
  }

  // -- Interleavings ----------------------------------------

  /** A finalizer that signs evidence: it prepares, commits, and may prepare once more. */
  datatype Stage =
    | Executing
    | Prepared(evidence: RunStatus)
    | MustReprepare(status: RunStatus)
    | Reprepared(evidence: RunStatus)
    | Finished
    | GaveUp

  datatype Finalizer = Finalizer(report: Report, fence: Option<Fence>, stage: Stage)

  datatype World = World(db: Db, signer: Finalizer)

  /** The report a finalizer can hold. */
  predicate Sound(w: World) { Final(w.signer.report.status) }

  datatype Party =
    | SignerPrepares
    | SignerCommits
    | SignerReprepares
    | SignerCommitsAgain
    | Completes(report: Report, fence: Option<Fence>)
    | Aborts(status: RunStatus, fence: Option<Fence>, skipJobUpdate: bool, skipChildren: bool, disableJob: bool)
    | TimesOut(fence: Option<Fence>, recorded: bool, mayRetry: bool)
    | Replays(atLeastOnce: bool, oneShot: bool, recorded: bool, leading: bool)
    | Blocks(leading: bool)
    | CancelsJob
    | CancelsRun
    | EnablesJob
    | LeaseMoves(lease: Option<Fence>)

  function Commit(w: World, evidence: RunStatus, again: bool): World
    requires Sound(w)
  {
    match Bookkeep(w.db, w.signer.report, w.signer.fence, Some(evidence))
    case Success(db) => w.(db := db, signer := w.signer.(stage := Finished))
    case Failure(status) => w.(signer := w.signer.(stage := if again then GaveUp else MustReprepare(status)))
  }

  function Act(w: World, p: Party): (t: World)
    requires Sound(w)
    ensures Sound(t)
  {
    match p
    case SignerPrepares =>
      if w.signer.stage.Executing?
      then w.(signer := w.signer.(stage := Prepared(
             if w.db.cancelRequested || w.db.status.Cancelled? then RunStatus.Cancelled else w.signer.report.status)))
      else w
    case SignerCommits => if w.signer.stage.Prepared? then Commit(w, w.signer.stage.evidence, false) else w
    case SignerReprepares =>
      if w.signer.stage.MustReprepare? then w.(signer := w.signer.(stage := Reprepared(w.signer.stage.status))) else w
    case SignerCommitsAgain => if w.signer.stage.Reprepared? then Commit(w, w.signer.stage.evidence, true) else w
    case Completes(report, fence) =>
      if Final(report.status) && Bookkeep(w.db, report, fence, None).Success?
      then w.(db := Bookkeep(w.db, report, fence, None).value) else w
    case Aborts(status, fence, skipJobUpdate, skipChildren, disableJob) =>
      if Final(status) then w.(db := Abort(w.db, status, fence, skipJobUpdate, skipChildren, disableJob)) else w
    case TimesOut(fence, recorded, mayRetry) =>
      if w.db.status.Running? then w.(db := TimeOutBy(w.db, fence, recorded, mayRetry)) else w
    case Replays(atLeastOnce, oneShot, recorded, leading) =>
      w.(db := ReplayRun(w.db, atLeastOnce, oneShot, recorded, leading))
    case Blocks(leading) => w.(db := BlockRun(w.db, leading))
    case CancelsJob => w.(db := StopJob(w.db))
    case CancelsRun => w.(db := FlagRun(w.db))
    case EnablesJob => w.(db := w.db.(jobEnabled := true))
    case LeaseMoves(lease) => w.(db := w.db.(lease := lease))
  }

  function ActAll(w: World, ps: seq<Party>): (t: World)
    requires Sound(w)
    ensures Sound(t)
    decreases |ps|
  {
    if ps == [] then w else ActAll(Act(w, ps[0]), ps[1..])
  }

  // -- Effects commit at most once --------------------------

  /** How many of the mutually exclusive continuations have been committed. */
  function Continuations(fx: Effects): nat { fx.retries + fx.putOffs + fx.replays }

  /** An active run has set nothing off; an ended one at most one of everything. */
  predicate OnceInv(db: Db) {
    && (ActiveRun(db.status) ==> db.effects == NOTHING && db.evidence == None)
    && Continuations(db.effects) <= 1
    && db.effects.jobUpdates <= 1 && db.effects.children <= 1 && db.effects.deliveries <= 1
    && (db.effects.jobUpdates == 1 ==> db.effects.retries == 0 && db.effects.putOffs == 0)
    && (db.evidence.Some? ==> db.evidence == Some(db.status))
  }

  /** Whatever a party does, an ended run keeps its status, its effects and its evidence. */
  predicate Settled(p: Db, q: Db) {
    Final(p.status) ==> q.status == p.status && q.effects == p.effects && q.evidence == p.evidence
  }

  lemma SetOffOnce(r: Report)
    ensures var fx := SetOff(NOTHING, r);
      && Continuations(fx) <= 1
      && fx.jobUpdates <= 1 && fx.children <= 1 && fx.deliveries <= 1
      && (fx.jobUpdates == 1 ==> fx.retries == 0 && fx.putOffs == 0)
  {
    if r.putOff {
    } else if r.drainRetry {
    } else if r.status.Error? && r.mayRetry {
    } else if r.status.Error? && r.mayRetryTransient {
    } else {
    }
  }

  lemma ContinueOnce(db: Db, r: Report)
    ensures var t := Continue(db, r);
      t == db.(key := t.key, jobEnabled := t.jobEnabled, dispatch := t.dispatch,
               effects := SetOff(db.effects, Admitted(r, db.jobEnabled)))
  {
    hide Settle, CloseTo, SetOff;
  }

  lemma CompletionKeepsOnce(db: Db, r: Report, fence: Option<Fence>, prepared: Option<RunStatus>)
    requires OnceInv(db) && Final(r.status) && Bookkeep(db, r, fence, prepared).Success?
    ensures var t := Bookkeep(db, r, fence, prepared).value;
      OnceInv(t) && Settled(db, t) && t.cancelRequested == db.cancelRequested
  {
    hide Continue, Settle, SetOff, CloseTo, Admitted;
    SetOffOnce(Admitted(r, db.jobEnabled));
    var e := End(db, r.status, fence);
    if RunsEffects(e) {
      var t := if prepared.Some? then e.db.(evidence := prepared) else e.db;
      ContinueOnce(t, r);
      hide End;
    } else if e.changed {
      hide End;
    }
  }

  lemma CommitKeepsOnce(w: World, evidence: RunStatus, again: bool)
    requires Sound(w) && OnceInv(w.db)
    ensures var t := Commit(w, evidence, again);
      OnceInv(t.db) && Settled(w.db, t.db) && t.db.cancelRequested == w.db.cancelRequested
  {
    hide Bookkeep;
    if Bookkeep(w.db, w.signer.report, w.signer.fence, Some(evidence)).Success? {
      CompletionKeepsOnce(w.db, w.signer.report, w.signer.fence, Some(evidence));
    }
  }

  lemma AbortKeepsOnce(db: Db, status: RunStatus, fence: Option<Fence>, skipJobUpdate: bool, skipChildren: bool,
                       disableJob: bool)
    requires OnceInv(db) && Final(status)
    ensures var t := Abort(db, status, fence, skipJobUpdate, skipChildren, disableJob);
      OnceInv(t) && Settled(db, t) && t.cancelRequested == db.cancelRequested
  {
    hide Settle, CloseTo;
    var e := End(db, status, fence);
    if !e.changed { assert e.db == db; }
  }

  lemma TimeOutKeepsOnce(db: Db, fence: Option<Fence>, recorded: bool, mayRetry: bool)
    requires OnceInv(db)
    ensures var t := TimeOutBy(db, fence, recorded, mayRetry);
      OnceInv(t) && Settled(db, t) && t.cancelRequested == db.cancelRequested
  {}

  lemma BlockKeepsOnce(db: Db, allowed: bool)
    requires OnceInv(db)
    ensures var t := BlockRun(db, allowed);
      OnceInv(t) && Settled(db, t) && t.cancelRequested == db.cancelRequested
  {
    hide CloseTo;
  }

  lemma StopKeepsOnce(db: Db)
    requires OnceInv(db)
    ensures OnceInv(StopJob(db)) && Settled(db, StopJob(db))
    ensures db.cancelRequested ==> StopJob(db).cancelRequested
  {
    hide CloseTo;
  }

  lemma ReplayKeepsOnce(db: Db, atLeastOnce: bool, oneShot: bool, recorded: bool, leading: bool)
    requires OnceInv(db)
    ensures var t := ReplayRun(db, atLeastOnce, oneShot, recorded, leading);
      OnceInv(t) && Settled(db, t) && t.cancelRequested == db.cancelRequested
  {
    if db.status.Running? {
      if recorded { CrashSets(db, atLeastOnce, oneShot, leading); } else { BlockKeepsOnce(db, leading); }
    }
    hide ReplayRun, BlockRun;
  }

  /** What a recorded crash changes that is not the run's dispatch, key or job. */
  lemma CrashSets(db: Db, atLeastOnce: bool, oneShot: bool, leading: bool)
    requires db.status.Running? && db.effects == NOTHING
    ensures var t := ReplayRun(db, atLeastOnce, oneShot, true, leading);
      && t.status.Crashed? && t.effects == Effects(1, 0, Count(atLeastOnce), 0, 0, 0)
      && t.evidence == db.evidence && t.cancelRequested == db.cancelRequested
  {
    hide Settle, BlockRun;
  }

  lemma ActKeepsOnce(w: World, p: Party)
    requires Sound(w) && OnceInv(w.db)
    ensures OnceInv(Act(w, p).db) && Settled(w.db, Act(w, p).db)
    ensures w.db.cancelRequested ==> Act(w, p).db.cancelRequested
  {
    hide Bookkeep, Abort, TimeOutBy, ReplayRun, Commit, StopJob;
    match p
    case Completes(report, fence) =>
      if Final(report.status) && Bookkeep(w.db, report, fence, None).Success? {
        CompletionKeepsOnce(w.db, report, fence, None);
      }
    case SignerCommits => if w.signer.stage.Prepared? { CommitKeepsOnce(w, w.signer.stage.evidence, false); }
    case SignerCommitsAgain => if w.signer.stage.Reprepared? { CommitKeepsOnce(w, w.signer.stage.evidence, true); }
    case Aborts(status, fence, skipJobUpdate, skipChildren, disableJob) =>
      if Final(status) { AbortKeepsOnce(w.db, status, fence, skipJobUpdate, skipChildren, disableJob); }
    case TimesOut(fence, recorded, mayRetry) => TimeOutKeepsOnce(w.db, fence, recorded, mayRetry);
    case Replays(atLeastOnce, oneShot, recorded, leading) =>
      ReplayKeepsOnce(w.db, atLeastOnce, oneShot, recorded, leading);
    case CancelsJob => StopKeepsOnce(w.db);
    case _ =>
  }

  /**
   Over any interleaving of the parties, of cancellations and of lease changes:
   one ending, at most one continuation of the run, at most one job update, one
   firing of the children and one delivery; once ended, nothing moves.
   */
  lemma {:induction false} EffectsCommitOnce(w: World, ps: seq<Party>)
    requires Sound(w) && OnceInv(w.db)
    ensures OnceInv(ActAll(w, ps).db) && Settled(w.db, ActAll(w, ps).db)
    decreases |ps|
  {
    if ps != [] {
      ActKeepsOnce(w, ps[0]);
      EffectsCommitOnce(Act(w, ps[0]), ps[1..]);
    }
  }

  // -- Who commits effects ----------------------------------

  /**
   A completion sets something off, or puts the run off, exactly when it ends
   the run itself under a live fence and no cancellation was requested or
   reported; otherwise it leaves all effects as they were.
   */
  lemma CompletionCommitsIff(db: Db, r: Report, fence: Option<Fence>, prepared: Option<RunStatus>)
    requires Final(r.status) && Bookkeep(db, r, fence, prepared).Success?
    ensures var t := Bookkeep(db, r, fence, prepared).value;
      && (if MayEnd(db, fence) && !db.cancelRequested && !r.status.Cancelled?
          then t.effects == SetOff(db.effects, Admitted(r, db.jobEnabled)) && t.status == r.status
          else t.effects == db.effects && t.jobEnabled == db.jobEnabled && !Open(t.dispatch))
      && (ActiveRun(t.status) <==> ActiveRun(db.status) && !MayEnd(db, fence))
  {}

  lemma AbortCommitsIff(db: Db, status: RunStatus, fence: Option<Fence>, skipJobUpdate: bool, skipChildren: bool,
                        disableJob: bool)
    requires Final(status)
    ensures var t := Abort(db, status, fence, skipJobUpdate, skipChildren, disableJob);
      && (t.effects != db.effects <==>
            MayEnd(db, fence) && !db.cancelRequested && !status.Cancelled? && !(skipJobUpdate && skipChildren))
      && (!MayEnd(db, fence) || db.cancelRequested || status.Cancelled? ==> t.jobEnabled == db.jobEnabled)
      && !Open(t.dispatch)
  {}

  /** The health check ignores a cancellation: it retries a cancelled run too if its job is enabled again. */
  lemma TimeoutCommitsIff(db: Db, fence: Option<Fence>, recorded: bool, mayRetry: bool)
    ensures var t := TimeOutBy(db, fence, recorded, mayRetry);
      && (t.effects != db.effects <==> MayEnd(db, fence) && recorded)
      && (t.effects.retries > db.effects.retries && t.status.Cancelled?
          <==> MayEnd(db, fence) && recorded && mayRetry && db.jobEnabled && db.cancelRequested)
      && (t.effects.jobUpdates > db.effects.jobUpdates && t.status.Cancelled?
          <==> MayEnd(db, fence) && recorded && !(mayRetry && db.jobEnabled) && db.cancelRequested)
  {}

  /** Replaying an orphan looks only at whether it was running: a cancelled run is replayed as well. */
  lemma ReplayCommitsIff(db: Db, atLeastOnce: bool, oneShot: bool, recorded: bool, leading: bool)
    ensures var t := ReplayRun(db, atLeastOnce, oneShot, recorded, leading);
      && (t.effects != db.effects <==> db.status.Running? && recorded)
      && (t.effects.replays > db.effects.replays <==> db.status.Running? && recorded && atLeastOnce)
      && (db.status.Running? && recorded ==> t.status.Crashed?)
  {}

  const OWNER := Fence(1, 1)
  const REPORT := Report(RunStatus.Ok, putOff := false, drainRetry := false, mayDrain := false, mayRetry := false,
                         mayRetryTransient := false, retryFiresChildren := false, skipJobUpdate := false,
                         skipChildren := false, disableJob := false, selfDestructs := false, delivers := false,
                         keyAction := Leave)
  /** A running run under a live lease, with nothing set off. */
  const RUNNING := World(
    Db(RunStatus.Running, Some(OWNER), false, Some(OWNER), DispatchStatus.Claimed, Held, true, None, NOTHING),
    Finalizer(REPORT, Some(OWNER), Stage.Executing))

  /** What the parties leave of that run. */
  ghost predicate LeadTo(ps: seq<Party>, status: RunStatus, effects: Effects) {
    ActAll(RUNNING, ps).db.status == status && ActAll(RUNNING, ps).db.effects == effects
  }

  /** Cancelled, its job enabled again, and then timed out: the run ends as cancelled and is retried. */
  lemma CancelledRunIsRetried()
    ensures LeadTo([CancelsJob, EnablesJob, TimesOut(Some(OWNER), true, true)],
                   RunStatus.Cancelled, NOTHING.(retries := 1))
  {
    Unroll(RUNNING, [CancelsJob, EnablesJob, TimesOut(Some(OWNER), true, true)]);
  }

  /** While the job stays disabled the timeout of a cancelled run still updates the job. */
  lemma CancelledRunUpdatesItsJob()
    ensures LeadTo([CancelsJob, TimesOut(Some(OWNER), true, true)], RunStatus.Cancelled, NOTHING.(jobUpdates := 1))
  {
    Unroll(RUNNING, [CancelsJob, TimesOut(Some(OWNER), true, true)]);
  }

  /** Start-up recovery marks a cancelled run crashed and queues its replay, its job being disabled. */
  lemma CancelledRunIsReplayed()
    ensures LeadTo([CancelsJob, Replays(true, false, true, true)],
                   RunStatus.Crashed, NOTHING.(jobUpdates := 1, replays := 1))
  {
    Unroll(RUNNING, [CancelsJob, Replays(true, false, true, true)]);
  }

  lemma Unroll(w: World, ps: seq<Party>)
    requires Sound(w) && 2 <= |ps| <= 3
    ensures |ps| == 2 ==> ActAll(w, ps) == Act(Act(w, ps[0]), ps[1])
    ensures |ps| == 3 ==> ActAll(w, ps) == Act(Act(Act(w, ps[0]), ps[1]), ps[2])
  {
    hide Act;
    var u := Act(w, ps[0]);
    assert ActAll(w, ps) == ActAll(u, ps[1..]) == ActAll(Act(u, ps[1]), ps[1..][1..]);
    if |ps| == 3 { assert ps[1..][1..] == [ps[2]]; } else { assert ps[1..][1..] == []; }
  }

  // -- When cancellation or a lost fence wins ---------------

  /** Completion, abort and the signer respect a cancellation; these two do not. */
  predicate IgnoresCancellation(p: Party) { p.TimesOut? || p.Replays? }

  lemma CommitCancelled(w: World, evidence: RunStatus, again: bool)
    requires Sound(w) && w.db.cancelRequested
    ensures var t := Commit(w, evidence, again);
      && t.db.cancelRequested && t.db.effects == w.db.effects
      && (t.db.status == w.db.status || t.db.status.Cancelled?)
  {
    CompletionCancelled(w.db, w.signer.report, w.signer.fence, Some(evidence));
    hide Bookkeep;
  }

  lemma CompletionCancelled(db: Db, r: Report, fence: Option<Fence>, prepared: Option<RunStatus>)
    requires Final(r.status) && db.cancelRequested
    ensures var b := Bookkeep(db, r, fence, prepared);
      b.Success? ==>
        && b.value.cancelRequested && b.value.effects == db.effects
        && (b.value.status == db.status || b.value.status.Cancelled?)
  {
    hide Continue, CloseTo, Settle;
  }

  lemma ActCancelled(w: World, p: Party)
    requires Sound(w) && w.db.cancelRequested && !IgnoresCancellation(p)
    ensures var t := Act(w, p).db;
      && t.cancelRequested && t.effects == w.db.effects
      && (t.status == w.db.status || t.status.Cancelled? || t.status.RecoveryBlocked?)
  {
    hide Bookkeep, Commit, CloseTo, Settle;
    match p
    case SignerCommits => if w.signer.stage.Prepared? { CommitCancelled(w, w.signer.stage.evidence, false); }
    case SignerCommitsAgain => if w.signer.stage.Reprepared? { CommitCancelled(w, w.signer.stage.evidence, true); }
    case Completes(report, fence) => if Final(report.status) { CompletionCancelled(w.db, report, fence, None); }
    case _ =>
  }

  /**
   Once a cancellation is requested, no interleaving of completions, aborts,
   commits of a signer and its re-preparation, blocks and lease changes sets
   anything off, and the run can only end as cancelled or blocked.
   */
  lemma {:induction false} CancellationWins(w: World, ps: seq<Party>)
    requires Sound(w) && w.db.cancelRequested && forall p <- ps :: !IgnoresCancellation(p)
    ensures var t := ActAll(w, ps).db;
      && t.effects == w.db.effects
      && (t.status == w.db.status || t.status.Cancelled? || t.status.RecoveryBlocked?)
    decreases |ps|
  {
    if ps != [] {
      ActCancelled(w, ps[0]);
      hide Act;
      CancellationWins(Act(w, ps[0]), ps[1..]);
    }
  }

  /** What the health check and start-up recovery still do for a cancelled run: they update its job or replay it. */
  predicate OnlyFollowsUp(p: Effects, q: Effects) {
    q == p.(jobUpdates := q.jobUpdates, replays := q.replays)
  }

  lemma ActDisabled(w: World, p: Party)
    requires Sound(w) && w.db.cancelRequested && !w.db.jobEnabled && !p.EnablesJob?
    ensures var t := Act(w, p).db;
      && t.cancelRequested && !t.jobEnabled && OnlyFollowsUp(w.db.effects, t.effects)
      && (!p.Replays? ==> t.effects.replays == w.db.effects.replays)
      && (!IgnoresCancellation(p) ==> t.effects == w.db.effects)
  {
    if !IgnoresCancellation(p) {
      ActCancelled(w, p);
      ActLeavesDisabled(w, p);
      hide Act;
    } else {
      hide CloseTo, Settle;
    }
  }

  lemma ActLeavesDisabled(w: World, p: Party)
    requires Sound(w) && !w.db.jobEnabled && !p.EnablesJob?
    ensures !Act(w, p).db.jobEnabled
  {
    hide CloseTo, Settle, SetOff;
  }

  /**
   Cancelling a job for good: until it is enabled again, no party, the health
   check and start-up recovery included, retries its run, puts it off, fires
   its children or delivers anything.
   */
  lemma {:induction false} DisabledSetsNothingOff(w: World, ps: seq<Party>)
    requires Sound(w) && w.db.cancelRequested && !w.db.jobEnabled && EnablesJob !in ps
    ensures var t := ActAll(w, ps).db;
      && !t.jobEnabled && OnlyFollowsUp(w.db.effects, t.effects)
      && ((forall p <- ps :: !p.Replays?) ==> t.effects.replays == w.db.effects.replays)
    decreases |ps|
  {
    if ps != [] {
      assert ps[0] in ps;
      ActDisabled(w, ps[0]);
      hide Act;
      DisabledSetsNothingOff(Act(w, ps[0]), ps[1..]);
    }
  }

  /** So in whatever state a cancellation of the job meets its run, the run is retried only after an enabling. */
  lemma CancelledJobIsNotRetried(w: World, ps: seq<Party>)
    requires Sound(w) && OnceInv(w.db) && EnablesJob !in ps
    ensures OnlyFollowsUp(w.db.effects, ActAll(w, [CancelsJob] + ps).db.effects)
  {
    var u := Act(w, CancelsJob);
    assert ([CancelsJob] + ps)[1..] == ps;
    assert ActAll(w, [CancelsJob] + ps) == ActAll(u, ps);
    StopKeepsOnce(w.db);
    if ActiveRun(w.db.status) { DisabledSetsNothingOff(u, ps); } else { EffectsCommitOnce(u, ps); }
  }

  /** The lease is another's, or expired, and the run still carries fence f. */
  predicate FencedOut(db: Db, f: Fence) { db.fence == Some(f) && db.lease != Some(f) }

  /** Nobody gets the lost fence back, and no start-up recovery runs. */
  predicate KeepsFencedOut(p: Party, f: Fence) { p != LeaseMoves(Some(f)) && !p.Replays? }

  lemma CommitFencedOut(w: World, evidence: RunStatus, again: bool, f: Fence)
    requires Sound(w) && FencedOut(w.db, f)
    ensures var t := Commit(w, evidence, again).db;
      FencedOut(t, f) && t.effects == w.db.effects && t.status == w.db.status
  {
    CompletionFencedOut(w.db, w.signer.report, w.signer.fence, Some(evidence), f);
    hide Bookkeep;
  }

  lemma CompletionFencedOut(db: Db, r: Report, fence: Option<Fence>, prepared: Option<RunStatus>, f: Fence)
    requires Final(r.status) && FencedOut(db, f)
    ensures var b := Bookkeep(db, r, fence, prepared);
      b.Success? && FencedOut(b.value, f) && b.value.effects == db.effects && b.value.status == db.status
  {
    hide Continue, CloseTo, Settle;
  }

  lemma ActFencedOut(w: World, p: Party, f: Fence)
    requires Sound(w) && FencedOut(w.db, f) && KeepsFencedOut(p, f)
    ensures var t := Act(w, p).db;
      && FencedOut(t, f) && t.effects == w.db.effects
      && (t.status == w.db.status || t.status.RecoveryBlocked? || (Waiting(w.db.status) && t.status.Cancelled?))
  {
    hide Bookkeep, Commit, CloseTo, Settle;
    match p
    case SignerCommits => if w.signer.stage.Prepared? { CommitFencedOut(w, w.signer.stage.evidence, false, f); }
    case SignerCommitsAgain => if w.signer.stage.Reprepared? { CommitFencedOut(w, w.signer.stage.evidence, true, f); }
    case Completes(report, fence) => if Final(report.status) { CompletionFencedOut(w.db, report, fence, None, f); }
    case _ =>
  }

  /**
   Once the fence of a run is lost, nobody but start-up recovery sets anything
   off, the health check included, over any interleaving; nobody else ends the
   run, unless the operator cancels it before it has started.
   */
  lemma {:induction false} LostFenceWins(w: World, ps: seq<Party>, f: Fence)
    requires Sound(w) && FencedOut(w.db, f) && forall p <- ps :: KeepsFencedOut(p, f)
    ensures var t := ActAll(w, ps).db;
      && t.effects == w.db.effects
      && (t.status == w.db.status || t.status.RecoveryBlocked? || (Waiting(w.db.status) && t.status.Cancelled?))
    decreases |ps|
  {
    if ps != [] {
      ActFencedOut(w, ps[0], f);
      hide Act;
      LostFenceWins(Act(w, ps[0]), ps[1..], f);
    }
  }

  // -- One more preparation is enough -----------------------

  /** The signer's evidence can only be overtaken by a cancellation. */
  predicate SignerInv(w: World) {
    match w.signer.stage
    case Executing => true
    case Prepared(e) =>
      || e == w.signer.report.status
      || (e.Cancelled? && (w.db.cancelRequested || !ActiveRun(w.db.status)))
    case MustReprepare(st) => st.Cancelled? && w.db.cancelRequested
    case Reprepared(e) => e.Cancelled? && w.db.cancelRequested
    case Finished => true
    case GaveUp => false
  }

  /** What a failed commit says: the run would have ended now, with another status. */
  lemma CommitFails(db: Db, r: Report, fence: Option<Fence>, prepared: RunStatus)
    requires Final(r.status) && Bookkeep(db, r, fence, Some(prepared)).Failure?
    ensures Bookkeep(db, r, fence, Some(prepared)).error == Effective(db, r.status) != prepared && ActiveRun(db.status)
  {}

  lemma CommitKeepsSigner(w: World, evidence: RunStatus, again: bool)
    requires Sound(w) && OnceInv(w.db)
    requires (again ==> w.db.cancelRequested && evidence.Cancelled?)
      && (!again ==>
            || evidence == w.signer.report.status
            || (evidence.Cancelled? && (w.db.cancelRequested || !ActiveRun(w.db.status))))
    ensures SignerInv(Commit(w, evidence, again))
  {
    if Bookkeep(w.db, w.signer.report, w.signer.fence, Some(evidence)).Failure? {
      CommitFails(w.db, w.signer.report, w.signer.fence, evidence);
    }
    hide Bookkeep;
  }

  lemma ActKeepsSigner(w: World, p: Party)
    requires Sound(w) && OnceInv(w.db) && SignerInv(w)
    ensures SignerInv(Act(w, p))
  {
    hide Bookkeep, Abort, TimeOutBy, ReplayRun, BlockRun, Commit;
    ActKeepsOnce(w, p);
    if p.SignerCommits? && w.signer.stage.Prepared? { CommitKeepsSigner(w, w.signer.stage.evidence, false); }
    if p.SignerCommitsAgain? && w.signer.stage.Reprepared? { CommitKeepsSigner(w, w.signer.stage.evidence, true); }
  }

  /** The second commit of a signer never fails, whatever happens in between. */
  lemma {:induction false} OneRepreparationIsEnough(w: World, ps: seq<Party>)
    requires Sound(w) && OnceInv(w.db) && w.signer.stage.Executing?
    ensures !ActAll(w, ps).signer.stage.GaveUp?
  {
    SignerNeverRaises(w, ps);
  }

  lemma {:induction false} SignerNeverRaises(w: World, ps: seq<Party>)
    requires Sound(w) && OnceInv(w.db) && SignerInv(w)
    ensures SignerInv(ActAll(w, ps))
    decreases |ps|
  {
    if ps != [] {
      ActKeepsOnce(w, ps[0]);
      ActKeepsSigner(w, ps[0]);
      SignerNeverRaises(Act(w, ps[0]), ps[1..]);
    }
  }
}
