/**
 Jobs, their queued dispatches, their runs and their approvals, and the
 workers of the one dispatcher that holds the lease. Every operation is one
 database transaction; a worker is the program of prepareDispatch and
 finalizeDispatch cut at its transactions, and can stop between any two.
 */
module Gate {
  import opened Prelude
  import opened ApprovalBinding

  type Token = nat

  // -- Tables -----------------------------------------------

  datatype DispatchStatus = Pending | Claimed | AwaitingApproval | Done | Cancelled | Failed

  datatype Claim = Claim(owner: nat, token: Token)

  datatype Dispatch = Dispatch(
    job: nat,
    kind: Kind,
    origin: Origin,
    bindingScheduledFor: Time,
    status: DispatchStatus,
    scheduledFor: Time,
    claim: Option<Claim>,
    expires: Option<Time>,
    attempts: nat)

  datatype RunStatus =
    | Pending | Running | AwaitingApproval | Approved
    | Ok | Error | Timeout | Skipped | Cancelled | Crashed | RecoveryBlocked

  datatype Run = Run(
    job: nat,
    dispatch: nat,
    status: RunStatus,
    approvalUsed: Option<nat>,
    cancelRequested: bool)

  datatype ApprovalStatus = Pending | Approved | Rejected | TimedOut | Cancelled | Dispatching | Dispatched

  datatype GateKind = JobGate | AuthorizationGate

  datatype Approval = Approval(
    job: nat,
    run: nat,
    dispatch: nat,
    kind: GateKind,
    binding: Payload,
    scoped: bool,
    status: ApprovalStatus,
    version: nat)

  /**
   Where a worker stands. Ready carries the approval it found for its
   dispatch and whether that approval lets it pass the gate. Skipping records
   whether it moved the approval to dispatching; Closing has only the dispatch
   left to finish; Executing has created its run; Escalating has found that run
   not cancelled and is about to ask a human for it.
   */
  datatype Phase =
    | Fresh
    | Ready(gate: Option<nat>, bypass: bool)
    | Skipping(begun: bool)
    | Closing
    | Executing(run: nat)
    | Escalating(run: nat)

  datatype Worker = Worker(token: Token, gated: bool, phase: Phase)

  /** Workers are keyed by dispatch, as in the pool: one at a time for each. */
  datatype State = State(
    jobs: seq<Job>,
    dispatches: seq<Dispatch>,
    runs: seq<Run>,
    approvals: seq<Approval>,
    workers: map<nat, Worker>,
    nextToken: Token,
    epoch: nat)

  // -- Status classes ---------------------------------------

  /** Neither done, cancelled nor failed. */
  predicate Open(st: DispatchStatus) { st.Pending? || st.Claimed? || st.AwaitingApproval? }

  predicate Live(st: RunStatus) { st.Pending? || st.Running? }

  predicate Waiting(st: RunStatus) { st.Pending? || st.AwaitingApproval? || st.Approved? }

  predicate ActiveRun(st: RunStatus) { st.Running? || Waiting(st) }

  predicate Active(st: ApprovalStatus) { st.Pending? || st.Approved? || st.Dispatching? }

  /** The worker has a run of its own. */
  predicate Started(phase: Phase) { phase.Executing? || phase.Escalating? }

  // -- Row helpers ------------------------------------------

  function PutDispatch(s: State, d: nat, row: Dispatch): State
    requires d < |s.dispatches|
  {
    s.(dispatches := s.dispatches[d := row])
  }

  function PutApproval(s: State, a: nat, status: ApprovalStatus): State
    requires a < |s.approvals|
  {
    var row := s.approvals[a];
    s.(approvals := s.approvals[a := row.(status := status, version := row.version + 1)])
  }

  function PutRun(s: State, r: nat, status: RunStatus): State
    requires r < |s.runs|
  {
    s.(runs := s.runs[r := s.runs[r].(status := status)])
  }

  function PutWorker(s: State, d: nat, phase: Phase): State
    requires d in s.workers
  {
    s.(workers := s.workers[d := s.workers[d].(phase := phase)])
  }

  function EndWorker(s: State, d: nat): State {
    s.(workers := s.workers - {d})
  }

  /** Back in the queue, unclaimed. */
  function Requeued(row: Dispatch, at: Option<Time>): Dispatch {
    row.(status := DispatchStatus.Pending, claim := None, expires := None,
         scheduledFor := if at.Some? then at.value else row.scheduledFor)
  }

  function Unclaimed(row: Dispatch, status: DispatchStatus): Dispatch {
    row.(status := status, claim := None, expires := None)
  }

  predicate Enabled(s: State, j: nat) { j < |s.jobs| && s.jobs[j].enabled }

  function Fixed(d: nat, row: Dispatch): StableDispatch {
    StableDispatch(d, row.job, row.kind, row.bindingScheduledFor, row.origin)
  }

  /** The binding an approval of dispatch d would get now. */
  function BindingNow(s: State, d: nat): Result<Payload, LineageError>
    requires d < |s.dispatches| && s.dispatches[d].job < |s.jobs|
  {
    Binding(s.jobs, s.dispatches[d].job, Fixed(d, s.dispatches[d]))
  }

  predicate HasActiveRun(runs: seq<Run>, d: nat) {
    exists r :: 0 <= r < |runs| && runs[r].dispatch == d && ActiveRun(runs[r].status)
  }

  /** The newest approval of dispatch d among the first n. */
  function Latest(approvals: seq<Approval>, d: nat, n: nat): (r: Option<nat>)
    requires n <= |approvals|
    ensures r.Some? ==> r.value < n && approvals[r.value].dispatch == d
    ensures forall a :: 0 <= a < n && approvals[a].dispatch == d ==> r.Some? && a <= r.value
  {
    if n == 0 then None
    else if approvals[n - 1].dispatch == d then Some(n - 1)
    else Latest(approvals, d, n - 1)
  }

  function LatestActive(approvals: seq<Approval>, d: nat, n: nat): (r: Option<nat>)
    requires n <= |approvals|
    ensures r.Some? ==> r.value < n && approvals[r.value].dispatch == d && Active(approvals[r.value].status)
    ensures forall a :: 0 <= a < n && approvals[a].dispatch == d && Active(approvals[a].status) ==>
      r.Some? && a <= r.value
  {
    if n == 0 then None
    else if approvals[n - 1].dispatch == d && Active(approvals[n - 1].status) then Some(n - 1)
    else LatestActive(approvals, d, n - 1)
  }

  predicate ActiveOfKind(ap: Approval, d: nat, kind: GateKind) {
    ap.dispatch == d && ap.kind == kind && Active(ap.status)
  }

  // -- The dispatch queue -----------------------------------

  function Enqueue(s: State, j: nat, kind: Kind, origin: Origin, at: Time): State {
    if j >= |s.jobs| then s
    else s.(dispatches := s.dispatches + [Dispatch(j, kind, origin, at, DispatchStatus.Pending, at, None, None, 0)])
  }

  datatype EnqueueError = UnknownJob | OtherDispatch(existing: nat)

  /** The row says what a caller asks for under its id. */
  predicate SameDispatch(row: Dispatch, j: nat, kind: Kind, origin: Origin) {
    row.job == j && row.kind == kind && row.origin.sourceRun == origin.sourceRun
  }

  /** Under an id of the caller's; `stored` is the row that already has it, if any. */
  function EnqueueUnder(s: State, stored: Option<nat>, j: nat, kind: Kind, origin: Origin, at: Time):
      (State, Result<nat, EnqueueError>)
  {
    if j >= |s.jobs| then (s, Failure(UnknownJob))
    else if stored.Some? && stored.value < |s.dispatches| then
      if SameDispatch(s.dispatches[stored.value], j, kind, origin) then (s, Success(stored.value))
      else (s, Failure(OtherDispatch(stored.value)))
    else (Enqueue(s, j, kind, origin, at), Success(|s.dispatches|))
  }

  /** A new claim under a fresh token, for a pending dispatch of an enabled job. */
  function ClaimDispatch(s: State, d: nat, expires: Time): State
    requires d < |s.dispatches|
  {
    var row := s.dispatches[d];
    PutDispatch(s, d, row.(status := DispatchStatus.Claimed, claim := Some(Claim(s.epoch, s.nextToken)),
      expires := Some(expires), attempts := row.attempts + 1)).(nextToken := s.nextToken + 1)
  }

  function RenewClaim(s: State, d: nat, token: Token, now: Time, expires: Time): State {
    if d < |s.dispatches| && s.dispatches[d].status.Claimed?
      && s.dispatches[d].claim == Some(Claim(s.epoch, token))
      && s.dispatches[d].expires.Some? && s.dispatches[d].expires.value > now
    then PutDispatch(s, d, s.dispatches[d].(expires := Some(expires)))
    else s
  }

  /** The identity this dispatcher presents fits any row that no other dispatcher has claimed. */
  predicate Mine(s: State, row: Dispatch) {
    row.claim == None || row.claim.value.owner == s.epoch
  }

  function ReleaseDispatch(s: State, d: nat, at: Option<Time>): State {
    if d < |s.dispatches| && (s.dispatches[d].status.Claimed? || s.dispatches[d].status.AwaitingApproval?)
      && Mine(s, s.dispatches[d])
    then PutDispatch(s, d, Requeued(s.dispatches[d], at))
    else s
  }

  function CloseDispatch(s: State, d: nat, status: DispatchStatus): State
    requires !Open(status)
  {
    if d < |s.dispatches| && Open(s.dispatches[d].status) && Mine(s, s.dispatches[d])
    then PutDispatch(s, d, s.dispatches[d].(status := status, expires := None))
    else s
  }

  /** A row an operator cancels, whoever has claimed it. */
  function StrikeDispatch(s: State, d: nat): State {
    if d < |s.dispatches| && Open(s.dispatches[d].status)
    then PutDispatch(s, d, s.dispatches[d].(status := DispatchStatus.Cancelled, expires := None))
    else s
  }

  predicate StaleClaim(s: State, d: nat, now: Time) {
    && d < |s.dispatches| && s.dispatches[d].status.Claimed?
    && s.dispatches[d].expires.Some? && s.dispatches[d].expires.value <= now
    && !HasActiveRun(s.runs, d)
  }

  /** Expired claims without an active run among the first n dispatches are pending again. */
  function RecoverStale(s: State, now: Time, n: nat): (t: State)
    requires n <= |s.dispatches|
    ensures |t.dispatches| == |s.dispatches|
  {
    if n == 0 then s
    else
      var t := RecoverStale(s, now, n - 1);
      if StaleClaim(t, n - 1, now) then PutDispatch(t, n - 1, Requeued(t.dispatches[n - 1], None)) else t
  }

  function SweepDisabled(s: State, n: nat): (t: State)
    requires n <= |s.dispatches|
    ensures |t.dispatches| == |s.dispatches| && t.jobs == s.jobs
  {
    if n == 0 then s
    else
      var t := SweepDisabled(s, n - 1);
      var row := t.dispatches[n - 1];
      if row.status.Pending? && row.job < |t.jobs| && !t.jobs[row.job].enabled then StrikeDispatch(t, n - 1) else t
  }

  // -- Approvals --------------------------------------------

  /** The gate run of a refused approval ends as cancelled. */
  function CancelGateRun(s: State, r: nat): State {
    if r < |s.runs| && Waiting(s.runs[r].status) then PutRun(s, r, RunStatus.Cancelled) else s
  }

  function CancelGateDispatch(s: State, d: nat): State {
    if d < |s.dispatches| && Open(s.dispatches[d].status)
    then PutDispatch(s, d, Unclaimed(s.dispatches[d], DispatchStatus.Cancelled))
    else s
  }

  /** A refused root occurrence is used up: a one-shot job is disabled, a cron job moves on. */
  function ConsumeOccurrence(s: State, j: nat, d: nat, next: Option<Time>): State {
    if !Enabled(s, j) || s.jobs[j].parent.Some? || d >= |s.dispatches| then s
    else
      var job, row := s.jobs[j], s.dispatches[d];
      if !(row.kind.Schedule? || row.kind.At?) then s
      else if job.nextRunAt.Some? && job.nextRunAt.value > row.scheduledFor then s
      else if row.kind.At? || job.oneShot then
        s.(jobs := s.jobs[j := job.(enabled := false, nextRunAt := None)])
      else s.(jobs := s.jobs[j := job.(nextRunAt := next)])
  }

  /** What follows a refusal: the gate run, the dispatch and the occurrence end with it. */
  function Refused(s: State, ap: Approval, next: Option<Time>): State {
    ConsumeOccurrence(CancelGateDispatch(CancelGateRun(s, ap.run), ap.dispatch), ap.job, ap.dispatch, next)
  }

  function CancelApproval(s: State, a: nat, next: Option<Time>): State {
    if a < |s.approvals| && Active(s.approvals[a].status)
    then Refused(PutApproval(s, a, ApprovalStatus.Cancelled), s.approvals[a], next)
    else s
  }

  function CancelForDispatch(s: State, d: nat, next: Option<Time>): State {
    match LatestActive(s.approvals, d, |s.approvals|)
    case None => s
    case Some(a) => CancelApproval(s, a, next)
  }

  /** The gate run is approved and the dispatch due at once; an error if the dispatch has moved on. */
  function Grant(s: State, a: nat, at: Time): Result<State, ()>
    requires a < |s.approvals|
  {
    var ap := s.approvals[a];
    var t := PutApproval(s, a, ApprovalStatus.Approved);
    var u := if ap.run < |t.runs| && (t.runs[ap.run].status.AwaitingApproval? || t.runs[ap.run].status.Pending?)
             then PutRun(t, ap.run, RunStatus.Approved) else t;
    if ap.dispatch < |u.dispatches| && u.dispatches[ap.dispatch].status.AwaitingApproval?
    then Success(PutDispatch(u, ap.dispatch, Requeued(u.dispatches[ap.dispatch], Some(at))))
    else if ap.dispatch < |u.dispatches| && !u.dispatches[ap.dispatch].status.Pending? then Failure(())
    else Success(u)
  }

  datatype Decision = Approve | Reject | TimeOut | Withdraw

  /** Why an approval cannot be granted any more, so that granting it cancels it. */
  predicate Overtaken(s: State, a: nat)
    requires a < |s.approvals|
  {
    var ap := s.approvals[a];
    || !Enabled(s, ap.job)
    || ap.dispatch >= |s.dispatches|
    || s.dispatches[ap.dispatch].job >= |s.jobs|
    || BindingNow(s, ap.dispatch) != Success(ap.binding)
    || (ap.run < |s.runs| && !(s.runs[ap.run].status.AwaitingApproval? || s.runs[ap.run].status.Pending?))
    || s.dispatches[ap.dispatch].status.Cancelled?
  }

  /** Whether computing the binding raises an error, which undoes the transaction. */
  predicate BindingRaises(s: State, a: nat)
    requires a < |s.approvals|
  {
    var ap := s.approvals[a];
    && Enabled(s, ap.job) && ap.dispatch < |s.dispatches| && s.dispatches[ap.dispatch].job < |s.jobs|
    && BindingNow(s, ap.dispatch).Failure?
  }

  function Decide(s: State, a: nat, decision: Decision, actorFits: bool, at: Time, next: Option<Time>): State {
    if a >= |s.approvals| || !s.approvals[a].status.Pending? then s
    else if (decision.Approve? || decision.Reject?) && s.approvals[a].scoped && !actorFits then s
    else if decision.Approve? then
      if BindingRaises(s, a) then s
      else if Overtaken(s, a) then Refused(PutApproval(s, a, ApprovalStatus.Cancelled), s.approvals[a], next)
      else
        match Grant(s, a, at)
        case Failure(_) => s
        case Success(t) => t
    else
      var status := if decision.Reject? then ApprovalStatus.Rejected
                    else if decision.TimeOut? then ApprovalStatus.TimedOut
                    else ApprovalStatus.Cancelled;
      Refused(PutApproval(s, a, status), s.approvals[a], next)
  }

  /** A pending dispatch is due at another time. */
  function SetSchedule(s: State, d: nat, at: Time): State {
    if d < |s.dispatches| && s.dispatches[d].status.Pending?
    then PutDispatch(s, d, s.dispatches[d].(scheduledFor := at))
    else s
  }

  /** What beginApprovalDispatch reports: moved to dispatching, left or cancelled, or an error raised. */
  datatype Begin = Began(approval: nat) | Declined(state: State, latest: Option<nat>) | Raised

  predicate Mismatched(s: State, ap: Approval) {
    || ap.dispatch >= |s.dispatches|
    || s.dispatches[ap.dispatch].job != ap.job
    || ap.run >= |s.runs|
    || s.runs[ap.run].job != ap.job
    || s.runs[ap.run].dispatch != ap.dispatch
  }

  function BeginDispatch(s: State, d: nat, actorFits: bool, next: Option<Time>): (r: Begin)
    ensures r.Began? ==> r.approval < |s.approvals|
  {
    match Latest(s.approvals, d, |s.approvals|)
    case None => Declined(s, None)
    case Some(a) =>
      var ap := s.approvals[a];
      if !ap.status.Approved? then Declined(s, Some(a))
      else if Mismatched(s, ap) then
        Declined(CancelGateDispatch(PutApproval(s, a, ApprovalStatus.Cancelled), d), Some(a))
      else if !Enabled(s, ap.job) then Declined(CancelApproval(s, a, next), Some(a))
      else if BindingRaises(s, a) then Raised
      else if BindingNow(s, ap.dispatch) != Success(ap.binding) then Declined(CancelApproval(s, a, next), Some(a))
      else if !s.dispatches[ap.dispatch].status.Claimed? then Declined(s, Some(a))
      else if ap.scoped && !actorFits then Declined(CancelApproval(s, a, next), Some(a))
      else Began(a)
  }

  function MarkDispatched(s: State, d: nat): State {
    match Latest(s.approvals, d, |s.approvals|)
    case None => s
    case Some(a) =>
      if !s.approvals[a].status.Dispatching? then s
      else Consume(s, a)
  }

  /** The approval is spent and its gate run is over. */
  function Consume(s: State, a: nat): State
    requires a < |s.approvals|
  {
    var t := PutApproval(s, a, ApprovalStatus.Dispatched);
    var r := s.approvals[a].run;
    if r < |t.runs| && t.runs[r].status.Approved? then PutRun(t, r, RunStatus.Skipped) else t
  }

  function DeferApproval(s: State, d: nat, at: Option<Time>): State {
    match Latest(s.approvals, d, |s.approvals|)
    case None => s
    case Some(a) =>
      if !s.approvals[a].status.Dispatching? then s
      else
        var t := PutApproval(s, a, ApprovalStatus.Approved);
        if d < |t.dispatches| && t.dispatches[d].status.Claimed?
        then PutDispatch(t, d, Requeued(t.dispatches[d], at)) else t
  }

  predicate HasExecutionRun(s: State, a: nat)
    requires a < |s.approvals|
  {
    exists r :: 0 <= r < |s.runs| && s.runs[r].dispatch == s.approvals[a].dispatch && r != s.approvals[a].run
      && s.runs[r].job == s.approvals[a].job && s.runs[r].approvalUsed == Some(a)
  }

  /** Crash recovery of one interrupted approval. */
  function RecoverApproval(s: State, a: nat, now: Time, next: Option<Time>): State {
    if a >= |s.approvals| || !s.approvals[a].status.Dispatching? then s
    else
      var d := s.approvals[a].dispatch;
      if HasExecutionRun(s, a) || (d < |s.dispatches| && s.dispatches[d].status.Done?) then Consume(s, a)
      else if d >= |s.dispatches| || !Open(s.dispatches[d].status) then CancelApproval(s, a, next)
      else
        var row := s.dispatches[d];
        if row.status.Claimed? && !(row.expires.Some? && row.expires.value <= now) then s
        else PutDispatch(PutApproval(s, a, ApprovalStatus.Approved), d, Requeued(row, None))
  }

  function RecoverApprovals(s: State, now: Time, next: Option<Time>, n: nat): (t: State) {
    if n == 0 then s else RecoverApproval(RecoverApprovals(s, now, next, n - 1), n - 1, now, next)
  }

  /** Cancels the first n approvals whose job is not enabled. */
  function CancelUnavailable(s: State, next: Option<Time>, n: nat): State {
    if n == 0 then s
    else
      var t := CancelUnavailable(s, next, n - 1);
      if n - 1 < |t.approvals| && !Enabled(t, t.approvals[n - 1].job) then CancelApproval(t, n - 1, next) else t
  }

  /** Cancels those of job j among the first n approvals. */
  function CancelForJob(s: State, j: nat, next: Option<Time>, n: nat): State {
    if n == 0 then s
    else
      var t := CancelForJob(s, j, next, n - 1);
      if n - 1 < |t.approvals| && t.approvals[n - 1].job == j then CancelApproval(t, n - 1, next) else t
  }

  // -- Cancelling a job -------------------------------------

  function StrikeForJob(s: State, j: nat, n: nat): (t: State)
  {
    if n == 0 then s
    else
      var t := StrikeForJob(s, j, n - 1);
      if n - 1 < |t.dispatches| && t.dispatches[n - 1].job == j then StrikeDispatch(t, n - 1) else t
  }

  /** A running run is asked to stop; one that has not started is cancelled. */
  function StopRun(s: State, r: nat): State {
    if r >= |s.runs| then s
    else if s.runs[r].status.Running? then s.(runs := s.runs[r := s.runs[r].(cancelRequested := true)])
    else if Waiting(s.runs[r].status) then
      s.(runs := s.runs[r := s.runs[r].(cancelRequested := true, status := RunStatus.Cancelled)])
    else s
  }

  function StopForJob(s: State, j: nat, n: nat): State {
    if n == 0 then s
    else
      var t := StopForJob(s, j, n - 1);
      if n - 1 < |t.runs| && t.runs[n - 1].job == j then StopRun(t, n - 1) else t
  }

  function CancelJob(s: State, j: nat, next: Option<Time>): State {
    if j >= |s.jobs| then s
    else
      var t := StrikeForJob(s.(jobs := s.jobs[j := s.jobs[j].(enabled := false)]), j, |s.dispatches|);
      var u := CancelForJob(t, j, next, |t.approvals|);
      StopForJob(u, j, |u.runs|)
  }

  // -- The worker -------------------------------------------

  predicate Attends(s: State, d: nat) { d in s.workers && d < |s.dispatches| && s.dispatches[d].job < |s.jobs| }

  /** The worker's claim is still the row's claim. */
  predicate HoldsClaim(s: State, d: nat)
    requires Attends(s, d)
  {
    && s.dispatches[d].status.Claimed?
    && s.dispatches[d].claim == Some(Claim(s.epoch, s.workers[d].token))
  }

  /** The worker is past the approval gate, or there is none for it. */
  predicate Cleared(w: Worker) { w.phase.Ready? && (w.phase.bypass || !w.gated) }

  function StartWorker(s: State, d: nat, expires: Time): State {
    if d < |s.dispatches| && d !in s.workers && s.dispatches[d].status.Pending? && Enabled(s, s.dispatches[d].job)
    then
      var gated := s.jobs[s.dispatches[d].job].approvalRequired;
      ClaimDispatch(s, d, expires).(workers := s.workers[d := Worker(s.nextToken, gated, Fresh)])
    else s
  }

  function ReadGate(s: State, d: nat): State {
    if Attends(s, d) && s.workers[d].phase.Fresh? then
      var gate := LatestActive(s.approvals, d, |s.approvals|);
      PutWorker(s, d, Ready(gate, gate.Some? && s.approvals[gate.value].status.Approved?))
    else s
  }

  /** Pool busy, overlap policy, an approval already waiting, an error: the dispatch goes back. */
  function HandBack(s: State, d: nat, at: Option<Time>): State {
    if Attends(s, d) && s.workers[d].phase.Ready? then EndWorker(ReleaseDispatch(s, d, at), d) else s
  }

  /** A full approval backlog cancels the dispatch; so does an overlap that is to be skipped. */
  function Drop(s: State, d: nat, next: Option<Time>): State {
    if Attends(s, d) && s.workers[d].phase.Ready? then
      if Cleared(s.workers[d]) && s.workers[d].phase.gate.Some? then EndWorker(CancelForDispatch(s, d, next), d)
      else EndWorker(CloseDispatch(s, d, DispatchStatus.Cancelled), d)
    else s
  }

  /** The record createApproval inserts for run r, and the dispatch it parks; None when it raises. */
  function OpenApproval(s: State, d: nat, r: nat, kind: GateKind, scoped: bool): Option<State>
    requires d < |s.dispatches| && s.dispatches[d].job < |s.jobs| && r < |s.runs|
  {
    var row := s.dispatches[d];
    if !s.jobs[row.job].enabled || s.runs[r].job != row.job || s.runs[r].dispatch != d then None
    else if exists ap <- s.approvals :: ActiveOfKind(ap, d, kind) then
      if forall ap <- s.approvals :: ActiveOfKind(ap, d, kind) ==> ap.run == r then Some(s) else None
    else if BindingNow(s, d).Failure? then None
    else
      var t := s.(approvals := s.approvals
        + [Approval(row.job, r, d, kind, BindingNow(s, d).value, scoped, ApprovalStatus.Pending, 0)]);
      var u := if Live(t.runs[r].status) then PutRun(t, r, RunStatus.AwaitingApproval) else t;
      Some(if row.status.Pending? || row.status.Claimed?
           then PutDispatch(u, d, Unclaimed(row, DispatchStatus.AwaitingApproval)) else u)
  }

  function AddRun(s: State, d: nat, status: RunStatus, used: Option<nat>): State
    requires d < |s.dispatches|
  {
    s.(runs := s.runs + [Run(s.dispatches[d].job, d, status, used, false)])
  }

  /** The gate run and its approval, and the parked dispatch, in one transaction. */
  function OpenGate(s: State, d: nat, scoped: bool): State {
    if Attends(s, d) && s.workers[d].phase.Ready? && !Cleared(s.workers[d]) then
      if !HoldsClaim(s, d) then EndWorker(s, d)
      else
        match OpenApproval(AddRun(s, d, RunStatus.AwaitingApproval, None), d, |s.runs|, JobGate, scoped)
        case None => EndWorker(s, d)
        case Some(t) => EndWorker(t, d)
    else s
  }

  /** The execution run, together with the approval it spends if there is one. */
  function Execute(s: State, d: nat, actorFits: bool, next: Option<Time>): State {
    if !(Attends(s, d) && Cleared(s.workers[d])) then s
    else if s.workers[d].phase.gate.None? then
      if !HoldsClaim(s, d) then EndWorker(s, d)
      else if !s.jobs[s.dispatches[d].job].enabled then EndWorker(CancelGateDispatch(s, d), d)
      else PutWorker(AddRun(s, d, RunStatus.Running, None), d, Executing(|s.runs|))
    else if !HoldsClaim(s, d) then s
    else
      match BeginDispatch(s, d, actorFits, next)
      case Raised => s
      case Declined(t, a) =>
        if a.Some? && a.value < |t.approvals| && t.approvals[a.value].status.Cancelled? then EndWorker(t, d) else s
      case Began(a) =>
        var t := AddRun(PutApproval(s, a, ApprovalStatus.Dispatching), d, RunStatus.Running, Some(a));
        PutWorker(Consume(t, a), d, Executing(|s.runs|))
  }

  /** The occurrence already ran under this idempotency key: first the approval, if any, ... */
  function SkipBegin(s: State, d: nat, actorFits: bool, next: Option<Time>): State {
    if !(Attends(s, d) && Cleared(s.workers[d])) then s
    else if s.workers[d].phase.gate.None? then PutWorker(s, d, Closing)
    else
      match BeginDispatch(s, d, actorFits, next)
      case Raised => EndWorker(s, d)
      case Declined(t, _) => if d in t.workers then PutWorker(t, d, Skipping(false)) else t
      case Began(a) => PutWorker(PutApproval(s, a, ApprovalStatus.Dispatching), d, Skipping(true))
  }

  /** ... then its end, ... */
  function SkipMark(s: State, d: nat, next: Option<Time>): State {
    if !(Attends(s, d) && s.workers[d].phase.Skipping?) then s
    else
      var t := if s.workers[d].phase.begun then MarkDispatched(s, d) else CancelForDispatch(s, d, next);
      if d in t.workers then PutWorker(t, d, Closing) else t
  }

  /** ... and then the dispatch. */
  function SkipClose(s: State, d: nat): State {
    if Attends(s, d) && s.workers[d].phase.Closing? then EndWorker(CloseDispatch(s, d, DispatchStatus.Done), d) else s
  }

  /** How a finished run leaves its dispatch. */
  datatype Outcome = Complete | PutOff(at: Time)

  predicate Final(st: RunStatus) { !ActiveRun(st) }

  /** The terminal transition of the worker's run and what it does to the dispatch. */
  function Finish(s: State, d: nat, status: RunStatus, outcome: Outcome): State
    requires Final(status)
  {
    if !(Attends(s, d) && s.workers[d].phase.Executing? && s.workers[d].phase.run < |s.runs|) then s
    else
      var r := s.workers[d].phase.run;
      var run := s.runs[r];
      var cancelled := run.cancelRequested || run.status.Cancelled?;
      if !ActiveRun(run.status) then
        EndWorker(CloseDispatch(s, d, if cancelled then DispatchStatus.Cancelled else DispatchStatus.Failed), d)
      else
        var t := PutRun(s, r, if run.cancelRequested then RunStatus.Cancelled else status);
        if cancelled || status.Cancelled? then EndWorker(CloseDispatch(t, d, DispatchStatus.Cancelled), d)
        else if outcome.PutOff? then EndWorker(ReleaseDispatch(t, d, Some(outcome.at)), d)
        else EndWorker(CloseDispatch(t, d, DispatchStatus.Done), d)
  }

  /**
   The authorization provider asks for a human. The worker reads whether the run
   is to be cancelled, and then either ends it ...
   */
  function ReadCancellation(s: State, d: nat): State {
    if Attends(s, d) && s.workers[d].phase.Executing? && s.workers[d].phase.run < |s.runs| then
      if s.runs[s.workers[d].phase.run].cancelRequested then Finish(s, d, RunStatus.Error, Complete)
      else PutWorker(s, d, Escalating(s.workers[d].phase.run))
    else s
  }

  /** ... and opens the gate for it: the execution run becomes the gate run. */
  function Escalate(s: State, d: nat, scoped: bool): State {
    if Attends(s, d) && s.workers[d].phase.Escalating? && s.workers[d].phase.run < |s.runs| then
      match OpenApproval(s, d, s.workers[d].phase.run, AuthorizationGate, scoped)
      case None => EndWorker(s, d)
      case Some(t) => EndWorker(t, d)
    else s
  }

  // -- Health checks and start-up recovery ------------------

  predicate Attended(s: State, r: nat) {
    exists d :: d in s.workers && Started(s.workers[d].phase) && s.workers[d].phase.run == r
  }

  function TimeOutRun(s: State, r: nat): State {
    if r < |s.runs| && s.runs[r].status.Running? && !Attended(s, r)
    then PutRun(s, r, if s.runs[r].cancelRequested then RunStatus.Cancelled else RunStatus.Timeout)
    else s
  }

  /** An orphan of an earlier dispatcher is marked crashed; its dispatch is done; it may be replayed. */
  function ReplayOrphan(s: State, r: nat, replayAt: Option<Time>): State {
    if s.workers == map[] && r < |s.runs| && s.runs[r].status.Running? then
      var run := s.runs[r];
      var t := PutRun(s, r, RunStatus.Crashed);
      var u := if run.dispatch < |t.dispatches|
                 && (t.dispatches[run.dispatch].status.Claimed? || t.dispatches[run.dispatch].status.AwaitingApproval?)
               then PutDispatch(t, run.dispatch,
                                t.dispatches[run.dispatch].(status := DispatchStatus.Done, expires := None))
               else t;
      if replayAt.Some? then Enqueue(u, run.job, Retry, Origin(Some(r), Some(r), Some(r)), replayAt.value) else u
    else s
  }

  function BlockOrphan(s: State, r: nat): State {
    if s.workers == map[] && r < |s.runs| && s.runs[r].status.Running? then
      var run := s.runs[r];
      var t := PutRun(s, r, RunStatus.RecoveryBlocked);
      var u := if run.job < |t.jobs| then t.(jobs := t.jobs[run.job := t.jobs[run.job].(enabled := false)]) else t;
      if run.dispatch < |u.dispatches| && Open(u.dispatches[run.dispatch].status)
      then PutDispatch(u, run.dispatch, u.dispatches[run.dispatch].(status := DispatchStatus.Failed, expires := None))
      else u
    else s
  }

  // -- Steps ------------------------------------------------

  datatype Op =
    | AddJobOp(job: Job)
    | EditJobOp(j: nat, job: Job)
    | EnqueueOp(j: nat, kind: Kind, origin: Origin, at: Time)
    | RescheduleOp(d: nat, at: Time)
    | StartOp(d: nat, at: Time)
    | RenewOp(d: nat, now: Time, at: Time)
    | ReadGateOp(d: nat)
    | HandBackOp(d: nat, when: Option<Time>)
    | DropOp(d: nat, next: Option<Time>)
    | OpenGateOp(d: nat, scoped: bool)
    | ExecuteOp(d: nat, actorFits: bool, next: Option<Time>)
    | SkipBeginOp(d: nat, actorFits: bool, next: Option<Time>)
    | SkipMarkOp(d: nat, next: Option<Time>)
    | SkipCloseOp(d: nat)
    | ReadCancelOp(d: nat)
    | EscalateOp(d: nat, scoped: bool)
    | FinishOp(d: nat, status: RunStatus, outcome: Outcome)
    | DieOp(d: nat)
    | CrashOp
    | DecideOp(a: nat, decision: Decision, actorFits: bool, at: Time, next: Option<Time>)
    | CancelOp(a: nat, next: Option<Time>)
    | DeferOp(d: nat, when: Option<Time>)
    | RecoverStaleOp(now: Time)
    | RecoverApprovalsOp(now: Time, next: Option<Time>)
    | CancelUnavailableOp(next: Option<Time>)
    | SweepDisabledOp
    | CancelJobOp(j: nat, next: Option<Time>)
    | RequestCancelOp(r: nat)
    | TimeOutRunOp(r: nat)
    | ReplayOp(r: nat, when: Option<Time>)
    | BlockOp(r: nat)

  function Step(s: State, op: Op): State {
    match op
    case AddJobOp(job) => s.(jobs := s.jobs + [job])
    case EditJobOp(j, job) => if j < |s.jobs| then s.(jobs := s.jobs[j := job]) else s
    case EnqueueOp(j, kind, origin, at) => Enqueue(s, j, kind, origin, at)
    case RescheduleOp(d, at) => SetSchedule(s, d, at)
    case StartOp(d, at) => StartWorker(s, d, at)
    case RenewOp(d, now, at) => if d in s.workers then RenewClaim(s, d, s.workers[d].token, now, at) else s
    case ReadGateOp(d) => ReadGate(s, d)
    case HandBackOp(d, when) => HandBack(s, d, when)
    case DropOp(d, next) => Drop(s, d, next)
    case OpenGateOp(d, scoped) => OpenGate(s, d, scoped)
    case ExecuteOp(d, actorFits, next) => Execute(s, d, actorFits, next)
    case SkipBeginOp(d, actorFits, next) => SkipBegin(s, d, actorFits, next)
    case SkipMarkOp(d, next) => SkipMark(s, d, next)
    case SkipCloseOp(d) => SkipClose(s, d)
    case ReadCancelOp(d) => ReadCancellation(s, d)
    case EscalateOp(d, scoped) => Escalate(s, d, scoped)
    case FinishOp(d, status, outcome) => if Final(status) then Finish(s, d, status, outcome) else s
    case DieOp(d) => EndWorker(s, d)
    case CrashOp => s.(workers := map[], epoch := s.epoch + 1)
    case DecideOp(a, decision, actorFits, at, next) => Decide(s, a, decision, actorFits, at, next)
    case CancelOp(a, next) => CancelApproval(s, a, next)
    case DeferOp(d, when) => DeferApproval(s, d, when)
    case RecoverStaleOp(now) => RecoverStale(s, now, |s.dispatches|)
    case RecoverApprovalsOp(now, next) => RecoverApprovals(s, now, next, |s.approvals|)
    case CancelUnavailableOp(next) => CancelUnavailable(s, next, |s.approvals|)
    case SweepDisabledOp => SweepDisabled(s, |s.dispatches|)
    case CancelJobOp(j, next) => CancelJob(s, j, next)
    case RequestCancelOp(r) =>
      if r < |s.runs| && ActiveRun(s.runs[r].status)
      then s.(runs := s.runs[r := s.runs[r].(cancelRequested := true)]) else s
    case TimeOutRunOp(r) => TimeOutRun(s, r)
    case ReplayOp(r, when) => ReplayOrphan(s, r, when)
    case BlockOp(r) => BlockOrphan(s, r)
  }

  function After(s: State, ops: seq<Op>): State
    decreases |ops|
  {
    if ops == [] then s else After(Step(s, ops[0]), ops[1..])
  }
}
