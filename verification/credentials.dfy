/**
 Credential presentations: a row goes in before its file is written and is
 marked clean after the file is gone. Every instruction that touches the disk
 or the database is one step, and a crash can come between any two.
 */
module Credentials {
  import opened Prelude

  type Path = nat
  type RunId = nat

  datatype RowStatus = Materialized | Cleaned | RecoveryCleaned | Failed

  datatype Row = Row(run: RunId, path: Option<Path>, status: RowStatus)

  /** The cleanup state kept in the run's own record. */
  datatype Mark = PendingMark | CleanedMark | FailedMark | RecoveredMark

  /**
   One worker's credentials. `todo` says of each remaining binding whether it
   needs a file; `ids` and `temps` are what it has presented so far.
   */
  datatype Program =
    | Presenting(todo: seq<bool>, ids: seq<nat>, temps: seq<Path>)
    | Creating(row: nat, todo: seq<bool>, ids: seq<nat>, temps: seq<Path>)
    | Checking(row: nat, todo: seq<bool>, ids: seq<nat>, temps: seq<Path>)
    | Using(ids: seq<nat>, temps: seq<Path>)
    | Erasing(queue: seq<nat>, temps: seq<Path>, clean: bool)
    | Erased(queue: seq<nat>, temps: seq<Path>, clean: bool)
    | Sweeping(temps: seq<Path>, clean: bool)

  /** The dispatcher's own course from its start. */
  datatype Stage =
    | Starting
    | Removing(queue: seq<nat>)
    | Removed(queue: seq<nat>)
    | Replaying
    | Working

  datatype State = State(
    rows: seq<Row>,
    files: set<Path>,
    marks: map<RunId, Mark>,
    programs: map<RunId, Program>,
    stage: Stage,
    replayed: set<RunId>,
    nextPath: Path)

  predicate Pending(st: RowStatus) { st.Materialized? || st.Failed? }

  function PutRow(s: State, i: nat, st: RowStatus): State
    requires i < |s.rows|
  {
    s.(rows := s.rows[i := s.rows[i].(status := st)])
  }

  function PutProgram(s: State, r: RunId, p: Program): State {
    s.(programs := s.programs[r := p])
  }

  /** The rows, in table order, that match among the first n. */
  function PendingRows(rows: seq<Row>, run: Option<RunId>, n: nat): (ids: seq<nat>)
    requires n <= |rows|
    ensures forall i <- ids :: i < n && Pending(rows[i].status) && (run.Some? ==> rows[i].run == run.value)
    ensures forall i :: 0 <= i < n && Pending(rows[i].status) && (run.Some? ==> rows[i].run == run.value) ==> i in ids
  {
    if n == 0 then []
    else
      var ids := PendingRows(rows, run, n - 1);
      if Pending(rows[n - 1].status) && (run.Some? ==> rows[n - 1].run == run.value) then ids + [n - 1] else ids
  }

  // -- Presenting -------------------------------------------

  /** The pending marker of the run's record comes first. */
  function Begin(s: State, r: RunId, bindings: seq<bool>): State {
    if s.stage.Working? && r !in s.programs && r !in s.marks && r !in s.replayed
    then PutProgram(s, r, Presenting(bindings, [], [])).(marks := s.marks[r := PendingMark])
    else s
  }

  function Insert(s: State, r: RunId): State {
    if !(r in s.programs && s.programs[r].Presenting?) then s
    else
      var p := s.programs[r];
      var i := |s.rows|;
      if p.todo == [] then PutProgram(s, r, Using(p.ids, p.temps))
      else if p.todo[0] then
        PutProgram(s, r, Creating(i, p.todo[1..], p.ids + [i], p.temps))
          .(rows := s.rows + [Row(r, Some(s.nextPath), Materialized)], nextPath := s.nextPath + 1)
      else
        PutProgram(s, r, Presenting(p.todo[1..], p.ids + [i], p.temps)).(rows := s.rows + [Row(r, None, Materialized)])
  }

  datatype Creation = Created | NotCreated | CreatedThenFailed

  /** Opening the file exclusively and writing it; either can fail. */
  function Create(s: State, r: RunId, how: Creation): State {
    if !(r in s.programs && s.programs[r].Creating? && s.programs[r].row < |s.rows|
         && s.rows[s.programs[r].row].path.Some?) then s
    else
      var p := s.programs[r];
      var path := s.rows[p.row].path.value;
      var t := if how.NotCreated? then s else s.(files := s.files + {path});
      if how.Created? then PutProgram(t, r, Checking(p.row, p.todo, p.ids, p.temps))
      else StartCleanup(t, r, p.ids, p.temps)
  }

  /** The check after writing; a file that fails it is removed if that works, and the error is raised. */
  function Check(s: State, r: RunId, passes: bool, unlinks: bool): State {
    if !(r in s.programs && s.programs[r].Checking? && s.programs[r].row < |s.rows|
         && s.rows[s.programs[r].row].path.Some?) then s
    else
      var p := s.programs[r];
      var path := s.rows[p.row].path.value;
      if passes then PutProgram(s, r, Presenting(p.todo, p.ids, p.temps + [path]))
      else
        var t := if unlinks then s.(files := s.files - {path}) else s;
        StartCleanup(t, r, p.ids, p.temps)
  }

  // -- Cleaning up ------------------------------------------

  /** Adding to a set that is listed in insertion order. */
  function Joined(ids: seq<nat>, more: seq<nat>): (r: seq<nat>)
    ensures forall i :: i in r <==> i in ids || i in more
    ensures ids <= r
    decreases |more|
  {
    if more == [] then ids
    else Joined(if more[0] in ids then ids else ids + [more[0]], more[1..])
  }

  /** The presented rows and every other row of the run that is still to be cleaned. */
  function CleanupQueue(rows: seq<Row>, r: RunId, ids: seq<nat>): seq<nat> {
    Joined(ids, PendingRows(rows, Some(r), |rows|))
  }

  function StartCleanup(s: State, r: RunId, ids: seq<nat>, temps: seq<Path>): State {
    PutProgram(s, r, Erasing(CleanupQueue(s.rows, r, ids), temps, true))
  }

  /** An error between two instructions, or the end of the execution. */
  function Leave(s: State, r: RunId): State {
    if r !in s.programs then s
    else
      match s.programs[r]
      case Presenting(_, ids, temps) => StartCleanup(s, r, ids, temps)
      case Creating(_, _, ids, temps) => StartCleanup(s, r, ids, temps)
      case Using(ids, temps) => StartCleanup(s, r, ids, temps)
      case _ => s
  }

  /** Removing the file of row i if it exists: the new state, and whether that worked. */
  function Unlink(s: State, i: nat, works: bool): (State, bool)
    requires i < |s.rows|
  {
    var path := s.rows[i].path;
    if path == None || path.value !in s.files then (s, true)
    else if works then (s.(files := s.files - {path.value}), true)
    else (s, false)
  }

  function Erase(s: State, r: RunId, works: bool): State {
    if !(r in s.programs && s.programs[r].Erasing?) then s
    else
      var p := s.programs[r];
      if p.queue == [] then PutProgram(s, r, Sweeping(p.temps, p.clean))
      else
        var i := p.queue[0];
        if i >= |s.rows| || !Pending(s.rows[i].status) then PutProgram(s, r, Erasing(p.queue[1..], p.temps, p.clean))
        else
          var (t, done) := Unlink(s, i, works);
          if done then PutProgram(t, r, Erased(p.queue, p.temps, p.clean))
          else PutProgram(PutRow(t, i, Failed), r, Erasing(p.queue[1..], p.temps, false))
  }

  /** The update behind an unlink; if it cannot be made the row is left as failed, without its file. */
  function MarkErased(s: State, r: RunId, recorded: bool): State {
    if !(r in s.programs && s.programs[r].Erased? && s.programs[r].queue != []) then s
    else
      var p := s.programs[r];
      var i := p.queue[0];
      var t := if i < |s.rows| && Pending(s.rows[i].status)
               then PutRow(s, i, if recorded then Cleaned else Failed) else s;
      PutProgram(t, r, Erasing(p.queue[1..], p.temps, p.clean && recorded))
  }

  /** The second pass over the files of this materialization; at its end the marker is settled. */
  function Sweep(s: State, r: RunId, works: bool): State {
    if !(r in s.programs && s.programs[r].Sweeping?) then s
    else
      var p := s.programs[r];
      if p.temps == [] then
        s.(programs := s.programs - {r}, marks := s.marks[r := if p.clean then CleanedMark else FailedMark])
      else if p.temps[0] in s.files then
        if works then PutProgram(s.(files := s.files - {p.temps[0]}), r, p.(temps := p.temps[1..]))
        else PutProgram(s, r, p.(temps := p.temps[1..], clean := false))
      else PutProgram(s, r, p.(temps := p.temps[1..]))
  }

  // -- Crash and start-up -----------------------------------

  function Crash(s: State): State {
    s.(programs := map[], stage := Starting)
  }

  function Scan(s: State): State {
    if s.stage.Starting? then s.(stage := Removing(PendingRows(s.rows, None, |s.rows|))) else s
  }

  function Remove(s: State, works: bool): State {
    if !s.stage.Removing? then s
    else if s.stage.queue == [] then s.(stage := Replaying)
    else
      var i := s.stage.queue[0];
      if i >= |s.rows| then s.(stage := Removing(s.stage.queue[1..]))
      else
        var (t, done) := Unlink(s, i, works);
        if done then t.(stage := Removed(s.stage.queue))
        else PutRow(t, i, Failed).(stage := Removing(s.stage.queue[1..]))
  }

  function MarkRemoved(s: State, recorded: bool): State {
    if !s.stage.Removed? || s.stage.queue == [] then s
    else
      var i := s.stage.queue[0];
      var st := if recorded then RecoveryCleaned else Failed;
      var t := if i < |s.rows| && Pending(s.rows[i].status) then PutRow(s, i, st) else s;
      t.(stage := Removing(s.stage.queue[1..]))
  }

  predicate SettledRow(st: RowStatus) { st.Cleaned? || st.RecoveryCleaned? }

  /** The marker as orphan recovery reads it: rows that were all recovered settle a pending one. */
  function MarkNow(s: State, r: RunId): Option<Mark> {
    if r !in s.marks then None
    else if s.marks[r].PendingMark? && (exists row <- s.rows :: row.run == r)
      && (forall row <- s.rows :: row.run == r ==> SettledRow(row.status))
    then Some(RecoveredMark)
    else Some(s.marks[r])
  }

  predicate MayReplay(s: State, r: RunId) {
    && (forall row <- s.rows :: row.run == r ==> !row.status.Failed?)
    && MarkNow(s, r) != Some(PendingMark) && MarkNow(s, r) != Some(FailedMark)
  }

  /** The run's replay is queued, or the run is blocked. */
  function Replay(s: State, r: RunId): State {
    if s.stage.Replaying? && MayReplay(s, r) then
      s.(replayed := s.replayed + {r},
         marks := if MarkNow(s, r).Some? then s.marks[r := MarkNow(s, r).value] else s.marks)
    else s
  }

  function Open(s: State): State {
    if s.stage.Replaying? then s.(stage := Working) else s
  }

  // -- Steps ------------------------------------------------

  datatype Op =
    | BeginOp(r: RunId, bindings: seq<bool>)
    | InsertOp(r: RunId)
    | CreateOp(r: RunId, how: Creation)
    | CheckOp(r: RunId, passes: bool, unlinks: bool)
    | LeaveOp(r: RunId)
    | EraseOp(r: RunId, works: bool)
    | MarkErasedOp(r: RunId, recorded: bool)
    | SweepOp(r: RunId, works: bool)
    | CrashOp
    | ScanOp
    | RemoveOp(works: bool)
    | MarkRemovedOp(recorded: bool)
    | ReplayOp(r: RunId)
    | OpenOp

  function Step(s: State, op: Op): State {
    match op
    case BeginOp(r, bindings) => Begin(s, r, bindings)
    case InsertOp(r) => Insert(s, r)
    case CreateOp(r, how) => Create(s, r, how)
    case CheckOp(r, passes, unlinks) => Check(s, r, passes, unlinks)
    case LeaveOp(r) => Leave(s, r)
    case EraseOp(r, works) => Erase(s, r, works)
    case MarkErasedOp(r, recorded) => MarkErased(s, r, recorded)
    case SweepOp(r, works) => Sweep(s, r, works)
    case CrashOp => Crash(s)
    case ScanOp => Scan(s)
    case RemoveOp(works) => Remove(s, works)
    case MarkRemovedOp(recorded) => MarkRemoved(s, recorded)
    case ReplayOp(r) => Replay(s, r)
    case OpenOp => Open(s)
  }

  function After(s: State, ops: seq<Op>): State
    decreases |ops|
  {
    if ops == [] then s else After(Step(s, ops[0]), ops[1..])
  }

  const FRESH := State([], {}, map[], map[], Starting, {}, 0)

  // -- The invariant ----------------------------------------

  ghost predicate Names(s: State, i: int, path: int) { 0 <= i < |s.rows| && s.rows[i].path == Some(path) }

  /** A path belongs to one row, and only a row still to be cleaned has its file on disk. */
  ghost predicate WriteAhead(s: State) {
    && (forall i, path :: Names(s, i, path) ==> path < s.nextPath)
    && (forall i, j, path :: Names(s, i, path) && Names(s, j, path) ==> i == j)
    && (forall path :: path in s.files ==> exists i :: Names(s, i, path) && Pending(s.rows[i].status))
  }

  /** Row i is without its file. */
  ghost predicate Gone(s: State, i: int) {
    0 <= i < |s.rows| ==> s.rows[i].path == None || s.rows[i].path.value !in s.files
  }

  ghost predicate OfRun(s: State, r: RunId, i: int) { 0 <= i < |s.rows| && s.rows[i].run == r }

  ghost predicate ProgramOk(s: State, r: RunId)
    requires r in s.programs
  {
    match s.programs[r]
    case Presenting(_, ids, _) => forall i <- ids :: OfRun(s, r, i)
    case Creating(row, _, ids, _) =>
      (forall i <- ids :: OfRun(s, r, i)) && OfRun(s, r, row) && s.rows[row].path.Some?
          && s.rows[row].status.Materialized?
    case Checking(row, _, ids, _) =>
      (forall i <- ids :: OfRun(s, r, i)) && OfRun(s, r, row) && s.rows[row].path.Some?
          && s.rows[row].status.Materialized?
    case Using(ids, _) => forall i <- ids :: OfRun(s, r, i)
    case Erasing(queue, _, _) => forall i <- queue :: OfRun(s, r, i)
    case Erased(queue, _, _) => (forall i <- queue :: OfRun(s, r, i)) && queue != [] && Gone(s, queue[0])
    case Sweeping(_, _) => true
  }

  ghost predicate StageOk(s: State) {
    && (!s.stage.Working? ==> s.programs == map[])
    && match s.stage
       case Removing(queue) =>
         forall i :: 0 <= i < |s.rows| && s.rows[i].status.Materialized? ==> i in queue
       case Removed(queue) =>
         && queue != [] && Gone(s, queue[0])
         && forall i :: 0 <= i < |s.rows| && s.rows[i].status.Materialized? ==> i in queue
       case Replaying => forall i :: 0 <= i < |s.rows| ==> !s.rows[i].status.Materialized?
       case _ => true
  }

  /** A replayed run has no file left and will never have one. */
  ghost predicate ReplayOk(s: State) {
    forall r <- s.replayed :: r !in s.programs && forall i :: 0 <= i < |s.rows| && s.rows[i].run == r ==> Gone(s, i)
  }

  ghost predicate Inv(s: State) {
    && WriteAhead(s)
    && (forall r <- s.programs :: ProgramOk(s, r))
    && StageOk(s)
    && ReplayOk(s)
  }
}
