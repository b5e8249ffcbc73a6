/** What the write-ahead order of credential rows and files guarantees across crashes. */
module CredentialTheorems {
  import opened Prelude
  import opened Credentials

  /** What a change of files and statuses must respect for the rows of others. */
  lemma FilesShrink(s: State, t: State)
    requires WriteAhead(s)
    requires t.rows == s.rows && t.nextPath == s.nextPath && t.files <= s.files
    ensures WriteAhead(t)
  {
    assert forall i, path :: Names(t, i, path) <==> Names(s, i, path);
  }

  lemma StatusMoves(s: State, t: State, i: nat, st: RowStatus)
    requires WriteAhead(s) && i < |s.rows|
    requires t.rows == s.rows[i := s.rows[i].(status := st)] && t.nextPath == s.nextPath && t.files == s.files
    requires Pending(st) || Gone(s, i)
    ensures WriteAhead(t)
  {
    assert forall j, path :: Names(t, j, path) <==> Names(s, j, path);
    forall path | path in t.files ensures exists j :: Names(t, j, path) && Pending(t.rows[j].status) {
      var j :| Names(s, j, path) && Pending(s.rows[j].status);
      assert Names(t, j, path);
    }
  }

  lemma RowAdded(s: State, t: State, r: RunId, path: Option<Path>)
    requires WriteAhead(s)
    requires t.rows == s.rows + [Row(r, path, Materialized)] && t.files == s.files
    requires path == None || path == Some(s.nextPath)
    requires t.nextPath == if path.Some? then s.nextPath + 1 else s.nextPath
    ensures WriteAhead(t)
  {
    assert forall i, p :: Names(s, i, p) ==> Names(t, i, p);
    assert forall i, p :: Names(t, i, p) ==> Names(s, i, p) || (i == |s.rows| && path == Some(p));
  }

  lemma FileAdded(s: State, t: State, i: nat)
    requires WriteAhead(s) && i < |s.rows| && s.rows[i].path.Some? && Pending(s.rows[i].status)
    requires t.rows == s.rows && t.nextPath == s.nextPath && t.files == s.files + {s.rows[i].path.value}
    ensures WriteAhead(t)
  {
    assert Names(t, i, s.rows[i].path.value);
    assert forall j, path :: Names(t, j, path) <==> Names(s, j, path);
  }

  /** Only the rows and files of run r, and its program, change. */
  ghost predicate OnlyRun(s: State, t: State, r: RunId) {
    && t.stage == s.stage && t.replayed == s.replayed
    && |s.rows| <= |t.rows|
    && (forall i :: 0 <= i < |s.rows| ==>
          t.rows[i].run == s.rows[i].run && t.rows[i].path == s.rows[i].path
          && (s.rows[i].run != r ==> t.rows[i] == s.rows[i] && (Gone(s, i) ==> Gone(t, i))))
    && (forall i :: |s.rows| <= i < |t.rows| ==> t.rows[i].run == r)
    && t.programs - {r} == s.programs - {r}
  }

  lemma OnlyRunKeeps(s: State, t: State, r: RunId)
    requires Inv(s) && s.stage.Working? && r !in s.replayed && OnlyRun(s, t, r) && WriteAhead(t)
    requires r in t.programs ==> ProgramOk(t, r)
    ensures Inv(t)
  {
    hide WriteAhead;
    forall q | q in t.programs ensures ProgramOk(t, q) {
      if q != r {
        assert q in t.programs - {r};
        assert q in s.programs && t.programs[q] == s.programs[q] by {
          assert (t.programs - {r})[q] == t.programs[q];
          assert (s.programs - {r})[q] == s.programs[q];
        }
        assert ProgramOk(s, q);
        assert forall i :: OfRun(s, q, i) ==> OfRun(t, q, i) && t.rows[i] == s.rows[i];
      }
    }
    assert forall q :: q in t.programs && q != r ==> q in t.programs - {r};
    assert forall q :: q in s.programs - {r} ==> q in s.programs;
  }

  /** The files of other runs stay when one path of run r comes or goes. */
  lemma OtherPathsStay(s: State, path: Path, i: nat)
    requires WriteAhead(s) && Names(s, i, path)
    ensures forall j: nat :: j < |s.rows| && s.rows[j].run != s.rows[i].run ==> s.rows[j].path != Some(path)
  {
    forall j: nat | j < |s.rows| && s.rows[j].run != s.rows[i].run ensures s.rows[j].path != Some(path) {
      if s.rows[j].path == Some(path) { assert Names(s, j, path); }
    }
  }

  // -- Steps ------------------------------------------------

  lemma BeginKeeps(s: State, r: RunId, bindings: seq<bool>)
    requires Inv(s)
    ensures Inv(Begin(s, r, bindings))
  {
    var t := Begin(s, r, bindings);
    if t != s {
      FilesShrink(s, t);
      OnlyRunKeeps(s, t, r);
    }
  }

  lemma InsertKeeps(s: State, r: RunId)
    requires Inv(s)
    ensures Inv(Insert(s, r))
  {
    var t := Insert(s, r);
    if r in s.programs && s.programs[r].Presenting? {
      assert ProgramOk(s, r);
      var p := s.programs[r];
      if p.todo == [] { FilesShrink(s, t); }
      else { RowAdded(s, t, r, if p.todo[0] then Some(s.nextPath) else None); }
      assert forall i <- p.ids :: OfRun(t, r, i);
      NewPathUnwritten(s);
      OnlyRunKeeps(s, t, r);
    }
  }

  lemma NewPathUnwritten(s: State)
    requires WriteAhead(s)
    ensures s.nextPath !in s.files
  {}

  lemma StartCleanupKeeps(s: State, t: State, r: RunId, ids: seq<nat>, temps: seq<Path>)
    requires Inv(s) && s.stage.Working? && r !in s.replayed && OnlyRun(s, t, r) && WriteAhead(t)
    requires forall i <- ids :: OfRun(t, r, i)
    ensures Inv(StartCleanup(t, r, ids, temps))
  {
    var u := StartCleanup(t, r, ids, temps);
    FilesShrink(t, u);
    assert u.programs - {r} == t.programs - {r};
    assert OnlyRun(s, u, r);
    assert ProgramOk(u, r);
    OnlyRunKeeps(s, u, r);
  }

  lemma CreateKeeps(s: State, r: RunId, how: Creation)
    requires Inv(s)
    ensures Inv(Create(s, r, how))
  {
    if r in s.programs && s.programs[r].Creating? {
      assert ProgramOk(s, r);
      var p := s.programs[r];
      var path := s.rows[p.row].path.value;
      var t := if how.NotCreated? then s else s.(files := s.files + {path});
      assert Names(s, p.row, path);
      OtherPathsStay(s, path, p.row);
      if how.NotCreated? { FilesShrink(s, t); } else { FileAdded(s, t, p.row); }
      assert forall i <- p.ids :: OfRun(t, r, i);
      if how.Created? {
        var u := PutProgram(t, r, Checking(p.row, p.todo, p.ids, p.temps));
        FilesShrink(t, u);
        OnlyRunKeeps(s, u, r);
      } else {
        StartCleanupKeeps(s, t, r, p.ids, p.temps);
      }
    }
  }

  lemma CheckKeeps(s: State, r: RunId, passes: bool, unlinks: bool)
    requires Inv(s)
    ensures Inv(Check(s, r, passes, unlinks))
  {
    if r in s.programs && s.programs[r].Checking? {
      assert ProgramOk(s, r);
      var p := s.programs[r];
      var path := s.rows[p.row].path.value;
      if passes {
        var u := PutProgram(s, r, Presenting(p.todo, p.ids, p.temps + [path]));
        FilesShrink(s, u);
        OnlyRunKeeps(s, u, r);
      } else {
        var t := if unlinks then s.(files := s.files - {path}) else s;
        FilesShrink(s, t);
        assert forall i <- p.ids :: OfRun(t, r, i);
        StartCleanupKeeps(s, t, r, p.ids, p.temps);
      }
    }
  }

  lemma LeaveKeeps(s: State, r: RunId)
    requires Inv(s)
    ensures Inv(Leave(s, r))
  {
    if r in s.programs {
      assert ProgramOk(s, r);
      match s.programs[r]
      case Presenting(_, ids, temps) => StartCleanupKeeps(s, s, r, ids, temps);
      case Creating(_, _, ids, temps) => StartCleanupKeeps(s, s, r, ids, temps);
      case Using(ids, temps) => StartCleanupKeeps(s, s, r, ids, temps);
      case _ =>
    }
  }

  lemma EraseWritesAhead(s: State, r: RunId, works: bool)
    requires WriteAhead(s)
    ensures WriteAhead(Erase(s, r, works))
  {
    if r in s.programs && s.programs[r].Erasing? {
      var t, p := Erase(s, r, works), s.programs[r];
      hide WriteAhead;
      if p.queue != [] && p.queue[0] < |s.rows| && Pending(s.rows[p.queue[0]].status) {
        var (u, done) := Unlink(s, p.queue[0], works);
        FilesShrink(s, u);
        if !done { StatusMoves(u, t, p.queue[0], Failed); } else { FilesShrink(u, t); }
      } else {
        FilesShrink(s, t);
      }
    }
  }

  lemma EraseKeeps(s: State, r: RunId, works: bool)
    requires Inv(s)
    ensures Inv(Erase(s, r, works))
  {
    EraseWritesAhead(s, r, works);
    if r in s.programs && s.programs[r].Erasing? {
      assert ProgramOk(s, r);
      var t, p := Erase(s, r, works), s.programs[r];
      assert p.queue != [] ==> OfRun(s, r, p.queue[0]) by {
        assert p.queue != [] ==> p.queue[0] in p.queue;
      }
      assert forall i <- p.queue :: OfRun(t, r, i);
      hide WriteAhead;
      OnlyRunKeeps(s, t, r);
    }
  }

  lemma MarkErasedKeeps(s: State, r: RunId, recorded: bool)
    requires Inv(s)
    ensures Inv(MarkErased(s, r, recorded))
  {
    if r in s.programs && s.programs[r].Erased? && s.programs[r].queue != [] {
      assert ProgramOk(s, r);
      var t := MarkErased(s, r, recorded);
      var i := s.programs[r].queue[0];
      assert OfRun(s, r, i) by { assert i in s.programs[r].queue; }
      if Pending(s.rows[i].status) { StatusMoves(s, t, i, if recorded then Cleaned else Failed); }
      else { FilesShrink(s, t); }
      assert forall k <- s.programs[r].queue :: OfRun(t, r, k);
      OnlyRunKeeps(s, t, r);
    }
  }

  lemma SweepKeeps(s: State, r: RunId, works: bool)
    requires Inv(s)
    ensures Inv(Sweep(s, r, works))
  {
    if r in s.programs && s.programs[r].Sweeping? {
      var t := Sweep(s, r, works);
      FilesShrink(s, t);
      assert (s.programs - {r}) - {r} == s.programs - {r};
      OnlyRunKeeps(s, t, r);
    }
  }

  lemma RemoveKeeps(s: State, works: bool)
    requires Inv(s)
    ensures Inv(Remove(s, works))
  {
    var t := Remove(s, works);
    assert StageOk(s);
    if s.stage.Removing? && s.stage.queue != [] && s.stage.queue[0] < |s.rows| {
      var (u, done) := Unlink(s, s.stage.queue[0], works);
      FilesShrink(s, u);
      if !done { StatusMoves(u, t, s.stage.queue[0], Failed); } else { FilesShrink(u, t); }
    } else { FilesShrink(s, t); }
  }

  lemma MarkRemovedKeeps(s: State, recorded: bool)
    requires Inv(s)
    ensures Inv(MarkRemoved(s, recorded))
  {
    var t := MarkRemoved(s, recorded);
    assert StageOk(s);
    if s.stage.Removed? && s.stage.queue[0] < |s.rows| && Pending(s.rows[s.stage.queue[0]].status) {
      StatusMoves(s, t, s.stage.queue[0], if recorded then RecoveryCleaned else Failed);
    } else { FilesShrink(s, t); }
  }

  lemma StartUpKeeps(s: State, op: Op)
    requires Inv(s) && (op.CrashOp? || op.ScanOp? || op.OpenOp?)
    ensures Inv(Step(s, op))
  {
    FilesShrink(s, Step(s, op));
  }

  /** A run is replayed only when none of its rows has a file. */
  lemma ReplayKeeps(s: State, r: RunId)
    requires Inv(s)
    ensures Inv(Replay(s, r))
  {
    var t := Replay(s, r);
    FilesShrink(s, t);
    if s.stage.Replaying? && MayReplay(s, r) {
      forall i | 0 <= i < |s.rows| && s.rows[i].run == r ensures Gone(t, i) {
        assert s.rows[i] in s.rows;
        assert SettledRow(s.rows[i].status);
        SettledIsGone(s, i);
      }
    }
  }

  lemma SettledIsGone(s: State, i: nat)
    requires WriteAhead(s) && i < |s.rows| && SettledRow(s.rows[i].status)
    ensures Gone(s, i)
  {
    if s.rows[i].path.Some? {
      var path := s.rows[i].path.value;
      assert Names(s, i, path);
      assert forall j :: Names(s, j, path) ==> j == i;
    }
  }

  lemma StepKeeps(s: State, op: Op)
    requires Inv(s)
    ensures Inv(Step(s, op))
  {
    hide Inv;
    match op
    case BeginOp(r, bindings) => BeginKeeps(s, r, bindings);
    case InsertOp(r) => InsertKeeps(s, r);
    case CreateOp(r, how) => CreateKeeps(s, r, how);
    case CheckOp(r, passes, unlinks) => CheckKeeps(s, r, passes, unlinks);
    case LeaveOp(r) => LeaveKeeps(s, r);
    case EraseOp(r, works) => EraseKeeps(s, r, works);
    case MarkErasedOp(r, recorded) => MarkErasedKeeps(s, r, recorded);
    case SweepOp(r, works) => SweepKeeps(s, r, works);
    case ReplayOp(r) => ReplayKeeps(s, r);
    case RemoveOp(works) => RemoveKeeps(s, works);
    case MarkRemovedOp(recorded) => MarkRemovedKeeps(s, recorded);
    case _ => StartUpKeeps(s, op);
  }

  lemma {:induction false} HistoryKeeps(s: State, ops: seq<Op>)
    requires Inv(s)
    ensures Inv(After(s, ops))
    decreases |ops|
  {
    hide Inv, Step;
    if ops != [] {
      StepKeeps(s, ops[0]);
      HistoryKeeps(Step(s, ops[0]), ops[1..]);
    }
  }

  // -- Results ----------------------------------------------

  /** After any history with crashes anywhere: a file on disk has a row that still owes its removal. */
  lemma EveryFileIsOwed(ops: seq<Op>, path: Path)
    requires path in After(FRESH, ops).files
    ensures var s := After(FRESH, ops);
      exists i :: Names(s, i, path) && Pending(s.rows[i].status) && (forall j :: Names(s, j, path) ==> j == i)
  {
    HistoryKeeps(FRESH, ops);
    var s := After(FRESH, ops);
    hide After;
    var i :| Names(s, i, path) && Pending(s.rows[i].status);
    assert forall j :: Names(s, j, path) ==> j == i;
  }

  /** A row that is marked clean, by its worker or by recovery, has no file. */
  lemma CleanMeansGone(ops: seq<Op>, i: nat)
    requires var s := After(FRESH, ops); i < |s.rows| && SettledRow(s.rows[i].status)
    ensures Gone(After(FRESH, ops), i)
  {
    HistoryKeeps(FRESH, ops);
    SettledIsGone(After(FRESH, ops), i);
  }

  /** A replay is queued only after all files of its run are gone, and none appears later. */
  lemma ReplayedRunsAreClean(ops: seq<Op>, r: RunId, i: nat)
    requires var s := After(FRESH, ops); r in s.replayed && OfRun(s, r, i)
    ensures Gone(After(FRESH, ops), i)
  {
    HistoryKeeps(FRESH, ops);
  }

  /** Once start-up recovery is through, each file left belongs to a row whose removal failed. */
  lemma OnlyFailuresRemain(ops: seq<Op>, path: Path)
    requires var s := After(FRESH, ops); s.stage.Replaying? && path in s.files
    ensures var s := After(FRESH, ops);
      exists i :: Names(s, i, path) && s.rows[i].status.Failed? && !MayReplay(s, s.rows[i].run)
  {
    HistoryKeeps(FRESH, ops);
    var s := After(FRESH, ops);
    hide After, MarkNow;
    var i :| Names(s, i, path) && Pending(s.rows[i].status);
    assert s.rows[i] in s.rows;
  }
}
