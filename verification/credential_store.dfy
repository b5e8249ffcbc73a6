/** Presenting credentials, and the cleanup and recovery loops over their rows and files. */
module CredentialStore {
  import opened Prelude
  import opened Credentials
  import CredentialTheorems

  function FileOf(row: Row): set<Path> { if row.path.Some? then {row.path.value} else {} }

  /** What a materialization has presented so far. */
  datatype Presented = Presented(rows: seq<Row>, files: set<Path>, nextPath: Path, ids: seq<nat>, temps: seq<Path>)

  /** How writing a file ends: well, without the file, with part of it, or with one that failed the check. */
  datatype Writing = Written | NotMade | HalfMade | Unsafe(unlinked: bool)

  /** What becomes of one binding: refused before its row, a value, or a file. */
  datatype Binding = Refused | Value | File(write: Writing)

  predicate Succeeds(b: Binding) { b.Value? || (b.File? && b.write.Written?) }

  /** One binding: a row, and for a file binding then the file. */
  function PresentOne(p: Presented, run: RunId, b: Binding): Presented {
    var i, path := |p.rows|, p.nextPath;
    match b
    case Refused => p
    case Value => p.(rows := p.rows + [Row(run, None, Materialized)], ids := p.ids + [i])
    case File(write) =>
      Presented(p.rows + [Row(run, Some(path), Materialized)],
                match write
                case NotMade => p.files
                case Unsafe(true) => p.files - {path}
                case _ => p.files + {path},
                path + 1, p.ids + [i], if write.Written? then p.temps + [path] else p.temps)
  }

  /** The bindings in turn, up to the first that fails. */
  function PresentAll(p: Presented, run: RunId, todo: seq<Binding>): Presented
    decreases |todo|
  {
    if todo == [] then p
    else if Succeeds(todo[0]) then PresentAll(PresentOne(p, run, todo[0]), run, todo[1..])
    else PresentOne(p, run, todo[0])
  }

  predicate AllSucceed(todo: seq<Binding>) { forall b <- todo :: Succeeds(b) }

  /** The files that cannot be removed, and the rows whose new status cannot be recorded. */
  datatype Faults = Faults(stuck: set<Path>, lost: set<nat>)

  const NO_FAULTS := Faults({}, {})

  /** Rows and files after a loop, and how many of its removals failed. */
  datatype Erasure = Erasure(rows: seq<Row>, files: set<Path>, failures: nat)

  /** The file of row i is there and cannot be removed. */
  predicate Stuck(rows: seq<Row>, files: set<Path>, i: nat, stuck: set<Path>)
    requires i < |rows|
  {
    rows[i].path.Some? && rows[i].path.value in files && rows[i].path.value in stuck
  }

  /** A row still to be cleaned loses its file and gets `mark`; if either fails it is marked failed. */
  function EraseRow(e: Erasure, i: nat, faults: Faults, mark: RowStatus): Erasure {
    if i >= |e.rows| || !Pending(e.rows[i].status) then e
    else if Stuck(e.rows, e.files, i, faults.stuck) then
      Erasure(e.rows[i := e.rows[i].(status := Failed)], e.files, e.failures + 1)
    else if i in faults.lost then
      Erasure(e.rows[i := e.rows[i].(status := Failed)], e.files - FileOf(e.rows[i]), e.failures + 1)
    else
      e.(rows := e.rows[i := e.rows[i].(status := mark)], files := e.files - FileOf(e.rows[i]))
  }

  function EraseAll(e: Erasure, queue: seq<nat>, faults: Faults, mark: RowStatus): Erasure
    decreases |queue|
  {
    if queue == [] then e else EraseAll(EraseRow(e, queue[0], faults, mark), queue[1..], faults, mark)
  }

  /** The second pass: one file of the materialization. */
  function SweepOne(e: Erasure, path: Path, stuck: set<Path>): Erasure {
    if path !in e.files then e
    else if path in stuck then e.(failures := e.failures + 1)
    else e.(files := e.files - {path})
  }

  function SweepAll(e: Erasure, temps: seq<Path>, stuck: set<Path>): Erasure
    decreases |temps|
  {
    if temps == [] then e else SweepAll(SweepOne(e, temps[0], stuck), temps[1..], stuck)
  }

  class CredentialRuntime {
    var rows: seq<Row>
    var files: set<Path>
    var nextPath: Path

    constructor ()
      ensures rows == [] && files == {} && nextPath == 0
    {
      rows, files, nextPath := [], {}, 0;
    }

    /** Every binding in turn; the first that fails raises, and the cleanup follows. */
    method MaterializeCredentials(run: RunId, bindings: seq<Binding>)
      returns (ids: seq<nat>, temps: seq<Path>, ok: bool)
      modifies this
      ensures Presented(rows, files, nextPath, ids, temps)
           == PresentAll(Presented(old(rows), old(files), old(nextPath), [], []), run, bindings)
      ensures ok <==> AllSucceed(bindings)
    {
      ids, temps := [], [];
      var k := 0;
      while k < |bindings|
        invariant 0 <= k <= |bindings| && AllSucceed(bindings[..k])
        invariant PresentAll(Presented(rows, files, nextPath, ids, temps), run, bindings[k..])
               == PresentAll(Presented(old(rows), old(files), old(nextPath), [], []), run, bindings)
      {
        assert bindings[k..][0] == bindings[k] && bindings[k..][1..] == bindings[k + 1..];
        match bindings[k] {
          case Refused => return ids, temps, false;
          case Value =>
            ids, rows := ids + [|rows|], rows + [Row(run, None, Materialized)];
          case File(write) =>
            var path := nextPath;
            nextPath := nextPath + 1;
            ids, rows := ids + [|rows|], rows + [Row(run, Some(path), Materialized)];
            WriteCredentialFile(path, write);
            if !write.Written? { return ids, temps, false; }
            temps := temps + [path];
        }
        assert bindings[..k + 1] == bindings[..k] + [bindings[k]];
        k := k + 1;
      }
      assert bindings[..k] == bindings;
      return ids, temps, true;
    }

    /** A file that fails its check is unlinked if that works; the error is raised all the same. */
    method WriteCredentialFile(path: Path, write: Writing)
      modifies this`files
      ensures files == match write
                       case NotMade => old(files)
                       case Unsafe(true) => old(files) - {path}
                       case _ => old(files) + {path}
    {
      if write.NotMade? { return; }
      files := files + {path};
      if write.Unsafe? && write.unlinked { files := files - {path}; }
    }

    /** Unlink if the file exists, then mark; if either fails the row is marked failed. */
    method EraseOne(i: nat, faults: Faults, mark: RowStatus) returns (failures: nat)
      modifies this`rows, this`files
      ensures forall n: nat ::
        Erasure(rows, files, n + failures) == EraseRow(Erasure(old(rows), old(files), n), i, faults, mark)
    {
      failures := 0;
      if i >= |rows| || !Pending(rows[i].status) { return; }
      var path := rows[i].path;
      if path.Some? && path.value in files {
        if path.value in faults.stuck {
          rows := rows[i := rows[i].(status := Failed)];
          return 1;
        }
        files := files - {path.value};
      }
      if i in faults.lost {
        rows := rows[i := rows[i].(status := Failed)];
        return 1;
      }
      rows := rows[i := rows[i].(status := mark)];
    }

    method EraseRows(queue: seq<nat>, faults: Faults, mark: RowStatus) returns (failures: nat)
      modifies this`rows, this`files
      ensures Erasure(rows, files, failures) == EraseAll(Erasure(old(rows), old(files), 0), queue, faults, mark)
    {
      hide EraseRow;
      failures := 0;
      var k := 0;
      while k < |queue|
        invariant 0 <= k <= |queue|
        invariant EraseAll(Erasure(rows, files, failures), queue[k..], faults, mark)
               == EraseAll(Erasure(old(rows), old(files), 0), queue, faults, mark)
      {
        assert queue[k..][0] == queue[k] && queue[k..][1..] == queue[k + 1..];
        ghost var e := Erasure(rows, files, failures);
        var more := EraseOne(queue[k], faults, mark);
        assert Erasure(rows, files, e.failures + more) == EraseRow(e, queue[k], faults, mark);
        failures := failures + more;
        k := k + 1;
      }
    }

    /** Unlinks what is left of the files this materialization wrote. */
    method SweepFiles(temps: seq<Path>, stuck: set<Path>, before: nat) returns (failures: nat)
      modifies this`files
      ensures Erasure(rows, files, failures) == SweepAll(Erasure(rows, old(files), before), temps, stuck)
    {
      failures := before;
      var k := 0;
      while k < |temps|
        invariant 0 <= k <= |temps|
        invariant SweepAll(Erasure(rows, files, failures), temps[k..], stuck)
               == SweepAll(Erasure(rows, old(files), before), temps, stuck)
      {
        assert temps[k..][0] == temps[k] && temps[k..][1..] == temps[k + 1..];
        if temps[k] in files {
          if temps[k] in stuck { failures := failures + 1; } else { files := files - {temps[k]}; }
        }
        k := k + 1;
      }
    }

    method ListPending(run: Option<RunId>) returns (ids: seq<nat>)
      ensures ids == PendingRows(rows, run, |rows|)
    {
      ids := [];
      for i := 0 to |rows|
        invariant ids == PendingRows(rows, run, i)
      {
        if Pending(rows[i].status) && (run.Some? ==> rows[i].run == run.value) { ids := ids + [i]; }
      }
    }

    /** Cleans the presented and the other pending rows of the run, then its files once more. */
    method CleanupMaterialization(run: RunId, ids: seq<nat>, temps: seq<Path>, faults: Faults) returns (failures: nat)
      modifies this`rows, this`files
      ensures Erasure(rows, files, failures)
           == SweepAll(EraseAll(Erasure(old(rows), old(files), 0), CleanupQueue(old(rows), run, ids), faults, Cleaned),
                       temps, faults.stuck)
    {
      var owed := ListPending(Some(run));
      var queue := ids;
      var k := 0;
      while k < |owed|
        invariant 0 <= k <= |owed|
        invariant Joined(queue, owed[k..]) == Joined(ids, owed)
      {
        assert owed[k..][0] == owed[k] && owed[k..][1..] == owed[k + 1..];
        if owed[k] !in queue { queue := queue + [owed[k]]; }
        k := k + 1;
      }
      failures := EraseRows(queue, faults, Cleaned);
      failures := SweepFiles(temps, faults.stuck, failures);
    }

    method RecoverCredentialPresentations(faults: Faults) returns (failures: nat)
      modifies this`rows, this`files
      ensures Erasure(rows, files, failures)
           == EraseAll(Erasure(old(rows), old(files), 0), PendingRows(old(rows), None, |old(rows)|),
                       faults, RecoveryCleaned)
    {
      var owed := ListPending(None);
      failures := EraseRows(owed, faults, RecoveryCleaned);
    }
  }

  // -- Each loop is a run of the instructions ---------------

  lemma AfterOne(s: State, op: Op, rest: seq<Op>)
    ensures After(s, [op] + rest) == After(Step(s, op), rest)
  {
    assert ([op] + rest)[1..] == rest;
  }

  lemma AfterTwo(s: State, a: Op, b: Op, rest: seq<Op>)
    ensures After(s, [a, b] + rest) == After(Step(Step(s, a), b), rest)
  {
    assert [a, b] + rest == [a] + ([b] + rest);
    AfterOne(s, a, [b] + rest);
    AfterOne(Step(s, a), b, rest);
  }

  lemma AfterThree(s: State, a: Op, b: Op, c: Op, rest: seq<Op>)
    ensures After(s, [a, b, c] + rest) == After(Step(Step(Step(s, a), b), c), rest)
  {
    assert [a, b, c] + rest == [a] + ([b, c] + rest);
    AfterOne(s, a, [b, c] + rest);
    AfterTwo(Step(s, a), b, c, rest);
  }

  /** The instructions for one binding, and for all up to the first that fails. */
  function PresentOps(r: RunId, b: Binding): seq<Op> {
    match b
    case Refused => [LeaveOp(r)]
    case Value => [InsertOp(r)]
    case File(Written) => [InsertOp(r), CreateOp(r, Created), CheckOp(r, true, true)]
    case File(NotMade) => [InsertOp(r), CreateOp(r, NotCreated)]
    case File(HalfMade) => [InsertOp(r), CreateOp(r, CreatedThenFailed)]
    case File(Unsafe(unlinked)) => [InsertOp(r), CreateOp(r, Created), CheckOp(r, false, unlinked)]
  }

  function MaterializeOps(r: RunId, todo: seq<Binding>): seq<Op>
    decreases |todo|
  {
    if todo == [] then [InsertOp(r)]
    else PresentOps(r, todo[0]) + if Succeeds(todo[0]) then MaterializeOps(r, todo[1..]) else []
  }

  /** Which of the bindings need a file. */
  function Needs(todo: seq<Binding>): seq<bool> {
    seq(|todo|, k requires 0 <= k < |todo| => todo[k].File?)
  }

  /** The state in which run r has presented p and goes on as `program`. */
  function Midway(s: State, r: RunId, p: Presented, program: Program): State {
    PutProgram(s, r, program).(rows := p.rows, files := p.files, nextPath := p.nextPath)
  }

  function StillTo(p: Presented, todo: seq<Binding>): Program { Presenting(Needs(todo), p.ids, p.temps) }

  function ToCleanUp(p: Presented, r: RunId): Program { Erasing(CleanupQueue(p.rows, r, p.ids), p.temps, true) }

  lemma PresentsOne(s: State, r: RunId, p: Presented, todo: seq<Binding>, rest: seq<Op>)
    requires todo != []
    ensures var q := PresentOne(p, r, todo[0]);
      After(Midway(s, r, p, StillTo(p, todo)), PresentOps(r, todo[0]) + rest)
      == After(Midway(s, r, q, if Succeeds(todo[0]) then StillTo(q, todo[1..]) else ToCleanUp(q, r)), rest)
  {
    var m, b := Midway(s, r, p, StillTo(p, todo)), todo[0];
    assert Needs(todo)[0] == b.File? && Needs(todo)[1..] == Needs(todo[1..]);
    if b.File? { PresentsFile(s, r, p, todo, rest); }
    else {
      hide CleanupQueue;
      var q := PresentOne(p, r, b);
      assert Step(m, PresentOps(r, b)[0])
          == Midway(s, r, q, if Succeeds(b) then StillTo(q, todo[1..]) else ToCleanUp(q, r));
      AfterOne(m, PresentOps(r, b)[0], rest);
    }
  }

  lemma InsertsFile(s: State, r: RunId, p: Presented, todo: seq<Binding>)
    requires todo != [] && todo[0].File?
    ensures var q := PresentOne(p, r, todo[0]);
      Step(Midway(s, r, p, StillTo(p, todo)), InsertOp(r))
      == Midway(s, r, q.(files := p.files, temps := p.temps), Creating(|p.rows|, Needs(todo[1..]), q.ids, p.temps))
  {
    assert Needs(todo)[0] && Needs(todo)[1..] == Needs(todo[1..]);
  }

  lemma CreatesFile(s: State, r: RunId, p: Presented, path: Path, i: nat, todo: seq<bool>, how: Creation)
    requires i < |p.rows| && p.rows[i].path == Some(path)
    ensures var q := if how.NotCreated? then p else p.(files := p.files + {path});
      Step(Midway(s, r, p, Creating(i, todo, p.ids, p.temps)), CreateOp(r, how))
      == Midway(s, r, q, if how.Created? then Checking(i, todo, p.ids, p.temps) else ToCleanUp(q, r))
  {
    hide CleanupQueue;
  }

  lemma ChecksFile(s: State, r: RunId, p: Presented, path: Path, i: nat, todo: seq<bool>, passes: bool, unlinks: bool)
    requires i < |p.rows| && p.rows[i].path == Some(path)
    ensures var q := if passes then p.(temps := p.temps + [path])
                     else if unlinks then p.(files := p.files - {path}) else p;
      Step(Midway(s, r, p, Checking(i, todo, p.ids, p.temps)), CheckOp(r, passes, unlinks))
      == Midway(s, r, q, if passes then Presenting(todo, q.ids, q.temps) else ToCleanUp(q, r))
  {
    hide CleanupQueue;
  }

  lemma PresentsFile(s: State, r: RunId, p: Presented, todo: seq<Binding>, rest: seq<Op>)
    requires todo != [] && todo[0].File?
    ensures var q := PresentOne(p, r, todo[0]);
      After(Midway(s, r, p, StillTo(p, todo)), PresentOps(r, todo[0]) + rest)
      == After(Midway(s, r, q, if Succeeds(todo[0]) then StillTo(q, todo[1..]) else ToCleanUp(q, r)), rest)
  {
    var b, i, path, needs := todo[0], |p.rows|, p.nextPath, Needs(todo[1..]);
    var q := PresentOne(p, r, b);
    var m, unwritten := Midway(s, r, p, StillTo(p, todo)), q.(files := p.files, temps := p.temps);
    var written := unwritten.(files := p.files + {path});
    InsertsFile(s, r, p, todo);
    hide Step, Midway, CleanupQueue, After, Needs;
    assert Step(m, InsertOp(r)) == Midway(s, r, unwritten, Creating(i, needs, q.ids, p.temps));
    match b.write
    case NotMade =>
      CreatesFile(s, r, unwritten, path, i, needs, NotCreated);
      AfterTwo(m, InsertOp(r), CreateOp(r, NotCreated), rest);
    case HalfMade =>
      CreatesFile(s, r, unwritten, path, i, needs, CreatedThenFailed);
      AfterTwo(m, InsertOp(r), CreateOp(r, CreatedThenFailed), rest);
    case Written =>
      CreatesFile(s, r, unwritten, path, i, needs, Created);
      ChecksFile(s, r, written, path, i, needs, true, true);
      AfterThree(m, InsertOp(r), CreateOp(r, Created), CheckOp(r, true, true), rest);
    case Unsafe(unlinked) =>
      CreatesFile(s, r, unwritten, path, i, needs, Created);
      ChecksFile(s, r, written, path, i, needs, false, unlinked);
      assert p.files + {path} - {path} == p.files - {path};
      AfterThree(m, InsertOp(r), CreateOp(r, Created), CheckOp(r, false, unlinked), rest);
  }

  /** Uninterrupted, the presenting instructions do what the materializing loop does, failures included. */
  lemma {:induction false} MaterializationIsTheLoop(s: State, r: RunId, p: Presented, todo: seq<Binding>)
    ensures var q := PresentAll(p, r, todo);
      After(Midway(s, r, p, StillTo(p, todo)), MaterializeOps(r, todo))
      == Midway(s, r, q, if AllSucceed(todo) then Using(q.ids, q.temps) else ToCleanUp(q, r))
    decreases |todo|
  {
    if todo == [] {
      AfterOne(Midway(s, r, p, StillTo(p, todo)), InsertOp(r), []);
      assert [InsertOp(r)] + [] == [InsertOp(r)];
    } else {
      var q := PresentOne(p, r, todo[0]);
      PresentsOne(s, r, p, todo, if Succeeds(todo[0]) then MaterializeOps(r, todo[1..]) else []);
      assert todo == [todo[0]] + todo[1..];
      if Succeeds(todo[0]) {
        hide After, PresentOne, Midway, ToCleanUp, StillTo;
        MaterializationIsTheLoop(s, r, q, todo[1..]);
      }
    }
  }

  /** The instructions of the cleanup of run r under the given faults. */
  function EraseOps(r: RunId, e: Erasure, queue: seq<nat>, faults: Faults): seq<Op>
    decreases |queue|
  {
    if queue == [] then [EraseOp(r, true)]
    else EraseRowOps(r, e, queue[0], faults) + EraseOps(r, EraseRow(e, queue[0], faults, Cleaned), queue[1..], faults)
  }

  function EraseRowOps(r: RunId, e: Erasure, i: nat, faults: Faults): seq<Op> {
    if i >= |e.rows| || !Pending(e.rows[i].status) then [EraseOp(r, true)]
    else if Stuck(e.rows, e.files, i, faults.stuck) then [EraseOp(r, false)]
    else [EraseOp(r, true), MarkErasedOp(r, i !in faults.lost)]
  }

  function SweepOps(r: RunId, temps: seq<Path>, stuck: set<Path>): seq<Op>
    decreases |temps|
  {
    if temps == [] then [SweepOp(r, true)] else [SweepOp(r, temps[0] !in stuck)] + SweepOps(r, temps[1..], stuck)
  }

  /** The state in which the cleanup of run r has come to e. */
  function AtErasure(s: State, r: RunId, e: Erasure, program: Program): State {
    PutProgram(s, r, program).(rows := e.rows, files := e.files)
  }

  lemma ErasesOne(s: State, r: RunId, e: Erasure, queue: seq<nat>, temps: seq<Path>, faults: Faults, rest: seq<Op>)
    requires queue != []
    ensures var f := EraseRow(e, queue[0], faults, Cleaned);
      After(AtErasure(s, r, e, Erasing(queue, temps, e.failures == 0)), EraseRowOps(r, e, queue[0], faults) + rest)
      == After(AtErasure(s, r, f, Erasing(queue[1..], temps, f.failures == 0)), rest)
  {
    var i := queue[0];
    var m := AtErasure(s, r, e, Erasing(queue, temps, e.failures == 0));
    var f := EraseRow(e, i, faults, Cleaned);
    var n := AtErasure(s, r, f, Erasing(queue[1..], temps, f.failures == 0));
    if i >= |e.rows| || !Pending(e.rows[i].status) {
      assert Step(m, EraseOp(r, true)) == n;
      AfterOne(m, EraseOp(r, true), rest);
    } else if Stuck(e.rows, e.files, i, faults.stuck) {
      assert Step(m, EraseOp(r, false)) == n;
      AfterOne(m, EraseOp(r, false), rest);
    } else {
      ErasesAndMarks(s, r, e, queue, temps, faults);
      AfterTwo(m, EraseOp(r, true), MarkErasedOp(r, i !in faults.lost), rest);
    }
  }

  lemma ErasesAndMarks(s: State, r: RunId, e: Erasure, queue: seq<nat>, temps: seq<Path>, faults: Faults)
    requires queue != [] && queue[0] < |e.rows| && Pending(e.rows[queue[0]].status)
    requires !Stuck(e.rows, e.files, queue[0], faults.stuck)
    ensures var f := EraseRow(e, queue[0], faults, Cleaned);
      Step(Step(AtErasure(s, r, e, Erasing(queue, temps, e.failures == 0)), EraseOp(r, true)),
           MarkErasedOp(r, queue[0] !in faults.lost))
      == AtErasure(s, r, f, Erasing(queue[1..], temps, f.failures == 0))
  {
    var m := AtErasure(s, r, e, Erasing(queue, temps, e.failures == 0));
    var gone := e.(files := e.files - FileOf(e.rows[queue[0]]));
    assert Step(m, EraseOp(r, true)) == AtErasure(s, r, gone, Erased(queue, temps, e.failures == 0));
  }

  lemma {:induction false} ErasesAll(s: State, r: RunId, e: Erasure, queue: seq<nat>, temps: seq<Path>,
                                     faults: Faults, rest: seq<Op>)
    ensures var f := EraseAll(e, queue, faults, Cleaned);
      After(AtErasure(s, r, e, Erasing(queue, temps, e.failures == 0)), EraseOps(r, e, queue, faults) + rest)
      == After(AtErasure(s, r, f, Sweeping(temps, f.failures == 0)), rest)
    decreases |queue|
  {
    var m := AtErasure(s, r, e, Erasing(queue, temps, e.failures == 0));
    if queue == [] {
      AfterOne(m, EraseOp(r, true), rest);
      assert Step(m, EraseOp(r, true)) == AtErasure(s, r, e, Sweeping(temps, e.failures == 0));
    } else {
      var f := EraseRow(e, queue[0], faults, Cleaned);
      var more := EraseOps(r, f, queue[1..], faults);
      assert EraseOps(r, e, queue, faults) + rest == EraseRowOps(r, e, queue[0], faults) + (more + rest);
      ErasesOne(s, r, e, queue, temps, faults, more + rest);
      hide After, EraseRow, EraseRowOps, AtErasure;
      ErasesAll(s, r, f, queue[1..], temps, faults, rest);
    }
  }

  lemma {:induction false} SweepsAll(s: State, r: RunId, e: Erasure, temps: seq<Path>, stuck: set<Path>)
    ensures var f := SweepAll(e, temps, stuck);
      After(AtErasure(s, r, e, Sweeping(temps, e.failures == 0)), SweepOps(r, temps, stuck))
      == s.(programs := s.programs - {r}, rows := f.rows, files := f.files,
            marks := s.marks[r := if f.failures == 0 then CleanedMark else FailedMark])
    decreases |temps|
  {
    var m := AtErasure(s, r, e, Sweeping(temps, e.failures == 0));
    if temps == [] {
      AfterOne(m, SweepOp(r, true), []);
      assert [SweepOp(r, true)] + [] == [SweepOp(r, true)];
      assert m.programs - {r} == s.programs - {r};
    } else {
      var f := SweepOne(e, temps[0], stuck);
      var works := temps[0] !in stuck;
      assert Step(m, SweepOp(r, works)) == AtErasure(s, r, f, Sweeping(temps[1..], f.failures == 0));
      AfterOne(m, SweepOp(r, works), SweepOps(r, temps[1..], stuck));
      hide After, SweepOne, AtErasure;
      SweepsAll(s, r, f, temps[1..], stuck);
    }
  }

  /** What starts the cleanup: the end of the execution, or the error that has already started it. */
  predicate CleansUp(s: State, r: RunId, ids: seq<nat>, temps: seq<Path>) {
    r in s.programs
    && (s.programs[r] == Using(ids, temps) || s.programs[r] == Erasing(CleanupQueue(s.rows, r, ids), temps, true))
  }

  function CleanupOps(s: State, r: RunId, ids: seq<nat>, temps: seq<Path>, faults: Faults): seq<Op>
    requires r in s.programs
  {
    (if s.programs[r].Using? then [LeaveOp(r)] else [])
    + (EraseOps(r, Erasure(s.rows, s.files, 0), CleanupQueue(s.rows, r, ids), faults)
       + SweepOps(r, temps, faults.stuck))
  }

  /**
   Uninterrupted, the cleanup instructions do what the cleanup loops do, and
   leave the run's marker clean exactly if nothing failed.
   */
  lemma CleanupIsTheLoop(s: State, r: RunId, ids: seq<nat>, temps: seq<Path>, faults: Faults)
    requires CleansUp(s, r, ids, temps)
    ensures var e := EraseAll(Erasure(s.rows, s.files, 0), CleanupQueue(s.rows, r, ids), faults, Cleaned);
      var f := SweepAll(e, temps, faults.stuck);
      After(s, CleanupOps(s, r, ids, temps, faults))
      == s.(programs := s.programs - {r}, rows := f.rows, files := f.files,
            marks := s.marks[r := if f.failures == 0 then CleanedMark else FailedMark])
  {
    var queue := CleanupQueue(s.rows, r, ids);
    var e := Erasure(s.rows, s.files, 0);
    var sweeps := SweepOps(r, temps, faults.stuck);
    var ops := EraseOps(r, e, queue, faults) + sweeps;
    var m := AtErasure(s, r, e, Erasing(queue, temps, true));
    assert After(s, CleanupOps(s, r, ids, temps, faults)) == After(m, ops) by {
      if s.programs[r].Using? {
        assert Step(s, LeaveOp(r)) == m;
        AfterOne(s, LeaveOp(r), ops);
      } else {
        assert s == m;
        assert [] + ops == ops;
      }
    }
    hide After, CleanupOps, CleanupQueue;
    ErasesAll(s, r, e, queue, temps, faults, sweeps);
    SweepsAll(s, r, EraseAll(e, queue, faults, Cleaned), temps, faults.stuck);
  }

  predicate Distinct(queue: seq<nat>) {
    forall i, j :: 0 <= i < j < |queue| ==> queue[i] != queue[j]
  }

  lemma {:induction false} PendingRowsDistinct(rows: seq<Row>, run: Option<RunId>, n: nat)
    requires n <= |rows|
    ensures Distinct(PendingRows(rows, run, n))
  {
    if n > 0 {
      PendingRowsDistinct(rows, run, n - 1);
      var ids := PendingRows(rows, run, n - 1);
      assert forall k :: 0 <= k < |ids| ==> ids[k] in ids;
    }
  }

  /** The instructions recovery executes under the given faults. */
  function RecoveryOps(e: Erasure, queue: seq<nat>, faults: Faults): seq<Op>
    decreases |queue|
  {
    if queue == [] then [RemoveOp(true)]
    else
      var i := queue[0];
      (if i < |e.rows| && Stuck(e.rows, e.files, i, faults.stuck)
       then [RemoveOp(false)] else [RemoveOp(true), MarkRemovedOp(i !in faults.lost)])
      + RecoveryOps(EraseRow(e, i, faults, RecoveryCleaned), queue[1..], faults)
  }

  /** The state in which recovery has come to e. */
  function Recovering(s: State, e: Erasure, queue: seq<nat>): State {
    s.(rows := e.rows, files := e.files, stage := Removing(queue))
  }

  lemma RecoversOne(s: State, e: Erasure, queue: seq<nat>, faults: Faults, rest: seq<Op>)
    requires queue != [] && queue[0] < |e.rows| && Pending(e.rows[queue[0]].status)
    ensures After(Recovering(s, e, queue),
                  (if Stuck(e.rows, e.files, queue[0], faults.stuck)
                   then [RemoveOp(false)] else [RemoveOp(true), MarkRemovedOp(queue[0] !in faults.lost)]) + rest)
         == After(Recovering(s, EraseRow(e, queue[0], faults, RecoveryCleaned), queue[1..]), rest)
  {
    var i := queue[0];
    var m := Recovering(s, e, queue);
    var n := Recovering(s, EraseRow(e, i, faults, RecoveryCleaned), queue[1..]);
    if Stuck(e.rows, e.files, i, faults.stuck) {
      assert Step(m, RemoveOp(false)) == n;
      AfterOne(m, RemoveOp(false), rest);
    } else {
      var m1 := Step(m, RemoveOp(true));
      assert m1 == m.(files := e.files - FileOf(e.rows[i]), stage := Removed(queue));
      assert Step(m1, MarkRemovedOp(i !in faults.lost)) == n;
      AfterTwo(m, RemoveOp(true), MarkRemovedOp(i !in faults.lost), rest);
    }
  }

  /** Uninterrupted, the recovery instructions do what the recovery loop does. */
  lemma {:induction false} RecoveryIsTheLoop(s: State, e: Erasure, queue: seq<nat>, faults: Faults)
    requires Distinct(queue) && forall i <- queue :: i < |e.rows| && Pending(e.rows[i].status)
    ensures var f := EraseAll(e, queue, faults, RecoveryCleaned);
      After(Recovering(s, e, queue), RecoveryOps(e, queue, faults))
        == s.(rows := f.rows, files := f.files, stage := Replaying)
    decreases |queue|
  {
    if queue == [] {
      AfterOne(Recovering(s, e, queue), RemoveOp(true), []);
      assert [RemoveOp(true)] + [] == [RemoveOp(true)];
    } else {
      var i := queue[0];
      assert i in queue;
      var f := EraseRow(e, i, faults, RecoveryCleaned);
      RecoversOne(s, e, queue, faults, RecoveryOps(f, queue[1..], faults));
      assert forall k <- queue[1..] :: k in queue && k != i;
      hide After, Recovering;
      RecoveryIsTheLoop(s, f, queue[1..], faults);
    }
  }

  // -- What the loops achieve -------------------------------

  /** When every file can be removed, each row of the queue that owed one gets the mark. */
  lemma {:induction false} EraseAllMarks(e: Erasure, queue: seq<nat>, mark: RowStatus)
    requires SettledRow(mark)
    ensures var f := EraseAll(e, queue, NO_FAULTS, mark);
      && |f.rows| == |e.rows| && f.failures == e.failures
      && forall i :: 0 <= i < |e.rows| ==>
           f.rows[i] == if i in queue && Pending(e.rows[i].status) then e.rows[i].(status := mark) else e.rows[i]
    decreases |queue|
  {
    if queue != [] {
      EraseAllMarks(EraseRow(e, queue[0], NO_FAULTS, mark), queue[1..], mark);
      assert forall k :: k in queue <==> k == queue[0] || k in queue[1..];
    }
  }

  lemma {:induction false} SweepAllWorks(e: Erasure, temps: seq<Path>)
    ensures var f := SweepAll(e, temps, {}); f.rows == e.rows && f.failures == e.failures
    decreases |temps|
  {
    if temps != [] { SweepAllWorks(SweepOne(e, temps[0], {}), temps[1..]); }
  }

  /** A cleanup in which every removal works settles all rows of its run, leaves no file of it, and says so. */
  lemma CleanupWithoutFailures(s: State, r: RunId, ids: seq<nat>, temps: seq<Path>)
    requires Inv(s) && CleansUp(s, r, ids, temps)
    ensures var t := After(s, CleanupOps(s, r, ids, temps, NO_FAULTS));
      && r !in t.programs && r in t.marks && t.marks[r] == CleanedMark
      && forall i :: OfRun(t, r, i) ==> SettledRow(t.rows[i].status) && Gone(t, i)
  {
    var queue, e := CleanupQueue(s.rows, r, ids), Erasure(s.rows, s.files, 0);
    var ops := CleanupOps(s, r, ids, temps, NO_FAULTS);
    CleanupIsTheLoop(s, r, ids, temps, NO_FAULTS);
    EraseAllMarks(e, queue, Cleaned);
    SweepAllWorks(EraseAll(e, queue, NO_FAULTS, Cleaned), temps);
    CredentialTheorems.HistoryKeeps(s, ops);
    hide After, CleanupOps, CleansUp, EraseAll, SweepAll;
    var t := After(s, ops);
    assert WriteAhead(t) by { InvParts(t); }
    hide Inv;
    forall i | OfRun(t, r, i) ensures SettledRow(t.rows[i].status) && Gone(t, i) {
      assert Pending(s.rows[i].status) ==> i in queue;
      CredentialTheorems.SettledIsGone(t, i);
    }
  }

  /**
   A start-up recovery in which every removal works leaves no credential file
   at all, and blocks only those runs whose own cleanup had failed or never
   got as far as a row.
   */
  lemma RecoveryWithoutFailures(s: State)
    requires Inv(s) && s.stage == Removing(PendingRows(s.rows, None, |s.rows|))
    ensures var t := After(s, RecoveryOps(Erasure(s.rows, s.files, 0), s.stage.queue, NO_FAULTS));
      && t.stage.Replaying? && t.files == {}
      && forall r :: r in s.marks && s.marks[r] != FailedMark
                     && (s.marks[r] != PendingMark || exists row <- s.rows :: row.run == r) ==>
           MayReplay(t, r)
  {
    var queue, e := s.stage.queue, Erasure(s.rows, s.files, 0);
    PendingRowsDistinct(s.rows, None, |s.rows|);
    assert Recovering(s, e, queue) == s;
    RecoveryIsTheLoop(s, e, queue, NO_FAULTS);
    var ops := RecoveryOps(e, queue, NO_FAULTS);
    CredentialTheorems.HistoryKeeps(s, ops);
    EraseAllMarks(e, queue, RecoveryCleaned);
    hide After, RecoveryOps, EraseAll;
    var t := After(s, ops);
    hide Inv, MayReplay;
    assert forall i :: 0 <= i < |t.rows| ==> SettledRow(t.rows[i].status) && t.rows[i].run == s.rows[i].run;
    assert WriteAhead(t) by { InvParts(t); }
    hide PendingRows;
    AllSettledAllGone(t);
    forall r | r in s.marks && s.marks[r] != FailedMark
        && (s.marks[r] != PendingMark || exists row <- s.rows :: row.run == r)
      ensures MayReplay(t, r)
    {
      SettledMayReplay(s, t, r);
    }
  }

  lemma InvParts(s: State)
    requires Inv(s)
    ensures WriteAhead(s)
  {}

  lemma AllSettledAllGone(t: State)
    requires WriteAhead(t) && forall i :: 0 <= i < |t.rows| ==> SettledRow(t.rows[i].status)
    ensures t.files == {}
  {}

  lemma SettledMayReplay(s: State, t: State, r: RunId)
    requires |t.rows| == |s.rows| && t.marks == s.marks
    requires forall i :: 0 <= i < |t.rows| ==> SettledRow(t.rows[i].status) && t.rows[i].run == s.rows[i].run
    requires r in s.marks && s.marks[r] != FailedMark
        && (s.marks[r] != PendingMark || exists row <- s.rows :: row.run == r)
    ensures MayReplay(t, r)
  {
    if s.marks[r] == PendingMark {
      var row :| row in s.rows && row.run == r;
      var i :| 0 <= i < |s.rows| && s.rows[i] == row;
      assert t.rows[i] in t.rows;
    }
  }
}
