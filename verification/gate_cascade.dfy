/** Cancelling a job with everything below it: which jobs that reaches, and what is left of them. */
module GateCascade {
  import opened Prelude
  import opened ApprovalBinding
  import opened Gate
  import opened GateInvariants
  import opened GateSteps
  import opened GateTheorems
  import opened GateExact
  import opened GateResults

  // -- Which jobs -------------------------------------------

  /** The children of job x among the first n, in order. */
  function Children(jobs: seq<Job>, x: nat, n: nat): (r: seq<nat>)
    requires n <= |jobs|
    ensures forall k: nat :: k in r <==> k < n && jobs[k].parent == Some(x)
  {
    if n == 0 then []
    else if jobs[n - 1].parent == Some(x) then Children(jobs, x, n - 1) + [n - 1]
    else Children(jobs, x, n - 1)
  }

  /** What taking job x puts into the queue. */
  function Added(jobs: seq<Job>, x: nat, cascade: bool): seq<nat> {
    if cascade then Children(jobs, x, |jobs|) else []
  }

  /** The jobs taken from the queue, of those left; in a cascade a taken job puts its children into the queue. */
  function Collect(jobs: seq<Job>, pending: seq<nat>, left: set<nat>, cascade: bool): seq<nat>
    decreases left, |pending|
  {
    if pending == [] then []
    else
      var x := pending[0];
      if x !in left || x >= |jobs| then Collect(jobs, pending[1..], left, cascade)
      else [x] + Collect(jobs, pending[1..] + Added(jobs, x, cascade), left - {x}, cascade)
  }

  lemma CollectNone(jobs: seq<Job>, left: set<nat>, cascade: bool)
    ensures Collect(jobs, [], left, cascade) == []
  {}

  lemma CollectOne(jobs: seq<Job>, pending: seq<nat>, left: set<nat>, cascade: bool)
    requires pending != []
    ensures pending[0] !in left || pending[0] >= |jobs| ==>
      Collect(jobs, pending, left, cascade) == Collect(jobs, pending[1..], left, cascade)
    ensures pending[0] in left && pending[0] < |jobs| ==>
      Collect(jobs, pending, left, cascade)
        == [pending[0]]
           + Collect(jobs, pending[1..] + Added(jobs, pending[0], cascade), left - {pending[0]}, cascade)
  {}

  function Ids(n: nat): (r: set<nat>)
    ensures forall k: nat :: k in r <==> k < n
  {
    if n == 0 then {} else Ids(n - 1) + {n - 1}
  }

  /** The ids that are not yet seen. */
  function Unseen(n: nat, seen: set<nat>): set<nat> { Ids(n) - seen }

  lemma SeesOne(n: nat, seen: set<nat>, x: nat)
    ensures x in Unseen(n, seen) <==> x < n && x !in seen
    ensures Unseen(n, seen + {x}) == Unseen(n, seen) - {x}
  {
    hide Ids;
  }

  /** The jobs a cancellation of job j takes, in its order. */
  function Reached(jobs: seq<Job>, j: nat, cascade: bool): seq<nat> {
    Collect(jobs, [j], Ids(|jobs|), cascade)
  }

  /** Job x is j itself or lies k levels below it. */
  ghost predicate Below(jobs: seq<Job>, j: nat, x: nat, k: nat)
    decreases k
  {
    && x < |jobs|
    && if k == 0 then x == j else jobs[x].parent.Some? && Below(jobs, j, jobs[x].parent.value, k - 1)
  }

  ghost predicate Descends(jobs: seq<Job>, j: nat, x: nat) { exists k: nat :: Below(jobs, j, x, k) }

  lemma ChildDescends(jobs: seq<Job>, j: nat, x: nat, c: nat)
    requires Descends(jobs, j, x) && c < |jobs| && jobs[c].parent == Some(x)
    ensures Descends(jobs, j, c)
  {
    var k: nat :| Below(jobs, j, x, k);
    assert Below(jobs, j, c, k + 1);
  }

  ghost predicate AllDescend(jobs: seq<Job>, j: nat, js: seq<nat>) {
    forall x <- js :: x < |jobs| ==> Descends(jobs, j, x)
  }

  ghost predicate Distinct(js: seq<nat>) { forall i, k :: 0 <= i < k < |js| ==> js[i] != js[k] }

  /** Every job is taken once, and only if it descends from one in the queue. */
  lemma {:induction false} CollectsBelow(jobs: seq<Job>, pending: seq<nat>, left: set<nat>, j: nat)
    requires AllDescend(jobs, j, pending)
    ensures var r := Collect(jobs, pending, left, true);
      && Distinct(r)
      && forall x <- r :: x in left && x < |jobs| && Descends(jobs, j, x)
    decreases left, |pending|
  {
    hide Descends;
    if pending != [] {
      var x := pending[0];
      if x !in left || x >= |jobs| { CollectsBelow(jobs, pending[1..], left, j); }
      else {
        var more := Children(jobs, x, |jobs|);
        forall c | c in more ensures Descends(jobs, j, c) { ChildDescends(jobs, j, x, c); }
        CollectsBelow(jobs, pending[1..] + more, left - {x}, j);
      }
    }
  }

  /** Job c hangs below a job that is no longer among those left. */
  ghost predicate ParentTaken(jobs: seq<Job>, left: set<nat>, c: nat) {
    c < |jobs| && jobs[c].parent.Some? && jobs[c].parent.value < |jobs| && jobs[c].parent.value !in left
  }

  /** The children of a job that is no longer left are no longer left either, or queued. */
  ghost predicate Closed(jobs: seq<Job>, pending: seq<nat>, left: set<nat>) {
    forall c: nat :: ParentTaken(jobs, left, c) ==> c !in left || c in pending
  }

  function Rest(left: set<nat>, taken: seq<nat>): set<nat> { set x | x in left && x !in taken }

  /** Whatever was queued is taken, and with a job its children. */
  lemma {:induction false} CollectsAll(jobs: seq<Job>, pending: seq<nat>, left: set<nat>)
    requires Closed(jobs, pending, left)
    ensures var rest := Rest(left, Collect(jobs, pending, left, true));
      (forall x <- pending :: x < |jobs| ==> x !in rest) && Closed(jobs, [], rest)
    decreases left, |pending|
  {
    if pending == [] {
      assert Rest(left, []) == left;
    } else {
      var x := pending[0];
      assert pending == [x] + pending[1..];
      if x !in left || x >= |jobs| {
        CollectsAll(jobs, pending[1..], left);
      } else {
        var queue := pending[1..] + Children(jobs, x, |jobs|);
        assert forall c: nat :: ParentTaken(jobs, left - {x}, c) ==> ParentTaken(jobs, left, c) || c in queue;
        CollectsAll(jobs, queue, left - {x});
        var rest := Rest(left - {x}, Collect(jobs, queue, left - {x}, true));
        assert Rest(left, Collect(jobs, pending, left, true)) == rest;
      }
    }
  }

  lemma {:induction false} TakenBelow(jobs: seq<Job>, rest: set<nat>, j: nat, x: nat, k: nat)
    requires Closed(jobs, [], rest) && j !in rest && Below(jobs, j, x, k)
    ensures x !in rest
    decreases k
  {
    if k > 0 {
      TakenBelow(jobs, rest, j, jobs[x].parent.value, k - 1);
      assert ParentTaken(jobs, rest, x);
    }
  }

  /** A cascade takes exactly the job and its descendants, each once, even where parents form a cycle. */
  lemma ReachedExactly(jobs: seq<Job>, j: nat)
    requires j < |jobs|
    ensures Distinct(Reached(jobs, j, true))
    ensures forall x: nat :: x in Reached(jobs, j, true) <==> Descends(jobs, j, x)
  {
    assert Below(jobs, j, j, 0);
    var left := Ids(|jobs|);
    CollectsBelow(jobs, [j], left, j);
    CollectsAll(jobs, [j], left);
    forall x: nat | Descends(jobs, j, x) ensures x in Reached(jobs, j, true) {
      var k: nat :| Below(jobs, j, x, k);
      TakenBelow(jobs, Rest(left, Collect(jobs, [j], left, true)), j, x, k);
    }
  }

  /** Without a cascade only the job itself is taken. */
  lemma ReachedAlone(jobs: seq<Job>, j: nat)
    ensures Reached(jobs, j, false) == if j < |jobs| then [j] else []
  {
    hide Ids;
    CollectNone(jobs, Ids(|jobs|), false);
    CollectNone(jobs, Ids(|jobs|) - {j}, false);
    CollectOne(jobs, [j], Ids(|jobs|), false);
    hide Collect;
    assert [j][1..] == [] && [j][1..] + Added(jobs, j, false) == [];
  }

  // -- What becomes of them ---------------------------------

  function CancelAll(s: State, js: seq<nat>, next: Option<Time>): State
    decreases |js|
  {
    if js == [] then s else CancelAll(CancelJob(s, js[0], next), js[1..], next)
  }

  /** All in one transaction, over the jobs collected first. */
  function CancelCascade(s: State, j: nat, cascade: bool, next: Option<Time>): State {
    CancelAll(s, Reached(s.jobs, j, cascade), next)
  }

  function CancelOps(js: seq<nat>, next: Option<Time>): seq<Op> {
    seq(|js|, k requires 0 <= k < |js| => CancelJobOp(js[k], next))
  }

  /** A cascade is a history of single cancellations, so every theorem about histories covers it. */
  lemma {:induction false} CascadeIsHistory(s: State, js: seq<nat>, next: Option<Time>)
    ensures CancelAll(s, js, next) == After(s, CancelOps(js, next))
    decreases |js|
  {
    hide Step, CancelJob;
    if js != [] {
      CancelJobIsStep(s, js[0], next);
      assert CancelOps(js, next)[1..] == CancelOps(js[1..], next);
      CascadeIsHistory(CancelJob(s, js[0], next), js[1..], next);
    }
  }

  /** Job j is disabled, and none of its dispatches is open and none of its approvals active. */
  ghost predicate ShutDown(s: State, j: nat) {
    && !Enabled(s, j)
    && (forall d :: 0 <= d < |s.dispatches| && s.dispatches[d].job == j ==> !Open(s.dispatches[d].status))
    && (forall a :: 0 <= a < |s.approvals| && s.approvals[a].job == j ==> !Active(s.approvals[a].status))
  }

  /** Nothing of job j is queued, waiting for a decision or about to run; what runs has been asked to stop. */
  ghost predicate Stopped(s: State, j: nat) {
    && ShutDown(s, j)
    && (forall r :: 0 <= r < |s.runs| && s.runs[r].job == j && ActiveRun(s.runs[r].status) ==>
          s.runs[r].status.Running? && s.runs[r].cancelRequested)
  }

  /** The rows of job j are the same in s and t. */
  ghost predicate SameRows(s: State, t: State, j: nat) {
    && |t.jobs| == |s.jobs| && (j < |s.jobs| ==> t.jobs[j] == s.jobs[j])
    && |t.dispatches| == |s.dispatches| && |t.runs| == |s.runs| && |t.approvals| == |s.approvals|
    && (forall d :: 0 <= d < |s.dispatches| ==>
          && t.dispatches[d].job == s.dispatches[d].job
          && (s.dispatches[d].job == j ==> t.dispatches[d] == s.dispatches[d]))
    && (forall r :: 0 <= r < |s.runs| ==>
          t.runs[r].job == s.runs[r].job && (s.runs[r].job == j ==> t.runs[r] == s.runs[r]))
    && (forall a :: 0 <= a < |s.approvals| ==>
          t.approvals[a].job == s.approvals[a].job && (s.approvals[a].job == j ==> t.approvals[a] == s.approvals[a]))
  }

  lemma SameRowsCompose(s: State, t: State, u: State, j: nat)
    requires SameRows(s, t, j) && SameRows(t, u, j)
    ensures SameRows(s, u, j)
  {}

  lemma CancelLeaves(s: State, a: nat, next: Option<Time>, i: nat)
    requires Inv(s) && (a < |s.approvals| ==> s.approvals[a].job != i)
    ensures SameRows(s, CancelApproval(s, a, next), i)
  {
    if a < |s.approvals| {
      var ap := s.approvals[a];
      var d := ap.dispatch;
      AroundAt(s, d);
      assert ApprovalOn(s, d, a);
      assert Coupled(s, a);
      assert RunOn(s, d, ap.run);
      hide Inv, Around;
      RefusedLeaves(PutApproval(s, a, ApprovalStatus.Cancelled), ap, next, i);
      hide Refused;
    }
  }

  lemma RefusedLeaves(s: State, ap: Approval, next: Option<Time>, i: nat)
    requires ap.job != i && (ap.dispatch < |s.dispatches| ==> s.dispatches[ap.dispatch].job != i)
    requires ap.run < |s.runs| ==> s.runs[ap.run].job != i
    ensures SameRows(s, Refused(s, ap, next), i)
  {}

  lemma {:induction false} StrikeLeaves(s: State, j: nat, n: nat, i: nat)
    requires i != j
    ensures SameRows(s, StrikeForJob(s, j, n), i)
  {
    if n > 0 { StrikeLeaves(s, j, n - 1, i); }
  }

  lemma {:induction false} StopLeaves(s: State, j: nat, n: nat, i: nat)
    requires i != j
    ensures SameRows(s, StopForJob(s, j, n), i)
  {
    if n > 0 { StopLeaves(s, j, n - 1, i); }
  }

  lemma {:induction false} SweepLeaves(s: State, j: nat, next: Option<Time>, n: nat, i: nat)
    requires Inv(s) && i != j
    ensures SameRows(s, CancelForJob(s, j, next, n), i)
  {
    hide Inv, Evolved, CancelApproval, SameRows, NoneActiveFor;
    if n > 0 {
      SweepLeaves(s, j, next, n - 1, i);
      CancelForJobKeeps(s, j, next, n - 1);
      var t := CancelForJob(s, j, next, n - 1);
      if n - 1 < |t.approvals| && t.approvals[n - 1].job == j {
        CancelLeaves(t, n - 1, next, i);
        SameRowsCompose(s, t, CancelApproval(t, n - 1, next), i);
      }
    } else { assert SameRows(s, s, i) by { SameRowsStill(s, i); } }
  }

  lemma SameRowsStill(s: State, i: nat)
    ensures SameRows(s, s, i)
  {}

  /** Cancelling job j leaves the rows of every other job. */
  lemma CancelJobLeaves(s: State, j: nat, next: Option<Time>, i: nat)
    requires Inv(s) && i != j
    ensures SameRows(s, CancelJob(s, j, next), i)
  {
    if j >= |s.jobs| { SameRowsStill(s, i); } else {
      var s0 := s.(jobs := s.jobs[j := s.jobs[j].(enabled := false)]);
      JobsChangeKeeps(s, s0);
      assert SameRows(s, s0, i);
      hide Inv, Evolved, StrikeForJob, CancelForJob, StopForJob, SameRows, NoneActiveFor;
      StrikeForJobKeeps(s0, j, |s.dispatches|);
      StrikeLeaves(s0, j, |s.dispatches|, i);
      var t := StrikeForJob(s0, j, |s.dispatches|);
      SweepLeaves(t, j, next, |t.approvals|, i);
      var u := CancelForJob(t, j, next, |t.approvals|);
      StopLeaves(u, j, |u.runs|, i);
      SameRowsCompose(s, s0, t, i);
      SameRowsCompose(s, t, u, i);
      SameRowsCompose(s, u, StopForJob(u, j, |u.runs|), i);
    }
  }

  lemma {:induction false} StrikeCloses(s: State, j: nat, n: nat, d: nat)
    requires d < |s.dispatches| && s.dispatches[d].job == j
    ensures var t := StrikeForJob(s, j, n);
      && |t.dispatches| == |s.dispatches| && t.dispatches[d].job == j
      && (d < n || !Open(s.dispatches[d].status) ==> !Open(t.dispatches[d].status))
  {
    if n > 0 { StrikeCloses(s, j, n - 1, d); }
  }

  lemma {:induction false} StopsRuns(s: State, j: nat, n: nat, r: nat)
    requires r < |s.runs| && s.runs[r].job == j
    ensures var t := StopForJob(s, j, n);
      && |t.runs| == |s.runs| && t.runs[r].job == j && t.jobs == s.jobs
      && (r < n && ActiveRun(t.runs[r].status) ==> t.runs[r].status.Running? && t.runs[r].cancelRequested)
      && (r >= n ==> t.runs[r] == s.runs[r])
  {
    if n > 0 { StopsRuns(s, j, n - 1, r); }
  }

  /** Cancelling job j stops everything of it. */
  lemma CancelJobStops(s: State, j: nat, next: Option<Time>)
    requires Inv(s) && j < |s.jobs|
    ensures Stopped(CancelJob(s, j, next), j)
  {
    var s0 := s.(jobs := s.jobs[j := s.jobs[j].(enabled := false)]);
    JobsChangeKeeps(s, s0);
    hide Inv, Evolved, StrikeForJob, CancelForJob, StopForJob;
    var t := StrikeForJob(s0, j, |s.dispatches|);
    var u := CancelForJob(t, j, next, |t.approvals|);
    ShutsDown(s0, j, next);
    StopHolds(u, j, |u.runs|);
    QueueFoldsKeepJobs(u, |u.runs|, j, 0);
    StoppedRuns(u, j);
  }

  lemma ShutsDown(s: State, j: nat, next: Option<Time>)
    requires Inv(s) && j < |s.jobs| && !s.jobs[j].enabled
    ensures var t := StrikeForJob(s, j, |s.dispatches|); ShutDown(CancelForJob(t, j, next, |t.approvals|), j)
  {
    hide Inv, Evolved, StrikeForJob, CancelForJob;
    StrikeForJobKeeps(s, j, |s.dispatches|);
    QueueFoldsKeepJobs(s, |s.dispatches|, j, 0);
    var t := StrikeForJob(s, j, |s.dispatches|);
    CancelForJobKeeps(t, j, next, |t.approvals|);
    CancelForJobLength(t, j, next, |t.approvals|);
    ApprovalFoldsOnlyDisable(t, |t.approvals|, j, 0, next);
    var u := CancelForJob(t, j, next, |t.approvals|);
    SweepLeaves(t, j, next, |t.approvals|, j + 1);
    StrikeLeaves(s, j, |s.dispatches|, j + 1);
    forall d | 0 <= d < |u.dispatches| && u.dispatches[d].job == j ensures !Open(u.dispatches[d].status) {
      ClosedStays(s, t, u, j, d);
    }
  }

  lemma ClosedStays(s: State, t: State, u: State, j: nat, d: nat)
    requires d < |u.dispatches| && t == StrikeForJob(s, j, |s.dispatches|) && Evolved(t, u)
    requires SameRows(s, t, j + 1) && SameRows(t, u, j + 1) && u.dispatches[d].job == j
    ensures !Open(u.dispatches[d].status)
  {
    assert DispatchEvolved(t.dispatches[d], u.dispatches[d]);
    StrikeCloses(s, j, |s.dispatches|, d);
  }

  lemma StoppedRuns(u: State, j: nat)
    ensures var v := StopForJob(u, j, |u.runs|);
      forall r :: 0 <= r < |v.runs| && v.runs[r].job == j && ActiveRun(v.runs[r].status) ==>
        v.runs[r].status.Running? && v.runs[r].cancelRequested
  {
    var v := StopForJob(u, j, |u.runs|);
    StopLeaves(u, j, |u.runs|, j + 1);
    forall r | 0 <= r < |v.runs| && v.runs[r].job == j && ActiveRun(v.runs[r].status)
      ensures v.runs[r].status.Running? && v.runs[r].cancelRequested
    {
      StopsRuns(u, j, |u.runs|, r);
    }
  }

  lemma StoppedStays(s: State, t: State, i: nat)
    requires Stopped(s, i) && SameRows(s, t, i)
    ensures Stopped(t, i)
  {}

  lemma {:induction false} AllStop(s: State, js: seq<nat>, next: Option<Time>, i: nat)
    requires Inv(s) && forall x <- js :: x < |s.jobs|
    ensures var t := CancelAll(s, js, next);
      && Inv(t) && Evolved(s, t)
      && (i in js || Stopped(s, i) ==> Stopped(t, i))
      && (i !in js ==> SameRows(s, t, i))
    decreases |js|
  {
    hide Inv, Evolved, CancelJob, Stopped, SameRows;
    if js == [] {
      Stays(s);
      SameRowsStill(s, i);
    } else {
      var t := CancelJob(s, js[0], next);
      CancelJobKeeps(s, js[0], next);
      GrowsJobs(s, t);
      assert js[0] in js && forall x <- js[1..] :: x in js;
      AllStop(t, js[1..], next, i);
      EvolvedTransitive(s, t, CancelAll(s, js, next));
      if i == js[0] { CancelJobStops(s, i, next); } else {
        CancelJobLeaves(s, js[0], next, i);
        if Stopped(s, i) { StoppedStays(s, t, i); }
        if i !in js { SameRowsCompose(s, t, CancelAll(s, js, next), i); }
      }
    }
  }

  lemma GrowsJobs(s: State, t: State)
    requires Evolved(s, t)
    ensures |s.jobs| <= |t.jobs|
  {}

  /**
   A cascade stops the job and all its descendants, whatever their state, and
   leaves every row of every other job as it was.
   */
  lemma CascadeStopsExactly(s: State, j: nat, next: Option<Time>, i: nat)
    requires Inv(s) && j < |s.jobs|
    ensures var t := CancelCascade(s, j, true, next);
      && Inv(t) && Evolved(s, t)
      && if Descends(s.jobs, j, i) then Stopped(t, i) else SameRows(s, t, i)
  {
    ReachedExactly(s.jobs, j);
    assert forall x <- Reached(s.jobs, j, true) :: x < |s.jobs|;
    hide Inv, Evolved, Stopped, SameRows, Descends, Reached;
    AllStop(s, Reached(s.jobs, j, true), next, i);
  }
}
