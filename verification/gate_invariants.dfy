/**
 The invariant of the gate protocol. Everything it says is about the rows of
 one dispatch: the dispatch, its runs, its approvals and its worker. An
 operation on one dispatch leaves the others untouched.
 */
module GateInvariants {
  import opened Prelude
  import opened Gate

  ghost predicate RunOn(s: State, d: nat, r: int) { 0 <= r < |s.runs| && s.runs[r].dispatch == d }

  ghost predicate LiveOn(s: State, d: nat, r: int) { RunOn(s, d, r) && Live(s.runs[r].status) }

  ghost predicate ApprovalOn(s: State, d: nat, a: int) { 0 <= a < |s.approvals| && s.approvals[a].dispatch == d }

  ghost predicate ActiveOn(s: State, d: nat, a: int) { ApprovalOn(s, d, a) && Active(s.approvals[a].status) }

  ghost predicate Uses(s: State, d: nat, r: int, a: int) {
    RunOn(s, d, r) && 0 <= a && s.runs[r].approvalUsed == Some(a)
  }

  /** A row is claimed exactly when it carries a claim that can expire. */
  ghost predicate RowOk(s: State, d: nat)
    requires d < |s.dispatches|
  {
    var row := s.dispatches[d];
    && row.job < |s.jobs|
    && (row.status.Claimed? ==> row.claim.Some? && row.expires.Some?)
    && (row.status.Pending? || row.status.AwaitingApproval? ==> row.claim == None && row.expires == None)
    && (row.claim.Some? ==> row.claim.value.token < s.nextToken && row.claim.value.owner <= s.epoch)
  }

  /** Approval, gate run and dispatch agree; the version has the parity of the status. */
  ghost predicate Coupled(s: State, a: int)
    requires 0 <= a < |s.approvals|
  {
    var ap := s.approvals[a];
    && ap.run < |s.runs| && ap.dispatch < |s.dispatches|
    && s.runs[ap.run].dispatch == ap.dispatch
    && ap.job == s.dispatches[ap.dispatch].job
    && var run, row, v := s.runs[ap.run].status, s.dispatches[ap.dispatch].status, ap.version;
    match ap.status
    case Pending => run.AwaitingApproval? && (row.AwaitingApproval? || row.Cancelled?) && v == 0
    case Approved => run.Approved? && !row.AwaitingApproval? && v % 2 == 1
    case Dispatching => run.Approved? && !row.AwaitingApproval? && !row.Pending? && v % 2 == 0 && v >= 2
    case Dispatched => run.Skipped? && v % 2 == 1 && v >= 3
    case Cancelled => run.Cancelled? && !Open(row) && v >= 1
    case _ => run.Cancelled? && !Open(row) && v == 1
  }

  ghost predicate AtMostOneLive(s: State, d: nat) {
    forall r, q :: LiveOn(s, d, r) && LiveOn(s, d, q) ==> r == q
  }

  /** Behind a live run every approval is spent; its dispatch is claimed unless an operator cancelled it. */
  ghost predicate LiveExcludes(s: State, d: nat)
    requires d < |s.dispatches|
  {
    forall r :: LiveOn(s, d, r) ==>
      && (s.dispatches[d].status.Claimed? || s.dispatches[d].status.Cancelled?)
      && forall a :: ApprovalOn(s, d, a) ==> s.approvals[a].status.Dispatched?
  }

  /** Only the newest approval of a dispatch can be active. */
  ghost predicate NewestActive(s: State, d: nat) {
    forall a, b :: ActiveOn(s, d, a) && ApprovalOn(s, d, b) ==> b <= a
  }

  ghost predicate OwnGateRuns(s: State, d: nat) {
    forall a, b :: ApprovalOn(s, d, a) && ApprovalOn(s, d, b) && s.approvals[a].run == s.approvals[b].run ==> a == b
  }

  /** A spent approval is spent by one run, which is not its gate run. */
  ghost predicate UsedOnce(s: State, d: nat) {
    && (forall r, a :: Uses(s, d, r, a) ==>
          ApprovalOn(s, d, a) && s.approvals[a].status.Dispatched? && s.approvals[a].run != r)
    && (forall r, q, a :: Uses(s, d, r, a) && Uses(s, d, q, a) ==> r == q)
  }

  ghost predicate WorkerOk(s: State, d: nat)
    requires d in s.workers && d < |s.dispatches|
  {
    var w, row := s.workers[d], s.dispatches[d];
    && !row.status.AwaitingApproval?
    && w.token < s.nextToken
    && (row.status.Claimed? ==> row.claim == Some(Claim(s.epoch, w.token)))
    && (Started(w.phase) ==> RunOn(s, d, w.phase.run) && s.runs[w.phase.run].status.Running?)
    && (!Started(w.phase) ==> forall r :: RunOn(s, d, r) ==> !Live(s.runs[r].status))
    && (w.phase.Fresh? || w.phase.Ready? ==> forall a :: ActiveOn(s, d, a) ==> s.approvals[a].status.Approved?)
    && (w.phase.Ready? ==> (w.phase.bypass <==> w.phase.gate.Some?))
    && (w.phase.Ready? && w.phase.gate.None? ==> forall a :: ApprovalOn(s, d, a) ==> !Active(s.approvals[a].status))
  }

  ghost predicate Around(s: State, d: nat)
    requires d < |s.dispatches|
  {
    && RowOk(s, d)
    && AtMostOneLive(s, d)
    && LiveExcludes(s, d)
    && (forall a :: ApprovalOn(s, d, a) ==> Coupled(s, a))
    && NewestActive(s, d)
    && OwnGateRuns(s, d)
    && UsedOnce(s, d)
    && (forall r :: RunOn(s, d, r) ==> s.runs[r].job == s.dispatches[d].job)
    && (d in s.workers ==> WorkerOk(s, d))
  }

  ghost predicate Inv(s: State) {
    && (forall r :: 0 <= r < |s.runs| ==> s.runs[r].dispatch < |s.dispatches|)
    && (forall a :: 0 <= a < |s.approvals| ==> s.approvals[a].dispatch < |s.dispatches|)
    && (forall d :: d in s.workers ==> d < |s.dispatches|)
    && (forall d :: 0 <= d < |s.dispatches| ==> Around(s, d))
  }

  // -- Progress of the rows ---------------------------------

  ghost predicate Edge(p: ApprovalStatus, q: ApprovalStatus) {
    match p
    case Pending => q.Approved? || q.Rejected? || q.TimedOut? || q.Cancelled?
    case Approved => q.Dispatching? || q.Cancelled?
    case Dispatching => q.Dispatched? || q.Approved? || q.Cancelled?
    case _ => false
  }

  /** A walk of exactly k legal transitions. */
  ghost predicate Walks(p: ApprovalStatus, q: ApprovalStatus, k: nat)
    decreases k
  {
    if k == 0 then p == q else exists m :: Edge(p, m) && Walks(m, q, k - 1)
  }

  lemma {:induction false} WalksCompose(p: ApprovalStatus, m: ApprovalStatus, q: ApprovalStatus, j: nat, k: nat)
    requires Walks(p, m, j) && Walks(m, q, k)
    ensures Walks(p, q, j + k)
    decreases j
  {
    if j > 0 {
      var x :| Edge(p, x) && Walks(x, m, j - 1);
      WalksCompose(x, m, q, j - 1, k);
    }
  }

  ghost predicate ApprovalEvolved(p: Approval, q: Approval) {
    && q.job == p.job && q.run == p.run && q.dispatch == p.dispatch
    && q.kind == p.kind && q.binding == p.binding && q.scoped == p.scoped
    && q.version >= p.version
    && Walks(p.status, q.status, q.version - p.version)
  }

  ghost predicate DispatchEvolved(p: Dispatch, q: Dispatch) {
    && q.job == p.job && q.kind == p.kind && q.origin == p.origin
    && q.bindingScheduledFor == p.bindingScheduledFor
    && (!Open(p.status) ==> q.status == p.status)
    && p.attempts <= q.attempts
  }

  ghost predicate RunEvolved(p: Run, q: Run) {
    && q.job == p.job && q.dispatch == p.dispatch && q.approvalUsed == p.approvalUsed
    && (Final(p.status) ==> q.status == p.status)
    && (Waiting(p.status) && !p.status.Pending? ==> !Live(q.status))
    && (p.cancelRequested ==> q.cancelRequested)
  }

  /** Rows keep their identity, ended rows stay ended, versions count the transitions. */
  ghost predicate Evolved(s: State, t: State) {
    && |s.jobs| <= |t.jobs|
    && |s.dispatches| <= |t.dispatches|
    && |s.runs| <= |t.runs|
    && |s.approvals| <= |t.approvals|
    && s.nextToken <= t.nextToken
    && (forall d :: 0 <= d < |s.dispatches| ==> DispatchEvolved(s.dispatches[d], t.dispatches[d]))
    && (forall r :: 0 <= r < |s.runs| ==> RunEvolved(s.runs[r], t.runs[r]))
    && (forall a :: 0 <= a < |s.approvals| ==> ApprovalEvolved(s.approvals[a], t.approvals[a]))
  }

  lemma EvolvedTransitive(s: State, t: State, u: State)
    requires Evolved(s, t) && Evolved(t, u)
    ensures Evolved(s, u)
  {
    hide Walks;
    forall a | 0 <= a < |s.approvals| ensures ApprovalEvolved(s.approvals[a], u.approvals[a]) {
      var p, m, q := s.approvals[a], t.approvals[a], u.approvals[a];
      assert ApprovalEvolved(p, m) && ApprovalEvolved(m, q);
      WalksCompose(p.status, m.status, q.status, m.version - p.version, q.version - m.version);
    }
    forall d | 0 <= d < |s.dispatches| ensures DispatchEvolved(s.dispatches[d], u.dispatches[d]) {
      assert DispatchEvolved(s.dispatches[d], t.dispatches[d]) && DispatchEvolved(t.dispatches[d], u.dispatches[d]);
    }
    forall r | 0 <= r < |s.runs| ensures RunEvolved(s.runs[r], u.runs[r]) {
      assert RunEvolved(s.runs[r], t.runs[r]) && RunEvolved(t.runs[r], u.runs[r]);
    }
  }

  lemma OneEdge(p: ApprovalStatus, q: ApprovalStatus)
    requires Edge(p, q)
    ensures Walks(p, q, 1)
  {
    assert Walks(q, q, 0);
  }

  // -- Frames -----------------------------------------------

  /** Nothing of dispatch d differs between s and t. */
  ghost predicate Untouched(s: State, t: State, d: nat)
    requires d < |s.dispatches|
  {
    && |s.jobs| <= |t.jobs|
    && s.nextToken <= t.nextToken && s.epoch == t.epoch
    && d < |t.dispatches| && t.dispatches[d] == s.dispatches[d]
    && |s.runs| <= |t.runs| && |s.approvals| <= |t.approvals|
    && (forall r :: 0 <= r < |s.runs| && (s.runs[r].dispatch == d || t.runs[r].dispatch == d) ==>
          t.runs[r] == s.runs[r])
    && (forall r :: |s.runs| <= r < |t.runs| ==> t.runs[r].dispatch != d)
    && (forall a :: 0 <= a < |s.approvals| && (s.approvals[a].dispatch == d || t.approvals[a].dispatch == d) ==>
          t.approvals[a] == s.approvals[a])
    && (forall a :: |s.approvals| <= a < |t.approvals| ==> t.approvals[a].dispatch != d)
    && (d in t.workers <==> d in s.workers)
    && (d in s.workers ==> t.workers[d] == s.workers[d])
  }

  lemma Frame(s: State, t: State, d: nat)
    requires d < |s.dispatches| && Around(s, d) && Untouched(s, t, d)
    ensures Around(t, d)
  {
    assert forall r :: RunOn(t, d, r) ==> RunOn(s, d, r) && t.runs[r] == s.runs[r];
    assert forall a :: ApprovalOn(t, d, a) ==> ApprovalOn(s, d, a) && t.approvals[a] == s.approvals[a];
    assert forall r :: LiveOn(t, d, r) ==> LiveOn(s, d, r);
    assert forall a :: ActiveOn(t, d, a) ==> ActiveOn(s, d, a);
    assert forall r, a :: Uses(t, d, r, a) ==> Uses(s, d, r, a);
    assert AtMostOneLive(t, d);
    assert NewestActive(t, d);
    forall a | ApprovalOn(t, d, a) ensures Coupled(t, a) {
      assert Coupled(s, a);
    }
    assert OwnGateRuns(t, d);
    assert UsedOnce(t, d);
  }

  /** t differs from s only in the rows of dispatch d. */
  ghost predicate OnlyAt(s: State, t: State, d: nat)
    requires d < |s.dispatches|
  {
    && |s.jobs| <= |t.jobs|
    && s.nextToken <= t.nextToken && s.epoch == t.epoch
    && |t.dispatches| == |s.dispatches|
    && (forall e :: 0 <= e < |s.dispatches| && e != d ==> t.dispatches[e] == s.dispatches[e])
    && |s.runs| <= |t.runs| && |s.approvals| <= |t.approvals|
    && (forall r :: 0 <= r < |s.runs| ==>
          t.runs[r].dispatch == s.runs[r].dispatch && (s.runs[r].dispatch != d ==> t.runs[r] == s.runs[r]))
    && (forall r :: |s.runs| <= r < |t.runs| ==> t.runs[r].dispatch == d)
    && (forall a :: 0 <= a < |s.approvals| ==>
          t.approvals[a].dispatch == s.approvals[a].dispatch
          && (s.approvals[a].dispatch != d ==> t.approvals[a] == s.approvals[a]))
    && (forall a :: |s.approvals| <= a < |t.approvals| ==> t.approvals[a].dispatch == d)
    && t.workers - {d} == s.workers - {d}
  }

  lemma OnlyAtKeeps(s: State, t: State, d: nat)
    requires Inv(s) && d < |s.dispatches| && OnlyAt(s, t, d) && Around(t, d)
    ensures Inv(t)
  {
    hide Around;
    assert forall e :: e != d ==>
      (e in t.workers <==> e in t.workers - {d}) && (e in s.workers <==> e in s.workers - {d});
    forall e | 0 <= e < |t.dispatches| ensures Around(t, e) {
      if e != d {
        assert forall r :: 0 <= r < |s.runs| && (s.runs[r].dispatch == e || t.runs[r].dispatch == e) ==>
          t.runs[r] == s.runs[r];
        assert e in s.workers ==> s.workers[e] == (s.workers - {d})[e] == (t.workers - {d})[e] == t.workers[e];
        Frame(s, t, e);
      }
    }
    forall r | 0 <= r < |t.runs| ensures t.runs[r].dispatch < |t.dispatches| {
      if r < |s.runs| { assert s.runs[r].dispatch < |s.dispatches|; }
    }
    forall a | 0 <= a < |t.approvals| ensures t.approvals[a].dispatch < |t.dispatches| {
      if a < |s.approvals| { assert s.approvals[a].dispatch < |s.dispatches|; }
    }
  }

  // -- Kinds of change at one dispatch ----------------------

  ghost predicate NoLiveOn(s: State, d: nat) { forall r :: RunOn(s, d, r) ==> !Live(s.runs[r].status) }

  ghost predicate NoActiveOn(s: State, d: nat) { forall a :: ApprovalOn(s, d, a) ==> !Active(s.approvals[a].status) }

  /** Only the row of dispatch d and the worker on it change. */
  ghost predicate RowMoves(s: State, t: State, d: nat)
    requires d < |s.dispatches|
  {
    && |t.jobs| == |s.jobs| && t.runs == s.runs && t.approvals == s.approvals
    && t.epoch == s.epoch && s.nextToken <= t.nextToken
    && |t.dispatches| == |s.dispatches| && t.dispatches == s.dispatches[d := t.dispatches[d]]
    && DispatchEvolved(s.dispatches[d], t.dispatches[d])
    && t.workers - {d} == s.workers - {d}
  }

  /** What the approvals of d allow its row to become. */
  ghost predicate RowFits(s: State, row: Dispatch, d: nat) {
    forall a :: ApprovalOn(s, d, a) ==>
      match s.approvals[a].status
      case Pending => row.status.AwaitingApproval? || row.status.Cancelled?
      case Approved => !row.status.AwaitingApproval?
      case Dispatching => !row.status.AwaitingApproval? && !row.status.Pending?
      case Dispatched => true
      case _ => !Open(row.status)
  }

  lemma RowMovesKeeps(s: State, t: State, d: nat)
    requires Inv(s) && d < |s.dispatches| && RowMoves(s, t, d)
    requires RowOk(t, d) && RowFits(s, t.dispatches[d], d)
    requires NoLiveOn(s, d) || t.dispatches[d].status.Claimed? || t.dispatches[d].status.Cancelled?
    requires d in t.workers ==> WorkerOk(t, d)
    ensures Inv(t) && Evolved(s, t)
  {
    assert Around(s, d);
    assert Around(t, d) by {
      hide WorkerOk, RowOk;
      assert forall r :: RunOn(t, d, r) <==> RunOn(s, d, r);
      assert forall a :: ApprovalOn(t, d, a) <==> ApprovalOn(s, d, a);
      assert forall r :: LiveOn(t, d, r) <==> LiveOn(s, d, r);
      assert forall a :: ActiveOn(t, d, a) <==> ActiveOn(s, d, a);
      assert forall r, a :: Uses(t, d, r, a) <==> Uses(s, d, r, a);
      forall a | ApprovalOn(t, d, a) ensures Coupled(t, a) {
        assert Coupled(s, a);
      }
      assert NewestActive(t, d);
      assert OwnGateRuns(t, d);
      assert UsedOnce(t, d);
    }
    OnlyAtKeeps(s, t, d);
    forall a | 0 <= a < |s.approvals| ensures ApprovalEvolved(s.approvals[a], t.approvals[a]) {
      assert Walks(s.approvals[a].status, s.approvals[a].status, 0);
    }
  }

  /** Active approval a of d moves along an edge, its gate run and the row of d with it. */
  ghost predicate ApprovalMoves(s: State, t: State, d: nat, a: nat)
    requires d < |s.dispatches|
  {
    && ActiveOn(s, d, a)
    && |t.jobs| == |s.jobs| && t.epoch == s.epoch && s.nextToken <= t.nextToken
    && |t.dispatches| == |s.dispatches| && t.dispatches == s.dispatches[d := t.dispatches[d]]
    && DispatchEvolved(s.dispatches[d], t.dispatches[d])
    && |t.runs| == |s.runs| && |t.approvals| == |s.approvals|
    && var p, q := s.approvals[a], t.approvals[a];
    && t.approvals == s.approvals[a := q] && q == p.(status := q.status, version := p.version + 1)
    && Edge(p.status, q.status)
    && p.run < |s.runs|
    && t.runs == s.runs[p.run := s.runs[p.run].(status := t.runs[p.run].status)]
    && !Live(t.runs[p.run].status)
    && t.workers - {d} == s.workers - {d}
  }

  lemma ApprovalMovesKeeps(s: State, t: State, d: nat, a: nat)
    requires Inv(s) && d < |s.dispatches| && ApprovalMoves(s, t, d, a)
    requires RowOk(t, d) && Coupled(t, a)
    requires d in t.workers ==> WorkerOk(t, d)
    ensures Inv(t) && Evolved(s, t)
  {
    assert Around(s, d);
    assert Coupled(s, a);
    ApprovalMovesAround(s, t, d, a);
    OnlyAtKeeps(s, t, d);
    OneEdge(s.approvals[a].status, t.approvals[a].status);
    forall b | 0 <= b < |s.approvals| ensures ApprovalEvolved(s.approvals[b], t.approvals[b]) {
      assert Walks(s.approvals[b].status, s.approvals[b].status, 0);
    }
  }

  lemma ApprovalMovesAround(s: State, t: State, d: nat, a: nat)
    requires d < |s.dispatches| && Around(s, d) && ApprovalMoves(s, t, d, a)
    requires RowOk(t, d) && Coupled(t, a)
    requires d in t.workers ==> WorkerOk(t, d)
    ensures Around(t, d)
  {
    hide WorkerOk, RowOk;
    assert Coupled(s, a);
    assert forall r :: RunOn(t, d, r) <==> RunOn(s, d, r);
    assert forall b :: ApprovalOn(t, d, b) <==> ApprovalOn(s, d, b);
    assert forall r :: LiveOn(t, d, r) ==> LiveOn(s, d, r);
    assert forall b :: ActiveOn(t, d, b) ==> ActiveOn(s, d, b);
    assert forall r, b :: Uses(t, d, r, b) <==> Uses(s, d, r, b);
    forall b | ApprovalOn(t, d, b) ensures Coupled(t, b) {
      if b != a {
        assert Coupled(s, b);
        assert !ActiveOn(s, d, b);
      }
    }
    assert forall b | ApprovalOn(t, d, b) :: t.approvals[b].run == s.approvals[b].run;
    assert NewestActive(t, d);
    assert OwnGateRuns(t, d);
    assert UsedOnce(t, d) by {
      forall r, b | Uses(t, d, r, b) ensures t.approvals[b].status.Dispatched? && t.approvals[b].run != r {
        assert Uses(s, d, r, b);
        assert b != a;
      }
    }
    assert AtMostOneLive(t, d);
    assert LiveExcludes(t, d);
  }

  /** Run r of d ends or is flagged, and the row of d moves with it. */
  ghost predicate RunMoves(s: State, t: State, d: nat, r: nat)
    requires d < |s.dispatches|
  {
    && RunOn(s, d, r)
    && |t.jobs| == |s.jobs| && t.epoch == s.epoch && t.nextToken == s.nextToken
    && t.approvals == s.approvals
    && |t.dispatches| == |s.dispatches| && t.dispatches == s.dispatches[d := t.dispatches[d]]
    && DispatchEvolved(s.dispatches[d], t.dispatches[d])
    && |t.runs| == |s.runs| && t.runs == s.runs[r := t.runs[r]]
    && RunEvolved(s.runs[r], t.runs[r])
    && (t.runs[r].status != s.runs[r].status ==>
          && ActiveRun(s.runs[r].status) && Final(t.runs[r].status)
          && forall a :: ActiveOn(s, d, a) ==> s.approvals[a].run != r)
    && t.workers - {d} == s.workers - {d}
  }

  lemma RunMovesKeeps(s: State, t: State, d: nat, r: nat)
    requires Inv(s) && d < |s.dispatches| && RunMoves(s, t, d, r)
    requires RowOk(t, d) && RowFits(s, t.dispatches[d], d)
    requires NoLiveOn(t, d) || t.dispatches[d].status.Claimed? || t.dispatches[d].status.Cancelled?
    requires d in t.workers ==> WorkerOk(t, d)
    ensures Inv(t) && Evolved(s, t)
  {
    assert Around(s, d);
    assert Around(t, d) by {
      hide WorkerOk, RowOk;
      assert forall q :: RunOn(t, d, q) <==> RunOn(s, d, q);
      assert forall a :: ApprovalOn(t, d, a) <==> ApprovalOn(s, d, a);
      assert forall q :: LiveOn(t, d, q) ==> LiveOn(s, d, q);
      assert forall a :: ActiveOn(t, d, a) <==> ActiveOn(s, d, a);
      assert forall q, a :: Uses(t, d, q, a) <==> Uses(s, d, q, a);
      forall a | ApprovalOn(t, d, a) ensures Coupled(t, a) {
        assert Coupled(s, a);
      }
      assert NewestActive(t, d);
      assert OwnGateRuns(t, d);
      assert UsedOnce(t, d);
      assert AtMostOneLive(t, d);
      assert LiveExcludes(t, d);
    }
    OnlyAtKeeps(s, t, d);
    forall a | 0 <= a < |s.approvals| ensures ApprovalEvolved(s.approvals[a], t.approvals[a]) {
      assert Walks(s.approvals[a].status, s.approvals[a].status, 0);
    }
  }

  /** A new approval with gate run r, new or until now running, parks dispatch d. */
  ghost predicate GateOpens(s: State, t: State, d: nat, r: nat)
    requires d < |s.dispatches|
  {
    && t.jobs == s.jobs && t.epoch == s.epoch && t.nextToken == s.nextToken
    && |t.approvals| == |s.approvals| + 1 && t.approvals[..|s.approvals|] == s.approvals
    && var ap := t.approvals[|s.approvals|];
    && ap.job == s.dispatches[d].job && ap.run == r && ap.dispatch == d && ap.status.Pending? && ap.version == 0
    && |s.runs| <= |t.runs| && r < |t.runs|
    && t.runs[r].status.AwaitingApproval? && t.runs[r].dispatch == d && t.runs[r].job == s.dispatches[d].job
    && (if r < |s.runs| then t.runs == s.runs[r := t.runs[r]] && LiveOn(s, d, r) && RunEvolved(s.runs[r], t.runs[r])
        else r == |s.runs| && t.runs == s.runs + [t.runs[r]] && NoLiveOn(s, d) && t.runs[r].approvalUsed == None)
    && NoActiveOn(s, d)
    && |t.dispatches| == |s.dispatches| && t.dispatches == s.dispatches[d := t.dispatches[d]]
    && (if s.dispatches[d].status.Claimed?
        then t.dispatches[d] == Unclaimed(s.dispatches[d], DispatchStatus.AwaitingApproval)
        else s.dispatches[d].status.Cancelled? && t.dispatches[d] == s.dispatches[d])
    && t.workers == s.workers - {d}
  }

  lemma GateOpensKeeps(s: State, t: State, d: nat, r: nat)
    requires Inv(s) && d < |s.dispatches| && GateOpens(s, t, d, r)
    ensures Inv(t) && Evolved(s, t)
  {
    assert Around(s, d);
    assert forall a :: 0 <= a < |s.approvals| ==> t.approvals[a] == t.approvals[..|s.approvals|][a];
    assert forall q :: 0 <= q < |s.runs| && q != r ==> t.runs[q] == s.runs[q];
    GateOpensAround(s, t, d, r);
    OnlyAtKeeps(s, t, d);
    forall a | 0 <= a < |s.approvals| ensures ApprovalEvolved(s.approvals[a], t.approvals[a]) {
      assert Walks(s.approvals[a].status, s.approvals[a].status, 0);
    }
  }

  lemma GateOpensAround(s: State, t: State, d: nat, r: nat)
    requires d < |s.dispatches| && Around(s, d) && GateOpens(s, t, d, r)
    requires forall a :: 0 <= a < |s.approvals| ==> t.approvals[a] == s.approvals[a]
    requires forall q :: 0 <= q < |s.runs| && q != r ==> t.runs[q] == s.runs[q]
    ensures Around(t, d)
  {
    hide WorkerOk;
    var n := |s.approvals|;
    assert forall q :: RunOn(t, d, q) ==> RunOn(s, d, q) || q == r;
    assert forall a :: ApprovalOn(t, d, a) ==> ApprovalOn(s, d, a) || a == n;
    assert forall q :: LiveOn(t, d, q) ==> LiveOn(s, d, q) && q != r;
    assert NoLiveOn(t, d) by {
      forall q | RunOn(t, d, q) ensures !Live(t.runs[q].status) {
        if q != r && r < |s.runs| { assert RunOn(s, d, q); assert LiveOn(s, d, r); assert LiveOn(s, d, q) ==> q == r; }
      }
    }
    forall a | ApprovalOn(s, d, a) ensures s.approvals[a].run != r && s.approvals[a].run < |s.runs| && Coupled(t, a) {
      assert Coupled(s, a);
    }
    assert forall a :: ActiveOn(t, d, a) ==> a == n;
    forall a | ApprovalOn(t, d, a) ensures Coupled(t, a) {
      if a < n { assert ApprovalOn(s, d, a); }
    }
    assert OwnGateRuns(t, d);
    assert forall q, a :: Uses(t, d, q, a) ==> Uses(s, d, q, a);
    assert UsedOnce(t, d);
    assert NewestActive(t, d);
  }

  /** The worker on d creates its execution run, spending approval `used` if there is one. */
  ghost predicate ExecutionStarts(s: State, t: State, d: nat, used: Option<nat>)
    requires d < |s.dispatches|
  {
    && t == AddRun(s, d, RunStatus.Running, used).(workers := t.workers)
    && t.workers - {d} == s.workers - {d}
    && s.dispatches[d].status.Claimed?
    && NoLiveOn(s, d) && NoActiveOn(s, d)
    && (used.Some? ==>
          && ApprovalOn(s, d, used.value) && s.approvals[used.value].status.Dispatched?
          && forall q :: RunOn(s, d, q) ==> s.runs[q].approvalUsed != used)
  }

  lemma ExecutionStartsKeeps(s: State, t: State, d: nat, used: Option<nat>)
    requires Inv(s) && d < |s.dispatches| && ExecutionStarts(s, t, d, used)
    requires d in t.workers ==> WorkerOk(t, d)
    ensures Inv(t) && Evolved(s, t)
  {
    assert Around(s, d);
    assert forall q :: 0 <= q < |s.runs| ==> t.runs[q] == s.runs[q];
    ExecutionStartsAround(s, t, d, used);
    OnlyAtKeeps(s, t, d);
    forall a | 0 <= a < |s.approvals| ensures ApprovalEvolved(s.approvals[a], t.approvals[a]) {
      assert Walks(s.approvals[a].status, s.approvals[a].status, 0);
    }
  }

  lemma ExecutionStartsAround(s: State, t: State, d: nat, used: Option<nat>)
    requires d < |s.dispatches| && Around(s, d) && ExecutionStarts(s, t, d, used)
    requires forall q :: 0 <= q < |s.runs| ==> t.runs[q] == s.runs[q]
    requires d in t.workers ==> WorkerOk(t, d)
    ensures Around(t, d)
  {
    hide WorkerOk, Coupled;
    var n := |s.runs|;
    assert forall q :: RunOn(t, d, q) ==> RunOn(s, d, q) || q == n;
    assert forall a :: ApprovalOn(t, d, a) <==> ApprovalOn(s, d, a);
    assert forall q :: LiveOn(t, d, q) ==> q == n;
    assert forall a :: ActiveOn(t, d, a) <==> ActiveOn(s, d, a);
    forall a | ApprovalOn(t, d, a)
      ensures Coupled(t, a) && t.approvals[a].run < n && t.approvals[a].status.Dispatched?
    {
      CoupledIgnoresNewRuns(s, t, d, a);
    }
    assert forall q, a :: Uses(t, d, q, a) ==> Uses(s, d, q, a) || (q == n && used == Some(a));
    assert UsedOnce(t, d);
    assert NewestActive(t, d);
    assert OwnGateRuns(t, d);
    assert AtMostOneLive(t, d);
    assert LiveExcludes(t, d);
  }

  lemma CoupledIgnoresNewRuns(s: State, t: State, d: nat, a: nat)
    requires a < |s.approvals| && Coupled(s, a)
    requires t.approvals == s.approvals && t.dispatches == s.dispatches && |s.runs| <= |t.runs|
    requires forall q :: 0 <= q < |s.runs| ==> t.runs[q] == s.runs[q]
    ensures Coupled(t, a) && t.approvals[a].run < |s.runs|
    ensures Open(s.dispatches[s.approvals[a].dispatch].status) && !Active(s.approvals[a].status) ==>
      s.approvals[a].status.Dispatched?
  {}
}
