/**
 What an approval is bound to: the job's record without its moving columns,
 the records of its ancestors, and the fields of the dispatch fixed when it
 was queued. The digest of that record is taken to be injective, so two
 digests are compared by comparing the records.
 */
module ApprovalBinding {
  import opened Prelude

  type Time = nat
  /** Every column of a job that is neither named in Job nor left out of the digest. */
  type Contract = string

  /** A job; its id is its position. The field nextRunAt moves; the others do not. */
  datatype Job = Job(
    enabled: bool,
    parent: Option<nat>,
    oneShot: bool,
    approvalRequired: bool,
    contract: Contract,
    nextRunAt: Option<Time>)

  datatype Kind = Manual | Chain | Retry | Schedule | At

  datatype Origin = Origin(sourceRun: Option<nat>, retryOf: Option<nat>, replayOf: Option<nat>)

  datatype StableJob = StableJob(
    id: nat,
    enabled: bool,
    parent: Option<nat>,
    oneShot: bool,
    approvalRequired: bool,
    contract: Contract)

  datatype StableDispatch = StableDispatch(id: nat, job: nat, kind: Kind, scheduledFor: Time, origin: Origin)

  datatype Payload = Payload(job: StableJob, lineage: seq<StableJob>, dispatch: StableDispatch)

  datatype LineageError = Cycle | MissingParent(id: nat) | TooDeep

  const MAX_LINEAGE := 64

  function Stable(jobs: seq<Job>, j: nat): StableJob
    requires j < |jobs|
  {
    var job := jobs[j];
    StableJob(j, job.enabled, job.parent, job.oneShot, job.approvalRequired, job.contract)
  }

  // -- The walk through the parents --------------------------

  /** The rest of the walk, from the parent still to be visited. */
  function Walk(jobs: seq<Job>, seen: set<nat>, parent: Option<nat>, lineage: seq<nat>):
      Result<seq<nat>, LineageError>
    requires |lineage| <= MAX_LINEAGE
    decreases MAX_LINEAGE - |lineage|
  {
    match parent
    case None => Success(lineage)
    case Some(p) =>
      if p in seen then Failure(Cycle)
      else if p >= |jobs| then Failure(MissingParent(p))
      else if |lineage| == MAX_LINEAGE then Failure(TooDeep)
      else Walk(jobs, seen + {p}, jobs[p].parent, lineage + [p])
  }

  function Lineage(jobs: seq<Job>, j: nat): Result<seq<nat>, LineageError>
    requires j < |jobs|
  {
    Walk(jobs, {j}, jobs[j].parent, [])
  }

  method LoadLineage(jobs: seq<Job>, j: nat) returns (r: Result<seq<nat>, LineageError>)
    requires j < |jobs|
    ensures r == Lineage(jobs, j)
  {
    var lineage: seq<nat> := [];
    var seen: set<nat> := {j};
    var parent := jobs[j].parent;
    while parent.Some?
      invariant |lineage| <= MAX_LINEAGE
      invariant Walk(jobs, seen, parent, lineage) == Lineage(jobs, j)
      decreases MAX_LINEAGE - |lineage|
    {
      var p := parent.value;
      if p in seen { return Failure(Cycle); }
      seen := seen + {p};
      if p >= |jobs| { return Failure(MissingParent(p)); }
      if |lineage| == MAX_LINEAGE { return Failure(TooDeep); }
      lineage := lineage + [p];
      parent := jobs[p].parent;
    }
    return Success(lineage);
  }

  /** Following parents from p visits exactly the jobs of l and ends at a root. */
  predicate ParentChain(jobs: seq<Job>, p: Option<nat>, l: seq<nat>)
    decreases |l|
  {
    if p == None then l == []
    else l != [] && l[0] == p.value && p.value < |jobs| && ParentChain(jobs, jobs[p.value].parent, l[1..])
  }

  lemma {:induction false} ChainIsUnique(jobs: seq<Job>, p: Option<nat>, l: seq<nat>, m: seq<nat>)
    requires ParentChain(jobs, p, l) && ParentChain(jobs, p, m)
    ensures l == m
    decreases |l|
  {
    if p.Some? {
      ChainIsUnique(jobs, jobs[p.value].parent, l[1..], m[1..]);
      assert l == [l[0]] + l[1..] && m == [m[0]] + m[1..];
    }
  }

  lemma {:induction false} ChainSuffix(jobs: seq<Job>, p: Option<nat>, l: seq<nat>, k: nat)
    requires ParentChain(jobs, p, l) && k < |l|
    ensures l[k] < |jobs| && ParentChain(jobs, jobs[l[k]].parent, l[k + 1..])
    decreases k
  {
    if k > 0 {
      ChainSuffix(jobs, jobs[p.value].parent, l[1..], k - 1);
      assert l[1..][k..] == l[k + 1..];
    }
  }

  /** A job that is its own ancestor has no chain that ends. */
  lemma NeverItsOwnAncestor(jobs: seq<Job>, p: nat, l: seq<nat>)
    requires p < |jobs| && ParentChain(jobs, jobs[p].parent, l)
    ensures p !in l
  {
    if p in l {
      var k :| 0 <= k < |l| && l[k] == p;
      ChainSuffix(jobs, jobs[p].parent, l, k);
      ChainIsUnique(jobs, jobs[p].parent, l, l[k + 1..]);
      assert false;
    }
  }

  lemma {:induction false} WalkFollowsChain(jobs: seq<Job>, seen: set<nat>, p: Option<nat>, done: seq<nat>, l: seq<nat>)
    requires |done| + |l| <= MAX_LINEAGE && ParentChain(jobs, p, l)
    requires forall x <- l :: x !in seen
    ensures Walk(jobs, seen, p, done) == Success(done + l)
    decreases |l|
  {
    if p.Some? {
      NeverItsOwnAncestor(jobs, p.value, l[1..]);
      WalkFollowsChain(jobs, seen + {p.value}, jobs[p.value].parent, done + [p.value], l[1..]);
      assert done + [p.value] + l[1..] == done + l;
    } else {
      assert done + l == done;
    }
  }

  lemma {:induction false} WalkYieldsChain(jobs: seq<Job>, seen: set<nat>, p: Option<nat>, done: seq<nat>)
    requires |done| <= MAX_LINEAGE && Walk(jobs, seen, p, done).Success?
    ensures var l := Walk(jobs, seen, p, done).value;
            |done| <= |l| <= MAX_LINEAGE && l[..|done|] == done && ParentChain(jobs, p, l[|done|..])
    decreases MAX_LINEAGE - |done|
  {
    if p.Some? {
      WalkYieldsChain(jobs, seen + {p.value}, jobs[p.value].parent, done + [p.value]);
      var l := Walk(jobs, seen, p, done).value;
      assert done == l[..|done| + 1][..|done|] == l[..|done|];
      assert l[|done|] == (done + [p.value])[|done|];
      assert l[|done|..][1..] == l[|done| + 1..];
    }
  }

  /**
   The walk succeeds exactly for a job whose parents end at a root after at
   most 64 steps, and returns those parents in order. The set of seen jobs
   never refuses such a chain.
   */
  lemma LineageIsTheChain(jobs: seq<Job>, j: nat, l: seq<nat>)
    requires j < |jobs|
    ensures Lineage(jobs, j) == Success(l) <==> ParentChain(jobs, jobs[j].parent, l) && |l| <= MAX_LINEAGE
  {
    if ParentChain(jobs, jobs[j].parent, l) && |l| <= MAX_LINEAGE {
      NeverItsOwnAncestor(jobs, j, l);
      WalkFollowsChain(jobs, {j}, jobs[j].parent, [], l);
      assert [] + l == l;
    }
    if Lineage(jobs, j) == Success(l) {
      WalkYieldsChain(jobs, {j}, jobs[j].parent, []);
      assert l[0..] == l;
    }
  }

  // -- The bound record --------------------------------------

  function StableAll(jobs: seq<Job>, ids: seq<nat>): (r: seq<StableJob>)
    requires forall k :: 0 <= k < |ids| ==> ids[k] < |jobs|
    ensures |r| == |ids|
    ensures forall k :: 0 <= k < |ids| ==> r[k] == Stable(jobs, ids[k])
  {
    if ids == [] then [] else [Stable(jobs, ids[0])] + StableAll(jobs, ids[1..])
  }

  function Binding(jobs: seq<Job>, j: nat, dispatch: StableDispatch): Result<Payload, LineageError>
    requires j < |jobs|
  {
    match Lineage(jobs, j)
    case Failure(e) => Failure(e)
    case Success(ids) =>
      WalkInTable(jobs, j);
      Success(Payload(Stable(jobs, j), StableAll(jobs, ids), dispatch))
  }

  lemma WalkInTable(jobs: seq<Job>, j: nat)
    requires j < |jobs| && Lineage(jobs, j).Success?
    ensures var l := Lineage(jobs, j).value; forall k :: 0 <= k < |l| ==> l[k] < |jobs|
  {
    var l := Lineage(jobs, j).value;
    LineageIsTheChain(jobs, j, l);
    forall k | 0 <= k < |l| ensures l[k] < |jobs| {
      ChainSuffix(jobs, jobs[j].parent, l, k);
    }
  }

  /**
   The record separates what it covers: equal bindings mean the same job, the
   same chain of ancestors, and equal contract columns in each of them.
   */
  lemma BindingCovers(jobs: seq<Job>, later: seq<Job>, j: nat, d: StableDispatch, k: nat, e: StableDispatch)
    requires j < |jobs| && k < |later|
    requires Binding(jobs, j, d).Success? && Binding(later, k, e) == Binding(jobs, j, d)
    ensures k == j && e == d && Lineage(later, j) == Lineage(jobs, j)
    ensures forall x <- [j] + Lineage(jobs, j).value ::
              x < |jobs| && x < |later| && later[x] == jobs[x].(nextRunAt := later[x].nextRunAt)
  {
    var l, m := Lineage(jobs, j).value, Lineage(later, k).value;
    WalkInTable(jobs, j);
    WalkInTable(later, k);
    var p, q := StableAll(jobs, l), StableAll(later, m);
    assert p == q;
    assert forall i :: 0 <= i < |l| ==> p[i].id == l[i] && q[i].id == m[i];
    assert l == m;
    forall x | x in [j] + l
      ensures x < |jobs| && x < |later| && later[x] == jobs[x].(nextRunAt := later[x].nextRunAt)
    {
      if x != j {
        var i :| 0 <= i < |l| && l[i] == x;
        assert p[i] == q[i];
      }
    }
  }

  /** Jobs are added, their moving columns change, and some are disabled; nothing else. */
  predicate OnlyDisables(jobs: seq<Job>, later: seq<Job>) {
    && |jobs| <= |later|
    && forall j :: 0 <= j < |jobs| ==>
         later[j] == jobs[j].(nextRunAt := later[j].nextRunAt, enabled := later[j].enabled)
         && (later[j].enabled ==> jobs[j].enabled)
  }

  /**
   While jobs are only added or disabled, a job's binding changes exactly when
   the job or one of its ancestors is disabled.
   */
  lemma BindingByColumns(jobs: seq<Job>, later: seq<Job>, j: nat, d: StableDispatch)
    requires j < |jobs| && OnlyDisables(jobs, later) && Binding(jobs, j, d).Success?
    ensures forall x <- [j] + Lineage(jobs, j).value :: x < |jobs| && x < |later|
    ensures Binding(later, j, d) == Binding(jobs, j, d)
      <==> forall x <- [j] + Lineage(jobs, j).value :: later[x].enabled == jobs[x].enabled
  {
    WalkInTable(jobs, j);
    if Binding(later, j, d) == Binding(jobs, j, d) {
      hide Binding, Lineage, OnlyDisables;
      BindingCovers(jobs, later, j, d, j, d);
    } else {
      hide Binding, Lineage, OnlyDisables;
      if forall x <- [j] + Lineage(jobs, j).value :: x < |later| && later[x].enabled == jobs[x].enabled {
        BindingWhereSame(jobs, later, j, d);
      }
    }
  }

  lemma BindingWhereSame(jobs: seq<Job>, later: seq<Job>, j: nat, d: StableDispatch)
    requires j < |jobs| && OnlyDisables(jobs, later) && Binding(jobs, j, d).Success?
    requires forall x <- [j] + Lineage(jobs, j).value ::
      x < |jobs| && x < |later| && later[x].enabled == jobs[x].enabled
    ensures Binding(later, j, d) == Binding(jobs, j, d)
  {
    var l := Lineage(jobs, j).value;
    WalkInTable(jobs, j);
    LineageIsTheChain(jobs, j, l);
    ChainWhereSame(jobs, later, jobs[j].parent, l);
    LineageIsTheChain(later, j, l);
    assert j in [j] + l;
    forall k | 0 <= k < |l| ensures Stable(later, l[k]) == Stable(jobs, l[k]) {
      assert l[k] in [j] + l;
    }
    hide Walk, ParentChain;
    assert StableAll(later, l) == StableAll(jobs, l);
  }

  lemma {:induction false} ChainWhereSame(jobs: seq<Job>, later: seq<Job>, p: Option<nat>, l: seq<nat>)
    requires OnlyDisables(jobs, later) && ParentChain(jobs, p, l)
    ensures ParentChain(later, p, l)
    decreases |l|
  {
    if p.Some? { ChainWhereSame(jobs, later, jobs[p.value].parent, l[1..]); }
  }
}
