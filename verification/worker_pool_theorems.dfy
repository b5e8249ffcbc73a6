/** What the worker pool keeps, and when a draining stop can end. */
module WorkerPoolTheorems {
  import opened Prelude
  import opened WorkerPool

  /** The invariant before the waiters of an idle pool are told. */
  ghost predicate Loose(p: Pool) {
    && KeysOk(p) && Fifo(p) && Accounted(p)
    && 1 <= p.concurrency <= p.limit && |p.active| <= p.concurrency && |p.pending| + |p.active| <= p.limit
    && (p.leaseLost ==> p.pending == [])
  }

  lemma FillOne(p: Pool)
    requires Loose(p) && |p.active| < p.concurrency && p.pending != [] && !p.leaseLost
    ensures var q := p.(pending := p.pending[1..], active := p.active[p.pending[0].key := p.pending[0].task],
                        begun := p.begun + [p.pending[0].task]);
      Loose(q)
  {
    hide KeysOk, Fifo, Accounted;
    var head := p.pending[0];
    var q := p.(pending := p.pending[1..], active := p.active[head.key := head.task], begun := p.begun + [head.task]);
    FillOneKeys(p, q);
    FillOneFifo(p, q);
    FillOneAccounted(p, q);
    FillOneSize(p);
  }

  lemma FillOneSize(p: Pool)
    requires p.pending != []
    ensures |p.active[p.pending[0].key := p.pending[0].task]| <= |p.active| + 1
  {
    var m := p.active[p.pending[0].key := p.pending[0].task];
    assert m.Keys == p.active.Keys + {p.pending[0].key};
    MapSize(m);
    MapSize(p.active);
  }

  lemma FillOneFifo(p: Pool, q: Pool)
    requires Fifo(p) && p.pending != []
    requires q == p.(pending := p.pending[1..], active := q.active, begun := p.begun + [p.pending[0].task])
    ensures Fifo(q)
  {
    assert p.begun + Numbers(p.pending) == q.begun + Numbers(q.pending);
  }

  lemma MapSize(m: map<Key, nat>)
    ensures |m| == |m.Keys|
  {}

  lemma KeysOfCons(item: Item, items: seq<Item>)
    ensures KeysOf([item] + items) == {item.key} + KeysOf(items)
  {
    var all := [item] + items;
    assert all[0] == item;
    forall k | k in KeysOf(items) ensures k in KeysOf(all) {
      var i :| 0 <= i < |items| && items[i].key == k;
      assert all[i + 1].key == k;
    }
    forall k | k in KeysOf(all) ensures k in {item.key} + KeysOf(items) {
      var i :| 0 <= i < |all| && all[i].key == k;
      if i > 0 { assert items[i - 1].key == k; }
    }
  }

  lemma FillOneKeys(p: Pool, q: Pool)
    requires KeysOk(p) && p.pending != []
    requires q == p.(pending := p.pending[1..], active := p.active[p.pending[0].key := p.pending[0].task],
                     begun := q.begun)
    ensures KeysOk(q)
  {
    assert p.pending == [p.pending[0]] + q.pending;
    KeysOfCons(p.pending[0], q.pending);
    hide KeysOf;
    assert q.active.Keys == p.active.Keys + {p.pending[0].key};
  }

  lemma FillOneAccounted(p: Pool, q: Pool)
    requires Accounted(p) && KeysOk(p) && Fifo(p) && p.pending != []
    requires q == p.(pending := p.pending[1..], active := p.active[p.pending[0].key := p.pending[0].task],
                     begun := p.begun + [p.pending[0].task])
    ensures Accounted(q)
  {
    var head := p.pending[0];
    assert p.pending == [head] + q.pending;
    assert Queued(p, head.task);
    QueuedOnce(p);
    assert forall n :: Queued(p, n) <==> n == head.task || Queued(q, n) by {
      forall n | Queued(p, n) ensures n == head.task || Queued(q, n) {
        var i :| 0 <= i < |p.pending| && p.pending[i].task == n;
        if i > 0 { assert q.pending[i - 1].task == n; }
      }
      forall n | Queued(q, n) ensures Queued(p, n) {
        var i :| 0 <= i < |q.pending| && q.pending[i].task == n;
        assert p.pending[i + 1].task == n;
      }
    }
    forall i | 0 <= i < |q.pending| ensures q.pending[i].task != head.task {
      assert q.pending[i] == p.pending[i + 1];
    }
    assert forall n :: n in q.begun <==> n in p.begun || n == head.task;
    assert head.task !in p.begun;
    assert forall k :: k in p.active ==> k != head.key && p.active[k] != head.task by {
      forall k | k in p.active ensures k != head.key && p.active[k] != head.task {
        assert Running(p, p.active[k]);
      }
    }
    assert forall n :: Running(q, n) <==> Running(p, n) || n == head.task by {
      assert q.active[head.key] == head.task;
      forall n | Running(p, n) ensures Running(q, n) {
        var k :| k in p.active && p.active[k] == n;
        assert k in q.active && q.active[k] == n;
      }
    }
  }

  /** A queued task has one place in the queue and has not begun. */
  lemma QueuedOnce(p: Pool)
    requires Fifo(p)
    ensures forall i, j :: 0 <= i < |p.pending| && 0 <= j < |p.pending| && p.pending[i].task == p.pending[j].task ==>
      i == j
    ensures forall n :: Queued(p, n) ==> n !in p.begun
  {
    var all := p.begun + Numbers(p.pending);
    forall i, j | 0 <= i < j < |p.pending| ensures p.pending[i].task < p.pending[j].task {
      assert all[|p.begun| + i] < all[|p.begun| + j];
    }
    forall n | Queued(p, n) ensures n !in p.begun {
      var i :| 0 <= i < |p.pending| && p.pending[i].task == n;
      forall j | 0 <= j < |p.begun| ensures p.begun[j] < n {
        assert all[j] < all[|p.begun| + i];
      }
    }
  }

  lemma {:induction false} FillKeeps(p: Pool)
    requires Loose(p) && !p.leaseLost
    ensures var q := Fill(p);
      && Loose(q) && (q.pending == [] || |q.active| == q.concurrency)
      && q == p.(pending := q.pending, active := q.active, begun := q.begun)
      && (Idle(q) <==> Idle(p)) && p.begun <= q.begun
    decreases |p.pending|
  {
    hide Loose;
    if |p.active| < p.concurrency && p.pending != [] {
      FillOne(p);
      var q := p.(pending := p.pending[1..], active := p.active[p.pending[0].key := p.pending[0].task],
                  begun := p.begun + [p.pending[0].task]);
      FillKeeps(q);
      assert p.pending[0].key in q.active;
    } else {
      assert |p.active| <= p.concurrency by { LooseBound(p); }
    }
  }

  lemma LooseBound(p: Pool)
    requires Loose(p)
    ensures |p.active| <= p.concurrency
  {}

  lemma NotifyKeeps(p: Pool)
    requires Loose(p)
    ensures Inv(NotifyIdle(p)) && (Busy(p) ==> Busy(NotifyIdle(p)))
  {
    SameRowsSameInv(p, NotifyIdle(p));
    hide KeysOk, Fifo, Accounted;
  }

  lemma SameRowsSameInv(p: Pool, q: Pool)
    requires q == p.(waiters := q.waiters, lease := q.lease, accepting := q.accepting, leaseLost := q.leaseLost)
    ensures KeysOk(p) == KeysOk(q) && Fifo(p) == Fifo(q) && Accounted(p) == Accounted(q)
  {
    assert forall n :: Queued(p, n) <==> Queued(q, n);
    assert forall n :: Running(p, n) <==> Running(q, n);
  }

  lemma RunNextKeeps(p: Pool)
    requires Loose(p)
    ensures var q := RunNext(p); Loose(q) && Busy(q) && (p.accepting && !p.leaseLost ==> Inv(q))
  {
    if p.accepting && !p.leaseLost {
      FillKeeps(p);
      NotifyKeeps(Fill(p));
      hide Fill, KeysOk, Fifo, Accounted;
      assert Loose(RunNext(p));
    }
  }

  lemma DropKeeps(p: Pool)
    requires Loose(p)
    ensures Loose(DropPending(p))
  {
    DropKeys(p);
    DropFifo(p);
    DropAccounted(p);
    hide KeysOk, Fifo, Accounted;
  }

  lemma DropKeys(p: Pool)
    requires KeysOk(p)
    ensures KeysOk(DropPending(p))
  {
    forall k | k in p.active ensures k !in KeysOf(p.pending) {
      assert forall i :: 0 <= i < |p.pending| ==> p.pending[i].key != k;
    }
    assert DropPending(p).keys == p.active.Keys;
  }

  lemma DropFifo(p: Pool)
    requires Fifo(p)
    ensures Fifo(DropPending(p))
  {
    var q, all := DropPending(p), p.begun + Numbers(p.pending);
    assert q.begun + Numbers(q.pending) == p.begun == all[..|p.begun|];
    assert forall n :: n in p.begun ==> n in all;
  }

  lemma DropAccounted(p: Pool)
    requires Accounted(p) && Fifo(p)
    ensures Accounted(DropPending(p))
  {
    var q := DropPending(p);
    QueuedOnce(p);
    hide Fifo;
    assert forall n :: Queued(p, n) <==> n in TasksOf(p.pending);
    assert forall n :: !Queued(q, n);
    assert forall n :: Running(p, n) <==> Running(q, n);
  }

  lemma SubmitKeeps(p: Pool, key: Key)
    requires Inv(p)
    ensures Inv(Submit(p, key)) && (Accepts(p, key) ==> Busy(Submit(p, key)))
  {
    if Accepts(p, key) {
      EnqueueKeeps(p, key);
      hide Inv, Loose, Queue, RunNext;
      RunNextKeeps(Queue(p, key));
      assert Queue(p, key).accepting && !Queue(p, key).leaseLost by { QueueStays(p, key); }
    }
  }

  lemma QueueStays(p: Pool, key: Key)
    ensures Queue(p, key).accepting == p.accepting && Queue(p, key).leaseLost == p.leaseLost
  {}

  lemma EnqueueKeeps(p: Pool, key: Key)
    requires Inv(p) && Accepts(p, key)
    ensures Loose(Queue(p, key))
  {
    hide KeysOk, Fifo, Accounted;
    var q := Queue(p, key);
    EnqueueKeys(p, q, key);
    EnqueueFifo(p, q, key);
    EnqueueAccounted(p, q, key);
  }

  lemma EnqueueKeys(p: Pool, q: Pool, key: Key)
    requires KeysOk(p) && key !in p.keys
    requires q == p.(keys := p.keys + {key}, pending := p.pending + [Item(key, p.accepted)], accepted := p.accepted + 1)
    ensures KeysOk(q)
  {
    KeysOfAppend(p.pending, Item(key, p.accepted));
    assert forall i :: 0 <= i < |p.pending| ==> p.pending[i].key in KeysOf(p.pending) && q.pending[i] == p.pending[i];
    hide KeysOf;
  }

  lemma EnqueueFifo(p: Pool, q: Pool, key: Key)
    requires Fifo(p)
    requires q == p.(keys := q.keys, pending := p.pending + [Item(key, p.accepted)], accepted := p.accepted + 1)
    ensures Fifo(q)
  {
    var all := p.begun + Numbers(p.pending);
    assert q.begun + Numbers(q.pending) == all + [p.accepted];
    assert forall i :: 0 <= i < |all| ==> all[i] in all;
  }

  lemma EnqueueAccounted(p: Pool, q: Pool, key: Key)
    requires Accounted(p)
    requires q == p.(keys := q.keys, pending := p.pending + [Item(key, p.accepted)], accepted := p.accepted + 1)
    ensures Accounted(q)
  {
    var n := |p.pending|;
    forall m ensures Queued(q, m) <==> Queued(p, m) || m == p.accepted {
      if Queued(p, m) {
        var i :| 0 <= i < n && p.pending[i].task == m;
        assert q.pending[i].task == m;
      }
      assert q.pending[n].task == p.accepted;
    }
    assert forall m :: Running(q, m) <==> Running(p, m);
  }

  lemma FinishKeeps(p: Pool, key: Key)
    requires Inv(p)
    ensures Inv(Finish(p, key)) && (key in p.active ==> Busy(Finish(p, key)))
  {
    if key in p.active {
      EndKeeps(p, key);
      hide Inv, Loose, Remove, RunNext, NotifyIdle;
      RunNextKeeps(Remove(p, key));
      NotifyKeeps(RunNext(Remove(p, key)));
    }
  }

  lemma EndKeeps(p: Pool, key: Key)
    requires Inv(p) && key in p.active
    ensures Loose(Remove(p, key))
  {
    var q := Remove(p, key);
    assert q.active.Keys == p.active.Keys - {key};
    MapSize(p.active);
    MapSize(q.active);
    EndKeys(p, q, key);
    EndAccounted(p, q, key);
    assert Fifo(q);
    hide KeysOk, Fifo, Accounted;
  }

  lemma EndKeys(p: Pool, q: Pool, key: Key)
    requires KeysOk(p) && key in p.active
    requires q == p.(active := p.active - {key}, keys := p.keys - {key}, finished := q.finished)
    ensures KeysOk(q)
  {
    assert key !in KeysOf(p.pending) by {
      assert forall i :: 0 <= i < |p.pending| ==> p.pending[i].key != key;
    }
    assert q.active.Keys == p.active.Keys - {key};
    assert q.keys == KeysOf(q.pending) + q.active.Keys;
  }

  lemma EndAccounted(p: Pool, q: Pool, key: Key)
    requires Accounted(p) && key in p.active
    requires q == p.(active := p.active - {key}, keys := q.keys, finished := p.finished + {p.active[key]})
    ensures Accounted(q)
  {
    assert forall m :: Queued(q, m) <==> Queued(p, m);
    assert Running(p, p.active[key]);
    assert forall m :: Running(q, m) <==> Running(p, m) && m != p.active[key] by {
      forall m | Running(p, m) && m != p.active[key] ensures Running(q, m) {
        var k :| k in p.active && p.active[k] == m;
        assert k in q.active;
      }
    }
  }

  lemma StepKeeps(p: Pool, op: Op)
    requires Inv(p)
    ensures Inv(Step(p, op))
  {
    match op
    case SubmitOp(key) => SubmitKeeps(p, key);
    case FinishOp(key) => FinishKeeps(p, key);
    case ConfirmOp(renewed) => ConfirmKeeps(p, renewed);
    case StopOp(drain) => StopKeeps(p, drain);
    case StartOp(acquired) => SameRowsSameInv(p, Step(p, op)); hide KeysOk, Fifo, Accounted;
    case WaitOp => WaitKeeps(p, Caller);
  }

  lemma WaitKeeps(p: Pool, w: Waiter)
    requires Inv(p)
    ensures Inv(Wait(p, w))
  {
    var q := p.(waiters := p.waiters + [w]);
    SameRowsSameInv(p, q);
    hide KeysOk, Fifo, Accounted;
    NotifyKeeps(q);
  }

  lemma ConfirmKeeps(p: Pool, renewed: Option<nat>)
    requires Inv(p)
    ensures Inv(Confirm(p, renewed))
  {
    hide KeysOk, Fifo, Accounted;
    if p.lease.Some? && !p.leaseLost {
      if renewed.None? { LoseKeeps(p); } else { SameRowsSameInv(p, p.(lease := renewed)); }
    }
  }

  lemma LoseKeeps(p: Pool)
    requires Inv(p)
    ensures Inv(LoseLease(p))
  {
    hide KeysOk, Fifo, Accounted;
    var q := DropPending(p);
    DropKeeps(p);
    var r := q.(accepting := false, leaseLost := true);
    assert DropPending(p.(accepting := false, leaseLost := true)) == r;
    SameRowsSameInv(q, r);
    NotifyKeeps(r);
  }

  lemma StopKeeps(p: Pool, drain: bool)
    requires Inv(p)
    ensures Inv(Stop(p, drain))
  {
    hide KeysOk, Fifo, Accounted;
    if drain {
      var q := p.(accepting := false);
      SameRowsSameInv(p, q);
      WaitKeeps(q, Drain);
    } else {
      var q := DropPending(p);
      DropKeeps(p);
      var r := q.(accepting := false, lease := None);
      assert DropPending(p.(accepting := false)).(lease := None) == r;
      SameRowsSameInv(q, r);
      NotifyKeeps(r);
    }
  }

  /** Any sequence of starts, submissions, ends, lease changes, waits and stops. */
  lemma {:induction false} HistoryKeeps(p: Pool, ops: seq<Op>)
    requires Inv(p)
    ensures Inv(After(p, ops))
    decreases |ops|
  {
    hide Inv, Step;
    if ops != [] {
      StepKeeps(p, ops[0]);
      HistoryKeeps(Step(p, ops[0]), ops[1..]);
    }
  }

  lemma FreshInv(concurrency: nat, limit: nat)
    requires 1 <= concurrency <= limit
    ensures Inv(Fresh(concurrency, limit))
  {
    var p := Fresh(concurrency, limit);
    assert p.begun + Numbers(p.pending) == [];
    assert forall n :: !Queued(p, n) && !Running(p, n);
  }

  // -- Results ----------------------------------------------

  /** Tasks start in the order in which they were accepted, and each at most once. */
  lemma StartsInOrder(concurrency: nat, limit: nat, ops: seq<Op>)
    requires 1 <= concurrency <= limit
    ensures var p := After(Fresh(concurrency, limit), ops);
      Increasing(p.begun) && forall n, i :: n in p.begun && 0 <= i < |p.pending| ==> n < p.pending[i].task
  {
    hide After, Inv;
    FreshInv(concurrency, limit);
    HistoryKeeps(Fresh(concurrency, limit), ops);
    InOrder(After(Fresh(concurrency, limit), ops));
  }

  lemma InOrder(p: Pool)
    requires Inv(p)
    ensures Increasing(p.begun) && forall n, i :: n in p.begun && 0 <= i < |p.pending| ==> n < p.pending[i].task
  {
    hide KeysOk, Accounted;
    var all := p.begun + Numbers(p.pending);
    forall i, j | 0 <= i < j < |p.begun| ensures p.begun[i] < p.begun[j] {
      assert all[i] < all[j];
    }
    forall n, i | n in p.begun && 0 <= i < |p.pending| ensures n < p.pending[i].task {
      var k :| 0 <= k < |p.begun| && p.begun[k] == n;
      assert all[k] < all[|p.begun| + i];
    }
  }

  /** Only a lost lease and a stop that does not drain drop a task. */
  lemma DropsOnlyThen(p: Pool, op: Op)
    requires op != StopOp(false) && op != ConfirmOp(None)
    ensures Step(p, op).dropped == p.dropped
  {
    if op.SubmitOp? { FillKeepsDropped(Queue(p, op.key)); }
    if op.FinishOp? && op.key in p.active { FillKeepsDropped(Remove(p, op.key)); }
  }

  lemma {:induction false} FillKeepsDropped(p: Pool)
    ensures var q := Fill(p);
      q == p.(pending := q.pending, active := q.active, begun := q.begun)
    decreases |p.pending|
  {
    if |p.active| < p.concurrency && p.pending != [] {
      FillKeepsDropped(p.(pending := p.pending[1..], active := p.active[p.pending[0].key := p.pending[0].task],
                          begun := p.begun + [p.pending[0].task]));
    }
  }

  // -- Free workers and waiting tasks -----------------------

  /** A start that takes over queued tasks and has workers for them. */
  predicate StartsIdle(p: Pool, op: Op) {
    op.StartOp? && op.acquired.Some? && p.lease.None? && p.pending != [] && |p.active| < p.concurrency
  }

  /** A start is the only step that can leave a pool with waiting tasks and free workers. */
  lemma BusyExactly(p: Pool, op: Op)
    requires Inv(p) && Busy(p)
    ensures Busy(Step(p, op)) <==> !StartsIdle(p, op)
  {
    hide KeysOk, Fifo, Accounted, Submit, Finish;
    match op
    case SubmitOp(key) => SubmitKeeps(p, key); SubmitTidy(p, key);
    case FinishOp(key) => FinishKeeps(p, key); FinishTidy(p, key);
    case _ =>
  }

  /** A start that finds a draining stop still waiting for an earlier life of the pool. */
  predicate StartsOverDrain(p: Pool, op: Op) {
    op.StartOp? && op.acquired.Some? && p.lease.None? && Drain in p.waiters
  }

  /** Without such an overlap nothing is left over for a start to find. */
  lemma TidyUnlessOverlapped(p: Pool, op: Op)
    requires Inv(p) && Tidy(p) && !StartsOverDrain(p, op)
    ensures Tidy(Step(p, op))
  {
    hide Inv, Submit, Finish;
    match op
    case SubmitOp(key) => SubmitTidy(p, key);
    case FinishOp(key) => FinishTidy(p, key);
    case _ =>
  }

  lemma SubmitTidy(p: Pool, key: Key)
    ensures Tidy(p) ==> Tidy(Submit(p, key))
    ensures !Accepts(p, key) ==> Submit(p, key) == p
  {
    FillKeepsDropped(Queue(p, key));
    hide Fill;
  }

  lemma FinishTidy(p: Pool, key: Key)
    ensures Tidy(p) ==> Tidy(Finish(p, key))
    ensures key !in p.active ==> Finish(p, key) == p
  {
    if key in p.active { FillKeepsDropped(Remove(p, key)); }
    hide Fill;
  }

  ghost predicate NeverOverlaps(p: Pool, ops: seq<Op>)
    decreases |ops|
  {
    ops != [] ==> !StartsOverDrain(p, ops[0]) && NeverOverlaps(Step(p, ops[0]), ops[1..])
  }

  /** Over any history without an overlap, a pool that accepts tasks runs as many as it may. */
  lemma BusyThroughout(concurrency: nat, limit: nat, ops: seq<Op>)
    requires 1 <= concurrency <= limit && NeverOverlaps(Fresh(concurrency, limit), ops)
    ensures Busy(After(Fresh(concurrency, limit), ops))
  {
    FreshInv(concurrency, limit);
    BusyHistory(Fresh(concurrency, limit), ops);
  }

  lemma {:induction false} BusyHistory(p: Pool, ops: seq<Op>)
    requires Inv(p) && Busy(p) && Tidy(p) && NeverOverlaps(p, ops)
    ensures Inv(After(p, ops)) && Busy(After(p, ops)) && Tidy(After(p, ops))
    decreases |ops|
  {
    if ops != [] {
      StepKeeps(p, ops[0]);
      TidyUnlessOverlapped(p, ops[0]);
      BusyExactly(p, ops[0]);
      TidyStartsBusy(p, ops[0]);
      hide Inv, Busy, Tidy, Step, StartsOverDrain, StartsIdle;
      BusyHistory(Step(p, ops[0]), ops[1..]);
    }
  }

  lemma TidyStartsBusy(p: Pool, op: Op)
    requires Tidy(p)
    ensures !StartsIdle(p, op)
  {}

  lemma {:induction false} AfterConcat(p: Pool, a: seq<Op>, b: seq<Op>)
    ensures After(p, a + b) == After(After(p, a), b)
    decreases |a|
  {
    hide Step;
    if a == [] { assert a + b == b; } else {
      assert (a + b)[0] == a[0] && (a + b)[1..] == a[1..] + b;
      AfterConcat(Step(p, a[0]), a[1..], b);
    }
  }

  lemma AfterOne(p: Pool, op: Op)
    ensures After(p, [op]) == Step(p, op)
    ensures op.SubmitOp? ==> After(p, [op]) == Submit(p, op.key)
    ensures op.FinishOp? ==> After(p, [op]) == Finish(p, op.key)
    ensures op.StopOp? ==> After(p, [op]) == Stop(p, op.drain)
    ensures op.StartOp? ==> After(p, [op]) == Start(p, op.acquired)
  {
    hide Start, Confirm, Submit, Finish, Wait, Stop;
    assert [op][1..] == [];
    assert After(Step(p, op), []) == Step(p, op);
  }

  /** A pool that accepts tasks and that nobody waits on. */
  predicate Steady(p: Pool) { p.accepting && !p.leaseLost && p.waiters == [] }

  /** ... although its lease is gone. */
  predicate Leaseless(p: Pool) { Steady(p) && p.lease == None }

  lemma SomethingRuns(p: Pool)
    requires Inv(p) && Busy(p) && p.accepting && !p.leaseLost && p.waiters != []
    ensures p.active != map[]
  {
    hide KeysOk, Fifo, Accounted;
    MapSize(p.active);
  }

  /** Finishing its tasks robs a pool on which an old draining stop still waits of its lease. */
  lemma {:induction false} OldStopRobs(p: Pool) returns (ops: seq<Op>)
    requires Inv(p) && Busy(p) && p.accepting && !p.leaseLost && Drain in p.waiters
    ensures var q := After(p, ops);
      Inv(q) && Leaseless(q) && Idle(q) && q.concurrency == p.concurrency && q.limit == p.limit
    decreases |p.pending| + |p.active|
  {
    hide Inv, Busy, Finish;
    SomethingRuns(p);
    var key :| key in p.active;
    var q := Finish(p, key);
    FinishKeeps(p, key);
    FinishShrinks(p, key);
    AfterOne(p, FinishOp(key));
    hide After, Step;
    if Idle(q) {
      ops := [FinishOp(key)];
    } else {
      var rest := OldStopRobs(q);
      ops := [FinishOp(key)] + rest;
      AfterConcat(p, [FinishOp(key)], rest);
    }
  }

  /** One task fewer; the old stop is told once nothing is left. */
  lemma FinishShrinks(p: Pool, key: Key)
    requires Inv(p) && key in p.active && p.accepting && !p.leaseLost && Drain in p.waiters
    ensures var q := Finish(p, key);
      && |q.pending| + |q.active| < |p.pending| + |p.active|
      && q.accepting && !q.leaseLost && q.concurrency == p.concurrency && q.limit == p.limit
      && (if Idle(q) then q.waiters == [] && q.lease == None else Drain in q.waiters)
  {
    var r := Remove(p, key);
    assert r.active.Keys == p.active.Keys - {key};
    MapSize(r.active);
    MapSize(p.active);
    EndKeeps(p, key);
    FillKeeps(r);
    FillSize(r);
    hide Fill, Inv, Loose;
  }

  lemma {:induction false} FillSize(p: Pool)
    ensures var q := Fill(p); |q.pending| + |q.active| <= |p.pending| + |p.active|
    decreases |p.pending|
  {
    if |p.active| < p.concurrency && p.pending != [] {
      FillOneSize(p);
      FillSize(p.(pending := p.pending[1..], active := p.active[p.pending[0].key := p.pending[0].task],
                  begun := p.begun + [p.pending[0].task]));
    }
  }

  /** Some key is longer than all of a finite set. */
  lemma {:induction false} LongerKey(keys: set<Key>) returns (key: Key)
    ensures key !in keys && forall k <- keys :: |k| < |key|
    decreases |keys|
  {
    if keys == {} { key := ""; } else {
      var k :| k in keys;
      var rest := LongerKey(keys - {k});
      key := rest + k + "a";
      forall x | x in keys ensures |x| < |key| {
        if x != k { assert x in keys - {k}; }
      }
    }
  }

  lemma SubmitToFree(p: Pool, key: Key)
    requires Accepts(p, key) && p.pending == [] && |p.active| < p.concurrency && key !in p.active
    ensures Submit(p, key)
         == p.(keys := p.keys + {key}, accepted := p.accepted + 1,
               active := p.active[key := p.accepted], begun := p.begun + [p.accepted])
    ensures |Submit(p, key).active| == |p.active| + 1
  {
    var q := Queue(p, key);
    var r := q.(pending := [], active := p.active[key := p.accepted], begun := p.begun + [p.accepted]);
    assert r.active.Keys == p.active.Keys + {key};
    MapSize(r.active);
    MapSize(p.active);
    assert q.pending[1..] == [];
    assert Fill(q) == Fill(r) == r;
    assert key in r.active;
  }

  lemma SubmitToFull(p: Pool, key: Key)
    requires Accepts(p, key) && p.pending == [] && |p.active| == p.concurrency
    ensures Submit(p, key)
         == NotifyIdle(p.(keys := p.keys + {key}, accepted := p.accepted + 1, pending := [Item(key, p.accepted)]))
  {
    assert Fill(Queue(p, key)) == Queue(p, key);
    assert p.pending + [Item(key, p.accepted)] == [Item(key, p.accepted)];
  }

  /** A steady pool takes one more task: into a free worker, or into the queue. */
  lemma TakesOne(p: Pool) returns (key: Key)
    requires Inv(p) && Steady(p) && p.pending == [] && p.concurrency < p.limit
    ensures var q := After(p, [SubmitOp(key)]);
      && Inv(q) && Steady(q) && q.lease == p.lease && q.concurrency == p.concurrency && q.limit == p.limit
      && (if |p.active| < p.concurrency then q.pending == [] && |q.active| == |p.active| + 1
          else q.pending != [] && |q.active| == q.concurrency)
  {
    hide After, Step, Fill;
    key := LongerKey(p.keys);
    SubmitKeeps(p, key);
    AfterOne(p, SubmitOp(key));
    assert key !in p.active;
    if |p.active| < p.concurrency { SubmitToFree(p, key); } else { SubmitToFull(p, key); }
    hide Inv, Submit;
  }

  /** It does so until all its workers are busy and one task waits. */
  lemma {:induction false} FillsUp(p: Pool) returns (ops: seq<Op>)
    requires Inv(p) && Steady(p) && p.pending == [] && p.concurrency < p.limit
    ensures var q := After(p, ops);
      Inv(q) && Steady(q) && q.lease == p.lease && q.pending != [] && |q.active| == q.concurrency
    decreases p.concurrency - |p.active|
  {
    hide Inv, Steady, After;
    var key := TakesOne(p);
    if |p.active| < p.concurrency {
      var rest := FillsUp(After(p, [SubmitOp(key)]));
      ops := [SubmitOp(key)] + rest;
      AfterConcat(p, [SubmitOp(key)], rest);
    } else {
      ops := [SubmitOp(key)];
    }
  }

  /** Full, with a task waiting and no lease: stop, let one task end, start again. */
  lemma StopsAndStalls(p: Pool, key: Key)
    requires Leaseless(p)
    requires p.pending != [] && |p.active| == p.concurrency && key in p.active
    ensures !Busy(After(p, [StopOp(true), FinishOp(key), StartOp(Some(0))]))
  {
    hide After, Step, Fill;
    var p1 := p.(accepting := false, waiters := [Drain]);
    assert Stop(p, true) == p1;
    var p2 := Remove(p1, key);
    assert Finish(p1, key) == p2;
    var p3 := p2.(lease := Some(0), accepting := true, leaseLost := false);
    assert Start(p2, Some(0)) == p3;
    RemoveFrees(p1, key);
    assert !Busy(p3);
    hide Stop, Finish, Start, Remove;
    AfterOne(p, StopOp(true));
    AfterOne(p1, FinishOp(key));
    AfterOne(p2, StartOp(Some(0)));
    AfterConcat(p1, [FinishOp(key)], [StartOp(Some(0))]);
    AfterConcat(p, [StopOp(true)], [FinishOp(key)] + [StartOp(Some(0))]);
    assert [StopOp(true), FinishOp(key), StartOp(Some(0))] == [StopOp(true)] + ([FinishOp(key)] + [StartOp(Some(0))]);
  }

  lemma RemoveFrees(p: Pool, key: Key)
    requires key in p.active
    ensures |Remove(p, key).active| < |p.active|
  {
    assert Remove(p, key).active.Keys == p.active.Keys - {key};
    MapSize(p.active);
    MapSize(Remove(p, key).active);
  }

  lemma QueuelessStep(p: Pool, op: Op)
    requires Inv(p) && p.concurrency == p.limit && p.pending == []
    ensures var q := Step(p, op); q.pending == [] && q.concurrency == q.limit && Busy(q)
  {
    if op.SubmitOp? && Accepts(p, op.key) {
      SubmitToFree(p, op.key);
    }
  }

  /** A pool that may run all it accepts never has a task waiting, overlaps or not. */
  lemma {:induction false} NoQueueNoStall(p: Pool, ops: seq<Op>)
    requires Inv(p) && p.concurrency == p.limit && p.pending == []
    ensures After(p, ops).pending == [] && Busy(After(p, ops))
    decreases |ops|
  {
    if ops != [] {
      StepKeeps(p, ops[0]);
      QueuelessStep(p, ops[0]);
      hide Inv, Busy, Step;
      NoQueueNoStall(Step(p, ops[0]), ops[1..]);
    }
  }

  /**
   Every such overlap can stall: if the pool may queue at all, some history
   after it leaves a task waiting beside a free worker while the pool accepts.
   */
  lemma EveryOverlapCanStall(p: Pool, op: Op) returns (ops: seq<Op>)
    requires Inv(p) && StartsOverDrain(p, op) && p.concurrency < p.limit
    ensures !Busy(After(Step(p, op), ops))
  {
    var q := Step(p, op);
    StepKeeps(p, op);
    if !Busy(q) {
      ops := [];
    } else {
      var robs := OldStopRobs(q);
      var r := After(q, robs);
      var fills := FillsUp(r);
      var full := After(r, fills);
      assert full.active != map[];
      var key :| key in full.active;
      hide Inv, Busy, Step;
      var last := [StopOp(true), FinishOp(key), StartOp(Some(0))];
      StopsAndStalls(full, key);
      AfterConcat(q, robs, fills);
      AfterConcat(q, robs + fills, last);
      ops := robs + fills + last;
    }
  }

  const OVERLAP: seq<Op> := [StartOp(Some(1)), SubmitOp("a"), StopOp(true), StopOp(false), StartOp(Some(2))]

  /** Overlaps happen: stop draining, stop at once, and start again before the last task ends. */
  lemma OverlapsHappen(concurrency: nat, limit: nat)
    requires 1 <= concurrency <= limit
    ensures !NeverOverlaps(Fresh(concurrency, limit), OVERLAP)
  {
    var p0 := Fresh(concurrency, limit);
    var p1 := Step(p0, OVERLAP[0]);
    SubmitToFree(p1, "a");
    var p2 := Step(p1, OVERLAP[1]);
    hide Submit;
    var p3 := Step(p2, OVERLAP[2]);
    var p4 := Step(p3, OVERLAP[3]);
    assert "a" in p2.active;
    assert p4.lease == None && p4.waiters == [Drain];
    assert StartsOverDrain(p4, OVERLAP[4]);
    hide Step, StartsOverDrain;
    assert OVERLAP[1..][1..] == OVERLAP[2..] && OVERLAP[2..][1..] == OVERLAP[3..] && OVERLAP[3..][1..] == OVERLAP[4..];
    assert !NeverOverlaps(p4, OVERLAP[4..]);
    assert !NeverOverlaps(p3, OVERLAP[3..]);
    assert !NeverOverlaps(p2, OVERLAP[2..]);
    assert !NeverOverlaps(p1, OVERLAP[1..]);
  }

  // -- Draining ---------------------------------------------

  /** Steps that neither drop tasks nor start the pool anew. */
  predicate Quiet(op: Op) { op != StopOp(false) && op != ConfirmOp(None) && !op.StartOp? }

  /** A draining stop is waiting for the queue `left`, or has ended because nothing was left. */
  ghost predicate Draining(p: Pool, left: seq<Item>) {
    && !p.accepting && p.pending == left
    && (if Idle(p) then p.lease == None && p.waiters == [] else p.lease.Some? && Drain in p.waiters)
  }

  lemma DrainStep(p: Pool, op: Op, left: seq<Item>)
    requires Draining(p, left) && Quiet(op)
    ensures Draining(Step(p, op), left)
  {}

  /**
   A draining stop ends exactly when no task is queued or running. Queued tasks
   are no longer started, so with any of them it never ends, whatever finishes.
   */
  lemma {:induction false} DrainEndsIffNothingQueued(p: Pool, ops: seq<Op>)
    requires p.lease.Some? && forall op <- ops :: Quiet(op)
    ensures var t := After(Stop(p, true), ops);
      && t.pending == p.pending
      && (t.lease == None <==> p.pending == [] && t.active == map[])
  {
    DrainHistory(Stop(p, true), ops, p.pending);
  }

  /**
   Such pools exist: one that may queue at all can be filled so that a draining
   stop never gives up its lease, whatever finishes.
   */
  lemma DrainCanHang(concurrency: nat, limit: nat) returns (ops: seq<Op>)
    requires 1 <= concurrency < limit
    ensures var p := After(Fresh(concurrency, limit), ops);
      && p.pending != []
      && forall later :: (forall op <- later :: Quiet(op)) ==> After(Stop(p, true), later).lease.Some?
  {
    var p0 := Fresh(concurrency, limit);
    var p1 := Step(p0, StartOp(Some(1)));
    FreshInv(concurrency, limit);
    StepKeeps(p0, StartOp(Some(1)));
    AfterOne(p0, StartOp(Some(1)));
    assert p1 == p0.(lease := Some(1), accepting := true);
    var fills := FillsUp(p1);
    hide Inv, Step, Stop, Start;
    AfterConcat(p0, [StartOp(Some(1))], fills);
    ops := [StartOp(Some(1))] + fills;
    var p := After(p0, ops);
    assert p == After(p1, fills);
    forall later | forall op <- later :: Quiet(op) ensures After(Stop(p, true), later).lease.Some? {
      DrainEndsIffNothingQueued(p, later);
    }
  }

  lemma {:induction false} DrainHistory(p: Pool, ops: seq<Op>, left: seq<Item>)
    requires Draining(p, left) && forall op <- ops :: Quiet(op)
    ensures Draining(After(p, ops), left)
    decreases |ops|
  {
    if ops != [] {
      DrainStep(p, ops[0], left);
      hide Step, Draining;
      DrainHistory(Step(p, ops[0]), ops[1..], left);
    }
  }
}
