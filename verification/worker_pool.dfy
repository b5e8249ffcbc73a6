/**
 The bounded worker pool of one dispatcher: a queue, the running tasks, the
 set of their keys, callers that wait until it is idle, and the lease.
 Tasks are numbered in the order in which they are accepted.
 */
module WorkerPool {
  import opened Prelude

  type Key = string

  datatype Item = Item(key: Key, task: nat)

  /** Someone who waits until the pool is idle: a caller, or a draining stop. */
  datatype Waiter = Caller | Drain

  datatype Pool = Pool(
    concurrency: nat,
    limit: nat,
    pending: seq<Item>,
    active: map<Key, nat>,
    keys: set<Key>,
    waiters: seq<Waiter>,
    lease: Option<nat>,
    accepting: bool,
    leaseLost: bool,
    accepted: nat,
    begun: seq<nat>,
    finished: set<nat>,
    dropped: set<nat>)

  predicate Idle(p: Pool) { p.pending == [] && p.active == map[] }

  /** An idle pool tells everyone who waits; a draining stop then gives up the lease. */
  function NotifyIdle(p: Pool): Pool {
    if Idle(p) then p.(waiters := [], lease := if Drain in p.waiters then None else p.lease) else p
  }

  function KeysOf(items: seq<Item>): (keys: set<Key>)
    ensures forall k :: k in keys <==> exists i :: 0 <= i < |items| && items[i].key == k
  {
    set i | 0 <= i < |items| :: items[i].key
  }

  lemma KeysOfAppend(items: seq<Item>, item: Item)
    ensures KeysOf(items + [item]) == KeysOf(items) + {item.key}
  {
    var all := items + [item];
    assert all[|items|] == item;
    forall k | k in KeysOf(items) ensures k in KeysOf(all) {
      var i :| 0 <= i < |items| && items[i].key == k;
      assert all[i].key == k;
    }
  }

  function TasksOf(items: seq<Item>): (tasks: set<nat>)
    ensures forall n :: n in tasks <==> exists i :: 0 <= i < |items| && items[i].task == n
  {
    set i | 0 <= i < |items| :: items[i].task
  }

  /** Starts queued tasks while there is room. */
  function Fill(p: Pool): Pool
    decreases |p.pending|
  {
    if |p.active| < p.concurrency && p.pending != [] then
      Fill(p.(pending := p.pending[1..], active := p.active[p.pending[0].key := p.pending[0].task],
              begun := p.begun + [p.pending[0].task]))
    else p
  }

  function RunNext(p: Pool): Pool {
    if !p.accepting || p.leaseLost then p else NotifyIdle(Fill(p))
  }

  function DropPending(p: Pool): Pool {
    p.(pending := [], keys := p.keys - KeysOf(p.pending), dropped := p.dropped + TasksOf(p.pending))
  }

  function LoseLease(p: Pool): Pool {
    if p.leaseLost then p
    else NotifyIdle(DropPending(p.(accepting := false, leaseLost := true)))
  }

  function Start(p: Pool, acquired: Option<nat>): Pool {
    if p.lease.Some? then p
    else if acquired.None? then p
    else p.(lease := acquired, accepting := true, leaseLost := false)
  }

  /** A renewal or a check of the lease; None when the lease turns out to be lost. */
  function Confirm(p: Pool, renewed: Option<nat>): Pool {
    if p.lease.None? || p.leaseLost then p
    else if renewed.None? then LoseLease(p)
    else p.(lease := renewed)
  }

  predicate Accepts(p: Pool, key: Key) {
    p.accepting && !p.leaseLost && key !in p.keys && |p.pending| + |p.active| < p.limit
  }

  function Queue(p: Pool, key: Key): Pool {
    p.(keys := p.keys + {key}, pending := p.pending + [Item(key, p.accepted)], accepted := p.accepted + 1)
  }

  function Submit(p: Pool, key: Key): Pool {
    if Accepts(p, key) then RunNext(Queue(p, key)) else p
  }

  function Remove(p: Pool, key: Key): Pool
    requires key in p.active
  {
    p.(active := p.active - {key}, keys := p.keys - {key}, finished := p.finished + {p.active[key]})
  }

  /** A task ends, well or badly. */
  function Finish(p: Pool, key: Key): Pool {
    if key in p.active then NotifyIdle(RunNext(Remove(p, key))) else p
  }

  function Wait(p: Pool, w: Waiter): Pool {
    NotifyIdle(p.(waiters := p.waiters + [w]))
  }

  function Stop(p: Pool, drain: bool): Pool {
    var q := p.(accepting := false);
    if drain then Wait(q, Drain) else NotifyIdle(DropPending(q).(lease := None))
  }

  datatype Op =
    | StartOp(acquired: Option<nat>)
    | ConfirmOp(renewed: Option<nat>)
    | SubmitOp(key: Key)
    | FinishOp(key: Key)
    | WaitOp
    | StopOp(drain: bool)

  function Step(p: Pool, op: Op): Pool {
    match op
    case StartOp(acquired) => Start(p, acquired)
    case ConfirmOp(renewed) => Confirm(p, renewed)
    case SubmitOp(key) => Submit(p, key)
    case FinishOp(key) => Finish(p, key)
    case WaitOp => Wait(p, Caller)
    case StopOp(drain) => Stop(p, drain)
  }

  function After(p: Pool, ops: seq<Op>): Pool
    decreases |ops|
  {
    if ops == [] then p else After(Step(p, ops[0]), ops[1..])
  }

  function Fresh(concurrency: nat, limit: nat): Pool {
    Pool(concurrency, limit, [], map[], {}, [], None, false, false, 0, [], {}, {})
  }

  // -- The invariant ----------------------------------------

  ghost predicate KeysOk(p: Pool) {
    && (forall i, j :: 0 <= i < j < |p.pending| ==> p.pending[i].key != p.pending[j].key)
    && (forall i :: 0 <= i < |p.pending| ==> p.pending[i].key !in p.active)
    && p.keys == KeysOf(p.pending) + p.active.Keys
  }

  predicate Increasing(s: seq<nat>) { forall i, j :: 0 <= i < j < |s| ==> s[i] < s[j] }

  function Numbers(items: seq<Item>): (r: seq<nat>)
    ensures |r| == |items| && forall i :: 0 <= i < |items| ==> r[i] == items[i].task
  {
    seq(|items|, i requires 0 <= i < |items| => items[i].task)
  }

  /** Task n is, in this order of preference, queued, running, finished or dropped. */
  ghost predicate Queued(p: Pool, n: int) { exists i :: 0 <= i < |p.pending| && p.pending[i].task == n }
  ghost predicate Running(p: Pool, n: int) { exists k :: k in p.active && p.active[k] == n }

  /** Started tasks, then queued ones, in the order of acceptance. */
  ghost predicate Fifo(p: Pool) {
    && Increasing(p.begun + Numbers(p.pending))
    && (forall n <- p.begun + Numbers(p.pending) :: n < p.accepted)
  }

  /** Every accepted task is in exactly one place. */
  ghost predicate Accounted(p: Pool) {
    && (forall k, l :: k in p.active && l in p.active && p.active[k] == p.active[l] ==> k == l)
    && (forall n :: 0 <= n < p.accepted <==> Queued(p, n) || n in p.begun || n in p.dropped)
    && (forall n :: n in p.begun <==> Running(p, n) || n in p.finished)
    && (forall n :: Running(p, n) ==> n !in p.finished)
    && (forall n :: n in p.dropped ==> !Queued(p, n) && n !in p.begun)
  }

  ghost predicate Sizes(p: Pool) {
    && 1 <= p.concurrency <= p.limit && |p.active| <= p.concurrency && |p.pending| + |p.active| <= p.limit
    && (p.leaseLost ==> p.pending == [])
    && (p.waiters != [] ==> !Idle(p))
  }

  ghost predicate Inv(p: Pool) { KeysOk(p) && Fifo(p) && Accounted(p) && Sizes(p) }

  /** While the pool accepts tasks, it runs as many as it may. */
  ghost predicate Busy(p: Pool) {
    p.accepting && !p.leaseLost ==> p.pending == [] || |p.active| == p.concurrency
  }

  /** No draining stop is left over from before the pool was started. */
  ghost predicate Tidy(p: Pool) {
    && (Drain in p.waiters ==> !p.accepting)
    && (p.lease == None ==> !p.accepting && p.pending == [])
  }
}
