/** The pool's own fields and loops. What has begun, finished or been dropped is kept for the record only. */
module WorkerPoolStore {
  import opened Prelude
  import opened WorkerPool

  class DispatcherRuntime {
    const concurrency: nat
    const limit: nat
    var pending: seq<Item>
    var active: map<Key, nat>
    var keys: set<Key>
    var waiters: seq<Waiter>
    var lease: Option<nat>
    var accepting: bool
    var leaseLost: bool
    var accepted: nat
    ghost var begun: seq<nat>
    ghost var finished: set<nat>
    ghost var dropped: set<nat>

    ghost function Value(): Pool
      reads this
    {
      Pool(concurrency, limit, pending, active, keys, waiters, lease, accepting, leaseLost,
           accepted, begun, finished, dropped)
    }

    constructor (maxConcurrency: nat, maxPending: nat)
      requires 1 <= maxConcurrency <= maxPending
      ensures Value() == Fresh(maxConcurrency, maxPending)
    {
      concurrency, limit := maxConcurrency, maxPending;
      pending, active, keys, waiters := [], map[], {}, [];
      lease, accepting, leaseLost, accepted := None, false, false, 0;
      begun, finished, dropped := [], {}, {};
    }

    method Notify()
      modifies this`waiters, this`lease
      ensures Value() == NotifyIdle(old(Value()))
    {
      if |pending| > 0 || |active| > 0 { return; }
      if Drain in waiters { lease := None; }
      waiters := [];
    }

    method RunQueued()
      modifies this`pending, this`active, this`begun, this`waiters, this`lease
      ensures Value() == RunNext(old(Value()))
    {
      if !accepting || leaseLost { return; }
      while |active| < concurrency && |pending| > 0
        invariant Fill(Value()) == Fill(old(Value()))
        invariant accepting && !leaseLost
        decreases |pending|
      {
        var item := pending[0];
        pending := pending[1..];
        active := active[item.key := item.task];
        begun := begun + [item.task];
      }
      Notify();
    }

    /** Empties the queue; the keys of its tasks are free again. */
    method Splice()
      modifies this`pending, this`keys, this`dropped
      ensures Value() == DropPending(old(Value()))
    {
      var items := pending;
      pending := [];
      for i := 0 to |items|
        invariant pending == [] && dropped == old(dropped)
        invariant keys == old(keys) - KeysOf(items[..i])
      {
        keys := keys - {items[i].key};
        assert items[..i + 1] == items[..i] + [items[i]];
        KeysOfAppend(items[..i], items[i]);
      }
      assert items[..|items|] == items;
      dropped := dropped + TasksOf(items);
    }

    method Lose()
      modifies this`accepting, this`leaseLost, this`pending, this`keys, this`dropped, this`waiters, this`lease
      ensures Value() == LoseLease(old(Value()))
    {
      if leaseLost { return; }
      accepting, leaseLost := false, true;
      Splice();
      Notify();
    }

    method Begin(acquired: Option<nat>) returns (got: Option<nat>)
      modifies this`lease, this`accepting, this`leaseLost
      ensures Value() == Start(old(Value()), acquired)
      ensures got == if old(lease).Some? then old(lease) else acquired
    {
      if lease.Some? { return lease; }
      if acquired.None? { return None; }
      lease, accepting, leaseLost := acquired, true, false;
      return lease;
    }

    /** A renewal, or a check, of the lease. */
    method Renew(renewed: Option<nat>) returns (held: bool)
      modifies this`lease, this`accepting, this`leaseLost, this`pending, this`keys, this`dropped, this`waiters
      ensures Value() == Confirm(old(Value()), renewed)
      ensures held <==> old(lease).Some? && !old(leaseLost) && renewed.Some?
    {
      if lease.None? || leaseLost { return false; }
      if renewed.None? { Lose(); return false; }
      lease := renewed;
      return true;
    }

    method SubmitTask(key: Key) returns (ok: bool)
      modifies this`keys, this`pending, this`accepted, this`active, this`begun, this`waiters, this`lease
      ensures Value() == Submit(old(Value()), key)
      ensures ok == Accepts(old(Value()), key)
    {
      if !accepting || leaseLost { return false; }
      if key in keys { return false; }
      if |pending| + |active| >= limit { return false; }
      keys := keys + {key};
      pending := pending + [Item(key, accepted)];
      accepted := accepted + 1;
      RunQueued();
      return true;
    }

    method TaskSettles(key: Key)
      modifies this`keys, this`pending, this`active, this`begun, this`finished, this`waiters, this`lease
      ensures Value() == Finish(old(Value()), key)
    {
      if key !in active { return; }
      finished := finished + {active[key]};
      active := active - {key};
      keys := keys - {key};
      RunQueued();
      Notify();
    }

    method WaitForIdle(w: Waiter)
      modifies this`waiters, this`lease
      ensures Value() == Wait(old(Value()), w)
    {
      waiters := waiters + [w];
      Notify();
    }

    method StopPool(drain: bool)
      modifies this`accepting, this`pending, this`keys, this`dropped, this`waiters, this`lease
      ensures Value() == Stop(old(Value()), drain)
    {
      accepting := false;
      if drain {
        WaitForIdle(Drain);
      } else {
        Splice();
        lease := None;
        Notify();
      }
    }
  }
}
