/**
 The two tables and the operations on them as the source carries them out:
 guarded updates, loops over selected rows, and counts for a debt. Each
 operation is shown to be the corresponding function of module Outbox.
 */
module OutboxStore {
  import opened Prelude
  import opened Utf16
  import opened Outbox
  import BodySplitter

  /** What an interrupted loop still has to add to what it has claimed. */
  ghost function Resumed(claimed: seq<nat>, rest: (State, seq<nat>)): (r: (State, seq<nat>))
    ensures claimed == [] ==> r == rest
    ensures rest.1 == [] ==> r == (rest.0, claimed)
  {
    assert [] + rest.1 == rest.1 && claimed + [] == claimed;
    (rest.0, claimed + rest.1)
  }

  ghost function ResumedParts(made: seq<Enqueued>, rest: Result<(seq<Row>, seq<Enqueued>), EnqueueError>):
      (r: Result<(seq<Row>, seq<Enqueued>), EnqueueError>)
    ensures made == [] ==> r == rest
    ensures rest.Failure? ==> r == rest
    ensures rest.Success? && rest.value.1 == [] ==> r == Success((rest.value.0, made))
  {
    if rest.Failure? then rest
    else
      assert [] + rest.value.1 == rest.value.1 && made + [] == made;
      Success((rest.value.0, made + rest.value.1))
  }

  class DeliveryOutbox {
    var rows: seq<Row>
    var debts: map<Scope, DebtStatus>
    var nextToken: Token

    ghost function Value(): State
      reads this
    {
      State(rows, debts, nextToken)
    }

    constructor ()
      ensures Value() == EMPTY
    {
      rows, debts, nextToken := [], map[], 0;
    }

    // -- Helpers ----------------------------------------------

    /** Counts the scope's rows, the delivered and the stopped ones, and sets the debt. */
    method ReconcileCompletionDebt(scope: Option<Scope>)
      modifies this`debts
      ensures Value() == Reconcile(old(Value()), scope)
    {
      if scope == None { return; }
      var s := scope.value;
      var total, delivered, stopped := 0, 0, 0;
      for i := 0 to |rows|
        invariant 0 <= delivered <= total && 0 <= stopped
        invariant total > 0 <==> exists k :: 0 <= k < i && InScope(rows[k], s)
        invariant delivered == total <==> forall k :: 0 <= k < i && InScope(rows[k], s) ==> rows[k].status == Delivered
        invariant stopped > 0 <==> exists k :: 0 <= k < i && InScope(rows[k], s) && IsStopped(rows[k])
      {
        if InScope(rows[i], s) {
          total := total + 1;
          if rows[i].status == Delivered { delivered := delivered + 1; }
          if IsStopped(rows[i]) { stopped := stopped + 1; }
        }
      }
      var status := if total > 0 && delivered == total then Closed else if stopped > 0 then Open else Delivering;
      if s in debts {
        debts := debts[s := status];
      }
    }

    method CancelLaterGroupParts(i: nat)
      requires i < |rows|
      modifies this`rows
      ensures rows == CancelLater(old(rows), i)
    {
      var row := rows[i];
      for j := 0 to |rows|
        invariant |rows| == |old(rows)| && rows[i] == row
        invariant forall k :: 0 <= k < j ==> rows[k] == CancelLaterRow(old(rows)[k], row)
        invariant forall k :: j <= k < |rows| ==> rows[k] == old(rows)[k]
      {
        if EarlierPart(row, rows[j]) && (rows[j].status == Pending || rows[j].status == Failed) {
          rows := rows[j := Settle(rows[j], Cancelled)];
        }
      }
    }

    /** Settles row i, cancels the parts behind it, reconciles its debt. */
    method StopRow(i: nat, status: Status)
      requires i < |rows|
      modifies this
      ensures Value() == Stop(old(Value()), i, status)
    {
      rows := rows[i := Settle(rows[i], status)];
      CancelLaterGroupParts(i);
      ReconcileCompletionDebt(rows[i].content.scope);
    }

    /** The matching rows, in table order. */
    method SelectRows(q: Query) returns (ids: seq<nat>)
      ensures ids == Select(rows, q, |rows|)
    {
      ids := [];
      for i := 0 to |rows|
        invariant ids == Select(rows, q, i)
      {
        if Matches(rows, i, q) {
          ids := ids + [i];
        }
      }
    }

    // -- Recovery and claiming --------------------------------

    /** One expired claim: back to waiting, or failed after its last attempt. */
    method RecoverClaim(id: nat, now: Time)
      requires id < |rows|
      modifies this
      ensures Value() == RecoverOne(old(Value()), id, now)
    {
      hide Stop;
      if Expired(rows[id], now) {
        if rows[id].attempts >= rows[id].maxAttempts {
          StopRow(id, Failed);
        } else {
          rows := rows[id := Requeue(rows[id], now)];
        }
      }
    }

    method RecoverExpiredClaims(now: Time)
      modifies this
      ensures Value() == RecoverExpired(old(Value()), now)
    {
      hide RecoverOne;
      var expired := SelectRows(ExpiredBy(now));
      var k := 0;
      assert expired[0..] == expired;
      while k < |expired|
        invariant k <= |expired| && ValidIds(rows, expired[k..])
        invariant RecoverExpired(old(Value()), now) == RecoverEach(Value(), expired[k..], now)
      {
        assert expired[k..][1..] == expired[k + 1..];
        RecoverClaim(expired[k], now);
        k := k + 1;
      }
    }

    /** The bulk update of waiting rows without attempts left. */
    method FailExhaustedNow(now: Time)
      modifies this`rows
      ensures rows == FailExhaustedRows(old(rows), now)
    {
      for j := 0 to |rows|
        invariant |rows| == |old(rows)|
        invariant forall k :: 0 <= k < j ==> rows[k] == FailExhaustedRow(old(rows)[k], now)
        invariant forall k :: j <= k < |rows| ==> rows[k] == old(rows)[k]
      {
        if rows[j].status == Pending && rows[j].attempts >= rows[j].maxAttempts {
          rows := rows[j := rows[j].(status := Failed, nextAttemptAt := now)];
        }
      }
    }

    method FailExhaustedPending(now: Time)
      modifies this
      ensures Value() == FailExhausted(old(Value()), now)
    {
      hide CancelLater, Reconcile, FailExhaustedRows;
      var exhausted := SelectRows(ExhaustedPending);
      FailExhaustedNow(now);
      var k := 0;
      assert exhausted[0..] == exhausted;
      while k < |exhausted|
        invariant k <= |exhausted| && ValidIds(rows, exhausted[k..])
        invariant FailExhausted(old(Value()), now) == FollowEach(Value(), exhausted[k..])
      {
        assert exhausted[k..][1..] == exhausted[k + 1..];
        FollowExhausted(exhausted[k]);
        k := k + 1;
      }
    }

    method FollowExhausted(id: nat)
      requires id < |rows|
      modifies this
      ensures Value() == Reconcile(old(Value()).(rows := CancelLater(old(rows), id)), old(rows)[id].content.scope)
      ensures |rows| == |old(rows)|
    {
      var scope := rows[id].content.scope;
      CancelLaterGroupParts(id);
      ReconcileCompletionDebt(scope);
    }

    /** Claims the candidates that are still claimable, each under a fresh token. */
    method ClaimCandidates(ids: seq<nat>, owner: Name, now: Time, expiresAt: Time) returns (claimed: seq<nat>)
      requires ValidIds(rows, ids)
      modifies this
      ensures (Value(), claimed) == ClaimEach(old(Value()), ids, owner, now, expiresAt)
    {
      claimed := [];
      var k := 0;
      assert ids[0..] == ids;
      while k < |ids|
        invariant k <= |ids| && ValidIds(rows, ids[k..])
        invariant ClaimEach(old(Value()), ids, owner, now, expiresAt)
               == Resumed(claimed, ClaimEach(Value(), ids[k..], owner, now, expiresAt))
      {
        var id := ids[k];
        assert ids[k..][1..] == ids[k + 1..];
        ghost var rest := ClaimEach(ClaimOne(Value(), id, owner, now, expiresAt), ids[k + 1..], owner, now, expiresAt);
        assert claimed + ([id] + rest.1) == claimed + [id] + rest.1 && claimed + ([] + rest.1) == claimed + rest.1;
        var token := nextToken;
        nextToken := nextToken + 1;
        if Claimable(rows[id], now) {
          rows := rows[id := ClaimRow(rows[id], owner, token, expiresAt)];
          claimed := claimed + [id];
        }
        k := k + 1;
      }
    }

    method ClaimDueDeliveries(owner: Name, limit: nat, channel: Option<Name>, target: Option<Name>,
                              now: Time, expiresAt: Time) returns (claimed: seq<nat>)
      modifies this
      ensures (Value(), claimed) == ClaimDue(old(Value()), owner, limit, channel, target, now, expiresAt)
    {
      RecoverExpiredClaims(now);
      FailExhaustedPending(now);
      var due := SelectRows(DueAt(now, channel, target));
      claimed := ClaimCandidates(Take(OrderByDue(rows, due), limit), owner, now, expiresAt);
    }

    method ClaimDelivery(id: nat, owner: Name, now: Time, expiresAt: Time) returns (claimed: seq<nat>)
      modifies this
      ensures (Value(), claimed) == ClaimById(old(Value()), id, owner, now, expiresAt)
    {
      RecoverExpiredClaims(now);
      claimed := [];
      if id < |rows| && PredecessorsDelivered(rows, id) {
        claimed := ClaimCandidates([id], owner, now, expiresAt);
      }
    }

    // -- Settling a claim -------------------------------------

    method RenewDeliveryClaim(id: nat, token: Token, now: Time, expiresAt: Time) returns (renewed: bool)
      modifies this
      ensures Value() == Renew(old(Value()), id, token, now, expiresAt)
      ensures renewed <==> Holds(old(rows), id, token) && old(rows)[id].claim.value.expiresAt > now
    {
      renewed := Holds(rows, id, token) && rows[id].claim.value.expiresAt > now;
      if renewed {
        var claim := rows[id].claim.value.(expiresAt := expiresAt);
        rows := rows[id := rows[id].(claim := Some(claim))];
      }
    }

    method MarkDeliveryDelivered(id: nat, token: Token) returns (transitioned: bool)
      modifies this
      ensures Value() == Deliver(old(Value()), id, token)
      ensures transitioned <==> Holds(old(rows), id, token)
    {
      transitioned := Holds(rows, id, token);
      if transitioned {
        rows := rows[id := Settle(rows[id], Delivered)];
        ReconcileCompletionDebt(rows[id].content.scope);
      }
    }

    method RetryDelivery(id: nat, token: Token, nowMs: nat, delayMs: Option<nat>) returns (scheduled: bool)
      modifies this
      ensures Value() == Retry(old(Value()), id, token, nowMs, delayMs)
      ensures scheduled <==> Holds(old(rows), id, token) && old(rows)[id].attempts < old(rows)[id].maxAttempts
    {
      scheduled := false;
      if !Holds(rows, id, token) { return; }
      if rows[id].attempts >= rows[id].maxAttempts {
        StopRow(id, Failed);
      } else {
        rows := rows[id := Requeue(rows[id], RetryAt(rows[id].attempts, nowMs, delayMs))];
        ReconcileCompletionDebt(rows[id].content.scope);
        scheduled := true;
      }
    }

    method MarkDeliveryFailed(id: nat, token: Token) returns (transitioned: bool)
      modifies this
      ensures Value() == Fail(old(Value()), id, token)
      ensures transitioned <==> Holds(old(rows), id, token)
    {
      transitioned := Holds(rows, id, token);
      if transitioned {
        StopRow(id, Failed);
      }
    }

    // -- Cancellation and operator retry ----------------------

    method CancelDelivery(id: nat) returns (transitioned: bool)
      modifies this
      ensures Value() == CancelOne(old(Value()), id)
      ensures transitioned <==> id < |old(rows)| && IsOpen(old(rows)[id])
    {
      transitioned := id < |rows| && IsOpen(rows[id]);
      if transitioned {
        StopRow(id, Cancelled);
      }
    }

    /** cancelDeliveriesForRun and cancelDeliveriesForJob: one bulk update, then every linked debt. */
    method CancelDeliveriesFor(link: Link)
      modifies this
      ensures Value() == CancelLinked(old(Value()), link)
    {
      var scopes := LinkedScopes(rows, link);
      CancelLinkedNow(link);
      var rest := scopes;
      assert debts == map s | s in old(debts) :: if s in scopes - rest then ScopeStatus(rows, s) else old(debts)[s];
      while rest != {}
        invariant rest <= scopes && rows == CancelLinkedRows(old(rows), link) && nextToken == old(nextToken)
        invariant debts == map s | s in old(debts) ::
          if s in scopes - rest then ScopeStatus(rows, s) else old(debts)[s]
        decreases rest
      {
        var s :| s in rest;
        rest := rest - {s};
        ReconcileCompletionDebt(Some(s));
      }
    }

    method CancelLinkedNow(link: Link)
      modifies this`rows
      ensures rows == CancelLinkedRows(old(rows), link)
    {
      for j := 0 to |rows|
        invariant |rows| == |old(rows)|
        invariant forall k :: 0 <= k < j ==> rows[k] == CancelLinkedRow(old(rows)[k], link)
        invariant forall k :: j <= k < |rows| ==> rows[k] == old(rows)[k]
      {
        if Linked(rows[j], link) && IsOpen(rows[j]) {
          rows := rows[j := Settle(rows[j], Cancelled)];
        }
      }
    }

    method RetryFailedDelivery(id: nat, maxAttempts: nat, reset: bool, at: Time) returns (transitioned: bool)
      modifies this
      ensures Value() == RetryFailed(old(Value()), id, maxAttempts, reset, at)
      ensures transitioned <==> id < |old(rows)| && old(rows)[id].status == Failed
    {
      transitioned := id < |rows| && rows[id].status == Failed;
      if transitioned {
        var row := rows[id];
        rows := rows[id :=
          if reset then Revive(row, 0, maxAttempts, at)
          else Revive(row, row.attempts, Max(maxAttempts, row.attempts + 1), at)];
        ReviveLaterParts(id, maxAttempts, at);
        ReconcileCompletionDebt(row.content.scope);
      }
    }

    method ReviveLaterParts(id: nat, maxAttempts: nat, at: Time)
      requires id < |rows|
      modifies this`rows
      ensures rows == ReviveLater(old(rows), id, maxAttempts, at)
    {
      var row := rows[id];
      for j := 0 to |rows|
        invariant |rows| == |old(rows)|
        invariant forall k :: 0 <= k < j ==> rows[k] == ReviveLaterRow(old(rows)[k], row, maxAttempts, at)
        invariant forall k :: j <= k < |rows| ==> rows[k] == old(rows)[k]
      {
        if EarlierPart(row, rows[j]) && rows[j].status == Cancelled {
          rows := rows[j := Revive(rows[j], 0, maxAttempts, at)];
        }
      }
    }

    // -- Enqueueing -------------------------------------------

    method EnqueueDelivery(q: Request, at: Time) returns (r: Result<Enqueued, EnqueueError>)
      modifies this`rows
      ensures var one := EnqueueOne(old(rows), q, at);
        && rows == (if one.Success? then one.value.0 else old(rows))
        && r == (if one.Success? then Success(one.value.1) else Failure(one.error))
    {
      if Trim(q.content.body) == [] { return Failure(BlankBody); }
      var twin := FindKey(rows, q.key, 0);
      if twin < |rows| {
        return if Equivalent(rows[twin], q) then Success(Enqueued(twin, true)) else Failure(Collision(twin));
      }
      var place := FindPart(rows, q.part, 0);
      if place < |rows| { return Failure(DuplicatePart(place)); }
      rows := rows + [NewRow(q, at)];
      return Success(Enqueued(|rows| - 1, false));
    }

    method EnqueueMultipartDelivery(q: Request, group: Name, limit: Option<nat>, at: Time)
      returns (r: Result<seq<Enqueued>, EnqueueError>)
      modifies this`rows
      ensures (Value(), r) == EnqueueMultipart(old(Value()), q, group, limit, at)
    {
      hide EnqueueOne, PartRequest, BodySplitter.SplitBody;
      var split := BodySplitter.SplitDeliveryBody(q.content.body, limit);
      if split.Failure? { return Failure(Unsplittable(split.error)); }
      var parts := split.value;
      var before := rows;
      var made: seq<Enqueued> := [];
      var i := 0;
      while i < |parts|
        invariant i <= |parts|
        invariant EnqueueFrom(before, q, group, parts, 0, at)
               == ResumedParts(made, EnqueueFrom(rows, q, group, parts, i, at))
      {
        ghost var rest := EnqueueFrom(rows, q, group, parts, i, at);
        assert rest.Success? ==>
          made + ([rest.value.1[0]] + rest.value.1[1..]) == made + [rest.value.1[0]] + rest.value.1[1..];
        var one := EnqueueDelivery(PartRequest(q, group, parts[i], i + 1, |parts|), at);
        if one.Failure? {
          rows := before;  // the transaction rolls back
          return Failure(one.error);
        }
        made := made + [one.value];
        i := i + 1;
      }
      return Success(made);
    }
  }
}
