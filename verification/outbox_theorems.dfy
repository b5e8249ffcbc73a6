/**
 The outbox over whole runs: order within a group, debts, fencing, progress and
 repeated enqueues (delivery-outbox.js; README.md:137).
 */
module OutboxTheorems {
  import opened Prelude
  import opened Utf16
  import opened Outbox
  import opened OutboxInvariants
  import opened OutboxEnqueue
  import BodySplitter

  // -- Runs ---------------------------------------------------

  lemma StepKeepsInv(st: State, op: Op)
    requires Inv(st) && Admissible(op)
    ensures Inv(Step(st, op))
  {
    hide Inv, AllEvolved, AllLighter, DebtsOk, Extends;
    match op
    case DoEnqueueSingle(q, at) => SingleKeepsInv(st, q, at);
    case DoEnqueueMultipart(q, group, limit, at) => MultipartKeepsInv(st, q, group, limit, at);
    case DoRetryFailed(id, maxAttempts, reset, at) => RetryFailedKeeps(st, id, maxAttempts, reset, at);
    case DoWriteDebt(scope, debt) => WriteDebtKeeps(st, scope, debt);
    case _ => StepForward(st, op);
  }

  /** An empty outbox, whatever debts are being tracked. */
  predicate Initial(st: State) { st.rows == [] && st.nextToken == 0 }

  lemma {:induction false} RunKeepsInv(st: State, ops: seq<Op>)
    requires Inv(st) && forall op :: op in ops ==> Admissible(op)
    ensures Inv(Run(st, ops))
    decreases |ops|
  {
    hide Inv, Step;
    if ops != [] {
      StepKeepsInv(st, ops[0]);
      RunKeepsInv(Step(st, ops[0]), ops[1..]);
    }
  }

  lemma InitialInv(st: State)
    requires Initial(st)
    ensures Inv(st) && DebtsOk(st)
  {
  }

  // -- The word of a group ------------------------------------

  ghost predicate Stars(w: seq<Status>, from: nat, to: nat, s: Status) {
    to <= |w| && forall i :: from <= i < to ==> w[i] == s
  }

  /** delivered* claimed? pending* cancelled*, changing over at d, c and p. */
  ghost predicate Moving(w: seq<Status>, d: nat, c: nat, p: nat) {
    && d <= c <= d + 1 && c <= p <= |w|
    && Stars(w, 0, d, Delivered) && Stars(w, d, c, Claimed) && Stars(w, c, p, Pending) && Stars(w, p, |w|, Cancelled)
  }

  /** delivered* failed cancelled*, failed at d. */
  ghost predicate Halted(w: seq<Status>, d: nat) {
    d < |w| && Stars(w, 0, d, Delivered) && w[d] == Failed && Stars(w, d + 1, |w|, Cancelled)
  }

  ghost predicate InLanguage(w: seq<Status>) {
    (exists d, c, p :: Moving(w, d, c, p)) || (exists d :: Halted(w, d))
  }

  ghost predicate Ordered(w: seq<Status>) {
    forall i, j :: 0 <= i < j < |w| ==> Allowed(w[i], w[j])
  }

  lemma {:induction false} LeadingStars(w: seq<Status>, from: nat, s: Status) returns (to: nat)
    requires from <= |w|
    ensures from <= to <= |w| && Stars(w, from, to, s) && (to < |w| ==> w[to] != s)
    decreases |w| - from
  {
    to := from;
    if from < |w| && w[from] == s {
      to := LeadingStars(w, from + 1, s);
    }
  }

  /** The pairwise rule is exactly membership in the language. */
  lemma OrderedIffInLanguage(w: seq<Status>)
    ensures Ordered(w) <==> InLanguage(w)
  {
    if Ordered(w) {
      var d := LeadingStars(w, 0, Delivered);
      if d < |w| && w[d] == Failed {
        assert forall j :: d < j < |w| ==> Allowed(w[d], w[j]);
        assert Halted(w, d);
      } else {
        var c := if d < |w| && w[d] == Claimed then d + 1 else d;
        var p := LeadingStars(w, c, Pending);
        assert forall j :: d < j < |w| ==> Allowed(w[d], w[j]);
        if p < |w| {
          assert forall j :: p < j < |w| ==> Allowed(w[p], w[j]);
          assert d < p ==> Allowed(w[d], w[p]);
        }
        assert Moving(w, d, c, p);
      }
    }
  }

  function Word(rows: seq<Row>, base: nat, count: nat): (w: seq<Status>)
    requires base + count <= |rows|
    ensures |w| == count
  {
    seq(count, k requires 0 <= k < count => rows[base + k].status)
  }

  /** Every stored group is stored whole, and its parts in order spell a word of the language. */
  lemma GroupSpellsWord(rows: seq<Row>, i: nat) returns (base: nat)
    requires RowsOk(rows) && Contiguous(rows) && Shape(rows) && i < |rows| && rows[i].part.Some?
    ensures var p := rows[i].part.value;
      && GroupAt(rows, base, p.group, p.count)
      && base + p.count <= |rows|
      && i == base + p.index - 1
      && InLanguage(Word(rows, base, p.count))
  {
    var p := rows[i].part.value;
    base := GroupHead(rows, i);
    assert PartAt(rows, base, p.group, p.count, 1);
    GroupStored(rows, base, p.group, p.count);
    assert WellFormed(rows[i]) && PartAt(rows, base, p.group, p.count, p.count);
    var w := Word(rows, base, p.count);
    forall j, k | 0 <= j < k < |w| ensures Allowed(w[j], w[k]) {
      assert PartAt(rows, base, p.group, p.count, j + 1) && PartAt(rows, base, p.group, p.count, k + 1);
      assert EarlierPart(rows[base + j], rows[base + k]);
    }
    OrderedIffInLanguage(w);
  }

  lemma GroupSent(st: State, i: nat) returns (base: nat)
    requires Inv(st) && i < |st.rows| && st.rows[i].part.Some?
    ensures var rows, p := st.rows, st.rows[i].part.value;
      && GroupAt(rows, base, p.group, p.count)
      && base + p.count <= |rows|
      && i == base + p.index - 1
      && InLanguage(Word(rows, base, p.count))
      && (rows[i].status == Delivered || rows[i].status == Claimed ==>
            forall j :: base <= j < i ==> rows[j].status == Delivered)
  {
    var rows, p := st.rows, st.rows[i].part.value;
    base := GroupSpellsWord(rows, i);
    hide InLanguage;
    forall j | base <= j < i ensures EarlierPart(rows[j], rows[i]) {
      assert PartAt(rows, base, p.group, p.count, j - base + 1);
    }
  }

  /** At every reachable state: all groups are whole, and their parts go out strictly in order. */
  lemma ReachableGroups(st: State, ops: seq<Op>, i: nat) returns (base: nat)
    requires Initial(st) && (forall op :: op in ops ==> Admissible(op))
    requires i < |Run(st, ops).rows| && Run(st, ops).rows[i].part.Some?
    ensures var rows := Run(st, ops).rows;
      var p := rows[i].part.value;
      && GroupAt(rows, base, p.group, p.count)
      && base + p.count <= |rows|
      && i == base + p.index - 1
      && InLanguage(Word(rows, base, p.count))
      && (rows[i].status == Delivered || rows[i].status == Claimed ==>
            forall j :: base <= j < i ==> rows[j].status == Delivered)
  {
    hide InLanguage, Run, Inv;
    InitialInv(st);
    RunKeepsInv(st, ops);
    base := GroupSent(Run(st, ops), i);
  }

  // -- Claiming due parts -------------------------------------

  ghost predicate InClaimOrder(rows: seq<Row>, ids: seq<nat>) {
    ValidIds(rows, ids) && forall j, k :: 0 <= j < k < |ids| ==> Before(rows, ids[j], ids[k])
  }

  lemma BeforeIsTotalOrder(rows: seq<Row>, i: nat, j: nat, k: nat)
    requires i < |rows| && j < |rows| && k < |rows|
    ensures Before(rows, i, j) || Before(rows, j, i)
    ensures Before(rows, i, j) && Before(rows, j, k) ==> Before(rows, i, k)
  {
  }

  lemma {:induction false} InsertKeepsOrder(rows: seq<Row>, i: nat, ids: seq<nat>)
    requires i < |rows| && InClaimOrder(rows, ids)
    ensures InClaimOrder(rows, Insert(rows, i, ids))
  {
    hide Before;
    if ids != [] {
      BeforeIsTotalOrder(rows, i, ids[0], ids[0]);
      if Before(rows, i, ids[0]) {
        forall k | 0 <= k < |ids| ensures Before(rows, i, ids[k]) {
          BeforeIsTotalOrder(rows, i, ids[0], ids[k]);
        }
      } else {
        var rest := Insert(rows, i, ids[1..]);
        InsertKeepsOrder(rows, i, ids[1..]);
        forall k | 0 <= k < |rest| ensures Before(rows, ids[0], rest[k]) {
          assert rest[k] in multiset(ids[1..]) + multiset{i};
        }
      }
    }
  }

  lemma {:induction false} OrderByDueSorts(rows: seq<Row>, ids: seq<nat>)
    requires ValidIds(rows, ids)
    ensures InClaimOrder(rows, OrderByDue(rows, ids))
  {
    if ids != [] {
      OrderByDueSorts(rows, ids[1..]);
      InsertKeepsOrder(rows, ids[0], OrderByDue(rows, ids[1..]));
    }
  }

  predicate IsDue(rows: seq<Row>, i: nat, now: Time, channel: Option<Name>, target: Option<Name>) {
    i < |rows| && Matches(rows, i, DueAt(now, channel, target))
  }

  /** The picked rows are the first `limit` of the due rows in claim order. */
  lemma DueRowsAreFirst(rows: seq<Row>, now: Time, channel: Option<Name>, target: Option<Name>, limit: nat)
    ensures var ids := DueRows(rows, now, channel, target, limit);
      && |ids| <= limit && Distinct(ids) && InClaimOrder(rows, ids)
      && (forall k :: 0 <= k < |ids| ==> IsDue(rows, ids[k], now, channel, target))
      && (forall i: nat :: IsDue(rows, i, now, channel, target) && i !in ids ==>
            |ids| == limit && forall k :: 0 <= k < |ids| ==> Before(rows, ids[k], i))
  {
    hide Matches, Before;
    var found := Select(rows, DueAt(now, channel, target), |rows|);
    var ordered := OrderByDue(rows, found);
    var ids := DueRows(rows, now, channel, target, limit);
    DueRowsMatch(rows, now, channel, target, limit);
    OrderByDueSorts(rows, found);
    forall i: nat | IsDue(rows, i, now, channel, target) && i !in ids
      ensures |ids| == limit && forall k :: 0 <= k < |ids| ==> Before(rows, ids[k], i)
    {
      assert i in multiset(found) && i in multiset(ordered);
      var m :| 0 <= m < |ordered| && ordered[m] == i;
      assert ids == ordered[..|ids|];
    }
  }

  /** Two parts of one group are never due together. */
  lemma OneDuePerGroup(rows: seq<Row>, i: nat, j: nat, now: Time, channel: Option<Name>, target: Option<Name>)
    requires RowsOk(rows) && IsDue(rows, i, now, channel, target) && IsDue(rows, j, now, channel, target)
    ensures !EarlierPart(rows[i], rows[j])
  {
    assert WellFormed(rows[i]);
  }

  lemma {:induction false} ClaimEachElsewhere(st: State, ids: seq<nat>, owner: Name, now: Time, expiresAt: Time, i: nat)
    requires ValidIds(st.rows, ids) && i < |st.rows| && i !in ids
    ensures ClaimEach(st, ids, owner, now, expiresAt).0.rows[i] == st.rows[i]
    decreases |ids|
  {
    hide Claimable, ClaimRow;
    if ids != [] {
      ClaimEachElsewhere(ClaimOne(st, ids[0], owner, now, expiresAt), ids[1..], owner, now, expiresAt, i);
    }
  }

  ghost predicate AllClaimable(rows: seq<Row>, ids: seq<nat>, now: Time) {
    ValidIds(rows, ids) && Distinct(ids) && forall k :: 0 <= k < |ids| ==> Claimable(rows[ids[k]], now)
  }

  lemma OthersStayClaimable(st: State, ids: seq<nat>, owner: Name, now: Time, expiresAt: Time)
    requires ids != [] && AllClaimable(st.rows, ids, now)
    ensures AllClaimable(ClaimOne(st, ids[0], owner, now, expiresAt).rows, ids[1..], now)
  {
    hide Claimable, ClaimRow;
    forall k | 0 <= k < |ids[1..]|
      ensures Claimable(ClaimOne(st, ids[0], owner, now, expiresAt).rows[ids[1..][k]], now)
    {
      assert ids[1..][k] == ids[k + 1];
    }
  }

  /** Every picked row is claimed, in order. */
  lemma {:induction false} ClaimEachAll(st: State, ids: seq<nat>, owner: Name, now: Time, expiresAt: Time)
    requires AllClaimable(st.rows, ids, now)
    ensures ClaimEach(st, ids, owner, now, expiresAt).1 == ids
    ensures ClaimEach(st, ids, owner, now, expiresAt).0.debts == st.debts
    decreases |ids|
  {
    if ids != [] {
      OthersStayClaimable(st, ids, owner, now, expiresAt);
      ClaimEachAll(ClaimOne(st, ids[0], owner, now, expiresAt), ids[1..], owner, now, expiresAt);
    }
  }

  /** The k-th picked row carries the k-th token issued by the call. */
  lemma {:induction false} ClaimEachAt(st: State, ids: seq<nat>, owner: Name, now: Time, expiresAt: Time, k: nat)
    requires AllClaimable(st.rows, ids, now) && k < |ids|
    ensures ClaimEach(st, ids, owner, now, expiresAt).0.rows[ids[k]]
         == ClaimRow(st.rows[ids[k]], owner, st.nextToken + k, expiresAt)
    decreases |ids|
  {
    var next := ClaimOne(st, ids[0], owner, now, expiresAt);
    assert next.rows[ids[0]] == ClaimRow(st.rows[ids[0]], owner, st.nextToken, expiresAt);
    hide Claimable, ClaimRow;
    if k == 0 {
      ClaimEachElsewhere(next, ids[1..], owner, now, expiresAt, ids[0]);
    } else {
      OthersStayClaimable(st, ids, owner, now, expiresAt);
      ClaimEachAt(next, ids[1..], owner, now, expiresAt, k - 1);
      assert ids[1..][k - 1] == ids[k];
    }
  }

  /** The call changes the picked rows of `ready` and nothing else. */
  ghost predicate ClaimedExactly(ready: State, next: State, ids: seq<nat>, owner: Name, expiresAt: Time) {
    && |next.rows| == |ready.rows| && ValidIds(ready.rows, ids) && next.debts == ready.debts
    && (forall k :: 0 <= k < |ids| ==>
          next.rows[ids[k]] == ClaimRow(ready.rows[ids[k]], owner, ready.nextToken + k, expiresAt))
    && (forall i: nat :: i < |ready.rows| && i !in ids ==> next.rows[i] == ready.rows[i])
  }

  /** The claimed rows are the first `limit` due ones, and no two are parts of one group. */
  ghost predicate PickedFirst(rows: seq<Row>, ids: seq<nat>, limit: nat, now: Time, channel: Option<Name>,
                              target: Option<Name>) {
    && |ids| <= limit && Distinct(ids) && InClaimOrder(rows, ids)
    && (forall k :: 0 <= k < |ids| ==> IsDue(rows, ids[k], now, channel, target))
    && (forall i: nat :: IsDue(rows, i, now, channel, target) && i !in ids ==>
          |ids| == limit && forall k :: 0 <= k < |ids| ==> Before(rows, ids[k], i))
    && (forall j, k :: 0 <= j < |ids| && 0 <= k < |ids| ==> !EarlierPart(rows[ids[j]], rows[ids[k]]))
  }

  lemma PicksFirst(rows: seq<Row>, now: Time, channel: Option<Name>, target: Option<Name>, limit: nat)
    requires RowsOk(rows)
    ensures PickedFirst(rows, DueRows(rows, now, channel, target, limit), limit, now, channel, target)
  {
    hide Before, Matches, DueRows, EarlierPart;
    var ids := DueRows(rows, now, channel, target, limit);
    DueRowsAreFirst(rows, now, channel, target, limit);
    forall j, k | 0 <= j < |ids| && 0 <= k < |ids| ensures !EarlierPart(rows[ids[j]], rows[ids[k]]) {
      OneDuePerGroup(rows, ids[j], ids[k], now, channel, target);
    }
  }

  lemma ClaimsExactly(ready: State, ids: seq<nat>, owner: Name, now: Time, expiresAt: Time)
    requires AllClaimable(ready.rows, ids, now)
    ensures ClaimedExactly(ready, ClaimEach(ready, ids, owner, now, expiresAt).0, ids, owner, expiresAt)
    ensures ClaimEach(ready, ids, owner, now, expiresAt).1 == ids
  {
    hide Claimable, ClaimRow, ClaimEach;
    ClaimEachAll(ready, ids, owner, now, expiresAt);
    forall k | 0 <= k < |ids|
      ensures ClaimEach(ready, ids, owner, now, expiresAt).0.rows[ids[k]]
           == ClaimRow(ready.rows[ids[k]], owner, ready.nextToken + k, expiresAt)
    {
      ClaimEachAt(ready, ids, owner, now, expiresAt, k);
    }
    forall i: nat | i < |ready.rows| && i !in ids
      ensures ClaimEach(ready, ids, owner, now, expiresAt).0.rows[i] == ready.rows[i]
    {
      ClaimEachElsewhere(ready, ids, owner, now, expiresAt, i);
    }
  }

  /**
   One call claims the first due rows in claim order, each under a fresh token
   and with its predecessors delivered, and never two parts of one group.
   */
  lemma ClaimDueTheorem(st: State, owner: Name, limit: nat, channel: Option<Name>, target: Option<Name>,
                        now: Time, expiresAt: Time)
    requires Inv(st)
    ensures var ready := RecoverExpired(st, now);
      var r := ClaimDue(st, owner, limit, channel, target, now, expiresAt);
      && PickedFirst(ready.rows, r.1, limit, now, channel, target)
      && ClaimedExactly(ready, r.0, r.1, owner, expiresAt)
  {
    BeforeClaimsForward(st, now);
    var ready := BeforeClaims(st, now);
    assert RowsOk(ready.rows);
    hide Inv, AllEvolved, AllLighter, DebtsOk, BeforeClaims, RecoverExpired, DueRows, Before, ClaimEach, RowsOk;
    var ids := DueRows(ready.rows, now, channel, target, limit);
    PicksFirst(ready.rows, now, channel, target, limit);
    DueAreClaimable(ready.rows, ids, now, channel, target);
    ClaimsExactly(ready, ids, owner, now, expiresAt);
  }

  lemma DueAreClaimable(rows: seq<Row>, ids: seq<nat>, now: Time, channel: Option<Name>, target: Option<Name>)
    requires ValidIds(rows, ids) && Distinct(ids)
    requires forall k :: 0 <= k < |ids| ==> IsDue(rows, ids[k], now, channel, target)
    ensures AllClaimable(rows, ids, now)
  {
    hide PredecessorsDelivered, Claimable;
    forall k | 0 <= k < |ids| ensures Claimable(rows[ids[k]], now) {
      assert IsDue(rows, ids[k], now, channel, target);
    }
  }

  // -- Completion debts ---------------------------------------

  /** The call will add rows to a scope whose rows have all been delivered. */
  ghost predicate Reopens(st: State, op: Op) {
    AddsRows(st.rows, op)
    && op.q.content.scope.Some?
    && op.q.content.scope.value in st.debts
    && ScopeStatus(st.rows, op.q.content.scope.value) == Closed
  }

  /** A hook will write another status than the rows of the scope, of which some have settled, say. */
  ghost predicate Contradicts(st: State, op: Op) {
    && op.DoWriteDebt? && op.debt.Some?
    && SomeSettled(st.rows, op.scope) && op.debt.value != ScopeStatus(st.rows, op.scope)
  }

  ghost predicate Unsettles(st: State, op: Op) { Reopens(st, op) || Contradicts(st, op) }

  lemma WriteDebtMirrorsIff(st: State, op: Op)
    requires DebtsOk(st) && op.DoWriteDebt?
    ensures DebtsOk(Step(st, op)) <==> !Contradicts(st, op)
  {
    hide ScopeStatus, SomeSettled;
    var next := Step(st, op);
    forall s | s in next.debts && s != op.scope ensures Mirrored(next, s) {
      assert Mirrored(st, s);
    }
    assert op.debt.Some? ==> (Mirrored(next, op.scope) <==> !Contradicts(st, op));
  }

  lemma ExtendedScope(rows: seq<Row>, next: seq<Row>, q: Request, s: Scope)
    requires Extends(rows, next, q)
    ensures Some(s) != q.content.scope || rows == next ==>
      ScopeStatus(next, s) == ScopeStatus(rows, s) && (SomeSettled(next, s) <==> SomeSettled(rows, s))
    ensures Some(s) == q.content.scope && |rows| < |next| ==>
      && ScopeStatus(next, s) == (if ScopeStatus(rows, s) == Open then Open else Delivering)
      && (SomeSettled(next, s) <==> SomeSettled(rows, s))
    ensures ScopeStatus(rows, s) != Tracking
  {
    forall i | 0 <= i < |rows| ensures next[i] == rows[i] {}
    if |rows| < |next| {
      assert next[|rows|].status == Pending;
    }
    assert forall i :: 0 <= i < |next| && InScope(next[i], s) && i < |rows| ==> InScope(rows[i], s);
    if i :| 0 <= i < |rows| && InScope(rows[i], s) && IsStopped(rows[i]) {
      assert InScope(next[i], s) && IsStopped(next[i]);
    }
    if i :| 0 <= i < |rows| && InScope(rows[i], s) && rows[i].status != Delivered {
      assert InScope(next[i], s) && next[i].status != Delivered;
    }
    if i :| 0 <= i < |rows| && InScope(rows[i], s) {
      assert InScope(next[i], s);
    }
    if SomeSettled(rows, s) {
      var i :| 0 <= i < |rows| && InScope(rows[i], s) && IsSettled(rows[i]);
      assert InScope(next[i], s) && IsSettled(next[i]);
    }
  }

  lemma EnqueueDebts(st: State, op: Op)
    requires Inv(st) && DebtsOk(st) && IsEnqueue(op)
    requires var next := Step(st, op); Extends(st.rows, next.rows, op.q) && next.debts == st.debts
    ensures DebtsOk(Step(st, op)) <==> !Reopens(st, op)
  {
    EnqueueAddsExactly(st, op);
    hide Step, Inv, AddsRows, RowsAdded, Extends;
    ExtendedDebts(st, Step(st, op), op.q);
  }

  /** Debts go on mirroring a table that a call extended, unless it extended a fully delivered scope. */
  lemma ExtendedDebts(st: State, next: State, q: Request)
    requires DebtsOk(st) && Extends(st.rows, next.rows, q) && next.debts == st.debts
    ensures DebtsOk(next) <==>
      !(|st.rows| < |next.rows| && q.content.scope.Some? && q.content.scope.value in st.debts
        && ScopeStatus(st.rows, q.content.scope.value) == Closed)
  {
    hide ScopeStatus, SomeSettled, Extends;
    SameLengthSameRows(st.rows, next.rows, q);
    forall s | s in next.debts
      ensures ScopeStatus(st.rows, s) != Closed || Some(s) != q.content.scope || |st.rows| == |next.rows| ==>
        Mirrored(next, s)
    {
      ExtendedScope(st.rows, next.rows, q, s);
      assert Mirrored(st, s);
    }
    if |st.rows| < |next.rows| && q.content.scope.Some? && q.content.scope.value in st.debts {
      var s := q.content.scope.value;
      if ScopeStatus(st.rows, s) == Closed {
        ExtendedScope(st.rows, next.rows, q, s);
        ClosedIsSettled(st.rows, s);
        assert Mirrored(st, s);
        assert !Mirrored(next, s);
      }
    }
  }

  lemma SameLengthSameRows(rows: seq<Row>, next: seq<Row>, q: Request)
    requires Extends(rows, next, q)
    ensures |rows| <= |next| && (|rows| == |next| ==> rows == next)
  {
  }

  lemma ClosedIsSettled(rows: seq<Row>, s: Scope)
    requires ScopeStatus(rows, s) == Closed
    ensures SomeSettled(rows, s)
  {
  }

  /**
   A debt mirrors its rows after a step exactly unless a call reopens a fully
   delivered scope or a hook writes what the rows contradict.
   */
  lemma DebtsMirrorIff(st: State, op: Op)
    requires Inv(st) && DebtsOk(st) && Admissible(op)
    ensures DebtsOk(Step(st, op)) <==> !Unsettles(st, op)
  {
    hide Inv, DebtsOk, ScopeStatus, AllEvolved, AllLighter;
    match op
    case DoEnqueueSingle(q, at) =>
      SingleKeepsInv(st, q, at);
      EnqueueDebts(st, op);
    case DoEnqueueMultipart(q, group, limit, at) =>
      MultipartKeepsInv(st, q, group, limit, at);
      EnqueueDebts(st, op);
    case DoRetryFailed(id, maxAttempts, reset, at) => RetryFailedKeeps(st, id, maxAttempts, reset, at);
    case DoWriteDebt(scope, debt) => WriteDebtMirrorsIff(st, op);
    case _ => StepForward(st, op);
  }

  ghost predicate NeverUnsettles(st: State, ops: seq<Op>)
    decreases |ops|
  {
    ops != [] ==> !Unsettles(st, ops[0]) && NeverUnsettles(Step(st, ops[0]), ops[1..])
  }

  /** A scope with a settled row and a closed debt. */
  ghost predicate IsClosed(st: State, s: Scope) {
    s in st.debts && st.debts[s] == Closed && SomeSettled(st.rows, s)
  }

  lemma EvolvedKeepsClosed(st: State, next: State, s: Scope)
    requires AllEvolved(st, next) && ScopeStatus(st.rows, s) == Closed
    ensures ScopeStatus(next.rows, s) == Closed
  {
    forall i | 0 <= i < |next.rows|
      ensures InScope(next.rows[i], s) <==> InScope(st.rows[i], s)
      ensures InScope(st.rows[i], s) ==> next.rows[i] == st.rows[i]
    {
      assert Evolved(st.rows[i], next.rows[i], st.nextToken);
    }
    var i :| 0 <= i < |st.rows| && InScope(st.rows[i], s);
    assert InScope(next.rows[i], s);
  }

  lemma StepKeepsClosed(st: State, op: Op, s: Scope)
    requires Inv(st) && DebtsOk(st) && Admissible(op) && !Unsettles(st, op) && IsClosed(st, s)
    requires op != DoWriteDebt(s, None)
    ensures IsClosed(Step(st, op), s)
  {
    var next := Step(st, op);
    assert Mirrored(st, s);
    DebtsMirrorIff(st, op);
    assert s in next.debts ==> Mirrored(next, s);
    assert s in next.debts by { StepKeepsDebt(st, op, s); }
    hide Inv, DebtsOk, ScopeStatus, Unsettles, Step, AllLighter;
    StepEvolves(st, op);
    if IsEnqueue(op) {
      ExtendedScope(st.rows, next.rows, op.q, s);
    } else {
      EvolvedKeepsClosed(st, next, s);
      ClosedIsSettled(next.rows, s);
    }
  }

  /** Only a hook that deletes it takes a debt away. */
  lemma StepKeepsDebt(st: State, op: Op, s: Scope)
    requires Inv(st) && Admissible(op) && s in st.debts && op != DoWriteDebt(s, None)
    ensures s in Step(st, op).debts
  {
    hide Inv, DebtsOk, AllLighter, AllEvolved;
    match op
    case DoEnqueueSingle(q, at) =>
    case DoEnqueueMultipart(q, group, limit, at) =>
    case DoRetryFailed(id, maxAttempts, reset, at) => RetryFailedKeeps(st, id, maxAttempts, reset, at);
    case DoWriteDebt(scope, debt) =>
    case _ =>
      StepForward(st, op);
      hide Step;
  }

  /** A call either moves the stored rows along or adds rows behind them. */
  lemma StepEvolves(st: State, op: Op)
    requires Inv(st) && Admissible(op)
    ensures !IsEnqueue(op) ==> AllEvolved(st, Step(st, op))
    ensures IsEnqueue(op) ==>
      && Extends(st.rows, Step(st, op).rows, op.q)
      && Step(st, op).debts == st.debts
      && Step(st, op).nextToken == st.nextToken
  {
    hide Inv, DebtsOk, AllLighter, AllEvolved;
    match op
    case DoEnqueueSingle(q, at) => SingleKeepsInv(st, q, at);
    case DoEnqueueMultipart(q, group, limit, at) => MultipartKeepsInv(st, q, group, limit, at);
    case DoRetryFailed(id, maxAttempts, reset, at) => RetryFailedKeeps(st, id, maxAttempts, reset, at);
    case DoWriteDebt(scope, debt) => WriteDebtKeeps(st, scope, debt);
    case _ => StepForward(st, op);
  }

  ghost predicate AllAdmissible(ops: seq<Op>) {
    forall k :: 0 <= k < |ops| ==> Admissible(ops[k])
  }

  /**
   Over any run, hooks included, in which no call adds rows to a fully delivered
   scope and no hook contradicts settled rows: every debt with a settled row
   mirrors its rows, and a closed debt that no hook deletes stays closed.
   */
  lemma {:induction false} RunDebts(st: State, ops: seq<Op>)
    requires Inv(st) && DebtsOk(st) && AllAdmissible(ops) && NeverUnsettles(st, ops)
    ensures DebtsOk(Run(st, ops))
    ensures forall s :: IsClosed(st, s) && DoWriteDebt(s, None) !in ops ==> IsClosed(Run(st, ops), s)
    decreases |ops|
  {
    if ops != [] {
      var next := Step(st, ops[0]);
      StepKeepsInv(st, ops[0]);
      DebtsMirrorIff(st, ops[0]);
      assert ops[0] in ops && forall op <- ops[1..] :: op in ops;
      forall s | IsClosed(st, s) && DoWriteDebt(s, None) !in ops ensures IsClosed(next, s) {
        StepKeepsClosed(st, ops[0], s);
      }
      hide Inv, DebtsOk, IsClosed, Unsettles, Step;
      assert AllAdmissible(ops[1..]);
      RunDebts(next, ops[1..]);
    }
  }

  // -- Both ways to part a debt from its rows happen --------

  const SCOPE := Scope([0x6C], [0x73])
  const NOTE := Content([0x63], [0x74], [0x61], None, None, None, Some(SCOPE))
  /** An empty outbox that tracks the debt of one scope. */
  const TRACKED := State([], map[SCOPE := Tracking], 0)
  const FIRST := DoEnqueueSingle(Request(None, None, NOTE, 5, 0), 0)
  const SECOND := DoEnqueueSingle(Request(None, None, NOTE.(body := [0x62]), 5, 0), 0)
  /** Enqueue one message under the scope, claim it and deliver it. */
  const DELIVERING: seq<Op> := [FIRST, DoClaim(0, [0x6F], 0, 9), DoDeliver(0, 0)]

  const SENT := Row(None, None, NOTE, 0, Delivered, 1, 5, 0, None)
  const DONE := State([SENT], map[SCOPE := Closed], 1)

  lemma OneUnitBody(u: CodeUnit)
    requires !IsSpace(u)
    ensures Trim([u]) == [u]
  {
    assert TrimEnd([u]) == [u];
  }

  lemma Enqueues(st: State, op: Op)
    requires op.DoEnqueueSingle? && op.q.key == None && Trim(op.q.content.body) != []
    ensures Step(st, op) == st.(rows := st.rows + [NewRow(op.q.(part := None), op.at)])
  {
    hide Trim, FindPart;
    assert FindPart(st.rows, None, 0) == |st.rows|;
  }

  lemma ClaimsOnly(st: State, owner: Name, now: Time, expiresAt: Time)
    requires |st.rows| == 1 && st.rows[0].part == None && st.rows[0].claim == None && Claimable(st.rows[0], now)
    ensures Step(st, DoClaim(0, owner, now, expiresAt))
         == State([ClaimRow(st.rows[0], owner, st.nextToken, expiresAt)], st.debts, st.nextToken + 1)
  {
    assert Select(st.rows, ExpiredBy(now), 1) == [];
    assert RecoverExpired(st, now) == st;
    var next := ClaimOne(st, 0, owner, now, expiresAt);
    assert ClaimEach(next, [0][1..], owner, now, expiresAt).0 == next;
  }

  lemma ScopeDelivered(rows: seq<Row>, s: Scope)
    requires |rows| == 1 && InScope(rows[0], s) && rows[0].status == Delivered
    ensures ScopeStatus(rows, s) == Closed && SomeSettled(rows, s)
  {}

  lemma Delivers()
    ensures Run(TRACKED, DELIVERING) == DONE
  {
    hide Step, Trim, Claimable;
    var row := NewRow(FIRST.q, 0);
    OneUnitBody(0x61);
    Enqueues(TRACKED, FIRST);
    var st1 := TRACKED.(rows := [row]);
    assert Step(TRACKED, FIRST) == st1;
    ClaimsOnlyFirst(st1);
    var st2 := State([ClaimRow(row, [0x6F], 0, 9)], map[SCOPE := Tracking], 1);
    DeliversOnly(st2);
    assert Run(TRACKED, DELIVERING) == Run(st1, DELIVERING[1..]) == Run(st2, DELIVERING[1..][1..]);
    assert Run(st2, DELIVERING[1..][1..]) == Run(Step(st2, DELIVERING[2]), []);
  }

  lemma ClaimsOnlyFirst(st: State)
    requires st == TRACKED.(rows := [NewRow(FIRST.q, 0)])
    ensures Step(st, DELIVERING[1]) == State([ClaimRow(st.rows[0], [0x6F], 0, 9)], st.debts, 1)
  {
    ClaimsOnly(st, [0x6F], 0, 9);
    hide Step;
  }

  lemma DeliversOnly(st: State)
    requires st == State([ClaimRow(NewRow(FIRST.q, 0), [0x6F], 0, 9)], map[SCOPE := Tracking], 1)
    ensures Step(st, DELIVERING[2]) == DONE
  {
    ScopeDelivered([SENT], SCOPE);
    hide ScopeStatus;
    assert Settle(st.rows[0], Delivered) == SENT;
    assert st.rows[0 := SENT] == [SENT];
  }

  /** Debt s stands apart from what its rows say. */
  ghost predicate Apart(st: State, s: Scope, debt: DebtStatus, rows: DebtStatus) {
    !DebtsOk(st) && s in st.debts && st.debts[s] == debt && ScopeStatus(st.rows, s) == rows
  }

  lemma ApartWhen(st: State, s: Scope, debt: DebtStatus)
    requires s in st.debts && st.debts[s] == debt && SomeSettled(st.rows, s) && debt != ScopeStatus(st.rows, s)
    ensures Apart(st, s, debt, ScopeStatus(st.rows, s))
  {
    hide ScopeStatus, SomeSettled;
    assert !Mirrored(st, s);
  }

  lemma SecondIsApart()
    ensures Reopens(DONE, SECOND) && Apart(Step(DONE, SECOND), SCOPE, Closed, Delivering)
  {
    hide Trim, Apart;
    OneUnitBody(0x62);
    Enqueues(DONE, SECOND);
    ScopeDelivered([SENT], SCOPE);
    hide Step;
    var next := Step(DONE, SECOND);
    assert next.rows[0] == SENT && next.rows[1].status == Pending && InScope(next.rows[1], SCOPE);
    assert SomeSettled(next.rows, SCOPE) && ScopeStatus(next.rows, SCOPE) == Delivering;
    hide ScopeStatus, SomeSettled;
    ApartWhen(next, SCOPE, Closed);
  }

  lemma RecordIsApart()
    ensures var op := DoWriteDebt(SCOPE, Some(Delivering));
      Contradicts(DONE, op) && Apart(Step(DONE, op), SCOPE, Delivering, Closed)
  {
    hide ScopeStatus, SomeSettled, Apart;
    ScopeDelivered([SENT], SCOPE);
    ApartWhen(Step(DONE, DoWriteDebt(SCOPE, Some(Delivering))), SCOPE, Delivering);
  }

  /**
   Reopening happens: after the only message of a scope is delivered another one
   is enqueued. Its debt stays closed while the message is still to be sent.
   */
  lemma ReopeningHappens()
    ensures Reopens(Run(TRACKED, DELIVERING), SECOND)
    ensures Apart(Step(Run(TRACKED, DELIVERING), SECOND), SCOPE, Closed, Delivering)
  {
    hide Step, Run, Apart, Reopens;
    Delivers();
    SecondIsApart();
  }

  /**
   So does a contradiction: a sender records its message as enqueued only after
   the message has been delivered. The debt goes back to delivering although
   nothing of its scope is left to send.
   */
  lemma LateRecordHappens()
    ensures Contradicts(Run(TRACKED, DELIVERING), DoWriteDebt(SCOPE, Some(Delivering)))
    ensures Apart(Step(Run(TRACKED, DELIVERING), DoWriteDebt(SCOPE, Some(Delivering))), SCOPE, Delivering, Closed)
  {
    hide Step, Run, Apart, Contradicts;
    Delivers();
    RecordIsApart();
  }

  // -- Fencing ------------------------------------------------

  /** An issued token that no row holds. */
  ghost predicate Stale(st: State, token: Token) {
    token < st.nextToken
    && forall i :: 0 <= i < |st.rows| && st.rows[i].claim.Some? ==> st.rows[i].claim.value.token != token
  }

  predicate UsesToken(op: Op, token: Token) {
    match op
    case DoRenew(_, t, _, _) => t == token
    case DoDeliver(_, t) => t == token
    case DoRetry(_, t, _, _) => t == token
    case DoFail(_, t) => t == token
    case _ => false
  }

  lemma StepKeepsStale(st: State, op: Op, token: Token)
    requires Inv(st) && Admissible(op) && Stale(st, token)
    ensures Stale(Step(st, op), token)
  {
    StepEvolves(st, op);
    hide Inv, Step;
    var next := Step(st, op);
    forall i | 0 <= i < |next.rows| && next.rows[i].claim.Some? ensures next.rows[i].claim.value.token != token {
      if i < |st.rows| && !IsEnqueue(op) {
        assert Evolved(st.rows[i], next.rows[i], st.nextToken);
      }
    }
  }

  lemma {:induction false} RunKeepsStale(st: State, ops: seq<Op>, token: Token)
    requires Inv(st) && AllAdmissible(ops) && Stale(st, token)
    ensures Inv(Run(st, ops)) && Stale(Run(st, ops), token)
    decreases |ops|
  {
    hide Inv, Stale, Step;
    if ops != [] {
      StepKeepsInv(st, ops[0]);
      StepKeepsStale(st, ops[0], token);
      assert AllAdmissible(ops[1..]);
      RunKeepsStale(Step(st, ops[0]), ops[1..], token);
    }
  }

  lemma StaleTokenIsInert(st: State, op: Op, token: Token)
    requires Stale(st, token) && UsesToken(op, token)
    ensures Step(st, op) == st
  {
  }

  /** A token leaves its row for good: whatever takes it away makes it stale. */
  lemma LostTokenIsStale(st: State, op: Op, i: nat, token: Token)
    requires Inv(st) && Admissible(op) && Holds(st.rows, i, token)
    requires !Holds(Step(st, op).rows, i, token)
    ensures Stale(Step(st, op), token)
  {
    StepEvolves(st, op);
    StepKeepsInv(st, op);
    var next := Step(st, op);
    assert i < |next.rows| && WellFormed(next.rows[i]);
    assert TokensOk(st.rows, st.nextToken);
    hide Inv, Step;
    forall j | 0 <= j < |next.rows| && next.rows[j].claim.Some? ensures next.rows[j].claim.value.token != token {
      if j < |st.rows| && !IsEnqueue(op) {
        assert Evolved(st.rows[j], next.rows[j], st.nextToken);
      }
    }
  }

  /** Once recovered, settled or cancelled, a token changes nothing however the run goes on. */
  lemma FencedForever(st: State, op: Op, i: nat, token: Token, ops: seq<Op>, late: Op)
    requires Inv(st) && Admissible(op) && AllAdmissible(ops) && UsesToken(late, token)
    requires Holds(st.rows, i, token) && !Holds(Step(st, op).rows, i, token)
    ensures Step(Run(Step(st, op), ops), late) == Run(Step(st, op), ops)
  {
    hide Inv, Stale, Holds, Step;
    LostTokenIsStale(st, op, i, token);
    StepKeepsInv(st, op);
    RunKeepsStale(Step(st, op), ops, token);
    StaleTokenIsInert(Run(Step(st, op), ops), late, token);
  }

  /** Deliver, retry and fail give the token up, so each token settles its row at most once. */
  lemma SettlesOnce(st: State, op: Op, token: Token, ops: seq<Op>, late: Op)
    requires Inv(st) && AllAdmissible(ops) && UsesToken(op, token) && !op.DoRenew? && UsesToken(late, token)
    requires Step(st, op) != st
    ensures Step(Run(Step(st, op), ops), late) == Run(Step(st, op), ops)
  {
    SettlingGivesUp(st, op, token);
    FencedForever(st, op, op.id, token, ops, late);
  }

  lemma SettlingGivesUp(st: State, op: Op, token: Token)
    requires UsesToken(op, token) && !op.DoRenew? && Step(st, op) != st
    ensures Holds(st.rows, op.id, token) && !Holds(Step(st, op).rows, op.id, token)
  {
  }

  // -- Progress -----------------------------------------------

  function Total(rows: seq<Row>): int {
    if rows == [] then 0 else Total(rows[..|rows| - 1]) + Weight(rows[|rows| - 1])
  }

  predicate Moved(a: Row, b: Row) { (a.status, a.attempts) != (b.status, b.attempts) }

  lemma {:induction false} TotalLighter(rows: seq<Row>, next: seq<Row>)
    requires AllLighter(rows, next)
    ensures Total(next) <= Total(rows)
    ensures (exists i :: 0 <= i < |rows| && Moved(rows[i], next[i])) ==> Total(next) < Total(rows)
  {
    hide Weight;
    if rows != [] {
      var n := |rows| - 1;
      assert Lighter(rows[n], next[n]);
      TotalLighter(rows[..n], next[..n]);
      if i :| 0 <= i < n && Moved(rows[i], next[i]) {
        assert Moved(rows[..n][i], next[..n][i]);
      }
    }
  }

  /** Without enqueues and operator retries, a call that moves any row lowers the total. */
  lemma StepLowersTotal(st: State, op: Op)
    requires Inv(st) && !IsEnqueue(op) && !op.DoRetryFailed?
    ensures var next := Step(st, op);
      && |next.rows| == |st.rows| && Total(next.rows) <= Total(st.rows)
      && ((exists i :: 0 <= i < |st.rows| && Moved(st.rows[i], next.rows[i])) ==> Total(next.rows) < Total(st.rows))
  {
    if op.DoWriteDebt? { WriteDebtKeeps(st, op.scope, op.debt); } else { StepForward(st, op); }
    hide Inv, DebtsOk, Step, Lighter, Evolved;
    TotalLighter(st.rows, Step(st, op).rows);
  }

  lemma {:induction false} TotalNonNegative(rows: seq<Row>)
    requires RowsOk(rows)
    ensures Total(rows) >= 0
  {
    if rows != [] {
      assert WellFormed(rows[|rows| - 1]);
      TotalNonNegative(rows[..|rows| - 1]);
    }
  }

  /** How many calls of a run move some row. */
  ghost function Moves(st: State, ops: seq<Op>): nat
    decreases |ops|
  {
    if ops == [] then 0
    else
      var next := Step(st, ops[0]);
      Moves(next, ops[1..])
        + (if |next.rows| == |st.rows| && exists i :: 0 <= i < |st.rows| && Moved(st.rows[i], next.rows[i])
           then 1 else 0)
  }

  /** So the total bounds how often rows can move at all before an operator steps in. */
  lemma {:induction false} MovesBounded(st: State, ops: seq<Op>)
    requires Inv(st) && forall k :: 0 <= k < |ops| ==> !IsEnqueue(ops[k]) && !ops[k].DoRetryFailed?
    ensures Moves(st, ops) <= Total(st.rows)
    decreases |ops|
  {
    TotalNonNegative(st.rows);
    hide Inv, Step, Moved, Total;
    if ops != [] {
      StepLowersTotal(st, ops[0]);
      StepKeepsInv(st, ops[0]);
      MovesBounded(Step(st, ops[0]), ops[1..]);
    }
  }

  // -- Repeating an enqueue -----------------------------------

  /** Row id is what the request would store. */
  ghost predicate Stored(rows: seq<Row>, q: Request, id: nat) {
    && id < |rows| && q.key.Some? && rows[id].key == q.key
    && Equivalent(rows[id], q) && Trim(q.content.body) != []
  }

  lemma EnqueueOneStores(rows: seq<Row>, q: Request, at: Time)
    requires q.key.Some? && EnqueueOne(rows, q, at).Success?
    ensures var one := EnqueueOne(rows, q, at).value; rows <= one.0 && Stored(one.0, q, one.1.id)
  {
    hide Trim;
  }

  lemma StoredLater(rows: seq<Row>, next: seq<Row>, q: Request, id: nat)
    requires Stored(rows, q, id) && id < |next|
    requires next[id].key == rows[id].key && next[id].part == rows[id].part && next[id].content == rows[id].content
    ensures Stored(next, q, id)
  {
  }

  ghost predicate AllStored(rows: seq<Row>, q: Request, group: Name, parts: seq<Text>, i: nat, made: seq<Enqueued>) {
    i + |made| == |parts|
    && forall k :: 0 <= k < |made| ==> Stored(rows, PartRequest(q, group, parts[i + k], i + k + 1, |parts|), made[k].id)
  }

  lemma {:induction false} EnqueueFromStores(rows: seq<Row>, q: Request, group: Name, parts: seq<Text>, i: nat,
                                             at: Time)
    requires i <= |parts| && q.key.Some? && EnqueueFrom(rows, q, group, parts, i, at).Success?
    ensures var r := EnqueueFrom(rows, q, group, parts, i, at).value;
      rows <= r.0 && AllStored(r.0, q, group, parts, i, r.1)
    decreases |parts| - i
  {
    hide EnqueueOne, Stored, PartKey;
    if i < |parts| {
      var one := PartRequest(q, group, parts[i], i + 1, |parts|);
      EnqueueOneStores(rows, one, at);
      var first := EnqueueOne(rows, one, at).value;
      EnqueueFromStores(first.0, q, group, parts, i + 1, at);
      var r := EnqueueFrom(rows, q, group, parts, i, at).value;
      var rest := EnqueueFrom(first.0, q, group, parts, i + 1, at).value;
      StoredGrows(first.0, r.0, one, first.1.id);
      forall k | 0 <= k < |r.1|
        ensures Stored(r.0, PartRequest(q, group, parts[i + k], i + k + 1, |parts|), r.1[k].id)
      {
        if k > 0 {
          assert r.1[k] == rest.1[k - 1];
          assert Stored(rest.0, PartRequest(q, group, parts[i + 1 + (k - 1)], i + 1 + (k - 1) + 1, |parts|),
                        rest.1[k - 1].id);
        }
      }
    }
  }

  lemma StoredGrows(rows: seq<Row>, next: seq<Row>, q: Request, id: nat)
    requires Stored(rows, q, id) && rows <= next
    ensures Stored(next, q, id)
  {
  }

  /** The caller may change only the attempt limit and the due time. */
  predicate SameDelivery(a: Request, b: Request) {
    a.key == b.key && a.content == b.content
  }

  lemma StoredIsDuplicate(rows: seq<Row>, q: Request, again: Request, id: nat, at: Time)
    requires Stored(rows, q, id) && KeysUnique(rows)
    requires again.key == q.key && again.part == q.part && again.content == q.content
    ensures EnqueueOne(rows, again, at) == Success((rows, Enqueued(id, true)))
  {
    hide Trim;
  }

  lemma {:induction false} EnqueueFromAgain(rows: seq<Row>, q: Request, again: Request, group: Name, parts: seq<Text>,
                                            i: nat, made: seq<Enqueued>, at: Time)
    requires i <= |parts| && KeysUnique(rows) && SameDelivery(q, again)
    requires AllStored(rows, q, group, parts, i, made)
    ensures var r := EnqueueFrom(rows, again, group, parts, i, at);
      && r.Success? && r.value.0 == rows && |r.value.1| == |made|
      && forall k :: 0 <= k < |made| ==> r.value.1[k] == Enqueued(made[k].id, true)
    decreases |parts| - i
  {
    hide EnqueueOne, KeysUnique, Stored, PartKey;
    if i < |parts| {
      var one := PartRequest(q, group, parts[i], i + 1, |parts|);
      assert Stored(rows, PartRequest(q, group, parts[i + 0], i + 0 + 1, |parts|), made[0].id);
      StoredIsDuplicate(rows, one, PartRequest(again, group, parts[i], i + 1, |parts|), made[0].id, at);
      forall k | 0 <= k < |made[1..]|
        ensures Stored(rows, PartRequest(q, group, parts[i + 1 + k], i + 1 + k + 1, |parts|), made[1..][k].id)
      {
        assert Stored(rows, PartRequest(q, group, parts[i + (k + 1)], i + (k + 1) + 1, |parts|), made[k + 1].id);
      }
      EnqueueFromAgain(rows, q, again, group, parts, i + 1, made[1..], at);
    }
  }

  lemma StepKeepsStored(st: State, op: Op, q: Request, id: nat)
    requires Inv(st) && Admissible(op) && Stored(st.rows, q, id)
    ensures Stored(Step(st, op).rows, q, id)
  {
    StepEvolves(st, op);
    hide Inv, Step, Stored;
    var next := Step(st, op);
    if IsEnqueue(op) {
      StoredGrows(st.rows, next.rows, q, id);
    } else {
      assert id < |st.rows| by { StoredInRange(st.rows, q, id); }
      assert Evolved(st.rows[id], next.rows[id], st.nextToken);
      StoredLater(st.rows, next.rows, q, id);
    }
  }

  lemma StoredInRange(rows: seq<Row>, q: Request, id: nat)
    requires Stored(rows, q, id)
    ensures id < |rows|
  {
  }

  lemma {:induction false} RunKeepsStored(st: State, ops: seq<Op>, q: Request, group: Name, parts: seq<Text>,
                                          made: seq<Enqueued>)
    requires Inv(st) && AllAdmissible(ops) && AllStored(st.rows, q, group, parts, 0, made)
    ensures Inv(Run(st, ops)) && AllStored(Run(st, ops).rows, q, group, parts, 0, made)
    decreases |ops|
  {
    hide Inv, Stored, Step, PartRequest;
    if ops != [] {
      var next := Step(st, ops[0]);
      StepKeepsInv(st, ops[0]);
      forall k | 0 <= k < |made|
        ensures Stored(next.rows, PartRequest(q, group, parts[0 + k], 0 + k + 1, |parts|), made[k].id)
      {
        StepKeepsStored(st, ops[0], PartRequest(q, group, parts[k], k + 1, |parts|), made[k].id);
      }
      assert AllAdmissible(ops[1..]);
      RunKeepsStored(next, ops[1..], q, group, parts, made);
    }
  }

  /**
   Repeating a keyed multipart call after any run changes nothing, raises no
   collision and returns the same rows, each marked as a duplicate.
   */
  lemma EnqueueAgain(st: State, q: Request, group: Name, limit: Option<nat>, at: Time, ops: seq<Op>, again: Request,
                     later: Time)
    requires Inv(st) && q.maxAttempts > 0 && q.key.Some? && AllAdmissible(ops) && SameDelivery(q, again)
    requires EnqueueMultipart(st, q, group, limit, at).1.Success?
    ensures var first := EnqueueMultipart(st, q, group, limit, at);
      var now := Run(first.0, ops);
      var r := EnqueueMultipart(now, again, group, limit, later);
      && r.0 == now && r.1.Success? && |r.1.value| == |first.1.value|
      && forall k :: 0 <= k < |r.1.value| ==> r.1.value[k] == Enqueued(first.1.value[k].id, true)
  {
    var first := EnqueueMultipart(st, q, group, limit, at);
    var parts := BodySplitter.SplitBody(q.content.body, limit).value;
    EnqueueFromStores(st.rows, q, group, parts, 0, at);
    MultipartKeepsInv(st, q, group, limit, at);
    RunKeepsStored(first.0, ops, q, group, parts, first.1.value);
    var now := Run(first.0, ops);
    assert KeysUnique(now.rows);
    hide Inv, Step, Run, AllStored, EnqueueFrom, KeysUnique, BodySplitter.SplitBody;
    EnqueueFromAgain(now.rows, q, again, group, parts, 0, first.1.value, later);
  }
}
