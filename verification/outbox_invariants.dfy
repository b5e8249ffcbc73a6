/**
 What every run of outbox operations keeps: the rows of a group always spell
 delivered* claimed? pending* cancelled* or delivered* failed cancelled*, and
 claims, attempts and tokens stay consistent.
 */
module OutboxInvariants {
  import opened Prelude
  import opened Outbox

  // -- The invariant ------------------------------------------

  /** A row is claimed iff it holds a token; a waiting row has an attempt left. */
  predicate WellFormed(r: Row) {
    && (r.status == Claimed <==> r.claim.Some?)
    && r.attempts <= r.maxAttempts
    && (r.status == Pending ==> r.attempts < r.maxAttempts)
    && (r.part.Some? ==> 1 <= r.part.value.index <= r.part.value.count)
  }

  ghost predicate RowsOk(rows: seq<Row>) {
    forall i :: 0 <= i < |rows| ==> WellFormed(rows[i])
  }

  /** Tokens in use have been issued, each to one row. */
  ghost predicate TokensOk(rows: seq<Row>, nextToken: Token) {
    && (forall i :: 0 <= i < |rows| && rows[i].claim.Some? ==> rows[i].claim.value.token < nextToken)
    && (forall i, j :: 0 <= i < j < |rows| && rows[i].claim.Some? && rows[j].claim.Some? ==>
          rows[i].claim.value.token != rows[j].claim.value.token)
  }

  /** How two rows of one group agree; no two rows are the same part. */
  predicate Kin(a: Row, b: Row) {
    a.part.Some? && b.part.Some? && a.part.value.group == b.part.value.group ==>
      && a.part.value.index != b.part.value.index
      && a.part.value.count == b.part.value.count
      && a.content.runId == b.content.runId
      && a.content.jobId == b.content.jobId
      && a.content.scope == b.content.scope
  }

  ghost predicate Cohesive(rows: seq<Row>) {
    forall i, j :: 0 <= i < |rows| && 0 <= j < |rows| && i != j ==> Kin(rows[i], rows[j])
  }

  /** The parts of a group lie side by side in the table. */
  predicate InPlace(rows: seq<Row>, i: nat)
    requires i < |rows|
  {
    rows[i].part.Some? ==>
      var p := rows[i].part.value;
      && (p.index > 1 ==> i > 0 && rows[i - 1].part == Some(Part(p.group, p.index - 1, p.count)))
      && (p.index < p.count ==> i + 1 < |rows| && rows[i + 1].part == Some(Part(p.group, p.index + 1, p.count)))
  }

  ghost predicate Contiguous(rows: seq<Row>) {
    forall i :: 0 <= i < |rows| ==> InPlace(rows, i)
  }

  ghost predicate KeysUnique(rows: seq<Row>) {
    forall i, j :: 0 <= i < j < |rows| && rows[i].key.Some? ==> rows[i].key != rows[j].key
  }

  /** The statuses an earlier and a later part of one group can have together. */
  predicate Allowed(earlier: Status, later: Status) {
    match earlier
    case Delivered => true
    case Claimed => later == Pending || later == Cancelled
    case Pending => later == Pending || later == Cancelled
    case Failed => later == Cancelled
    case Cancelled => later == Cancelled
  }

  ghost predicate Shape(rows: seq<Row>) {
    forall i, j :: 0 <= i < |rows| && 0 <= j < |rows| && EarlierPart(rows[i], rows[j]) ==>
      Allowed(rows[i].status, rows[j].status)
  }

  ghost predicate Inv(st: State) {
    && RowsOk(st.rows)
    && TokensOk(st.rows, st.nextToken)
    && Cohesive(st.rows)
    && Contiguous(st.rows)
    && KeysUnique(st.rows)
    && Shape(st.rows)
  }

  // -- How one operation changes a row ------------------------

  /** Three for each attempt left, two more while claimed, one for a failed row. */
  function Weight(r: Row): int {
    match r.status
    case Pending => 3 * (r.maxAttempts - r.attempts)
    case Claimed => 3 * (r.maxAttempts - r.attempts) + 2
    case Failed => 1
    case _ => 0
  }

  /** Only status, attempts, due time and claim ever change; delivered rows do not. */
  predicate Evolved(a: Row, b: Row, nextToken: Token) {
    && a.key == b.key && a.part == b.part && a.content == b.content && a.createdAt == b.createdAt
    && (a.status == Delivered ==> b == a)
    && (b.claim.Some? ==>
          || (a.claim.Some? && a.claim.value.token == b.claim.value.token)
          || b.claim.value.token >= nextToken)
  }

  predicate Lighter(a: Row, b: Row) {
    && Weight(b) <= Weight(a)
    && ((a.status, a.attempts) != (b.status, b.attempts) ==> Weight(b) < Weight(a))
  }

  ghost predicate AllEvolved(st: State, next: State) {
    && |st.rows| == |next.rows|
    && st.nextToken <= next.nextToken
    && forall i :: 0 <= i < |st.rows| ==> Evolved(st.rows[i], next.rows[i], st.nextToken)
  }

  ghost predicate AllLighter(rows: seq<Row>, next: seq<Row>) {
    && |rows| == |next|
    && forall i :: 0 <= i < |rows| ==> Lighter(rows[i], next[i])
  }

  /** The debt of a scope in which some row has settled says what its rows say. */
  ghost predicate Mirrored(st: State, s: Scope) {
    s in st.debts && SomeSettled(st.rows, s) ==> st.debts[s] == ScopeStatus(st.rows, s)
  }

  predicate SomeSettled(rows: seq<Row>, s: Scope) {
    exists i :: 0 <= i < |rows| && InScope(rows[i], s) && IsSettled(rows[i])
  }

  ghost predicate DebtsOk(st: State) {
    forall s: Scope :: s in st.debts ==> Mirrored(st, s)
  }

  /** What an operation that only moves existing rows forward guarantees. */
  ghost predicate Forward(st: State, next: State) {
    && AllEvolved(st, next)
    && AllLighter(st.rows, next.rows)
    && st.debts.Keys == next.debts.Keys
    && Inv(next)
    && (DebtsOk(st) ==> DebtsOk(next))
  }

  lemma ForwardTrans(a: State, b: State, c: State)
    requires Forward(a, b) && Forward(b, c)
    ensures Forward(a, c)
  {
    hide Inv, DebtsOk;
    forall i | 0 <= i < |a.rows|
      ensures Evolved(a.rows[i], c.rows[i], a.nextToken) && Lighter(a.rows[i], c.rows[i])
    {
      assert Evolved(a.rows[i], b.rows[i], a.nextToken) && Evolved(b.rows[i], c.rows[i], b.nextToken);
      assert Lighter(a.rows[i], b.rows[i]) && Lighter(b.rows[i], c.rows[i]);
    }
  }

  /** What is fixed at enqueue stays true however rows evolve. */
  lemma FixedKept(st: State, next: State)
    requires AllEvolved(st, next)
    requires Cohesive(st.rows) && Contiguous(st.rows) && KeysUnique(st.rows)
    ensures Cohesive(next.rows) && Contiguous(next.rows) && KeysUnique(next.rows)
  {
    hide Kin, InPlace;
    forall i | 0 <= i < |st.rows|
      ensures next.rows[i].key == st.rows[i].key && next.rows[i].part == st.rows[i].part
           && next.rows[i].content == st.rows[i].content
    {
      assert Evolved(st.rows[i], next.rows[i], st.nextToken);
    }
    forall i, j | 0 <= i < |next.rows| && 0 <= j < |next.rows| && i != j ensures Kin(next.rows[i], next.rows[j]) {
      assert Kin(st.rows[i], st.rows[j]);
      KinFixed(st.rows[i], st.rows[j], next.rows[i], next.rows[j]);
    }
    forall i | 0 <= i < |next.rows| ensures InPlace(next.rows, i) {
      assert InPlace(st.rows, i);
      InPlaceFixed(st.rows, next.rows, i);
    }
  }

  lemma KinFixed(a: Row, b: Row, c: Row, d: Row)
    requires Kin(a, b) && a.part == c.part && b.part == d.part && a.content == c.content && b.content == d.content
    ensures Kin(c, d)
  {
  }

  lemma InPlaceFixed(rows: seq<Row>, next: seq<Row>, i: nat)
    requires |rows| == |next| && i < |rows| && InPlace(rows, i)
    requires forall j :: 0 <= j < |rows| ==> rows[j].part == next[j].part
    ensures InPlace(next, i)
  {
  }

  // -- Single rows --------------------------------------------

  ghost predicate AllBeforeDelivered(rows: seq<Row>, i: nat)
    requires i < |rows|
  {
    forall j :: 0 <= j < |rows| && EarlierPart(rows[j], rows[i]) ==> rows[j].status == Delivered
  }

  /** The status changes one row can make without a word to the rest of its group. */
  ghost predicate Alone(rows: seq<Row>, i: nat, status: Status)
    requires i < |rows|
  {
    || (rows[i].status == Claimed && (status == Pending || status == Delivered || status == Claimed))
    || (rows[i].status == Pending && status == Claimed && AllBeforeDelivered(rows, i))
  }

  lemma ReplaceKeepsShape(rows: seq<Row>, i: nat, r: Row)
    requires i < |rows| && Shape(rows) && r.part == rows[i].part && Alone(rows, i, r.status)
    ensures Shape(rows[i := r])
  {
    var next := rows[i := r];
    forall a, b | 0 <= a < |rows| && 0 <= b < |rows| && EarlierPart(next[a], next[b])
      ensures Allowed(next[a].status, next[b].status)
    {
      assert EarlierPart(rows[a], rows[b]) && Allowed(rows[a].status, rows[b].status);
    }
  }

  /** Stopping row i and cancelling what waits behind it. */
  lemma StopKeepsShape(rows: seq<Row>, i: nat, status: Status)
    requires i < |rows| && Shape(rows) && Cohesive(rows)
    requires (rows[i].status == Claimed && status == Failed) || (IsOpen(rows[i]) && status == Cancelled)
    ensures Shape(CancelLater(rows[i := Settle(rows[i], status)], i))
  {
    var next := CancelLater(rows[i := Settle(rows[i], status)], i);
    forall a, b | 0 <= a < |rows| && 0 <= b < |rows| && EarlierPart(next[a], next[b])
      ensures Allowed(next[a].status, next[b].status)
    {
      assert EarlierPart(rows[a], rows[b]) && Allowed(rows[a].status, rows[b].status);
      assert Kin(rows[a], rows[i]) || a == i;
      assert Kin(rows[b], rows[i]) || b == i;
      assert EarlierPart(rows[i], rows[a]) ==> Allowed(rows[i].status, rows[a].status);
      assert EarlierPart(rows[i], rows[b]) ==> Allowed(rows[i].status, rows[b].status);
      assert EarlierPart(rows[a], rows[i]) ==> Allowed(rows[a].status, rows[i].status);
    }
  }

  // -- Debts --------------------------------------------------

  /** Rows that a debt cannot tell apart. */
  predicate SameVerdict(a: Row, b: Row) {
    (a.status == Delivered <==> b.status == Delivered) && (IsStopped(a) <==> IsStopped(b))
  }

  lemma ScopeUnmoved(rows: seq<Row>, next: seq<Row>, s: Scope)
    requires |rows| == |next|
    requires forall i :: 0 <= i < |rows| ==> rows[i].content == next[i].content
    requires forall i :: 0 <= i < |rows| && InScope(rows[i], s) ==> SameVerdict(rows[i], next[i])
    ensures ScopeStatus(next, s) == ScopeStatus(rows, s)
    ensures SomeSettled(next, s) <==> SomeSettled(rows, s)
  {
    assert forall i :: 0 <= i < |rows| && InScope(next[i], s) ==> InScope(rows[i], s);
    if i :| 0 <= i < |rows| && InScope(rows[i], s) && IsStopped(rows[i]) {
      assert InScope(next[i], s) && IsStopped(next[i]);
    }
    if i :| 0 <= i < |rows| && InScope(rows[i], s) {
      assert InScope(next[i], s);
    }
    if SomeSettled(rows, s) {
      var i :| 0 <= i < |rows| && InScope(rows[i], s) && IsSettled(rows[i]);
      assert InScope(next[i], s) && IsSettled(next[i]);
    }
  }

  /** Only rows of one scope change their verdict, and that scope is reconciled. */
  lemma ReconcileKeepsDebts(st: State, rows: seq<Row>, nextToken: Token, scope: Option<Scope>)
    requires |rows| == |st.rows| && DebtsOk(st)
    requires forall i :: 0 <= i < |rows| ==> st.rows[i].content == rows[i].content
    requires forall i :: 0 <= i < |rows| && st.rows[i].content.scope != scope ==> SameVerdict(st.rows[i], rows[i])
    ensures DebtsOk(Reconcile(State(rows, st.debts, nextToken), scope))
  {
    hide ScopeStatus, SomeSettled;
    var next := Reconcile(State(rows, st.debts, nextToken), scope);
    forall s | s in next.debts ensures Mirrored(next, s) {
      if Some(s) != scope {
        assert Mirrored(st, s);
        ScopeUnmoved(st.rows, rows, s);
      }
    }
  }

  lemma NoVerdictKeepsDebts(st: State, rows: seq<Row>, nextToken: Token)
    requires |rows| == |st.rows| && DebtsOk(st)
    requires forall i :: 0 <= i < |rows| ==> st.rows[i].content == rows[i].content
    requires forall i :: 0 <= i < |rows| ==> SameVerdict(st.rows[i], rows[i])
    ensures DebtsOk(State(rows, st.debts, nextToken))
  {
    ReconcileKeepsDebts(st, rows, nextToken, None);
  }

  // -- Single steps -------------------------------------------

  /** A token row r may carry: its old one, or the next one to be issued. */
  predicate TokenFits(a: Row, b: Row, nextToken: Token, laterToken: Token) {
    && nextToken <= laterToken
    && (b.claim.Some? ==>
          || (a.claim.Some? && a.claim.value.token == b.claim.value.token)
          || nextToken == b.claim.value.token < laterToken)
  }

  lemma ReplaceKeepsTokens(rows: seq<Row>, i: nat, r: Row, nextToken: Token, laterToken: Token)
    requires i < |rows| && TokensOk(rows, nextToken) && TokenFits(rows[i], r, nextToken, laterToken)
    ensures TokensOk(rows[i := r], laterToken)
  {
  }

  /** Row i changes by itself to r; issuing a token counts whether or not it is used. */
  lemma ReplaceKeepsInv(st: State, i: nat, r: Row, laterToken: Token)
    requires i < |st.rows| && Inv(st) && WellFormed(r)
    requires Evolved(st.rows[i], r, st.nextToken) && Alone(st.rows, i, r.status)
    requires TokenFits(st.rows[i], r, st.nextToken, laterToken)
    ensures var next := State(st.rows[i := r], st.debts, laterToken);
      Inv(next) && AllEvolved(st, next)
  {
    hide Alone, Evolved, WellFormed, TokensOk, Shape, Cohesive, Contiguous, KeysUnique;
    var next := State(st.rows[i := r], st.debts, laterToken);
    assert Evolved(st.rows[i], r, st.nextToken);
    EvolvedAll(st, i, r, laterToken);
    FixedKept(st, next);
    ReplaceKeepsTokens(st.rows, i, r, st.nextToken, laterToken);
    EvolvedPart(st.rows[i], r, st.nextToken);
    ReplaceKeepsShape(st.rows, i, r);
  }

  lemma EvolvedPart(a: Row, b: Row, nextToken: Token)
    requires Evolved(a, b, nextToken)
    ensures a.part == b.part && a.content == b.content
  {
  }

  lemma EvolvedAll(st: State, i: nat, r: Row, laterToken: Token)
    requires i < |st.rows| && Evolved(st.rows[i], r, st.nextToken) && st.nextToken <= laterToken
    ensures AllEvolved(st, State(st.rows[i := r], st.debts, laterToken))
  {
  }

  lemma LighterAll(rows: seq<Row>, i: nat, r: Row)
    requires i < |rows| && Lighter(rows[i], r)
    ensures AllLighter(rows, rows[i := r])
  {
  }

  /** A row that changes alone, its debt unmoved. */
  lemma ReplaceForward(st: State, i: nat, r: Row, laterToken: Token)
    requires i < |st.rows| && Inv(st) && WellFormed(r)
    requires Evolved(st.rows[i], r, st.nextToken) && Alone(st.rows, i, r.status) && Lighter(st.rows[i], r)
    requires TokenFits(st.rows[i], r, st.nextToken, laterToken) && SameVerdict(st.rows[i], r)
    ensures Forward(st, State(st.rows[i := r], st.debts, laterToken))
  {
    ReplaceKeepsInv(st, i, r, laterToken);
    hide Inv, Alone, TokenFits, WellFormed, Lighter, DebtsOk;
    LighterAll(st.rows, i, r);
    if DebtsOk(st) {
      NoVerdictKeepsDebts(st, st.rows[i := r], laterToken);
    }
  }

  /** A row that changes alone and whose debt is then reconciled. */
  lemma ReplaceAndReconcileForward(st: State, i: nat, r: Row)
    requires i < |st.rows| && Inv(st) && WellFormed(r)
    requires Evolved(st.rows[i], r, st.nextToken) && Alone(st.rows, i, r.status) && Lighter(st.rows[i], r)
    requires r.claim == None
    ensures Forward(st, Reconcile(st.(rows := st.rows[i := r]), st.rows[i].content.scope))
  {
    ReplaceKeepsInv(st, i, r, st.nextToken);
    hide Inv, Alone, TokenFits, WellFormed, Lighter, DebtsOk, ScopeStatus;
    LighterAll(st.rows, i, r);
    var next := State(st.rows[i := r], st.debts, st.nextToken);
    InvIgnoresDebts(next, Reconcile(next, st.rows[i].content.scope));
    if DebtsOk(st) {
      ReconcileKeepsDebts(st, st.rows[i := r], st.nextToken, st.rows[i].content.scope);
    }
  }

  lemma InvIgnoresDebts(a: State, b: State)
    requires Inv(a) && a.rows == b.rows && a.nextToken == b.nextToken
    ensures Inv(b)
  {
  }

  /** b is a, or a stopped while it was open. */
  predicate StoppedOrSame(a: Row, b: Row) {
    b == a || (IsOpen(a) && (b == Settle(a, Cancelled) || (a.status == Claimed && b == Settle(a, Failed))))
  }

  lemma StoppingIsForward(a: Row, b: Row, nextToken: Token)
    requires StoppedOrSame(a, b) && WellFormed(a)
    ensures WellFormed(b) && Evolved(a, b, nextToken) && Lighter(a, b)
    ensures b.claim == None || b.claim == a.claim
  {
  }

  /** Rows that only stop keep everything but, perhaps, the shape and the debts. */
  lemma StoppingKeeps(st: State, rows: seq<Row>)
    requires Inv(st) && |rows| == |st.rows| && Shape(rows)
    requires forall j :: 0 <= j < |rows| ==> StoppedOrSame(st.rows[j], rows[j])
    ensures var next := st.(rows := rows); Inv(next) && AllEvolved(st, next) && AllLighter(st.rows, rows)
  {
    hide StoppedOrSame, WellFormed, Evolved, Lighter, Shape, Cohesive, Contiguous, KeysUnique;
    var next := st.(rows := rows);
    forall j | 0 <= j < |rows|
      ensures WellFormed(rows[j]) && Evolved(st.rows[j], rows[j], st.nextToken) && Lighter(st.rows[j], rows[j])
      ensures rows[j].claim == None || rows[j].claim == st.rows[j].claim
    {
      StoppingIsForward(st.rows[j], rows[j], st.nextToken);
    }
    FixedKept(st, next);
  }

  lemma StopRow(rows: seq<Row>, i: nat, status: Status, j: nat)
    requires i < |rows| && j < |rows| && Cohesive(rows)
    requires (rows[i].status == Claimed && status == Failed) || (IsOpen(rows[i]) && status == Cancelled)
    ensures var next := CancelLater(rows[i := Settle(rows[i], status)], i);
      && StoppedOrSame(rows[j], next[j])
      && (next[j] == rows[j] || rows[j].content.scope == rows[i].content.scope)
  {
    assert i != j ==> Kin(rows[i], rows[j]);
  }

  /** A held row fails, or an open one is cancelled; its group and its debt follow. */
  lemma StopForward(st: State, i: nat, status: Status)
    requires i < |st.rows| && Inv(st)
    requires (st.rows[i].status == Claimed && status == Failed) || (IsOpen(st.rows[i]) && status == Cancelled)
    ensures Forward(st, Stop(st, i, status))
  {
    var rows := CancelLater(st.rows[i := Settle(st.rows[i], status)], i);
    var scope := st.rows[i].content.scope;
    forall j | 0 <= j < |rows|
      ensures StoppedOrSame(st.rows[j], rows[j])
      ensures rows[j] == st.rows[j] || st.rows[j].content.scope == scope
    {
      StopRow(st.rows, i, status, j);
    }
    StopKeepsShape(st.rows, i, status);
    StoppingKeeps(st, rows);
    StopDebts(st, rows, scope);
  }

  lemma StopDebts(st: State, rows: seq<Row>, scope: Option<Scope>)
    requires |rows| == |st.rows|
    requires var next := st.(rows := rows); Inv(next) && AllEvolved(st, next) && AllLighter(st.rows, rows)
    requires forall j :: 0 <= j < |rows| ==> rows[j] == st.rows[j] || st.rows[j].content.scope == scope
    ensures Forward(st, Reconcile(st.(rows := rows), scope))
  {
    hide Inv, Lighter, DebtsOk, ScopeStatus;
    InvIgnoresDebts(st.(rows := rows), Reconcile(st.(rows := rows), scope));
    if DebtsOk(st) {
      EvolvedDebts(st, rows, scope);
    }
  }

  lemma EvolvedDebts(st: State, rows: seq<Row>, scope: Option<Scope>)
    requires DebtsOk(st) && |rows| == |st.rows| && AllEvolved(st, st.(rows := rows))
    requires forall j :: 0 <= j < |rows| ==> rows[j] == st.rows[j] || st.rows[j].content.scope == scope
    ensures DebtsOk(Reconcile(st.(rows := rows), scope))
  {
    hide DebtsOk, ScopeStatus;
    forall j | 0 <= j < |rows| ensures st.rows[j].content == rows[j].content {
      assert Evolved(st.rows[j], rows[j], st.nextToken);
    }
    ReconcileKeepsDebts(st, rows, st.nextToken, scope);
  }

  lemma ForwardRefl(st: State)
    requires Inv(st)
    ensures Forward(st, st)
  {
    hide Inv, DebtsOk;
  }

  // -- Operations ---------------------------------------------

  lemma RecoverOneForward(st: State, i: nat, now: Time)
    requires i < |st.rows| && Inv(st)
    ensures Forward(st, RecoverOne(st, i, now))
  {
    assert WellFormed(st.rows[i]);
    hide Inv, DebtsOk, Stop, Forward;
    if !Expired(st.rows[i], now) {
      ForwardRefl(st);
    } else if st.rows[i].attempts >= st.rows[i].maxAttempts {
      StopForward(st, i, Failed);
    } else {
      ReplaceForward(st, i, Requeue(st.rows[i], now), st.nextToken);
    }
  }

  lemma {:induction false} RecoverEachForward(st: State, ids: seq<nat>, now: Time)
    requires ValidIds(st.rows, ids) && Inv(st)
    ensures Forward(st, RecoverEach(st, ids, now))
    decreases |ids|
  {
    if ids == [] {
      ForwardRefl(st);
    } else {
      hide RecoverOne, DebtsOk, AllEvolved, AllLighter;
      var next := RecoverOne(st, ids[0], now);
      RecoverOneForward(st, ids[0], now);
      assert Inv(next);
      hide Inv;
      RecoverEachForward(next, ids[1..], now);
      ForwardTrans(st, next, RecoverEach(next, ids[1..], now));
    }
  }

  lemma RecoverExpiredForward(st: State, now: Time)
    requires Inv(st)
    ensures Forward(st, RecoverExpired(st, now))
  {
    hide Inv, Forward, RecoverEach;
    RecoverEachForward(st, Select(st.rows, ExpiredBy(now), |st.rows|), now);
  }

  lemma {:induction false} SelectNone(rows: seq<Row>, q: Query, n: nat)
    requires n <= |rows| && forall i :: 0 <= i < n ==> !Matches(rows, i, q)
    ensures Select(rows, q, n) == []
  {
    if n > 0 {
      SelectNone(rows, q, n - 1);
    }
  }

  /** From fresh enqueues no waiting row ever runs out of attempts. */
  lemma NothingExhausted(st: State, now: Time)
    requires Inv(st)
    ensures FailExhausted(st, now) == st
  {
    var ids := Select(st.rows, ExhaustedPending, |st.rows|);
    forall i | 0 <= i < |st.rows| ensures !Matches(st.rows, i, ExhaustedPending) {
      assert WellFormed(st.rows[i]);
    }
    SelectNone(st.rows, ExhaustedPending, |st.rows|);
    forall i | 0 <= i < |st.rows| ensures FailExhaustedRow(st.rows[i], now) == st.rows[i] {
      assert WellFormed(st.rows[i]);
    }
    assert FailExhaustedRows(st.rows, now) == st.rows;
  }

  lemma ClaimOneForward(st: State, i: nat, owner: Name, now: Time, expiresAt: Time)
    requires i < |st.rows| && Inv(st) && PredecessorsDelivered(st.rows, i)
    ensures Forward(st, ClaimOne(st, i, owner, now, expiresAt))
  {
    assert WellFormed(st.rows[i]);
    if Claimable(st.rows[i], now) {
      forall j | 0 <= j < |st.rows| && EarlierPart(st.rows[j], st.rows[i])
        ensures st.rows[j].status == Delivered
      {
        assert WellFormed(st.rows[j]);
      }
      var r := ClaimRow(st.rows[i], owner, st.nextToken, expiresAt);
      hide Inv, Forward;
      ReplaceForward(st, i, r, st.nextToken + 1);
    } else {
      assert st.rows[i := st.rows[i]] == st.rows;
      hide DebtsOk;
      assert TokensOk(st.rows, st.nextToken + 1);
      if DebtsOk(st) {
        NoVerdictKeepsDebts(st, st.rows, st.nextToken + 1);
      }
    }
  }

  /** Claiming leaves predecessors that are delivered as they are. */
  lemma DeliveredStayBefore(st: State, next: State, i: nat)
    requires AllEvolved(st, next) && i < |st.rows| && PredecessorsDelivered(st.rows, i)
    ensures PredecessorsDelivered(next.rows, i)
  {
    forall j | 0 <= j < |st.rows| ensures Evolved(st.rows[j], next.rows[j], st.nextToken) {}
  }

  lemma {:induction false} ClaimEachForward(st: State, ids: seq<nat>, owner: Name, now: Time, expiresAt: Time)
    requires ValidIds(st.rows, ids) && Inv(st)
    requires forall k :: 0 <= k < |ids| ==> PredecessorsDelivered(st.rows, ids[k])
    ensures Forward(st, ClaimEach(st, ids, owner, now, expiresAt).0)
    decreases |ids|
  {
    if ids == [] {
      ForwardRefl(st);
    } else {
      var next := ClaimOne(st, ids[0], owner, now, expiresAt);
      ClaimOneForward(st, ids[0], owner, now, expiresAt);
      hide ClaimOne, DebtsOk, AllEvolved, AllLighter, PredecessorsDelivered, Inv;
      forall k | 0 <= k < |ids[1..]| ensures PredecessorsDelivered(next.rows, ids[1..][k]) {
        DeliveredStayBefore(st, next, ids[k + 1]);
      }
      ClaimEachForward(next, ids[1..], owner, now, expiresAt);
      ForwardTrans(st, next, ClaimEach(next, ids[1..], owner, now, expiresAt).0);
    }
  }

  lemma BeforeClaimsForward(st: State, now: Time)
    requires Inv(st)
    ensures Forward(st, BeforeClaims(st, now)) && BeforeClaims(st, now) == RecoverExpired(st, now)
  {
    hide RecoverExpired, FailExhausted, Inv, AllEvolved, AllLighter, DebtsOk;
    RecoverExpiredForward(st, now);
    NothingExhausted(RecoverExpired(st, now), now);
  }

  lemma RenewForward(st: State, id: nat, token: Token, now: Time, expiresAt: Time)
    requires Inv(st)
    ensures Forward(st, Renew(st, id, token, now, expiresAt))
  {
    if Holds(st.rows, id, token) && st.rows[id].claim.value.expiresAt > now {
      assert WellFormed(st.rows[id]);
      hide Inv, Forward;
      ReplaceForward(st, id, st.rows[id].(claim := Some(st.rows[id].claim.value.(expiresAt := expiresAt))),
                     st.nextToken);
    } else {
      ForwardRefl(st);
    }
  }

  lemma DeliverForward(st: State, id: nat, token: Token)
    requires Inv(st)
    ensures Forward(st, Deliver(st, id, token))
  {
    if Holds(st.rows, id, token) {
      assert WellFormed(st.rows[id]);
      hide Inv, Forward, Reconcile;
      ReplaceAndReconcileForward(st, id, Settle(st.rows[id], Delivered));
    } else {
      ForwardRefl(st);
    }
  }

  lemma RetryForward(st: State, id: nat, token: Token, nowMs: nat, delayMs: Option<nat>)
    requires Inv(st)
    ensures Forward(st, Retry(st, id, token, nowMs, delayMs))
  {
    if !Holds(st.rows, id, token) {
      ForwardRefl(st);
    } else {
      assert WellFormed(st.rows[id]);
      hide Inv, Forward, Reconcile, Stop, RetryAt;
      if st.rows[id].attempts >= st.rows[id].maxAttempts {
        StopForward(st, id, Failed);
      } else {
        var at := RetryAt(st.rows[id].attempts, nowMs, delayMs);
        ReplaceAndReconcileForward(st, id, Requeue(st.rows[id], at));
      }
    }
  }

  lemma FailForward(st: State, id: nat, token: Token)
    requires Inv(st)
    ensures Forward(st, Fail(st, id, token))
  {
    if Holds(st.rows, id, token) {
      StopForward(st, id, Failed);
    } else {
      ForwardRefl(st);
    }
  }

  lemma CancelOneForward(st: State, id: nat)
    requires Inv(st)
    ensures Forward(st, CancelOne(st, id))
  {
    if id < |st.rows| && IsOpen(st.rows[id]) {
      StopForward(st, id, Cancelled);
    } else {
      ForwardRefl(st);
    }
  }

  /** The parts of a group share their run and job, so they are cancelled together. */
  lemma CancelLinkedKeepsShape(rows: seq<Row>, link: Link)
    requires Shape(rows) && Cohesive(rows)
    ensures Shape(CancelLinkedRows(rows, link))
  {
    var next := CancelLinkedRows(rows, link);
    forall a, b | 0 <= a < |rows| && 0 <= b < |rows| && EarlierPart(next[a], next[b])
      ensures Allowed(next[a].status, next[b].status)
    {
      assert EarlierPart(rows[a], rows[b]) && Allowed(rows[a].status, rows[b].status);
      assert Kin(rows[a], rows[b]);
    }
  }

  lemma CancelLinkedDebts(st: State, link: Link)
    requires DebtsOk(st)
    ensures DebtsOk(CancelLinked(st, link))
  {
    var rows := CancelLinkedRows(st.rows, link);
    var scopes := LinkedScopes(st.rows, link);
    var next := CancelLinked(st, link);
    forall s | s in next.debts ensures Mirrored(next, s) {
      if s !in scopes {
        assert Mirrored(st, s);
        forall i | 0 <= i < |rows| && InScope(st.rows[i], s) ensures SameVerdict(st.rows[i], rows[i]) {
          assert !Linked(st.rows[i], link);
        }
        hide ScopeStatus, SomeSettled, InScope;
        ScopeUnmoved(st.rows, rows, s);
      }
    }
  }

  lemma CancelLinkedForward(st: State, link: Link)
    requires Inv(st)
    ensures Forward(st, CancelLinked(st, link))
  {
    hide DebtsOk, ScopeStatus, LinkedScopes;
    var rows := CancelLinkedRows(st.rows, link);
    CancelLinkedKeepsShape(st.rows, link);
    StoppingKeeps(st, rows);
    hide Lighter, Evolved;
    InvIgnoresDebts(st.(rows := rows), CancelLinked(st, link));
    if DebtsOk(st) {
      CancelLinkedDebts(st, link);
    }
  }

  lemma ClaimDueForward(st: State, owner: Name, limit: nat, channel: Option<Name>, target: Option<Name>,
                        now: Time, expiresAt: Time)
    requires Inv(st)
    ensures Forward(st, ClaimDue(st, owner, limit, channel, target, now, expiresAt).0)
  {
    hide Inv, AllEvolved, AllLighter, DebtsOk, BeforeClaims, DueRows, ClaimEach, PredecessorsDelivered;
    BeforeClaimsForward(st, now);
    var ready := BeforeClaims(st, now);
    DueRowsMatch(ready.rows, now, channel, target, limit);
    ClaimEachForward(ready, DueRows(ready.rows, now, channel, target, limit), owner, now, expiresAt);
    ForwardTrans(st, ready, ClaimDue(st, owner, limit, channel, target, now, expiresAt).0);
  }

  /** Every row picked for a claim is due, and none is picked twice. */
  lemma DueRowsMatch(rows: seq<Row>, now: Time, channel: Option<Name>, target: Option<Name>, limit: nat)
    ensures var ids := DueRows(rows, now, channel, target, limit);
      AllMatch(rows, ids, DueAt(now, channel, target)) && Distinct(ids)
  {
    var q := DueAt(now, channel, target);
    var found := Select(rows, q, |rows|);
    OrderKeeps(rows, found, q);
    hide AllMatch, Distinct, Matches;
    PrefixKeeps(rows, OrderByDue(rows, found), limit, q);
  }

  lemma {:induction false} OrderKeeps(rows: seq<Row>, ids: seq<nat>, q: Query)
    requires ValidIds(rows, ids) && AllMatch(rows, ids, q) && Distinct(ids)
    ensures AllMatch(rows, OrderByDue(rows, ids), q) && Distinct(OrderByDue(rows, ids))
    ensures forall x :: x in OrderByDue(rows, ids) <==> x in ids
  {
    hide Matches, Before;
    if ids != [] {
      assert ids == [ids[0]] + ids[1..];
      OrderKeeps(rows, ids[1..], q);
      InsertKeeps(rows, ids[0], OrderByDue(rows, ids[1..]), q);
    }
  }

  lemma {:induction false} InsertMembers(rows: seq<Row>, i: nat, ids: seq<nat>)
    requires i < |rows| && ValidIds(rows, ids)
    ensures forall x :: x in Insert(rows, i, ids) <==> x == i || x in ids
  {
    hide Before;
    if ids != [] && !Before(rows, i, ids[0]) {
      assert ids == [ids[0]] + ids[1..];
      InsertMembers(rows, i, ids[1..]);
    }
  }

  lemma {:induction false} InsertDistinct(rows: seq<Row>, i: nat, ids: seq<nat>)
    requires i < |rows| && ValidIds(rows, ids) && Distinct(ids) && i !in ids
    ensures Distinct(Insert(rows, i, ids))
  {
    hide Before;
    if ids != [] && !Before(rows, i, ids[0]) {
      assert ids[0] !in ids[1..];
      InsertMembers(rows, i, ids[1..]);
      InsertDistinct(rows, i, ids[1..]);
      ConsDistinct(ids[0], Insert(rows, i, ids[1..]));
    } else {
      ConsDistinct(i, ids);
    }
  }

  lemma ConsDistinct(x: nat, ids: seq<nat>)
    requires Distinct(ids) && x !in ids
    ensures Distinct([x] + ids)
  {}

  lemma InsertKeeps(rows: seq<Row>, i: nat, ids: seq<nat>, q: Query)
    requires i < |rows| && ValidIds(rows, ids) && AllMatch(rows, ids, q) && Matches(rows, i, q) && Distinct(ids)
    requires i !in ids
    ensures AllMatch(rows, Insert(rows, i, ids), q) && Distinct(Insert(rows, i, ids))
    ensures forall x :: x in Insert(rows, i, ids) <==> x == i || x in ids
  {
    hide Matches, Before;
    InsertMembers(rows, i, ids);
    InsertDistinct(rows, i, ids);
    hide Distinct;
    forall k | 0 <= k < |Insert(rows, i, ids)| ensures Matches(rows, Insert(rows, i, ids)[k], q) {
      assert Insert(rows, i, ids)[k] in Insert(rows, i, ids);
    }
  }

  lemma PrefixKeeps(rows: seq<Row>, ids: seq<nat>, limit: nat, q: Query)
    requires AllMatch(rows, ids, q) && Distinct(ids)
    ensures AllMatch(rows, Take(ids, limit), q) && Distinct(Take(ids, limit))
  {
    hide Matches;
  }

  lemma ClaimByIdForward(st: State, id: nat, owner: Name, now: Time, expiresAt: Time)
    requires Inv(st)
    ensures Forward(st, ClaimById(st, id, owner, now, expiresAt).0)
  {
    hide Inv, AllEvolved, AllLighter, DebtsOk, RecoverExpired, ClaimEach, PredecessorsDelivered;
    RecoverExpiredForward(st, now);
    var ready := RecoverExpired(st, now);
    if id < |ready.rows| && PredecessorsDelivered(ready.rows, id) {
      ClaimEachForward(ready, [id], owner, now, expiresAt);
      ForwardTrans(st, ready, ClaimEach(ready, [id], owner, now, expiresAt).0);
    }
  }

  predicate IsEnqueue(op: Op) { op.DoEnqueueSingle? || op.DoEnqueueMultipart? }

  /** Every operation but an enqueue and an operator retry only moves rows forward. */
  lemma StepForward(st: State, op: Op)
    requires Inv(st) && !IsEnqueue(op) && !op.DoRetryFailed? && !op.DoWriteDebt?
    ensures Forward(st, Step(st, op))
  {
    hide Inv, AllEvolved, AllLighter, DebtsOk, ClaimDue, ClaimById, RecoverExpired, Renew, Deliver, Retry, Fail,
      CancelOne, CancelLinked;
    match op
    case DoClaimDue(owner, max, channel, target, now, expiresAt) =>
      ClaimDueForward(st, owner, max, channel, target, now, expiresAt);
    case DoClaim(id, owner, now, expiresAt) => ClaimByIdForward(st, id, owner, now, expiresAt);
    case DoRecover(now) => RecoverExpiredForward(st, now);
    case DoRenew(id, token, now, expiresAt) => RenewForward(st, id, token, now, expiresAt);
    case DoDeliver(id, token) => DeliverForward(st, id, token);
    case DoRetry(id, token, nowMs, delayMs) => RetryForward(st, id, token, nowMs, delayMs);
    case DoFail(id, token) => FailForward(st, id, token);
    case DoCancel(id) => CancelOneForward(st, id);
    case DoCancelLinked(link) => CancelLinkedForward(st, link);
  }

  lemma WriteDebtKeeps(st: State, scope: Scope, debt: Option<DebtStatus>)
    requires Inv(st)
    ensures var next := WriteDebt(st, scope, debt);
      Inv(next) && AllEvolved(st, next) && AllLighter(st.rows, next.rows) && next.rows == st.rows
  {}

  // -- Operator retry -----------------------------------------

  lemma ReviveKeepsShape(rows: seq<Row>, i: nat, r: Row, maxAttempts: nat, at: Time)
    requires i < |rows| && Shape(rows) && Cohesive(rows) && rows[i].status == Failed
    requires r.status == Pending && r.part == rows[i].part
    ensures Shape(ReviveLater(rows[i := r], i, maxAttempts, at))
  {
    var next := ReviveLater(rows[i := r], i, maxAttempts, at);
    forall a, b | 0 <= a < |rows| && 0 <= b < |rows| && EarlierPart(next[a], next[b])
      ensures Allowed(next[a].status, next[b].status)
    {
      assert EarlierPart(rows[a], rows[b]) && Allowed(rows[a].status, rows[b].status);
      assert Kin(rows[a], rows[i]) || a == i;
      assert Kin(rows[b], rows[i]) || b == i;
      assert EarlierPart(rows[i], rows[a]) ==> Allowed(rows[i].status, rows[a].status);
      assert EarlierPart(rows[i], rows[b]) ==> Allowed(rows[i].status, rows[b].status);
      assert EarlierPart(rows[a], rows[i]) ==> Allowed(rows[a].status, rows[i].status);
    }
  }

  lemma ReviveRow(rows: seq<Row>, i: nat, r: Row, maxAttempts: nat, at: Time, j: nat, nextToken: Token)
    requires i < |rows| && j < |rows| && Cohesive(rows) && RowsOk(rows) && rows[i].status == Failed
    requires WellFormed(r) && Evolved(rows[i], r, nextToken) && r.claim == None && maxAttempts > 0
    ensures var next := ReviveLater(rows[i := r], i, maxAttempts, at);
      && WellFormed(next[j]) && Evolved(rows[j], next[j], nextToken)
      && (next[j].claim == None || next[j].claim == rows[j].claim)
      && (next[j] == rows[j] || rows[j].content.scope == rows[i].content.scope)
  {
    assert WellFormed(rows[j]);
    assert i != j ==> Kin(rows[i], rows[j]);
  }

  /** An operator retry also keeps the invariant, the delivered rows and the debts. */
  lemma RetryFailedKeeps(st: State, id: nat, maxAttempts: nat, reset: bool, at: Time)
    requires Inv(st) && maxAttempts > 0
    ensures var next := RetryFailed(st, id, maxAttempts, reset, at);
      Inv(next) && AllEvolved(st, next) && st.debts.Keys == next.debts.Keys && (DebtsOk(st) ==> DebtsOk(next))
  {
    if id < |st.rows| && st.rows[id].status == Failed {
      var row := st.rows[id];
      assert WellFormed(row);
      var revived := if reset then Revive(row, 0, maxAttempts, at)
                     else Revive(row, row.attempts, Max(maxAttempts, row.attempts + 1), at);
      var rows := ReviveLater(st.rows[id := revived], id, maxAttempts, at);
      ReviveKeeps(st, id, revived, maxAttempts, at);
      hide Inv, AllEvolved, ReviveLater, ScopeStatus, DebtsOk;
      assert RetryFailed(st, id, maxAttempts, reset, at) == Reconcile(st.(rows := rows), row.content.scope);
    } else {
      hide DebtsOk;
    }
  }

  lemma ReviveKeeps(st: State, id: nat, r: Row, maxAttempts: nat, at: Time)
    requires id < |st.rows| && Inv(st) && st.rows[id].status == Failed && maxAttempts > 0
    requires WellFormed(r) && r.status == Pending && Evolved(st.rows[id], r, st.nextToken) && r.claim == None
    ensures var next := Reconcile(st.(rows := ReviveLater(st.rows[id := r], id, maxAttempts, at)),
                                  st.rows[id].content.scope);
      Inv(next) && AllEvolved(st, next) && st.debts.Keys == next.debts.Keys && (DebtsOk(st) ==> DebtsOk(next))
  {
    hide Shape, Cohesive, Contiguous, KeysUnique, WellFormed, ReviveLater, DebtsOk, ScopeStatus;
    var rows := ReviveLater(st.rows[id := r], id, maxAttempts, at);
    var scope := st.rows[id].content.scope;
    forall j | 0 <= j < |rows|
      ensures WellFormed(rows[j]) && Evolved(st.rows[j], rows[j], st.nextToken)
      ensures rows[j].claim == None || rows[j].claim == st.rows[j].claim
      ensures rows[j] == st.rows[j] || st.rows[j].content.scope == scope
    {
      ReviveRow(st.rows, id, r, maxAttempts, at, j, st.nextToken);
    }
    assert r.part == st.rows[id].part;
    ReviveKeepsShape(st.rows, id, r, maxAttempts, at);
    FixedKept(st, st.(rows := rows));
    hide RowsOk, TokensOk;
    if DebtsOk(st) {
      EvolvedDebts(st, rows, scope);
    }
  }
}
