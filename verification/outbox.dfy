/**
 The delivery outbox (delivery-outbox.js): the rows of delivery_outbox and
 completion_debts, and what each exported operation makes of them. A row is
 identified by its position, since rows are never deleted here. Every function
 below is one transaction; the class in outbox_store.dfy carries them out with
 the statements and loops of the source.
 */
module Outbox {
  import opened Prelude
  import opened Utf16
  import BodySplitter

  type Name = Text
  type Time = int
  type Token = nat

  datatype Status = Pending | Claimed | Delivered | Failed | Cancelled

  datatype Scope = Scope(taskLabel: Name, deliveryScope: Name)

  datatype Part = Part(group: Name, index: nat, count: nat)

  datatype Content = Content(
    channel: Name,
    target: Name,
    body: Text,
    messageId: Option<Name>,
    jobId: Option<Name>,
    runId: Option<Name>,
    scope: Option<Scope>)

  datatype Claim = Claim(owner: Name, token: Token, expiresAt: Time)

  datatype Row = Row(
    key: Option<Name>,
    part: Option<Part>,
    content: Content,
    createdAt: Time,
    status: Status,
    attempts: nat,
    maxAttempts: nat,
    nextAttemptAt: Time,
    claim: Option<Claim>)

  datatype DebtStatus = Tracking | Open | Delivering | Closed

  datatype State = State(rows: seq<Row>, debts: map<Scope, DebtStatus>, nextToken: Token)

  const EMPTY: State := State([], map[], 0)

  // -- Shared pieces of the operations ------------------------

  /** a and b are parts of one group, a before b. */
  predicate EarlierPart(a: Row, b: Row) {
    a.part.Some? && b.part.Some? && a.part.value.group == b.part.value.group
    && a.part.value.index < b.part.value.index
  }

  function Settle(r: Row, status: Status): Row {
    r.(status := status, claim := None)
  }

  function CancelLaterRow(r: Row, after: Row): Row {
    if EarlierPart(after, r) && (r.status == Pending || r.status == Failed) then Settle(r, Cancelled) else r
  }

  /** A part that stops cancels the waiting and failed parts behind it. */
  function CancelLater(rows: seq<Row>, i: nat): (r: seq<Row>)
    requires i < |rows|
    ensures |r| == |rows|
  {
    seq(|rows|, j requires 0 <= j < |rows| => CancelLaterRow(rows[j], rows[i]))
  }

  predicate InScope(r: Row, s: Scope) { r.content.scope == Some(s) }

  predicate IsStopped(r: Row) { r.status == Failed || r.status == Cancelled }

  predicate IsSettled(r: Row) { r.status == Delivered || IsStopped(r) }

  /** What the rows of a completion scope say about its debt. */
  function ScopeStatus(rows: seq<Row>, s: Scope): DebtStatus {
    if (exists i :: 0 <= i < |rows| && InScope(rows[i], s))
      && (forall i :: 0 <= i < |rows| && InScope(rows[i], s) ==> rows[i].status == Delivered)
    then Closed
    else if exists i :: 0 <= i < |rows| && InScope(rows[i], s) && IsStopped(rows[i]) then Open
    else Delivering
  }

  /** Only a debt that exists is updated. */
  function Reconcile(st: State, scope: Option<Scope>): State {
    if scope.Some? && scope.value in st.debts
    then st.(debts := st.debts[scope.value := ScopeStatus(st.rows, scope.value)])
    else st
  }

  /** Row i stops with the given status; its group's later parts and its debt follow. */
  function Stop(st: State, i: nat, status: Status): (r: State)
    requires i < |st.rows|
    ensures |r.rows| == |st.rows| && r.nextToken == st.nextToken
  {
    var rows := CancelLater(st.rows[i := Settle(st.rows[i], status)], i);
    Reconcile(st.(rows := rows), st.rows[i].content.scope)
  }

  // -- Queries ------------------------------------------------

  datatype Query =
    | ExpiredBy(now: Time)
    | ExhaustedPending
    | DueAt(now: Time, channel: Option<Name>, target: Option<Name>)

  predicate Expired(r: Row, now: Time) {
    r.status == Claimed && r.claim.Some? && r.claim.value.expiresAt <= now
  }

  predicate PredecessorsDelivered(rows: seq<Row>, i: nat)
    requires i < |rows|
  {
    || rows[i].part == None
    || rows[i].part.value.index <= 1
    || forall j :: 0 <= j < |rows| && EarlierPart(rows[j], rows[i]) ==> rows[j].status == Delivered
  }

  predicate Claimable(r: Row, now: Time) {
    r.status == Pending && r.nextAttemptAt <= now && r.attempts < r.maxAttempts
  }

  predicate Matches(rows: seq<Row>, i: nat, q: Query)
    requires i < |rows|
  {
    match q
    case ExpiredBy(now) => Expired(rows[i], now)
    case ExhaustedPending => rows[i].status == Pending && rows[i].attempts >= rows[i].maxAttempts
    case DueAt(now, channel, target) =>
      && Claimable(rows[i], now)
      && PredecessorsDelivered(rows, i)
      && (channel.Some? ==> rows[i].content.channel == channel.value)
      && (target.Some? ==> rows[i].content.target == target.value)
  }

  /** The matching rows among the first n, in table order. */
  function Select(rows: seq<Row>, q: Query, n: nat): (ids: seq<nat>)
    requires n <= |rows|
    ensures forall k :: 0 <= k < |ids| ==> ids[k] < n && Matches(rows, ids[k], q)
    ensures forall i: nat :: i < n && Matches(rows, i, q) ==> i in ids
    ensures forall j, k :: 0 <= j < k < |ids| ==> ids[j] < ids[k]
  {
    if n == 0 then []
    else if Matches(rows, n - 1, q) then Select(rows, q, n - 1) + [n - 1]
    else Select(rows, q, n - 1)
  }

  /** The claim order: due time, then age, then position. */
  predicate Before(rows: seq<Row>, i: nat, j: nat)
    requires i < |rows| && j < |rows|
  {
    || rows[i].nextAttemptAt < rows[j].nextAttemptAt
    || (rows[i].nextAttemptAt == rows[j].nextAttemptAt
        && (rows[i].createdAt < rows[j].createdAt
            || (rows[i].createdAt == rows[j].createdAt && i <= j)))
  }

  ghost predicate ValidIds(rows: seq<Row>, ids: seq<nat>) {
    forall k :: 0 <= k < |ids| ==> ids[k] < |rows|
  }

  ghost predicate Distinct(ids: seq<nat>) {
    forall j, k :: 0 <= j < k < |ids| ==> ids[j] != ids[k]
  }

  ghost predicate AllMatch(rows: seq<Row>, ids: seq<nat>, q: Query) {
    forall k :: 0 <= k < |ids| ==> ids[k] < |rows| && Matches(rows, ids[k], q)
  }

  function Insert(rows: seq<Row>, i: nat, ids: seq<nat>): (r: seq<nat>)
    requires i < |rows| && ValidIds(rows, ids)
    ensures ValidIds(rows, r)
    ensures multiset(r) == multiset(ids) + multiset{i}
  {
    if ids == [] then [i]
    else if Before(rows, i, ids[0]) then [i] + ids
    else
      assert ids == [ids[0]] + ids[1..];
      [ids[0]] + Insert(rows, i, ids[1..])
  }

  function OrderByDue(rows: seq<Row>, ids: seq<nat>): (r: seq<nat>)
    requires ValidIds(rows, ids)
    ensures ValidIds(rows, r)
    ensures multiset(r) == multiset(ids)
  {
    if ids == [] then []
    else
      assert ids == [ids[0]] + ids[1..];
      Insert(rows, ids[0], OrderByDue(rows, ids[1..]))
  }

  function Take<T>(s: seq<T>, n: nat): seq<T> {
    if n < |s| then s[..n] else s
  }

  // -- Recovery and claiming ----------------------------------

  function Requeue(r: Row, at: Time): Row {
    Settle(r, Pending).(nextAttemptAt := at)
  }

  function RecoverOne(st: State, i: nat, now: Time): (r: State)
    requires i < |st.rows|
    ensures |r.rows| == |st.rows| && r.nextToken == st.nextToken
  {
    if !Expired(st.rows[i], now) then st
    else if st.rows[i].attempts >= st.rows[i].maxAttempts then Stop(st, i, Failed)
    else st.(rows := st.rows[i := Requeue(st.rows[i], now)])
  }

  function RecoverEach(st: State, ids: seq<nat>, now: Time): (r: State)
    requires ValidIds(st.rows, ids)
    ensures |r.rows| == |st.rows| && r.nextToken == st.nextToken
    decreases |ids|
  {
    if ids == [] then st
    else RecoverEach(RecoverOne(st, ids[0], now), ids[1..], now)
  }

  function RecoverExpired(st: State, now: Time): (r: State)
    ensures |r.rows| == |st.rows| && r.nextToken == st.nextToken
  {
    RecoverEach(st, Select(st.rows, ExpiredBy(now), |st.rows|), now)
  }

  function FailExhaustedRow(r: Row, now: Time): Row {
    if r.status == Pending && r.attempts >= r.maxAttempts
    then r.(status := Failed, nextAttemptAt := now) else r
  }

  function FailExhaustedRows(rows: seq<Row>, now: Time): (r: seq<Row>)
    ensures |r| == |rows|
  {
    seq(|rows|, j requires 0 <= j < |rows| => FailExhaustedRow(rows[j], now))
  }

  /** Each exhausted row cancels its later parts and reconciles its debt. */
  function FollowEach(st: State, ids: seq<nat>): (r: State)
    requires ValidIds(st.rows, ids)
    ensures |r.rows| == |st.rows| && r.nextToken == st.nextToken
    decreases |ids|
  {
    if ids == [] then st
    else
      var next := Reconcile(st.(rows := CancelLater(st.rows, ids[0])), st.rows[ids[0]].content.scope);
      FollowEach(next, ids[1..])
  }

  function FailExhausted(st: State, now: Time): (r: State)
    ensures |r.rows| == |st.rows| && r.nextToken == st.nextToken
  {
    var ids := Select(st.rows, ExhaustedPending, |st.rows|);
    FollowEach(st.(rows := FailExhaustedRows(st.rows, now)), ids)
  }

  function ClaimRow(r: Row, owner: Name, token: Token, expiresAt: Time): Row {
    r.(status := Claimed, attempts := r.attempts + 1, claim := Some(Claim(owner, token, expiresAt)))
  }

  /** Draws a fresh token for the row, and uses it if the row is claimable. */
  function ClaimOne(st: State, i: nat, owner: Name, now: Time, expiresAt: Time): (r: State)
    requires i < |st.rows|
    ensures |r.rows| == |st.rows|
  {
    var next := st.(nextToken := st.nextToken + 1);
    if Claimable(st.rows[i], now)
    then next.(rows := st.rows[i := ClaimRow(st.rows[i], owner, st.nextToken, expiresAt)])
    else next
  }

  /** The new state and the rows that were claimed. */
  function ClaimEach(st: State, ids: seq<nat>, owner: Name, now: Time, expiresAt: Time): (r: (State, seq<nat>))
    requires ValidIds(st.rows, ids)
    ensures |r.0.rows| == |st.rows|
    decreases |ids|
  {
    if ids == [] then (st, [])
    else
      var claimed := if Claimable(st.rows[ids[0]], now) then [ids[0]] else [];
      var rest := ClaimEach(ClaimOne(st, ids[0], owner, now, expiresAt), ids[1..], owner, now, expiresAt);
      (rest.0, claimed + rest.1)
  }

  /** The due rows of a state, in claim order, at most `limit` of them. */
  function DueRows(rows: seq<Row>, now: Time, channel: Option<Name>, target: Option<Name>, limit: nat): (ids: seq<nat>)
    ensures ValidIds(rows, ids)
  {
    Take(OrderByDue(rows, Select(rows, DueAt(now, channel, target), |rows|)), limit)
  }

  function BeforeClaims(st: State, now: Time): (r: State)
    ensures |r.rows| == |st.rows| && r.nextToken == st.nextToken
  {
    FailExhausted(RecoverExpired(st, now), now)
  }

  function ClaimDue(st: State, owner: Name, limit: nat, channel: Option<Name>, target: Option<Name>,
                    now: Time, expiresAt: Time): (r: (State, seq<nat>))
    ensures |r.0.rows| == |st.rows|
  {
    var ready := BeforeClaims(st, now);
    ClaimEach(ready, DueRows(ready.rows, now, channel, target, limit), owner, now, expiresAt)
  }

  function ClaimById(st: State, id: nat, owner: Name, now: Time, expiresAt: Time): (r: (State, seq<nat>))
    ensures |r.0.rows| == |st.rows|
  {
    var ready := RecoverExpired(st, now);
    if id < |ready.rows| && PredecessorsDelivered(ready.rows, id)
    then ClaimEach(ready, [id], owner, now, expiresAt)
    else (ready, [])
  }

  // -- Settling a claim ---------------------------------------

  predicate Holds(rows: seq<Row>, id: nat, token: Token) {
    id < |rows| && rows[id].status == Claimed && rows[id].claim.Some? && rows[id].claim.value.token == token
  }

  function Renew(st: State, id: nat, token: Token, now: Time, expiresAt: Time): State {
    if Holds(st.rows, id, token) && st.rows[id].claim.value.expiresAt > now
    then
      var claim := st.rows[id].claim.value.(expiresAt := expiresAt);
      st.(rows := st.rows[id := st.rows[id].(claim := Some(claim))])
    else st
  }

  function Deliver(st: State, id: nat, token: Token): State {
    if Holds(st.rows, id, token)
    then Reconcile(st.(rows := st.rows[id := Settle(st.rows[id], Delivered)]), st.rows[id].content.scope)
    else st
  }

  function Pow2(n: nat): (p: nat)
    ensures p >= 1
  {
    if n == 0 then 1 else 2 * Pow2(n - 1)
  }

  /** Exponential backoff from one second, at most five minutes. */
  function DefaultDelayMs(attempts: nat): nat {
    var delay := 1000 * Pow2(if attempts <= 1 then 0 else attempts - 1);
    if delay < 300_000 then delay else 300_000
  }

  function RetryAt(attempts: nat, nowMs: nat, delayMs: Option<nat>): Time {
    (nowMs + (if delayMs.Some? then delayMs.value else DefaultDelayMs(attempts))) / 1000
  }

  function Retry(st: State, id: nat, token: Token, nowMs: nat, delayMs: Option<nat>): State {
    if !Holds(st.rows, id, token) then st
    else if st.rows[id].attempts >= st.rows[id].maxAttempts then Stop(st, id, Failed)
    else
      var at := RetryAt(st.rows[id].attempts, nowMs, delayMs);
      Reconcile(st.(rows := st.rows[id := Requeue(st.rows[id], at)]), st.rows[id].content.scope)
  }

  function Fail(st: State, id: nat, token: Token): State {
    if Holds(st.rows, id, token) then Stop(st, id, Failed) else st
  }

  // -- Cancellation and operator retry ------------------------

  predicate IsOpen(r: Row) { r.status == Pending || r.status == Claimed || r.status == Failed }

  function CancelOne(st: State, id: nat): State {
    if id < |st.rows| && IsOpen(st.rows[id]) then Stop(st, id, Cancelled) else st
  }

  datatype Link = ByRun(runId: Name) | ByJob(jobId: Name)

  predicate Linked(r: Row, link: Link) {
    match link
    case ByRun(runId) => r.content.runId == Some(runId)
    case ByJob(jobId) => r.content.jobId == Some(jobId)
  }

  function CancelLinkedRow(r: Row, link: Link): Row {
    if Linked(r, link) && IsOpen(r) then Settle(r, Cancelled) else r
  }

  function CancelLinkedRows(rows: seq<Row>, link: Link): (r: seq<Row>)
    ensures |r| == |rows|
  {
    seq(|rows|, j requires 0 <= j < |rows| => CancelLinkedRow(rows[j], link))
  }

  /** The completion scopes of the linked rows. */
  function LinkedScopes(rows: seq<Row>, link: Link): set<Scope> {
    set i | 0 <= i < |rows| && Linked(rows[i], link) && rows[i].content.scope.Some? :: rows[i].content.scope.value
  }

  function CancelLinked(st: State, link: Link): State {
    var scopes := LinkedScopes(st.rows, link);
    var rows := CancelLinkedRows(st.rows, link);
    State(rows,
          map s | s in st.debts :: if s in scopes then ScopeStatus(rows, s) else st.debts[s],
          st.nextToken)
  }

  function Revive(r: Row, attempts: nat, maxAttempts: nat, at: Time): Row {
    Requeue(r, at).(attempts := attempts, maxAttempts := maxAttempts)
  }

  function ReviveLaterRow(r: Row, after: Row, maxAttempts: nat, at: Time): Row {
    if EarlierPart(after, r) && r.status == Cancelled then Revive(r, 0, maxAttempts, at) else r
  }

  function ReviveLater(rows: seq<Row>, i: nat, maxAttempts: nat, at: Time): (r: seq<Row>)
    requires i < |rows|
    ensures |r| == |rows|
  {
    seq(|rows|, j requires 0 <= j < |rows| => ReviveLaterRow(rows[j], rows[i], maxAttempts, at))
  }

  function Max(a: nat, b: nat): nat { if a < b then b else a }

  /** Operator retry of a failed row; the parts it had cancelled come back with it. */
  function RetryFailed(st: State, id: nat, maxAttempts: nat, reset: bool, at: Time): State {
    if id < |st.rows| && st.rows[id].status == Failed then
      var row := st.rows[id];
      var revived := if reset then Revive(row, 0, maxAttempts, at)
                     else Revive(row, row.attempts, Max(maxAttempts, row.attempts + 1), at);
      var rows := ReviveLater(st.rows[id := revived], id, maxAttempts, at);
      Reconcile(st.(rows := rows), row.content.scope)
    else st
  }

  // -- Enqueueing ---------------------------------------------

  datatype Request = Request(
    key: Option<Name>,
    part: Option<Part>,
    content: Content,
    maxAttempts: nat,
    nextAttemptAt: Time)

  datatype EnqueueError =
    | BlankBody
    | Collision(existing: nat)
    | DuplicatePart(existing: nat)
    | Unsplittable(reason: BodySplitter.SplitError)

  datatype Enqueued = Enqueued(id: nat, deduped: bool)

  function NewRow(q: Request, at: Time): Row {
    Row(q.key, q.part, q.content, at, Pending, 0, q.maxAttempts, q.nextAttemptAt, None)
  }

  /** The first row from i on with the given key, or the number of rows. */
  function FindKey(rows: seq<Row>, key: Option<Name>, i: nat): (k: nat)
    requires i <= |rows|
    ensures i <= k <= |rows|
    ensures k < |rows| ==> key.Some? && rows[k].key == key
    ensures k == |rows| && key.Some? ==> forall j :: i <= j < |rows| ==> rows[j].key != key
    decreases |rows| - i
  {
    if key == None then |rows|
    else if i == |rows| || rows[i].key == key then i
    else FindKey(rows, key, i + 1)
  }

  predicate SamePart(a: Option<Part>, b: Option<Part>) {
    a.Some? && b.Some? && a.value.group == b.value.group && a.value.index == b.value.index
  }

  /** The first row from i on that is the same part of the same group, or the number of rows. */
  function FindPart(rows: seq<Row>, part: Option<Part>, i: nat): (k: nat)
    requires i <= |rows|
    ensures i <= k <= |rows|
    ensures k < |rows| ==> SamePart(rows[k].part, part)
    ensures k == |rows| ==> forall j :: i <= j < |rows| ==> !SamePart(rows[j].part, part)
    decreases |rows| - i
  {
    if i == |rows| || SamePart(rows[i].part, part) then i
    else FindPart(rows, part, i + 1)
  }

  /** A row stored before groups existed stands for a one-part group named after its key. */
  predicate LegacySinglePart(existing: Row, q: Request) {
    existing.part == None && q.part.Some? && q.key == Some(q.part.value.group)
    && q.part.value.index == 1 && q.part.value.count == 1
  }

  predicate Equivalent(existing: Row, q: Request) {
    existing.content == q.content && (existing.part == q.part || LegacySinglePart(existing, q))
  }

  function EnqueueOne(rows: seq<Row>, q: Request, at: Time): Result<(seq<Row>, Enqueued), EnqueueError> {
    var twin := FindKey(rows, q.key, 0);
    var place := FindPart(rows, q.part, 0);
    if Trim(q.content.body) == [] then Failure(BlankBody)
    else if twin < |rows| then
      if Equivalent(rows[twin], q) then Success((rows, Enqueued(twin, true))) else Failure(Collision(twin))
    else if place < |rows| then Failure(DuplicatePart(place))
    else Success((rows + [NewRow(q, at)], Enqueued(|rows|, false)))
  }

  /** ":part:index/count" after the base key. */
  function PartKey(base: Name, index: nat, count: nat): Name {
    base + [0x3A, 0x70, 0x61, 0x72, 0x74, 0x3A] + Decimal(index) + [0x2F] + Decimal(count)
  }

  /** The row of part `index` of a body split into `count` parts. */
  function PartRequest(q: Request, group: Name, body: Text, index: nat, count: nat): Request {
    var key := if count == 1 || q.key == None then q.key else Some(PartKey(q.key.value, index, count));
    q.(key := key, part := Some(Part(group, index, count)), content := q.content.(body := body))
  }

  /** Enqueues the parts from i on. */
  function EnqueueFrom(rows: seq<Row>, q: Request, group: Name, parts: seq<Text>, i: nat, at: Time):
      Result<(seq<Row>, seq<Enqueued>), EnqueueError>
    requires i <= |parts|
    decreases |parts| - i
  {
    if i == |parts| then Success((rows, []))
    else
      var one := EnqueueOne(rows, PartRequest(q, group, parts[i], i + 1, |parts|), at);
      if one.Failure? then Failure(one.error)
      else
        var rest := EnqueueFrom(one.value.0, q, group, parts, i + 1, at);
        if rest.Failure? then Failure(rest.error)
        else Success((rest.value.0, [one.value.1] + rest.value.1))
  }

  function EnqueueSingle(st: State, q: Request, at: Time): (State, Result<Enqueued, EnqueueError>) {
    var one := EnqueueOne(st.rows, q.(part := None), at);
    if one.Failure? then (st, Failure(one.error))
    else (st.(rows := one.value.0), Success(one.value.1))
  }

  /** The whole call is one transaction: on an error nothing is kept. */
  function EnqueueMultipart(st: State, q: Request, group: Name, limit: Option<nat>, at: Time):
      (State, Result<seq<Enqueued>, EnqueueError>)
  {
    var parts := BodySplitter.SplitBody(q.content.body, limit);
    if parts.Failure? then (st, Failure(Unsplittable(parts.error)))
    else
      var all := EnqueueFrom(st.rows, q, group, parts.value, 0, at);
      if all.Failure? then (st, Failure(all.error))
      else (st.(rows := all.value.0), Success(all.value.1))
  }

  // -- Other writers of debts ---------------------------------

  /** What a dispatch hook makes of a debt: an upsert with the status it gives, or a deletion. */
  function WriteDebt(st: State, scope: Scope, status: Option<DebtStatus>): State {
    st.(debts := if status.Some? then st.debts[scope := status.value] else st.debts - {scope})
  }

  // -- Runs ---------------------------------------------------

  /** One call of an exported operation, or a debt written by a hook. */
  datatype Op =
    | DoEnqueueSingle(q: Request, at: Time)
    | DoEnqueueMultipart(q: Request, group: Name, limit: Option<nat>, at: Time)
    | DoClaimDue(owner: Name, max: nat, channel: Option<Name>, target: Option<Name>, now: Time, expiresAt: Time)
    | DoClaim(id: nat, owner: Name, now: Time, expiresAt: Time)
    | DoRecover(now: Time)
    | DoRenew(id: nat, token: Token, now: Time, expiresAt: Time)
    | DoDeliver(id: nat, token: Token)
    | DoRetry(id: nat, token: Token, nowMs: nat, delayMs: Option<nat>)
    | DoFail(id: nat, token: Token)
    | DoCancel(id: nat)
    | DoCancelLinked(link: Link)
    | DoRetryFailed(id: nat, maxAttempts: nat, reset: bool, at: Time)
    | DoWriteDebt(scope: Scope, debt: Option<DebtStatus>)

  /** The calls the source accepts: attempt limits are positive. */
  predicate Admissible(op: Op) {
    match op
    case DoEnqueueSingle(q, _) => q.maxAttempts > 0
    case DoEnqueueMultipart(q, _, _, _) => q.maxAttempts > 0
    case DoRetryFailed(_, maxAttempts, _, _) => maxAttempts > 0
    case _ => true
  }

  function Step(st: State, op: Op): State {
    match op
    case DoEnqueueSingle(q, at) => EnqueueSingle(st, q, at).0
    case DoEnqueueMultipart(q, group, limit, at) => EnqueueMultipart(st, q, group, limit, at).0
    case DoClaimDue(owner, max, channel, target, now, expiresAt) =>
      ClaimDue(st, owner, max, channel, target, now, expiresAt).0
    case DoClaim(id, owner, now, expiresAt) => ClaimById(st, id, owner, now, expiresAt).0
    case DoRecover(now) => RecoverExpired(st, now)
    case DoRenew(id, token, now, expiresAt) => Renew(st, id, token, now, expiresAt)
    case DoDeliver(id, token) => Deliver(st, id, token)
    case DoRetry(id, token, nowMs, delayMs) => Retry(st, id, token, nowMs, delayMs)
    case DoFail(id, token) => Fail(st, id, token)
    case DoCancel(id) => CancelOne(st, id)
    case DoCancelLinked(link) => CancelLinked(st, link)
    case DoRetryFailed(id, maxAttempts, reset, at) => RetryFailed(st, id, maxAttempts, reset, at)
    case DoWriteDebt(scope, debt) => WriteDebt(st, scope, debt)
  }

  function Run(st: State, ops: seq<Op>): State
    decreases |ops|
  {
    if ops == [] then st else Run(Step(st, ops[0]), ops[1..])
  }
}
