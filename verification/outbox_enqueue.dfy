/**
 Enqueueing under the invariant: a multipart call adds all parts of a new group,
 or nothing (delivery-outbox.js, enqueueDelivery and enqueueMultipartDelivery).
 */
module OutboxEnqueue {
  import opened Prelude
  import opened Utf16
  import opened Outbox
  import opened OutboxInvariants
  import BodySplitter

  ghost predicate NoGroup(rows: seq<Row>, group: Name) {
    forall i :: 0 <= i < |rows| ==> !(rows[i].part.Some? && rows[i].part.value.group == group)
  }

  /** The rows of parts 1 to i of a call. */
  function NewParts(q: Request, group: Name, parts: seq<Text>, i: nat, at: Time): (r: seq<Row>)
    requires i <= |parts|
    ensures |r| == i
  {
    seq(i, k requires 0 <= k < i => NewRow(PartRequest(q, group, parts[k], k + 1, |parts|), at))
  }

  /** No stored row has the key. */
  ghost predicate KeyFree(rows: seq<Row>, key: Option<Name>) {
    key.Some? ==> forall j :: 0 <= j < |rows| ==> rows[j].key != key
  }

  /** Part k + 1 of a call has a body and a key of its own. */
  ghost predicate PartFree(rows: seq<Row>, q: Request, group: Name, parts: seq<Text>, k: int)
    requires 0 <= k < |parts|
  {
    Trim(parts[k]) != [] && KeyFree(rows, PartRequest(q, group, parts[k], k + 1, |parts|).key)
  }

  ghost predicate FreeFrom(rows: seq<Row>, q: Request, group: Name, parts: seq<Text>, i: nat) {
    forall k :: i <= k < |parts| ==> PartFree(rows, q, group, parts, k)
  }

  /** A part that belongs to no stored group is appended exactly if it is not blank and its key is free. */
  lemma EnqueueOneAppends(rows: seq<Row>, q: Request, at: Time)
    requires q.part.Some? && KeysUnique(rows)
    requires forall j :: 0 <= j < |rows| ==> !SamePart(rows[j].part, q.part)
    requires forall j :: 0 <= j < |rows| ==> !LegacySinglePart(rows[j], q)
    ensures var one := EnqueueOne(rows, q, at);
      && (one.Success? <==> Trim(q.content.body) != [] && KeyFree(rows, q.key))
      && (one.Success? ==> one.value == (rows + [NewRow(q, at)], Enqueued(|rows|, false)) && KeysUnique(one.value.0))
  {
    hide Trim;
  }

  /** The keys of two parts of one call differ. */
  lemma PartKeysDiffer(base: Name, i: nat, j: nat, count: nat)
    requires i != j
    ensures PartKey(base, i, count) != PartKey(base, j, count)
  {
    var head: Name := base + [0x3A, 0x70, 0x61, 0x72, 0x74, 0x3A];
    var di, dj := Decimal(i), Decimal(j);
    if PartKey(base, i, count) == PartKey(base, j, count) {
      assert |di| == |dj|;
      assert di == PartKey(base, i, count)[|head|..|head| + |di|];
      assert dj == PartKey(base, j, count)[|head|..|head| + |dj|];
      DecimalIsInjective(i, j);
    }
  }

  /** The parts a call has added so far do not take the key of the next one. */
  lemma KeyFreeOfNewParts(stored: seq<Row>, q: Request, group: Name, parts: seq<Text>, i: nat, at: Time)
    requires i < |parts| && |parts| > 1
    ensures var key := PartRequest(q, group, parts[i], i + 1, |parts|).key;
      KeyFree(stored + NewParts(q, group, parts, i, at), key) <==> KeyFree(stored, key)
  {
    hide PartKey;
    var rows := stored + NewParts(q, group, parts, i, at);
    if q.key.Some? {
      var key := Some(PartKey(q.key.value, i + 1, |parts|));
      forall j | |stored| <= j < |rows| ensures rows[j].key != key {
        PartKeysDiffer(q.key.value, j - |stored| + 1, i + 1, |parts|);
      }
      assert forall j :: 0 <= j < |stored| ==> rows[j] == stored[j];
    }
  }

  lemma EnqueueFromStep(rows: seq<Row>, q: Request, group: Name, parts: seq<Text>, i: nat, at: Time)
    requires i < |parts|
    ensures var one := EnqueueOne(rows, PartRequest(q, group, parts[i], i + 1, |parts|), at);
      var all := EnqueueFrom(rows, q, group, parts, i, at);
      && (all.Success? <==> one.Success? && EnqueueFrom(one.value.0, q, group, parts, i + 1, at).Success?)
      && (all.Success? ==> all.value.0 == EnqueueFrom(one.value.0, q, group, parts, i + 1, at).value.0)
  {
  }

  lemma NextPartIsNew(stored: seq<Row>, q: Request, group: Name, parts: seq<Text>, i: nat, at: Time)
    requires i < |parts| && (i >= 1 || |parts| > 1) && NoGroup(stored, group)
    ensures var rows := stored + NewParts(q, group, parts, i, at);
      var one := PartRequest(q, group, parts[i], i + 1, |parts|);
      && one.part.Some?
      && (forall j :: 0 <= j < |rows| ==> !SamePart(rows[j].part, one.part))
      && (forall j :: 0 <= j < |rows| ==> !LegacySinglePart(rows[j], one))
  {
  }

  /** On a new group the call goes through exactly if all its parts are free, and then adds them all. */
  lemma {:induction false} AppendFrom(stored: seq<Row>, q: Request, group: Name, parts: seq<Text>, i: nat, at: Time)
    requires i <= |parts| && (i >= 1 || |parts| > 1)
    requires NoGroup(stored, group) && KeysUnique(stored + NewParts(q, group, parts, i, at))
    ensures var r := EnqueueFrom(stored + NewParts(q, group, parts, i, at), q, group, parts, i, at);
      && (r.Success? <==> FreeFrom(stored, q, group, parts, i))
      && (r.Success? ==> r.value.0 == stored + NewParts(q, group, parts, |parts|, at) && KeysUnique(r.value.0))
    decreases |parts| - i
  {
    hide NoGroup, EnqueueOne, KeysUnique, PartRequest, SamePart, LegacySinglePart, KeyFree, Trim;
    var rows := stored + NewParts(q, group, parts, i, at);
    if i < |parts| {
      var one := PartRequest(q, group, parts[i], i + 1, |parts|);
      NextPartIsNew(stored, q, group, parts, i, at);
      KeyFreeOfNewParts(stored, q, group, parts, i, at);
      EnqueueOneAppends(rows, one, at);
      EnqueueFromStep(rows, q, group, parts, i, at);
      PartBody(q, group, parts[i], i + 1, |parts|);
      FreeFromStep(stored, q, group, parts, i);
      if PartFree(stored, q, group, parts, i) {
        assert rows + [NewRow(one, at)] == stored + NewParts(q, group, parts, i + 1, at);
        AppendFrom(stored, q, group, parts, i + 1, at);
      }
    }
  }

  lemma PartBody(q: Request, group: Name, body: Text, index: nat, count: nat)
    ensures PartRequest(q, group, body, index, count).content.body == body
  {
  }

  lemma FreeFromStep(rows: seq<Row>, q: Request, group: Name, parts: seq<Text>, i: nat)
    requires i < |parts|
    ensures FreeFrom(rows, q, group, parts, i) <==>
      PartFree(rows, q, group, parts, i) && FreeFrom(rows, q, group, parts, i + 1)
  {
  }

  /** Part k of the group that starts at base. */
  predicate PartAt(rows: seq<Row>, base: nat, group: Name, count: nat, k: nat) {
    1 <= k && base + k <= |rows| && rows[base + k - 1].part == Some(Part(group, k, count))
  }

  /** Parts 1 to count of the group are stored from position base on. */
  ghost predicate GroupAt(rows: seq<Row>, base: nat, group: Name, count: nat) {
    forall k :: 1 <= k <= count ==> PartAt(rows, base, group, count, k)
  }

  lemma {:induction false} GroupPrefix(rows: seq<Row>, base: nat, group: Name, count: nat, k: nat)
    requires Contiguous(rows) && PartAt(rows, base, group, count, 1) && 1 <= k <= count
    ensures PartAt(rows, base, group, count, k)
  {
    if k > 1 {
      GroupPrefix(rows, base, group, count, k - 1);
      assert InPlace(rows, base + k - 2);
    }
  }

  /** The first part of a group stands at the head of all its parts. */
  lemma GroupStored(rows: seq<Row>, base: nat, group: Name, count: nat)
    requires Contiguous(rows) && PartAt(rows, base, group, count, 1)
    ensures GroupAt(rows, base, group, count)
  {
    forall k | 1 <= k <= count ensures PartAt(rows, base, group, count, k) {
      GroupPrefix(rows, base, group, count, k);
    }
  }

  /** Where a group that has any row starts. */
  lemma {:induction false} GroupHead(rows: seq<Row>, i: nat) returns (base: nat)
    requires Contiguous(rows) && RowsOk(rows) && i < |rows| && rows[i].part.Some?
    ensures base <= i && i == base + rows[i].part.value.index - 1
    ensures rows[base].part == Some(Part(rows[i].part.value.group, 1, rows[i].part.value.count))
    decreases i
  {
    assert WellFormed(rows[i]) && InPlace(rows, i);
    if rows[i].part.value.index == 1 {
      base := i;
    } else {
      base := GroupHead(rows, i - 1);
    }
  }

  lemma StoredPartUnchanged(rows: seq<Row>, i: nat, q: Request, at: Time)
    requires i < |rows| && SamePart(rows[i].part, q.part)
    ensures EnqueueOne(rows, q, at).Success? ==> EnqueueOne(rows, q, at).value.0 == rows
  {
  }

  /** With its group stored, no part of a call is ever added: each is a duplicate or an error. */
  lemma {:induction false} StoredGroupUnchanged(rows: seq<Row>, base: nat, q: Request, group: Name, parts: seq<Text>,
                                                i: nat, at: Time)
    requires i <= |parts| && GroupAt(rows, base, group, |parts|)
    ensures var r := EnqueueFrom(rows, q, group, parts, i, at);
      r.Success? ==> r.value.0 == rows
    decreases |parts| - i
  {
    if i < |parts| {
      assert PartAt(rows, base, group, |parts|, i + 1);
      StoredPartUnchanged(rows, base + i, PartRequest(q, group, parts[i], i + 1, |parts|), at);
      hide EnqueueOne, PartRequest, GroupAt;
      StoredGroupUnchanged(rows, base, q, group, parts, i + 1, at);
    }
  }

  /**
   A multipart call on a table without its group adds all its parts exactly if
   each has a body and a free key; otherwise it raises or adds nothing.
   */
  lemma MultipartOnNewGroup(rows: seq<Row>, q: Request, group: Name, parts: seq<Text>, at: Time)
    requires parts != [] && NoGroup(rows, group) && KeysUnique(rows)
    ensures var r := EnqueueFrom(rows, q, group, parts, 0, at);
      if FreeFrom(rows, q, group, parts, 0)
      then r.Success? && r.value.0 == rows + NewParts(q, group, parts, |parts|, at) && KeysUnique(r.value.0)
      else r.Failure? || r.value.0 == rows
  {
    if |parts| > 1 {
      assert rows == rows + NewParts(q, group, parts, 0, at);
      AppendFrom(rows, q, group, parts, 0, at);
    } else {
      OnlyPartOnNewGroup(rows, q, group, parts, at);
    }
  }

  lemma OnlyPartOnNewGroup(rows: seq<Row>, q: Request, group: Name, parts: seq<Text>, at: Time)
    requires |parts| == 1 && NoGroup(rows, group) && KeysUnique(rows)
    ensures var r := EnqueueFrom(rows, q, group, parts, 0, at);
      if FreeFrom(rows, q, group, parts, 0)
      then r.Success? && r.value.0 == rows + NewParts(q, group, parts, 1, at) && KeysUnique(r.value.0)
      else r.Failure? || r.value.0 == rows
  {
    hide Trim;
    var one := PartRequest(q, group, parts[0], 1, 1);
    assert NewParts(q, group, parts, 1, at) == [NewRow(one, at)];
    EnqueueFromStep(rows, q, group, parts, 0, at);
    FreeFromStep(rows, q, group, parts, 0);
    assert FindPart(rows, one.part, 0) == |rows|;
    assert KeyFree(rows, one.key) <==> FindKey(rows, one.key, 0) == |rows|;
  }

  lemma MultipartOnStoredGroup(rows: seq<Row>, i: nat, q: Request, group: Name, parts: seq<Text>, at: Time)
    requires parts != [] && Contiguous(rows) && RowsOk(rows)
    requires i < |rows| && rows[i].part.Some? && rows[i].part.value.group == group
    ensures var r := EnqueueFrom(rows, q, group, parts, 0, at);
      r.Success? ==> r.value.0 == rows
  {
    var base := GroupHead(rows, i);
    var one := PartRequest(q, group, parts[0], 1, |parts|);
    assert SamePart(rows[base].part, one.part);
    var first := EnqueueOne(rows, one, at);
    if first.Success? {
      var twin := first.value.1.id;
      if rows[twin].part == one.part {
        assert PartAt(rows, twin, group, |parts|, 1);
        GroupStored(rows, twin, group, |parts|);
        StoredGroupUnchanged(rows, twin, q, group, parts, 1, at);
      }
    }
  }

  // -- What one call adds -------------------------------------

  /** Whether a call will add rows, from the rows before it. */
  ghost predicate AddsRows(rows: seq<Row>, op: Op) {
    match op
    case DoEnqueueSingle(q, _) => Trim(q.content.body) != [] && KeyFree(rows, q.key)
    case DoEnqueueMultipart(q, group, limit, _) =>
      var split := BodySplitter.SplitBody(q.content.body, limit);
      split.Success? && NoGroup(rows, group) && FreeFrom(rows, q, group, split.value, 0)
    case _ => false
  }

  /** The rows a call will add. */
  function RowsAdded(op: Op): seq<Row>
    requires op.DoEnqueueMultipart? ==> BodySplitter.SplitBody(op.q.content.body, op.limit).Success?
  {
    match op
    case DoEnqueueSingle(q, at) => [NewRow(q.(part := None), at)]
    case DoEnqueueMultipart(q, group, limit, at) =>
      var parts := BodySplitter.SplitBody(q.content.body, limit).value;
      NewParts(q, group, parts, |parts|, at)
    case _ => []
  }

  /** The rows a call added, if it added any: the parts of one new group, or one ungrouped row. */
  ghost predicate Extends(rows: seq<Row>, next: seq<Row>, q: Request) {
    && rows <= next
    && (forall i :: |rows| <= i < |next| ==>
          && next[i].status == Pending && next[i].claim == None
          && next[i].content.runId == q.content.runId
          && next[i].content.jobId == q.content.jobId
          && next[i].content.scope == q.content.scope)
  }

  lemma NewGroupKeepsInv(st: State, q: Request, group: Name, parts: seq<Text>, at: Time)
    requires Inv(st) && q.maxAttempts > 0 && NoGroup(st.rows, group)
    requires KeysUnique(st.rows + NewParts(q, group, parts, |parts|, at))
    ensures Inv(st.(rows := st.rows + NewParts(q, group, parts, |parts|, at)))
  {
    var next := st.rows + NewParts(q, group, parts, |parts|, at);
    NewGroupCohesive(st.rows, q, group, parts, at);
    NewGroupShape(st.rows, q, group, parts, at);
    NewGroupContiguous(st.rows, q, group, parts, at);
    hide Cohesive, Shape, Contiguous, KeysUnique, NoGroup, PartKey;
    assert RowsOk(next);
    assert TokensOk(next, st.nextToken);
  }

  lemma NewGroupCohesive(rows: seq<Row>, q: Request, group: Name, parts: seq<Text>, at: Time)
    requires Cohesive(rows) && NoGroup(rows, group)
    ensures Cohesive(rows + NewParts(q, group, parts, |parts|, at))
  {
    hide PartKey;
  }

  lemma NewGroupShape(rows: seq<Row>, q: Request, group: Name, parts: seq<Text>, at: Time)
    requires Shape(rows) && NoGroup(rows, group)
    ensures Shape(rows + NewParts(q, group, parts, |parts|, at))
  {
    hide PartKey;
  }

  lemma NewGroupContiguous(rows: seq<Row>, q: Request, group: Name, parts: seq<Text>, at: Time)
    requires Contiguous(rows)
    ensures Contiguous(rows + NewParts(q, group, parts, |parts|, at))
  {
    hide PartKey;
    var next := rows + NewParts(q, group, parts, |parts|, at);
    forall i | 0 <= i < |next| ensures InPlace(next, i) {
      if i < |rows| {
        assert InPlace(rows, i);
      }
    }
  }

  lemma NewPartsExtend(rows: seq<Row>, q: Request, group: Name, parts: seq<Text>, at: Time)
    ensures Extends(rows, rows + NewParts(q, group, parts, |parts|, at), q)
  {
  }

  lemma MultipartKeepsInv(st: State, q: Request, group: Name, limit: Option<nat>, at: Time)
    requires Inv(st) && q.maxAttempts > 0
    ensures var next := EnqueueMultipart(st, q, group, limit, at).0;
      Inv(next) && Extends(st.rows, next.rows, q) && next.debts == st.debts && next.nextToken == st.nextToken
  {
    var split := BodySplitter.SplitBody(q.content.body, limit);
    if split.Success? && EnqueueFrom(st.rows, q, group, split.value, 0, at).Success? {
      var parts := split.value;
      SplitNonempty(q.content.body, limit);
      hide KeysUnique, Cohesive, Shape, Contiguous, RowsOk, TokensOk, EnqueueFrom, BodySplitter.SplitBody;
      if NoGroup(st.rows, group) {
        MultipartOnNewGroup(st.rows, q, group, parts, at);
        if EnqueueFrom(st.rows, q, group, parts, 0, at).value.0 != st.rows {
          NewGroupKeepsInv(st, q, group, parts, at);
          NewPartsExtend(st.rows, q, group, parts, at);
        }
      } else {
        var i :| 0 <= i < |st.rows| && st.rows[i].part.Some? && st.rows[i].part.value.group == group;
        MultipartOnStoredGroup(st.rows, i, q, group, parts, at);
      }
    }
  }

  /** A split never returns an empty list of parts. */
  lemma SplitNonempty(body: Text, limit: Option<nat>)
    ensures var r := BodySplitter.SplitBody(body, limit); r.Success? ==> r.value != []
  {
    hide BodySplitter.FirstTooLong, BodySplitter.CutOne, BodySplitter.Prefixed;
  }

  /** One more row that waits outside any group. */
  lemma OneRowKeepsInv(st: State, r: Row)
    requires Inv(st) && WellFormed(r) && r.part == None && r.claim == None
    requires forall j :: 0 <= j < |st.rows| && r.key.Some? ==> st.rows[j].key != r.key
    ensures Inv(st.(rows := st.rows + [r]))
  {
    var next := st.rows + [r];
    OneRowInPlace(st.rows, r);
    hide Contiguous, WellFormed;
    assert KeysUnique(next);
    hide KeysUnique;
    assert Cohesive(next);
    hide Cohesive;
  }

  lemma OneRowInPlace(rows: seq<Row>, r: Row)
    requires Contiguous(rows) && r.part == None
    ensures Contiguous(rows + [r])
  {
    forall i | 0 <= i < |rows + [r]| ensures InPlace(rows + [r], i) {
      if i < |rows| {
        assert InPlace(rows, i);
      }
    }
  }

  lemma SingleKeepsInv(st: State, q: Request, at: Time)
    requires Inv(st) && q.maxAttempts > 0
    ensures var next := EnqueueSingle(st, q, at).0;
      Inv(next) && Extends(st.rows, next.rows, q) && next.debts == st.debts && next.nextToken == st.nextToken
  {
    hide Inv;
    var next := EnqueueSingle(st, q, at).0;
    if next.rows != st.rows {
      OneRowKeepsInv(st, NewRow(q.(part := None), at));
    }
  }

  /**
   An enqueue adds exactly its own rows if each has a body and a free key and
   the group is not stored yet, and otherwise leaves the table as it is.
   */
  lemma EnqueueAddsExactly(st: State, op: Op)
    requires Inv(st) && IsEnqueue(op)
    ensures Step(st, op).rows == if AddsRows(st.rows, op) then st.rows + RowsAdded(op) else st.rows
    ensures AddsRows(st.rows, op) ==> RowsAdded(op) != []
  {
    match op
    case DoEnqueueSingle(q, at) => hide Trim;
    case DoEnqueueMultipart(q, group, limit, at) => MultipartAddsExactly(st, q, group, limit, at);
    case _ =>
  }

  lemma MultipartAddsExactly(st: State, q: Request, group: Name, limit: Option<nat>, at: Time)
    requires Inv(st)
    ensures var op := DoEnqueueMultipart(q, group, limit, at);
      && (AddsRows(st.rows, op) ==> RowsAdded(op) != [])
      && EnqueueMultipart(st, q, group, limit, at).0.rows
         == if AddsRows(st.rows, op) then st.rows + RowsAdded(op) else st.rows
  {
    var split := BodySplitter.SplitBody(q.content.body, limit);
    if split.Success? {
      SplitNonempty(q.content.body, limit);
      hide KeysUnique, Cohesive, Shape, RowsOk, TokensOk, EnqueueFrom, BodySplitter.SplitBody, FreeFrom;
      if NoGroup(st.rows, group) {
        MultipartOnNewGroup(st.rows, q, group, split.value, at);
      } else {
        var i :| 0 <= i < |st.rows| && st.rows[i].part.Some? && st.rows[i].part.value.group == group;
        MultipartOnStoredGroup(st.rows, i, q, group, split.value, at);
      }
    }
  }
}
