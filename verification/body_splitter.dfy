/**
 Splitting a delivery body into independently retryable parts, each within a
 byte budget (delivery-outbox.js, splitDeliveryBody).
 */
module BodySplitter {
  import opened Prelude
  import opened Utf16

  const NEWLINE: CodeUnit := 0x0A
  const SPACE: CodeUnit := 0x20
  const TELEGRAM_PART_BYTES: nat := 3600
  const MIN_PART_BYTES: nat := 256
  const PREFIX_RESERVE: nat := 32

  datatype SplitError =
    | LimitTooSmall
    | PartTooLong(part: nat)

  /** The byte limit that applies: the requested one, else Telegram's, else none. */
  function ResolvePartBytes(telegram: bool, requested: Option<nat>): Option<nat> {
    if requested.Some? then requested
    else if telegram then Some(TELEGRAM_PART_BYTES)
    else None
  }

  /** The number of units in the longest run of whole code points within the budget. */
  function PrefixIndex(s: Text, budget: nat): (k: nat)
    ensures k <= |s|
  {
    if s == [] || FirstBytes(s) > budget then 0
    else FirstUnits(s) + PrefixIndex(s[FirstUnits(s)..], budget - FirstBytes(s))
  }

  /** Where a body longer than the budget is cut, before trimming. */
  function SplitPoint(s: Text, hard: nat): (cut: nat)
    requires hard <= |s|
    ensures cut <= hard
    ensures cut == hard || (cut < |s| && (s[cut] == NEWLINE || s[cut] == SPACE))
  {
    var newline := LastIndexOf(s, NEWLINE, hard);
    if newline >= hard / 2 then newline
    else
      var space := LastIndexOf(s, SPACE, hard);
      if space >= hard / 2 then space else hard
  }

  /** The first part of a body over the limit, and what remains after it. */
  function CutOne(s: Text, limit: nat): (c: (Text, Text))
    requires limit >= 4 && Utf8Length(s) > limit
    ensures |c.1| < |s|
  {
    PrefixIndexPositive(s, limit);
    var hard := PrefixIndex(s, limit);
    var cut := SplitPoint(s, hard);
    var part := TrimEnd(s[..cut]);
    if part == [] then (s[..hard], s[hard..]) else (part, TrimStart(s[cut..]))
  }

  /** The parts without their prefixes. */
  function RawParts(s: Text, limit: nat): seq<Text>
    requires limit >= 4
    decreases |s|
  {
    if s == [] then []
    else if Utf8Length(s) <= limit then [s]
    else
      var c := CutOne(s, limit);
      [c.0] + RawParts(c.1, limit)
  }

  /** "[index/count] " and the part; indices start at one. */
  function Prefixed(index: nat, count: nat, part: Text): Text {
    [0x5B] + Decimal(index) + [0x2F] + Decimal(count) + [0x5D, 0x20] + part
  }

  function PrefixedParts(parts: seq<Text>): (r: seq<Text>)
    ensures |r| == |parts|
  {
    seq(|parts|, i requires 0 <= i < |parts| => Prefixed(i + 1, |parts|, parts[i]))
  }

  function SplitBody(text: Text, limit: Option<nat>): Result<seq<Text>, SplitError> {
    if limit == None || Utf8Length(text) <= limit.value then Success([text])
    else if limit.value < MIN_PART_BYTES then Failure(LimitTooSmall)
    else
      var parts := PrefixedParts(RawParts(text, limit.value - PREFIX_RESERVE));
      var tooLong := FirstTooLong(parts, limit.value, 0);
      if tooLong == |parts| then Success(parts) else Failure(PartTooLong(tooLong + 1))
  }

  /** The index of the first part at or after i over the limit, or the number of parts. */
  function FirstTooLong(parts: seq<Text>, limit: nat, i: nat): (k: nat)
    requires i <= |parts|
    ensures i <= k <= |parts|
    ensures forall j :: i <= j < k ==> Utf8Length(parts[j]) <= limit
    ensures k < |parts| ==> Utf8Length(parts[k]) > limit
    decreases |parts| - i
  {
    if i == |parts| || Utf8Length(parts[i]) > limit then i
    else FirstTooLong(parts, limit, i + 1)
  }

  // -- What the split promises --------------------------------

  lemma PrefixIndexPositive(s: Text, budget: nat)
    requires s != [] && budget >= 4
    ensures PrefixIndex(s, budget) > 0
  {
  }

  /** The first code point of a nonempty text is the first one of any prefix that keeps it whole. */
  lemma FirstOfPrefix(s: Text, j: nat)
    requires 0 < j <= |s| && Boundary(s, j)
    ensures s[..j] != [] && FirstUnits(s[..j]) == FirstUnits(s) <= j
    ensures FirstBytes(s[..j]) == FirstBytes(s)
    ensures Utf8Length(s[..j]) == FirstBytes(s) + Utf8Length(s[FirstUnits(s)..][..j - FirstUnits(s)])
    ensures Boundary(s[FirstUnits(s)..], j - FirstUnits(s))
  {
    var n := FirstUnits(s);
    assert s[..j][n..] == s[n..][..j - n];
  }

  lemma {:induction false} PrefixIndexFits(s: Text, budget: nat)
    ensures Boundary(s, PrefixIndex(s, budget))
    ensures Utf8Length(s[..PrefixIndex(s, budget)]) <= budget
    decreases |s|
  {
    var k := PrefixIndex(s, budget);
    if k > 0 {
      var n := FirstUnits(s);
      PrefixIndexFits(s[n..], budget - FirstBytes(s));
      assert Boundary(s, k);
      FirstOfPrefix(s, k);
    }
  }

  /** PrefixIndex is the greatest boundary whose prefix fits in the budget. */
  lemma {:induction false} PrefixIndexIsGreatest(s: Text, budget: nat, j: nat)
    requires PrefixIndex(s, budget) < j <= |s| && Boundary(s, j)
    ensures Utf8Length(s[..j]) > budget
    decreases |s|
  {
    FirstOfPrefix(s, j);
    if FirstBytes(s) <= budget {
      PrefixIndexIsGreatest(s[FirstUnits(s)..], budget - FirstBytes(s), j - FirstUnits(s));
    }
  }

  /**
   parts and gaps tile the text: the text is part, gap, part, gap, ..., the gaps
   are white space, and every cut lies between code points.
   */
  ghost predicate Tiles(s: Text, parts: seq<Text>, gaps: seq<Text>)
    decreases |parts|
  {
    if parts == [] then s == [] && gaps == []
    else
      && gaps != []
      && parts[0] != []
      && parts[0] + gaps[0] <= s
      && Blank(gaps[0])
      && Boundary(s, |parts[0]|)
      && Boundary(s, |parts[0]| + |gaps[0]|)
      && Tiles(s[|parts[0]| + |gaps[0]|..], parts[1..], gaps[1..])
  }

  /** Trimming the text around a cut leaves boundaries on both sides of a blank gap. */
  lemma TrimmedCut(s: Text, cut: nat, k: nat, m: nat)
    requires cut <= |s| && Boundary(s, cut)
    requires k == |TrimEnd(s[..cut])| && m == |s| - |TrimStart(s[cut..])|
    ensures k <= cut <= m && Boundary(s, k) && Boundary(s, m) && Blank(s[k..m])
    ensures TrimEnd(s[..cut]) == s[..k] && TrimStart(s[cut..]) == s[m..]
  {
    hide TrimStart, TrimEnd;
    assert k < cut ==> IsSpace(s[..cut][k..][0]);
    assert m > cut ==> IsSpace(s[cut..][..m - cut][m - cut - 1]);
    forall i | k <= i < m ensures IsSpace(s[i]) {
      if i < cut {
        assert s[i] == s[..cut][k..][i - k];
      } else {
        assert s[i] == s[cut..][..m - cut][i - cut];
      }
    }
  }

  /** One cut: a nonempty part ending and a rest starting at boundaries, with a blank gap between. */
  lemma FirstPart(s: Text, limit: nat) returns (k: nat, m: nat)
    requires limit >= 4 && Utf8Length(s) > limit
    ensures 0 < k <= m <= |s| && Boundary(s, k) && Boundary(s, m) && Blank(s[k..m])
    ensures k <= PrefixIndex(s, limit)
    ensures CutOne(s, limit) == (s[..k], s[m..])
  {
    hide PrefixIndex, TrimStart, TrimEnd;
    var hard := PrefixIndex(s, limit);
    PrefixIndexPositive(s, limit);
    PrefixIndexFits(s, limit);
    var cut := SplitPoint(s, hard);
    k, m := |TrimEnd(s[..cut])|, |s| - |TrimStart(s[cut..])|;
    TrimmedCut(s, cut, k, m);
    if k == 0 {
      k, m := hard, hard;
    }
  }

  lemma ShorterPrefixFits(s: Text, limit: nat, k: nat)
    requires k <= PrefixIndex(s, limit) && Boundary(s, k)
    ensures Utf8Length(s[..k]) <= limit
  {
    var hard := PrefixIndex(s, limit);
    PrefixIndexFits(s, limit);
    SplitAtBoundary(s[..hard], k);
    assert s[..hard][..k] == s[..k];
  }

  lemma {:induction false} RawPartsFit(s: Text, limit: nat)
    requires limit >= 4
    ensures forall i :: 0 <= i < |RawParts(s, limit)| ==> Utf8Length(RawParts(s, limit)[i]) <= limit
    decreases |s|
  {
    hide Utf8Length, CutOne, PrefixIndex;
    if s != [] && Utf8Length(s) > limit {
      var k, m := FirstPart(s, limit);
      ShorterPrefixFits(s, limit, k);
      RawPartsFit(s[m..], limit);
      assert RawParts(s, limit) == [s[..k]] + RawParts(s[m..], limit);
    }
  }

  /** Nothing is lost but white space at the cuts. */
  lemma {:induction false} RawPartsTile(s: Text, limit: nat) returns (gaps: seq<Text>)
    requires limit >= 4
    ensures Tiles(s, RawParts(s, limit), gaps)
    decreases |s|
  {
    if s == [] {
      gaps := [];
    } else if Utf8Length(s) <= limit {
      gaps := [[]];
    } else {
      var k, m := FirstPart(s, limit);
      var rest := RawPartsTile(s[m..], limit);
      TilesCons(s, k, m, RawParts(s[m..], limit), rest);
      gaps := [s[k..m]] + rest;
    }
  }

  lemma TilesCons(s: Text, k: nat, m: nat, parts: seq<Text>, gaps: seq<Text>)
    requires 0 < k <= m <= |s| && Boundary(s, k) && Boundary(s, m) && Blank(s[k..m])
    requires Tiles(s[m..], parts, gaps)
    ensures Tiles(s, [s[..k]] + parts, [s[k..m]] + gaps)
  {
    assert s[..k] + s[k..m] == s[..m];
    assert ([s[..k]] + parts)[1..] == parts;
    assert ([s[k..m]] + gaps)[1..] == gaps;
  }

  function NonBlank(s: Text): Text {
    if s == [] then []
    else if IsSpace(s[0]) then NonBlank(s[1..])
    else [s[0]] + NonBlank(s[1..])
  }

  function Flatten(parts: seq<Text>): Text {
    if parts == [] then [] else parts[0] + Flatten(parts[1..])
  }

  lemma {:induction false} NonBlankConcat(a: Text, b: Text)
    ensures NonBlank(a + b) == NonBlank(a) + NonBlank(b)
  {
    if a == [] {
      assert a + b == b;
    } else {
      NonBlankConcat(a[1..], b);
      assert (a + b)[0] == a[0] && (a + b)[1..] == a[1..] + b;
      if !IsSpace(a[0]) {
        assert [a[0]] + (NonBlank(a[1..]) + NonBlank(b)) == [a[0]] + NonBlank(a[1..]) + NonBlank(b);
      }
    }
  }

  lemma {:induction false} NonBlankOfBlank(s: Text)
    requires Blank(s)
    ensures NonBlank(s) == []
  {
    if s != [] {
      NonBlankOfBlank(s[1..]);
    }
  }

  lemma {:induction false} TilesKeepNonBlank(s: Text, parts: seq<Text>, gaps: seq<Text>)
    requires Tiles(s, parts, gaps)
    ensures NonBlank(Flatten(parts)) == NonBlank(s)
    decreases |parts|
  {
    if parts != [] {
      var m := |parts[0]| + |gaps[0]|;
      assert s == (parts[0] + gaps[0]) + s[m..];
      NonBlankConcat(parts[0] + gaps[0], s[m..]);
      NonBlankConcat(parts[0], gaps[0]);
      NonBlankOfBlank(gaps[0]);
      TilesKeepNonBlank(s[m..], parts[1..], gaps[1..]);
      NonBlankConcat(parts[0], Flatten(parts[1..]));
    }
  }

  /** The parts carry exactly the body's characters other than white space, in order. */
  lemma RawPartsKeepText(s: Text, limit: nat)
    requires limit >= 4
    ensures NonBlank(Flatten(RawParts(s, limit))) == NonBlank(s)
  {
    var gaps := RawPartsTile(s, limit);
    TilesKeepNonBlank(s, RawParts(s, limit), gaps);
  }

  /** The reserve covers the prefix when both counters have at most fourteen digits. */
  lemma PrefixFitsReserve(index: nat, count: nat, part: Text)
    requires index <= count < 100_000_000_000_000
    ensures Utf8Length(Prefixed(index, count, part)) <= PREFIX_RESERVE + Utf8Length(part)
  {
    var prefix := [0x5B] + Decimal(index) + [0x2F] + Decimal(count) + [0x5D, 0x20];
    assert Pow10(14) == 100_000_000_000_000 by {
      assert Pow10(7) == 10_000_000;
      assert Pow10(14) == 10_000_000 * Pow10(7);
    }
    DecimalLength(index, 14);
    DecimalLength(count, 14);
    AsciiSize(prefix);
    SizeOfConcat(prefix, part);
    assert Prefixed(index, count, part) == prefix + part;
  }

  /** Every part that is returned, prefix included, is within the limit. */
  lemma PartsWithinLimit(text: Text, limit: nat)
    requires SplitBody(text, Some(limit)).Success?
    ensures forall i :: 0 <= i < |SplitBody(text, Some(limit)).value| ==>
      Utf8Length(SplitBody(text, Some(limit)).value[i]) <= limit
  {
  }

  lemma PrefixedPartsFit(raw: seq<Text>, limit: nat)
    requires limit >= PREFIX_RESERVE
    requires forall i :: 0 <= i < |raw| ==> Utf8Length(raw[i]) <= limit - PREFIX_RESERVE
    requires |raw| < 100_000_000_000_000
    ensures FirstTooLong(PrefixedParts(raw), limit, 0) == |raw|
  {
    forall i | 0 <= i < |raw| ensures Utf8Length(PrefixedParts(raw)[i]) <= limit {
      PrefixFitsReserve(i + 1, |raw|, raw[i]);
    }
  }

  /** The split fails only on a limit below 256 bytes, as long as there are fewer than 10^14 parts. */
  lemma SplitSucceeds(text: Text, limit: nat)
    requires limit >= MIN_PART_BYTES
    requires |RawParts(text, limit - PREFIX_RESERVE)| < 100_000_000_000_000
    ensures SplitBody(text, Some(limit)) == Success(
      if Utf8Length(text) <= limit then [text]
      else PrefixedParts(RawParts(text, limit - PREFIX_RESERVE)))
  {
    hide RawParts, PrefixedParts, Utf8Length;
    RawPartsFit(text, limit - PREFIX_RESERVE);
    PrefixedPartsFit(RawParts(text, limit - PREFIX_RESERVE), limit);
  }

  // -- The loops ----------------------------------------------

  /** No part is empty, so there are no more parts than code units. */
  lemma {:induction false} TilesCount(s: Text, parts: seq<Text>, gaps: seq<Text>)
    requires Tiles(s, parts, gaps)
    ensures |parts| <= |s|
    decreases |parts|
  {
    if parts != [] {
      TilesCount(s[|parts[0]| + |gaps[0]|..], parts[1..], gaps[1..]);
    }
  }

  /** A body of fewer than 10^14 code units splits under every limit from 256 bytes on, Telegram's default included. */
  lemma SplitNeverFails(text: Text, telegram: bool, requested: Option<nat>)
    requires requested.Some? ==> requested.value >= MIN_PART_BYTES
    requires |text| < 100_000_000_000_000
    ensures SplitBody(text, ResolvePartBytes(telegram, requested)).Success?
  {
    hide RawParts, PrefixedParts, Utf8Length;
    var limit := ResolvePartBytes(telegram, requested);
    if limit.Some? {
      var gaps := RawPartsTile(text, limit.value - PREFIX_RESERVE);
      TilesCount(text, RawParts(text, limit.value - PREFIX_RESERVE), gaps);
      hide SplitBody;
      SplitSucceeds(text, limit.value);
    }
  }

  method Utf8PrefixIndex(value: Text, maxBytes: nat) returns (index: nat)
    ensures index == PrefixIndex(value, maxBytes)
  {
    var bytes := 0;
    index := 0;
    while index < |value|
      invariant index <= |value| && bytes <= maxBytes
      invariant PrefixIndex(value, maxBytes) == index + PrefixIndex(value[index..], maxBytes - bytes)
    {
      var rest := value[index..];
      var characterBytes := FirstBytes(rest);
      if bytes + characterBytes > maxBytes { break; }
      bytes := bytes + characterBytes;
      assert rest[FirstUnits(rest)..] == value[index + FirstUnits(rest)..];
      index := index + FirstUnits(rest);
    }
  }

  /** The while loop: shrinks `remaining` and grows `rawParts`. */
  method SplitRaw(text: Text, contentLimit: nat) returns (rawParts: seq<Text>)
    requires contentLimit >= 4
    ensures rawParts == RawParts(text, contentLimit)
  {
    hide PrefixIndex, TrimStart, TrimEnd, Utf8Length, LastIndexOf;
    rawParts := [];
    var remaining := text;
    while remaining != []
      invariant RawParts(text, contentLimit) == rawParts + RawParts(remaining, contentLimit)
      decreases |remaining|
    {
      if Utf8Length(remaining) <= contentLimit {
        rawParts := rawParts + [remaining];
        remaining := [];
      } else {
        var hardIndex := Utf8PrefixIndex(remaining, contentLimit);
        // the source's check for hardIndex <= 0 never fires: a code point has at most four bytes
        PrefixIndexPositive(remaining, contentLimit);
        var splitAt := LastIndexOf(remaining, NEWLINE, hardIndex);
        if splitAt < hardIndex / 2 { splitAt := LastIndexOf(remaining, SPACE, hardIndex); }
        if splitAt < hardIndex / 2 { splitAt := hardIndex; }
        ghost var c := CutOne(remaining, contentLimit);
        assert rawParts + ([c.0] + RawParts(c.1, contentLimit))
            == rawParts + [c.0] + RawParts(c.1, contentLimit);
        var part := TrimEnd(remaining[..splitAt]);
        if part == [] {
          rawParts := rawParts + [remaining[..hardIndex]];
          remaining := remaining[hardIndex..];
        } else {
          rawParts := rawParts + [part];
          remaining := TrimStart(remaining[splitAt..]);
        }
        assert rawParts[|rawParts| - 1] == c.0 && remaining == c.1;
      }
    }
  }

  method SplitDeliveryBody(text: Text, maxPartBytes: Option<nat>)
    returns (r: Result<seq<Text>, SplitError>)
    ensures r == SplitBody(text, maxPartBytes)
  {
    hide RawParts, PrefixedParts, Utf8Length, FirstTooLong, Prefixed;
    if maxPartBytes == None || Utf8Length(text) <= maxPartBytes.value {
      return Success([text]);
    }
    var limit := maxPartBytes.value;
    if limit < MIN_PART_BYTES {
      return Failure(LimitTooSmall);
    }
    var rawParts := SplitRaw(text, limit - PREFIX_RESERVE);
    r := PrefixAll(rawParts, limit);
  }

  /** Numbers the parts, failing at the first one that no longer fits. */
  method PrefixAll(rawParts: seq<Text>, limit: nat) returns (r: Result<seq<Text>, SplitError>)
    ensures var parts := PrefixedParts(rawParts);
      var tooLong := FirstTooLong(parts, limit, 0);
      r == if tooLong == |parts| then Success(parts) else Failure(PartTooLong(tooLong + 1))
  {
    hide Utf8Length, Prefixed;
    ghost var parts := PrefixedParts(rawParts);
    var prefixed: seq<Text> := [];
    for i := 0 to |rawParts|
      invariant prefixed == parts[..i]
      invariant FirstTooLong(parts, limit, 0) == FirstTooLong(parts, limit, i)
    {
      var part := Prefixed(i + 1, |rawParts|, rawParts[i]);
      if Utf8Length(part) > limit {
        return Failure(PartTooLong(i + 1));
      }
      prefixed := prefixed + [part];
    }
    assert parts[..|parts|] == parts;
    return Success(prefixed);
  }
}
