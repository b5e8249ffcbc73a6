/**
 Reading a streamed completion. The body arrives in chunks of decoded text cut
 anywhere; lines are put together in a buffer of bounded size. What a payload
 means as JSON is a parameter. The line form is a simplified reading of
 section 9.2.6 of the WHATWG HTML standard.
 */
module SseReader {
  import opened Prelude
  import opened Utf16

  const LF: CodeUnit := 0x0A
  const CR: CodeUnit := 0x0D
  const MAX_UNDRAINED_BUFFER: nat := 8 * 1024 * 1024
  /** The field name `data:` and the payload `[DONE]`. */
  const DATA: Text := [0x64, 0x61, 0x74, 0x61, 0x3A]
  const DONE: Text := [0x5B, 0x44, 0x4F, 0x4E, 0x45, 0x5D]

  /** A payload as JSON: not an object, an in-band error, or a completion chunk. */
  datatype Frame =
    | Skipped
    | ErrorFrame(message: Text)
    | Delta(content: Text, usage: Option<Text>, finish: Option<Text>)

  type Parser = Text -> Frame

  /** What the lines so far add up to. */
  datatype Turn = Turn(content: Text, usage: Option<Text>, finish: Option<Text>, done: bool)

  const NO_TURN := Turn([], None, None, false)

  datatype Failure = StreamError(message: Text) | Overflow | Truncated

  function Later(now: Option<Text>, next: Option<Text>): Option<Text> {
    if next.Some? then next else now
  }

  function ProcessLine(parse: Parser, t: Turn, line: Text): Result<Turn, Failure> {
    if |line| < |DATA| || line[..|DATA|] != DATA then Success(t)
    else
      var payload := Trim(line[|DATA|..]);
      if payload == [] then Success(t)
      else if payload == DONE then Success(t.(done := true))
      else
        match parse(payload)
        case Skipped => Success(t)
        case ErrorFrame(message) => Failure(StreamError(if |message| > 500 then message[..500] else message))
        case Delta(content, usage, finish) =>
          Success(Turn(t.content + content, Later(t.usage, usage), Later(t.finish, finish), t.done))
  }

  function StripCR(line: Text): Text {
    if line != [] && line[|line| - 1] == CR then line[..|line| - 1] else line
  }

  // -- The text as lines ------------------------------------

  /** The index of the first line feed, or the length of the text. */
  function LineEnd(text: Text): (n: nat)
    ensures n <= |text|
    ensures forall i :: 0 <= i < n ==> text[i] != LF
    ensures n < |text| ==> text[n] == LF
  {
    if text == [] || text[0] == LF then 0 else 1 + LineEnd(text[1..])
  }

  /** The terminated lines of a text. */
  function Lines(text: Text): seq<Text>
    decreases |text|
  {
    var n := LineEnd(text);
    if n == |text| then [] else [text[..n]] + Lines(text[n + 1..])
  }

  /** What follows the last line feed. */
  function Residual(text: Text): (r: Text)
    ensures |r| <= |text|
    decreases |text|
  {
    var n := LineEnd(text);
    if n == |text| then text else Residual(text[n + 1..])
  }

  function FoldLines(parse: Parser, t: Turn, lines: seq<Text>): Result<Turn, Failure>
    decreases |lines|
  {
    if lines == [] then Success(t)
    else
      match ProcessLine(parse, t, StripCR(lines[0]))
      case Failure(f) => Failure(f)
      case Success(u) => FoldLines(parse, u, lines[1..])
  }

  /** The unterminated last line, and the verdict. */
  function Conclude(parse: Parser, t: Turn, residual: Text): Result<Turn, Failure> {
    var last := if Trim(residual) == [] then Success(t) else ProcessLine(parse, t, StripCR(residual));
    match last
    case Failure(f) => Failure(f)
    case Success(u) => if u.done then Success(u) else Failure(Truncated)
  }

  /** The simple reading: all lines of the whole text, one after the other. */
  function ReadWhole(parse: Parser, text: Text): Result<Turn, Failure> {
    match FoldLines(parse, NO_TURN, Lines(text))
    case Failure(f) => Failure(f)
    case Success(t) => Conclude(parse, t, Residual(text))
  }

  // -- The reader with its buffer ---------------------------

  datatype Reader = Reader(turn: Turn, buffer: Text)

  function Absorb(parse: Parser, r: Reader, chunk: Text): Result<Reader, Failure> {
    var text := r.buffer + chunk;
    match FoldLines(parse, r.turn, Lines(text))
    case Failure(f) => Failure(f)
    case Success(t) =>
      if |Residual(text)| > MAX_UNDRAINED_BUFFER then Failure(Overflow) else Success(Reader(t, Residual(text)))
  }

  function AbsorbAll(parse: Parser, r: Reader, chunks: seq<Text>): Result<Reader, Failure>
    decreases |chunks|
  {
    if chunks == [] then Success(r)
    else
      match Absorb(parse, r, chunks[0])
      case Failure(f) => Failure(f)
      case Success(q) => AbsorbAll(parse, q, chunks[1..])
  }

  /** What the decoder still yields at the end: U+FFFD if the body stops inside a character. */
  function Flush(cutShort: bool): Text { if cutShort then [0xFFFD] else [] }

  function Collect(parse: Parser, chunks: seq<Text>, cutShort: bool): Result<Turn, Failure> {
    match AbsorbAll(parse, Reader(NO_TURN, []), chunks)
    case Failure(f) => Failure(f)
    case Success(r) => Conclude(parse, r.turn, r.buffer + Flush(cutShort))
  }

  method CollectSseChatCompletion(parse: Parser, chunks: seq<Text>, cutShort: bool) returns (r: Result<Turn, Failure>)
    ensures r == Collect(parse, chunks, cutShort)
  {
    var turn, buffer := NO_TURN, [];
    var k := 0;
    while k < |chunks|
      invariant 0 <= k <= |chunks|
      invariant AbsorbAll(parse, Reader(turn, buffer), chunks[k..]) == AbsorbAll(parse, Reader(NO_TURN, []), chunks)
    {
      assert chunks[k..][0] == chunks[k] && chunks[k..][1..] == chunks[k + 1..];
      var text := buffer + chunks[k];
      ghost var before := turn;
      buffer := text;
      var n := LineEnd(buffer);
      while n < |buffer|
        invariant n == LineEnd(buffer)
        invariant FoldLines(parse, turn, Lines(buffer)) == FoldLines(parse, before, Lines(text))
        invariant Residual(buffer) == Residual(text)
        decreases |buffer|
      {
        var line := StripCR(buffer[..n]);
        assert Lines(buffer)[0] == buffer[..n] && Lines(buffer)[1..] == Lines(buffer[n + 1..]);
        buffer := buffer[n + 1..];
        var next := ProcessLine(parse, turn, line);
        if next.Failure? {
          assert Absorb(parse, Reader(before, text[..|text| - |chunks[k]|]), chunks[k]) == Failure(next.error);
          return Failure(next.error);
        }
        turn := next.value;
        n := LineEnd(buffer);
      }
      if |buffer| > MAX_UNDRAINED_BUFFER { return Failure(Overflow); }
      k := k + 1;
    }
    r := Conclude(parse, turn, buffer + Flush(cutShort));
  }

  // -- Cutting a text ---------------------------------------

  function Concat(chunks: seq<Text>): Text
    decreases |chunks|
  {
    if chunks == [] then [] else chunks[0] + Concat(chunks[1..])
  }

  lemma {:induction false} LineEndOfConcat(a: Text, b: Text)
    ensures LineEnd(a + b) == if LineEnd(a) < |a| then LineEnd(a) else |a| + LineEnd(b)
  {
    if a == [] { assert a + b == b; }
    else if a[0] != LF {
      assert (a + b)[1..] == a[1..] + b;
      LineEndOfConcat(a[1..], b);
    }
  }

  lemma Associate(a: seq<Text>, b: seq<Text>, c: seq<Text>)
    ensures (a + b) + c == a + (b + c)
  {}

  /** Cutting a text anywhere, and carrying the unterminated rest over, keeps its lines. */
  lemma {:induction false} LinesOfConcat(a: Text, b: Text)
    ensures Lines(a + b) == Lines(a) + Lines(Residual(a) + b)
    ensures Residual(a + b) == Residual(Residual(a) + b)
    decreases |a|
  {
    var n := LineEnd(a);
    LineEndOfConcat(a, b);
    if n < |a| {
      assert (a + b)[..n] == a[..n] && (a + b)[n + 1..] == a[n + 1..] + b;
      LinesOfConcat(a[n + 1..], b);
      Associate([a[..n]], Lines(a[n + 1..]), Lines(Residual(a) + b));
    } else {
      assert Lines(a) == [];
    }
  }

  lemma {:induction false} FoldLinesOfConcat(parse: Parser, t: Turn, a: seq<Text>, b: seq<Text>)
    ensures FoldLines(parse, t, a + b)
         == match FoldLines(parse, t, a) case Failure(f) => Failure(f) case Success(u) => FoldLines(parse, u, b)
    decreases |a|
  {
    if a == [] { assert a + b == b; } else {
      assert (a + b)[1..] == a[1..] + b;
      match ProcessLine(parse, t, StripCR(a[0]))
      case Failure(_) =>
      case Success(u) => FoldLinesOfConcat(parse, u, a[1..], b);
    }
  }

  /** The buffer after the first k chunks, if nothing fails before. */
  function BufferAt(buffer: Text, chunks: seq<Text>, k: nat): Text
    requires k <= |chunks|
  {
    Residual(buffer + Concat(chunks[..k]))
  }

  /** Nowhere does the buffer outgrow its limit. */
  ghost predicate Fits(buffer: Text, chunks: seq<Text>) {
    forall k :: 1 <= k <= |chunks| ==> |BufferAt(buffer, chunks, k)| <= MAX_UNDRAINED_BUFFER
  }

  lemma BufferCarries(buffer: Text, chunks: seq<Text>, k: nat)
    requires 1 <= k <= |chunks|
    ensures BufferAt(buffer, chunks, k) == BufferAt(Residual(buffer + chunks[0]), chunks[1..], k - 1)
  {
    assert chunks[..k][0] == chunks[0] && chunks[..k][1..] == chunks[1..][..k - 1];
    var rest := Concat(chunks[1..][..k - 1]);
    assert buffer + Concat(chunks[..k]) == (buffer + chunks[0]) + rest;
    LinesOfConcat(buffer + chunks[0], rest);
  }

  lemma FirstBuffer(buffer: Text, chunks: seq<Text>)
    requires chunks != []
    ensures BufferAt(buffer, chunks, 1) == Residual(buffer + chunks[0])
  {
    assert chunks[..1] == [chunks[0]] && Concat([chunks[0]]) == chunks[0] + [] == chunks[0];
  }

  lemma FitsFromSecond(buffer: Text, chunks: seq<Text>)
    requires chunks != [] && Fits(buffer, chunks)
    ensures Fits(Residual(buffer + chunks[0]), chunks[1..])
  {
    forall k | 1 <= k <= |chunks[1..]|
      ensures |BufferAt(Residual(buffer + chunks[0]), chunks[1..], k)| <= MAX_UNDRAINED_BUFFER
    {
      BufferCarries(buffer, chunks, k + 1);
    }
  }

  lemma NoLineInResidual(text: Text)
    ensures LineEnd(Residual(text)) == |Residual(text)| && Lines(Residual(text)) == []
    ensures Residual(Residual(text)) == Residual(text)
    decreases |text|
  {}

  /** As long as the buffer fits, the reader has folded the lines of all it was given. */
  lemma {:induction false} AbsorbsLines(parse: Parser, r: Reader, chunks: seq<Text>)
    requires Fits(r.buffer, chunks) && Residual(r.buffer) == r.buffer && Lines(r.buffer) == []
    ensures AbsorbAll(parse, r, chunks)
         == match FoldLines(parse, r.turn, Lines(r.buffer + Concat(chunks)))
            case Failure(f) => Failure(f)
            case Success(t) => Success(Reader(t, Residual(r.buffer + Concat(chunks))))
    decreases |chunks|
  {
    if chunks == [] { assert r.buffer + [] == r.buffer; } else {
      var text, rest := r.buffer + chunks[0], Concat(chunks[1..]);
      assert r.buffer + Concat(chunks) == text + rest;
      FirstBuffer(r.buffer, chunks);
      assert |Residual(text)| <= MAX_UNDRAINED_BUFFER;
      FitsFromSecond(r.buffer, chunks);
      hide Lines, Residual, Fits, BufferAt, Concat;
      LinesOfConcat(text, rest);
      FoldLinesOfConcat(parse, r.turn, Lines(text), Lines(Residual(text) + rest));
      NoLineInResidual(text);
      hide FoldLines;
      match FoldLines(parse, r.turn, Lines(text))
      case Failure(_) =>
      case Success(t) => AbsorbsLines(parse, Reader(t, Residual(text)), chunks[1..]);
    }
  }

  /** When the buffer outgrows its limit the reader reports that, unless a line failed first. */
  lemma {:induction false} Overflows(parse: Parser, r: Reader, chunks: seq<Text>, k: nat)
    requires Residual(r.buffer) == r.buffer && Lines(r.buffer) == []
    requires 1 <= k <= |chunks| && |BufferAt(r.buffer, chunks, k)| > MAX_UNDRAINED_BUFFER
    requires Fits(r.buffer, chunks[..k - 1])
    ensures AbsorbAll(parse, r, chunks)
         == match FoldLines(parse, r.turn, Lines(r.buffer + Concat(chunks[..k])))
            case Failure(f) => Failure(f)
            case Success(_) => Failure(Overflow)
    decreases |chunks|
  {
    var text, rest := r.buffer + chunks[0], Concat(chunks[1..][..k - 1]);
    assert chunks[..k][0] == chunks[0] && chunks[..k][1..] == chunks[1..][..k - 1];
    assert r.buffer + Concat(chunks[..k]) == text + rest;
    BufferCarries(r.buffer, chunks, k);
    FirstBuffer(r.buffer, chunks);
    assert k == 1 ==> Residual(text) + rest == Residual(text);
    if k > 1 {
      FirstBuffer(r.buffer, chunks[..k - 1]);
      assert |Residual(text)| <= MAX_UNDRAINED_BUFFER;
      FitsFromSecond(r.buffer, chunks[..k - 1]);
      assert chunks[..k - 1][1..] == chunks[1..][..k - 2];
    }
    hide Lines, Residual, Fits, BufferAt, Concat;
    LinesOfConcat(text, rest);
    FoldLinesOfConcat(parse, r.turn, Lines(text), Lines(Residual(text) + rest));
    NoLineInResidual(text);
    if k > 1 && FoldLines(parse, r.turn, Lines(text)).Success? {
      hide FoldLines;
      Overflows(parse, Reader(FoldLines(parse, r.turn, Lines(text)).value, Residual(text)), chunks[1..], k - 1);
    }
  }

  // -- Results ----------------------------------------------

  /** While the buffer fits, cutting does not matter: the outcome is that of the whole text. */
  lemma ReadsTheWholeText(parse: Parser, chunks: seq<Text>, cutShort: bool)
    requires Fits([], chunks)
    ensures Collect(parse, chunks, cutShort) == ReadWhole(parse, Concat(chunks) + Flush(cutShort))
  {
    var text := Concat(chunks);
    assert [] + text == text;
    AbsorbsLines(parse, Reader(NO_TURN, []), chunks);
    LinesOfConcat(text, Flush(cutShort));
    NoLineInResidual(text);
    LineEndOfConcat(Residual(text), Flush(cutShort));
    assert Lines(text) + [] == Lines(text);
  }

  /** Otherwise the first overflow decides, unless an in-band error came before it. */
  lemma OverflowIsReported(parse: Parser, chunks: seq<Text>, cutShort: bool, k: nat)
    requires 1 <= k <= |chunks| && |BufferAt([], chunks, k)| > MAX_UNDRAINED_BUFFER && Fits([], chunks[..k - 1])
    ensures Collect(parse, chunks, cutShort)
         == match FoldLines(parse, NO_TURN, Lines(Concat(chunks[..k])))
            case Failure(f) => Failure(f)
            case Success(_) => Failure(Overflow)
  {
    assert [] + Concat(chunks[..k]) == Concat(chunks[..k]);
    Overflows(parse, Reader(NO_TURN, []), chunks, k);
  }

  /** No line of the text, terminated or not, is longer than the buffer may grow. */
  ghost predicate LinesFit(text: Text) {
    && (forall line <- Lines(text) :: |line| <= MAX_UNDRAINED_BUFFER)
    && |Residual(text)| <= MAX_UNDRAINED_BUFFER
  }

  lemma {:induction false} PrefixBuffers(a: Text, b: Text)
    requires LinesFit(a + b)
    ensures |Residual(a)| <= MAX_UNDRAINED_BUFFER
  {
    LinesOfConcat(a, b);
    NoLineInResidual(a);
    LineEndOfConcat(Residual(a), b);
    var rest := Residual(a) + b;
    if LineEnd(rest) < |rest| {
      assert Lines(rest)[0] == rest[..LineEnd(rest)];
      assert Lines(a + b)[|Lines(a)|] == Lines(rest)[0];
    }
  }

  lemma {:induction false} ConcatSplits(chunks: seq<Text>, k: nat)
    requires k <= |chunks|
    ensures Concat(chunks) == Concat(chunks[..k]) + Concat(chunks[k..])
    decreases |chunks|
  {
    if k > 0 {
      ConcatSplits(chunks[1..], k - 1);
      assert chunks[..k][1..] == chunks[1..][..k - 1] && chunks[1..][k - 1..] == chunks[k..];
    }
  }

  /** If all lines fit, every way of cutting the body gives the same outcome. */
  lemma ChunksDoNotMatter(parse: Parser, chunks: seq<Text>, others: seq<Text>, cutShort: bool)
    requires Concat(chunks) == Concat(others) && LinesFit(Concat(chunks))
    ensures Collect(parse, chunks, cutShort) == Collect(parse, others, cutShort)
         == ReadWhole(parse, Concat(chunks) + Flush(cutShort))
  {
    FitsAnyCut(chunks);
    FitsAnyCut(others);
    ReadsTheWholeText(parse, chunks, cutShort);
    ReadsTheWholeText(parse, others, cutShort);
  }

  lemma FitsAnyCut(chunks: seq<Text>)
    requires LinesFit(Concat(chunks))
    ensures Fits([], chunks)
  {
    forall k | 1 <= k <= |chunks| ensures |BufferAt([], chunks, k)| <= MAX_UNDRAINED_BUFFER {
      ConcatSplits(chunks, k);
      assert [] + Concat(chunks[..k]) == Concat(chunks[..k]);
      PrefixBuffers(Concat(chunks[..k]), Concat(chunks[k..]));
    }
  }

  // -- What a completed turn has seen -----------------------

  predicate Sentinel(line: Text) {
    |line| >= |DATA| && line[..|DATA|] == DATA && Trim(line[|DATA|..]) == DONE
  }

  predicate InBandError(parse: Parser, line: Text) {
    && |line| >= |DATA| && line[..|DATA|] == DATA
    && var payload := Trim(line[|DATA|..]);
    payload != [] && payload != DONE && parse(payload).ErrorFrame?
  }

  /** The lines a reader looks at: the terminated ones, and the last if it is not blank. */
  function AllLines(text: Text): seq<Text> {
    Lines(text) + if Trim(Residual(text)) == [] then [] else [Residual(text)]
  }

  ghost predicate AnySentinel(lines: seq<Text>) { exists i :: 0 <= i < |lines| && Sentinel(StripCR(lines[i])) }

  ghost predicate AnyError(parse: Parser, lines: seq<Text>) {
    exists i :: 0 <= i < |lines| && InBandError(parse, StripCR(lines[i]))
  }

  lemma {:induction false} FoldSees(parse: Parser, t: Turn, lines: seq<Text>)
    ensures FoldLines(parse, t, lines).Failure? <==> AnyError(parse, lines)
    ensures var r := FoldLines(parse, t, lines); r.Success? ==> (r.value.done <==> t.done || AnySentinel(lines))
    ensures var r := FoldLines(parse, t, lines); r.Failure? ==> r.error.StreamError?
    decreases |lines|
  {
    if lines != [] {
      var first := StripCR(lines[0]);
      var rest := lines[1..];
      assert AnySentinel(lines) <==> Sentinel(first) || AnySentinel(rest) by {
        forall i | 0 <= i < |rest| && Sentinel(StripCR(rest[i])) ensures AnySentinel(lines) {
          assert lines[i + 1] == rest[i];
        }
        forall i | 0 < i < |lines| && Sentinel(StripCR(lines[i])) ensures AnySentinel(rest) {
          assert lines[i] == rest[i - 1];
        }
      }
      assert AnyError(parse, lines) <==> InBandError(parse, first) || AnyError(parse, rest) by {
        forall i | 0 <= i < |rest| && InBandError(parse, StripCR(rest[i])) ensures AnyError(parse, lines) {
          assert lines[i + 1] == rest[i];
        }
        forall i | 0 < i < |lines| && InBandError(parse, StripCR(lines[i])) ensures AnyError(parse, rest) {
          assert lines[i] == rest[i - 1];
        }
      }
      hide AnySentinel, AnyError, StripCR, Trim;
      var next := ProcessLine(parse, t, first);
      assert next.Failure? <==> InBandError(parse, first);
      if next.Success? { FoldSees(parse, next.value, rest); }
    }
  }

  lemma WholeIsOneFold(parse: Parser, text: Text)
    ensures ReadWhole(parse, text)
         == match FoldLines(parse, NO_TURN, AllLines(text))
            case Failure(f) => Failure(f)
            case Success(t) => if t.done then Success(t) else Failure(Truncated)
  {
    var last := if Trim(Residual(text)) == [] then [] else [Residual(text)];
    FoldLinesOfConcat(parse, NO_TURN, Lines(text), last);
    hide Lines, Residual, Trim, ProcessLine;
    match FoldLines(parse, NO_TURN, Lines(text))
    case Failure(_) =>
    case Success(t) =>
      if last != [] { assert last[1..] == []; }
  }

  /**
   The turn completes exactly when the body holds the sentinel line and no
   in-band error; it is truncated exactly when it holds neither.
   */
  lemma CompletesIff(parse: Parser, chunks: seq<Text>, cutShort: bool)
    requires Fits([], chunks)
    ensures var r, lines := Collect(parse, chunks, cutShort), AllLines(Concat(chunks) + Flush(cutShort));
      && (r.Success? <==> AnySentinel(lines) && !AnyError(parse, lines))
      && (r == Failure(Truncated) <==> !AnySentinel(lines) && !AnyError(parse, lines))
      && r != Failure(Overflow)
  {
    var text := Concat(chunks) + Flush(cutShort);
    ReadsTheWholeText(parse, chunks, cutShort);
    WholeIsOneFold(parse, text);
    FoldSees(parse, NO_TURN, AllLines(text));
    hide AnySentinel, AnyError, Collect, ReadWhole, AllLines;
  }

  // -- When cutting does matter -----------------------------

  /** The body one unit at a time. */
  function Units(text: Text): (r: seq<Text>)
    ensures |r| == |text| && forall i :: 0 <= i < |r| ==> r[i] == [text[i]]
  {
    seq(|text|, i requires 0 <= i < |text| => [text[i]])
  }

  lemma {:induction false} UnitsSpell(text: Text, k: nat)
    requires k <= |text|
    ensures Concat(Units(text)[..k]) == text[..k]
    decreases k
  {
    if k > 0 {
      UnitsSpell(text[1..], k - 1);
      assert Units(text)[..k][1..] == Units(text[1..])[..k - 1];
      assert text[..k] == [text[0]] + text[1..][..k - 1];
    }
  }

  lemma UnfoldLine(text: Text)
    requires LineEnd(text) < |text|
    ensures Residual(text) == Residual(text[LineEnd(text) + 1..])
    ensures Lines(text) == [text[..LineEnd(text)]] + Lines(text[LineEnd(text) + 1..])
  {
    hide LineEnd;
  }

  /** Behind the first line feed the buffer starts afresh. */
  lemma ResidualPastFeed(a: Text, b: Text)
    requires LineEnd(a) == |a|
    ensures Residual(a + ([LF] + b)) == Residual(b) && Lines(a + ([LF] + b)) == [a] + Lines(b)
  {
    hide Residual, LineEnd, Lines;
    var t := a + ([LF] + b);
    LineEndOfConcat(a, [LF] + b);
    assert LineEnd([LF] + b) == 0 by { FeedEndsLine(b); }
    UnfoldLine(t);
    assert t[|a| + 1..] == b && t[..|a|] == a;
  }

  lemma FeedEndsLine(b: Text)
    ensures LineEnd([LF] + b) == 0
  {}

  lemma ResidualInLine(text: Text)
    ensures LineEnd(text[..LineEnd(text)]) == LineEnd(text)
    ensures Residual(text[..LineEnd(text)]) == text[..LineEnd(text)]
  {
    var n := LineEnd(text);
    LineEndOfConcat(text[..n], text[n..]);
    assert text[..n] + text[n..] == text;
  }

  lemma LinesNeedFeeds(text: Text)
    ensures LineEnd(text) == |text| ==> Lines(text) == []
  {}

  /** A long terminated line is in the buffer before its end arrives. */
  lemma {:induction false} LongLineFillsBuffer(text: Text, i: nat) returns (k: nat)
    requires i < |Lines(text)| && |Lines(text)[i]| > MAX_UNDRAINED_BUFFER
    ensures k <= |text| && |Residual(text[..k])| > MAX_UNDRAINED_BUFFER && |Lines(text[..k])| == i
    decreases |text|
  {
    hide Residual, LineEnd, Lines;
    var n := LineEnd(text);
    LinesNeedFeeds(text);
    UnfoldLine(text);
    if i == 0 {
      k := n;
      ResidualInLine(text);
      LinesNeedFeeds(text[..n]);
    } else {
      assert Lines(text)[i] == Lines(text[n + 1..])[i - 1];
      var m := LongLineFillsBuffer(text[n + 1..], i - 1);
      k := n + 1 + m;
      ResidualInLine(text);
      ResidualPastFeed(text[..n], text[n + 1..][..m]);
      assert text[..k] == text[..n] + ([LF] + text[n + 1..][..m]);
    }
  }

  ghost predicate OverflowsAt(chunks: seq<Text>, k: int) {
    1 <= k <= |chunks| && |BufferAt([], chunks, k)| > MAX_UNDRAINED_BUFFER
  }

  lemma {:induction false} FirstOverflow(chunks: seq<Text>, k: nat) returns (first: nat)
    requires OverflowsAt(chunks, k)
    ensures first <= k && OverflowsAt(chunks, first) && Fits([], chunks[..first - 1])
    decreases k
  {
    if i :| i < k && OverflowsAt(chunks, i) {
      first := FirstOverflow(chunks, i);
    } else {
      first := k;
      var earlier := chunks[..k - 1];
      forall i | 1 <= i <= |earlier| ensures |BufferAt([], earlier, i)| <= MAX_UNDRAINED_BUFFER {
        assert earlier[..i] == chunks[..i];
        assert !OverflowsAt(chunks, i);
      }
    }
  }

  /** A terminated line over the limit, with no in-band error on the lines before it. */
  ghost predicate LongLineFirst(parse: Parser, text: Text) {
    exists i :: 0 <= i < |Lines(text)| && LongAt(parse, text, i)
  }

  predicate LongAt(parse: Parser, text: Text, i: int)
    requires 0 <= i < |Lines(text)|
  {
    |Lines(text)[i]| > MAX_UNDRAINED_BUFFER && FoldLines(parse, NO_TURN, Lines(text)[..i]).Success?
  }

  /** ... and either an in-band error behind it, or an unterminated rest that fits. */
  ghost predicate CutsMatter(parse: Parser, text: Text) {
    && LongLineFirst(parse, text)
    && (FoldLines(parse, NO_TURN, Lines(text)).Failure? || |Residual(text)| <= MAX_UNDRAINED_BUFFER)
  }

  /** The outcome when cutting does not matter. */
  function OutcomeOf(parse: Parser, text: Text, cutShort: bool): Result<Turn, Failure> {
    match FoldLines(parse, NO_TURN, Lines(text))
    case Failure(f) => Failure(f)
    case Success(_) =>
      if |Residual(text)| > MAX_UNDRAINED_BUFFER then Failure(Overflow) else ReadWhole(parse, text + Flush(cutShort))
  }

  lemma WholeWithFlush(parse: Parser, text: Text, cutShort: bool)
    ensures FoldLines(parse, NO_TURN, Lines(text + Flush(cutShort))) == FoldLines(parse, NO_TURN, Lines(text))
    ensures FoldLines(parse, NO_TURN, Lines(text)).Failure? ==>
      ReadWhole(parse, text + Flush(cutShort)) == Failure(FoldLines(parse, NO_TURN, Lines(text)).error)
  {
    LinesOfConcat(text, Flush(cutShort));
    NoLineInResidual(text);
    LineEndOfConcat(Residual(text), Flush(cutShort));
    assert Lines(text) + [] == Lines(text);
  }

  /** What an overflow on a prefix means for the whole body. */
  lemma OverflowingPrefix(parse: Parser, a: Text, b: Text)
    requires |Residual(a)| > MAX_UNDRAINED_BUFFER
    ensures var part, whole := FoldLines(parse, NO_TURN, Lines(a)), FoldLines(parse, NO_TURN, Lines(a + b));
      && (part.Failure? ==> whole == part)
      && (part.Success? ==> LongLineFirst(parse, a + b) || (whole.Success? && |Residual(a + b)| > MAX_UNDRAINED_BUFFER))
  {
    var rest := Residual(a) + b;
    LinesOfConcat(a, b);
    FoldLinesOfConcat(parse, NO_TURN, Lines(a), Lines(rest));
    NoLineInResidual(a);
    LineEndOfConcat(Residual(a), b);
    hide FoldLines;
    if LineEnd(rest) < |rest| {
      UnfoldLine(rest);
      var i := |Lines(a)|;
      assert Lines(a + b)[i] == rest[..LineEnd(rest)];
      assert Lines(a + b)[..i] == Lines(a);
      if FoldLines(parse, NO_TURN, Lines(a)).Success? { assert LongAt(parse, a + b, i); }
    } else {
      LinesNeedFeeds(rest);
      assert Lines(a) + [] == Lines(a);
    }
  }

  /** Without such a line every way of cutting the body gives the same outcome. */
  lemma OutcomeIsFixed(parse: Parser, chunks: seq<Text>, cutShort: bool)
    requires !CutsMatter(parse, Concat(chunks))
    ensures Collect(parse, chunks, cutShort) == OutcomeOf(parse, Concat(chunks), cutShort)
  {
    var text := Concat(chunks);
    WholeWithFlush(parse, text, cutShort);
    hide Lines, Residual, Collect, ReadWhole, FoldLines, LongLineFirst, BufferAt, Concat;
    if Fits([], chunks) {
      ReadsTheWholeText(parse, chunks, cutShort);
      FittingResidual(chunks);
    } else {
      NotFitting(chunks);
      var k: nat :| OverflowsAt(chunks, k);
      var first := FirstOverflow(chunks, k);
      OverflowIsReported(parse, chunks, cutShort, first);
      ConcatSplits(chunks, first);
      BufferIsResidual(chunks, first);
      OverflowingPrefix(parse, Concat(chunks[..first]), Concat(chunks[first..]));
    }
  }

  lemma BufferIsResidual(chunks: seq<Text>, k: nat)
    requires k <= |chunks|
    ensures BufferAt([], chunks, k) == Residual(Concat(chunks[..k]))
  {
    assert [] + Concat(chunks[..k]) == Concat(chunks[..k]);
  }

  lemma FittingResidual(chunks: seq<Text>)
    requires Fits([], chunks)
    ensures |Residual(Concat(chunks))| <= MAX_UNDRAINED_BUFFER
  {
    if chunks != [] {
      BufferIsResidual(chunks, |chunks|);
      assert chunks[..|chunks|] == chunks;
    }
  }

  /** With such a line the body overflows one unit at a time, and in one piece it does not. */
  lemma UnitsOverflow(parse: Parser, text: Text, cutShort: bool)
    requires CutsMatter(parse, text)
    ensures Collect(parse, Units(text), cutShort) == Failure(Overflow) && Concat(Units(text)) == text
    ensures Collect(parse, [text], cutShort) != Failure(Overflow) && Concat([text]) == text
  {
    var i :| 0 <= i < |Lines(text)| && LongAt(parse, text, i);
    var k := LongLineFillsBuffer(text, i);
    UnitsSpell(text, |text|);
    assert Units(text)[..|text|] == Units(text) && text[..|text|] == text;
    UnitsSpell(text, k);
    BufferIsResidual(Units(text), k);
    assert k > 0;
    var first := FirstOverflow(Units(text), k);
    UnitsSpell(text, first);
    PrefixFolds(parse, text, i, k, first);
    OnePiece(parse, text, cutShort);
    hide Lines, Residual, Collect, FoldLines, Fits, BufferAt;
    OverflowIsReported(parse, Units(text), cutShort, first);
  }

  lemma PrefixFolds(parse: Parser, text: Text, i: nat, k: nat, first: nat)
    requires i < |Lines(text)| && LongAt(parse, text, i) && first <= k <= |text| && |Lines(text[..k])| <= i
    ensures FoldLines(parse, NO_TURN, Lines(text[..first])).Success?
  {
    hide Lines, Residual, FoldLines;
    var head := text[..first];
    LinesOfConcat(text[..k], text[k..]);
    assert text[..k] + text[k..] == text;
    LinesOfConcat(head, text[first..k]);
    assert head + text[first..k] == text[..k];
    var before := Lines(text)[..i];
    assert Lines(head) <= before;
    FoldLinesOfConcat(parse, NO_TURN, Lines(head), before[|Lines(head)|..]);
    assert Lines(head) + before[|Lines(head)|..] == before;
  }

  lemma OnePiece(parse: Parser, text: Text, cutShort: bool)
    requires FoldLines(parse, NO_TURN, Lines(text)).Failure? || |Residual(text)| <= MAX_UNDRAINED_BUFFER
    ensures Collect(parse, [text], cutShort) != Failure(Overflow) && Concat([text]) == text
  {
    assert Concat([text]) == text + [] == text;
    if |Residual(text)| <= MAX_UNDRAINED_BUFFER {
      OnePieceFits(text);
      hide Collect, Fits, Concat, AllLines, AnyError, AnySentinel;
      CompletesIff(parse, [text], cutShort);
    } else {
      FoldSees(parse, NO_TURN, Lines(text));
      assert [] + text == text && [text][1..] == [];
    }
  }

  lemma OnePieceFits(text: Text)
    requires |Residual(text)| <= MAX_UNDRAINED_BUFFER
    ensures Fits([], [text]) && Concat([text]) == text
  {
    hide Residual;
    assert Concat([text]) == text + [] == text;
    FirstBuffer([], [text]);
    hide Concat, BufferAt;
    assert [] + text == text;
  }

  /**
   Cutting decides the outcome exactly for bodies with a line over the limit
   that is terminated, stands before every in-band error, and is followed by
   such an error or by an unterminated rest within the limit.
   */
  lemma CutsMatterIff(parse: Parser, text: Text, cutShort: bool)
    ensures CutsMatter(parse, text) <==>
      exists chunks, others :: Concat(chunks) == text && Concat(others) == text
        && Collect(parse, chunks, cutShort) != Collect(parse, others, cutShort)
  {
    hide CutsMatter, Collect, Concat;
    if CutsMatter(parse, text) {
      UnitsOverflow(parse, text, cutShort);
    } else {
      forall chunks | Concat(chunks) == text
        ensures Collect(parse, chunks, cutShort) == OutcomeOf(parse, text, cutShort)
      {
        OutcomeIsFixed(parse, chunks, cutShort);
      }
    }
  }

  /** A comment line over the limit, and the sentinel line. */
  function LongComment(): Text { seq(MAX_UNDRAINED_BUFFER + 1, _ => 0x3A) }

  const LAST_LINE: Text := DATA + DONE

  function LongBody(): Text { LongComment() + ([LF] + (LAST_LINE + ([LF] + []))) }

  lemma LongBodyLines()
    ensures Lines(LongBody()) == [LongComment(), LAST_LINE] && Residual(LongBody()) == []
  {
    hide LongComment, LineEnd;
    assert LineEnd(LongComment()) == |LongComment()| by { LongCommentHasNoFeed(); }
    assert LineEnd(LAST_LINE) == |LAST_LINE| by { LastLineHasNoFeed(); }
    assert LineEnd([]) == 0;
    ResidualPastFeed(LongComment(), LAST_LINE + ([LF] + []));
    ResidualPastFeed(LAST_LINE, []);
  }

  lemma LongCommentHasNoFeed()
    ensures LineEnd(LongComment()) == |LongComment()|
  {}

  lemma LastLineHasNoFeed()
    ensures LineEnd(LAST_LINE) == |LAST_LINE|
  {
    assert forall i :: 0 <= i < |LAST_LINE| ==> LAST_LINE[i] != LF;
  }

  lemma LastLineIsSentinel(parse: Parser)
    ensures Sentinel(StripCR(LAST_LINE)) && !InBandError(parse, StripCR(LAST_LINE))
  {
    assert LAST_LINE[..|DATA|] == DATA && LAST_LINE[|DATA|..] == DONE;
    assert Trim(DONE) == DONE by { assert TrimEnd(DONE) == DONE; }
    hide Trim;
  }

  lemma CommentSaysNothing(parse: Parser)
    ensures !InBandError(parse, StripCR(LongComment())) && |LongComment()| == MAX_UNDRAINED_BUFFER + 1
  {
    hide Trim;
    var line := StripCR(LongComment());
    assert |line| > 0 && line[0] == 0x3A && (|line| >= |DATA| ==> line[..|DATA|][0] == 0x3A);
  }

  /** Such bodies exist: this one completes in one piece and overflows one unit at a time. */
  lemma LongCommentDecides(parse: Parser)
    ensures Concat([LongBody()]) == LongBody() && Collect(parse, [LongBody()], false).Success?
    ensures Concat(Units(LongBody())) == LongBody() && Collect(parse, Units(LongBody()), false) == Failure(Overflow)
  {
    hide LongBody, LongComment, Collect, Concat, Lines, Residual, Sentinel, InBandError, StripCR, Units, Fits;
    var text := LongBody();
    LongBodyLines();
    LastLineIsSentinel(parse);
    CommentSaysNothing(parse);
    assert LongAt(parse, text, 0) by { assert Lines(text)[..0] == []; }
    UnitsOverflow(parse, text, false);
    OnePieceFits(text);
    CompletesIff(parse, [text], false);
    assert text + Flush(false) == text;
    assert Trim([]) == [];
    var lines := AllLines(text);
    assert lines == [LongComment(), LAST_LINE];
    assert Sentinel(StripCR(lines[1]));
  }

  lemma NotFitting(chunks: seq<Text>)
    requires !Fits([], chunks)
    ensures exists k: nat :: OverflowsAt(chunks, k)
  {
    var k :| 1 <= k <= |chunks| && |BufferAt([], chunks, k)| > MAX_UNDRAINED_BUFFER;
    assert OverflowsAt(chunks, k);
  }

  /** A body without the sentinel, cut in whatever way, is never taken for a completed turn. */
  lemma SuccessSawSentinel(parse: Parser, chunks: seq<Text>, cutShort: bool)
    requires Collect(parse, chunks, cutShort).Success?
    ensures var lines := AllLines(Concat(chunks) + Flush(cutShort)); AnySentinel(lines) && !AnyError(parse, lines)
  {
    hide Collect, BufferAt, AllLines, AnySentinel, AnyError, FoldLines;
    if Fits([], chunks) { CompletesIff(parse, chunks, cutShort); } else {
      NotFitting(chunks);
      var k: nat :| OverflowsAt(chunks, k);
      var first := FirstOverflow(chunks, k);
      OverflowIsReported(parse, chunks, cutShort, first);
    }
  }
}
