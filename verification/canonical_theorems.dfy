/** The canonical text of a value says what the value means, no more and no less. */
module CanonicalTheorems {
  import opened Prelude
  import opened Utf16
  import opened CanonicalJson

  // -- Key order --------------------------------------------

  lemma {:induction false} LexTransitive(a: Text, b: Text, c: Text)
    requires Lex(a, b) && Lex(b, c)
    ensures Lex(a, c)
  {
    if a != [] && a[0] == b[0] == c[0] { LexTransitive(a[1..], b[1..], c[1..]); }
  }

  lemma {:induction false} LexTotal(a: Text, b: Text)
    ensures a != b ==> Lex(a, b) || Lex(b, a)
    ensures !Lex(a, a)
  {
    if a != [] && b != [] && a[0] == b[0] {
      LexTotal(a[1..], b[1..]);
      assert a == [a[0]] + a[1..] && b == [b[0]] + b[1..];
    }
    if a != [] { LexTotal(a[1..], a[1..]); }
  }

  lemma {:induction false} Positive(s: Text)
    requires Digits(s) && s != [] && s[0] != 0x30
    ensures NumberOf(s) >= 1
  {
    if |s| > 1 { Positive(s[..|s| - 1]); }
  }

  /** A decimal without leading zeros is fixed by its number. */
  lemma {:induction false} IndexByNumber(a: Text, b: Text)
    requires Digits(a) && Digits(b) && a != [] && b != [] && NumberOf(a) == NumberOf(b)
    requires (a == [0x30] || a[0] != 0x30) && (b == [0x30] || b[0] != 0x30)
    ensures a == b
  {
    var p, q := a[..|a| - 1], b[..|b| - 1];
    assert NumberOf(a) / 10 == NumberOf(p) && NumberOf(b) / 10 == NumberOf(q);
    if |a| > 1 { Positive(p); }
    if |b| > 1 { Positive(q); }
    assert p == [] ==> NumberOf(p) == 0;
    assert q == [] ==> NumberOf(q) == 0;
    if |a| > 1 && |b| > 1 { IndexByNumber(p, q); }
    assert a == p + [a[|a| - 1]] && b == q + [b[|b| - 1]];
  }

  lemma KeyOrderTransitive(a: Text, b: Text, c: Text)
    requires KeyBefore(a, b) && KeyBefore(b, c)
    ensures KeyBefore(a, c)
  {
    if Lex(a, b) && Lex(b, c) { LexTransitive(a, b, c); }
  }

  lemma KeyOrderTotal(a: Text, b: Text)
    ensures a != b ==> KeyBefore(a, b) || KeyBefore(b, a)
    ensures !KeyBefore(a, a)
  {
    LexTotal(a, b);
    if IsIndex(a) && IsIndex(b) && NumberOf(a) == NumberOf(b) { IndexByNumber(a, b); }
  }

  // -- Sorting keeps the meaning ----------------------------

  function JKeys(fields: JFields): set<Text> {
    match fields
    case NoJFields => {}
    case MoreJFields(key, _, rest) => {key} + JKeys(rest)
  }

  ghost predicate Above(key: Text, fields: JFields) { forall k :: k in JKeys(fields) ==> KeyBefore(key, k) }

  /** All objects inside have their keys in strictly ascending order. */
  ghost predicate Canonical(j: Json) {
    match j
    case JArr(items) => CanonicalItems(items)
    case JObj(fields) => Ordered(fields)
    case _ => true
  }

  ghost predicate CanonicalItems(items: Jsons) {
    items.MoreJsons? ==> Canonical(items.head) && CanonicalItems(items.tail)
  }

  ghost predicate Ordered(fields: JFields) {
    fields.MoreJFields? ==> Above(fields.key, fields.rest) && Canonical(fields.value) && Ordered(fields.rest)
  }

  lemma UpdatesCommute(m: map<Text, Meaning>, a: Text, x: Meaning, b: Text, y: Meaning)
    requires a != b
    ensures m[a := x][b := y] == m[b := y][a := x]
  {}

  lemma {:induction false} InsertKeepsOrder(key: Text, value: Json, fields: JFields)
    requires Ordered(fields) && key !in JKeys(fields) && Canonical(value)
    ensures Ordered(Insert(key, value, fields))
    ensures JKeys(Insert(key, value, fields)) == JKeys(fields) + {key}
    ensures JFieldsMean(Insert(key, value, fields)) == JFieldsMean(fields)[key := JMeans(value)]
    decreases fields
  {
    if fields.MoreJFields? {
      if KeyBefore(key, fields.key) {
        forall k | k in JKeys(fields.rest) ensures KeyBefore(key, k) { KeyOrderTransitive(key, fields.key, k); }
      } else {
        InsertKeepsOrder(key, value, fields.rest);
        KeyOrderTotal(key, fields.key);
        UpdatesCommute(JFieldsMean(fields.rest), key, JMeans(value), fields.key, JMeans(fields.value));
      }
    }
  }

  lemma {:induction false} SortMeans(v: Value)
    requires Proper(v)
    ensures Sort(v).Some? == Means(v).Some?
    ensures Sort(v).Some? ==> Canonical(Sort(v).value) && JMeans(Sort(v).value) == Means(v).value
    decreases v
  {
    match v
    case Arr(items) => SortItemsMeans(items);
    case Obj(fields) => SortFieldsMeans(fields);
    case _ =>
  }

  lemma {:induction false} SortItemsMeans(items: Values)
    requires ProperItems(items)
    ensures SortItems(items).Some? == ItemsMean(items).Some?
    ensures SortItems(items).Some? ==>
      CanonicalItems(SortItems(items).value) && JItemsMean(SortItems(items).value) == ItemsMean(items).value
    decreases items
  {
    if items.MoreValues? {
      SortMeans(items.head);
      SortItemsMeans(items.tail);
    }
  }

  lemma {:induction false} SortFieldsMeans(fields: Fields)
    requires ProperFields(fields)
    ensures SortFields(fields).Some? == FieldsMean(fields).Some?
    ensures SortFields(fields).Some? ==>
      && Ordered(SortFields(fields).value) && JKeys(SortFields(fields).value) == FieldKeys(fields)
      && JFieldsMean(SortFields(fields).value) == FieldsMean(fields).value
    decreases fields
  {
    if fields.MoreFields? {
      SortMeans(fields.value);
      SortFieldsMeans(fields.rest);
      if SortFields(fields).Some? {
        InsertKeepsOrder(fields.key, Sort(fields.value).value, SortFields(fields.rest).value);
      }
    }
  }

  // -- One canonical form for each meaning ------------------

  lemma {:induction false} CanonicalUnique(j: Json, k: Json)
    requires Canonical(j) && Canonical(k) && JMeans(j) == JMeans(k)
    ensures j == k
    decreases j
  {
    match j
    case JArr(items) => CanonicalItemsUnique(items, k.items);
    case JObj(fields) => OrderedUnique(fields, k.fields);
    case _ =>
  }

  lemma {:induction false} CanonicalItemsUnique(j: Jsons, k: Jsons)
    requires CanonicalItems(j) && CanonicalItems(k) && JItemsMean(j) == JItemsMean(k)
    ensures j == k
    decreases j
  {
    assert |JItemsMean(j)| == |JItemsMean(k)|;
    if j.MoreJsons? {
      assert JItemsMean(j)[0] == JItemsMean(k)[0];
      assert JItemsMean(j)[1..] == JItemsMean(k)[1..];
      CanonicalUnique(j.head, k.head);
      CanonicalItemsUnique(j.tail, k.tail);
    }
  }

  lemma {:induction false} KeysOfMeaning(fields: JFields)
    ensures JFieldsMean(fields).Keys == JKeys(fields)
    decreases fields
  {
    if fields.MoreJFields? { KeysOfMeaning(fields.rest); }
  }

  lemma {:induction false} OrderedUnique(f: JFields, g: JFields)
    requires Ordered(f) && Ordered(g) && JFieldsMean(f) == JFieldsMean(g)
    ensures f == g
    decreases f
  {
    KeysOfMeaning(f);
    KeysOfMeaning(g);
    if f.MoreJFields? {
      assert f.key in JKeys(g);
      assert g.key in JKeys(f);
      SmallestKey(f, g);
      RestOfMeaning(f);
      RestOfMeaning(g);
      assert JFieldsMean(f)[f.key] == JFieldsMean(g)[g.key];
      CanonicalUnique(f.value, g.value);
      OrderedUnique(f.rest, g.rest);
    } else {
      NoKeys(g);
    }
  }

  lemma NoKeys(g: JFields)
    ensures g.MoreJFields? ==> JKeys(g) != {}
  {
    if g.MoreJFields? { assert g.key in JKeys(g); }
  }

  lemma SmallestKey(f: JFields, g: JFields)
    requires Ordered(f) && Ordered(g) && JKeys(f) == JKeys(g) && f.MoreJFields? && g.MoreJFields?
    ensures f.key == g.key
  {
    assert f.key in JKeys(g) && g.key in JKeys(f);
    KeyOrderTotal(f.key, f.key);
    if f.key != g.key { KeyOrderTransitive(f.key, g.key, f.key); }
  }

  lemma RestOfMeaning(f: JFields)
    requires Ordered(f) && f.MoreJFields?
    ensures JFieldsMean(f.rest) == JFieldsMean(f) - {f.key}
  {
    KeysOfMeaning(f.rest);
    KeyOrderTotal(f.key, f.key);
    assert f.key !in JFieldsMean(f.rest);
  }

  // -- Printing can be undone -------------------------------

  lemma HexSum(u: nat)
    requires u < 0x1_0000
    ensures u / 0x1000 * 0x1000 + u / 0x100 % 16 * 0x100 + u / 0x10 % 16 * 0x10 + u % 16 == u
  {
    assert u / 0x100 == u / 0x10 / 16 && u / 0x1000 == u / 0x100 / 16;
  }

  lemma Hex4Back(u: CodeUnit)
    ensures var h := Hex4(u);
      && Unhex(h[0]) == Some(u / 0x1000) && Unhex(h[1]) == Some(u / 0x100 % 16)
      && Unhex(h[2]) == Some(u / 0x10 % 16) && Unhex(h[3]) == Some(u % 16)
  {
    HexBack(u / 0x1000);
    HexBack(u / 0x100 % 16);
    HexBack(u / 0x10 % 16);
    HexBack(u % 16);
  }

  lemma HexBack(n: nat)
    requires n < 16
    ensures Unhex(HexDigit(n)) == Some(n)
  {}

  lemma UnitBack(u: CodeUnit, rest: Text)
    ensures ParseUnit(QuoteUnit(u) + rest) == Some((u, rest))
    ensures QuoteUnit(u)[0] != QUOTE
  {
    var s := QuoteUnit(u) + rest;
    if ShortEscape(u).Some? {
      assert s[0] == BACKSLASH && s[1] == ShortEscape(u).value && s[2..] == rest;
    } else if u < 0x20 || IsHigh(u) || IsLow(u) {
      Hex4Back(u);
      HexSum(u);
      assert s[0] == BACKSLASH && s[1] == 0x75 && s[6..] == rest;
      assert s[2] == Hex4(u)[0] && s[3] == Hex4(u)[1] && s[4] == Hex4(u)[2] && s[5] == Hex4(u)[3];
    } else {
      assert s[0] == u && s[1..] == rest;
    }
  }

  lemma ParseUnitsStep(s: Text, u: CodeUnit, rest: Text, t: Text, end: Text)
    requires s != [] && s[0] != QUOTE && ParseUnit(s) == Some((u, rest)) && ParseUnits(rest) == Some((t, end))
    ensures ParseUnits(s) == Some(([u] + t, end))
  {}

  /** A unit that stands for itself. */
  lemma PlainUnit(u: CodeUnit, rest: Text)
    requires u >= 0x20 && u != QUOTE && u != BACKSLASH
    ensures ParseUnit([u] + rest) == Some((u, rest))
  {
    assert ([u] + rest)[1..] == rest;
  }

  /** A surrogate pair is printed as it is. */
  lemma PairBack(a: CodeUnit, b: CodeUnit, t: Text, tail: Text, rest: Text)
    requires IsHigh(a) && IsLow(b) && ParseUnits(tail) == Some((t, rest))
    ensures ParseUnits([a, b] + tail) == Some(([a, b] + t, rest))
  {
    hide ParseUnits, ParseUnit;
    assert [a, b] + tail == [a] + ([b] + tail) && [a, b] + t == [a] + ([b] + t);
    PlainUnit(a, [b] + tail);
    PlainUnit(b, tail);
    ParseUnitsStep([b] + tail, b, tail, t, rest);
    ParseUnitsStep([a] + ([b] + tail), a, [b] + tail, [b] + t, rest);
  }

  lemma SingleBack(u: CodeUnit, t: Text, tail: Text, rest: Text)
    requires ParseUnits(tail) == Some((t, rest))
    ensures ParseUnits(QuoteUnit(u) + tail) == Some(([u] + t, rest))
  {
    UnitBack(u, tail);
    QuotedNotEmpty(u);
    hide ParseUnits, ParseUnit, QuoteUnit;
    assert (QuoteUnit(u) + tail)[0] == QuoteUnit(u)[0];
    ParseUnitsStep(QuoteUnit(u) + tail, u, tail, t, rest);
  }

  lemma Regroup(a: Text, b: Text, c: Text, d: Text)
    ensures (a + b) + c + d == a + (b + c + d)
  {}

  lemma UnfoldQuote(t: Text)
    requires t != []
    ensures QuoteUnits(t)
         == (if StartsWithPair(t) then [t[0], t[1]] else QuoteUnit(t[0])) + QuoteUnits(t[FirstUnits(t)..])
    ensures t == (if StartsWithPair(t) then [t[0], t[1]] else [t[0]]) + t[FirstUnits(t)..]
  {
    hide QuoteUnit;
    if StartsWithPair(t) { assert t[..2] == [t[0], t[1]]; }
  }

  lemma {:induction false} UnitsBack(t: Text, rest: Text)
    ensures ParseUnits(QuoteUnits(t) + [QUOTE] + rest) == Some((t, rest))
    decreases |t|
  {
    hide ParseUnits, QuoteUnit, QuoteUnits;
    if t == [] {
      EmptyBack(rest);
    } else {
      var more := t[FirstUnits(t)..];
      UnitsBack(more, rest);
      var tail := QuoteUnits(more) + [QUOTE] + rest;
      UnfoldQuote(t);
      if StartsWithPair(t) {
        PairBack(t[0], t[1], more, tail, rest);
        Regroup([t[0], t[1]], QuoteUnits(more), [QUOTE], rest);
      } else {
        SingleBack(t[0], more, tail, rest);
        Regroup(QuoteUnit(t[0]), QuoteUnits(more), [QUOTE], rest);
      }
    }
  }

  lemma EmptyBack(rest: Text)
    ensures ParseUnits(QuoteUnits([]) + [QUOTE] + rest) == Some(([], rest))
  {
    assert QuoteUnits([]) + [QUOTE] + rest == [QUOTE] + rest;
    assert ([QUOTE] + rest)[1..] == rest;
  }

  lemma QuotedNotEmpty(u: CodeUnit)
    ensures QuoteUnit(u) != []
  {}

  lemma StringBack(t: Text, rest: Text)
    ensures ParseString(Quote(t) + rest) == Some((t, rest))
  {
    UnitsBack(t, rest);
    assert (Quote(t) + rest)[1..] == QuoteUnits(t) + [QUOTE] + rest;
  }

  lemma {:induction false} NumberLengthIs(t: Text, rest: Text)
    requires (forall i :: 0 <= i < |t| ==> NumberUnit(t[i])) && (rest == [] || !NumberUnit(rest[0]))
    ensures NumberLength(t + rest) == |t|
  {
    if t != [] {
      NumberLengthIs(t[1..], rest);
      assert (t + rest)[1..] == t[1..] + rest;
    } else {
      assert t + rest == rest;
    }
  }

  /** Nothing printed begins like a closing bracket. */
  lemma FirstOfPrinted(j: Json)
    ensures Print(j) != [] && Print(j)[0] != CLOSE && Print(j)[0] != RIGHT
  {}

  lemma {:induction false} ParsePrinted(j: Json, rest: Text)
    requires rest == [] || !NumberUnit(rest[0])
    ensures ParseValue(Print(j) + rest) == Some((j, rest))
    decreases j, 1
  {
    hide ParseValue;
    match j
    case JNull => LiteralBack(NULL_TEXT, rest); UnfoldLiteral(NULL_TEXT + rest);
    case JBool(b) =>
      var literal := if b then TRUE_TEXT else FALSE_TEXT;
      LiteralBack(literal, rest);
      UnfoldLiteral(literal + rest);
    case JNumber(text) =>
      NumberLengthIs(text, rest);
      UnfoldNumber(text + rest);
      assert (text + rest)[..|text|] == text && (text + rest)[|text|..] == rest;
    case JStr(t) =>
      StringBack(t, rest);
      assert (Quote(t) + rest)[0] == QUOTE;
      UnfoldString(Quote(t) + rest);
    case JArr(items) => ParsePrintedArray(items, rest);
    case JObj(fields) => ParsePrintedObject(fields, rest);
  }

  lemma UnfoldLiteral(s: Text)
    ensures s[..|s|] == s
    ensures StartsWith(s, NULL_TEXT) ==> ParseValue(s) == Some((JNull, s[4..]))
    ensures StartsWith(s, TRUE_TEXT) ==> ParseValue(s) == Some((JBool(true), s[4..]))
    ensures StartsWith(s, FALSE_TEXT) ==> ParseValue(s) == Some((JBool(false), s[5..]))
  {
    if StartsWith(s, TRUE_TEXT) { assert s[..4][0] == s[0]; }
    if StartsWith(s, FALSE_TEXT) { assert s[..5][0] == s[0]; }
    if StartsWith(s, NULL_TEXT) { assert s[..4][0] == s[0]; }
  }

  lemma UnfoldNumber(s: Text)
    requires s != [] && (0x30 <= s[0] <= 0x39 || s[0] == 0x2D)
    ensures var n := NumberLength(s);
      ParseValue(s) == if IsNumberText(s[..n]) then Some((JNumber(s[..n]), s[n..])) else None
  {
    NoLiteral(s);
    hide ParseItems, ParseFields, ParseString, NumberLength, StartsWith, IsNumberText;
  }

  lemma UnfoldString(s: Text)
    requires s != [] && s[0] == QUOTE
    ensures ParseValue(s) == match ParseString(s) case None => None case Some((t, rest)) => Some((JStr(t), rest))
  {
    NoLiteral(s);
    hide ParseItems, ParseFields, ParseString, NumberLength, StartsWith;
  }

  lemma LiteralBack(literal: Text, rest: Text)
    requires literal == NULL_TEXT || literal == TRUE_TEXT || literal == FALSE_TEXT
    ensures var s := literal + rest; StartsWith(s, literal) && s[|literal|..] == rest && s[0] == literal[0]
  {}

  lemma NoLiteral(s: Text)
    requires s != [] && s[0] != 0x6E && s[0] != 0x74 && s[0] != 0x66
    ensures !StartsWith(s, NULL_TEXT) && !StartsWith(s, TRUE_TEXT) && !StartsWith(s, FALSE_TEXT)
  {
    forall p: Text | p != [] && StartsWith(s, p) ensures p[0] == s[0] {
      assert s[..|p|][0] == s[0];
    }
  }

  lemma UnfoldArray(s: Text)
    requires |s| > 1 && s[0] == OPEN
    ensures ParseValue(s)
         == if s[1] == CLOSE then Some((JArr(NoJsons), s[2..]))
            else match ParseItems(s[1..]) case None => None case Some((js, rest)) => Some((JArr(js), rest))
  {
    hide ParseItems, ParseFields, ParseString, NumberLength;
    NoLiteral(s);
    hide StartsWith;
  }

  lemma UnfoldObject(s: Text)
    requires |s| > 1 && s[0] == LEFT
    ensures ParseValue(s)
         == if s[1] == RIGHT then Some((JObj(NoJFields), s[2..]))
            else match ParseFields(s[1..]) case None => None case Some((fs, rest)) => Some((JObj(fs), rest))
  {
    hide ParseItems, ParseFields, ParseString, NumberLength;
    NoLiteral(s);
    hide StartsWith;
  }

  lemma FirstOfFields(fields: JFields)
    requires fields.MoreJFields?
    ensures PrintFields(fields) != [] && PrintFields(fields)[0] == QUOTE
  {}

  lemma {:induction false} ParsePrintedArray(items: Jsons, rest: Text)
    ensures ParseValue(Print(JArr(items)) + rest) == Some((JArr(items), rest))
    decreases items, 3
  {
    hide ParseValue, ParseItems;
    var body := PrintItems(items) + [CLOSE] + rest;
    assert Print(JArr(items)) + rest == [OPEN] + body;
    assert ([OPEN] + body)[1..] == body;
    UnfoldArray([OPEN] + body);
    if items.NoJsons? {
      assert body == [CLOSE] + rest && ([OPEN] + body)[2..] == rest;
    } else {
      ItemsBack(items, rest);
      FirstOfPrinted(items.head);
      assert body[0] == Print(items.head)[0];
    }
  }

  lemma {:induction false} ParsePrintedObject(fields: JFields, rest: Text)
    ensures ParseValue(Print(JObj(fields)) + rest) == Some((JObj(fields), rest))
    decreases fields, 3
  {
    hide ParseValue, ParseFields;
    var body := PrintFields(fields) + [RIGHT] + rest;
    assert Print(JObj(fields)) + rest == [LEFT] + body;
    assert ([LEFT] + body)[1..] == body;
    UnfoldObject([LEFT] + body);
    if fields.NoJFields? {
      assert body == [RIGHT] + rest && ([LEFT] + body)[2..] == rest;
    } else {
      FieldsBack(fields, rest);
      FirstOfFields(fields);
      assert body[0] == PrintFields(fields)[0];
    }
  }

  lemma {:induction false} ItemsBack(items: Jsons, rest: Text)
    requires items.MoreJsons?
    ensures ParseItems(PrintItems(items) + [CLOSE] + rest) == Some((items, rest))
    decreases items, 2
  {
    var s := PrintItems(items) + [CLOSE] + rest;
    var tail := if items.tail.NoJsons? then [CLOSE] + rest else [COMMA] + (PrintItems(items.tail) + [CLOSE] + rest);
    assert s == Print(items.head) + tail;
    ParsePrinted(items.head, tail);
    if items.tail.NoJsons? {
      assert tail[1..] == rest;
    } else {
      assert tail[1..] == PrintItems(items.tail) + [CLOSE] + rest;
      ItemsBack(items.tail, rest);
    }
  }

  lemma {:induction false} FieldsBack(fields: JFields, rest: Text)
    requires fields.MoreJFields?
    ensures ParseFields(PrintFields(fields) + [RIGHT] + rest) == Some((fields, rest))
    decreases fields, 2
  {
    hide ParseValue, ParseString, Print, Quote, ParseFields;
    var more := if fields.rest.NoJFields? then [] else [COMMA] + PrintFields(fields.rest);
    var tail := more + [RIGHT] + rest;
    var value := [COLON] + (Print(fields.value) + tail);
    assert PrintFields(fields) + [RIGHT] + rest == Quote(fields.key) + value;
    StringBack(fields.key, value);
    assert value[1..] == Print(fields.value) + tail;
    assert !NumberUnit(tail[0]);
    ParsePrinted(fields.value, tail);
    if fields.rest.NoJFields? {
      assert tail[1..] == rest;
    } else {
      assert tail[1..] == PrintFields(fields.rest) + [RIGHT] + rest;
      FieldsBack(fields.rest, rest);
    }
    UnfoldFields(Quote(fields.key) + value, fields.key, value, fields.value, tail);
  }

  lemma UnfoldFields(s: Text, key: Text, t: Text, j: Json, rest: Text)
    requires ParseString(s) == Some((key, t)) && t != [] && t[0] == COLON && ParseValue(t[1..]) == Some((j, rest))
    requires rest != []
    ensures rest[0] == RIGHT ==> ParseFields(s) == Some((MoreJFields(key, j, NoJFields), rest[1..]))
    ensures rest[0] == COMMA ==>
      ParseFields(s) == (match ParseFields(rest[1..])
                         case None => None
                         case Some((fs, end)) => Some((MoreJFields(key, j, fs), end)))
  {
    hide ParseValue, ParseString;
  }

  /** Parsing what was printed gives it back. */
  lemma PrintRoundTrip(j: Json)
    ensures Parse(Print(j)) == Some(j)
  {
    ParsePrinted(j, []);
    assert Print(j) + [] == Print(j);
  }

  // -- Results ----------------------------------------------

  /**
   Two values have the same canonical text exactly when they mean the same:
   equal up to the order of object keys, with undefined read as null and big
   integers as their decimal strings.
   */
  lemma SameTextIffSameMeaning(a: Value, b: Value)
    requires Proper(a) && Proper(b)
    ensures CanonicalStringify(a) == CanonicalStringify(b) <==> Means(a) == Means(b)
  {
    SortMeans(a);
    SortMeans(b);
    if Sort(a).Some? && Sort(b).Some? {
      PrintRoundTrip(Sort(a).value);
      PrintRoundTrip(Sort(b).value);
      if Means(a) == Means(b) { CanonicalUnique(Sort(a).value, Sort(b).value); }
    }
  }

  /** A JSON value as JSON.parse hands it out. */
  function Lift(j: Json): Value {
    match j
    case JNull => Null
    case JBool(b) => Bool(b)
    case JNumber(text) => Number(text)
    case JStr(s) => Str(s)
    case JArr(items) => Arr(LiftItems(items))
    case JObj(fields) => Obj(LiftFields(fields))
  }

  function LiftItems(items: Jsons): Values {
    match items
    case NoJsons => NoValues
    case MoreJsons(head, tail) => MoreValues(Lift(head), LiftItems(tail))
  }

  function LiftFields(fields: JFields): Fields {
    match fields
    case NoJFields => NoFields
    case MoreJFields(key, value, rest) => MoreFields(key, Lift(value), LiftFields(rest))
  }

  lemma {:induction false} SortLifted(j: Json)
    requires Canonical(j)
    ensures Sort(Lift(j)) == Some(j)
    decreases j
  {
    match j
    case JArr(items) => SortLiftedItems(items);
    case JObj(fields) => SortLiftedFields(fields);
    case _ =>
  }

  lemma {:induction false} SortLiftedItems(items: Jsons)
    requires CanonicalItems(items)
    ensures SortItems(LiftItems(items)) == Some(items)
    decreases items
  {
    if items.MoreJsons? {
      SortLifted(items.head);
      SortLiftedItems(items.tail);
    }
  }

  lemma {:induction false} SortLiftedFields(fields: JFields)
    requires Ordered(fields)
    ensures SortFields(LiftFields(fields)) == Some(fields)
    decreases fields
  {
    if fields.MoreJFields? {
      SortLifted(fields.value);
      SortLiftedFields(fields.rest);
      if fields.rest.MoreJFields? { assert fields.rest.key in JKeys(fields.rest); }
    }
  }

  /** Reading canonical text and making it canonical again changes nothing, and keeps the meaning. */
  lemma ReloadIsStable(v: Value)
    requires Proper(v) && CanonicalStringify(v).Some?
    ensures var text := CanonicalStringify(v).value;
      && Parse(text).Some?
      && CanonicalStringify(Lift(Parse(text).value)) == Some(text)
      && Means(v) == Some(JMeans(Parse(text).value))
  {
    SortMeans(v);
    PrintRoundTrip(Sort(v).value);
    SortLifted(Sort(v).value);
  }
}
