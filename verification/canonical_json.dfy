/**
 Canonical JSON: object keys in one fixed order, undefined as null, big
 integers as decimal strings, printed as in ECMA-262 section 25.5.2
 (RFC 8259 for the grammar).
 */
module CanonicalJson {
  import opened Prelude
  import opened Utf16

  // -- Values -----------------------------------------------

  predicate NumberUnit(u: CodeUnit) { 0x30 <= u <= 0x39 || u == 0x2B || u == 0x2D || u == 0x2E || u == 0x65 }

  predicate IsNumberText(s: Text) {
    s != [] && (0x30 <= s[0] <= 0x39 || s[0] == 0x2D) && forall i :: 0 <= i < |s| ==> NumberUnit(s[i])
  }

  /** The text of a finite number, which identifies it up to the sign of zero. */
  type NumberText = s: Text | IsNumberText(s) witness [0x30]

  /** A JavaScript value as the caller holds it. */
  datatype Value =
    | Undefined
    | Null
    | Bool(b: bool)
    | Number(text: NumberText)
    | NonFinite
    | BigInt(z: int)
    | Str(s: Text)
    | Arr(items: Values)
    | Obj(fields: Fields)
  datatype Values = NoValues | MoreValues(head: Value, tail: Values)
  datatype Fields = NoFields | MoreFields(key: Text, value: Value, rest: Fields)

  /** A JSON value, its fields in the order in which they are printed. */
  datatype Json =
    | JNull
    | JBool(b: bool)
    | JNumber(text: NumberText)
    | JStr(s: Text)
    | JArr(items: Jsons)
    | JObj(fields: JFields)
  datatype Jsons = NoJsons | MoreJsons(head: Json, tail: Jsons)
  datatype JFields = NoJFields | MoreJFields(key: Text, value: Json, rest: JFields)

  /** What a JSON value means: an object is a map from keys. */
  datatype Meaning =
    | MNull
    | MBool(b: bool)
    | MNumber(text: NumberText)
    | MStr(s: Text)
    | MArr(items: seq<Meaning>)
    | MObj(fields: map<Text, Meaning>)

  function Signed(z: int): Text { if z < 0 then [0x2D] + Decimal(-z) else Decimal(z) }

  // -- Key order --------------------------------------------

  predicate Digits(s: Text) { forall i :: 0 <= i < |s| ==> 0x30 <= s[i] <= 0x39 }

  function NumberOf(s: Text): nat
    requires Digits(s)
  {
    if s == [] then 0 else NumberOf(s[..|s| - 1]) * 10 + (s[|s| - 1] - 0x30)
  }

  /** An array index: a decimal without leading zeros below 2^32 - 1. Such keys are enumerated first. */
  predicate IsIndex(s: Text) {
    s != [] && Digits(s) && (s == [0x30] || s[0] != 0x30) && NumberOf(s) < 0xFFFF_FFFF
  }

  /** Order by UTF-16 code units. */
  predicate Lex(a: Text, b: Text) {
    if b == [] then false
    else if a == [] then true
    else if a[0] != b[0] then a[0] < b[0]
    else Lex(a[1..], b[1..])
  }

  /** Index keys by number, then the other keys by code units. */
  predicate KeyBefore(a: Text, b: Text) {
    if IsIndex(a) && IsIndex(b) then NumberOf(a) < NumberOf(b)
    else if IsIndex(a) || IsIndex(b) then IsIndex(a)
    else Lex(a, b)
  }

  // -- Sorting ----------------------------------------------

  function Insert(key: Text, value: Json, fields: JFields): JFields {
    match fields
    case NoJFields => MoreJFields(key, value, NoJFields)
    case MoreJFields(k, v, rest) =>
      if KeyBefore(key, k) then MoreJFields(key, value, fields) else MoreJFields(k, v, Insert(key, value, rest))
  }

  /** sortKeysDeep; None for the error on a number that is not finite. */
  function Sort(v: Value): Option<Json> {
    match v
    case Undefined => Some(JNull)
    case Null => Some(JNull)
    case Bool(b) => Some(JBool(b))
    case Number(text) => Some(JNumber(text))
    case NonFinite => None
    case BigInt(z) => Some(JStr(Signed(z)))
    case Str(s) => Some(JStr(s))
    case Arr(items) => (match SortItems(items) case None => None case Some(js) => Some(JArr(js)))
    case Obj(fields) => (match SortFields(fields) case None => None case Some(fs) => Some(JObj(fs)))
  }

  function SortItems(items: Values): Option<Jsons> {
    match items
    case NoValues => Some(NoJsons)
    case MoreValues(head, tail) =>
      match (Sort(head), SortItems(tail))
      case (Some(j), Some(js)) => Some(MoreJsons(j, js))
      case _ => None
  }

  function SortFields(fields: Fields): Option<JFields> {
    match fields
    case NoFields => Some(NoJFields)
    case MoreFields(key, value, rest) =>
      match (Sort(value), SortFields(rest))
      case (Some(j), Some(fs)) => Some(Insert(key, j, fs))
      case _ => None
  }

  // -- Meaning ----------------------------------------------

  function FieldKeys(fields: Fields): set<Text> {
    match fields
    case NoFields => {}
    case MoreFields(key, _, rest) => {key} + FieldKeys(rest)
  }

  /** The keys of every object differ, as JavaScript guarantees. */
  predicate Proper(v: Value) {
    match v
    case Arr(items) => ProperItems(items)
    case Obj(fields) => ProperFields(fields)
    case _ => true
  }

  predicate ProperItems(items: Values) { items.MoreValues? ==> Proper(items.head) && ProperItems(items.tail) }

  predicate ProperFields(fields: Fields) {
    fields.MoreFields? ==> fields.key !in FieldKeys(fields.rest) && Proper(fields.value) && ProperFields(fields.rest)
  }

  /** Undefined means null, a big integer its decimal string; None with a number that is not finite. */
  function Means(v: Value): Option<Meaning> {
    match v
    case Undefined => Some(MNull)
    case Null => Some(MNull)
    case Bool(b) => Some(MBool(b))
    case Number(text) => Some(MNumber(text))
    case NonFinite => None
    case BigInt(z) => Some(MStr(Signed(z)))
    case Str(s) => Some(MStr(s))
    case Arr(items) => (match ItemsMean(items) case None => None case Some(ms) => Some(MArr(ms)))
    case Obj(fields) => (match FieldsMean(fields) case None => None case Some(m) => Some(MObj(m)))
  }

  function ItemsMean(items: Values): Option<seq<Meaning>> {
    match items
    case NoValues => Some([])
    case MoreValues(head, tail) =>
      match (Means(head), ItemsMean(tail))
      case (Some(m), Some(ms)) => Some([m] + ms)
      case _ => None
  }

  function FieldsMean(fields: Fields): Option<map<Text, Meaning>> {
    match fields
    case NoFields => Some(map[])
    case MoreFields(key, value, rest) =>
      match (Means(value), FieldsMean(rest))
      case (Some(m), Some(ms)) => Some(ms[key := m])
      case _ => None
  }

  function JMeans(j: Json): Meaning {
    match j
    case JNull => MNull
    case JBool(b) => MBool(b)
    case JNumber(text) => MNumber(text)
    case JStr(s) => MStr(s)
    case JArr(items) => MArr(JItemsMean(items))
    case JObj(fields) => MObj(JFieldsMean(fields))
  }

  function JItemsMean(items: Jsons): seq<Meaning> {
    match items
    case NoJsons => []
    case MoreJsons(head, tail) => [JMeans(head)] + JItemsMean(tail)
  }

  function JFieldsMean(fields: JFields): map<Text, Meaning> {
    match fields
    case NoJFields => map[]
    case MoreJFields(key, value, rest) => JFieldsMean(rest)[key := JMeans(value)]
  }

  // -- Printing ---------------------------------------------

  const QUOTE: CodeUnit := 0x22
  const BACKSLASH: CodeUnit := 0x5C
  const COMMA: CodeUnit := 0x2C
  const COLON: CodeUnit := 0x3A
  const OPEN: CodeUnit := 0x5B
  const CLOSE: CodeUnit := 0x5D
  const LEFT: CodeUnit := 0x7B
  const RIGHT: CodeUnit := 0x7D
  const NULL_TEXT: Text := [0x6E, 0x75, 0x6C, 0x6C]
  const TRUE_TEXT: Text := [0x74, 0x72, 0x75, 0x65]
  const FALSE_TEXT: Text := [0x66, 0x61, 0x6C, 0x73, 0x65]

  function HexDigit(n: nat): CodeUnit
    requires n < 16
  {
    if n < 10 then 0x30 + n else 0x61 + n - 10
  }

  function Hex4(u: CodeUnit): Text {
    [HexDigit(u / 0x1000), HexDigit(u / 0x100 % 16), HexDigit(u / 0x10 % 16), HexDigit(u % 16)]
  }

  /** The letter of a short escape. */
  function ShortEscape(u: CodeUnit): Option<CodeUnit> {
    if u == 0x08 then Some(0x62)
    else if u == 0x09 then Some(0x74)
    else if u == 0x0A then Some(0x6E)
    else if u == 0x0C then Some(0x66)
    else if u == 0x0D then Some(0x72)
    else if u == QUOTE || u == BACKSLASH then Some(u)
    else None
  }

  /** One unit that is not the first half of a pair. */
  function QuoteUnit(u: CodeUnit): Text {
    if ShortEscape(u).Some? then [BACKSLASH, ShortEscape(u).value]
    else if u < 0x20 || IsHigh(u) || IsLow(u) then [BACKSLASH, 0x75] + Hex4(u)
    else [u]
  }

  function QuoteUnits(s: Text): Text
    decreases |s|
  {
    if s == [] then []
    else if StartsWithPair(s) then s[..2] + QuoteUnits(s[2..])
    else QuoteUnit(s[0]) + QuoteUnits(s[1..])
  }

  function Quote(s: Text): Text { [QUOTE] + QuoteUnits(s) + [QUOTE] }

  function Print(j: Json): Text {
    match j
    case JNull => NULL_TEXT
    case JBool(b) => if b then TRUE_TEXT else FALSE_TEXT
    case JNumber(text) => text
    case JStr(s) => Quote(s)
    case JArr(items) => [OPEN] + PrintItems(items) + [CLOSE]
    case JObj(fields) => [LEFT] + PrintFields(fields) + [RIGHT]
  }

  function PrintItems(items: Jsons): Text {
    match items
    case NoJsons => []
    case MoreJsons(head, tail) => Print(head) + if tail.NoJsons? then [] else [COMMA] + PrintItems(tail)
  }

  function PrintFields(fields: JFields): Text {
    match fields
    case NoJFields => []
    case MoreJFields(key, value, rest) =>
      Quote(key) + [COLON] + Print(value) + if rest.NoJFields? then [] else [COMMA] + PrintFields(rest)
  }

  function CanonicalStringify(v: Value): Option<Text> {
    match Sort(v)
    case None => None
    case Some(j) => Some(Print(j))
  }

  // -- Parsing the compact form -----------------------------

  predicate StartsWith(s: Text, p: Text) { |p| <= |s| && s[..|p|] == p }

  function Unhex(u: CodeUnit): Option<nat> {
    if 0x30 <= u <= 0x39 then Some(u - 0x30)
    else if 0x61 <= u <= 0x66 then Some(u - 0x61 + 10)
    else if 0x41 <= u <= 0x46 then Some(u - 0x41 + 10)
    else None
  }

  function Unescape(u: CodeUnit): Option<CodeUnit> {
    if u == 0x62 then Some(0x08)
    else if u == 0x74 then Some(0x09)
    else if u == 0x6E then Some(0x0A)
    else if u == 0x66 then Some(0x0C)
    else if u == 0x72 then Some(0x0D)
    else if u == QUOTE || u == BACKSLASH || u == 0x2F then Some(u)
    else None
  }

  /** One possibly escaped unit and the text behind it. */
  function ParseUnit(s: Text): (r: Option<(CodeUnit, Text)>)
    ensures r.Some? ==> |r.value.1| < |s|
  {
    if s == [] || s[0] < 0x20 || s[0] == QUOTE then None
    else if s[0] != BACKSLASH then Some((s[0], s[1..]))
    else if |s| < 2 then None
    else if s[1] != 0x75 then (match Unescape(s[1]) case None => None case Some(u) => Some((u, s[2..])))
    else if |s| < 6 then None
    else
      match (Unhex(s[2]), Unhex(s[3]), Unhex(s[4]), Unhex(s[5]))
      case (Some(a), Some(b), Some(c), Some(d)) => Some((a * 0x1000 + b * 0x100 + c * 0x10 + d, s[6..]))
      case _ => None
  }

  /** The rest of a string behind its opening quote. */
  function ParseUnits(s: Text): (r: Option<(Text, Text)>)
    ensures r.Some? ==> |r.value.1| < |s|
    decreases |s|
  {
    if s != [] && s[0] == QUOTE then Some(([], s[1..]))
    else
      match ParseUnit(s)
      case None => None
      case Some((u, rest)) =>
        match ParseUnits(rest)
        case None => None
        case Some((us, end)) => Some(([u] + us, end))
  }

  function ParseString(s: Text): (r: Option<(Text, Text)>)
    ensures r.Some? ==> |r.value.1| < |s|
  {
    if s != [] && s[0] == QUOTE then ParseUnits(s[1..]) else None
  }

  /** The number of leading units that can belong to a number. */
  function NumberLength(s: Text): (n: nat)
    ensures n <= |s| && (forall i :: 0 <= i < n ==> NumberUnit(s[i])) && (n < |s| ==> !NumberUnit(s[n]))
  {
    if s != [] && NumberUnit(s[0]) then 1 + NumberLength(s[1..]) else 0
  }

  function ParseValue(s: Text): (r: Option<(Json, Text)>)
    ensures r.Some? ==> |r.value.1| < |s|
    decreases |s|, 1
  {
    if s == [] then None
    else if StartsWith(s, NULL_TEXT) then Some((JNull, s[4..]))
    else if StartsWith(s, TRUE_TEXT) then Some((JBool(true), s[4..]))
    else if StartsWith(s, FALSE_TEXT) then Some((JBool(false), s[5..]))
    else if s[0] == QUOTE then (match ParseString(s) case None => None case Some((t, rest)) => Some((JStr(t), rest)))
    else if s[0] == OPEN then
      if |s| > 1 && s[1] == CLOSE then Some((JArr(NoJsons), s[2..]))
      else (match ParseItems(s[1..]) case None => None case Some((js, rest)) => Some((JArr(js), rest)))
    else if s[0] == LEFT then
      if |s| > 1 && s[1] == RIGHT then Some((JObj(NoJFields), s[2..]))
      else (match ParseFields(s[1..]) case None => None case Some((fs, rest)) => Some((JObj(fs), rest)))
    else
      var n := NumberLength(s);
      if IsNumberText(s[..n]) then Some((JNumber(s[..n]), s[n..])) else None
  }

  /** One or more items and the closing bracket. */
  function ParseItems(s: Text): (r: Option<(Jsons, Text)>)
    ensures r.Some? ==> |r.value.1| < |s|
    decreases |s|, 2
  {
    match ParseValue(s)
    case None => None
    case Some((j, rest)) =>
      if rest != [] && rest[0] == CLOSE then Some((MoreJsons(j, NoJsons), rest[1..]))
      else if rest != [] && rest[0] == COMMA then
        (match ParseItems(rest[1..]) case None => None case Some((js, end)) => Some((MoreJsons(j, js), end)))
      else None
  }

  function ParseFields(s: Text): (r: Option<(JFields, Text)>)
    ensures r.Some? ==> |r.value.1| < |s|
    decreases |s|, 2
  {
    match ParseString(s)
    case None => None
    case Some((key, t)) =>
      if t == [] || t[0] != COLON then None
      else
        match ParseValue(t[1..])
        case None => None
        case Some((j, rest)) =>
          if rest != [] && rest[0] == RIGHT then Some((MoreJFields(key, j, NoJFields), rest[1..]))
          else if rest != [] && rest[0] == COMMA then
            (match ParseFields(rest[1..])
             case None => None
             case Some((fs, end)) => Some((MoreJFields(key, j, fs), end)))
          else None
  }

  /** A whole text. */
  function Parse(s: Text): Option<Json> {
    match ParseValue(s)
    case Some((j, rest)) => if rest == [] then Some(j) else None
    case None => None
  }
}
