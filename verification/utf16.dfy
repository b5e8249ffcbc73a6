/**
 JavaScript strings as sequences of UTF-16 code units, and the size of their
 UTF-8 encoding (RFC 3629 section 3). A surrogate that is not part of a pair
 encodes as the three bytes of U+FFFD.
 */
module Utf16 {

  type CodeUnit = u: int | 0 <= u < 0x1_0000

  type Text = seq<CodeUnit>

  predicate IsHigh(u: CodeUnit) { 0xD800 <= u < 0xDC00 }

  predicate IsLow(u: CodeUnit) { 0xDC00 <= u < 0xE000 }

  predicate StartsWithPair(s: Text) {
    |s| >= 2 && IsHigh(s[0]) && IsLow(s[1])
  }

  /** The number of units in the first code point of s. */
  function FirstUnits(s: Text): (n: nat)
    requires s != []
    ensures 1 <= n <= |s|
  {
    if StartsWithPair(s) then 2 else 1
  }

  /** The number of UTF-8 bytes of the first code point of s. */
  function FirstBytes(s: Text): (n: nat)
    requires s != []
    ensures 1 <= n <= 4
  {
    if StartsWithPair(s) then 4
    else if s[0] < 0x80 then 1
    else if s[0] < 0x800 then 2
    else 3
  }

  function Utf8Length(s: Text): nat
  {
    if s == [] then 0 else FirstBytes(s) + Utf8Length(s[FirstUnits(s)..])
  }

  /** Position i does not fall between the halves of a surrogate pair. */
  predicate Boundary(s: Text, i: int) {
    0 <= i <= |s| && !(0 < i < |s| && IsHigh(s[i - 1]) && IsLow(s[i]))
  }

  /** JavaScript white space and line terminators (ECMA-262 sections 12.2 and 12.3). */
  predicate IsSpace(u: CodeUnit) {
    || 0x09 <= u <= 0x0D || u == 0x20 || u == 0xA0 || u == 0x1680
    || 0x2000 <= u <= 0x200A || u == 0x2028 || u == 0x2029
    || u == 0x202F || u == 0x205F || u == 0x3000 || u == 0xFEFF
  }

  ghost predicate Blank(s: Text) {
    forall i :: 0 <= i < |s| ==> IsSpace(s[i])
  }

  function TrimEnd(s: Text): (t: Text)
    ensures |t| <= |s| && t == s[..|t|]
    ensures Blank(s[|t|..])
    ensures t != [] ==> !IsSpace(t[|t| - 1])
  {
    if s != [] && IsSpace(s[|s| - 1]) then TrimEnd(s[..|s| - 1]) else s
  }

  function TrimStart(s: Text): (t: Text)
    ensures |t| <= |s| && t == s[|s| - |t|..]
    ensures Blank(s[..|s| - |t|])
    ensures t != [] ==> !IsSpace(t[0])
  {
    if s != [] && IsSpace(s[0]) then
      var t := TrimStart(s[1..]);
      assert s[..|s| - |t|] == [s[0]] + s[1..][..|s| - 1 - |t|];
      t
    else s
  }

  function Trim(s: Text): Text {
    TrimStart(TrimEnd(s))
  }

  /** The last index at or before `from` holding u, or -1. */
  function LastIndexOf(s: Text, u: CodeUnit, from: int): (i: int)
    requires -1 <= from
    ensures -1 <= i <= from && i < |s|
    ensures 0 <= i ==> s[i] == u
    ensures forall j :: i < j <= from && j < |s| ==> s[j] != u
  {
    if from < 0 then -1
    else if from < |s| && s[from] == u then from
    else LastIndexOf(s, u, from - 1)
  }

  lemma {:induction false} SplitAtBoundary(s: Text, i: int)
    requires Boundary(s, i)
    ensures Utf8Length(s) == Utf8Length(s[..i]) + Utf8Length(s[i..])
    decreases |s|
  {
    if i == 0 {
      assert s[..0] == [] && s[0..] == s;
    } else {
      var n := FirstUnits(s);
      SplitAtBoundary(s[n..], i - n);
      assert s[n..][..i - n] == s[..i][n..];
      assert s[n..][i - n..] == s[i..];
    }
  }

  /** Cutting a surrogate pair in two is exactly what changes the encoded size. */
  lemma {:induction false} BoundaryIffSizesAdd(s: Text, i: nat)
    requires i <= |s|
    ensures Boundary(s, i) <==> Utf8Length(s) == Utf8Length(s[..i]) + Utf8Length(s[i..])
  {
    if Boundary(s, i) {
      SplitAtBoundary(s, i);
    } else {
      SplitAtBoundary(s, i - 1);
      var rest := s[i - 1..];
      assert StartsWithPair(rest);
      assert rest[2..] == s[i + 1..] == s[i..][1..];
      SplitAtBoundary(s[..i], i - 1);
      assert s[..i][..i - 1] == s[..i - 1];
      assert s[..i][i - 1..] == [s[i - 1]];
      assert Utf8Length([s[i - 1]]) == 3 + Utf8Length([]);
    }
  }

  lemma SizeOfConcat(a: Text, b: Text)
    requires Boundary(a + b, |a|)
    ensures Utf8Length(a + b) == Utf8Length(a) + Utf8Length(b)
  {
    SplitAtBoundary(a + b, |a|);
    assert (a + b)[..|a|] == a && (a + b)[|a|..] == b;
  }

  /** An ASCII text has one byte a unit. */
  lemma {:induction false} AsciiSize(s: Text)
    requires forall i :: 0 <= i < |s| ==> s[i] < 0x80
    ensures Utf8Length(s) == |s|
  {
    if s != [] {
      AsciiSize(s[1..]);
    }
  }

  function Decimal(n: nat): (s: Text)
    ensures s != []
    ensures forall i :: 0 <= i < |s| ==> 0x30 <= s[i] <= 0x39
  {
    if n < 10 then [0x30 + n] else Decimal(n / 10) + [0x30 + n % 10]
  }

  lemma {:induction false} DecimalIsInjective(m: nat, n: nat)
    requires Decimal(m) == Decimal(n)
    ensures m == n
  {
    var s, t := Decimal(m), Decimal(n);
    assert s[|s| - 1] == 0x30 + m % 10 && t[|t| - 1] == 0x30 + n % 10;
    if m >= 10 && n >= 10 {
      assert s[..|s| - 1] == Decimal(m / 10) && t[..|t| - 1] == Decimal(n / 10);
      DecimalIsInjective(m / 10, n / 10);
    }
  }

  function Pow10(k: nat): (p: nat)
    ensures p >= 1
  {
    if k == 0 then 1 else 10 * Pow10(k - 1)
  }

  lemma {:induction false} DecimalLength(n: nat, k: nat)
    requires 1 <= k && n < Pow10(k)
    ensures |Decimal(n)| <= k
  {
    assert k == 1 ==> Pow10(k - 1) == 1;
    if n >= 10 {
      DecimalLength(n / 10, k - 1);
    }
  }
}
