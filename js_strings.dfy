/**
 * The JavaScript string built-ins the backend and the frontend rely on:
 * `trim`, `toLowerCase`, `length`, `startsWith`, `split(" ")` and the
 * conversion of an integer to its decimal string.
 */
module JsStrings {

  // ---------------------------------------------------------------------
  // Whitespace and trim
  // ---------------------------------------------------------------------

  /** The code points that `String.prototype.trim` removes and that the
      regular-expression class `\s` matches: WhiteSpace (section 12.2 of
      ECMA-262) and LineTerminator (section 12.3 of ECMA-262). */
  predicate IsWhitespace(c: char) {
    c == '\t' || c == '\n' || c == '\U{B}' || c == '\U{C}' || c == '\r' || c == ' '
    || c == '\U{A0}' || c == '\U{1680}' || ('\U{2000}' <= c <= '\U{200A}')
    || c == '\U{2028}' || c == '\U{2029}' || c == '\U{202F}' || c == '\U{205F}'
    || c == '\U{3000}' || c == '\U{FEFF}'
  }

  predicate AllWhitespace(s: string) {
    forall i :: 0 <= i < |s| ==> IsWhitespace(s[i])
  }

  predicate NoWhitespace(s: string) {
    forall i :: 0 <= i < |s| ==> !IsWhitespace(s[i])
  }

  /** The shape of a trimmed string: no whitespace at either end. */
  predicate IsTrimmed(s: string) {
    s == [] || (!IsWhitespace(s[0]) && !IsWhitespace(s[|s| - 1]))
  }

  /** Drops the leading whitespace. */
  function TrimStart(s: string): (r: string)
    ensures |r| <= |s|
    decreases |s|
  {
    if s != [] && IsWhitespace(s[0]) then TrimStart(s[1..]) else s
  }

  /** What `TrimStart` leaves is a suffix of `s`, what it dropped is all
      whitespace and what is left does not start with any. */
  lemma {:induction false} TrimStartShape(s: string)
    ensures |TrimStart(s)| <= |s| && TrimStart(s) == s[|s| - |TrimStart(s)|..]
    ensures AllWhitespace(s[..|s| - |TrimStart(s)|])
    ensures TrimStart(s) != [] ==> !IsWhitespace(TrimStart(s)[0])
    decreases |s|
  {
    if s != [] && IsWhitespace(s[0]) {
      TrimStartShape(s[1..]);
      var r := TrimStart(s);
      assert s[..|s| - |r|] == [s[0]] + s[1..][..|s| - 1 - |r|];
    }
  }

  /** Drops the trailing whitespace. */
  function TrimEnd(s: string): (r: string)
    ensures |r| <= |s|
    decreases |s|
  {
    if s != [] && IsWhitespace(s[|s| - 1]) then TrimEnd(s[..|s| - 1]) else s
  }

  /** What `TrimEnd` leaves is a prefix of `s`, what it dropped is all
      whitespace and what is left does not end with any. */
  lemma {:induction false} TrimEndShape(s: string)
    ensures |TrimEnd(s)| <= |s| && TrimEnd(s) == s[..|TrimEnd(s)|]
    ensures AllWhitespace(s[|TrimEnd(s)|..])
    ensures TrimEnd(s) != [] ==> !IsWhitespace(TrimEnd(s)[|TrimEnd(s)| - 1])
    decreases |s|
  {
    if s != [] && IsWhitespace(s[|s| - 1]) {
      TrimEndShape(s[..|s| - 1]);
      var r := TrimEnd(s);
      assert s[|r|..] == s[..|s| - 1][|r|..] + [s[|s| - 1]];
    }
  }

  /** `String.prototype.trim`. */
  function Trim(s: string): (r: string)
    ensures IsTrimmed(r)
    ensures |r| <= |s|
  {
    TrimStartShape(s);
    TrimEndShape(TrimStart(s));
    TrimEnd(TrimStart(s))
  }

  lemma {:induction false} TrimStartSkips(a: string, x: string)
    requires AllWhitespace(a)
    requires x == [] || !IsWhitespace(x[0])
    ensures TrimStart(a + x) == x
    decreases |a|
  {
    if a == [] {
      assert a + x == x;
    } else {
      assert (a + x)[1..] == a[1..] + x;
      TrimStartSkips(a[1..], x);
    }
  }

  lemma {:induction false} TrimEndSkips(x: string, b: string)
    requires AllWhitespace(b)
    requires x == [] || !IsWhitespace(x[|x| - 1])
    ensures TrimEnd(x + b) == x
    decreases |b|
  {
    if b == [] {
      assert x + b == x;
    } else {
      assert (x + b)[..|x + b| - 1] == x + b[..|b| - 1];
      TrimEndSkips(x, b[..|b| - 1]);
    }
  }

  /** Trim is determined by its result's shape: whatever surrounds a trimmed
      core, as long as it is whitespace, is removed and nothing else is. */
  lemma TrimUnique(a: string, t: string, b: string)
    requires AllWhitespace(a) && AllWhitespace(b) && IsTrimmed(t)
    ensures Trim(a + t + b) == t
  {
    if t == [] {
      assert a + t + b == a + b + [];
      assert AllWhitespace(a + b);
      TrimStartSkips(a + b, []);
    } else {
      assert a + t + b == a + (t + b);
      TrimStartSkips(a, t + b);
      TrimEndSkips(t, b);
    }
  }

  /** The length of the leading whitespace of `s`. */
  function LeadLength(s: string): nat {
    |s| - |TrimStart(s)|
  }

  lemma SliceThree(s: string, i: nat, j: nat)
    requires i <= j <= |s|
    ensures s == s[..i] + s[i..j] + s[j..]
  {
  }

  /** Every string is its trimmed core surrounded by whitespace. */
  lemma TrimDecomposes(s: string)
    ensures LeadLength(s) + |Trim(s)| <= |s|
    ensures Trim(s) == s[LeadLength(s)..LeadLength(s) + |Trim(s)|]
    ensures AllWhitespace(s[..LeadLength(s)])
    ensures AllWhitespace(s[LeadLength(s) + |Trim(s)|..])
  {
    var k := LeadLength(s);
    var u := TrimStart(s);
    var t := TrimEnd(u);
    TrimStartShape(s);
    TrimEndShape(u);
    assert u == s[k..];
    assert t == u[..|t|];
    assert u[|t|..] == s[k + |t|..];
  }

  /** Trimming twice is trimming once. */
  lemma TrimIdempotent(s: string)
    ensures Trim(Trim(s)) == Trim(s)
  {
    var t := Trim(s);
    assert t == [] + t + [];
    TrimUnique([], t, []);
  }

  lemma AllWhitespaceConcat(x: string, y: string)
    requires AllWhitespace(x) && AllWhitespace(y)
    ensures AllWhitespace(x + y)
  {
  }

  lemma Regroup(w1: string, a: string, t: string, b: string, w2: string)
    ensures w1 + (a + t + b) + w2 == (w1 + a) + t + (b + w2)
  {
  }

  /** Surrounding whitespace makes no difference to the trimmed value. */
  lemma {:induction false} TrimIgnoresSurroundingWhitespace(w1: string, s: string, w2: string)
    requires AllWhitespace(w1) && AllWhitespace(w2)
    ensures Trim(w1 + s + w2) == Trim(s)
  {
    TrimDecomposes(s);
    var k := LeadLength(s);
    var t := Trim(s);
    var a, b := s[..k], s[k + |t|..];
    SliceThree(s, k, k + |t|);
    assert s == a + t + b;
    Regroup(w1, a, t, b, w2);
    AllWhitespaceConcat(w1, a);
    AllWhitespaceConcat(b, w2);
    TrimUnique(w1 + a, t, b + w2);
  }

  // ---------------------------------------------------------------------
  // Lower case
  // ---------------------------------------------------------------------

  function LowerChar(c: char): char {
    if 'A' <= c <= 'Z' then (c as int + 32) as char else c
  }

  /** `String.prototype.toLowerCase`, restricted to the ASCII letters. */
  function ToLower(s: string): (r: string)
    ensures |r| == |s|
  {
    seq(|s|, i requires 0 <= i < |s| => LowerChar(s[i]))
  }

  predicate IsLowerCase(s: string) {
    forall i :: 0 <= i < |s| ==> !('A' <= s[i] <= 'Z')
  }

  /** The result of lower-casing has no upper-case letter, and lower-casing it
      again changes nothing. */
  lemma ToLowerIdempotent(s: string)
    ensures IsLowerCase(ToLower(s))
    ensures ToLower(ToLower(s)) == ToLower(s)
  {
  }

  lemma ToLowerConcat(a: string, b: string)
    ensures ToLower(a + b) == ToLower(a) + ToLower(b)
  {
  }

  lemma LowerKeepsWhitespace(s: string)
    ensures AllWhitespace(s) ==> ToLower(s) == s
    ensures IsTrimmed(s) ==> IsTrimmed(ToLower(s))
  {
  }

  /** Lower-casing and trimming commute, so the order in which a schema applies
      the two makes no difference. */
  lemma ToLowerTrimCommute(s: string)
    ensures ToLower(Trim(s)) == Trim(ToLower(s))
  {
    TrimDecomposes(s);
    var k := LeadLength(s);
    var t := Trim(s);
    var a, b := s[..k], s[k + |t|..];
    SliceThree(s, k, k + |t|);
    ToLowerConcat(a, t);
    ToLowerConcat(a + t, b);
    LowerKeepsWhitespace(a);
    LowerKeepsWhitespace(b);
    LowerKeepsWhitespace(t);
    TrimUnique(a, ToLower(t), b);
  }

  // ---------------------------------------------------------------------
  // Length and prefixes
  // ---------------------------------------------------------------------

  /** The number of UTF-16 code units a code point takes. */
  function Utf16Units(c: char): nat {
    if c as int > 0xFFFF then 2 else 1
  }

  /** `String.prototype.length`: the length in UTF-16 code units, which is what
      every length limit of the backend counts. */
  function JsLength(s: string): (n: nat)
    ensures |s| <= n <= 2 * |s|
  {
    if s == [] then 0 else Utf16Units(s[0]) + JsLength(s[1..])
  }

  predicate InBasicPlane(s: string) {
    forall i :: 0 <= i < |s| ==> s[i] as int <= 0xFFFF
  }

  lemma {:induction false} JsLengthBasicPlane(s: string)
    requires InBasicPlane(s)
    ensures JsLength(s) == |s|
    decreases |s|
  {
    if s != [] {
      JsLengthBasicPlane(s[1..]);
    }
  }

  /** `String.prototype.startsWith`. */
  predicate StartsWith(s: string, prefix: string) {
    |prefix| <= |s| && s[..|prefix|] == prefix
  }

  // ---------------------------------------------------------------------
  // split(" ")
  // ---------------------------------------------------------------------

  /** Joins fields with one space between each two, the inverse of `Split`. */
  function Join(fields: seq<string>): string
    requires |fields| >= 1
  {
    if |fields| == 1 then fields[0] else fields[0] + " " + Join(fields[1..])
  }

  /** `String.prototype.split(" ")`: the fields between single spaces, empty
      fields included. There is always at least one field, no field contains a
      space, and joining the fields with spaces gives back the input. */
  function Split(s: string): (fields: seq<string>)
    ensures |fields| >= 1
    ensures forall k :: 0 <= k < |fields| ==> ' ' !in fields[k]
    ensures Join(fields) == s
    decreases |s|
  {
    if s == [] then
      [[]]
    else if s[0] == ' ' then
      var rest := Split(s[1..]);
      assert ([[]] + rest)[1..] == rest;
      [[]] + rest
    else
      var rest := Split(s[1..]);
      var fields := [[s[0]] + rest[0]] + rest[1..];
      assert |rest| > 1 ==> fields[1..] == rest[1..] && Join(rest) == rest[0] + " " + Join(rest[1..]);
      assert s == [s[0]] + s[1..];
      fields
  }

  lemma {:induction false} SplitSingleField(x: string)
    requires ' ' !in x
    ensures Split(x) == [x]
    decreases |x|
  {
    if x != [] {
      SplitSingleField(x[1..]);
      assert [x[0]] + x[1..] == x;
    }
  }

  /** A field followed by a space starts the list of fields. */
  lemma {:induction false} SplitAfterField(x: string, y: string)
    requires ' ' !in x
    ensures Split(x + " " + y) == [x] + Split(y)
    decreases |x|
  {
    if x == [] {
      assert x + " " + y == " " + y;
      assert (" " + y)[1..] == y;
    } else {
      assert (x + " " + y)[0] == x[0];
      assert (x + " " + y)[1..] == x[1..] + " " + y;
      SplitAfterField(x[1..], y);
      assert [x[0]] + x[1..] == x;
    }
  }

  /** Splitting undoes joining, for fields that contain no space. */
  lemma {:induction false} SplitJoin(fields: seq<string>)
    requires |fields| >= 1
    requires forall k :: 0 <= k < |fields| ==> ' ' !in fields[k]
    ensures Split(Join(fields)) == fields
    decreases |fields|
  {
    if |fields| == 1 {
      SplitSingleField(fields[0]);
    } else {
      SplitJoin(fields[1..]);
      SplitAfterField(fields[0], Join(fields[1..]));
      assert [fields[0]] + fields[1..] == fields;
    }
  }

  // ---------------------------------------------------------------------
  // Decimal strings
  // ---------------------------------------------------------------------

  predicate IsDigit(c: char) {
    '0' <= c <= '9'
  }

  predicate AllDigits(s: string) {
    forall i :: 0 <= i < |s| ==> IsDigit(s[i])
  }

  function DigitChar(d: nat): (c: char)
    requires d < 10
    ensures IsDigit(c)
  {
    ('0' as int + d) as char
  }

  /** The decimal digits of `n`, without leading zeros: what JavaScript's
      `Number.prototype.toString()` gives for a non-negative integer below
      10^21. */
  function NatToDecimal(n: nat): (r: string)
    ensures |r| >= 1 && AllDigits(r)
    ensures r[0] == '0' <==> n == 0
    decreases n
  {
    if n < 10 then [DigitChar(n)] else NatToDecimal(n / 10) + [DigitChar(n % 10)]
  }

  /** The number a string of decimal digits denotes. */
  function DecimalValue(s: string): nat
    requires AllDigits(s)
  {
    if s == [] then 0 else 10 * DecimalValue(s[..|s| - 1]) + (s[|s| - 1] as int - '0' as int)
  }

  /** Reading back the decimal string of a number gives the number. */
  lemma {:induction false} DecimalRoundTrip(n: nat)
    ensures DecimalValue(NatToDecimal(n)) == n
    decreases n
  {
    if n >= 10 {
      DecimalRoundTrip(n / 10);
      var r := NatToDecimal(n);
      assert r[..|r| - 1] == NatToDecimal(n / 10);
    }
  }

  function Pow10(k: nat): (p: nat)
    ensures p >= 1
  {
    if k == 0 then 1 else 10 * Pow10(k - 1)
  }

  /** A number with k + 1 digits has a decimal string of length k + 1. */
  lemma {:induction false} DecimalLength(n: nat, k: nat)
    requires Pow10(k) <= n < Pow10(k + 1)
    ensures |NatToDecimal(n)| == k + 1
    decreases k
  {
    if k > 0 {
      DecimalLength(n / 10, k - 1);
    }
  }

  /** The decimal string of a three-digit number starts with its hundreds digit. */
  lemma ThreeDigitLeading(n: nat)
    requires 100 <= n < 1000
    ensures NatToDecimal(n)[0] == DigitChar(n / 100)
  {
    assert 10 <= n / 10 < 100;
    assert (n / 10) / 10 == n / 100;
    assert NatToDecimal(n / 10)[0] == DigitChar(n / 100);
  }

  /** Template-literal conversion `${i}` of an integer. */
  function IntToString(i: int): (r: string)
    ensures |r| >= 1
    ensures (r[0] == '-') <==> i < 0
  {
    if i < 0 then "-" + NatToDecimal(-i) else NatToDecimal(i)
  }
}
