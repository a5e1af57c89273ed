/** The small part of JavaScript's value semantics the application relies on:
    the scalar values a listing field or a search filter can hold, truthiness,
    strict equality, the `<` operator, `Number(string)`, `String(value)`,
    `toLowerCase`, `includes` and `trim`. Also the Option and Result types
    standing for `null`/`undefined` and for a thrown error. */
module Js {

  datatype Option<+T> = None | Some(value: T) {
    function GetOr(default: T): T
    {
      match this
      case Some(v) => v
      case None => default
    }
  }

  /** A value produced normally, or the error a JavaScript function throws. */
  datatype Result<+T, +E> = Ok(value: T) | Err(error: E)

  /** A scalar JavaScript value: a string (the empty string '' is `Str("")`),
      a non-negative integral number, or NaN. */
  datatype Value = Str(s: string) | Num(n: nat) | NaN

  const Empty: Value := Str("")

  /** JavaScript truthiness: '' , 0 and NaN are falsy. */
  predicate Truthy(v: Value)
  {
    match v
    case Str(s) => s != ""
    case Num(n) => n != 0
    case NaN => false
  }

  /** `a === b`: no coercion between strings and numbers, and NaN is never equal. */
  predicate StrictEquals(a: Value, b: Value)
  {
    a == b && !a.NaN?
  }

  // ---------------------------------------------------------------------------
  // Whitespace and `String.prototype.trim`

  /** ECMAScript WhiteSpace and LineTerminator code points, the ones `trim` strips. */
  predicate IsWhitespace(c: char)
  {
    || c == '\t' || c == '\n' || c == '\U{000B}' || c == '\U{000C}' || c == '\r' || c == ' '
    || c == '\U{00A0}' || c == '\U{1680}' || ('\U{2000}' <= c <= '\U{200A}')
    || c == '\U{2028}' || c == '\U{2029}' || c == '\U{202F}' || c == '\U{205F}'
    || c == '\U{3000}' || c == '\U{FEFF}'
  }

  predicate AllWhitespace(s: string)
  {
    forall i :: 0 <= i < |s| ==> IsWhitespace(s[i])
  }

  /** Drops the leading whitespace: the result is the suffix of `s` that starts
      at the first non-whitespace character. */
  function TrimStart(s: string): (r: string)
    ensures |r| <= |s| && r == s[|s| - |r|..]
    ensures r == [] || !IsWhitespace(r[0])
    ensures AllWhitespace(s[..|s| - |r|])
  {
    if s != [] && IsWhitespace(s[0]) then TrimStart(s[1..]) else s
  }

  /** Drops the trailing whitespace: the result is the prefix of `s` that ends
      at the last non-whitespace character. */
  function TrimEnd(s: string): (r: string)
    ensures |r| <= |s| && r == s[..|r|]
    ensures r == [] || !IsWhitespace(r[|r| - 1])
    ensures AllWhitespace(s[|r|..])
  {
    if s != [] && IsWhitespace(s[|s| - 1]) then TrimEnd(s[..|s| - 1]) else s
  }

  /** `s.trim()` */
  function Trim(s: string): string
  {
    TrimEnd(TrimStart(s))
  }

  /** `s.trim() === ''` holds exactly for the strings made of whitespace only. */
  lemma BlankIffAllWhitespace(s: string)
    ensures Trim(s) == "" <==> AllWhitespace(s)
  {
  }

  /** A string with no whitespace at either end is left alone by `trim`. */
  lemma TrimKeepsUnpadded(s: string)
    requires s != [] && !IsWhitespace(s[0]) && !IsWhitespace(s[|s| - 1])
    ensures Trim(s) == s
  {
    assert TrimStart(s) == s;
  }

  // ---------------------------------------------------------------------------
  // Decimal digits, `Number(string)` and `String(value)`

  predicate IsDigit(c: char)
  {
    '0' <= c <= '9'
  }

  predicate AllDigits(s: string)
  {
    forall i :: 0 <= i < |s| ==> IsDigit(s[i])
  }

  function DigitChar(d: nat): (c: char)
    requires d < 10
    ensures IsDigit(c)
  {
    ('0' as int + d) as char
  }

  function DigitValue(c: char): (d: nat)
    requires IsDigit(c)
    ensures d < 10
  {
    c as int - '0' as int
  }

  /** The value of a string of decimal digits, most significant first. */
  function DecimalValue(s: string): nat
    requires AllDigits(s)
  {
    if s == [] then 0 else DecimalValue(s[..|s| - 1]) * 10 + DigitValue(s[|s| - 1])
  }

  /** The shortest decimal representation of `n`, as `String(n)` writes it. */
  function DecimalString(n: nat): (r: string)
    ensures r != [] && AllDigits(r)
    ensures |r| > 1 ==> r[0] != '0'
  {
    if n < 10 then [DigitChar(n)] else DecimalString(n / 10) + [DigitChar(n % 10)]
  }

  lemma {:induction false} DecimalRoundTrip(n: nat)
    ensures DecimalValue(DecimalString(n)) == n
  {
    if n >= 10 {
      var s := DecimalString(n);
      assert s[..|s| - 1] == DecimalString(n / 10);
      DecimalRoundTrip(n / 10);
    }
  }

  /** `Number(s)` for a string: surrounding whitespace is ignored, a blank
      string is 0, a string of decimal digits is its value, anything else NaN. */
  function StringToNumber(s: string): (v: Value)
    ensures !v.Str?
  {
    var t := Trim(s);
    if t == "" then Num(0)
    else if AllDigits(t) then Num(DecimalValue(t))
    else NaN
  }

  /** `String(v)` */
  function ToString(v: Value): string
  {
    match v
    case Str(s) => s
    case Num(n) => DecimalString(n)
    case NaN => "NaN"
  }

  /** Writing a number out and reading it back with `Number` gives the number. */
  lemma NumberOfString(v: Value)
    requires !v.Str?
    ensures StringToNumber(ToString(v)) == v
  {
    match v
    case Num(n) => DecimalNumberRoundTrip(n);
    case NaN => NaNRoundTrip();
  }

  lemma DecimalNumberRoundTrip(n: nat)
    ensures StringToNumber(DecimalString(n)) == Num(n)
  {
    var s := DecimalString(n);
    TrimKeepsUnpadded(s);
    DecimalRoundTrip(n);
  }

  /** `Number("NaN")` is NaN: the text has no padding to trim and is not digits. */
  lemma NaNRoundTrip()
    ensures StringToNumber("NaN") == NaN
  {
    var s := "NaN";
    assert Trim(s) == s by {
      assert s[0] == 'N' && s[|s| - 1] == 'N';
      TrimKeepsUnpadded(s);
    }
    assert !AllDigits(s) by {
      assert !IsDigit(s[0]);
    }
  }

  /** How a numeric `<input>` value is stored: `value === '' ? '' : Number(value)`. */
  function NumberInputValue(raw: string): (v: Value)
    ensures v == Empty <==> raw == ""
    ensures raw != "" ==> v == StringToNumber(raw)
  {
    if raw == "" then Empty else StringToNumber(raw)
  }

  // ---------------------------------------------------------------------------
  // The relational operator `<`

  /** Lexicographic order of strings, as `<` compares two strings. */
  predicate StringLess(a: string, b: string)
  {
    if a == [] then b != []
    else if b == [] then false
    else if a[0] != b[0] then a[0] < b[0]
    else StringLess(a[1..], b[1..])
  }

  /** ToNumber: None stands for NaN. */
  function ToNumeric(v: Value): Option<nat>
  {
    match v
    case Num(n) => Some(n)
    case NaN => None
    case Str(s) =>
      match StringToNumber(s)
      case Num(n) => Some(n)
      case _ => None
  }

  /** The empty string converts to the number 0. */
  lemma EmptyIsZero()
    ensures ToNumeric(Empty) == Some(0)
  {
    assert TrimStart("") == "";
    assert TrimEnd("") == "";
  }

  /** `a < b`: two strings compare lexicographically; otherwise both sides are
      converted to numbers and a NaN on either side makes the comparison false. */
  predicate Less(a: Value, b: Value)
  {
    if a.Str? && b.Str? then StringLess(a.s, b.s)
    else
      var x, y := ToNumeric(a), ToNumeric(b);
      x.Some? && y.Some? && x.value < y.value
  }

  /** Compared with a number, the empty string behaves as 0. */
  lemma EmptyComparisons(n: nat)
    ensures Less(Empty, Num(n)) <==> 0 < n
    ensures !Less(Num(n), Empty)
  {
    EmptyIsZero();
  }

  // ---------------------------------------------------------------------------
  // `toLowerCase` and `includes`

  function LowerChar(c: char): char
  {
    if 'A' <= c <= 'Z' then (c as int - 'A' as int + 'a' as int) as char else c
  }

  /** `s.toLowerCase()`, for the ASCII letters. */
  function Lower(s: string): (r: string)
    ensures |r| == |s|
  {
    seq(|s|, i requires 0 <= i < |s| => LowerChar(s[i]))
  }

  /** `hay.includes(needle)`: `needle` occurs in `hay` at some position. */
  predicate Includes(hay: string, needle: string)
  {
    exists i :: 0 <= i <= |hay| - |needle| && OccursAt(hay, needle, i)
  }

  predicate OccursAt(hay: string, needle: string, i: int)
    requires 0 <= i <= |hay| - |needle|
  {
    hay[i..i + |needle|] == needle
  }
}
