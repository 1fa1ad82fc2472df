/** The few pieces of JavaScript's runtime that the scoring code leans on:
    truthiness, `String.prototype.trim`, `String.prototype.length` (counted in
    UTF-16 code units), `Math.round`, and `String(n)` for a non-negative
    integer. */
module Js {
  import opened Wrappers

  /** A value as the code receives it: `undefined` for a missing key, JSON's
      `null`, a boolean, a number, a string, or an array or object, whose
      contents nothing in the modelled code inspects. JSON cannot carry NaN
      or the infinities, so a number is a finite rational here. */
  datatype JsValue =
    | Undefined
    | Null
    | Boolean(b: bool)
    | Number(n: real)
    | Text(s: string)
    | Array
    | Object

  /** ECMAScript ToBoolean: what `if (v)`, `!v` and `filter((v) => v)` see. */
  predicate Truthy(v: JsValue) {
    match v
    case Undefined => false
    case Null => false
    case Boolean(b) => b
    case Number(n) => n != 0.0
    case Text(s) => s != ""
    case Array => true
    case Object => true
  }

  /** The WhiteSpace and LineTerminator code points: what `trim` removes. */
  predicate IsWhitespace(c: char) {
    || c == '\t' || c == '\n' || c == '\U{B}' || c == '\U{C}' || c == '\r'
    || c == ' ' || c == '\U{A0}' || c == '\U{1680}'
    || ('\U{2000}' <= c <= '\U{200A}')
    || c == '\U{2028}' || c == '\U{2029}' || c == '\U{202F}' || c == '\U{205F}'
    || c == '\U{3000}' || c == '\U{FEFF}'
  }

  /** A string made of whitespace only (the empty string included). */
  predicate Blank(s: string) {
    s == [] || (IsWhitespace(s[0]) && Blank(s[1..]))
  }

  /** `Blank` says that every character is whitespace. */
  lemma {:induction false} BlankMeansAllWhitespace(s: string)
    ensures Blank(s) <==> forall i :: 0 <= i < |s| ==> IsWhitespace(s[i])
  {
    if s != [] {
      BlankMeansAllWhitespace(s[1..]);
      assert forall i :: 1 <= i < |s| ==> s[i] == s[1..][i - 1];
    }
  }

  /** Drops the longest whitespace prefix. */
  function TrimStart(s: string): (r: string)
    ensures |r| <= |s|
  {
    if s != [] && IsWhitespace(s[0]) then TrimStart(s[1..]) else s
  }

  /** Drops the longest whitespace suffix. */
  function TrimEnd(s: string): (r: string)
    ensures |r| <= |s|
  {
    if s != [] && IsWhitespace(s[|s| - 1]) then TrimEnd(s[..|s| - 1]) else s
  }

  /** `s.trim()` */
  function Trim(s: string): string {
    TrimEnd(TrimStart(s))
  }

  /** Trimming the front of a blank string leaves nothing. */
  lemma {:induction false} BlankTrimsAway(s: string)
    requires Blank(s)
    ensures TrimStart(s) == []
  {
    if s != [] {
      BlankTrimsAway(s[1..]);
    }
  }

  /** What trimming the front stops at is not whitespace, and it stops at
      the end only for a blank string. */
  lemma {:induction false} TrimStartStops(s: string)
    ensures TrimStart(s) == [] ==> Blank(s)
    ensures TrimStart(s) != [] ==> !IsWhitespace(TrimStart(s)[0])
  {
    if s != [] && IsWhitespace(s[0]) {
      TrimStartStops(s[1..]);
    }
  }

  /** Trimming the end never empties a string that starts with a character
      other than whitespace. */
  lemma {:induction false} TrimEndKeepsFirst(s: string)
    requires s != [] && !IsWhitespace(s[0])
    ensures TrimEnd(s) != []
  {
    if IsWhitespace(s[|s| - 1]) {
      assert s[..|s| - 1][0] == s[0];
      TrimEndKeepsFirst(s[..|s| - 1]);
    }
  }

  /** `s.trim()` is empty exactly when `s` is blank. */
  lemma TrimEmptyIffBlank(s: string)
    ensures Trim(s) == [] <==> Blank(s)
  {
    TrimStartStops(s);
    if Blank(s) {
      BlankTrimsAway(s);
    } else {
      TrimEndKeepsFirst(TrimStart(s));
    }
  }

  /** `s.length`: the number of UTF-16 code units of `s`; a scalar value above
      U+FFFF takes two (a surrogate pair). */
  function Utf16Length(s: string): (n: nat)
    ensures |s| <= n <= 2 * |s|
  {
    if s == [] then 0
    else (if s[0] as int > 0xFFFF then 2 else 1) + Utf16Length(s[1..])
  }

  /** `Math.round(x)`: the integer nearest to `x`, a half rounded up. */
  function Round(x: real): (r: int)
    ensures r as real - 0.5 <= x < r as real + 0.5
  {
    (x + 0.5).Floor
  }

  /** `s.slice(0, end)`: the prefix of `s` up to `end`, where a negative
      `end` counts back from the end of `s`. */
  function SliceTo<T>(s: seq<T>, end: int): (r: seq<T>)
    ensures r <= s
    ensures end >= 0 ==> |r| == if end < |s| then end else |s|
    ensures end < 0 ==> |r| == if |s| + end > 0 then |s| + end else 0
  {
    if end < 0 then s[..if |s| + end > 0 then |s| + end else 0]
    else if end < |s| then s[..end]
    else s
  }

  /** A string of decimal digits. */
  predicate IsDecimal(s: string) {
    forall i :: 0 <= i < |s| ==> '0' <= s[i] <= '9'
  }

  function DigitChar(d: nat): (c: char)
    requires d < 10
    ensures '0' <= c <= '9' && c as int - '0' as int == d
  {
    ('0' as int + d) as char
  }

  /** `String(n)` for a non-negative integer: its decimal digits, with no
      leading zero except in "0" itself. */
  function NatToString(n: nat): (s: string)
    ensures s != [] && IsDecimal(s)
    ensures s[0] == '0' <==> n == 0
    ensures n < 10 ==> |s| == 1
  {
    if n < 10 then [DigitChar(n)] else NatToString(n / 10) + [DigitChar(n % 10)]
  }

  /** The number a string of decimal digits denotes. */
  function DecimalValue(s: string): nat
    requires IsDecimal(s)
  {
    if s == [] then 0
    else 10 * DecimalValue(s[..|s| - 1]) + (s[|s| - 1] as int - '0' as int)
  }

  /** Reading back the digits of `String(n)` gives `n`. */
  lemma {:induction false} DecimalRoundTrip(n: nat)
    ensures DecimalValue(NatToString(n)) == n
  {
    var s := NatToString(n);
    if n >= 10 {
      assert s[..|s| - 1] == NatToString(n / 10);
      DecimalRoundTrip(n / 10);
    }
  }

  /** `Math.round` never turns a larger number into a smaller integer. */
  lemma RoundMonotone(x: real, y: real)
    requires x <= y
    ensures Round(x) <= Round(y)
  {
  }

  /** `Number(s)` for a string: the whitespace around it is ignored, an empty
      string is 0, a string of decimal digits is its value; any other string
      is NaN (`None`). */
  function StringToNumber(s: string): (r: Option<real>)
    ensures Blank(s) ==> r == Some(0.0)
    ensures r.Some? ==> r.value >= 0.0
  {
    var t := Trim(s);
    TrimEmptyIffBlank(s);
    if t == [] then Some(0.0)
    else if IsDecimal(t) then Some(DecimalValue(t) as real)
    else None
  }

  /** ECMAScript ToNumber, as a relational comparison such as `v >= 1`
      applies it: `None` is NaN, which compares false with everything. */
  function ToNumber(v: JsValue): (r: Option<real>)
    ensures v.Number? ==> r == Some(v.n)
    ensures v.Undefined? || v.Object? ==> r.None?
  {
    match v
    case Undefined => None
    case Null => Some(0.0)
    case Boolean(b) => Some(if b then 1.0 else 0.0)
    case Number(n) => Some(n)
    case Text(s) => StringToNumber(s)
    case Array => None
    case Object => None
  }

  /** A falsy value converts to 0 or NaN. */
  lemma FalsyIsZeroOrNaN(v: JsValue)
    requires !Truthy(v)
    ensures ToNumber(v) == None || ToNumber(v) == Some(0.0)
  {
    if v.Text? {
      assert Blank(v.s);
    }
  }
}
