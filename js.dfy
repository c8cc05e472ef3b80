/**
 * The slice of JavaScript semantics the bandwidth table relies on:
 * values that can sit in a table cell, thrown exceptions, `parseFloat`,
 * `Number.prototype.toFixed(1)` and `toString()`.
 *
 * Floating-point rounding and the Date library are not reimplemented:
 * they are the fields of a `Host` value that every operation needing
 * them takes as a parameter. Properties proved here hold for any behaviour of them, except
 * that `decimalValue` never gives NaN and that lemmas requiring
 * `FormatsFinitely` assume `toFixed1` never prints "NaN".
 */
module JsRuntime {

  datatype Option<+T> = None | Some(value: T)

  /** A JavaScript number, seen as NaN, a signed infinity or a finite value. */
  datatype JsNumber = NaN | Infinity(negative: bool) | Finite(value: real)

  type NonNaN = n: JsNumber | !n.NaN? witness Finite(0.0)

  /** The JavaScript values a table cell or a field of a fetched record can hold. */
  datatype JsValue = Undefined | Null | Number(n: JsNumber) | Str(s: string)

  datatype JsError = TypeError | RangeError

  /** The value an expression evaluates to, or the exception it throws. */
  datatype Outcome<+T> = Value(value: T) | Thrown(error: JsError) {
    predicate IsFailure() { Thrown? }

    function PropagateFailure<U>(): Outcome<U>
      requires Thrown?
    {
      Thrown(error)
    }

    function Extract(): T
      requires Value?
    {
      value
    }
  }

  /**
   * Library behaviour left uninterpreted:
   *  - decimalValue: the number `parseFloat` reads from a string that, after
   *    leading white space, starts with a decimal literal (rounding included);
   *  - toFixed1: `x.toFixed(1)` for a finite `x`;
   *  - numberToString: `x.toString()` for a finite `x`;
   *  - dateOf: the time value of `new Date(v)`, None for an invalid date;
   *  - isoString, timeString: `toISOString()` (UTC) and `toTimeString()`
   *    (local zone) of a valid date.
   */
  datatype Host = Host(
    decimalValue: string -> NonNaN,
    toFixed1: real -> string,
    numberToString: real -> string,
    dateOf: JsValue -> Option<int>,
    isoString: int -> string,
    timeString: int -> string)

  /** The one fact about `toFixed` the model needs: a finite number never prints as "NaN". */
  ghost predicate FormatsFinitely(host: Host) {
    forall v: real :: host.toFixed1(v) != "NaN"
  }

  predicate IsDigit(c: char) { '0' <= c <= '9' }

  /** The StrWhiteSpaceChar set of ECMAScript: white space and line terminators. */
  predicate IsStrWhiteSpace(c: char) {
    c == '\t' || c == '\n' || c == '\U{B}' || c == '\U{C}' || c == '\r' || c == ' '
    || c == '\U{A0}' || c == '\U{1680}' || ('\U{2000}' <= c <= '\U{200A}')
    || c == '\U{2028}' || c == '\U{2029}' || c == '\U{202F}' || c == '\U{205F}'
    || c == '\U{3000}' || c == '\U{FEFF}'
  }

  /** `s` with its leading white space removed: the longest suffix of `s` not starting with white space. */
  function TrimStart(s: string): (t: string)
    ensures |t| <= |s| && t == s[|s| - |t|..]
    ensures forall i :: 0 <= i < |s| - |t| ==> IsStrWhiteSpace(s[i])
    ensures t == [] || !IsStrWhiteSpace(t[0])
  {
    if s != [] && IsStrWhiteSpace(s[0]) then TrimStart(s[1..]) else s
  }

  /** Whether an unsigned string starts with a StrUnsignedDecimalLiteral other than Infinity. */
  predicate StartsDecimal(u: string) {
    (|u| >= 1 && IsDigit(u[0])) || (|u| >= 2 && u[0] == '.' && IsDigit(u[1]))
  }

  /** Whether a string starts with the literal "Infinity". */
  predicate StartsInfinity(u: string) {
    |u| >= 8 && u[..8] == "Infinity"
  }

  /** `t` without its sign character, if it has one. */
  function Unsigned(t: string): (u: string)
    ensures |u| <= |t| && u == t[|t| - |u|..]
  {
    if |t| > 0 && (t[0] == '+' || t[0] == '-') then t[1..] else t
  }

  /**
   * `parseFloat(s)`: skip leading white space and an optional sign; a
   * following "Infinity" gives an infinity, a following decimal literal the
   * value of its longest prefix, anything else NaN.
   */
  function ParseFloat(host: Host, s: string): JsNumber {
    var t := TrimStart(s);
    var u := Unsigned(t);
    if StartsInfinity(u) then Infinity(|t| > 0 && t[0] == '-')
    else if StartsDecimal(u) then host.decimalValue(t)
    else NaN
  }

  /** `x.toFixed(1)`: a number that is not finite prints as `toString` prints it. */
  function ToFixed1(host: Host, x: JsNumber): string {
    match x
    case NaN => "NaN"
    case Infinity(negative) => if negative then "-Infinity" else "Infinity"
    case Finite(v) => host.toFixed1(v)
  }

  function NumberToString(host: Host, x: JsNumber): string {
    match x
    case NaN => "NaN"
    case Infinity(negative) => if negative then "-Infinity" else "Infinity"
    case Finite(v) => host.numberToString(v)
  }

  /** The abstract ToString operation, as `parseFloat` applies it to its argument. */
  function TextOf(host: Host, v: JsValue): string {
    match v
    case Undefined => "undefined"
    case Null => "null"
    case Number(n) => NumberToString(host, n)
    case Str(s) => s
  }

  /** The method call `v.toString()`: null and undefined have no methods and throw. */
  function CallToString(host: Host, v: JsValue): (r: Outcome<string>)
    ensures r.Thrown? <==> v.Undefined? || v.Null?
    ensures r.Value? ==> r.value == TextOf(host, v)
  {
    match v
    case Undefined => Thrown(TypeError)
    case Null => Thrown(TypeError)
    case Number(n) => Value(NumberToString(host, n))
    case Str(s) => Value(s)
  }

  /** Whether "Infinity" occurs in `s` at position `i`. */
  predicate InfinityAt(s: string, i: nat) {
    i + 8 <= |s| && s[i..i + 8] == "Infinity"
  }

  /** A text with no digit and no occurrence of "Infinity". */
  predicate HoldsNoNumber(s: string) {
    (forall i :: 0 <= i < |s| ==> !IsDigit(s[i])) &&
    (forall i :: 0 <= i < |s| ==> !InfinityAt(s, i))
  }

  /** Every suffix of a text that holds no number holds none either. */
  lemma SuffixHoldsNoNumber(s: string, k: nat)
    requires HoldsNoNumber(s) && k <= |s|
    ensures HoldsNoNumber(s[k..])
  {
    var u := s[k..];
    forall i | 0 <= i < |u|
      ensures !IsDigit(u[i]) && !InfinityAt(u, i)
    {
      assert u[i] == s[k + i];
      if i + 8 <= |u| {
        assert u[i..i + 8] == s[k + i..k + i + 8];
        assert !InfinityAt(s, k + i);
      }
    }
  }

  /** A text that holds no number starts with no numeric literal. */
  lemma NoLiteralAtStart(u: string)
    requires HoldsNoNumber(u)
    ensures !StartsInfinity(u) && !StartsDecimal(u)
  {
    if |u| >= 8 {
      assert !InfinityAt(u, 0);
      assert u[0..8] == u[..8];
    }
  }

  /** A string with no digit and no "Infinity" holds no number: `parseFloat` gives NaN. */
  lemma ParseFloatOfNonNumericIsNaN(host: Host, s: string)
    requires HoldsNoNumber(s)
    ensures ParseFloat(host, s) == NaN
  {
    var u := Unsigned(TrimStart(s));
    var k := |s| - |u|;
    assert u == s[k..];
    SuffixHoldsNoNumber(s, k);
    NoLiteralAtStart(u);
    assert !StartsInfinity(Unsigned(TrimStart(s))) && !StartsDecimal(Unsigned(TrimStart(s)));
  }

  /** A string whose first character is a digit always parses to a number. */
  lemma ParseFloatOfDigitIsNumber(host: Host, s: string)
    requires |s| > 0 && IsDigit(s[0])
    ensures ParseFloat(host, s) != NaN
  {
  }

  /** `parseFloat` of the empty string is NaN. */
  lemma ParseFloatOfEmptyIsNaN(host: Host)
    ensures ParseFloat(host, "") == NaN
  {
    assert TrimStart("") == "";
    assert !StartsInfinity("") && !StartsDecimal("");
  }

  /** Cutting one white-space character from the front does not change the trimmed text. */
  lemma TrimStartSkips(c: char, s: string)
    requires IsStrWhiteSpace(c)
    ensures TrimStart([c] + s) == TrimStart(s)
  {
    assert ([c] + s)[1..] == s;
  }

  /** A leading white-space character (U+00A0 included) is skipped. */
  lemma ParseFloatSkipsWhiteSpace(host: Host, c: char, s: string)
    requires IsStrWhiteSpace(c)
    ensures ParseFloat(host, [c] + s) == ParseFloat(host, s)
  {
    TrimStartSkips(c, s);
  }

  /** U+180E is not white space in ECMAScript: a text starting with it holds no number. */
  lemma ParseFloatStopsAtU180E(host: Host, s: string)
    ensures !IsStrWhiteSpace('\U{180E}')
    ensures ParseFloat(host, ['\U{180E}'] + s) == NaN
  {
    var t := ['\U{180E}'] + s;
    assert t[0] == '\U{180E}';
    assert TrimStart(t) == t;
    assert Unsigned(t) == t;
    if |t| >= 8 {
      assert t[..8][0] == t[0];
    }
  }

  /** A sign followed by "Infinity" gives the infinity of that sign. */
  lemma ParseFloatOfSignedInfinity(host: Host, sign: char, s: string)
    requires sign == '+' || sign == '-'
    ensures ParseFloat(host, [sign] + "Infinity" + s) == Infinity(sign == '-')
  {
    var t := [sign] + "Infinity" + s;
    assert t[0] == sign;
    assert TrimStart(t) == t;
    assert Unsigned(t) == "Infinity" + s;
    assert ("Infinity" + s)[..8] == "Infinity";
  }

  /** A sign followed by "." and a digit is a number. */
  lemma ParseFloatOfSignedFraction(host: Host, sign: char, d: char, s: string)
    requires sign == '+' || sign == '-'
    requires IsDigit(d)
    ensures ParseFloat(host, [sign, '.', d] + s) != NaN
  {
    var t := [sign, '.', d] + s;
    assert t[0] == sign;
    assert TrimStart(t) == t;
    var u := Unsigned(t);
    assert u == t[1..] && u[0] == '.' && u[1] == d;
    if |u| >= 8 {
      assert u[..8][0] == '.';
    }
    assert !StartsInfinity(u) && StartsDecimal(u);
  }

  /** Under a sane `toFixed`, a formatted number reads "NaN" exactly when the number is NaN. */
  lemma ToFixed1IsNaNOnlyForNaN(host: Host, x: JsNumber)
    requires FormatsFinitely(host)
    ensures ToFixed1(host, x) == "NaN" <==> x.NaN?
  {
    if x.Infinity? {
      assert ToFixed1(host, x)[0] != 'N';
    }
  }
}
