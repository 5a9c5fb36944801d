/**
 * The fragments of JavaScript value semantics that the storefront components lean on:
 * truthiness of numbers and strings, the `||` fallback operator, how an `undefined` value is
 * rendered by a template literal and by JSX, how an integer is turned into text, and the
 * `String.prototype.split` / `Array.prototype.pop` / `Array.prototype.join` trio.
 *
 * A JavaScript `undefined` is `None`. Numbers are integers or reals here, so `NaN` does not
 * exist in this model.
 */
module JsValues {
  import opened Wrappers

  // ---------------------------------------------------------------------------------------
  // Truthiness and `||`
  // ---------------------------------------------------------------------------------------

  /** `!!x` for an optional number: `undefined` and `0` are falsy, every other number truthy. */
  predicate TruthyInt(x: Option<int>) {
    x.Some? && x.value != 0
  }

  /** `!!x` for an optional real-valued number. */
  predicate TruthyReal(x: Option<real>) {
    x.Some? && x.value != 0.0
  }

  /** `!!x` for an optional string: `undefined` and `""` are falsy. */
  predicate TruthyString(x: Option<string>) {
    x.Some? && x.value != ""
  }

  /** `x || fallback` for an optional number. */
  function OrInt(x: Option<int>, fallback: int): (r: int)
    ensures TruthyInt(x) ==> r == x.value
    ensures !TruthyInt(x) ==> r == fallback
  {
    if TruthyInt(x) then x.value else fallback
  }

  /** `x || fallback` for an optional string. */
  function OrString(x: Option<string>, fallback: string): (r: string)
    ensures TruthyString(x) ==> r == x.value
    ensures !TruthyString(x) ==> r == fallback
  {
    if TruthyString(x) then x.value else fallback
  }

  /** `x || y` where both sides are optional strings: the right side is returned as it is. */
  function OrOptString(x: Option<string>, y: Option<string>): (r: Option<string>)
    ensures TruthyString(x) ==> r == x
    ensures !TruthyString(x) ==> r == y
  {
    if TruthyString(x) then x else y
  }

  /** `x || 0` never loses a quantity: an absent number gives 0 and every present one itself. */
  lemma OrZeroIsValueOrZero(x: Option<int>)
    ensures OrInt(x, 0) == x.GetOr(0)
  {
  }

  // ---------------------------------------------------------------------------------------
  // Rendering of possibly-undefined values
  // ---------------------------------------------------------------------------------------

  /** A string placed as a JSX child: `undefined` renders as nothing. */
  function JsxText(x: Option<string>): (r: string)
    ensures x.Some? ==> r == x.value
    ensures x.None? ==> r == ""
  {
    x.GetOr("")
  }

  /** A string interpolated in a template literal: `undefined` becomes the text "undefined". */
  function TemplateText(x: Option<string>): (r: string)
    ensures x.Some? ==> r == x.value
    ensures x.None? ==> r == "undefined"
  {
    x.GetOr("undefined")
  }

  /** An optional integer placed as a JSX child. */
  function JsxNumber(x: Option<int>): (r: string)
    ensures x.None? ==> r == ""
    ensures x.Some? ==> r == NumberText(x.value)
  {
    match x
    case None => ""
    case Some(n) => NumberText(n)
  }

  // ---------------------------------------------------------------------------------------
  // Decimal text of an integer
  // ---------------------------------------------------------------------------------------

  predicate IsDigit(c: char) {
    '0' <= c <= '9'
  }

  predicate AllDigits(s: string) {
    forall i :: 0 <= i < |s| ==> IsDigit(s[i])
  }

  function DigitChar(d: nat): (c: char)
    requires d < 10
    ensures IsDigit(c)
  {
    ['0', '1', '2', '3', '4', '5', '6', '7', '8', '9'][d]
  }

  function DigitValue(c: char): (d: nat)
    requires IsDigit(c)
    ensures d < 10
  {
    (c as int - '0' as int) as nat
  }

  /** The digits of a natural number, most significant first, without leading zeros. */
  function NatText(n: nat): (s: string)
    ensures 1 <= |s|
    ensures AllDigits(s)
    ensures |s| == 1 <==> n < 10
    decreases n
  {
    if n < 10 then [DigitChar(n)] else NatText(n / 10) + [DigitChar(n % 10)]
  }

  /** How JavaScript renders an integral number (of magnitude below 10^21) as text. */
  function NumberText(n: int): (s: string)
    ensures n < 0 <==> (|s| > 0 && s[0] == '-')
  {
    if n < 0 then "-" + NatText(-n) else NatText(n)
  }

  /** The number a string of decimal digits denotes: the reading side of `NatText`. */
  function DigitsValue(s: string): nat
    requires AllDigits(s)
  {
    if s == [] then 0 else DigitsValue(s[..|s| - 1]) * 10 + DigitValue(s[|s| - 1])
  }

  lemma DigitCharValue(d: nat)
    requires d < 10
    ensures DigitValue(DigitChar(d)) == d
  {
  }

  /** Reading back the text of a natural number gives that number. */
  lemma {:induction false} NatTextRoundTrip(n: nat)
    ensures DigitsValue(NatText(n)) == n
    decreases n
  {
    var s := NatText(n);
    if n < 10 {
      DigitCharValue(n);
    } else {
      NatTextRoundTrip(n / 10);
      DigitCharValue(n % 10);
      assert s[..|s| - 1] == NatText(n / 10);
    }
  }

  /** Different natural numbers have different texts. */
  lemma NatTextInjective(m: nat, n: nat)
    requires NatText(m) == NatText(n)
    ensures m == n
  {
    NatTextRoundTrip(m);
    NatTextRoundTrip(n);
  }

  // ---------------------------------------------------------------------------------------
  // split / pop / join
  // ---------------------------------------------------------------------------------------

  /** `parts.join(sep)`. */
  function Join(parts: seq<string>, sep: string): (r: string)
    decreases |parts|
  {
    if parts == [] then ""
    else if |parts| == 1 then parts[0]
    else parts[0] + sep + Join(parts[1..], sep)
  }

  /** Total length of the parts, separators not counted. */
  function TotalLength(parts: seq<string>): nat
  {
    if parts == [] then 0 else |parts[0]| + TotalLength(parts[1..])
  }

  /** Joining `n >= 1` parts inserts exactly `n - 1` separators and keeps every part. */
  lemma {:induction false} JoinLength(parts: seq<string>, sep: string)
    requires |parts| >= 1
    ensures |Join(parts, sep)| == TotalLength(parts) + (|parts| - 1) * |sep|
    decreases |parts|
  {
    if |parts| > 1 {
      JoinLength(parts[1..], sep);
    }
  }

  /** Appending a part appends one separator and that part, leaving the earlier text alone. */
  lemma {:induction false} JoinSnoc(parts: seq<string>, last: string, sep: string)
    requires |parts| >= 1
    ensures Join(parts + [last], sep) == Join(parts, sep) + sep + last
    decreases |parts|
  {
    if |parts| == 1 {
      assert (parts + [last])[1..] == [last];
    } else {
      assert (parts + [last])[1..] == parts[1..] + [last];
      JoinSnoc(parts[1..], last, sep);
    }
  }

  /** `s.split(sep)` for a one-character separator: never empty, and no part holds the separator. */
  function Split(s: string, sep: char): (parts: seq<string>)
    ensures |parts| >= 1
    ensures forall i :: 0 <= i < |parts| ==> sep !in parts[i]
    decreases |s|
  {
    if s == [] then [""]
    else
      var rest := Split(s[1..], sep);
      if s[0] == sep then [""] + rest
      else [[s[0]] + rest[0]] + rest[1..]
  }

  /**
   * The last part of a split is a suffix of the text that is either the whole text (when the
   * split gives one part) or directly preceded by a separator.
   */
  lemma {:induction false} SplitLast(s: string, sep: char)
    ensures var parts := Split(s, sep);
      var last := parts[|parts| - 1];
      && |last| <= |s|
      && last == s[|s| - |last|..]
      && (|parts| == 1 <==> last == s)
      && (|parts| > 1 ==> s[|s| - |last| - 1] == sep)
    decreases |s|
  {
    if s != [] {
      var rest := Split(s[1..], sep);
      var last := rest[|rest| - 1];
      SplitLast(s[1..], sep);
      var parts := Split(s, sep);
      assert parts[|parts| - 1] == (if s[0] != sep && |rest| == 1 then [s[0]] + rest[0] else last);
      assert s[1..][|s[1..]| - |last|..] == s[|s| - |last|..];
      if s[0] == sep {
        assert |parts| > 1;
        assert last != s by { assert sep !in last; assert s[0] in s; }
      } else if |rest| == 1 {
        assert [s[0]] + s[1..] == s;
      } else {
        assert |parts| > 1;
        assert last != s by { assert |last| < |s|; }
      }
    }
  }

  /** Splitting and joining back with the same separator gives the original string. */
  lemma {:induction false} SplitJoin(s: string, sep: char)
    ensures Join(Split(s, sep), [sep]) == s
    decreases |s|
  {
    if s != [] {
      var rest := Split(s[1..], sep);
      SplitJoin(s[1..], sep);
      if s[0] == sep {
        assert ([""] + rest)[1..] == rest;
      } else {
        var parts := [[s[0]] + rest[0]] + rest[1..];
        if |rest| == 1 {
          assert rest[0] == s[1..];
          assert [s[0]] + s[1..] == s;
        } else {
          assert parts[1..] == rest[1..];
          assert Join(rest, [sep]) == rest[0] + [sep] + Join(rest[1..], [sep]);
        }
      }
    }
  }

  /** `s.split(sep).pop()`: the last part, which exists because a split is never empty. */
  function LastSegment(s: string, sep: char): (r: string)
  {
    var parts := Split(s, sep);
    parts[|parts| - 1]
  }
}
