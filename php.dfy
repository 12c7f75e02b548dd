/**
 * The handful of PHP value semantics that the gateways' decisions rest on:
 * truthiness of strings, `is_numeric`, the numeric value of a numeric string,
 * loose equality `==`, `in_array`, `implode` and character replacement.
 */
module Php {

  datatype Option<+T> = None | Some(value: T)

  /** A PHP string is falsy (and `empty`) exactly when it is "" or "0". */
  predicate Truthy(s: string) {
    s != "" && s != "0"
  }

  predicate IsDigit(c: char) {
    '0' <= c <= '9'
  }

  predicate IsSign(c: char) {
    c == '+' || c == '-'
  }

  /** Length of the longest prefix of `s` made of decimal digits. */
  function DigitPrefix(s: string): (n: nat)
    ensures n <= |s|
  {
    if |s| > 0 && IsDigit(s[0]) then 1 + DigitPrefix(s[1..]) else 0
  }

  /** The string without its leading sign, if any. */
  function Unsigned(s: string): (u: string)
    ensures |u| <= |s|
  {
    if |s| > 0 && IsSign(s[0]) then s[1..] else s
  }

  /**
   * An unsigned decimal literal as `is_numeric` reads it: digits, or digits
   * with one '.' and at least one digit on either side of it ("12", "1.5",
   * ".5" and "5." are numeric; "." is not).
   */
  predicate IsUnsignedDecimal(u: string) {
    var n := DigitPrefix(u);
    (n == |u| && n > 0)
    || (n < |u| && u[n] == '.' && DigitPrefix(u[n + 1..]) == |u| - n - 1 && |u| > 1)
  }

  /** `is_numeric` on a string: an optional sign followed by an unsigned decimal. */
  predicate IsNumeric(s: string) {
    IsUnsignedDecimal(Unsigned(s))
  }

  function DigitValue(c: char): (d: nat)
    ensures d <= 9
  {
    if IsDigit(c) then (c as int) - ('0' as int) else 0
  }

  /** Value of a string of digits read in base ten. */
  function DigitsValue(ds: string): (v: nat)
    decreases |ds|
  {
    if ds == [] then 0 else 10 * DigitsValue(ds[..|ds| - 1]) + DigitValue(ds[|ds| - 1])
  }

  /** Value of the digits after a decimal point: "25" is 0.25. */
  function FractionValue(ds: string): (v: real)
    ensures 0.0 <= v <= 1.0
  {
    if ds == [] then 0.0 else ((DigitValue(ds[0]) as real) + FractionValue(ds[1..])) / 10.0
  }

  /**
   * The number a PHP comparison reads from a string: the decimal value of a
   * numeric string, and 0 for any other string.
   */
  function Num(s: string): real {
    if !IsNumeric(s) then 0.0
    else
      var u := Unsigned(s);
      var n := DigitPrefix(u);
      var whole := DigitsValue(u[..n]) as real;
      var frac := if n < |u| then FractionValue(u[n + 1..]) else 0.0;
      if s[0] == '-' then -(whole + frac) else whole + frac
  }

  /** PHP's `a == b` between two strings: numeric strings compare by value. */
  predicate LooseEq(a: string, b: string) {
    a == b || (IsNumeric(a) && IsNumeric(b) && Num(a) == Num(b))
  }

  lemma LooseEqSymmetric(a: string, b: string)
    ensures LooseEq(a, b) == LooseEq(b, a)
  {
  }

  lemma LooseEqTransitive(a: string, b: string, c: string)
    requires LooseEq(a, b) && LooseEq(b, c)
    ensures LooseEq(a, c)
  {
  }

  /** `in_array($x, $xs)` with its default, loose comparison, walking the array from its end. */
  predicate InArray(x: string, xs: seq<string>)
    decreases |xs|
  {
    |xs| > 0 && (InArray(x, xs[..|xs| - 1]) || LooseEq(x, xs[|xs| - 1]))
  }

  /** `in_array` holds exactly when some element loosely equals the needle. */
  lemma {:induction false} InArrayAt(x: string, xs: seq<string>)
    ensures InArray(x, xs) <==> exists i :: 0 <= i < |xs| && LooseEq(x, xs[i])
    decreases |xs|
  {
    if |xs| > 0 {
      var init := xs[..|xs| - 1];
      InArrayAt(x, init);
      if InArray(x, init) {
        var i :| 0 <= i < |init| && LooseEq(x, init[i]);
        assert xs[i] == init[i];
      }
      if exists i :: 0 <= i < |xs| && LooseEq(x, xs[i]) {
        var i :| 0 <= i < |xs| && LooseEq(x, xs[i]);
        if i < |init| {
          assert init[i] == xs[i];
        }
      }
    }
  }

  /** Appending an element adds exactly the needles loosely equal to it. */
  lemma InArrayAppend(x: string, xs: seq<string>, m: string)
    ensures InArray(x, xs + [m]) <==> InArray(x, xs) || LooseEq(x, m)
  {
    assert (xs + [m])[..|xs|] == xs;
  }

  /** `implode($sep, $xs)`. */
  function Implode(sep: string, xs: seq<string>): string
    decreases |xs|
  {
    if xs == [] then ""
    else if |xs| == 1 then xs[0]
    else Implode(sep, xs[..|xs| - 1]) + sep + xs[|xs| - 1]
  }

  /** `str_replace($from, $to, $s)` for two single characters. */
  function ReplaceChar(s: string, from: char, to: char): (r: string)
    ensures |r| == |s|
    ensures forall i :: 0 <= i < |s| ==> r[i] == (if s[i] == from then to else s[i])
  {
    if s == [] then [] else [if s[0] == from then to else s[0]] + ReplaceChar(s[1..], from, to)
  }
}
