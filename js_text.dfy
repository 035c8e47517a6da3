/** The few JavaScript string operations the components rely on, with the
    semantics of ECMA-262: `String.prototype.slice`, `parseInt` on a decimal
    string and the decimal rendering of a non-negative integer. A JavaScript
    string is modelled as a sequence of characters. */
module JsText {
  import opened Types

  /** How `slice` resolves an index argument against a string of length `len`:
      a negative index counts from the end, and the result is clamped into
      [0, len]. */
  function RelativeIndex(i: int, len: nat): (k: nat)
    ensures k <= len
    ensures 0 <= i <= len ==> k == i
    ensures -(len as int) <= i < 0 ==> k == len + i
    ensures i < -(len as int) ==> k == 0
    ensures i > len ==> k == len
  {
    if i < 0 then (if len + i < 0 then 0 else len + i)
    else if i > len then len
    else i
  }

  /** `s.slice(start, end)`: the characters between the two resolved indices,
      or the empty string when they cross. */
  function Slice(s: string, start: int, end: int): (r: string)
    ensures |r| <= |s|
    ensures RelativeIndex(start, |s|) <= RelativeIndex(end, |s|) ==>
              r == s[RelativeIndex(start, |s|)..RelativeIndex(end, |s|)]
    ensures RelativeIndex(start, |s|) >= RelativeIndex(end, |s|) ==> r == ""
  {
    var from, to := RelativeIndex(start, |s|), RelativeIndex(end, |s|);
    if from < to then s[from..to] else ""
  }

  /** `s.slice(start)`: the end defaults to the length of the string. */
  function SliceFrom(s: string, start: int): (r: string)
    ensures 0 <= start <= |s| ==> r == s[start..]
    ensures -(|s| as int) <= start < 0 ==> r == s[|s| + start..]
    ensures start < -(|s| as int) ==> r == s
    ensures start > |s| ==> r == ""
  {
    Slice(s, start, |s|)
  }

  /** `s.slice(0, n)` for n >= 0 is the first n characters, or all of them. */
  lemma SliceHead(s: string, n: nat)
    ensures Slice(s, 0, n) == s[..Min(n, |s|)]
  {
  }

  /** `s.slice(-n)` for n > 0 is the last n characters, or all of them. */
  lemma SliceTail(s: string, n: nat)
    requires n > 0
    ensures SliceFrom(s, -(n as int)) == s[|s| - Min(n, |s|)..]
  {
  }

  predicate IsDigit(c: char) { '0' <= c <= '9' }

  predicate AllDigits(s: string) { forall i :: 0 <= i < |s| ==> IsDigit(s[i]) }

  function DigitChar(d: nat): (c: char)
    requires d < 10
    ensures IsDigit(c)
  {
    ['0', '1', '2', '3', '4', '5', '6', '7', '8', '9'][d]
  }

  function DigitValue(c: char): (d: nat)
    requires IsDigit(c)
    ensures d < 10 && DigitChar(d) == c
  {
    (c as int - '0' as int) as nat
  }

  /** The longest prefix of `s` made of decimal digits. */
  function LeadingDigits(s: string): (p: string)
    ensures |p| <= |s| && p == s[..|p|]
    ensures AllDigits(p)
    ensures |p| < |s| ==> !IsDigit(s[|p|])
  {
    if |s| == 0 || !IsDigit(s[0]) then ""
    else [s[0]] + LeadingDigits(s[1..])
  }

  /** The number a string of decimal digits denotes, read left to right. */
  function DigitsValue(p: string): (v: nat)
    requires AllDigits(p)
    ensures |p| > 0 ==> v % 10 == DigitValue(p[|p| - 1])
  {
    if |p| == 0 then 0
    else 10 * DigitsValue(p[..|p| - 1]) + DigitValue(p[|p| - 1])
  }

  /** `parseInt(s)` (radix 10) on a string that starts with its digits: the
      value of the leading digits, or NaN (`None`) when there are none. */
  function ParseInt(s: string): (r: Option<nat>)
    ensures r.None? <==> (|s| == 0 || !IsDigit(s[0]))
  {
    var p := LeadingDigits(s);
    if |p| == 0 then None else Some(DigitsValue(p))
  }

  /** `String(n)` for a non-negative integer below 10^21 (from there on
      JavaScript switches to exponent notation): its decimal digits, most
      significant first, without leading zeros. */
  function Decimal(n: nat): (s: string)
    ensures |s| > 0 && AllDigits(s)
    ensures |s| > 1 ==> s[0] != '0'
  {
    if n < 10 then [DigitChar(n)]
    else Decimal(n / 10) + [DigitChar(n % 10)]
  }

  lemma {:induction false} DecimalValue(n: nat)
    ensures DigitsValue(Decimal(n)) == n
  {
    var s := Decimal(n);
    if n >= 10 {
      DecimalValue(n / 10);
      assert s[..|s| - 1] == Decimal(n / 10);
    }
  }

  /** `parseInt(String(n)) === n` for every non-negative integer below 10^21
      that is exact as a JavaScript number, in particular every slider value. */
  lemma ParseDecimal(n: nat)
    ensures ParseInt(Decimal(n)) == Some(n)
  {
    var s := Decimal(n);
    var p := LeadingDigits(s);
    assert p == s;
    DecimalValue(n);
  }
}
