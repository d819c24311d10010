/** JavaScript values and operators that the components rely on, written out
    explicitly: optional values, numbers that may be NaN, truthiness and the
    `||` defaulting idiom, `b ? 1 : 0` flags and ASCII `toLowerCase`. */
module Js {

  /** `undefined`/`null` versus a present value. */
  datatype Option<+T> = None | Some(value: T)

  /** A success value or the validation issue that rejected the input. */
  datatype Result<+T, +E> = Ok(value: T) | Err(error: E)

  /** A JavaScript number as produced by `parseFloat`/`parseInt`: either NaN
      or a finite value.  Infinite values never arise in these components. */
  datatype Num = NaN | Finite(value: real)

  /** Truthiness of a number: `0` and `NaN` are falsy. */
  predicate NumTruthy(n: Num)
  {
    n.Finite? && n.value != 0.0
  }

  /** `n || d` for a number `n` and a numeric default `d`. */
  function NumOr(n: Num, d: real): (r: real)
    ensures NumTruthy(n) ==> r == n.value
    ensures !NumTruthy(n) ==> r == d
  {
    if NumTruthy(n) then n.value else d
  }

  /** `s || d` for a string: the empty string is falsy. */
  function StrOr(s: string, d: string): (r: string)
    ensures s != "" ==> r == s
    ensures s == "" ==> r == d
  {
    if s == "" then d else s
  }

  /** `o || d` for an optional string (`undefined`, `null` and `""` are falsy). */
  function OptStrOr(o: Option<string>, d: string): (r: string)
    ensures o.Some? && o.value != "" ==> r == o.value
    ensures (o.None? || o.value == "") ==> r == d
  {
    if o.Some? && o.value != "" then o.value else d
  }

  /** `s || undefined` for a string. */
  function NonEmpty(s: string): (r: Option<string>)
    ensures r.None? <==> s == ""
    ensures r.Some? ==> r.value == s
  {
    if s == "" then None else Some(s)
  }

  /** `text ? parse(text) : undefined`: an empty input is absent, anything
      else goes through the parser. */
  function ParsedIfPresent(text: string, parse: string -> Num): (o: Option<Num>)
    ensures o.None? <==> text == ""
    ensures o.Some? ==> o.value == parse(text)
  {
    if text == "" then None else Some(parse(text))
  }

  /** A string's `length`: the number of UTF-16 code units, where a
      character beyond the Basic Multilingual Plane takes a surrogate pair. */
  function Utf16Length(s: string): (n: nat)
    ensures |s| <= n <= 2 * |s|
    ensures (forall i :: 0 <= i < |s| ==> s[i] as int < 0x1_0000) ==> n == |s|
  {
    if s == [] then 0
    else (if s[0] as int < 0x1_0000 then 1 else 2) + Utf16Length(s[1..])
  }

  /** The code units of a concatenation are those of its parts. */
  lemma {:induction false} Utf16LengthAppend(a: string, b: string)
    ensures Utf16Length(a + b) == Utf16Length(a) + Utf16Length(b)
  {
    if a == [] {
      assert a + b == b;
    } else {
      assert (a + b)[0] == a[0];
      assert (a + b)[1..] == a[1..] + b;
      Utf16LengthAppend(a[1..], b);
    }
  }

  /** The `b ? 1 : 0` encoding of a boolean. */
  function Bit(b: bool): (r: int)
    ensures r == 0 || r == 1
    ensures r == 1 <==> b
  {
    if b then 1 else 0
  }

  /** `toLowerCase` restricted to ASCII letters. */
  function LowerChar(c: char): (r: char)
    ensures 'A' <= c <= 'Z' ==> 'a' <= r <= 'z' && r as int == c as int + 32
    ensures !('A' <= c <= 'Z') ==> r == c
  {
    if 'A' <= c <= 'Z' then (c as int + 32) as char else c
  }

  function Lower(s: string): (r: string)
    ensures |r| == |s|
    ensures forall i :: 0 <= i < |s| ==> r[i] == LowerChar(s[i])
  {
    if s == [] then [] else [LowerChar(s[0])] + Lower(s[1..])
  }

  /** The decimal digit of a value below ten. */
  function DigitChar(d: int): (c: char)
    requires 0 <= d < 10
    ensures '0' <= c <= '9'
    ensures c as int - '0' as int == d
  {
    ('0' as int + d) as char
  }

  predicate AllDigits(s: string)
  {
    forall i :: 0 <= i < |s| ==> '0' <= s[i] <= '9'
  }

  /** The value of a string of decimal digits, most significant first: the
      reading against which `DecimalText` is checked. */
  function DecimalValue(s: string): (v: nat)
    requires AllDigits(s)
  {
    if s == [] then 0
    else DecimalValue(s[..|s| - 1]) * 10 + (s[|s| - 1] as int - '0' as int)
  }

  /** `String(n)` for a number with no fractional part: the digits of |n|
      with no leading zero, after a minus sign when `n` is negative. */
  function DecimalText(n: int): (r: string)
    ensures |r| >= 1
    ensures n >= 0 ==> AllDigits(r) && DecimalValue(r) == n
    ensures n > 0 ==> r[0] != '0'
    ensures n < 0 ==> r[0] == '-' && AllDigits(r[1..]) && DecimalValue(r[1..]) == -n && r[1] != '0'
    decreases if n < 0 then 1 - n else n
  {
    if n < 0 then
      var t := DecimalText(-n);
      assert ("-" + t)[1..] == t;
      "-" + t
    else if n < 10 then [DigitChar(n)]
    else
      var t := DecimalText(n / 10);
      var r := t + [DigitChar(n % 10)];
      assert r[..|r| - 1] == t;
      r
  }

  /** Different numbers are shown as different text. */
  lemma DecimalTextInjective(m: int, n: int)
    requires DecimalText(m) == DecimalText(n)
    ensures m == n
  {
  }

  /** Lower-casing twice is lower-casing once. */
  lemma LowerIdempotent(s: string)
    ensures Lower(Lower(s)) == Lower(s)
  {
    assert forall i :: 0 <= i < |s| ==> LowerChar(LowerChar(s[i])) == LowerChar(s[i]);
  }
}
