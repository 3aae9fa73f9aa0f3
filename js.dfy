/** The few JavaScript string and number operations the editor plugins rely on,
    with the semantics the language gives them (clamping, swapped bounds,
    negative slice indices, -1 for "not found"). */
module Js {

  datatype Option<+T> = None | Some(value: T)

  // ---------------------------------------------------------------------------
  // String.prototype.indexOf
  // ---------------------------------------------------------------------------

  /** `sub` occurs in `s` at position `k`. */
  predicate OccursAt(s: string, sub: string, k: int)
  {
    0 <= k && k + |sub| <= |s| && s[k..k + |sub|] == sub
  }

  /** `s.indexOf(sub, from)`: the first position at or after `from` where `sub`
      occurs, or -1 when there is none. */
  function IndexOfFrom(s: string, sub: string, from: nat): (r: int)
    decreases |s| - from
    ensures r == -1 || (from <= r && OccursAt(s, sub, r))
    ensures forall k :: from <= k && (r == -1 || k < r) ==> !OccursAt(s, sub, k)
  {
    if from + |sub| > |s| then -1
    else if s[from..from + |sub|] == sub then from
    else IndexOfFrom(s, sub, from + 1)
  }

  /** `s.indexOf(sub)`. */
  function IndexOf(s: string, sub: string): int
  {
    IndexOfFrom(s, sub, 0)
  }

  /** `s.indexOf(p) === 0` is exactly "s starts with p". */
  lemma IndexOfZeroIsPrefix(s: string, p: string)
    ensures IndexOf(s, p) == 0 <==> p <= s
  {
    if p <= s {
      assert OccursAt(s, p, 0);
    }
  }

  /** The first occurrence of a one-character string is the first index holding
      that character. */
  lemma IndexOfChar(s: string, c: char, i: nat)
    requires i < |s| && s[i] == c
    requires forall k :: 0 <= k < i ==> s[k] != c
    ensures IndexOf(s, [c]) == i
  {
    assert OccursAt(s, [c], i);
    forall k | 0 <= k < i ensures !OccursAt(s, [c], k) {
      assert s[k..k + 1][0] == s[k];
    }
  }

  /** What `indexOf` says about a one-character string: the character is at
      the position found, and at no position before it (anywhere, when it is
      not found). */
  lemma IndexOfCharFirst(s: string, c: char)
    ensures IndexOf(s, [c]) >= 0 ==> IndexOf(s, [c]) < |s| && s[IndexOf(s, [c])] == c
    ensures forall i :: 0 <= i < |s| && (IndexOf(s, [c]) == -1 || i < IndexOf(s, [c])) ==> s[i] != c
  {
    var k := IndexOf(s, [c]);
    if k >= 0 {
      assert s[k..k + 1][0] == s[k];
    }
    forall i | 0 <= i < |s| && (k == -1 || i < k) ensures s[i] != c {
      assert !OccursAt(s, [c], i);
      assert s[i..i + 1] == [s[i]];
    }
  }

  // ---------------------------------------------------------------------------
  // String.prototype.substring and String.prototype.slice
  // ---------------------------------------------------------------------------

  function Clamp(i: int, len: nat): (r: nat)
    ensures r <= len
  {
    if i < 0 then 0 else if i > len then len else i
  }

  /** `s.substring(a, b)`: both bounds clamped into [0, |s|], swapped when the
      first exceeds the second. */
  function Substring(s: string, a: int, b: int): (r: string)
    ensures 0 <= a <= b <= |s| ==> r == s[a..b]
    ensures |r| <= |s|
  {
    var x, y := Clamp(a, |s|), Clamp(b, |s|);
    if x <= y then s[x..y] else s[y..x]
  }

  /** A slice bound: negative values count back from the end. */
  function SliceBound(i: int, len: nat): (r: nat)
    ensures r <= len
  {
    if i < 0 then Clamp(len + i, len) else Clamp(i, len)
  }

  /** `s.slice(a, b)`: bounds may be negative; an empty string when they cross. */
  function Slice(s: string, a: int, b: int): (r: string)
    ensures 0 <= a <= b <= |s| ==> r == s[a..b]
  {
    var x, y := SliceBound(a, |s|), SliceBound(b, |s|);
    if x < y then s[x..y] else []
  }

  // ---------------------------------------------------------------------------
  // Decimal digits, isInt, parseInt and number-to-string
  // ---------------------------------------------------------------------------

  /** The largest value `x | 0` leaves unchanged, plus one. */
  const Int32Limit: nat := 0x8000_0000

  predicate IsDigit(c: char)
  {
    '0' <= c <= '9'
  }

  predicate AllDigits(s: string)
  {
    forall i :: 0 <= i < |s| ==> IsDigit(s[i])
  }

  /** The value of a decimal digit (0 for any other character). */
  function DigitValue(c: char): (r: nat)
    ensures r < 10
  {
    if IsDigit(c) then (c as int) - ('0' as int) else 0
  }

  function DigitChar(d: nat): (c: char)
    requires d < 10
    ensures IsDigit(c) && DigitValue(c) == d
  {
    (('0' as int) + d) as char
  }

  /** The value of a string of decimal digits. */
  function DigitsValue(s: string): nat
  {
    if s == [] then 0 else DigitsValue(s[..|s| - 1]) * 10 + DigitValue(s[|s| - 1])
  }

  /** The digits of the next number: the last digit goes up by one, and a
      9 turns into 0 and carries into the digits before it. */
  function Increment(s: string): (r: string)
    requires AllDigits(s)
    ensures |r| > 0 && AllDigits(r)
    ensures DigitsValue(r) == DigitsValue(s) + 1
    ensures |s| == 0 || s[0] != '0' ==> r[0] != '0'
  {
    if s == [] then "1"
    else
      var front, last := s[..|s| - 1], s[|s| - 1];
      if last != '9' then
        var r := front + [DigitChar(DigitValue(last) + 1)];
        assert r[..|r| - 1] == front;
        r
      else
        var r := Increment(front) + "0";
        assert r[..|r| - 1] == Increment(front);
        r
  }

  /** `String(n)` for a natural number: its decimal digits, which read back
      as `n`, with no leading zero (only 0 itself is written "0"). */
  function Decimal(n: nat): (r: string)
    ensures |r| > 0 && AllDigits(r)
    ensures DigitsValue(r) == n
    ensures r == "0" <==> n == 0
    ensures n > 0 ==> r[0] != '0'
  {
    if n == 0 then "0" else Increment(Decimal(n - 1))
  }

  /** `isInt(value)` of the block plugin, on the strings it is given: a
      non-empty run of decimal digits whose value `| 0` keeps unchanged, that
      is, below 2^31. */
  predicate IsInt(s: string)
  {
    |s| > 0 && AllDigits(s) && DigitsValue(s) < Int32Limit
  }

  /** The printed form of a number passes `isInt` exactly when the number is
      below 2^31, where `| 0` keeps it unchanged. */
  lemma IsIntDecimal(n: nat)
    ensures IsInt(Decimal(n)) <==> n < Int32Limit
  {
  }

  /** The end of the run of decimal digits in `s` that starts at `i`. */
  function DigitRunFrom(s: string, i: nat): (n: nat)
    requires i <= |s|
    decreases |s| - i
    ensures i <= n <= |s|
    ensures forall j :: i <= j < n ==> IsDigit(s[j])
    ensures n < |s| ==> !IsDigit(s[n])
  {
    if i < |s| && IsDigit(s[i]) then DigitRunFrom(s, i + 1) else i
  }

  /** The number of decimal digits at the start of `s`. */
  function DigitRun(s: string): (n: nat)
    ensures n <= |s| && AllDigits(s[..n])
    ensures n < |s| ==> !IsDigit(s[n])
  {
    DigitRunFrom(s, 0)
  }

  /** `Number.parseInt(s, 10)`: the value of the leading digits, or None for
      NaN when there are none. */
  function ParseInt(s: string): (r: Option<nat>)
    ensures r.None? <==> (|s| == 0 || !IsDigit(s[0]))
  {
    var n := DigitRun(s);
    if n == 0 then None else Some(DigitsValue(s[..n]))
  }

  /** A digit string is parsed in full. */
  lemma ParseIntDigits(s: string)
    requires |s| > 0 && AllDigits(s)
    ensures ParseInt(s) == Some(DigitsValue(s))
  {
    assert s[..|s|] == s;
  }

  /** The text a number takes in a template literal; NaN prints as "NaN". */
  function NumberText(v: Option<nat>): string
  {
    match v
    case None => "NaN"
    case Some(n) => Decimal(n)
  }
}
