/**
 * Decimal text of 64-bit unsigned integers, as the emote codec uses it:
 * `ulong.TryParse(s, NumberStyles.None, CultureInfo.InvariantCulture, out v)`
 * on the way in and `ulong.ToString()` on the way out.
 */
module Numerals {
  import opened Wrappers

  /** One more than `ulong.MaxValue`, i.e. 2^64. */
  const ULONG_LIMIT: nat := 0x1_0000_0000_0000_0000

  /** A value of the .NET type `ulong`. */
  type ULong = x: int | 0 <= x < ULONG_LIMIT

  predicate IsDigit(c: char) {
    '0' <= c <= '9'
  }

  predicate AllDigits(s: seq<char>) {
    forall i :: 0 <= i < |s| ==> IsDigit(s[i])
  }

  function DigitValue(c: char): (d: nat)
    requires IsDigit(c)
    ensures d < 10
  {
    c as int - '0' as int
  }

  function DigitChar(d: nat): (c: char)
    requires d < 10
    ensures IsDigit(c) && DigitValue(c) == d
  {
    ('0' as int + d) as char
  }

  /** The number a string of decimal digits denotes, most significant digit first. */
  function Value(s: seq<char>): nat
    requires AllDigits(s)
  {
    if s == [] then 0 else Value(s[..|s| - 1]) * 10 + DigitValue(s[|s| - 1])
  }

  /** Appending a digit multiplies the value by ten and adds the digit. */
  lemma ValueSnoc(p: seq<char>, c: char)
    requires AllDigits(p) && IsDigit(c)
    ensures AllDigits(p + [c]) && Value(p + [c]) == Value(p) * 10 + DigitValue(c)
  {
    assert (p + [c])[..|p|] == p;
  }

  /**
   * The strings `ulong.TryParse` accepts under `NumberStyles.None`: a non-empty
   * run of ASCII digits (no sign, no white space, no group separators) whose
   * value fits in 64 bits. Leading zeros are allowed.
   */
  predicate IsULongNumeral(s: seq<char>) {
    |s| > 0 && AllDigits(s) && Value(s) < ULONG_LIMIT
  }

  /** A numeral without superfluous leading zeros, as `ulong.ToString()` writes it. */
  predicate IsCanonical(s: seq<char>) {
    |s| > 0 && AllDigits(s) && (s[0] != '0' || |s| == 1)
  }

  /**
   * `ulong.TryParse(s, NumberStyles.None, ...)`: digits are folded in from the
   * left and the parse fails on the first non-digit or as soon as the running
   * value leaves the 64-bit range; the empty string fails.
   */
  function TryParseULong(s: seq<char>): (r: Option<ULong>)
    ensures r.Some? <==> IsULongNumeral(s)
    ensures r.Some? ==> r.value == Value(s)
  {
    if |s| == 0 then None else Accumulate(s, 0, 0)
  }

  /** The digit loop of `TryParseULong`: `acc` is the value of `s[..i]`. */
  function Accumulate(s: seq<char>, i: nat, acc: ULong): (r: Option<ULong>)
    requires i <= |s| && AllDigits(s[..i]) && acc == Value(s[..i])
    ensures r.Some? <==> AllDigits(s) && Value(s) < ULONG_LIMIT
    ensures r.Some? ==> r.value == Value(s)
    decreases |s| - i
  {
    if i == |s| then
      assert s[..i] == s;
      Some(acc)
    else if !IsDigit(s[i]) then
      None
    else
      assert s[..i + 1][..i] == s[..i];
      var next := acc * 10 + DigitValue(s[i]);
      if next >= ULONG_LIMIT then
        PrefixValueBound(s, i + 1);
        None
      else
        Accumulate(s, i + 1, next)
  }

  /** A prefix of a numeral never denotes more than the whole numeral. */
  lemma {:induction false} PrefixValueBound(s: seq<char>, j: nat)
    requires j <= |s|
    ensures AllDigits(s) ==> Value(s[..j]) <= Value(s)
    decreases |s|
  {
    if AllDigits(s) && j < |s| {
      var p := s[..|s| - 1];
      assert p[..j] == s[..j];
      PrefixValueBound(p, j);
    } else if j == |s| {
      assert s[..j] == s;
    }
  }

  /** `ulong.ToString()`: the shortest decimal numeral of `n`. */
  function ULongToString(n: nat): (s: seq<char>)
    ensures IsCanonical(s)
  {
    if n < 10 then [DigitChar(n)] else ULongToString(n / 10) + [DigitChar(n % 10)]
  }

  /** Reading back what `ULongToString` wrote yields the number. */
  lemma {:induction false} ValueOfULongToString(n: nat)
    ensures Value(ULongToString(n)) == n
  {
    var s := ULongToString(n);
    if n >= 10 {
      ValueOfULongToString(n / 10);
      assert s[..|s| - 1] == ULongToString(n / 10);
    }
  }

  /** Every number below 2^64 prints as a numeral `TryParseULong` accepts, with the same value. */
  lemma ParsePrintedULong(n: ULong)
    ensures TryParseULong(ULongToString(n)) == Some(n)
  {
    ValueOfULongToString(n);
  }

  /** A numeral with a non-zero leading digit denotes a positive number. */
  lemma {:induction false} LeadingNonZeroPositive(s: seq<char>)
    requires |s| > 0 && AllDigits(s) && s[0] != '0'
    ensures Value(s) > 0
    decreases |s|
  {
    if |s| > 1 {
      var p := s[..|s| - 1];
      LeadingNonZeroPositive(p);
    }
  }

  /** Printing the value of a canonical numeral gives back the numeral itself. */
  lemma {:induction false} ULongToStringOfValue(s: seq<char>)
    requires IsCanonical(s)
    ensures ULongToString(Value(s)) == s
    decreases |s|
  {
    if |s| > 1 {
      var p := s[..|s| - 1];
      LeadingNonZeroPositive(p);
      ULongToStringOfValue(p);
      assert s == p + [s[|s| - 1]];
    }
  }
}
