/**
 * Rust's `str::parse::<u64>()` (and `parse::<usize>()` on a 64-bit target):
 * an optional leading '+', then one or more decimal digits whose value fits
 * in 64 bits. Digits are consumed left to right; the first character that is
 * not a digit, or the first digit that takes the value past `u64::MAX`,
 * decides the error.
 */
module Decimal {
  import opened Wrappers

  const U64_MAX: int := 0xFFFF_FFFF_FFFF_FFFF

  newtype u64 = x: int | 0 <= x <= U64_MAX

  /** `usize` on the 64-bit targets that have `/proc`. */
  type usize = u64

  /** `std::num::IntErrorKind` as far as an unsigned parse can produce it. */
  datatype ParseIntError = Empty | InvalidDigit | PosOverflow

  predicate IsDigit(c: char) {
    '0' <= c <= '9'
  }

  predicate AllDigits(s: string) {
    forall k :: 0 <= k < |s| ==> IsDigit(s[k])
  }

  function DigitValue(c: char): (d: nat)
    requires IsDigit(c)
    ensures d < 10
  {
    c as int - '0' as int
  }

  function DigitChar(d: nat): (c: char)
    requires d < 10
    ensures IsDigit(c) && DigitValue(c) == d
  {
    ('0' as int + d) as char
  }

  /** A helper for the place values of a digit string: 10 to the power `n`, never 0. */
  function Pow10(n: nat): (p: nat)
    ensures p >= 1
  {
    if n == 0 then 1 else 10 * Pow10(n - 1)
  }

  /** The number a string of decimal digits denotes, most significant digit first. */
  function DecimalValue(s: string): nat
    requires AllDigits(s)
  {
    if s == [] then 0 else DecimalValue(s[..|s| - 1]) * 10 + DigitValue(s[|s| - 1])
  }

  /** What is left to read as digits once a single leading '+' is dropped. */
  function Unsigned(s: string): string {
    if s != [] && s[0] == '+' then s[1..] else s
  }

  /** The strings `u64::from_str` accepts. */
  predicate IsU64Text(s: string) {
    var d := Unsigned(s);
    d != [] && AllDigits(d) && DecimalValue(d) <= U64_MAX
  }

  /** `s.parse::<u64>()`. */
  function ParseU64(s: string): (r: Result<u64, ParseIntError>)
    ensures r.Ok? <==> IsU64Text(s)
    ensures r.Ok? ==> r.value as int == DecimalValue(Unsigned(s))
    ensures s == "" ==> r == Err(Empty)
    ensures var d := Unsigned(s); d != [] && AllDigits(d) && DecimalValue(d) > U64_MAX ==> r == Err(PosOverflow)
  {
    if s == [] then Err(Empty)
    else if |s| == 1 && (s[0] == '+' || s[0] == '-') then Err(InvalidDigit)
    else
      var digits := if s[0] == '+' then s[1..] else s;
      AccumulateValue(digits, 0);
      assert AllDigits(digits) ==> Shifted(0, digits) == DecimalValue(digits);
      Accumulate(digits, 0)
  }

  /** The digit loop of `from_str_radix`, with the value read so far in `acc`. */
  function Accumulate(digits: string, acc: nat): Result<u64, ParseIntError>
    requires acc <= U64_MAX
    decreases |digits|
  {
    if digits == [] then Ok(acc as u64)
    else if !IsDigit(digits[0]) then Err(InvalidDigit)
    else if acc * 10 + DigitValue(digits[0]) > U64_MAX then Err(PosOverflow)
    else Accumulate(digits[1..], acc * 10 + DigitValue(digits[0]))
  }

  /** The leading digit contributes its value times the weight of its position. */
  lemma {:induction false} DecimalValueFront(c: char, s: string)
    requires IsDigit(c) && AllDigits(s)
    ensures AllDigits([c] + s)
    ensures DecimalValue([c] + s) == DigitValue(c) * Pow10(|s|) + DecimalValue(s)
    decreases |s|
  {
    var t := [c] + s;
    assert AllDigits(t) by {
      forall k | 0 <= k < |t| ensures IsDigit(t[k]) {
        if k > 0 { assert t[k] == s[k - 1]; }
      }
    }
    if s != [] {
      var init := s[..|s| - 1];
      var last := s[|s| - 1];
      DecimalValueFront(c, init);
      assert t[..|t| - 1] == [c] + init;
      assert t[|t| - 1] == last;
      assert DecimalValue(t) == DecimalValue([c] + init) * 10 + DigitValue(last);
      assert DecimalValue(s) == DecimalValue(init) * 10 + DigitValue(last);
      assert Pow10(|s|) == 10 * Pow10(|init|);
      Regroup(DigitValue(c), Pow10(|init|), DecimalValue(init), DigitValue(last));
    }
  }

  lemma Regroup(a: nat, p: nat, v: nat, l: nat)
    ensures (a * p + v) * 10 + l == a * (10 * p) + (v * 10 + l)
  {}

  /** The value of `digits` with `acc` already read in front of them. */
  function Shifted(acc: nat, digits: string): nat
    requires AllDigits(digits)
  {
    acc * Pow10(|digits|) + DecimalValue(digits)
  }

  /** Reading one more digit moves it from the string into `acc`; the value
      read so far never exceeds the final one. */
  lemma ShiftDigit(acc: nat, c: char, rest: string)
    requires IsDigit(c) && AllDigits(rest)
    ensures AllDigits([c] + rest)
    ensures Shifted(acc, [c] + rest) == Shifted(acc * 10 + DigitValue(c), rest)
    ensures acc * 10 + DigitValue(c) <= Shifted(acc * 10 + DigitValue(c), rest)
  {
    DecimalValueFront(c, rest);
    var p := Pow10(|rest|);
    var next := acc * 10 + DigitValue(c);
    assert |[c] + rest| == |rest| + 1;
    assert Pow10(|[c] + rest|) == 10 * p;
    Distribute(acc, DigitValue(c), p);
    NoSmallerThanFactor(next, p);
  }

  lemma Distribute(a: nat, d: nat, p: nat)
    ensures a * (10 * p) + d * p == (a * 10 + d) * p
  {}

  lemma NoSmallerThanFactor(x: nat, p: nat)
    requires p >= 1
    ensures x <= x * p
  {}

  /** A non-digit reached while the value read before it still fits stops the loop with `InvalidDigit`. */
  lemma {:induction false} AccumulateInvalidDigit(digits: string, acc: nat, i: nat)
    requires acc <= U64_MAX
    requires i < |digits| && !IsDigit(digits[i])
    requires AllDigits(digits[..i]) && Shifted(acc, digits[..i]) <= U64_MAX
    ensures Accumulate(digits, acc) == Err(InvalidDigit)
    decreases i
  {
    if i > 0 {
      var c, rest := digits[0], digits[1..];
      var front := rest[..i - 1];
      assert digits[..i] == [c] + front;
      assert IsDigit(c) by {
        assert digits[..i][0] == c;
      }
      assert AllDigits(front) by {
        forall k | 0 <= k < |front| ensures IsDigit(front[k]) {
          assert front[k] == digits[..i][k + 1];
        }
      }
      ShiftDigit(acc, c, front);
      AccumulateInvalidDigit(rest, acc * 10 + DigitValue(c), i - 1);
    }
  }

  /** The digit loop succeeds exactly when every character is a digit and the
      whole value, `acc` shifted left past the remaining digits, fits in 64 bits. */
  lemma {:induction false} AccumulateValue(digits: string, acc: nat)
    requires acc <= U64_MAX
    ensures Accumulate(digits, acc).Ok? <==> AllDigits(digits) && Shifted(acc, digits) <= U64_MAX
    ensures Accumulate(digits, acc).Ok? ==> Accumulate(digits, acc).value as int == Shifted(acc, digits)
    ensures AllDigits(digits) && Shifted(acc, digits) > U64_MAX ==> Accumulate(digits, acc) == Err(PosOverflow)
    decreases |digits|
  {
    if digits == [] {
      return;
    }
    var c, rest := digits[0], digits[1..];
    assert digits == [c] + rest;
    if !IsDigit(c) {
      assert !AllDigits(digits);
      return;
    }
    var next := acc * 10 + DigitValue(c);
    assert AllDigits(digits) <==> AllDigits(rest) by {
      if AllDigits(rest) {
        forall k | 0 <= k < |digits| ensures IsDigit(digits[k]) {
          if k > 0 { assert digits[k] == rest[k - 1]; }
        }
      }
    }
    if AllDigits(rest) {
      ShiftDigit(acc, c, rest);
    }
    if next <= U64_MAX {
      AccumulateValue(rest, next);
    }
  }

  /** The digit loop succeeds exactly when every character is a digit and the
      whole value, `acc` shifted left past the remaining digits, fits in 64 bits.
      Otherwise it stops at the first character that is a non-digit or takes
      the value past `u64::MAX`, with `InvalidDigit` or `PosOverflow`. */
  lemma AccumulateSpec(digits: string, acc: nat)
    requires acc <= U64_MAX
    ensures Accumulate(digits, acc).Ok? <==> AllDigits(digits) && Shifted(acc, digits) <= U64_MAX
    ensures Accumulate(digits, acc).Ok? ==> Accumulate(digits, acc).value as int == Shifted(acc, digits)
    ensures AllDigits(digits) && Shifted(acc, digits) > U64_MAX ==> Accumulate(digits, acc) == Err(PosOverflow)
    ensures (exists i :: 0 <= i < |digits| && !IsDigit(digits[i]) &&
               AllDigits(digits[..i]) && Shifted(acc, digits[..i]) <= U64_MAX) ==>
      Accumulate(digits, acc) == Err(InvalidDigit)
  {
    AccumulateValue(digits, acc);
    forall i | 0 <= i < |digits| && !IsDigit(digits[i]) && AllDigits(digits[..i]) && Shifted(acc, digits[..i]) <= U64_MAX
      ensures Accumulate(digits, acc) == Err(InvalidDigit)
    {
      AccumulateInvalidDigit(digits, acc, i);
    }
  }

  /** `n.to_string()` for a non-negative integer. */
  function ToDecimal(n: nat): (r: string)
    ensures r != [] && AllDigits(r) && DecimalValue(r) == n
    ensures r[0] == '0' ==> r == "0"
  {
    if n < 10 then [DigitChar(n)]
    else
      var r := ToDecimal(n / 10) + [DigitChar(n % 10)];
      assert r[..|r| - 1] == ToDecimal(n / 10);
      r
  }

  /** Parsing reads back every value a `u64` can hold from its decimal text. */
  lemma ParseToDecimal(n: u64)
    ensures ParseU64(ToDecimal(n as int)) == Ok(n)
  {
    var s := ToDecimal(n as int);
    assert Unsigned(s) == s;
  }
}
