/**
 Overflow-checked number parsing and the hexadecimal printing it inverts
 (crates/h11r/src/wire.rs `parse_number`, the `{length:x}` of chunk sizes).
 */
module Numbers {
  import opened Prelude
  import opened Bytes

  /** The largest `usize`, for a 64-bit target. */
  const USIZE_MAX: nat := 0xFFFF_FFFF_FFFF_FFFF

  /** `char::to_digit`: the value of one digit, if it is one in this radix. */
  function ToDigit(b: byte, radix: nat): Option<nat> {
    var value :=
      if '0' <= b <= '9' then b as int - '0' as int
      else if 'a' <= b <= 'z' then b as int - 'a' as int + 10
      else if 'A' <= b <= 'Z' then b as int - 'A' as int + 10
      else radix;
    if value < radix then Some(value) else None
  }

  /** The fold over the digits: multiply, then add, failing on overflow. */
  function CheckedFold(number: nat, digits: bytes, radix: nat): Option<nat>
    decreases |digits|
  {
    if digits == [] then Some(number)
    else if number * radix > USIZE_MAX then None
    else
      match ToDigit(digits[0], radix)
      case None => None
      case Some(digit) =>
        if number * radix + digit > USIZE_MAX then None
        else CheckedFold(number * radix + digit, digits[1..], radix)
  }

  function ParseNumber(digits: bytes, radix: nat): Option<nat> {
    if digits == [] then None else CheckedFold(0, digits, radix)
  }

  // ------------------------------------------------------------------
  // The number a digit string denotes
  // ------------------------------------------------------------------

  predicate AllDigits(digits: bytes, radix: nat) {
    forall i :: 0 <= i < |digits| ==> ToDigit(digits[i], radix).Some?
  }

  /** Positional value: the last digit counts once, the ones before it radix times. */
  function Value(digits: bytes, radix: nat): nat
    requires AllDigits(digits, radix)
    decreases |digits|
  {
    if digits == [] then 0
    else Value(digits[..|digits| - 1], radix) * radix + ToDigit(digits[|digits| - 1], radix).value
  }

  /** The same number accumulated from the front, as the fold does, without a bound. */
  function Accumulate(number: nat, digits: bytes, radix: nat): nat
    requires AllDigits(digits, radix)
    decreases |digits|
  {
    if digits == [] then number
    else Accumulate(number * radix + ToDigit(digits[0], radix).value, digits[1..], radix)
  }

  lemma {:induction false} AccumulateLast(number: nat, digits: bytes, radix: nat)
    requires digits != [] && AllDigits(digits, radix)
    ensures Accumulate(number, digits, radix)
         == Accumulate(number, digits[..|digits| - 1], radix) * radix + ToDigit(digits[|digits| - 1], radix).value
    decreases |digits|
  {
    hide ToDigit;
    if |digits| > 1 {
      assert digits[..|digits| - 1][1..] == digits[1..][..|digits| - 2];
      AccumulateLast(number * radix + ToDigit(digits[0], radix).value, digits[1..], radix);
    }
  }

  lemma {:induction false} AccumulateIsValue(digits: bytes, radix: nat)
    requires AllDigits(digits, radix)
    ensures Accumulate(0, digits, radix) == Value(digits, radix)
    decreases |digits|
  {
    if digits != [] {
      AccumulateIsValue(digits[..|digits| - 1], radix);
      AccumulateLast(0, digits, radix);
    }
  }

  lemma TimesRadix(number: nat, radix: nat)
    requires radix > 0
    ensures number * radix >= number
  {
  }

  lemma {:induction false} AccumulateGrows(number: nat, digits: bytes, radix: nat)
    requires radix > 0 && AllDigits(digits, radix)
    ensures Accumulate(number, digits, radix) >= number
    decreases |digits|
  {
    if digits != [] {
      TimesRadix(number, radix);
      AccumulateGrows(number * radix + ToDigit(digits[0], radix).value, digits[1..], radix);
    }
  }

  /** The checked fold succeeds exactly when the whole number fits. */
  lemma {:induction false} CheckedFoldExact(number: nat, digits: bytes, radix: nat)
    requires radix > 0 && number <= USIZE_MAX
    ensures CheckedFold(number, digits, radix)
         == if AllDigits(digits, radix) && Accumulate(number, digits, radix) <= USIZE_MAX
            then Some(Accumulate(number, digits, radix)) else None
    decreases |digits|
  {
    hide ToDigit;
    if digits != [] && ToDigit(digits[0], radix).Some? {
      var next := number * radix + ToDigit(digits[0], radix).value;
      assert AllDigits(digits[1..], radix) ==> AllDigits(digits, radix) by {
        assert forall i :: 0 < i < |digits| ==> digits[i] == digits[1..][i - 1];
      }
      if AllDigits(digits, radix) {
        AccumulateGrows(next, digits[1..], radix);
      }
      if next <= USIZE_MAX {
        CheckedFoldExact(next, digits[1..], radix);
      }
    }
  }

  /** Parsing returns `n` exactly for the non-empty digit strings that denote
      `n`, and for no number that does not fit in a `usize`. */
  lemma ParseNumberExact(digits: bytes, radix: nat)
    requires radix > 0
    ensures ParseNumber(digits, radix)
         == if digits != [] && AllDigits(digits, radix) && Value(digits, radix) <= USIZE_MAX
            then Some(Value(digits, radix)) else None
  {
    CheckedFoldExact(0, digits, radix);
    if AllDigits(digits, radix) {
      AccumulateIsValue(digits, radix);
    }
  }

  // ------------------------------------------------------------------
  // Printing
  // ------------------------------------------------------------------

  function DigitByte(digit: nat): byte
    requires digit < 16
  {
    if digit < 10 then '0' + digit as char else 'a' + (digit - 10) as char
  }

  function Print(n: nat, radix: nat): (digits: bytes)
    requires 2 <= radix <= 16
  {
    if n < radix then [DigitByte(n)]
    else Print(n / radix, radix) + [DigitByte(n % radix)]
  }

  function Hex(n: nat): bytes {
    Print(n, 16)
  }

  lemma DigitRoundTrip(d: nat, radix: nat)
    requires d < radix <= 16
    ensures ToDigit(DigitByte(d), radix) == Some(d)
  {
  }

  lemma {:induction false} PrintDenotes(n: nat, radix: nat)
    requires 2 <= radix <= 16
    ensures Print(n, radix) != [] && AllDigits(Print(n, radix), radix)
    ensures Value(Print(n, radix), radix) == n
  {
    hide *;
    PrintIs(n, radix);
    if n < radix {
      DigitRoundTrip(n, radix);
      NoDigits(radix);
      ValueSnoc([], DigitByte(n), radix, n);
      assert [] + [DigitByte(n)] == [DigitByte(n)];
      assert 0 * radix + n == n;
    } else {
      DigitRoundTrip(n % radix, radix);
      PrintDenotes(n / radix, radix);
      ValueSnoc(Print(n / radix, radix), DigitByte(n % radix), radix, n % radix);
      QuotientTimes(n, radix);
    }
  }

  lemma PrintIs(n: nat, radix: nat)
    requires 2 <= radix <= 16
    ensures Print(n, radix) == if n < radix then [DigitByte(n)] else Print(n / radix, radix) + [DigitByte(n % radix)]
  {
  }

  lemma NoDigits(radix: nat)
    ensures AllDigits([], radix) && Value([], radix) == 0
  {
  }

  /** A digit behind others. */
  lemma ValueSnoc(digits: bytes, last: byte, radix: nat, d: nat)
    requires AllDigits(digits, radix) && ToDigit(last, radix) == Some(d)
    ensures AllDigits(digits + [last], radix)
    ensures Value(digits + [last], radix) == Value(digits, radix) * radix + d
  {
    hide ToDigit;
    assert (digits + [last])[..|digits|] == digits;
  }

  lemma QuotientTimes(n: nat, radix: nat)
    requires radix > 0
    ensures (n / radix) * radix + n % radix == n
  {
  }

  /** Round trip: every number a `usize` can hold is read back as printed. */
  lemma PrintThenParse(n: nat, radix: nat)
    requires 2 <= radix <= 16
    ensures ParseNumber(Print(n, radix), radix) == if n <= USIZE_MAX then Some(n) else None
  {
    PrintDenotes(n, radix);
    ParseNumberExact(Print(n, radix), radix);
  }

  lemma {:induction false} HexDigitsOnly(n: nat)
    ensures Hex(n) != [] && forall b <- Hex(n) :: IsHexDigit(b)
  {
    assert forall d: nat | d < 16 :: IsHexDigit(DigitByte(d));
    if n >= 16 {
      HexDigitsOnly(n / 16);
    }
  }
}
