/**
 * Python's int(s) for base 10, the value of a string of binary digits
 * (what int(s, 2) gives for such a string), and decimal and binary renderings
 * used to state round trips.
 */
module Integers {
  import opened Outcomes
  import opened Text

  function DigitValue(c: char): nat
    requires IsDigit(c)
  {
    c as int - '0' as int
  }

  function DigitChar(d: nat): (c: char)
    requires d < 10
    ensures IsDigit(c) && DigitValue(c) == d
  {
    ('0' as int + d) as char
  }

  predicate DigitsOrUnderscores(s: string) {
    forall i :: 0 <= i < |s| ==> IsDigit(s[i]) || s[i] == '_'
  }

  /**
   * The digit part Python's int() accepts: digits, with single underscores
   * allowed between two digits ("1_000").
   */
  predicate WellFormedDigits(s: string) {
    && |s| > 0
    && DigitsOrUnderscores(s)
    && IsDigit(s[0])
    && IsDigit(s[|s| - 1])
    && forall i :: 0 <= i < |s| - 1 && s[i] == '_' ==> s[i + 1] != '_'
  }

  /** The base-10 value of a digit string, underscores ignored. */
  function DigitsValue(s: string): nat
    requires DigitsOrUnderscores(s)
  {
    if s == [] then 0
    else if s[|s| - 1] == '_' then DigitsValue(s[..|s| - 1])
    else DigitsValue(s[..|s| - 1]) * 10 + DigitValue(s[|s| - 1])
  }

  /** int(s): optional sign, then the digit part, spaces around it allowed. */
  function Int10(s: string): Result<int> {
    var t := Strip(s);
    if |t| > 0 && (t[0] == '+' || t[0] == '-') then
      if WellFormedDigits(t[1..]) then
        var v: int := DigitsValue(t[1..]);
        Ok(if t[0] == '-' then -v else v)
      else Err(ValueError(NotAnInteger))
    else if WellFormedDigits(t) then Ok(DigitsValue(t))
    else Err(ValueError(NotAnInteger))
  }

  /** The base-2 value of a string of 0s and 1s; the empty string is 0. */
  function BinaryValue(s: string): nat
    requires AllBinary(s)
  {
    if s == [] then 0
    else BinaryValue(s[..|s| - 1]) * 2 + (if s[|s| - 1] == '1' then 1 else 0)
  }

  /** The shortest decimal rendering of n, as str(n) gives it. */
  function Decimal(n: nat): (s: string)
    ensures |s| > 0 && forall i :: 0 <= i < |s| ==> IsDigit(s[i])
    decreases n
  {
    if n < 10 then [DigitChar(n)] else Decimal(n / 10) + [DigitChar(n % 10)]
  }

  /** str(n) for any integer. */
  function Show(n: int): string {
    if n < 0 then "-" + Decimal(-n) else Decimal(n)
  }

  /** The shortest binary rendering of n, as format(n, "b") gives it. */
  function Binary(n: nat): (s: string)
    ensures |s| > 0 && AllBinary(s)
    decreases n
  {
    if n < 2 then [if n == 0 then '0' else '1']
    else Binary(n / 2) + [if n % 2 == 0 then '0' else '1']
  }

  /** Reading a decimal rendering gives the number back. */
  lemma {:induction false} DecimalValue(n: nat)
    ensures WellFormedDigits(Decimal(n)) && DigitsValue(Decimal(n)) == n
    decreases n
  {
    var s := Decimal(n);
    if n >= 10 {
      DecimalValue(n / 10);
      assert s[..|s| - 1] == Decimal(n / 10);
    }
  }

  /** Reading a binary rendering gives the number back. */
  lemma {:induction false} BinaryRoundTrip(n: nat)
    ensures BinaryValue(Binary(n)) == n
    decreases n
  {
    var s := Binary(n);
    if n >= 2 {
      BinaryRoundTrip(n / 2);
      assert s[..|s| - 1] == Binary(n / 2);
    }
  }

  /** k zero characters. */
  function Zeros(k: nat): (s: string)
    ensures |s| == k && AllBinary(s)
  {
    seq(k, _ => '0')
  }

  /** Leading zeros do not change a base-2 reading. */
  lemma {:induction false} LeadingZeros(k: nat, s: string)
    requires AllBinary(s)
    ensures AllBinary(Zeros(k) + s) && BinaryValue(Zeros(k) + s) == BinaryValue(s)
    decreases |s|
  {
    var z := Zeros(k) + s;
    assert AllBinary(z) by {
      assert forall i :: 0 <= i < |z| ==> IsBinaryDigit(z[i]) by {
        forall i | 0 <= i < |z| ensures IsBinaryDigit(z[i]) {
          if i >= k { assert z[i] == s[i - k]; }
        }
      }
    }
    if s == [] {
      assert z == Zeros(k);
      ZerosValue(k);
    } else {
      assert z[..|z| - 1] == Zeros(k) + s[..|s| - 1];
      LeadingZeros(k, s[..|s| - 1]);
    }
  }

  /** A string of zeros reads as 0 in base 2. */
  lemma {:induction false} ZerosValue(k: nat)
    ensures BinaryValue(Zeros(k)) == 0
  {
    if k > 0 {
      assert Zeros(k)[..k - 1] == Zeros(k - 1);
      ZerosValue(k - 1);
    }
  }

  lemma DigitIsNotSpace(c: char)
    requires IsDigit(c)
    ensures !IsSpace(c)
  {
  }

  /** int(str(n)) == n for every integer n. */
  lemma Int10RoundTrip(n: int)
    ensures Int10(Show(n)) == Ok(n)
  {
    var s := Show(n);
    if n < 0 {
      var d := Decimal(-n);
      DecimalValue(-n);
      assert s == "-" + d && s[1..] == d;
      assert s[|s| - 1] == d[|d| - 1];
      DigitIsNotSpace(d[|d| - 1]);
      StripFixedPoint(s);
    } else {
      DecimalValue(n);
      DigitIsNotSpace(s[0]);
      DigitIsNotSpace(s[|s| - 1]);
      StripFixedPoint(s);
    }
  }

  /** int() takes the digits as base 10 even when they are all 0s and 1s. */
  lemma Int10OfTen()
    ensures Int10("10") == Ok(10)
  {
    Int10RoundTrip(10);
    assert Show(10) == "10";
  }

  /** str(n) is made of a sign, digits and underscores only: no "(" and no ",". */
  lemma ShowCharacters(n: int)
    ensures '(' !in Show(n) && ',' !in Show(n)
    ensures Show(n)[0] == '-' || IsDigit(Show(n)[0])
  {
    var s := Show(n);
    if n < 0 {
      assert s[1..] == Decimal(-n);
      assert forall k :: 1 <= k < |s| ==> s[k] == s[1..][k - 1];
    }
    assert forall k :: 0 <= k < |s| ==> s[k] == '-' || IsDigit(s[k]) || s[k] == '_';
  }

  /** str(n) is never empty and has no surrounding spaces. */
  lemma StrippedShow(n: int)
    ensures Show(n) != [] && Stripped(Show(n))
  {
    var s := Show(n);
    if n < 0 {
      assert s[|s| - 1] == Decimal(-n)[|Decimal(-n)| - 1];
      DigitIsNotSpace(s[|s| - 1]);
    } else {
      DigitIsNotSpace(s[0]);
      DigitIsNotSpace(s[|s| - 1]);
    }
  }
}
