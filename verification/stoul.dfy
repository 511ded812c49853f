/**
 * `std::stoul(s)` with base 10 on an LP64 host, where `unsigned long` is 64 bits wide:
 * it calls `strtoul`, which skips leading white space (C locale), accepts one optional
 * sign and then the longest run of decimal digits; characters after the digits are
 * ignored. No digit at all throws `invalid_argument`; a magnitude above ULONG_MAX
 * throws `out_of_range`; a leading `-` negates the magnitude modulo 2^64.
 */
module NumberParsing {

  const ULONG_LIMIT: nat := 0x1_0000_0000_0000_0000

  /** `isspace` in the C locale: space, \t, \n, \v, \f, \r. */
  predicate IsSpace(c: char) {
    c == ' ' || c == '\t' || c == '\n' || c == '\r' || c as int == 11 || c as int == 12
  }

  predicate IsDigit(c: char) {
    '0' <= c <= '9'
  }

  predicate AllDigits(d: string) {
    forall i :: 0 <= i < |d| ==> IsDigit(d[i])
  }

  function DigitValue(c: char): (v: nat)
    requires IsDigit(c)
    ensures v < 10
  {
    c as int - '0' as int
  }

  function DigitChar(v: nat): (c: char)
    requires v < 10
    ensures IsDigit(c) && DigitValue(c) == v
  {
    ('0' as int + v) as char
  }

  /** The number of leading white-space characters of `s`. */
  function SpaceCount(s: string): (n: nat)
    ensures n <= |s|
    ensures n == |s| || !IsSpace(s[n])
  {
    if |s| == 0 then 0 else if IsSpace(s[0]) then 1 + SpaceCount(s[1..]) else 0
  }

  /** Only white space is skipped. */
  lemma {:induction false} SpaceCountSkipsSpaces(s: string)
    ensures forall i :: 0 <= i < SpaceCount(s) ==> IsSpace(s[i])
  {
    if |s| > 0 && IsSpace(s[0]) {
      SpaceCountSkipsSpaces(s[1..]);
      assert forall i :: 1 <= i < SpaceCount(s) ==> s[i] == s[1..][i - 1];
    }
  }

  /** The number of decimal digits `s` starts with. */
  function DigitCount(s: string): (n: nat)
    ensures n <= |s|
    ensures n == |s| || !IsDigit(s[n])
  {
    if |s| == 0 then 0 else if IsDigit(s[0]) then 1 + DigitCount(s[1..]) else 0
  }

  /** What is counted are digits. */
  lemma {:induction false} DigitCountCountsDigits(s: string)
    ensures AllDigits(s[..DigitCount(s)])
  {
    if |s| > 0 && IsDigit(s[0]) {
      DigitCountCountsDigits(s[1..]);
      assert forall i :: 1 <= i < DigitCount(s) ==> s[i] == s[1..][i - 1];
    }
  }

  /** A digit run is counted to its end. */
  lemma {:induction false} DigitCountOfDigits(d: string, rest: string)
    requires AllDigits(d)
    requires rest == [] || !IsDigit(rest[0])
    ensures DigitCount(d + rest) == |d|
  {
    if |d| == 0 {
      assert d + rest == rest;
    } else {
      assert (d + rest)[1..] == d[1..] + rest;
      DigitCountOfDigits(d[1..], rest);
    }
  }

  /** The number a string of decimal digits denotes, most significant digit first. */
  function DecimalValue(d: string): nat
    requires AllDigits(d)
  {
    if |d| == 0 then 0 else DecimalValue(d[..|d| - 1]) * 10 + DigitValue(d[|d| - 1])
  }

  /** The shortest decimal spelling of `n`: the partner of DecimalValue. */
  function Decimal(n: nat): (d: string)
    ensures |d| > 0 && AllDigits(d)
  {
    if n < 10 then [DigitChar(n)] else Decimal(n / 10) + [DigitChar(n % 10)]
  }

  datatype Conversion = Converted(value: nat) | InvalidArgument | OutOfRange

  function Stoul(s: string): (r: Conversion)
    ensures r.Converted? ==> r.value < ULONG_LIMIT
  {
    var t := s[SpaceCount(s)..];
    var negative := |t| > 0 && t[0] == '-';
    var u := if |t| > 0 && (t[0] == '+' || t[0] == '-') then t[1..] else t;
    var d := u[..DigitCount(u)];
    DigitCountCountsDigits(u);
    if |d| == 0 then InvalidArgument
    else if DecimalValue(d) >= ULONG_LIMIT then OutOfRange
    else if negative then Converted(if DecimalValue(d) == 0 then 0 else ULONG_LIMIT - DecimalValue(d))
    else Converted(DecimalValue(d))
  }

  /** Decimal and DecimalValue are inverse: printing a number and reading it back gives it. */
  lemma {:induction false} DecimalRoundTrip(n: nat)
    ensures DecimalValue(Decimal(n)) == n
  {
    if n >= 10 {
      var d := Decimal(n / 10) + [DigitChar(n % 10)];
      assert d[..|d| - 1] == Decimal(n / 10);
      DecimalRoundTrip(n / 10);
    }
  }

  /** A token made only of digits converts to the number it spells, or is out of range. */
  lemma {:induction false} StoulOfDigits(d: string)
    requires |d| > 0 && AllDigits(d)
    ensures Stoul(d) == if DecimalValue(d) < ULONG_LIMIT then Converted(DecimalValue(d)) else OutOfRange
  {
    assert SpaceCount(d) == 0 by {
      SpaceCountSkipsSpaces(d);
      assert !IsSpace(d[0]);
    }
    assert d[0..] == d;
    DigitCountOfDigits(d, []);
    assert d + [] == d;
    assert d[..|d|] == d;
  }

  /** Characters after the digits are ignored: `12abc` reads as 12. */
  lemma {:induction false} StoulIgnoresTrailing(d: string, junk: string)
    requires |d| > 0 && AllDigits(d)
    requires junk == [] || !IsDigit(junk[0])
    ensures Stoul(d + junk) == Stoul(d)
  {
    var s := d + junk;
    assert SpaceCount(s) == 0 by {
      SpaceCountSkipsSpaces(s);
      assert !IsSpace(s[0]);
    }
    assert s[0..] == s;
    DigitCountOfDigits(d, junk);
    assert s[..|d|] == d;
    StoulOfDigits(d);
  }

  /** A token with no digit in it throws `invalid_argument`. */
  lemma {:induction false} StoulWithoutDigits(s: string)
    requires forall i :: 0 <= i < |s| ==> !IsDigit(s[i])
    ensures Stoul(s) == InvalidArgument
  {
  }

  /** A leading minus sign negates the magnitude modulo 2^64 instead of failing. */
  lemma {:induction false} StoulNegative(d: string)
    requires |d| > 0 && AllDigits(d)
    requires 0 < DecimalValue(d) < ULONG_LIMIT
    ensures Stoul("-" + d) == Converted(ULONG_LIMIT - DecimalValue(d))
  {
    var s := "-" + d;
    assert SpaceCount(s) == 0 by {
      SpaceCountSkipsSpaces(s);
      assert !IsSpace(s[0]);
    }
    assert s[0..] == s;
    assert s[1..] == d;
    DigitCountOfDigits(d, []);
    assert d + [] == d;
    assert d[..|d|] == d;
  }
}
