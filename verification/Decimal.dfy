/** Decimal text as `fmt.Sprintf("%d")` prints it and `fmt.Sscanf("%d")` reads it back. */
module Decimal {
  import opened Options

  const MAX_INT64: int := 0x7FFF_FFFF_FFFF_FFFF

  function Digit(d: nat): char
    requires d < 10
  {
    '0' + d as char
  }

  predicate IsDigit(c: char) {
    '0' <= c <= '9'
  }

  function Print(n: nat): string {
    if n < 10 then [Digit(n)] else Print(n / 10) + [Digit(n % 10)]
  }

  function PrintInt(n: int): string {
    if n < 0 then "-" + Print(-n) else Print(n)
  }

  /** The controller's int arithmetic, in 64 bits. */
  function Int64(n: int): (r: int)
    ensures -0x8000_0000_0000_0000 <= r < 0x8000_0000_0000_0000
    ensures (n - r) % 0x1_0000_0000_0000_0000 == 0
    ensures -0x8000_0000_0000_0000 <= n < 0x8000_0000_0000_0000 ==> r == n
  {
    (n + MAX_INT64 + 1) % 0x1_0000_0000_0000_0000 - MAX_INT64 - 1
  }

  /** The longest leading run of digits. */
  function DigitRun(s: string): (run: string)
    ensures forall c :: c in run ==> IsDigit(c)
  {
    if s == [] || !IsDigit(s[0]) then [] else [s[0]] + DigitRun(s[1..])
  }

  function Value(digits: string): nat
    requires forall c :: c in digits ==> IsDigit(c)
  {
    if digits == [] then 0
    else
      var last := digits[|digits| - 1];
      assert IsDigit(last);
      10 * Value(digits[..|digits| - 1]) + (last as int - '0' as int)
  }

  /** `%d` into a 64-bit int: an optional sign, at least one digit, and a value in range. */
  function Scan(s: string): Option<int> {
    var signed := s != [] && (s[0] == '+' || s[0] == '-');
    var digits := DigitRun(if signed then s[1..] else s);
    var magnitude := Value(digits);
    var value: int := if signed && s[0] == '-' then 0 - magnitude as int else magnitude;
    if digits == [] || value > MAX_INT64 || value < -MAX_INT64 - 1 then None else Some(value)
  }

  lemma {:induction false} PrintIsDigits(n: nat)
    ensures Print(n) != []
    ensures forall c :: c in Print(n) ==> IsDigit(c)
    ensures Value(Print(n)) == n
  {
    if n >= 10 {
      PrintIsDigits(n / 10);
      assert Print(n)[..|Print(n)| - 1] == Print(n / 10);
    }
  }

  lemma {:induction false} DigitRunOfDigits(s: string)
    requires forall c :: c in s ==> IsDigit(c)
    ensures DigitRun(s) == s
  {
    if s != [] {
      DigitRunOfDigits(s[1..]);
      assert s == [s[0]] + s[1..];
    }
  }

  /** Reading back what was printed gives the number, for every 64-bit int. */
  lemma ScanPrint(n: int)
    requires -MAX_INT64 - 1 <= n <= MAX_INT64
    ensures Scan(PrintInt(n)) == Some(n)
  {
    var magnitude := if n < 0 then -n else n;
    PrintIsDigits(magnitude);
    DigitRunOfDigits(Print(magnitude));
    assert IsDigit(Print(magnitude)[0]);
    if n < 0 {
      assert PrintInt(n)[1..] == Print(magnitude);
    }
  }

  /** Counting in 64 bits is counting, seen through the width. */
  lemma Int64Next(n: int)
    ensures Int64(Int64(n) + 1) == Int64(n + 1)
  {
  }

  /** Decimal, most significant digit first. */
  lemma PrintSample()
    ensures Print(9876543210) == "9876543210"
  {
    assert Print(987654) == "987654";
  }
}
