/** Decimal printing and parsing of integers as Go's strconv does it, with its 64-bit range. */
module Decimal {

  const MAX_INT: nat := 0x7fff_ffff_ffff_ffff

  function Digit(d: nat): char
    requires d < 10
  {
    ('0' as int + d) as char
  }

  predicate AllDigits(s: string) {
    forall i :: 0 <= i < |s| ==> '0' <= s[i] <= '9'
  }

  /** Itoa on the naturals. */
  function Itoa(n: nat): string {
    if n < 10 then [Digit(n)] else Itoa(n / 10) + [Digit(n % 10)]
  }

  function Value(s: string): nat
    requires AllDigits(s)
  {
    if s == [] then 0 else Value(s[..|s| - 1]) * 10 + (s[|s| - 1] as int - '0' as int)
  }

  /** The parsed number and whether parsing succeeded.  As in strconv.Atoi, a
      syntax error yields 0 and a range error the nearest representable number. */
  datatype Parsed = Parsed(value: int, ok: bool)

  function Atoi(s: string): Parsed {
    var negative := s != [] && s[0] == '-';
    var digits := if s != [] && (s[0] == '-' || s[0] == '+') then s[1..] else s;
    if digits == [] || !AllDigits(digits) then Parsed(0, false)
    else if negative then
      if Value(digits) > MAX_INT + 1 then Parsed(0 - MAX_INT - 1, false) else Parsed(0 - Value(digits), true)
    else
      if Value(digits) > MAX_INT then Parsed(MAX_INT, false) else Parsed(Value(digits), true)
  }

  lemma {:induction false} ValueOfItoa(n: nat)
    ensures Itoa(n) != [] && AllDigits(Itoa(n)) && Value(Itoa(n)) == n
  {
    if n >= 10 {
      ValueOfItoa(n / 10);
      assert Itoa(n)[..|Itoa(n)| - 1] == Itoa(n / 10);
    }
  }

  /** Printing and parsing back is the identity on the machine's naturals. */
  lemma AtoiOfItoa(n: nat)
    requires n <= MAX_INT
    ensures Atoi(Itoa(n)) == Parsed(n, true)
  {
    ValueOfItoa(n);
  }

  lemma ItoaInjective(m: nat, n: nat)
    requires Itoa(m) == Itoa(n)
    ensures m == n
  {
    ValueOfItoa(m);
    ValueOfItoa(n);
  }
}
