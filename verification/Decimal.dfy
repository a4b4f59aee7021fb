/** Go's strconv.Itoa. */
module Decimal {

  function Digit(d: nat): (c: char)
    requires d < 10
    ensures c != '-'
  {
    "0123456789"[d]
  }

  function Digits(n: nat): (s: string)
    ensures s != "" && '-' !in s
  {
    if n < 10 then [Digit(n)] else Digits(n / 10) + [Digit(n % 10)]
  }

  function Itoa(n: int): (s: string)
    ensures '-' in s <==> n < 0
  {
    if n < 0 then "-" + Digits(-n) else Digits(n)
  }

  /** The number a string of digits stands for. */
  function Value(s: string): int {
    if s == "" then 0 else 10 * Value(s[..|s| - 1]) + (s[|s| - 1] as int - '0' as int)
  }

  lemma {:induction false} DigitsReadBack(n: nat)
    ensures Value(Digits(n)) == n
    ensures forall c :: c in Digits(n) ==> '0' <= c <= '9'
    ensures Digits(n)[0] == '0' ==> n == 0
    decreases n
  {
    var s := Digits(n);
    assert s[|s| - 1] == Digit(n % 10);
    if n < 10 {
      assert s[..|s| - 1] == "";
    } else {
      assert s[..|s| - 1] == Digits(n / 10);
      DigitsReadBack(n / 10);
    }
  }

  /** An integer prints as its decimal digits, without leading zeros, after a minus
      sign if it is negative. */
  lemma ItoaReadsBack(n: int)
    ensures var digits := if n < 0 then Itoa(n)[1..] else Itoa(n);
            && (n < 0 ==> Itoa(n)[0] == '-')
            && Value(digits) == (if n < 0 then -n else n)
            && (forall c :: c in digits ==> '0' <= c <= '9')
            && digits != "" && (digits[0] == '0' ==> n == 0)
  {
    if n < 0 {
      assert Itoa(n)[1..] == Digits(-n);
    }
    DigitsReadBack(if n < 0 then -n else n);
  }

  /** Different options never print to the same histogram key. */
  lemma ItoaInjective(m: int, n: int)
    requires Itoa(m) == Itoa(n)
    ensures m == n
  {
    ItoaReadsBack(m);
    ItoaReadsBack(n);
    hide Itoa, Value;
  }
}
