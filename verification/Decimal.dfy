/** Decimal numerals, as `strconv.Itoa` and `%d` write non-negative integers. */
module Decimal {

  function Digit(n: nat): char
    requires n < 10
  {
    ('0' as int + n) as char
  }

  predicate IsDigit(c: char) { '0' <= c <= '9' }

  function Itoa(n: nat): string {
    if n < 10 then [Digit(n)] else Itoa(n / 10) + [Digit(n % 10)]
  }

  /** The number a string of digits denotes. */
  function Value(s: string): nat {
    if s == [] || !IsDigit(s[|s| - 1]) then 0
    else Value(s[..|s| - 1]) * 10 + (s[|s| - 1] as int - '0' as int)
  }

  lemma {:induction false} ItoaDigits(n: nat)
    ensures Itoa(n) != [] && forall i | 0 <= i < |Itoa(n)| :: IsDigit(Itoa(n)[i])
  {
    if n >= 10 {
      ItoaDigits(n / 10);
    }
  }

  lemma {:induction false} ValueOfItoa(n: nat)
    ensures Value(Itoa(n)) == n
  {
    if n < 10 {
      assert [Digit(n)][..0] == [];
    } else {
      ValueOfItoa(n / 10);
      assert Itoa(n)[..|Itoa(n)| - 1] == Itoa(n / 10);
    }
  }

  /** Numerals have no leading zeros. */
  lemma {:induction false} ItoaLeads(n: nat)
    ensures n > 0 ==> Itoa(n)[0] != '0'
    ensures Itoa(0) == "0"
  {
    if n >= 10 {
      ItoaLeads(n / 10);
      ItoaDigits(n / 10);
    }
  }

  /** A numeral followed by a separator can be read off the front of a string in one way only. */
  lemma NumeralPrefix(q: nat, r: nat, sep: char, tail: string)
    requires !IsDigit(sep)
    ensures Itoa(q) + [sep] <= Itoa(r) + [sep] + tail <==> q == r
  {
    var a, b := Itoa(q), Itoa(r);
    var x, y := a + [sep], b + [sep] + tail;
    ItoaDigits(q);
    ItoaDigits(r);
    assert |a| < |b| ==> x[|a|] == sep && y[|a|] == b[|a|];
    assert |b| < |a| ==> x[|b|] == a[|b|] && y[|b|] == sep;
    if x <= y {
      assert |a| == |b|;
      assert a == x[..|a|] == y[..|a|] == b;
      ValueOfItoa(q);
      ValueOfItoa(r);
    }
  }
}
