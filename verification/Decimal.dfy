/** Decimal numerals: what printf's %d prints for a number that is not negative, and what atoi
    and scanf's %d read back. */
module Decimal {

  type Digits = seq<nat>

  ghost predicate AreDigits(ds: Digits) {
    forall i | 0 <= i < |ds| :: ds[i] < 10
  }

  function Numeral(n: nat): (ds: Digits)
    ensures ds != [] && AreDigits(ds)
  {
    if n < 10 then [n] else Numeral(n / 10) + [n % 10]
  }

  function Value(ds: Digits): nat {
    if ds == [] then 0 else 10 * Value(ds[..|ds| - 1]) + ds[|ds| - 1]
  }

  lemma TenDigits()
    ensures Numeral(1234567890) == [1, 2, 3, 4, 5, 6, 7, 8, 9, 0]
  {
    assert Numeral(1) == [1] && Numeral(12) == [1, 2] && Numeral(123) == [1, 2, 3];
    assert Numeral(1234) == [1, 2, 3, 4] && Numeral(12345) == [1, 2, 3, 4, 5];
    assert Numeral(123456) == [1, 2, 3, 4, 5, 6] && Numeral(1234567) == [1, 2, 3, 4, 5, 6, 7];
    assert Numeral(12345678) == [1, 2, 3, 4, 5, 6, 7, 8] && Numeral(123456789) == [1, 2, 3, 4, 5, 6, 7, 8, 9];
  }

  // Reading a printed number gives it back.
  lemma {:induction false} ValueOfNumeral(n: nat)
    ensures Value(Numeral(n)) == n
  {
    if n >= 10 {
      ValueOfNumeral(n / 10);
      assert Numeral(n)[..|Numeral(n)| - 1] == Numeral(n / 10);
    } else {
      assert Value([n]) == 10 * Value([]) + n by {
        assert [n][..0] == [];
      }
    }
  }
}
