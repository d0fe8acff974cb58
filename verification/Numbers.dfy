/** Decimal numbers as Go prints them. */
module Numbers {
  import opened Text

  function Digit(d: nat): char
    requires d < 10
  {
    ['0', '1', '2', '3', '4', '5', '6', '7', '8', '9'][d]
  }

  function Digits(n: nat): (s: string)
    ensures s != ""
  {
    if n < 10 then [Digit(n)] else Digits(n / 10) + [Digit(n % 10)]
  }

  /** `%d` */
  function Decimal(n: int): string {
    if n < 0 then "-" + Digits(-n) else Digits(n)
  }

  lemma {:induction false} DigitsAreDigits(n: nat, i: nat)
    requires i < |Digits(n)|
    ensures '0' <= Digits(n)[i] <= '9'
  {
    if n >= 10 && i < |Digits(n)| - 1 {
      DigitsAreDigits(n / 10, i);
    }
  }

  /** A number has no character but digits and a sign. */
  lemma DecimalLacks(n: int, c: char)
    requires c != '-' && !('0' <= c <= '9')
    ensures Lacks(Decimal(n), c)
  {
    var m := if n < 0 then -n else n;
    forall i | 0 <= i < |Digits(m)| ensures Digits(m)[i] != c {
      DigitsAreDigits(m, i);
    }
  }

  lemma DigitsLackDash(n: nat)
    ensures Lacks(Digits(n), '-')
  {
    forall i | 0 <= i < |Digits(n)| ensures Digits(n)[i] != '-' {
      DigitsAreDigits(n, i);
    }
  }

  /** Different numbers are printed differently. */
  lemma {:induction false} DigitsDiffer(m: nat, n: nat)
    requires Digits(m) == Digits(n)
    ensures m == n
  {
    var s := Digits(m);
    assert s[|s| - 1] == Digit(m % 10) == Digit(n % 10);
    assert m % 10 == n % 10;
    if m >= 10 {
      assert n >= 10 by {
        assert |Digits(m / 10)| >= 1;
      }
      assert s[..|s| - 1] == Digits(m / 10) == Digits(n / 10);
      DigitsDiffer(m / 10, n / 10);
    }
  }

  // ----- reading back -----

  ghost predicate AllDigits(s: string) {
    forall i | 0 <= i < |s| :: '0' <= s[i] <= '9'
  }

  /** The number the digits stand for. */
  ghost function NumberOf(s: string): nat
    requires AllDigits(s)
  {
    if s == "" then 0 else 10 * NumberOf(s[..|s| - 1]) + (s[|s| - 1] as int - '0' as int)
  }

  lemma DigitIs(d: nat)
    requires d < 10
    ensures Digit(d) as int == '0' as int + d
  {
  }

  /** A printed number stands for itself and has no superfluous zero in front. */
  lemma {:induction false} DigitsReadBack(n: nat)
    ensures AllDigits(Digits(n)) && NumberOf(Digits(n)) == n && (Digits(n)[0] == '0' ==> n == 0)
  {
    if n < 10 {
      DigitIs(n);
      assert [Digit(n)][..0] == "";
    } else {
      DigitsReadBack(n / 10);
      DigitIs(n % 10);
      var s := Digits(n);
      assert s[..|s| - 1] == Digits(n / 10);
    }
  }
}
