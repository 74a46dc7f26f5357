/** Strings: the order Python sorts them in, and the decimal form of an integer. */
module Text {

  /** Lexicographic order by code point. */
  predicate StringLe(a: string, b: string) {
    a == [] || (b != [] && (a[0] < b[0] || (a[0] == b[0] && StringLe(a[1..], b[1..]))))
  }

  lemma {:induction false} StringLeTotal(a: string, b: string)
    ensures StringLe(a, b) || StringLe(b, a)
    ensures StringLe(a, b) && StringLe(b, a) ==> a == b
  {
    if a != [] && b != [] {
      StringLeTotal(a[1..], b[1..]);
      assert a == [a[0]] + a[1..] && b == [b[0]] + b[1..];
    }
  }

  lemma {:induction false} StringLeTransitive(a: string, b: string, c: string)
    requires StringLe(a, b) && StringLe(b, c)
    ensures StringLe(a, c)
  {
    if a != [] && a[0] == b[0] == c[0] {
      StringLeTransitive(a[1..], b[1..], c[1..]);
    }
  }

  const DIGITS := "0123456789"

  function Decimal(n: nat): (s: string)
    ensures |s| >= 1
    ensures forall k | 0 <= k < |s| :: '0' <= s[k] <= '9'
  {
    if n < 10 then [DIGITS[n]] else Decimal(n / 10) + [DIGITS[n % 10]]
  }

  /** Python's str() of an int. */
  function Str(n: int): (s: string)
    ensures |s| >= 1
    ensures forall k | 0 <= k < |s| :: s[k] == '-' || '0' <= s[k] <= '9'
  {
    if n < 0 then "-" + Decimal(-n) else Decimal(n)
  }

  lemma {:induction false} LastDigit(n: nat)
    requires n >= 10
    ensures Decimal(n)[..|Decimal(n)| - 1] == Decimal(n / 10) && Decimal(n)[|Decimal(n)| - 1] == DIGITS[n % 10]
  {
  }

  lemma {:induction false} DecimalInjective(m: nat, n: nat)
    requires Decimal(m) == Decimal(n)
    ensures m == n
  {
    var s := Decimal(m);
    if m >= 10 && n >= 10 {
      LastDigit(m);
      LastDigit(n);
      assert DIGITS[m % 10] == DIGITS[n % 10];
      DecimalInjective(m / 10, n / 10);
    }
  }

  lemma {:induction false} StrInjective(m: int, n: int)
    requires Str(m) == Str(n)
    ensures m == n
  {
    assert Str(m)[0] == '-' <==> m < 0;
    assert Str(n)[0] == '-' <==> n < 0;
    if m < 0 {
      assert Str(m)[1..] == Decimal(-m) && Str(n)[1..] == Decimal(-n);
      DecimalInjective(-m, -n);
    } else {
      DecimalInjective(m, n);
    }
  }
}
