/**
 * The decimal rendering of a Java `long` (`Long.toString`, and the string
 * concatenation `"..." + id`), which the resources use for the identifier in
 * a Location URI and in an alert. `Parse` is its inverse: the round trip
 * `Parse(Show(i)) == Some(i)` is what lets a client read the identifier back.
 */
module Decimal {
  import opened Wrappers

  predicate IsDigit(c: char)
  {
    '0' <= c <= '9'
  }

  predicate AllDigits(s: string)
  {
    forall i :: 0 <= i < |s| ==> IsDigit(s[i])
  }

  function DigitChar(d: nat): (c: char)
    requires d < 10
    ensures IsDigit(c)
  {
    (48 + d) as char
  }

  function DigitValue(c: char): (d: nat)
    requires IsDigit(c)
    ensures d < 10
  {
    c as int - 48
  }

  /** The digits of `n`, most significant first, without leading zeros */
  function ShowNat(n: nat): (s: string)
    ensures |s| > 0 && AllDigits(s)
    ensures s[0] == '0' ==> n == 0
  {
    if n < 10 then [DigitChar(n)] else ShowNat(n / 10) + [DigitChar(n % 10)]
  }

  /** `Long.toString(i)`: a minus sign for negative numbers, then the digits */
  function Show(i: int): (s: string)
    ensures |s| > 0
    ensures s[0] == '-' <==> i < 0
    ensures i < 0 ==> |s| > 1 && AllDigits(s[1..]) && s[1] != '0'
    ensures i >= 0 ==> AllDigits(s) && (s[0] == '0' ==> s == "0")
  {
    if i < 0 then "-" + ShowNat(-i) else ShowNat(i)
  }

  /** The number a run of digits denotes; the empty run denotes 0 */
  function ValueOf(s: string): nat
    requires AllDigits(s)
  {
    if s == [] then 0 else ValueOf(s[..|s| - 1]) * 10 + DigitValue(s[|s| - 1])
  }

  /** Reads an optionally signed decimal numeral; `None` for anything else */
  function Parse(s: string): Option<int>
  {
    if |s| > 1 && s[0] == '-' && AllDigits(s[1..]) then Some(-(ValueOf(s[1..]) as int))
    else if |s| > 0 && AllDigits(s) then Some(ValueOf(s) as int)
    else None
  }

  lemma {:induction false} ValueOfShowNat(n: nat)
    ensures ValueOf(ShowNat(n)) == n
  {
    if n >= 10 {
      var s := ShowNat(n);
      assert s[..|s| - 1] == ShowNat(n / 10);
      ValueOfShowNat(n / 10);
    }
  }

  /** Reading back a rendered number gives the number */
  lemma ParseShow(i: int)
    ensures Parse(Show(i)) == Some(i)
  {
    if i < 0 {
      assert Show(i)[1..] == ShowNat(-i);
      ValueOfShowNat(-i);
    } else {
      ValueOfShowNat(i);
    }
  }

  /** Distinct numbers render differently */
  lemma ShowInjective(i: int, j: int)
    ensures Show(i) == Show(j) ==> i == j
  {
    ParseShow(i);
    ParseShow(j);
  }
}
