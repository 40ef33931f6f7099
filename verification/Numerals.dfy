/** Numbers printed in base 10 or 36, as `toString` prints them. */
module Numerals {

  datatype Base = Ten | ThirtySix

  function Last(n: nat, base: Base): (d: nat)
    ensures d < 36
  {
    if base == Ten then n % 10 else n % 36
  }

  function Rest(n: nat, base: Base): (r: nat)
    ensures r <= n && (n > 0 ==> r < n)
  {
    if base == Ten then n / 10 else n / 36
  }

  function Digit(d: nat): char
    requires d < 36
  {
    if d < 10 then '0' + d as char else 'a' + (d - 10) as char
  }

  function Numeral(n: nat, base: Base): (s: string)
    ensures s != []
  {
    (if Rest(n, base) == 0 then [] else Numeral(Rest(n, base), base)) + [Digit(Last(n, base))]
  }

  lemma RestAndLast(m: nat, n: nat, base: Base)
    requires Rest(m, base) == Rest(n, base) && Last(m, base) == Last(n, base)
    ensures m == n
  {
  }

  lemma LastCharacter(x: string, c: char, y: string, d: char)
    requires x + [c] == y + [d]
    ensures x == y && c == d
  {
    assert |x| == |y|;
    assert x == (x + [c])[..|x|] && y == (y + [d])[..|y|];
    assert (x + [c])[|x|] == c && (y + [d])[|y|] == d;
  }

  lemma DigitsDiffer(c: nat, d: nat)
    requires c < 36 && d < 36 && Digit(c) == Digit(d)
    ensures c == d
  {
    DigitCode(c);
    DigitCode(d);
  }

  lemma DigitCode(d: nat)
    requires d < 36
    ensures Digit(d) as int == if d < 10 then 48 + d else 87 + d
  {
  }

  /** Two numbers print alike only if they are the same. */
  lemma {:induction false} NumeralsDiffer(m: nat, n: nat, base: Base)
    requires Numeral(m, base) == Numeral(n, base)
    ensures m == n
  {
    hide Digit, Rest, Last;
    var x := if Rest(m, base) == 0 then [] else Numeral(Rest(m, base), base);
    var y := if Rest(n, base) == 0 then [] else Numeral(Rest(n, base), base);
    LastCharacter(x, Digit(Last(m, base)), y, Digit(Last(n, base)));
    DigitsDiffer(Last(m, base), Last(n, base));
    if Rest(m, base) != 0 && Rest(n, base) != 0 { Smaller(m, base); NumeralsDiffer(Rest(m, base), Rest(n, base), base); }
    RestAndLast(m, n, base);
  }

  lemma Smaller(n: nat, base: Base)
    requires Rest(n, base) != 0
    ensures Rest(n, base) < n
  {
  }

  /** No dash stands in a number. */
  lemma {:induction false} NoDash(n: nat, base: Base)
    ensures '-' !in Numeral(n, base)
  {
    if Rest(n, base) != 0 { Smaller(n, base); NoDash(Rest(n, base), base); }
    DigitNoDash(Last(n, base));
  }

  lemma DigitNoDash(d: nat)
    requires d < 36
    ensures Digit(d) != '-'
  {
  }

  /** The first dash splits a string in one way. */
  lemma FirstDash(a: string, x: string, b: string, y: string)
    requires '-' !in a && '-' !in b && a + "-" + x == b + "-" + y
    ensures a == b && x == y
  {
    var s := a + "-" + x;
    DashBefore(a, x, b, y);
    DashBefore(b, y, a, x);
    assert a == s[..|a|] == b;
    assert x == s[|a| + 1..] == y;
  }

  lemma DashBefore(a: string, x: string, b: string, y: string)
    requires '-' !in b && a + "-" + x == b + "-" + y
    ensures |b| <= |a|
  {
    var s := a + "-" + x;
    assert s[|a|] == '-' && forall i :: 0 <= i < |b| ==> (b + "-" + y)[i] == b[i];
  }
}
