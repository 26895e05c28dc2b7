// std::to_string on non-negative integers, and its inverse.
module Decimal {

  function Digit(d: nat): (c: char)
    requires d < 10
  {
    '0' + d as char
  }

  function ToString(n: nat): (s: string) {
    if n < 10 then [Digit(n)] else ToString(n / 10) + [Digit(n % 10)]
  }

  predicate IsDigits(s: string) {
    forall i :: 0 <= i < |s| ==> '0' <= s[i] <= '9'
  }

  function Parse(s: string): nat
    requires IsDigits(s)
  {
    if s == [] then 0 else 10 * Parse(s[..|s| - 1]) + (s[|s| - 1] - '0') as nat
  }

  // Printing produces at least one character, only digits, and parses back to the number.
  lemma {:induction false} ParseToString(n: nat)
    ensures ToString(n) != []
    ensures IsDigits(ToString(n))
    ensures Parse(ToString(n)) == n
  {
    if n < 10 {
      assert ToString(n)[..0] == [];
    } else {
      ParseToString(n / 10);
      var p := ToString(n / 10);
      assert (p + [Digit(n % 10)])[..|p|] == p;
    }
  }

  // Two numbers with the same text after the same prefix are equal.
  lemma PrefixedInjective(prefix: string, a: nat, b: nat)
    requires prefix + ToString(a) == prefix + ToString(b)
    ensures a == b
  {
    assert (prefix + ToString(a))[|prefix|..] == ToString(a);
    assert (prefix + ToString(b))[|prefix|..] == ToString(b);
    ParseToString(a);
    ParseToString(b);
  }
}
