/**
  Universe identifiers (engine.py:112, 184): a child of universe `u` spawned
  as the parent's `k`-th child is called `u-k`, with `k` in decimal.
*/
module Naming {

  function Digit(d: nat): (c: char)
    requires d < 10
    ensures c as int == '0' as int + d
  {
    ('0' as int + d) as char
  }

  predicate IsDigit(c: char) {
    '0' <= c <= '9'
  }

  /** The decimal rendering of `n`, as Python's `str` gives it: no sign, no leading zero. */
  function Decimal(n: nat): (s: string)
    ensures |s| > 0 && forall i :: 0 <= i < |s| ==> IsDigit(s[i])
    ensures |s| == 1 <==> n < 10
    ensures n >= 10 ==> s[0] != '0'
  {
    if n < 10 then [Digit(n)] else Decimal(n / 10) + [Digit(n % 10)]
  }

  /** Distinct numbers have distinct renderings. */
  lemma {:induction false} DecimalInjective(a: nat, b: nat)
    requires Decimal(a) == Decimal(b)
    ensures a == b
  {
    var s := Decimal(a);
    if a < 10 {
      assert b < 10;
      assert Digit(a) == s[0] == Digit(b);
    } else {
      assert b >= 10;
      assert Digit(a % 10) == s[|s| - 1] == Digit(b % 10);
      assert Decimal(a / 10) == s[..|s| - 1] == Decimal(b / 10);
      DecimalInjective(a / 10, b / 10);
    }
  }

  /** The number a string of digits denotes in decimal. */
  function DigitsValue(s: string): nat
    requires forall i :: 0 <= i < |s| ==> IsDigit(s[i])
  {
    if s == [] then 0
    else
      assert IsDigit(s[|s| - 1]);
      10 * DigitsValue(s[..|s| - 1]) + (s[|s| - 1] as int - '0' as int)
  }

  /** `Decimal(n)` denotes `n`: it is the rendering of that number and of no other. */
  lemma {:induction false} DecimalValue(n: nat)
    ensures DigitsValue(Decimal(n)) == n
  {
    var s := Decimal(n);
    if n >= 10 {
      DecimalValue(n / 10);
      assert s[..|s| - 1] == Decimal(n / 10);
      assert s[|s| - 1] == Digit(n % 10);
    }
  }

  /** The identifier of the `k`-th universe spawned by universe `parent`. */
  function ChildName(parent: string, k: nat): string {
    parent + "-" + Decimal(k)
  }

  /** The parts of a child identifier, by position. */
  lemma ChildNameParts(parent: string, k: nat)
    ensures var name := ChildName(parent, k);
      && |name| == |parent| + 1 + |Decimal(k)|
      && name[..|parent|] == parent && name[|parent|] == '-'
      && name[|parent| + 1..] == Decimal(k)
  {
  }

  /** In `parent + "-" + digits` the dash is the last one: everything after it is a digit. */
  lemma DashIsLast(parent: string, k: nat)
    ensures var name := ChildName(parent, k);
      name[|name| - |Decimal(k)| - 1] == '-' &&
      forall i :: |name| - |Decimal(k)| <= i < |name| ==> name[i] != '-'
  {
    var name, d := ChildName(parent, k), Decimal(k);
    ChildNameParts(parent, k);
    forall i | |name| - |d| <= i < |name| ensures name[i] != '-' {
      assert name[i] == d[i - |parent| - 1];
      assert IsDigit(d[i - |parent| - 1]);
    }
  }

  /** An identifier determines both its parent and its position among the parent's children. */
  lemma ChildNameInjective(p1: string, k1: nat, p2: string, k2: nat)
    requires ChildName(p1, k1) == ChildName(p2, k2)
    ensures p1 == p2 && k1 == k2
  {
    var name := ChildName(p1, k1);
    ChildNameParts(p1, k1);
    ChildNameParts(p2, k2);
    DashIsLast(p1, k1);
    DashIsLast(p2, k2);
    var d1, d2 := Decimal(k1), Decimal(k2);
    assert |d1| <= |d2| by {
      assert name[|name| - |d2| - 1] == '-';
    }
    assert |d2| <= |d1| by {
      assert name[|name| - |d1| - 1] == '-';
    }
    assert |p1| == |p2|;
    assert p1 == name[..|p1|] == p2;
    assert d1 == name[|p1| + 1..] == d2;
    DecimalInjective(k1, k2);
  }

  /** No child identifier equals the root universe's. */
  lemma ChildIsNotRoot(parent: string, k: nat)
    ensures ChildName(parent, k) != "root"
  {
    var name := ChildName(parent, k);
    ChildNameParts(parent, k);
    if |name| == 4 {
      assert name[|parent|] == '-';
    }
  }
}
