/** Remainders by a divisor that is not a constant. */
module Remainders {

  function Mod(x: nat, m: nat): (r: nat)
    requires m > 0
    ensures r < m
  {
    x % m
  }

  lemma ModIs(x: nat, m: nat, q: int, r: nat)
    requires m > 0 && x == q * m + r && r < m
    ensures Mod(x, m) == r
  {
    var d := q - x / m;
    assert d * m == Mod(x, m) - r by {
      assert x == x / m * m + x % m;
      assert d * m == q * m - x / m * m;
    }
    assert d >= 1 ==> d * m >= m;
    assert d <= -1 ==> -d * m >= m;
  }

  lemma ModSplits(x: nat, m: nat) returns (q: nat)
    requires m > 0
    ensures x == q * m + Mod(x, m)
  {
    q := x / m;
  }

  lemma ModSmall(x: nat, m: nat)
    requires x < m
    ensures Mod(x, m) == x
  {
    hide Mod;
    ModIs(x, m, 0, x);
  }

  lemma ModPeriod(x: nat, m: nat)
    requires m > 0
    ensures Mod(x + m, m) == Mod(x, m)
  {
    hide Mod;
    var q := ModSplits(x, m);
    assert (q + 1) * m == q * m + m;
    ModIs(x + m, m, q + 1, Mod(x, m));
  }

  lemma ModSum(a: nat, b: nat, m: nat)
    requires m > 0
    ensures Mod(a + b, m) == Mod(Mod(a, m) + b, m)
  {
    hide Mod;
    var q := ModSplits(a, m);
    var k := ModSplits(Mod(a, m) + b, m);
    assert (q + k) * m == q * m + k * m;
    ModIs(a + b, m, q + k, Mod(Mod(a, m) + b, m));
  }

  /** A multiple of `m` may be added or left out. */
  lemma ModMultiple(x: nat, k: nat, y: nat, m: nat)
    requires m > 0 && Mod(x, m) == 0
    ensures Mod(k * x + y, m) == Mod(y, m)
  {
    hide Mod;
    var q := ModSplits(x, m);
    var j := ModSplits(y, m);
    assert k * x == k * (q * m) == (k * q) * m;
    assert (k * q + j) * m == (k * q) * m + j * m;
    ModIs(k * x + y, m, k * q + j, Mod(y, m));
  }
}
