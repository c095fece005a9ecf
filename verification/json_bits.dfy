/**
 The bitwise operations the parser uses, on the unsigned numbers themselves, bit by bit.
 */
module JsonBits {

  function And(a: nat, b: nat): nat {
    if a == 0 || b == 0 then 0 else (if a % 2 == 1 && b % 2 == 1 then 1 else 0) + 2 * And(a / 2, b / 2)
  }

  function Or(a: nat, b: nat): nat {
    if a == 0 then b
    else if b == 0 then a
    else (if a % 2 == 1 || b % 2 == 1 then 1 else 0) + 2 * Or(a / 2, b / 2)
  }

  function Pow2(k: nat): (p: nat)
    ensures p > 0
  {
    if k == 0 then 1 else 2 * Pow2(k - 1)
  }

  function ShiftLeft(a: nat, k: nat): nat
    decreases k
  {
    if k == 0 then a else ShiftLeft(2 * a, k - 1)
  }

  function ShiftRight(a: nat, k: nat): nat { if k == 0 then a else ShiftRight(a / 2, k - 1) }

  lemma {:induction false} LeftIsProduct(a: nat, k: nat)
    ensures ShiftLeft(a, k) == a * Pow2(k)
    decreases k
  {
    if k > 0 { LeftIsProduct(2 * a, k - 1); }
  }

  lemma {:induction false} RightIsQuotient(a: nat, k: nat)
    ensures ShiftRight(a, k) == a / Pow2(k)
  {
    if k > 0 {
      RightIsQuotient(a / 2, k - 1);
      HalfOfQuotient(a, Pow2(k - 1));
    }
  }

  lemma HalfOfQuotient(a: nat, p: nat)
    requires p > 0
    ensures a / 2 / p == a / (2 * p)
  {
    ModTwice(a, p);
    Division(a, p, a / 2 / p);
  }

  lemma Division(a: nat, p: nat, q: nat)
    requires p > 0 && a - a % (2 * p) == q * (2 * p)
    ensures q == a / (2 * p)
  {
    var d := a / (2 * p) - q;
    assert a - a % (2 * p) == (a / (2 * p)) * (2 * p);
    assert d * (2 * p) == 0;
  }

  lemma ModTwice(a: nat, p: nat)
    requires p > 0
    ensures a % (2 * p) == a % 2 + 2 * (a / 2 % p)
  {
    var q, r := a / 2 / p, a / 2 % p;
    assert a / 2 == q * p + r;
    assert a == q * (2 * p) + (2 * r + a % 2) by {
      assert q * (2 * p) == 2 * (q * p);
    }
    ModIsUnique(a, 2 * p, q, 2 * r + a % 2);
  }

  lemma ModIsUnique(a: nat, m: nat, q: nat, r: nat)
    requires r < m && a == q * m + r
    ensures a % m == r
  {
    var d := a / m - q;
    assert a == (a / m) * m + a % m;
    assert d * m == r - a % m;
    assert (d >= 1 ==> d * m >= m) && (d <= -1 ==> d * m <= 0 - m);
  }

  // A mask of k ones keeps the lowest k bits.
  lemma {:induction false} LowBits(a: nat, k: nat)
    ensures And(a, Pow2(k) - 1) == a % Pow2(k)
  {
    if k > 0 {
      LowBits(a / 2, k - 1);
      ModTwice(a, Pow2(k - 1));
    }
  }

  // Where no bits meet, or is a sum.
  lemma {:induction false} HighAndLow(high: nat, low: nat, k: nat)
    requires low < Pow2(k)
    ensures Or(high * Pow2(k), low) == high * Pow2(k) + low
  {
    if k > 0 {
      var p := Pow2(k - 1);
      HighAndLow(high, low / 2, k - 1);
      assert high * Pow2(k) == 2 * (high * p);
    }
  }
}
