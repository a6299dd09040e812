// Powers of two.
module Powers {
  predicate IsPowerOfTwo(x: nat) { x == 1 || (x > 1 && x % 2 == 0 && IsPowerOfTwo(x / 2)) }

  // The smallest power of two that is at least x.
  function CeilToPow2(x: nat): (r: nat)
    requires x > 0
    ensures x <= r < 2 * x && IsPowerOfTwo(r)
  {
    if x == 1 then 1
    else
      var half := CeilToPow2((x + 1) / 2);
      assert 2 * half > 1 && 2 * half % 2 == 0 && 2 * half / 2 == half;
      2 * half
  }

  function Pow2(k: nat): (r: nat)
    ensures r > 0
  {
    if k == 0 then 1 else 2 * Pow2(k - 1)
  }

  lemma {:induction false} PowerSum(a: nat, b: nat)
    ensures Pow2(a + b) == Pow2(a) * Pow2(b)
  {
    if a > 0 { PowerSum(a - 1, b); }
  }

  lemma {:induction false} PowersGrow(a: nat, b: nat)
    requires a <= b
    ensures Pow2(a) <= Pow2(b)
    decreases b
  {
    if a < b { PowersGrow(a, b - 1); }
  }

  lemma Halved(k: nat)
    requires k > 0
    ensures Pow2(k) == 2 * Pow2(k - 1) && Pow2(0) == 1
  {
  }
}
