// Rounding up to a power of two on machine words (hashing/helper/readerwriterqueue.h:611-622, the macro NEXT_POW_2 of
// hashing/joins/common_functions.cpp:32-41): the word's ones are smeared to the right by shifts and ors.
module PowerBits {
  import opened Joins
  import opened Powers

  // a | b
  function Or(a: nat, b: nat): nat {
    if a == 0 then b else if b == 0 then a else 2 * Or(a / 2, b / 2) + (if a % 2 == 1 || b % 2 == 1 then 1 else 0)
  }

  // x >> k
  function Shift(x: nat, k: nat): nat { if k == 0 then x else Shift(x / 2, k - 1) }

  predicate Bit(x: nat, i: nat) { Shift(x, i) % 2 == 1 }

  lemma Doubled(hi: nat, p: nat)
    ensures hi * (2 * p) == 2 * (hi * p)
  {
  }

  // The k lowest bits are cut off.
  lemma {:induction false} ShiftParts(x: nat, k: nat) returns (lo: nat)
    ensures lo < Pow2(k) && x == Shift(x, k) * Pow2(k) + lo
    decreases k
  {
    hide Pow2;
    if k == 0 {
      Halved(1);
      lo := 0;
    } else {
      Halved(k);
      var half := ShiftParts(x / 2, k - 1);
      lo := 2 * half + x % 2;
      Doubled(Shift(x, k), Pow2(k - 1));
    }
  }

  lemma {:induction false} ShiftOf(hi: nat, lo: nat, k: nat)
    requires lo < Pow2(k)
    ensures Shift(hi * Pow2(k) + lo, k) == hi
    decreases k
  {
    if k > 0 {
      Doubled(hi, Pow2(k - 1));
      ShiftOf(hi, lo / 2, k - 1);
    }
  }

  lemma {:induction false} ShiftTwice(x: nat, a: nat, b: nat)
    ensures Shift(Shift(x, a), b) == Shift(x, a + b)
    decreases a
  {
    if a > 0 { ShiftTwice(x / 2, a - 1, b); }
  }

  lemma OrHalf(a: nat, b: nat)
    ensures Or(a, b) / 2 == Or(a / 2, b / 2) && (Or(a, b) % 2 == 1 <==> a % 2 == 1 || b % 2 == 1)
  {
  }

  lemma {:induction false} OrShift(a: nat, b: nat, m: nat)
    ensures Shift(Or(a, b), m) == Or(Shift(a, m), Shift(b, m))
    decreases m
  {
    hide Or;
    if m > 0 {
      OrHalf(a, b);
      OrShift(a / 2, b / 2, m - 1);
    }
  }

  // Or is the bitwise or.
  lemma OrBits(a: nat, b: nat, i: nat)
    ensures Bit(Or(a, b), i) <==> Bit(a, i) || Bit(b, i)
  {
    hide Or, Shift;
    OrShift(a, b, i);
    OrHalf(Shift(a, i), Shift(b, i));
  }

  lemma {:induction false} OrOnes(hi: nat, lo: nat, k: nat)
    requires lo < Pow2(k)
    ensures Or(hi * Pow2(k) + lo, Pow2(k) - 1) == hi * Pow2(k) + Pow2(k) - 1
    decreases k
  {
    hide Pow2;
    Halved(k + 1);
    if k > 0 {
      Halved(k);
      Doubled(hi, Pow2(k - 1));
      OrOnes(hi, lo / 2, k - 1);
      OrOnesStep(hi * Pow2(k - 1), lo, Pow2(k - 1));
    }
  }

  lemma OrOnesStep(top: nat, lo: nat, p: nat)
    requires p > 0 && lo < 2 * p && Or(top + lo / 2, p - 1) == top + p - 1
    ensures Or(2 * top + lo, 2 * p - 1) == 2 * top + 2 * p - 1
  {
    hide Or;
    OrHalf(2 * top + lo, 2 * p - 1);
    assert (2 * top + lo) / 2 == top + lo / 2 && (2 * p - 1) / 2 == p - 1;
  }

  // The number of binary digits.
  function Length(x: nat): (n: nat)
    ensures x < Pow2(n) && (if x == 0 then n == 0 else n > 0 && Pow2(n - 1) <= x)
  {
    if x == 0 then 0 else 1 + Length(x / 2)
  }

  // Of the lowest n bits the first k are ones, and there is none above.
  ghost predicate TopOnes(x: nat, n: nat, k: nat) { k <= n && Shift(x, n - k) == Pow2(k) - 1 }

  lemma OnesShift(k: nat, j: nat)
    requires j <= k
    ensures Shift(Pow2(k) - 1, k - j) == Pow2(j) - 1
  {
    hide Pow2, Shift;
    PowerSum(k - j, j);
    var p, q := Pow2(k - j), Pow2(j);
    Short(p, q);
    ShiftOf(q - 1, p - 1, k - j);
  }

  lemma Short(p: nat, q: nat)
    requires p > 0 && q > 0
    ensures p * q > 0 && p * q - 1 == (q - 1) * p + (p - 1) == (p - 1) * q + (q - 1)
  {
  }

  lemma SmearOnes(x: nat, n: nat, k: nat, j: nat)
    requires TopOnes(x, n, k) && j <= k && k + j <= n && (j == k || k + j == n)
    ensures TopOnes(Or(x, Shift(x, k)), n, k + j)
  {
    hide Pow2, Or, Shift;
    var m := n - k - j;
    ShiftTwice(x, m, j);
    assert m + j == n - k;
    var lo := ShiftParts(Shift(x, m), j);
    ShiftTwice(x, k, m);
    ShiftTwice(x, n - k, k - j);
    assert (n - k) + (k - j) == k + m;
    OnesShift(k, j);
    OrShift(x, Shift(x, k), m);
    OrOnes(Pow2(k) - 1, lo, j);
    PowerSum(k, j);
    Short(Pow2(k), Pow2(j));
  }

  function Least(a: nat, b: nat): nat { if a <= b then a else b }

  // A shift by s doubles the number of ones in front, up to all of them.
  lemma Smear(x: nat, n: nat, s: nat)
    requires TopOnes(x, n, Least(s, n))
    ensures TopOnes(Or(x, Shift(x, s)), n, Least(2 * s, n))
  {
    hide Pow2;
    if s <= n {
      SmearOnes(x, n, s, Least(s, n - s));
    } else {
      assert x == Pow2(n) - 1;
      PowersGrow(n, s);
      ShiftOf(0, x, s);
      assert 0 * Pow2(s) + x == x;
    }
  }

  lemma SmearStart(x: nat)
    ensures TopOnes(x, Length(x), Least(1, Length(x)))
  {
    hide Pow2, Shift;
    Halved(1);
    var n := Length(x);
    if x == 0 {
      ShiftOf(0, 0, 0);
    } else {
      ShiftOf(1, x - Pow2(n - 1), n - 1);
    }
  }

  lemma {:induction false} CeilLength(x: nat)
    requires x > 0
    ensures CeilToPow2(x) == Pow2(Length(x - 1))
    decreases x
  {
    if x > 1 {
      CeilLength((x + 1) / 2);
      assert (x + 1) / 2 - 1 == (x - 1) / 2;
    }
  }

  lemma AllOnes(y: nat, n: nat)
    requires TopOnes(y, n, n)
    ensures y + 1 == Pow2(n)
  {
  }

  // What the increment makes of the ones.
  lemma Rounded(x: nat, y: nat, bits: nat)
    requires x < Pow2(bits) && bits > 0
    requires var n := Length(Decrement(x, Pow2(bits))); TopOnes(y, n, Least(bits, n))
    ensures Increment(y, Pow2(bits)) == if 0 < x <= Pow2(bits - 1) then CeilToPow2(x) else 0
  {
    hide CeilToPow2, Pow2, TopOnes, Length;
    Halved(bits);
    if x > 0 { CeilLength(x); }
    var n := Length(Decrement(x, Pow2(bits)));
    if n > bits { PowersGrow(bits, n - 1); }
    AllOnes(y, n);
    if n < bits { PowersGrow(n, bits - 1); }
  }

  // --x and ++x on words
  function Decrement(x: nat, word: nat): nat
    requires word > 0
  {
    if x == 0 then word - 1 else x - 1
  }

  function Increment(x: nat, word: nat): nat { if x + 1 == word then 0 else x + 1 }

  // ceilToPow2, on words of 64 bits
  method CeilToPow2Word(x: nat) returns (r: nat)
    requires x < Pow2(64)
    ensures r == if 0 < x <= Pow2(63) then CeilToPow2(x) else 0
  {
    hide Pow2, Or, TopOnes, CeilToPow2, Length, Shift, Decrement, Increment;
    var y := Decrement(x, Pow2(64));
    ghost var n := Length(y);
    SmearStart(y);
    Smear(y, n, 1);
    y := Or(y, Shift(y, 1));
    Smear(y, n, 2);
    y := Or(y, Shift(y, 2));
    Smear(y, n, 4);
    y := Or(y, Shift(y, 4));
    var i := 1;
    while i < 8
      invariant (i == 1 || i == 2 || i == 4 || i == 8) && TopOnes(y, n, Least(8 * i, n))
      decreases 8 - i
    {
      Smear(y, n, 8 * i);
      y := Or(y, Shift(y, 8 * i));
      i := 2 * i;
    }
    Rounded(x, y, 64);
    r := Increment(y, Pow2(64));
  }

  // NEXT_POW_2, on words of 32 bits
  method NextPow2(x: nat) returns (r: nat)
    requires x < Pow2(32)
    ensures r == if 0 < x <= Pow2(31) then CeilToPow2(x) else 0
  {
    hide Pow2, Or, TopOnes, CeilToPow2, Length, Shift, Decrement, Increment;
    var y := Decrement(x, Pow2(32));
    ghost var n := Length(y);
    SmearStart(y);
    Smear(y, n, 1);
    y := Or(y, Shift(y, 1));
    Smear(y, n, 2);
    y := Or(y, Shift(y, 2));
    Smear(y, n, 4);
    y := Or(y, Shift(y, 4));
    Smear(y, n, 8);
    y := Or(y, Shift(y, 8));
    Smear(y, n, 16);
    y := Or(y, Shift(y, 16));
    Rounded(x, y, 32);
    r := Increment(y, Pow2(32));
  }

  // ---- the digit under a mask ----

  // a & b
  function And(a: nat, b: nat): nat {
    if a == 0 || b == 0 then 0 else 2 * And(a / 2, b / 2) + (if a % 2 == 1 && b % 2 == 1 then 1 else 0)
  }

  lemma AndHalf(a: nat, b: nat)
    ensures And(a, b) / 2 == And(a / 2, b / 2) && (And(a, b) % 2 == 1 <==> a % 2 == 1 && b % 2 == 1)
  {
  }

  lemma {:induction false} AndShift(a: nat, b: nat, m: nat)
    ensures Shift(And(a, b), m) == And(Shift(a, m), Shift(b, m))
    decreases m
  {
    hide And;
    if m > 0 {
      AndHalf(a, b);
      AndShift(a / 2, b / 2, m - 1);
    }
  }

  // The k lowest bits are what is left over Pow2(k).
  lemma {:induction false} AndOnes(y: nat, k: nat)
    ensures y == Shift(y, k) * Pow2(k) + And(y, Pow2(k) - 1) && And(y, Pow2(k) - 1) < Pow2(k)
    decreases k
  {
    hide Pow2, And;
    Halved(k + 1);
    if k == 0 {
      NoBits(y);
    } else {
      Halved(k);
      AndOnes(y / 2, k - 1);
      AndHalf(y, Pow2(k) - 1);
      Doubled(Shift(y, k), Pow2(k - 1));
      assert (Pow2(k) - 1) / 2 == Pow2(k - 1) - 1 && (Pow2(k) - 1) % 2 == 1;
    }
  }

  lemma NoBits(y: nat)
    ensures And(y, 0) == 0
  {
  }

  lemma Product(a: nat, b: nat, n: nat)
    requires a <= b
    ensures a * n <= b * n
  {
  }

  lemma ProductNext(a: nat, n: nat)
    ensures (a + 1) * n == a * n + n
  {
  }

  lemma Division(x: nat, n: nat)
    requires n > 0
    ensures x == x / n * n + x % n && x % n < n
  {
  }

  lemma Quotient(x: nat, n: nat, q: nat, r: nat)
    requires x == q * n + r && r < n
    ensures x / n == q && x % n == r
  {
    var d := x / n;
    Division(x, n);
    ProductNext(d, n);
    ProductNext(q, n);
    if d < q { Product(d + 1, q, n); }
    if d > q { Product(q + 1, d, n); }
  }

  // x << s
  function LeftShift(x: nat, s: nat): nat { if s == 0 then x else 2 * LeftShift(x, s - 1) }

  function Mask(k: nat, s: nat): nat { LeftShift(Pow2(k) - 1, s) }

  lemma {:induction false} ShiftBack(x: nat, s: nat)
    ensures Shift(LeftShift(x, s), s) == x
    decreases s
  {
    if s > 0 { ShiftBack(x, s - 1); }
  }

  lemma ShiftDivides(x: nat, s: nat)
    ensures Shift(x, s) == x / Pow2(s)
  {
    hide Pow2, Shift;
    var lo := ShiftParts(x, s);
    Quotient(x, Pow2(s), Shift(x, s), lo);
  }

  lemma OnesDivide(y: nat, k: nat)
    ensures And(y, Pow2(k) - 1) == y % Pow2(k)
  {
    hide Pow2, Shift, And;
    AndOnes(y, k);
    Quotient(y, Pow2(k), Shift(y, k), And(y, Pow2(k) - 1));
  }

  // HASH_BIT_MODULO: the mask of k ones from bit s on, and the shift by s, select the digit that starts there.
  lemma MaskSelectsDigit(key: nat, s: nat, k: nat)
    requires key < 0x1_0000_0000
    ensures Shift(And(key, Mask(k, s)), s) == Radix(Pow2(s), Pow2(k)).Digit(key)
  {
    hide Pow2, And, Shift, LeftShift;
    AndShift(key, Mask(k, s), s);
    ShiftBack(Pow2(k) - 1, s);
    OnesDivide(Shift(key, s), k);
    ShiftDivides(key, s);
    assert key % 0x1_0000_0000 == key;
  }
}
