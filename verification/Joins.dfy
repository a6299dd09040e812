// The specification all joins share: the number of pairs with equal keys, and how it splits over partitions.
module Joins {
  datatype Tuple = Tuple(key: int, payloadID: int)

  // ---- counting ----

  function CountKey(r: seq<Tuple>, k: int): nat {
    if |r| == 0 then 0 else CountKey(r[..|r| - 1], k) + if r[|r| - 1].key == k then 1 else 0
  }

  // The nested-loop count.
  function JoinCount(r: seq<Tuple>, s: seq<Tuple>): nat {
    if |s| == 0 then 0 else JoinCount(r, s[..|s| - 1]) + CountKey(r, s[|s| - 1].key)
  }

  lemma {:induction false} CountAppend(a: seq<Tuple>, b: seq<Tuple>, k: int)
    ensures CountKey(a + b, k) == CountKey(a, k) + CountKey(b, k)
    decreases |b|
  {
    if |b| == 0 {
      assert a + b == a;
    } else {
      assert (a + b)[..|a + b| - 1] == a + b[..|b| - 1];
      CountAppend(a, b[..|b| - 1], k);
    }
  }

  lemma CountOne(t: Tuple, k: int)
    ensures CountKey([t], k) == if t.key == k then 1 else 0
  {
    assert CountKey([t][..0], k) == 0;
  }

  lemma {:induction false} JoinAppend(r: seq<Tuple>, s: seq<Tuple>, t: seq<Tuple>)
    ensures JoinCount(r, s + t) == JoinCount(r, s) + JoinCount(r, t)
    decreases |t|
  {
    if |t| == 0 {
      assert s + t == s;
    } else {
      assert (s + t)[..|s + t| - 1] == s + t[..|t| - 1];
      JoinAppend(r, s, t[..|t| - 1]);
    }
  }

  lemma JoinOne(r: seq<Tuple>, t: Tuple)
    ensures JoinCount(r, [t]) == CountKey(r, t.key)
  {
    assert JoinCount(r, [t][..0]) == 0;
  }

  lemma {:induction false} JoinAppendLeft(r: seq<Tuple>, q: seq<Tuple>, s: seq<Tuple>)
    ensures JoinCount(r + q, s) == JoinCount(r, s) + JoinCount(q, s)
    decreases |s|
  {
    if |s| > 0 {
      JoinAppendLeft(r, q, s[..|s| - 1]);
      CountAppend(r, q, s[|s| - 1].key);
    }
  }

  lemma {:induction false} JoinNone(s: seq<Tuple>)
    ensures JoinCount([], s) == 0
    decreases |s|
  {
    if |s| > 0 { JoinNone(s[..|s| - 1]); }
  }

  lemma {:induction false} JoinSymmetric(r: seq<Tuple>, s: seq<Tuple>)
    ensures JoinCount(r, s) == JoinCount(s, r)
    decreases |s|
  {
    if |s| == 0 {
      JoinNone(r);
    } else {
      var s', t := s[..|s| - 1], s[|s| - 1];
      assert s == s' + [t];
      JoinSymmetric(r, s');
      JoinAppendLeft(s', [t], r);
      CountByOne(r, t);
    }
  }

  lemma {:induction false} CountByOne(r: seq<Tuple>, t: Tuple)
    ensures JoinCount([t], r) == CountKey(r, t.key)
    decreases |r|
  {
    if |r| > 0 {
      CountByOne(r[..|r| - 1], t);
      CountOne(t, r[|r| - 1].key);
    }
  }

  lemma WithoutOne(b: seq<Tuple>, i: nat, k: int)
    requires i < |b|
    ensures multiset(b) == multiset(b[..i] + b[i + 1..]) + multiset{b[i]}
    ensures CountKey(b, k) == CountKey(b[..i] + b[i + 1..], k) + if b[i].key == k then 1 else 0
  {
    assert b == b[..i] + [b[i]] + b[i + 1..];
    CountAppend(b[..i], b[i + 1..], k);
    CountAppend(b[..i] + [b[i]], b[i + 1..], k);
    CountAppend(b[..i], [b[i]], k);
    CountOne(b[i], k);
  }

  lemma Cancel(x: multiset<Tuple>, y: multiset<Tuple>, t: Tuple)
    requires x + multiset{t} == y + multiset{t}
    ensures x == y
  {
    assert x == x + multiset{t} - multiset{t};
  }

  // Counts depend on the tuples, not on their order.
  lemma {:induction false} CountPermutation(a: seq<Tuple>, b: seq<Tuple>, k: int)
    requires multiset(a) == multiset(b)
    ensures CountKey(a, k) == CountKey(b, k)
    decreases |a|
  {
    if |a| == 0 {
      assert |multiset(b)| == 0;
    } else {
      var n := |a| - 1;
      assert a[n] in multiset(b);
      var i :| 0 <= i < |b| && b[i] == a[n];
      WithoutOne(a, n, k);
      WithoutOne(b, i, k);
      assert a[..n] + a[n + 1..] == a[..n];
      Cancel(multiset(a[..n]), multiset(b[..i] + b[i + 1..]), a[n]);
      CountPermutation(a[..n], b[..i] + b[i + 1..], k);
    }
  }

  lemma {:induction false} JoinSameCounts(r: seq<Tuple>, q: seq<Tuple>, s: seq<Tuple>)
    requires forall k :: CountKey(r, k) == CountKey(q, k)
    ensures JoinCount(r, s) == JoinCount(q, s)
    decreases |s|
  {
    if |s| > 0 { JoinSameCounts(r, q, s[..|s| - 1]); }
  }

  lemma JoinPermutation(r: seq<Tuple>, q: seq<Tuple>, s: seq<Tuple>, t: seq<Tuple>)
    requires multiset(r) == multiset(q) && multiset(s) == multiset(t)
    ensures JoinCount(r, s) == JoinCount(q, t)
  {
    forall k ensures CountKey(r, k) == CountKey(q, k) && CountKey(s, k) == CountKey(t, k) {
      CountPermutation(r, q, k);
      CountPermutation(s, t, k);
    }
    JoinSameCounts(r, q, s);
    JoinSymmetric(q, s);
    JoinSameCounts(s, t, q);
    JoinSymmetric(t, q);
  }

  // ---- streams ----

  // A tuple as it arrives, and whether it belongs to R.
  datatype Arrival = Arrival(tuple: Tuple, isR: bool)

  function Side(arrivals: seq<Arrival>, isR: bool): seq<Tuple> {
    if |arrivals| == 0 then []
    else
      var last := arrivals[|arrivals| - 1];
      Side(arrivals[..|arrivals| - 1], isR) + if last.isR == isR then [last.tuple] else []
  }

  // ---- partitions by digits of the key ----

  type Pos = x: nat | x > 0 witness 1

  // HASH_BIT_MODULO(key, (fan - 1) << bits, bits) with shift == 2^bits and fan a power of two.
  datatype Radix = Radix(shift: Pos, fan: Pos) {
    function Digit(key: int): (d: nat)
      ensures d < fan
    {
      key % 0x1_0000_0000 / shift % fan
    }
  }

  // The tuples of class c, in their order.
  function PartOf(s: seq<Tuple>, z: Radix, c: nat): seq<Tuple> {
    if |s| == 0 then []
    else PartOf(s[..|s| - 1], z, c) + if z.Digit(s[|s| - 1].key) == c then [s[|s| - 1]] else []
  }

  // The parts of the classes below n, one behind the other.
  function Parts(s: seq<Tuple>, z: Radix, n: nat): seq<Tuple> {
    if n == 0 then [] else Parts(s, z, n - 1) + PartOf(s, z, n - 1)
  }

  lemma {:induction false} PartAppend(s: seq<Tuple>, t: seq<Tuple>, z: Radix, c: nat)
    ensures PartOf(s + t, z, c) == PartOf(s, z, c) + PartOf(t, z, c)
    decreases |t|
  {
    if |t| == 0 {
      assert s + t == s;
    } else {
      assert (s + t)[..|s + t| - 1] == s + t[..|t| - 1];
      PartAppend(s, t[..|t| - 1], z, c);
    }
  }

  lemma PartLast(s: seq<Tuple>, t: Tuple, z: Radix, c: nat)
    ensures PartOf(s + [t], z, c) == PartOf(s, z, c) + if z.Digit(t.key) == c then [t] else []
  {
    assert (s + [t])[..|s|] == s;
  }

  lemma {:induction false} PartClass(s: seq<Tuple>, z: Radix, c: nat)
    ensures forall i :: 0 <= i < |PartOf(s, z, c)| ==> z.Digit(PartOf(s, z, c)[i].key) == c
    ensures |PartOf(s, z, c)| <= |s|
    decreases |s|
  {
    if |s| > 0 { PartClass(s[..|s| - 1], z, c); }
  }

  // Only the key's own class holds tuples with the key.
  lemma {:induction false} CountInPart(s: seq<Tuple>, z: Radix, c: nat, k: int)
    ensures CountKey(PartOf(s, z, c), k) == if z.Digit(k) == c then CountKey(s, k) else 0
    decreases |s|
  {
    if |s| > 0 {
      var s', t := s[..|s| - 1], s[|s| - 1];
      CountInPart(s', z, c, k);
      CountAppend(PartOf(s', z, c), [t], k);
      CountOne(t, k);
      assert PartOf(s', z, c) + [] == PartOf(s', z, c);
    }
  }

  // The parts together are a permutation of the whole.
  lemma {:induction false} PartsKeep(s: seq<Tuple>, z: Radix)
    ensures multiset(Parts(s, z, z.fan)) == multiset(s)
    decreases |s|
  {
    if |s| == 0 {
      PartsOfNone(z, z.fan);
    } else {
      var s', t := s[..|s| - 1], s[|s| - 1];
      assert s == s' + [t];
      PartsKeep(s', z);
      PartsLast(s', t, z, z.fan);
    }
  }

  lemma {:induction false} PartsOfNone(z: Radix, n: nat)
    ensures Parts([], z, n) == []
  {
    if n > 0 { PartsOfNone(z, n - 1); }
  }

  lemma {:induction false} PartsLast(s: seq<Tuple>, t: Tuple, z: Radix, n: nat)
    ensures multiset(Parts(s + [t], z, n)) == multiset(Parts(s, z, n)) + if z.Digit(t.key) < n then multiset{t} else multiset{}
    decreases n
  {
    hide PartOf, Radix.Digit;
    if n > 0 {
      PartsLast(s, t, z, n - 1);
      PartLast(s, t, z, n - 1);
      AddLast(Parts(s, z, n - 1), Parts(s + [t], z, n - 1), PartOf(s, z, n - 1), PartOf(s + [t], z, n - 1), t,
              z.Digit(t.key) < n - 1, z.Digit(t.key) == n - 1);
    }
  }

  lemma AddLast(a: seq<Tuple>, a': seq<Tuple>, b: seq<Tuple>, b': seq<Tuple>, t: Tuple, inA: bool, inB: bool)
    requires !(inA && inB) && multiset(a') == multiset(a) + (if inA then multiset{t} else multiset{})
    requires b' == b + if inB then [t] else []
    ensures multiset(a' + b') == multiset(a + b) + if inA || inB then multiset{t} else multiset{}
  {
    if inB {
      assert multiset(b + [t]) == multiset(b) + multiset{t};
    } else {
      assert b' == b;
    }
  }

  // ---- the join splits over the classes ----

  function JoinOfParts(r: seq<Tuple>, s: seq<Tuple>, z: Radix, n: nat): nat {
    if n == 0 then 0 else JoinOfParts(r, s, z, n - 1) + JoinCount(PartOf(r, z, n - 1), PartOf(s, z, n - 1))
  }

  lemma {:induction false} JoinOfPartsNone(r: seq<Tuple>, z: Radix, n: nat)
    ensures JoinOfParts(r, [], z, n) == 0
    decreases n
  {
    if n > 0 { JoinOfPartsNone(r, z, n - 1); }
  }

  // One more tuple of S meets exactly the tuples with its key, in its class.
  lemma {:induction false} JoinOfPartsLast(r: seq<Tuple>, s: seq<Tuple>, t: Tuple, z: Radix, n: nat)
    ensures JoinOfParts(r, s + [t], z, n) == JoinOfParts(r, s, z, n) + if z.Digit(t.key) < n then CountKey(r, t.key) else 0
    decreases n
  {
    hide JoinCount, CountKey, PartOf, Radix.Digit;
    if n > 0 {
      JoinOfPartsLast(r, s, t, z, n - 1);
      PartLast(s, t, z, n - 1);
      if z.Digit(t.key) == n - 1 {
        JoinAppend(PartOf(r, z, n - 1), PartOf(s, z, n - 1), [t]);
        JoinOne(PartOf(r, z, n - 1), t);
        CountInPart(r, z, n - 1, t.key);
      } else {
        assert PartOf(s, z, n - 1) + [] == PartOf(s, z, n - 1);
      }
    }
  }

  lemma {:induction false} JoinSplits(r: seq<Tuple>, s: seq<Tuple>, z: Radix)
    ensures JoinCount(r, s) == JoinOfParts(r, s, z, z.fan)
    decreases |s|
  {
    if |s| == 0 {
      JoinOfPartsNone(r, z, z.fan);
    } else {
      var s', t := s[..|s| - 1], s[|s| - 1];
      assert s == s' + [t];
      JoinSplits(r, s', z);
      JoinOfPartsLast(r, s', t, z, z.fan);
    }
  }

  // ---- taking one digit after the other ----

  // Bits 0 to 3, bits 4 to 7, and all eight.
  const PASS1: Radix := Radix(1, 16)
  const PASS2: Radix := Radix(16, 16)
  const BOTH: Radix := Radix(1, 256)

  lemma DigitPair(k: int, i: nat, j: nat)
    requires i < 16 && j < 16
    ensures BOTH.Digit(k) == 16 * j + i <==> PASS1.Digit(k) == i && PASS2.Digit(k) == j
  {
    hide Radix.Digit;
    var x := k % 0x1_0000_0000;
    Nibbles(x);
    DigitsAre(k, x, x % 16, x / 16 % 16);
  }

  lemma Nibbles(x: nat)
    ensures x % 256 == 16 * (x / 16 % 16) + x % 16
  {
    var y := x / 16;
    var q := y / 16;
    assert x == 16 * y + x % 16 && y == 16 * q + y % 16;
    assert x == 256 * q + (16 * (y % 16) + x % 16);
  }

  lemma DigitsAre(k: int, x: nat, a: nat, b: nat)
    requires x == k % 0x1_0000_0000 && a == x % 16 && b == x / 16 % 16 && x % 256 == 16 * b + a
    ensures BOTH.Digit(k) == 16 * b + a && PASS1.Digit(k) == a && PASS2.Digit(k) == b
  {
    assert x / 1 == x;
  }

  // Partitioning by the low digit and then by the next one is partitioning by both together.
  lemma {:induction false} PartOfPart(s: seq<Tuple>, i: nat, j: nat)
    requires i < 16 && j < 16
    ensures PartOf(PartOf(s, PASS1, i), PASS2, j) == PartOf(s, BOTH, 16 * j + i)
    decreases |s|
  {
    if |s| > 0 {
      var s', t := s[..|s| - 1], s[|s| - 1];
      PartOfPart(s', i, j);
      DigitPair(t.key, i, j);
      if PASS1.Digit(t.key) == i {
        PartLast(PartOf(s', PASS1, i), t, PASS2, j);
      } else {
        assert PartOf(s', PASS1, i) + [] == PartOf(s', PASS1, i);
      }
    }
  }
}
