/**
 Netmask and route-prefix arithmetic (crates/nexus-discovery/src/dns.rs and
 crates/nexus-discovery/src/routes.rs). Machine words are naturals with the word size
 written out; prefixes are those of section 3.1 of RFC 4632 and section 2.3 of RFC 4291.
 */
module Prefixes {
  // ----- Words -----

  function Pow2(k: nat): (r: nat)
    ensures r > 0
  {
    if k == 0 then 1 else 2 * Pow2(k - 1)
  }

  const WORD: nat := Pow2(128)

  /** Bitwise and. */
  function And(a: nat, b: nat): nat
    decreases a
  {
    if a == 0 then 0
    else 2 * And(a / 2, b / 2) + if a % 2 == 1 && b % 2 == 1 then 1 else 0
  }

  function Not(a: nat): nat
    requires a < WORD
  {
    WORD - 1 - a
  }

  function WrappingIncrement(a: nat): nat {
    (a + 1) % WORD
  }

  /** A left shift of a 128-bit word; the source language has no shift by the word size. */
  function ShiftLeft(a: nat, k: nat): nat
    requires k < 128
  {
    a * Pow2(k) % WORD
  }

  lemma {:induction false} AndSelf(a: nat)
    ensures And(a, a) == a
  {
    if a != 0 { AndSelf(a / 2); }
  }

  ghost predicate IsPow2(n: nat) {
    exists k: nat :: n == Pow2(k)
  }

  lemma DoublePow2(n: nat)
    ensures IsPow2(2 * n) <==> IsPow2(n)
  {
    if k: nat :| n == Pow2(k) { assert 2 * n == Pow2(k + 1); }
    if k: nat :| 2 * n == Pow2(k) { assert n == Pow2(k - 1); }
  }

  /** The trick behind the mask test: `a & (a + 1)` vanishes exactly on runs of low ones. */
  lemma {:induction false} AndSuccessor(a: nat)
    ensures And(a, a + 1) == 0 <==> IsPow2(a + 1)
  {
    if a % 2 == 0 {
      AndSelf(a / 2);
      assert (a + 1) / 2 == a / 2;
      if k: nat :| a + 1 == Pow2(k) { assert k == 0; }
      assert 0 + 1 == Pow2(0);
    } else {
      AndSuccessor(a / 2);
      assert (a + 1) / 2 == a / 2 + 1;
      DoublePow2(a / 2 + 1);
    }
  }

  /** Masking with `h` low ones is the remainder modulo 2^h. */
  lemma {:induction false} AndLowBits(a: nat, h: nat)
    ensures And(a, Pow2(h) - 1) == a % Pow2(h)
    decreases h
  {
    if h == 0 {
      AndZero(a);
    } else {
      AndLowBits(a / 2, h - 1);
      assert (Pow2(h) - 1) / 2 == Pow2(h - 1) - 1 && (Pow2(h) - 1) % 2 == 1;
      HalveRemainder(a, Pow2(h - 1));
    }
  }

  lemma {:induction false} AndZero(a: nat)
    ensures And(a, 0) == 0
  {
    if a != 0 { AndZero(a / 2); }
  }

  lemma HalveRemainder(a: nat, m: nat)
    requires m > 0
    ensures a % (2 * m) == 2 * (a / 2 % m) + a % 2
  {
    var q, r := a / 2 / m, a / 2 % m;
    assert a == (2 * m) * q + (2 * r + a % 2);
    RemainderIs(a, 2 * m, q, 2 * r + a % 2);
  }

  lemma RemainderIs(a: nat, m: nat, q: nat, r: nat)
    requires r < m && a == m * q + r
    ensures a % m == r && a / m == q
  {
    var k := a / m - q;
    assert a % m == r - m * k;
    MultipleIsFar(m, k);
  }

  lemma MultipleIsFar(m: nat, k: int)
    ensures k >= 1 ==> m * k >= m
    ensures k <= -1 ==> m * k + m <= 0
  {
  }

  lemma ScaleLess(a: nat, b: nat, m: nat)
    requires a < b && m > 0
    ensures a * m < b * m
  {
    Distribute(b, a, m);
    MultipleIsFar(m, b - a);
  }

  lemma SmallRemainder(a: nat, m: nat)
    requires a < m
    ensures a % m == a
  {
  }

  lemma Distribute(a: nat, b: nat, m: nat)
    ensures (a - b) * m == a * m - b * m
  {
  }

  lemma CancelFactor(a: nat, b: nat, m: nat)
    requires m > 0 && a * m == b * m
    ensures a == b
  {
    assert m * (a - b) == 0;
    MultipleIsFar(m, a - b);
  }

  lemma {:induction false} Pow2Grows(j: nat, k: nat)
    requires j <= k
    ensures Pow2(j) <= Pow2(k) && (j < k ==> Pow2(j) < Pow2(k))
  {
    if j < k { Pow2Grows(j, k - 1); }
  }

  lemma Pow2Base()
    ensures Pow2(0) == 1
  {
  }

  lemma {:induction false} Pow2Sum(j: nat, k: nat)
    ensures Pow2(j + k) == Pow2(j) * Pow2(k)
  {
    if j > 0 { Pow2Sum(j - 1, k); }
  }

  // ----- Netmasks -----

  datatype Family = Ipv4 | Ipv6

  function Width(f: Family): nat {
    if f.Ipv4? then 32 else 128
  }

  datatype Ip = Ip(family: Family, bits: nat)

  ghost predicate InRange(ip: Ip) {
    ip.bits < Pow2(Width(ip.family))
  }

  predicate ContiguousMask(mask: Ip)
    requires InRange(mask)
  {
    Pow2Grows(Width(mask.family), 128);
    var relevant := if mask.family.Ipv4? then ShiftLeft(mask.bits, 96) else mask.bits;
    var inverted := Not(relevant);
    inverted == 0 || And(inverted, WrappingIncrement(inverted)) == 0
  }

  /** The mask whose first `p` bits are ones. */
  function MaskOf(f: Family, p: nat): (r: nat)
    requires p <= Width(f)
  {
    Pow2Grows(Width(f) - p, Width(f));
    Pow2(Width(f)) - Pow2(Width(f) - p)
  }

  lemma Ipv4Shift(bits: nat)
    requires bits < Pow2(32)
    ensures ShiftLeft(bits, 96) == bits * Pow2(96) < WORD
  {
    hide Pow2;
    Pow2Sum(32, 96);
    ScaleLess(bits, Pow2(32), Pow2(96));
    SmallRemainder(bits * Pow2(96), WORD);
  }

  lemma IncrementCases(x: nat)
    requires x < WORD
    ensures WrappingIncrement(x) == if x + 1 == WORD then 0 else x + 1
  {
    hide Pow2;
    if x + 1 < WORD { SmallRemainder(x + 1, WORD); }
  }

  /** The test sees `inverted + 1` as a power of two, the zero mask of IPv6 included. */
  lemma InvertedTest(relevant: nat)
    requires relevant < WORD
    ensures (Not(relevant) == 0 || And(Not(relevant), WrappingIncrement(Not(relevant))) == 0)
      <==> exists k: nat :: k <= 128 && relevant == WORD - Pow2(k)
  {
    hide Pow2, And, WrappingIncrement;
    var x := Not(relevant);
    AndSuccessor(x);
    Pow2Base();
    IncrementCases(x);
    if x + 1 == WORD {
      AndZero(x);
      assert relevant == WORD - Pow2(128);
    }
    assert x == 0 ==> relevant == WORD - Pow2(0);
    if k: nat :| x + 1 == Pow2(k) {
      if k > 128 { Pow2Grows(128, k); }
      assert relevant == WORD - Pow2(k);
    }
  }

  /** Of the masks of either width exactly those of some prefix length are accepted. */
  lemma MaskExactly(mask: Ip)
    requires InRange(mask)
    ensures ContiguousMask(mask) <==> exists p: nat :: p <= Width(mask.family) && mask.bits == MaskOf(mask.family, p)
  {
    hide Pow2;
    if mask.family.Ipv6? {
      InvertedTest(mask.bits);
      if k: nat :| k <= 128 && mask.bits == WORD - Pow2(k) { assert mask.bits == MaskOf(Ipv6, 128 - k); }
      if p: nat :| p <= 128 && mask.bits == MaskOf(Ipv6, p) { assert mask.bits == WORD - Pow2(128 - p); }
    } else {
      Ipv4MaskExactly(mask);
    }
  }

  lemma Ipv4MaskExactly(mask: Ip)
    requires mask.family.Ipv4? && InRange(mask)
    ensures ContiguousMask(mask) <==> exists p: nat :: p <= 32 && mask.bits == MaskOf(Ipv4, p)
  {
    hide Pow2;
    var relevant := mask.bits * Pow2(96);
    Ipv4Shift(mask.bits);
    InvertedTest(relevant);
    Pow2Sum(32, 96);
    if k: nat :| k <= 128 && relevant == WORD - Pow2(k) {
      Ipv4Lift(mask.bits, k);
      assert mask.bits == MaskOf(Ipv4, 128 - k);
    }
    if p: nat :| p <= 32 && mask.bits == MaskOf(Ipv4, p) {
      Pow2Sum(32 - p, 96);
      Distribute(Pow2(32), Pow2(32 - p), Pow2(96));
      assert relevant == WORD - Pow2(32 - p + 96);
    }
  }

  /** A multiple of 2^96 below 2^128 that is 2^128 - 2^k leaves only the upper 32 bits to `k`. */
  lemma Ipv4Lift(bits: nat, k: nat)
    requires k <= 128 && bits < Pow2(32) && bits * Pow2(96) == WORD - Pow2(k)
    ensures k >= 96 && bits == Pow2(32) - Pow2(k - 96)
  {
    hide Pow2;
    var m := Pow2(96);
    Pow2Sum(32, 96);
    Distribute(Pow2(32), bits, m);
    MultipleIsFar(m, Pow2(32) - bits);
    if k < 96 {
      Pow2Grows(k, 96);
    } else {
      Pow2Sum(k - 96, 96);
      CancelFactor(Pow2(32) - bits, Pow2(k - 96), m);
    }
  }
}
