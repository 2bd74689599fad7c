// Unsigned 32-bit arithmetic as khash.h uses it: masks, rounding up to a
// power of two, and 2-bit flags packed sixteen to a word.
module Bits {
  import opened Arith

  const TWO_32: nat := 0x1_0000_0000

  type u32 = x: int | 0 <= x < 0x1_0000_0000

  ghost predicate IsPow2(n: nat) {
    n == 1 || (n > 1 && n % 2 == 0 && IsPow2(n / 2))
  }

  function Pow2(e: nat): (p: nat)
    ensures p > 0
  {
    if e == 0 then 1 else 2 * Pow2(e - 1)
  }

  lemma {:induction false} Pow2IsPow2(e: nat)
    ensures IsPow2(Pow2(e))
  {
    if e > 0 { Pow2IsPow2(e - 1); }
  }

  lemma {:induction false} Pow2Add(a: nat, b: nat)
    ensures Pow2(a + b) == Pow2(a) * Pow2(b)
  {
    if a > 0 { Pow2Add(a - 1, b); }
  }

  // Every power of two has an exponent.
  lemma {:induction false} Exponent(n: nat) returns (e: nat)
    requires IsPow2(n)
    ensures n == Pow2(e)
  {
    if n == 1 { e := 0; } else { e := Exponent(n / 2); e := e + 1; }
  }

  // ---- Bitwise operators on natural numbers ----

  function Or(a: nat, b: nat): nat
    decreases a + b
  {
    if a == 0 && b == 0 then 0
    else 2 * Or(a / 2, b / 2) + (if a % 2 == 1 || b % 2 == 1 then 1 else 0)
  }

  function And(a: nat, b: nat): nat
    decreases a + b
  {
    if a == 0 || b == 0 then 0
    else 2 * And(a / 2, b / 2) + (if a % 2 == 1 && b % 2 == 1 then 1 else 0)
  }

  // `x & (n - 1)` is `x % n` when n is a power of two.
  lemma {:induction false} MaskIsMod(x: nat, n: nat)
    requires IsPow2(n)
    ensures And(x, n - 1) == x % n
    decreases n
  {
    if n == 1 || x == 0 {
    } else {
      MaskIsMod(x / 2, n / 2);
      assert (n - 1) / 2 == n / 2 - 1 && (n - 1) % 2 == 1;
      HalveMod(x, n / 2);
    }
  }

  lemma HalveMod(x: nat, m: nat)
    requires m > 0
    ensures x % (2 * m) == 2 * ((x / 2) % m) + x % 2
  {
    var q, r := (x / 2) / m, (x / 2) % m;
    assert x / 2 == m * q + r;
    assert x == (2 * m) * q + (2 * r + x % 2);
    ModUnique(x, 2 * m, q, 2 * r + x % 2);
  }

  // Or never sets a bit above both operands and never clears one.
  lemma {:induction false} OrBounds(a: nat, b: nat, e: nat)
    requires a < Pow2(e) && b < Pow2(e)
    ensures a <= Or(a, b) < Pow2(e) && b <= Or(a, b)
    decreases e
  {
    if e > 0 {
      OrBounds(a / 2, b / 2, e - 1);
    }
  }

  // Or leaves the bits of the left operand above the width of the right one alone.
  lemma {:induction false} OrHigh(hi: nat, lo: nat, b: nat, k: nat)
    requires lo < Pow2(k) && b < Pow2(k)
    ensures Or(hi * Pow2(k) + lo, b) == hi * Pow2(k) + Or(lo, b)
    decreases k
  {
    if k == 0 {
      OrZero(hi);
    } else {
      var p := Pow2(k - 1);
      assert hi * Pow2(k) == 2 * (hi * p);
      OrHigh(hi, lo / 2, b / 2, k - 1);
      assert (hi * Pow2(k) + lo) / 2 == hi * p + lo / 2;
      assert (hi * Pow2(k) + lo) % 2 == lo % 2;
    }
  }

  lemma {:induction false} OrZero(a: nat)
    ensures Or(a, 0) == a
  {
    if a > 0 { OrZero(a / 2); }
  }

  // ---- kroundup32 ----

  function ShiftRight(x: nat, m: nat): nat {
    if m == 0 then x else ShiftRight(x / 2, m - 1)
  }

  // One step `x |= x >> m`.
  function Smear(x: nat, m: nat): nat {
    Or(x, ShiftRight(x, m))
  }

  // The macro's chain of smears from shift m on: m, 2m, 4m, ... up to 16.
  function SmearFrom(x: nat, m: nat): nat
    requires m > 0
    decreases 32 - m, x
  {
    if m >= 32 then x else SmearFrom(Smear(x, m), 2 * m)
  }

  function SmearWord(x: nat): nat {
    SmearFrom(x, 1)
  }

  // kroundup32 on an unsigned 32-bit word: decrement, smear, increment, all modulo 2^32.
  function RoundUp32(x: u32): u32 {
    var d := if x == 0 then TWO_32 - 1 else x - 1;
    (SmearWord(d) + 1) % TWO_32
  }

  function Minus(a: nat, b: nat): nat { if a >= b then a - b else 0 }

  // x has e bits and its top m bits (all of them when m >= e) are ones.
  ghost predicate TopOnes(x: nat, e: nat, m: nat) {
    Pow2(e) - Pow2(Minus(e, m)) <= x < Pow2(e)
  }

  lemma {:induction false} Pow2Monotone(a: nat, b: nat)
    requires a <= b
    ensures Pow2(a) <= Pow2(b)
    decreases b
  {
    if a < b { Pow2Monotone(a, b - 1); }
  }

  // Shifting right keeps the run of ones at the top of the shorter word.
  lemma {:induction false} ShiftRightBounds(x: nat, e: nat, k: nat, m: nat)
    requires m <= e && Pow2(e) - Pow2(k) <= x < Pow2(e)
    ensures Pow2(e - m) - Pow2(Minus(k, m)) <= ShiftRight(x, m) < Pow2(e - m)
    decreases m
  {
    if m > 0 {
      ShiftRightBounds(x / 2, e - 1, Minus(k, 1), m - 1);
    }
  }

  lemma {:induction false} ShiftRightShrinks(x: nat, m: nat)
    ensures ShiftRight(x, m) <= x
  {
    if m > 0 { ShiftRightShrinks(x / 2, m - 1); }
  }

  lemma SmearDoubles(x: nat, e: nat, m: nat)
    requires m > 0 && TopOnes(x, e, m)
    ensures TopOnes(Smear(x, m), e, 2 * m)
  {
    hide TopOnes, Smear;
    if m >= e { SmearWhole(x, e, m); } else { SmearSome(x, e, m); }
  }

  lemma SmearWhole(x: nat, e: nat, m: nat)
    requires m > 0 && m >= e && TopOnes(x, e, m)
    ensures TopOnes(Smear(x, m), e, 2 * m)
  {
    var y := ShiftRight(x, m);
    ShiftRightShrinks(x, m);
    OrBounds(x, y, e);
  }

  lemma SmearSome(x: nat, e: nat, m: nat)
    requires 0 < m < e && TopOnes(x, e, m)
    ensures TopOnes(Smear(x, m), e, 2 * m)
  {
    hide Or, ShiftRight;
    var y := ShiftRight(x, m);
    ShiftRightBounds(x, e, e - m, m);
    var lo := SplitTop(x, e, m);
    SmearSplit(Pow2(m) - 1, lo, e - m, y);
  }

  lemma SmearSplit(hi: nat, lo: nat, k: nat, y: nat)
    requires lo < Pow2(k) && y < Pow2(k)
    ensures hi * Pow2(k) + y <= Or(hi * Pow2(k) + lo, y) < hi * Pow2(k) + Pow2(k)
  {
    OrHigh(hi, lo, y, k);
    OrBounds(lo, y, k);
  }

  lemma SplitTop(x: nat, e: nat, m: nat) returns (lo: nat)
    requires 0 < m < e && TopOnes(x, e, m)
    ensures lo < Pow2(e - m) && x == Pow2(e) - Pow2(e - m) + lo
    ensures (Pow2(m) - 1) * Pow2(e - m) == Pow2(e) - Pow2(e - m)
  {
    lo := x - (Pow2(e) - Pow2(e - m));
    Pow2Add(m, e - m);
    MulSub(Pow2(e - m), Pow2(m), 1);
  }

  lemma MulSub(d: nat, a: int, b: int)
    ensures d * (a - b) == d * a - d * b
  {
  }

  // The bit length of a positive number.
  lemma {:induction false} BitLength(x: nat) returns (e: nat)
    requires x > 0
    ensures e > 0 && Pow2(e - 1) <= x < Pow2(e)
  {
    if x == 1 {
      assert Pow2(0) == 1;
      e := 1;
    } else {
      e := BitLength(x / 2);
      e := e + 1;
    }
  }

  lemma Pow2At32()
    ensures Pow2(31) == 0x8000_0000 && Pow2(32) == 0x1_0000_0000
  {
    assert Pow2(8) == 256;
    Pow2Add(8, 8);
    Pow2Add(16, 16);
    Pow2Add(31, 1);
    assert Pow2(1) == 2;
  }

  ghost predicate LeastPow2(r: nat, x: nat) {
    IsPow2(r) && x <= r && (r == 1 || r / 2 < x)
  }

  // kroundup32 gives the least power of two at least x ...
  lemma RoundUp32Correct(x: u32)
    requires 0 < x <= 0x8000_0000
    ensures LeastPow2(RoundUp32(x), x)
  {
    hide SmearWord;
    RoundUpFits(x - 1);
  }

  // ... and wraps to 0 for x == 0 and for x above 2^31, where no 32-bit power of two is left.
  lemma RoundUp32Wraps(x: u32)
    requires x == 0 || x > 0x8000_0000
    ensures RoundUp32(x) == 0
  {
    RoundUpWraps(if x == 0 then TWO_32 - 1 else x - 1);
  }

  lemma RoundUpFits(d: nat)
    requires d < 0x8000_0000
    ensures SmearWord(d) < 0x8000_0000 && LeastPow2(SmearWord(d) + 1, d + 1)
  {
    Pow2At32();
    var e := 0;
    if d > 0 { e := BitLength(d); }
    if e > 31 { Pow2Monotone(31, e - 1); }
    SmearAll(d, e);
    Pow2Monotone(e, 31);
    Pow2IsPow2(e);
  }

  lemma RoundUpWraps(d: nat)
    requires 0x8000_0000 <= d < TWO_32
    ensures SmearWord(d) + 1 == TWO_32
  {
    Pow2At32();
    var e := BitLength(d);
    if e > 32 { Pow2Monotone(32, e - 1); }
    if e < 32 { Pow2Monotone(e, 31); }
    SmearAll(d, e);
  }

  lemma SmearAll(d: nat, e: nat)
    requires e <= 32
    requires if e == 0 then d == 0 else Pow2(e - 1) <= d < Pow2(e)
    ensures SmearWord(d) == Pow2(e) - 1
  {
    assert TopOnes(d, e, 1);
    SmearRest(d, e, 1);
  }

  lemma {:induction false} SmearRest(x: nat, e: nat, m: nat)
    requires e <= 32 && m > 0 && TopOnes(x, e, m)
    ensures SmearFrom(x, m) == Pow2(e) - 1
    decreases 32 - m, x
  {
    if m < 32 {
      SmearDoubles(x, e, m);
      SmearRest(Smear(x, m), e, 2 * m);
    }
  }

  lemma RoundUp32Range(x: u32)
    ensures RoundUp32(x) == 0 || (IsPow2(RoundUp32(x)) && RoundUp32(x) <= 0x8000_0000)
  {
    hide RoundUp32;
    if 0 < x <= 0x8000_0000 { RoundUp32Small(x); } else { RoundUp32Wraps(x); }
  }

  lemma RoundUp32Small(x: u32)
    requires 0 < x <= 0x8000_0000
    ensures IsPow2(RoundUp32(x)) && RoundUp32(x) <= 0x8000_0000
  {
    hide SmearWord;
    RoundUpFits(x - 1);
  }

  lemma Pow2Div16(n: nat)
    requires IsPow2(n) && n >= 16
    ensures n % 16 == 0
  {
    assert IsPow2(n / 2) && IsPow2(n / 2 / 2) && IsPow2(n / 2 / 2 / 2);
  }

  // Of two powers of two the larger is at least twice the smaller.
  lemma {:induction false} Pow2Between(a: nat, b: nat)
    requires IsPow2(a) && IsPow2(b)
    ensures a == b || 2 * a <= b || 2 * b <= a
    decreases a
  {
    if a > 1 && b > 1 { Pow2Between(a / 2, b / 2); }
  }
}
