// Facts about products and remainders that the solver does not find alone.
module Arith {

  lemma MulGap(n: nat, a: int, b: int)
    requires a < b
    ensures n * a + n <= n * b
  {
    MulMono(n, a + 1, b);
  }

  lemma MulMono(n: nat, a: int, b: int)
    requires a <= b
    ensures n * a <= n * b
  {
  }

  lemma DivMod(x: int, n: nat)
    requires n > 0
    ensures x == n * (x / n) + x % n && 0 <= x % n < n
  {
  }

  // Quotient and remainder are the only way to write x as n * q + r with 0 <= r < n.
  lemma ModUnique(x: int, n: nat, q: int, r: int)
    requires 0 <= r < n && x == n * q + r
    ensures x % n == r && x / n == q
  {
    DivMod(x, n);
    if q > x / n {
      MulGap(n, x / n, q);
    } else if q < x / n {
      MulGap(n, q, x / n);
    }
  }

  lemma ModAdd(x: int, y: int, n: nat)
    requires n > 0
    ensures (x % n + y) % n == (x + y) % n
  {
    DivMod(x, n);
    DivMod(x % n + y, n);
    var q, r := (x % n + y) / n, (x % n + y) % n;
    assert x + y == n * (x / n + q) + r;
    ModUnique(x + y, n, x / n + q, r);
  }

  // Two numbers with the same remainder differ by a multiple of n.
  lemma SameRemainder(x: int, y: int, n: nat) returns (q: int)
    requires n > 0 && x % n == y % n
    ensures y - x == n * q
  {
    DivMod(x, n);
    DivMod(y, n);
    q := y / n - x / n;
  }
}
