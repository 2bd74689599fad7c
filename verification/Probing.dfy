// Triangular probing: the bucket order i, i+1, i+3, i+6, ... modulo a power of two.
module Probing {
  import opened Arith
  import opened Bits

  // Total displacement after t steps of `i += ++step`.
  function Tri(t: nat): nat {
    if t == 0 then 0 else Tri(t - 1) + t
  }

  // The bucket reached after t steps from the home bucket of hash h.
  function Probe(h: nat, t: nat, n: nat): (b: nat)
    requires n > 0
    ensures b < n
  {
    (h + Tri(t)) % n
  }

  // One iteration of the probing loops: `i = (i + (++step)) & mask`.
  lemma ProbeStep(h: nat, t: nat, n: nat)
    requires IsPow2(n)
    ensures Probe(h, t + 1, n) == And(Probe(h, t, n) + t + 1, n - 1)
  {
    MaskIsMod(Probe(h, t, n) + t + 1, n);
    ModAdd(h + Tri(t), t + 1, n);
  }

  lemma ProbeStart(h: nat, n: nat)
    requires IsPow2(n)
    ensures Probe(h, 0, n) == And(h, n - 1)
  {
    MaskIsMod(h, n);
  }

  lemma {:induction false} TriClosed(t: nat)
    ensures 2 * Tri(t) == t * (t + 1)
  {
    if t > 0 { TriClosed(t - 1); }
  }

  // An odd factor can be cancelled modulo a power of two.
  lemma {:induction false} OddCancel(n: nat, a: int, b: int, q: int)
    requires IsPow2(n) && a % 2 == 1 && a * b == n * q
    ensures b % n == 0
    decreases n
  {
    if n > 1 {
      EvenFactor(a, b, n / 2 * q);
      assert a * (b / 2) == n / 2 * q;
      OddCancel(n / 2, a, b / 2, q);
      DivMod(b / 2, n / 2);
      ModUnique(b, n, (b / 2) / (n / 2), 0);
    }
  }

  lemma EvenFactor(a: int, b: int, c: int)
    requires a % 2 == 1 && a * b == 2 * c
    ensures b % 2 == 0
  {
    var k := a / 2;
    assert a == 2 * k + 1;
    assert b == 2 * (c - k * b);
  }

  // A power of two dividing a product of numbers of different parity divides one of them.
  lemma DividesOne(a: int, b: int, m: nat, q: int)
    requires IsPow2(m) && a % 2 != b % 2 && a * b == m * q
    ensures a % m == 0 || b % m == 0
  {
    if a % 2 == 1 {
      OddCancel(m, a, b, q);
    } else {
      OddCancel(m, b, a, q);
    }
  }

  // The displacement vanishes modulo n exactly at the multiples of 2n and just before them,
  // so a probe first returns to its home bucket after 2n - 1 steps.
  lemma ReturnsHome(t: nat, n: nat)
    requires IsPow2(n)
    ensures Tri(t) % n == 0 <==> (t % (2 * n) == 0 || (t + 1) % (2 * n) == 0)
  {
    var m := 2 * n;
    if Tri(t) % n == 0 {
      DivMod(Tri(t), n);
      HomeOnly(t, n, m, Tri(t) / n);
    }
    if t % m == 0 {
      HomeAt(t, t + 1, t, n, m);
    } else if (t + 1) % m == 0 {
      HomeAt(t + 1, t, t, n, m);
    }
  }

  lemma HomeOnly(t: nat, n: nat, m: nat, q: int)
    requires IsPow2(n) && m == 2 * n && Tri(t) == n * q
    ensures t % m == 0 || (t + 1) % m == 0
  {
    TriClosed(t);
    Double(n, q);
    DividesOne(t, t + 1, m, q);
  }

  lemma Double(n: nat, q: int)
    ensures 2 * (n * q) == (2 * n) * q
  {
  }

  lemma HomeAt(a: nat, b: nat, t: nat, n: nat, m: nat)
    requires n > 0 && m == 2 * n && a % m == 0 && a * b == t * (t + 1)
    ensures Tri(t) % n == 0
  {
    TriClosed(t);
    DivMod(a, m);
    var k := a / m;
    assert a * b == m * (k * b);
    Double(n, k * b);
    ModUnique(Tri(t), n, k * b, 0);
  }

  // The first n probes reach pairwise different buckets.
  lemma ProbeInjective(h: nat, s: nat, t: nat, n: nat)
    requires IsPow2(n) && s < t < n
    ensures Probe(h, s, n) != Probe(h, t, n)
  {
    if Probe(h, s, n) == Probe(h, t, n) {
      var q := SameRemainder(h + Tri(s), h + Tri(t), n);
      TriApart(s, t, n, q);
    }
  }

  lemma TriApart(s: nat, t: nat, n: nat, q: int)
    requires IsPow2(n) && s < t < n
    ensures Tri(t) - Tri(s) != n * q
  {
    var m := 2 * n;
    NeverDivides(t - s, t + s + 1, m, q);
    if Tri(t) - Tri(s) == n * q {
      TriDifference(s, t, n, m, q);
    }
  }

  lemma NeverDivides(a: nat, b: nat, m: nat, q: int)
    requires IsPow2(m) && a % 2 != b % 2 && 0 < a < m && 0 < b < m
    ensures a * b != m * q
  {
    if a * b == m * q {
      DividesOne(a, b, m, q);
      SmallMod(a, m);
      SmallMod(b, m);
    }
  }

  lemma TriDifference(s: nat, t: nat, n: nat, m: nat, q: int)
    requires s < t && m == 2 * n && Tri(t) - Tri(s) == n * q
    ensures (t - s) * (t + s + 1) == m * q
  {
    TriClosed(s);
    TriClosed(t);
    Factor(s, t);
    Double(n, q);
  }

  lemma Factor(s: int, t: int)
    ensures (t - s) * (t + s + 1) == t * (t + 1) - s * (s + 1)
  {
  }

  lemma SmallMod(x: nat, n: nat)
    requires 0 < x < n
    ensures x % n != 0
  {
  }

  // ---- The first n probes cover the table ----

  ghost function Visited(h: nat, k: nat, n: nat): (s: set<nat>)
    requires n > 0
    ensures forall b :: b in s ==> b < n && exists t: nat :: t < k && Probe(h, t, n) == b
  {
    if k == 0 then {} else
      Visited(h, k - 1, n) + {Probe(h, k - 1, n)}
  }

  lemma {:induction false} VisitedCount(h: nat, k: nat, n: nat)
    requires IsPow2(n) && k <= n
    ensures |Visited(h, k, n)| == k
    decreases k
  {
    if k > 0 {
      VisitedCount(h, k - 1, n);
      forall t: nat | t < k - 1
        ensures Probe(h, t, n) != Probe(h, k - 1, n)
      {
        ProbeInjective(h, t, k - 1, n);
      }
    }
  }

  ghost function Below(n: nat): (s: set<nat>)
    ensures forall b: nat :: b in s <==> b < n
    ensures |s| == n
  {
    if n == 0 then {} else Below(n - 1) + {n - 1}
  }

  lemma SubsetCount<T>(a: set<T>, b: set<T>)
    requires a <= b
    ensures |a| <= |b|
  {
    assert b == a + (b - a);
  }

  // Every bucket is reached within the first n probes.
  lemma ProbeCovers(h: nat, b: nat, n: nat) returns (t: nat)
    requires IsPow2(n) && b < n
    ensures t < n && Probe(h, t, n) == b
  {
    var v := Visited(h, n, n);
    VisitedCount(h, n, n);
    if b !in v {
      SubsetCount(v + {b}, Below(n));
    }
    t :| t < n && Probe(h, t, n) == b;
  }

  // ---- Probe paths ----

  // The first k buckets a search for hash h looks at.
  ghost function PathUpTo(h: nat, k: nat, n: nat): (p: seq<nat>)
    requires n > 0
    ensures |p| == k && forall u: nat :: u < k ==> p[u] < n
  {
    if k == 0 then [] else PathUpTo(h, k - 1, n) + [Probe(h, k - 1, n)]
  }

  // The buckets of a whole search: as many probes as there are buckets.
  ghost function Path(h: nat, n: nat): (p: seq<nat>)
    requires n > 0
    ensures |p| == n && forall u: nat :: u < n ==> p[u] < n
  {
    PathUpTo(h, n, n)
  }

  lemma {:induction false} PathUpToElement(h: nat, k: nat, n: nat, t: nat)
    requires t < k && n > 0
    ensures PathUpTo(h, k, n)[t] == Probe(h, t, n)
    decreases k
  {
    if t < k - 1 { PathUpToElement(h, k - 1, n, t); }
  }

  lemma PathStart(h: nat, n: nat)
    requires IsPow2(n)
    ensures Path(h, n)[0] == And(h, n - 1)
  {
    PathUpToElement(h, n, n, 0);
    ProbeStart(h, n);
  }

  lemma PathStep(h: nat, n: nat, t: nat)
    requires IsPow2(n) && t + 1 < n
    ensures Path(h, n)[t + 1] == And(Path(h, n)[t] + (t + 1), n - 1)
    ensures Path(h, n)[t + 1] != Path(h, n)[0]
  {
    PathUpToElement(h, n, n, 0);
    PathUpToElement(h, n, n, t);
    PathUpToElement(h, n, n, t + 1);
    ProbeStep(h, t, n);
    ProbeInjective(h, 0, t + 1, n);
  }

  // A whole search looks at every bucket.
  lemma PathCovers(h: nat, b: nat, n: nat) returns (t: nat)
    requires IsPow2(n) && b < n
    ensures t < n && Path(h, n)[t] == b
  {
    t := ProbeCovers(h, b, n);
    PathUpToElement(h, n, n, t);
  }
}
