// What the arrays of an open-addressing table mean, on plain sequences.
module TableLayout {
  import opened Bits
  import opened Probing
  import opened Flags

  // `(khint_t)(n * 0.77 + 0.5)`, exact in integers for the powers of two in use.
  function UpperBound(n: nat): nat {
    (77 * n + 50) / 100
  }

  // idx names the live buckets below n by the key they hold; in particular no key is held twice.
  ghost predicate Indexed<K>(fl: seq<Flag>, ks: seq<K>, n: nat, idx: map<K, nat>) {
    && n <= |fl| && n <= |ks|
    && (forall k :: k in idx ==> idx[k] < n && fl[idx[k]] == Live && ks[idx[k]] == k)
    && (forall b: nat :: b < n && fl[b] == Live ==> ks[b] in idx && idx[ks[b]] == b)
  }

  // No empty bucket among the first t on the path.
  ghost predicate PathOpen(fl: seq<Flag>, p: seq<nat>, t: nat) {
    t <= |p| && forall u: nat :: u < t ==> p[u] < |fl| && fl[p[u]] != Empty
  }

  // A search along p gets to bucket b before it meets an empty bucket.
  ghost predicate OnPath(fl: seq<Flag>, p: seq<nat>, b: nat) {
    exists t: nat :: t < |p| && p[t] == b && PathOpen(fl, p, t)
  }

  ghost predicate Reachable<K>(fl: seq<Flag>, ks: seq<K>, n: nat, hash: K -> u32)
    requires 0 < n <= |fl| && n <= |ks|
  {
    forall b: nat :: b < n && fl[b] == Live ==> OnPath(fl, Path(hash(ks[b]), n), b)
  }

  ghost predicate NoBoth(fl: seq<Flag>, n: nat)
    requires n <= |fl|
  {
    forall b: nat :: b < n ==> fl[b] != Both
  }

  ghost predicate TableOk<K>(fl: seq<Flag>, ks: seq<K>, n: nat, idx: map<K, nat>, hash: K -> u32) {
    && IsPow2(n)
    && Indexed(fl, ks, n, idx)
    && Reachable(fl, ks, n, hash)
    && NoBoth(fl, n)
  }

  ghost function DeletedSet(fl: seq<Flag>, n: nat): set<nat>
    requires n <= |fl|
  {
    set b: nat | b < n && fl[b] == Deleted
  }

  // ---- Counting ----

  lemma {:induction false} ImageCount<K>(idx: map<K, nat>)
    ensures |idx.Values| <= |idx|
    decreases |idx|
  {
    if |idx| > 0 {
      var k :| k in idx;
      var rest := idx - {k};
      assert rest.Keys == idx.Keys - {k};
      ImageCount(rest);
      forall v | v in idx.Values
        ensures v in rest.Values + {idx[k]}
      {
        var j :| j in idx && idx[j] == v;
        assert j != k ==> j in rest && rest[j] == v;
      }
      SubsetCount(idx.Values, rest.Values + {idx[k]});
    }
  }

  // Fewer live and deleted buckets than buckets: some bucket is empty.
  lemma SomeEmpty<K>(fl: seq<Flag>, ks: seq<K>, n: nat, idx: map<K, nat>) returns (b: nat)
    requires Indexed(fl, ks, n, idx) && NoBoth(fl, n)
    requires |idx| + |DeletedSet(fl, n)| < n
    ensures b < n && fl[b] == Empty
  {
    ImageCount(idx);
    var used := idx.Values + DeletedSet(fl, n);
    assert |used| <= |idx.Values| + |DeletedSet(fl, n)| by {
      SubsetCount(used - idx.Values, DeletedSet(fl, n));
      assert used == idx.Values + (used - idx.Values);
    }
    if Below(n) <= used {
      SubsetCount(Below(n), used);
    }
    forall c: nat | c < n && fl[c] == Live
      ensures c in used
    {
      assert c == idx[ks[c]];
    }
    b :| b in Below(n) && b !in used;
  }

  // Every search meets an empty bucket if there is one; t is the first time.
  lemma FirstEmpty(fl: seq<Flag>, h: nat, n: nat, b: nat) returns (t: nat)
    requires IsPow2(n) && n <= |fl| && b < n && fl[b] == Empty
    ensures t < n && fl[Path(h, n)[t]] == Empty && PathOpen(fl, Path(h, n), t)
  {
    var last := PathCovers(h, b, n);
    t := 0;
    while fl[Path(h, n)[t]] != Empty
      invariant t <= last && PathOpen(fl, Path(h, n), t)
      decreases last - t
    {
      t := t + 1;
    }
  }

  // ---- Lookup ----

  // A search along p has passed t buckets without meeting the key or an empty bucket;
  // the empty bucket at position `stop` is ahead.
  ghost predicate Searching<K>(fl: seq<Flag>, ks: seq<K>, key: K, p: seq<nat>, t: nat, stop: nat, i: nat) {
    && t <= stop < |p| && i == p[t] < |fl|
    && p[stop] < |fl| && fl[p[stop]] == Empty
    && PathOpen(fl, p, t)
    && forall u: nat :: u < t ==> p[u] < |ks| && !(fl[p[u]] == Live && ks[p[u]] == key)
  }

  lemma SearchStart<K>(fl: seq<Flag>, ks: seq<K>, n: nat, idx: map<K, nat>, hash: K -> u32, key: K)
    returns (p: seq<nat>, stop: nat)
    requires TableOk(fl, ks, n, idx, hash) && |idx| + |DeletedSet(fl, n)| < n
    ensures p == Path(hash(key), n)
    ensures Searching(fl, ks, key, p, 0, stop, And(hash(key), n - 1))
  {
    p := Path(hash(key), n);
    var b := SomeEmpty(fl, ks, n, idx);
    stop := FirstEmpty(fl, hash(key), n, b);
    PathStart(hash(key), n);
  }

  // Passing a bucket: the next one is not yet the start again.
  lemma SearchStep<K>(fl: seq<Flag>, ks: seq<K>, key: K, h: nat, n: nat, t: nat, stop: nat, i: nat)
    requires IsPow2(n) && n <= |fl| && n <= |ks|
    requires Searching(fl, ks, key, Path(h, n), t, stop, i)
    requires fl[i] != Empty && !(fl[i] == Live && ks[i] == key)
    ensures Searching(fl, ks, key, Path(h, n), t + 1, stop, And(i + (t + 1), n - 1))
    ensures And(i + (t + 1), n - 1) != Path(h, n)[0]
  {
    PathStep(h, n, t);
  }

  lemma OnPathHere<K>(fl: seq<Flag>, ks: seq<K>, key: K, p: seq<nat>, t: nat, stop: nat, i: nat)
    requires Searching(fl, ks, key, p, t, stop, i)
    ensures OnPath(fl, p, i)
  {
  }

  // Where a search that stops has stopped: at the key, or at an empty bucket when it is absent.
  lemma SearchEnd<K>(fl: seq<Flag>, ks: seq<K>, n: nat, idx: map<K, nat>, hash: K -> u32, key: K,
                     t: nat, stop: nat, i: nat)
    requires TableOk(fl, ks, n, idx, hash)
    requires Searching(fl, ks, key, Path(hash(key), n), t, stop, i)
    requires fl[i] == Empty || (fl[i] == Live && ks[i] == key)
    ensures if fl[i] == Empty then key !in idx else key in idx && idx[key] == i
    ensures OnPath(fl, Path(hash(key), n), i)
  {
  }

  // ---- Updates ----

  lemma PathStaysOpen(fl: seq<Flag>, x: nat, f: Flag, p: seq<nat>, b: nat)
    requires x < |fl| && f != Empty && OnPath(fl, p, b)
    ensures OnPath(fl[x := f], p, b)
  {
    var t: nat :| t < |p| && p[t] == b && PathOpen(fl, p, t);
    assert PathOpen(fl[x := f], p, t);
  }

  lemma InsertOk<K>(fl: seq<Flag>, ks: seq<K>, n: nat, idx: map<K, nat>, hash: K -> u32, key: K, x: nat)
    requires TableOk(fl, ks, n, idx, hash) && key !in idx
    requires x < n && OnPath(fl, Path(hash(key), n), x) && fl[x] != Live
    ensures TableOk(fl[x := Live], ks[x := key], n, idx[key := x], hash)
  {
    var fl', ks' := fl[x := Live], ks[x := key];
    forall b: nat | b < n && fl'[b] == Live
      ensures OnPath(fl', Path(hash(ks'[b]), n), b)
    {
      PathStaysOpen(fl, x, Live, Path(hash(ks'[b]), n), b);
    }
  }

  lemma DeleteOk<K>(fl: seq<Flag>, ks: seq<K>, n: nat, idx: map<K, nat>, hash: K -> u32, x: nat)
    requires TableOk(fl, ks, n, idx, hash) && x < n && fl[x] == Live
    ensures TableOk(fl[x := Deleted], ks, n, idx - {ks[x]}, hash)
  {
    DeleteReachable(fl, ks, n, hash, x);
  }

  lemma DeleteReachable<K>(fl: seq<Flag>, ks: seq<K>, n: nat, hash: K -> u32, x: nat)
    requires x < n <= |fl| && n <= |ks| && Reachable(fl, ks, n, hash)
    ensures Reachable(fl[x := Deleted], ks, n, hash)
  {
    var fl' := fl[x := Deleted];
    forall b: nat | b < n && fl'[b] == Live
      ensures OnPath(fl', Path(hash(ks[b]), n), b)
    {
      PathStaysOpen(fl, x, Deleted, Path(hash(ks[b]), n), b);
    }
  }

  // The table only looks at the keys below n.
  lemma OtherKeys<K>(fl: seq<Flag>, ks: seq<K>, ks': seq<K>, n: nat, idx: map<K, nat>, hash: K -> u32)
    requires TableOk(fl, ks, n, idx, hash)
    requires n <= |ks'| && forall i: nat :: i < n ==> ks'[i] == ks[i]
    ensures TableOk(fl, ks', n, idx, hash)
  {
    assert Reachable(fl, ks', n, hash);
  }

  lemma DeletedSetUpdate(fl: seq<Flag>, n: nat, x: nat, f: Flag)
    requires x < n <= |fl|
    ensures DeletedSet(fl[x := f], n)
      == DeletedSet(fl, n) - {x} + (if f == Deleted then {x} else {})
  {
  }
}
