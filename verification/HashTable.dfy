// khash.h: an open-addressing hash map with tombstones and an in-place rehash.
module HashTable {
  import opened Bits
  import opened Probing
  import opened Flags
  import opened TableLayout
  import opened Rehash

  // What put reports through its `ret` parameter.
  datatype PutCode = Present | FreshBucket | ReusedBucket

  // realloc: a block of n elements that keeps the common prefix.
  method Realloc<T(0)>(a: array<T>, n: nat) returns (b: array<T>)
    ensures fresh(b) && b.Length == n
    ensures forall i :: 0 <= i < n && i < a.Length ==> b[i] == a[i]
  {
    b := new T[n];
    forall i | 0 <= i < n && i < a.Length { b[i] := a[i]; }
  }

  // kh_get's probing loop, also the one of kh_put: stops at the key or at an empty bucket.
  // `site` is the last deleted bucket passed, or n when there is none.
  method Search<K(==)>(flags: array<bv32>, keys: array<K>, n: nat, h: u32, key: K, ghost stop: nat)
    returns (i: nat, site: nat, ghost t: nat)
    requires IsPow2(n) && n <= 16 * flags.Length && n <= keys.Length
    requires NoBoth(Slots(flags[..]), n)
    requires Searching(Slots(flags[..]), keys[..], key, Path(h, n), 0, stop, And(h, n - 1))
    ensures Searching(Slots(flags[..]), keys[..], key, Path(h, n), t, stop, i) && i < n
    ensures Slots(flags[..])[i] == Empty || (Slots(flags[..])[i] == Live && keys[..][i] == key)
    ensures site != n ==>
      site < n && Slots(flags[..])[site] == Deleted && OnPath(Slots(flags[..]), Path(h, n), site)
  {
    hide Path;
    hide And;
    var mask := n - 1;
    var step := 0;
    i, site := And(h, mask), n;
    var last := i;
    ghost var fl, ks := Slots(flags[..]), keys[..];
    while !IsEmpty(flags, i) && (IsDel(flags, i) || keys[i] != key)
      invariant Searching(fl, ks, key, Path(h, n), step, stop, i)
      invariant site != n ==> site < n && fl[site] == Deleted && OnPath(fl, Path(h, n), site)
      decreases stop - step
    {
      if IsDel(flags, i) {
        site := i;
        OnPathHere(fl, ks, key, Path(h, n), step, stop, i);
      }
      SearchStep(fl, ks, key, h, n, step, stop, i);
      step := step + 1;
      i := And(i + step, mask);
      if i == last { break; }
    }
    t := step;
  }

  // kh_get on a table with buckets.
  method Lookup<K(==)>(flags: array<bv32>, keys: array<K>, n: nat, hash: K -> u32, key: K, ghost idx: map<K, nat>)
    returns (x: nat)
    requires n <= 16 * flags.Length
    requires TableOk(Slots(flags[..]), keys[..], n, idx, hash)
    requires |idx| + |DeletedSet(Slots(flags[..]), n)| < n
    ensures x == if key in idx then idx[key] else n
  {
    ghost var fl, ks := Slots(flags[..]), keys[..];
    ghost var p, stop := SearchStart(fl, ks, n, idx, hash, key);
    var i, _, t := Search(flags, keys, n, hash(key), key, stop);
    SearchEnd(fl, ks, n, idx, hash, key, t, stop, i);
    x := if IsEither(flags, i) then n else i;
  }

  // The part of kh_resize that moves the entries of an n-bucket table into m buckets:
  // grow the arrays if m is larger, rehash in place, cut the arrays if m is smaller.
  method Rebuild<K(0), V(0)>(flags: array<bv32>, keys: array<K>, vals: array<V>, n: nat, m: nat,
                             hash: K -> u32, ghost index: map<K, nat>)
    returns (newFlags: array<bv32>, ks: array<K>, vs: array<V>, ghost now: map<K, nat>)
    requires keys != vals as object && flags != keys as object && flags != vals as object
    requires n == keys.Length == vals.Length && Indexed(Slots(flags[..]), keys[..], n, index)
    requires IsPow2(m) && m <= 16 * FSize(m) && |index| < m
    modifies flags, keys, vals
    ensures fresh(newFlags) && (ks == keys || fresh(ks)) && (vs == vals || fresh(vs))
    ensures ks != vs as object && newFlags != ks as object && newFlags != vs as object
    ensures newFlags.Length == FSize(m) && ks.Length == vs.Length == m
    ensures TableOk(Slots(newFlags[..]), ks[..], m, now, hash)
    ensures DeletedSet(Slots(newFlags[..]), m) == {}
    ensures Moved(index, old(vals[..]), now, vs[..])
  {
    hide TableOk, Moved, Slots, Indexed, Midway, Entries, DeletedSet, FSize, IsPow2;
    IndexInRange(Slots(flags[..]), keys[..], n, index);
    ghost var vs0, goal := vals[..], Entries(index, vals[..]);
    newFlags, ks, vs := Prepare(flags, keys, vals, n, m, hash, index);
    now := RehashAll(flags, newFlags, ks, vs, n, m, hash, index, goal);
    ghost var ks1, vs1 := ks[..], vs[..];
    ks, vs := Cut(ks, vs, n, m);
    OtherKeys(Slots(newFlags[..]), ks1, ks[..], m, now, hash);
    MovedAll(index, vs0, now, vs1, vs[..], m, Slots(newFlags[..]), ks1, hash);
  }

  // New flags, all empty, and the arrays grown if need be: nothing has moved yet.
  method Prepare<K(0), V(0)>(flags: array<bv32>, keys: array<K>, vals: array<V>, n: nat, m: nat,
                             hash: K -> u32, ghost index: map<K, nat>)
    returns (newFlags: array<bv32>, ks: array<K>, vs: array<V>)
    requires keys != vals as object && flags != keys as object && flags != vals as object
    requires n == keys.Length == vals.Length && Indexed(Slots(flags[..]), keys[..], n, index)
    requires IsPow2(m) && m <= 16 * FSize(m) && forall k :: k in index ==> index[k] < n
    ensures fresh(newFlags) && (ks == keys || fresh(ks)) && (vs == vals || fresh(vs))
    ensures newFlags.Length == FSize(m) && Apart(flags, newFlags, ks, vs)
    ensures ks.Length == vs.Length && if n > m then ks.Length == n else ks.Length == m
    ensures Midway(Slots(flags[..]), Slots(newFlags[..]), ks[..], vs[..], n, m, hash, index, map[], map[], Entries(index, vals[..]))
  {
    hide Slots, Indexed, Midway, Entries, FSize, IsPow2;
    newFlags := new bv32[FSize(m)];
    Fill(newFlags);
    ks, vs := Grow(keys, vals, n, m);
    RehashReady(Slots(flags[..]), Slots(newFlags[..]), keys[..], ks[..], vals[..], vs[..], n, m, hash, index);
  }

  lemma IndexInRange<K>(slots: seq<Flag>, keys: seq<K>, n: nat, index: map<K, nat>)
    requires Indexed(slots, keys, n, index)
    ensures forall k :: k in index ==> index[k] < n
  {
  }

  // `realloc` before the rehash when the table grows
  method Grow<K(0), V(0)>(keys: array<K>, vals: array<V>, n: nat, m: nat)
    returns (ks: array<K>, vs: array<V>)
    requires n == keys.Length == vals.Length && keys != vals as object
    ensures (ks == keys || fresh(ks)) && (vs == vals || fresh(vs)) && ks != vs as object
    ensures ks.Length == vs.Length && n <= ks.Length && m <= ks.Length && (n >= m ==> ks.Length == n)
    ensures n < m ==> ks.Length == m
    ensures ks[..n] == keys[..] && vs[..n] == vals[..]
  {
    ks, vs := keys, vals;
    if n < m {
      ks := Realloc(keys, m);
      vs := Realloc(vals, m);
    }
  }

  // `realloc` after the rehash when the table shrinks
  method Cut<K(0), V(0)>(keys: array<K>, vals: array<V>, n: nat, m: nat)
    returns (ks: array<K>, vs: array<V>)
    requires keys != vals as object && keys.Length == vals.Length
    requires if n > m then keys.Length == n else keys.Length == m
    ensures (ks == keys || fresh(ks)) && (vs == vals || fresh(vs)) && ks != vs as object
    ensures ks.Length == vs.Length == m
    ensures ks[..] == keys[..m] && vs[..] == vals[..m]
  {
    ks, vs := keys, vals;
    if n > m {
      ks := Realloc(ks, m);
      vs := Realloc(vs, m);
    }
  }

  ghost function Entries<K, V>(index: map<K, nat>, vs: seq<V>): (e: map<K, V>)
    requires forall k :: k in index ==> index[k] < |vs|
    ensures e.Keys == index.Keys && |e| == |index|
  {
    var e := map k | k in index :: vs[index[k]];
    assert e.Keys == index.Keys;
    e
  }

  lemma NoTombstones<K>(fl: seq<Flag>, ks: seq<K>, m: nat, size: nat, now: map<K, nat>, hash: K -> u32)
    requires TableOk(fl, ks, m, now, hash) && DeletedSet(fl, m) == {} && size == |now| < UpperBound(m)
    ensures Counted(fl, ks, m, size, size, UpperBound(m), now, hash)
  {
    hide TableOk;
  }

  lemma MovedKeeps<K, V>(index: map<K, nat>, vs: seq<V>, now: map<K, nat>, vs': seq<V>)
    requires Moved(index, vs, now, vs')
    ensures forall k :: k in now ==> now[k] < |vs'|
    ensures Entries(index, vs) == Entries(now, vs') && |index| == |now|
  {
    assert |index| == |index.Keys| && |now| == |now.Keys|;
  }

  lemma MovedAll<K, V>(index: map<K, nat>, vs0: seq<V>, now: map<K, nat>, vs1: seq<V>, vs2: seq<V>, m: nat,
                       nf: seq<Flag>, ks1: seq<K>, hash: K -> u32)
    requires forall k :: k in index ==> index[k] < |vs0|
    requires TableOk(nf, ks1, m, now, hash) && m <= |vs1| && vs2 == vs1[..m]
    requires now.Keys == index.Keys
    requires forall k :: k in index ==> now[k] < |vs1| && vs1[now[k]] == Entries(index, vs0)[k]
    ensures Moved(index, vs0, now, vs2)
  {
  }

  // Every key keeps its value although its bucket may change.
  ghost predicate Moved<K, V>(index: map<K, nat>, vs: seq<V>, now: map<K, nat>, vs': seq<V>) {
    && now.Keys == index.Keys
    && forall k :: k in index ==> index[k] < |vs| && now[k] < |vs'| && vs'[now[k]] == vs[index[k]]
  }

  lemma RehashReady<K, V>(fl: seq<Flag>, nf: seq<Flag>, ks: seq<K>, ks': seq<K>, vs: seq<V>, vs': seq<V>,
                          n: nat, m: nat, hash: K -> u32, index: map<K, nat>)
    requires Indexed(fl, ks, n, index) && |ks| == |vs| == n
    requires IsPow2(m) && m <= |nf| && forall b: nat :: b < |nf| ==> nf[b] == Empty
    requires |ks'| == |vs'| && n <= |ks'| && m <= |ks'|
    requires ks'[..n] == ks && vs'[..n] == vs
    ensures Midway(fl, nf, ks', vs', n, m, hash, index, map[], map[], Entries(index, vs))
  {
    assert forall i: nat :: i < n ==> ks'[i] == ks'[..n][i] && vs'[i] == vs'[..n][i];
  }

  // A well-formed table together with its counters and the load bound.
  ghost predicate Counted<K>(fl: seq<Flag>, ks: seq<K>, n: nat, size: nat, occupied: nat, bound: nat,
                             idx: map<K, nat>, hash: K -> u32)
  {
    && TableOk(fl, ks, n, idx, hash)
    && size == |idx| && occupied == size + |DeletedSet(fl, n)|
    && bound == UpperBound(n) && occupied <= bound
  }

  class KHash<K(==, 0), V(0)> {
    const hash: K -> u32
    var nBuckets: nat
    var size: nat
    var nOccupied: nat
    var upperBound: nat
    var flags: array<bv32>
    var keys: array<K>
    var vals: array<V>
    // the bucket of every key in the table
    ghost var index: map<K, nat>

    ghost function Repr(): set<object>
      reads this
    {
      {this, flags, keys, vals}
    }

    ghost predicate Separate()
      reads this
    {
      keys != vals as object && keys != flags as object && vals != flags as object
    }

    // The finite map the table stands for.
    ghost function Contents(): map<K, V>
      reads this, vals
      requires forall k :: k in index ==> index[k] < vals.Length
    {
      Entries(index, vals[..])
    }

    ghost predicate Valid()
      reads this, flags, keys, vals
    {
      && Separate()
      && nBuckets == keys.Length == vals.Length
      && size == |index|
      && (forall k :: k in index ==> index[k] < nBuckets)
      && if nBuckets == 0 then
           flags.Length == nOccupied == upperBound == 0 && index == map[]
         else
           && IsPow2(nBuckets) && 4 <= nBuckets <= 0x8000_0000
           && flags.Length == FSize(nBuckets) && nBuckets <= 16 * flags.Length
           && Counted(Slots(flags[..]), keys[..], nBuckets, size, nOccupied, upperBound, index, hash)
    }

    // The same map where nothing is known of the table.
    ghost function Entered(): map<K, V>
      reads this, vals
    {
      if forall k :: k in index ==> index[k] < vals.Length then Contents() else map[]
    }

    lemma EnteredIs()
      requires Valid()
      ensures nBuckets == vals.Length && (forall k :: k in index ==> index[k] < nBuckets)
      ensures Entered() == Contents() && Entered().Keys == index.Keys
    {
      hide TableOk;
    }

    // kh_init: calloc leaves every field zero.
    constructor (hash: K -> u32)
      ensures Valid() && fresh(Repr()) && this.hash == hash
      ensures Contents() == map[] && nBuckets == 0
    {
      this.hash := hash;
      nBuckets, size, nOccupied, upperBound := 0, 0, 0, 0;
      flags, keys, vals := new bv32[0], new K[0], new V[0];
      index := map[];
      new;
    }

    // kh_get: the bucket of the key, or n_buckets.
    method Get(key: K) returns (x: nat)
      requires Valid()
      ensures x == if key in index then index[key] else nBuckets
    {
      if nBuckets == 0 { return 0; }
      x := Lookup(flags, keys, nBuckets, hash, key, index);
    }

    // kh_resize. A request that cannot hold the entries changes nothing; any other one rehashes
    // into that many buckets, keeping every entry and dropping every tombstone.
    method Resize(requested: u32)
      requires Valid()
      modifies Repr()
      ensures Valid() && fresh(Repr() - old(Repr()))
      ensures Contents() == old(Contents()) && size == old(size)
      ensures if size >= UpperBound(NewSize(requested)) then
          unchanged(this) && unchanged(flags) && unchanged(keys) && unchanged(vals)
        else
          nBuckets == NewSize(requested) && nOccupied == size
    {
      hide TableOk, Counted, Slots, Entries, NewSize;
      var m := NewSize(requested);
      NewSizeRange(requested);
      if size >= UpperBound(m) { return; }
      RebuildInto(m);
    }

    // Move everything into m buckets.
    method RebuildInto(m: nat)
      requires Valid() && IsPow2(m) && 4 <= m <= 0x8000_0000 && m <= 16 * FSize(m) && size < UpperBound(m)
      modifies Repr()
      ensures Valid() && fresh(Repr() - old(Repr()))
      ensures Contents() == old(Contents()) && size == old(size) && nBuckets == m && nOccupied == size
    {
      hide TableOk, Moved, Slots, Counted, DeletedSet, Indexed;
      IsIndexed();
      ghost var vs0 := vals[..];
      var nf, ks, vs, now := Rebuild(flags, keys, vals, nBuckets, m, hash, index);
      MovedKeeps(index, vs0, now, vs[..]);
      NoTombstones(Slots(nf[..]), ks[..], m, |index|, now, hash);
      Install(nf, ks, vs, m, now);
    }

    lemma IsIndexed()
      requires Valid()
      ensures Indexed(Slots(flags[..]), keys[..], nBuckets, index)
    {
    }

    // The end of kh_resize: adopt the new flags, arrays and counters.
    method Install(nf: array<bv32>, ks: array<K>, vs: array<V>, m: nat, ghost now: map<K, nat>)
      requires ks.Length == vs.Length == m && IsPow2(m) && 4 <= m <= 0x8000_0000
      requires ks != vs as object && nf != ks as object && nf != vs as object
      requires nf.Length == FSize(m) && m <= 16 * nf.Length && size == |now|
      requires forall k :: k in now ==> now[k] < m
      requires Counted(Slots(nf[..]), ks[..], m, size, size, UpperBound(m), now, hash)
      modifies this
      ensures Valid()
      ensures flags == nf && keys == ks && vals == vs && index == now
      ensures nBuckets == m && size == old(size) && nOccupied == size && upperBound == UpperBound(m)
      ensures flags[..] == old(nf[..]) && keys[..] == old(ks[..]) && vals[..] == old(vs[..])
    {
      hide Counted;
      flags, keys, vals := nf, ks, vs;
      nBuckets, nOccupied, upperBound, index := m, size, UpperBound(m), now;
    }

    // A table of 2^31 buckets cannot grow.
    predicate CanPut()
      reads this
    {
      nOccupied >= upperBound ==> nBuckets < 0x8000_0000
    }

    // kh_put: the bucket for the key, inserting the key if it is absent. The value slot of a
    // new key keeps whatever the bucket held before.
    method Put(key: K) returns (x: nat, code: PutCode)
      requires Valid() && CanPut()
      modifies Repr()
      ensures Valid() && fresh(Repr() - old(Repr()))
      ensures key in index && index[key] == x
      ensures Contents() - {key} == old(Contents()) - {key}
      ensures code == Present <==> key in old(Contents())
      ensures code == Present ==> Contents() == old(Contents())
      ensures size == old(size) + if code == Present then 0 else 1
      ensures nBuckets <= 2 * old(nBuckets) + 4
      ensures if old(nOccupied) < old(upperBound) then
          nBuckets == old(nBuckets) && nOccupied == old(nOccupied) + (if code == FreshBucket then 1 else 0)
          && vals == old(vals) && vals[..] == old(vals[..])
        else
          code != ReusedBucket && nOccupied == size < upperBound
    {
      hide TableOk;
      MakeRoom();
      ghost var idx, vs := index, vals[..];
      x, code := PutWithRoom(key);
      OccupiedBound();
      OtherEntries(idx, vs, key, x);
    }

    lemma OccupiedBound()
      requires Valid()
      ensures size <= nOccupied
    {
    }

    // kh_put's load check: purge tombstones when at most half of the buckets are live, else double.
    method MakeRoom()
      requires Valid() && CanPut()
      modifies Repr()
      ensures Valid() && fresh(Repr() - old(Repr()))
      ensures Contents() == old(Contents()) && size == old(size)
      ensures nOccupied < upperBound && nBuckets <= 2 * old(nBuckets) + 4
      ensures if old(nOccupied) < old(upperBound) then
          nOccupied == old(nOccupied) && nBuckets == old(nBuckets) && upperBound == old(upperBound)
          && vals == old(vals) && vals[..] == old(vals[..])
        else
          nOccupied == size && nOccupied + 1 < upperBound
    {
      hide Counted, NewSize, UpperBound, Slots, FSize, IsPow2, Entries;
      if nOccupied >= upperBound {
        LoadBound();
        PutSizes(nBuckets, size);
        if nBuckets > 2 * size {
          Rehash(nBuckets - 1);
        } else {
          Rehash(nBuckets + 1);
        }
      }
    }

    lemma LoadBound()
      requires Valid()
      ensures size <= nOccupied <= upperBound == UpperBound(nBuckets)
    {
      hide TableOk, DeletedSet;
    }

    // A request that is large enough is met and leaves room.
    method Rehash(requested: u32)
      requires Valid() && size < UpperBound(NewSize(requested))
      modifies Repr()
      ensures Valid() && fresh(Repr() - old(Repr()))
      ensures Contents() == old(Contents()) && size == old(size)
      ensures nBuckets == NewSize(requested) && nOccupied == size && upperBound == UpperBound(nBuckets)
    {
      hide TableOk, NewSize, DeletedSet;
      Resize(requested);
      NewSizeRange(requested);
    }

    // kh_put after the load check
    method PutWithRoom(key: K) returns (x: nat, code: PutCode)
      requires Valid() && nOccupied < upperBound
      modifies this`size, this`nOccupied, this`index, flags, keys
      ensures Valid() && x < nBuckets && index == old(index)[key := x] && vals[..] == old(vals[..])
      ensures if key in old(index) then code == Present && index == old(index) && size == old(size)
              else code != Present && size == old(size) + 1
      ensures nOccupied == old(nOccupied) + (if code == FreshBucket then 1 else 0) && nBuckets == old(nBuckets) && upperBound == old(upperBound)
      ensures x < 16 * old(flags).Length && (code == FreshBucket <==> key !in old(index) && old(Slots(flags[..]))[x] == Empty)
    {
      hide TableOk;
      x := FindSlot(flags, keys, nBuckets, hash, key, index);
      code := Present;
      if IsEither(flags, x) {
        code := Insert(x, key);
      }
    }

    // kh_put into a bucket that is not live
    method Insert(x: nat, key: K) returns (code: PutCode)
      requires Valid() && nOccupied < upperBound && key !in index && x < nBuckets
      requires Slots(flags[..])[x] != Live && OnPath(Slots(flags[..]), Path(hash(key), nBuckets), x)
      modifies this`size, this`nOccupied, this`index, flags, keys
      ensures Valid() && index == old(index)[key := x] && size == old(size) + 1 && vals[..] == old(vals[..])
      ensures code == if old(Slots(flags[..]))[x] == Empty then FreshBucket else ReusedBucket
      ensures nOccupied == old(nOccupied) + (if code == FreshBucket then 1 else 0)
    {
      hide TableOk;
      CountedInsert(Slots(flags[..]), keys[..], nBuckets, size, nOccupied, upperBound, index, hash, key, x);
      code := Occupy(x, key);
    }

    method Occupy(x: nat, key: K) returns (code: PutCode)
      requires Separate() && x < keys.Length && x < 16 * flags.Length
      requires Slots(flags[..])[x] in {Empty, Deleted}
      modifies this`size, this`nOccupied, this`index, flags, keys
      ensures Slots(flags[..]) == old(Slots(flags[..]))[x := Live] && flags.Length == old(flags.Length)
      ensures keys[..] == old(keys[..])[x := key] && vals[..] == old(vals[..])
      ensures size == old(size) + 1 && index == old(index)[key := x]
      ensures nOccupied == if old(Slots(flags[..]))[x] == Empty then old(nOccupied) + 1 else old(nOccupied)
      ensures code == if old(Slots(flags[..]))[x] == Empty then FreshBucket else ReusedBucket
    {
      keys[x] := key;
      if IsEmpty(flags, x) {
        nOccupied := nOccupied + 1;
        code := FreshBucket;
      } else {
        code := ReusedBucket;
      }
      SetIsBothFalse(flags, x);
      size := size + 1;
      index := index[key := x];
    }

    // kh_del: forget the entry in bucket x; n_buckets and buckets without an entry are ignored.
    method Del(x: nat)
      requires Valid() && x <= nBuckets
      modifies this`size, this`index, flags
      ensures Valid()
      ensures Contents() == Without(old(index), old(Contents()), x)
    {
      Unlisted(x);
      hide TableOk;
      if x != nBuckets && !IsEither(flags, x) {
        Erase(x);
      }
    }

    // Deleting the bucket of a key removes that key and no other.
    lemma ThatKeyOnly(key: K)
      requires Valid() && key in index
      ensures Without(index, Contents(), index[key]) == Contents() - {key}
    {
      hide TableOk;
      OneKey(Slots(flags[..]), keys[..], nBuckets, index, hash, key);
    }

    // A bucket without an entry is no key's bucket.
    lemma Unlisted(x: nat)
      requires Valid() && x <= nBuckets
      ensures x == nBuckets || Slots(flags[..])[x] != Live ==> Without(index, Contents(), x) == Contents()
    {
      if x < nBuckets { NoKeyHere(Slots(flags[..]), keys[..], nBuckets, index, hash, x); }
      if x == nBuckets || Slots(flags[..])[x] != Live { NothingWithout(index, vals[..], x); }
    }

    method Erase(x: nat)
      requires Valid() && x < nBuckets && Slots(flags[..])[x] == Live
      modifies this`size, this`index, flags
      ensures Valid()
      ensures Contents() == Without(old(index), old(Contents()), x)
    {
      hide TableOk, Counted, Entries, Without, DeletedSet, FSize, IsPow2;
      CountedDelete(Slots(flags[..]), keys[..], nBuckets, size, nOccupied, upperBound, index, hash, x);
      OneWithout(index, vals[..], keys[x], x);
      Vacate(x);
    }

    method Vacate(x: nat)
      requires Separate() && x < keys.Length && x < 16 * flags.Length && size > 0
      requires Slots(flags[..])[x] == Live
      modifies this`size, this`index, flags
      ensures Slots(flags[..]) == old(Slots(flags[..]))[x := Deleted] && flags.Length == old(flags.Length)
      ensures keys[..] == old(keys[..]) && vals[..] == old(vals[..])
      ensures size == old(size) - 1 && index == old(index) - {keys[x]}
    {
      SetIsDelTrue(flags, x);
      size := size - 1;
      index := index - {keys[x]};
    }

    // kh_clear: no entries and no tombstones, same buckets.
    method Clear()
      requires Valid()
      modifies this`size, this`nOccupied, this`index, flags
      ensures Valid() && Contents() == map[] && nOccupied == 0 && nBuckets == old(nBuckets)
    {
      hide TableOk;
      if flags.Length > 0 {
        Fill(flags);
        size, nOccupied, index := 0, 0, map[];
        CountedEmpty(Slots(flags[..]), keys[..], nBuckets, hash);
      }
    }

    // `kh_value(h, x) = v` on the bucket of a key
    method SetValue(key: K, x: nat, v: V)
      requires Valid() && key in index && index[key] == x
      modifies vals
      ensures Valid() && Contents() == old(Contents())[key := v] && CanPut() == old(CanPut())
    {
      hide TableOk;
      OneKey(Slots(flags[..]), keys[..], nBuckets, index, hash, key);
      vals[x] := v;
    }

    // `kh_value(h, x)` on the bucket of a key
    method Value(key: K, x: nat) returns (v: V)
      requires Valid() && key in index && index[key] == x
      ensures v == Contents()[key]
    {
      v := vals[x];
    }
  }

  // The entries whose bucket is not x.
  ghost function Without<K, V>(idx: map<K, nat>, e: map<K, V>, x: nat): map<K, V> {
    map k | k in e && k in idx && idx[k] != x :: e[k]
  }

  lemma NothingWithout<K, V>(idx: map<K, nat>, vs: seq<V>, x: nat)
    requires forall k :: k in idx ==> idx[k] < |vs| && idx[k] != x
    ensures Without(idx, Entries(idx, vs), x) == Entries(idx, vs)
  {
  }

  lemma OneWithout<K, V>(idx: map<K, nat>, vs: seq<V>, key: K, x: nat)
    requires forall k :: k in idx ==> idx[k] < |vs| && (idx[k] == x <==> k == key)
    ensures Without(idx, Entries(idx, vs), x) == Entries(idx - {key}, vs)
  {
  }

  lemma CountedDelete<K>(fl: seq<Flag>, ks: seq<K>, n: nat, size: nat, occupied: nat, bound: nat,
                         idx: map<K, nat>, hash: K -> u32, x: nat)
    requires Counted(fl, ks, n, size, occupied, bound, idx, hash)
    requires x < n <= |fl| && n <= |ks| && fl[x] == Live
    ensures size > 0 && forall k :: k in idx ==> (idx[k] == x <==> k == ks[x])
    ensures Counted(fl[x := Deleted], ks, n, size - 1, occupied, bound, idx - {ks[x]}, hash)
  {
    DeleteOk(fl, ks, n, idx, hash, x);
    DeletedSetUpdate(fl, n, x, Deleted);
    assert (idx - {ks[x]}).Keys == idx.Keys - {ks[x]};
    assert |idx - {ks[x]}| == |(idx - {ks[x]}).Keys|;
  }

  // No two keys share a bucket.
  lemma OneKey<K>(fl: seq<Flag>, ks: seq<K>, n: nat, idx: map<K, nat>, hash: K -> u32, key: K)
    requires TableOk(fl, ks, n, idx, hash) && key in idx
    ensures forall k :: k in idx ==> (idx[k] == idx[key] <==> k == key)
  {
  }

  lemma NoKeyHere<K>(fl: seq<Flag>, ks: seq<K>, n: nat, idx: map<K, nat>, hash: K -> u32, x: nat)
    requires TableOk(fl, ks, n, idx, hash) && x < n
    ensures fl[x] != Live ==> forall k :: k in idx ==> idx[k] != x
  {
  }

  lemma CountedEmpty<K>(fl: seq<Flag>, ks: seq<K>, n: nat, hash: K -> u32)
    requires IsPow2(n) && n <= |fl| && n <= |ks| && forall b: nat :: b < |fl| ==> fl[b] == Empty
    ensures Counted(fl, ks, n, 0, 0, UpperBound(n), map[], hash)
  {
    assert DeletedSet(fl, n) == {};
  }

  lemma CountedInsert<K>(fl: seq<Flag>, ks: seq<K>, n: nat, size: nat, occupied: nat, bound: nat,
                         idx: map<K, nat>, hash: K -> u32, key: K, x: nat)
    requires Counted(fl, ks, n, size, occupied, bound, idx, hash) && occupied < bound
    requires key !in idx && x < n && fl[x] != Live && OnPath(fl, Path(hash(key), n), x)
    ensures Counted(fl[x := Live], ks[x := key], n, size + 1,
                    if fl[x] == Empty then occupied + 1 else occupied, bound, idx[key := x], hash)
    ensures fl[x] in {Empty, Deleted} && |idx[key := x]| == |idx| + 1
  {
    hide TableOk, DeletedSet, OnPath, Path, UpperBound;
    BucketFree(fl, ks, n, idx, hash, x);
    InsertOk(fl, ks, n, idx, hash, key, x);
    DeletedSetUpdate(fl, n, x, Live);
    DeletedLess(fl, n, x);
    assert idx[key := x].Keys == idx.Keys + {key};
    assert |idx[key := x]| == |idx[key := x].Keys|;
  }

  lemma BucketFree<K>(fl: seq<Flag>, ks: seq<K>, n: nat, idx: map<K, nat>, hash: K -> u32, x: nat)
    requires TableOk(fl, ks, n, idx, hash) && x < n && fl[x] != Live
    ensures n <= |fl| && n <= |ks| && fl[x] in {Empty, Deleted}
  {
  }

  lemma DeletedLess(fl: seq<Flag>, n: nat, x: nat)
    requires x < n <= |fl|
    ensures x in DeletedSet(fl, n) <==> fl[x] == Deleted
  {
  }

  lemma OtherEntries<K, V>(idx: map<K, nat>, vs: seq<V>, key: K, x: nat)
    requires x < |vs| && forall k :: k in idx ==> idx[k] < |vs|
    ensures Entries(idx[key := x], vs) - {key} == Entries(idx, vs) - {key}
  {
  }

  // The bucket kh_put settles on: the key's own, or else the last tombstone its search passed,
  // or else the empty bucket where the search ended.
  method FindSlot<K(==)>(flags: array<bv32>, keys: array<K>, n: nat, hash: K -> u32, key: K, ghost idx: map<K, nat>)
    returns (x: nat)
    requires n <= 16 * flags.Length
    requires TableOk(Slots(flags[..]), keys[..], n, idx, hash)
    requires |idx| + |DeletedSet(Slots(flags[..]), n)| < n
    ensures x < n && OnPath(Slots(flags[..]), Path(hash(key), n), x)
    ensures key in idx <==> Slots(flags[..])[x] == Live
    ensures key in idx ==> idx[key] == x
  {
    ghost var fl, ks := Slots(flags[..]), keys[..];
    ghost var p, stop := SearchStart(fl, ks, n, idx, hash, key);
    var i, site, t := Search(flags, keys, n, hash(key), key, stop);
    SearchEnd(fl, ks, n, idx, hash, key, t, stop, i);
    x := if IsEmpty(flags, i) && site != n then site else i;
  }

  function NewSize(requested: u32): nat {
    var m := RoundUp32(requested);
    if m < 4 then 4 else m
  }

  lemma NewSizeRange(requested: u32)
    ensures IsPow2(NewSize(requested)) && 4 <= NewSize(requested) <= 0x8000_0000
    ensures NewSize(requested) <= 16 * FSize(NewSize(requested))
  {
    RoundUp32Range(requested);
    if NewSize(requested) >= 16 { Pow2Div16(NewSize(requested)); }
    assert IsPow2(2) && IsPow2(4);
  }

  // The sizes kh_put asks for: n - 1 rounds up to n itself (purging tombstones), n + 1 to 2n
  // (to 4 from nothing), and the entries fit below the new bound either way.
  lemma PutSizes(n: nat, size: nat)
    requires n == 0 || (IsPow2(n) && 4 <= n < 0x8000_0000)
    requires size <= UpperBound(n)
    ensures n > 0 ==> NewSize(n - 1) == n && NewSize(n + 1) == 2 * n
    ensures n == 0 ==> NewSize(n + 1) == 4
    ensures size + 1 < UpperBound(NewSize(n + 1))
    ensures n > 2 * size ==> size + 1 < UpperBound(n)
  {
    RoundUp32Correct(n + 1);
    if n > 0 {
      RoundUp32Correct(n - 1);
      Pow2Between(RoundUp32(n - 1), n);
      Pow2Between(n, RoundUp32(n + 1));
      Pow2Between(RoundUp32(n + 1), 2 * n);
    }
  }
}
