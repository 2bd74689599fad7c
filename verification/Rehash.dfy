// The in-place rehash of kh_resize. Old entries live under the old flags, placed entries under
// the new flags, and at most one entry is in hand; the arrays are shared between both views.
module Rehash {
  import opened Bits
  import opened Probing
  import opened Flags
  import opened TableLayout

  // Old flags fl over n buckets, new flags nf over m buckets. Every entry of `goal` is exactly one
  // of: still at its old bucket, already placed, or in hand.
  ghost predicate Midway<K, V>(fl: seq<Flag>, nf: seq<Flag>, ks: seq<K>, vs: seq<V>, n: nat, m: nat,
                               hash: K -> u32, was: map<K, nat>, now: map<K, nat>,
                               hand: map<K, V>, goal: map<K, V>)
  {
    && Indexed(fl, ks, n, was)
    && TableOk(nf, ks, m, now, hash)
    && |vs| == |ks|
    && LiveOrEmpty(nf, m)
    && Cleared(fl, nf, n, m)
    && Accounted(vs, was, now, hand, goal)
  }

  // Where an old entry lives, the new table has none.
  ghost predicate Cleared(fl: seq<Flag>, nf: seq<Flag>, n: nat, m: nat)
    requires n <= |fl| && m <= |nf|
  {
    forall b: nat :: b < n && b < m && fl[b] == Live ==> nf[b] == Empty
  }

  ghost predicate LiveOrEmpty(nf: seq<Flag>, m: nat) {
    m <= |nf| && forall b: nat :: b < m ==> nf[b] == Live || nf[b] == Empty
  }

  ghost predicate Accounted<K, V>(vs: seq<V>, was: map<K, nat>, now: map<K, nat>,
                                  hand: map<K, V>, goal: map<K, V>)
  {
    && (forall k :: k in goal ==> k in was || k in now || k in hand)
    && (forall k :: k in was ==> k in goal && k !in now && k !in hand)
    && (forall k :: k in now ==> k in goal && k !in hand)
    && (forall k :: k in hand ==> k in goal)
    && (forall k :: k in was ==> was[k] < |vs| && vs[was[k]] == goal[k])
    && (forall k :: k in now ==> now[k] < |vs| && vs[now[k]] == goal[k])
    && (forall k :: k in hand ==> hand[k] == goal[k])
  }

  lemma ForgetOld<K>(fl: seq<Flag>, ks: seq<K>, n: nat, was: map<K, nat>, j: nat)
    requires Indexed(fl, ks, n, was) && j < n && fl[j] == Live
    ensures Indexed(fl[j := Deleted], ks, n, was - {ks[j]})
    ensures ks[j] in was && was[ks[j]] == j && |was - {ks[j]}| < |was|
  {
    assert (was - {ks[j]}).Keys == was.Keys - {ks[j]};
  }

  // Overwriting a bucket that is no longer live does not disturb the old entries.
  lemma OverwriteDead<K>(fl: seq<Flag>, ks: seq<K>, n: nat, was: map<K, nat>, i: nat, key: K)
    requires Indexed(fl, ks, n, was) && i < |ks| && (i < n ==> fl[i] != Live)
    ensures Indexed(fl, ks[i := key], n, was)
  {
  }

  // The outer loop takes the entry of old bucket j in hand.
  lemma Take<K, V>(fl: seq<Flag>, nf: seq<Flag>, ks: seq<K>, vs: seq<V>, n: nat, m: nat,
                   hash: K -> u32, was: map<K, nat>, now: map<K, nat>, goal: map<K, V>, j: nat)
    requires Midway(fl, nf, ks, vs, n, m, hash, was, now, map[], goal)
    requires j < n && fl[j] == Live
    ensures Midway(fl[j := Deleted], nf, ks, vs, n, m, hash, was - {ks[j]}, now, map[ks[j] := vs[j]], goal)
    ensures |was - {ks[j]}| < |was|
  {
    ForgetOld(fl, ks, n, was, j);
    TakeAccounted(fl, ks, vs, n, was, now, goal, j);
  }

  lemma TakeAccounted<K, V>(fl: seq<Flag>, ks: seq<K>, vs: seq<V>, n: nat,
                            was: map<K, nat>, now: map<K, nat>, goal: map<K, V>, j: nat)
    requires Indexed(fl, ks, n, was) && |ks| == |vs| && Accounted(vs, was, now, map[], goal)
    requires j < n && fl[j] == Live
    ensures Accounted(vs, was - {ks[j]}, now, map[ks[j] := vs[j]], goal)
  {
    assert was[ks[j]] == j;
  }

  // The entry in hand is written into new bucket i, where no old entry lives.
  lemma Place<K, V>(fl: seq<Flag>, nf: seq<Flag>, ks: seq<K>, vs: seq<V>, n: nat, m: nat,
                    hash: K -> u32, was: map<K, nat>, now: map<K, nat>, goal: map<K, V>,
                    key: K, val: V, i: nat)
    requires Midway(fl, nf, ks, vs, n, m, hash, was, now, map[key := val], goal)
    requires i < m && OnPath(nf, Path(hash(key), m), i) && nf[i] == Empty
    requires i < n ==> fl[i] != Live
    ensures Midway(fl, nf[i := Live], ks[i := key], vs[i := val], n, m, hash,
                   was, now[key := i], map[], goal)
  {
    OverwriteDead(fl, ks, n, was, i, key);
    InsertOk(nf, ks, m, now, hash, key, i);
    PlaceAccounted(fl, nf, ks, vs, n, m, hash, was, now, goal, key, val, i);
  }

  lemma PlaceAccounted<K, V>(fl: seq<Flag>, nf: seq<Flag>, ks: seq<K>, vs: seq<V>, n: nat, m: nat,
                             hash: K -> u32, was: map<K, nat>, now: map<K, nat>, goal: map<K, V>,
                             key: K, val: V, i: nat)
    requires Midway(fl, nf, ks, vs, n, m, hash, was, now, map[key := val], goal)
    requires i < m && nf[i] == Empty && (i < n ==> fl[i] != Live)
    ensures Accounted(vs[i := val], was, now[key := i], map[], goal)
  {
  }

  // The entry in hand is written into new bucket i and the old entry found there is kicked out.
  lemma Kick<K, V>(fl: seq<Flag>, nf: seq<Flag>, ks: seq<K>, vs: seq<V>, n: nat, m: nat,
                   hash: K -> u32, was: map<K, nat>, now: map<K, nat>, goal: map<K, V>,
                   key: K, val: V, i: nat)
    requires Midway(fl, nf, ks, vs, n, m, hash, was, now, map[key := val], goal)
    requires i < m && OnPath(nf, Path(hash(key), m), i) && nf[i] == Empty
    requires i < n && fl[i] == Live
    ensures Midway(fl[i := Deleted], nf[i := Live], ks[i := key], vs[i := val], n, m, hash,
                   was - {ks[i]}, now[key := i], map[ks[i] := vs[i]], goal)
    ensures |was - {ks[i]}| < |was|
  {
    hide Indexed, TableOk, OnPath, Path, Accounted, LiveOrEmpty, Cleared;
    KickFlags(fl, nf, ks, vs, n, m, hash, was, now, goal, key, val, i);
    ForgetOld(fl, ks, n, was, i);
    OverwriteDead(fl[i := Deleted], ks, n, was - {ks[i]}, i, key);
    InsertOk(nf, ks, m, now, hash, key, i);
    KickAccounted(fl, nf, ks, vs, n, m, hash, was, now, goal, key, val, i);
  }

  // The flags of both tables stay apart.
  lemma KickFlags<K, V>(fl: seq<Flag>, nf: seq<Flag>, ks: seq<K>, vs: seq<V>, n: nat, m: nat,
                        hash: K -> u32, was: map<K, nat>, now: map<K, nat>, goal: map<K, V>,
                        key: K, val: V, i: nat)
    requires Midway(fl, nf, ks, vs, n, m, hash, was, now, map[key := val], goal)
    requires i < m && i < n && nf[i] == Empty && fl[i] == Live
    ensures i < |fl| && i < |nf| && i < |ks| == |vs| && key !in now && n <= |fl| && n <= |ks|
    ensures m <= |nf| && LiveOrEmpty(nf[i := Live], m) && Cleared(fl[i := Deleted], nf[i := Live], n, m)
  {
    hide OnPath, Path;
  }

  lemma KickAccounted<K, V>(fl: seq<Flag>, nf: seq<Flag>, ks: seq<K>, vs: seq<V>, n: nat, m: nat,
                            hash: K -> u32, was: map<K, nat>, now: map<K, nat>, goal: map<K, V>,
                            key: K, val: V, i: nat)
    requires Midway(fl, nf, ks, vs, n, m, hash, was, now, map[key := val], goal)
    requires i < m && i < n && nf[i] == Empty && fl[i] == Live
    ensures Accounted(vs[i := val], was - {ks[i]}, now[key := i], map[ks[i] := vs[i]], goal)
  {
    assert was[ks[i]] == i;
  }

  // The placed entries alone never fill the new table.
  lemma Room<K, V>(fl: seq<Flag>, nf: seq<Flag>, ks: seq<K>, vs: seq<V>, n: nat, m: nat,
                   hash: K -> u32, was: map<K, nat>, now: map<K, nat>, hand: map<K, V>, goal: map<K, V>)
    returns (b: nat)
    requires Midway(fl, nf, ks, vs, n, m, hash, was, now, hand, goal) && |goal| < m
    ensures b < m && nf[b] == Empty
  {
    SubsetCount(now.Keys, goal.Keys);
    assert DeletedSet(nf, m) == {};
    b := SomeEmpty(nf, ks, m, now);
  }

  // A search along p for a free bucket has passed t of them; there is one at position `stop`.
  ghost predicate Seeking(nf: seq<Flag>, p: seq<nat>, t: nat, stop: nat, i: nat) {
    t <= stop < |p| && i == p[t] < |nf| && p[stop] < |nf| && nf[p[stop]] == Empty && PathOpen(nf, p, t)
  }

  lemma SeekStep(nf: seq<Flag>, h: nat, n: nat, t: nat, stop: nat, i: nat)
    requires IsPow2(n) && n <= |nf| && Seeking(nf, Path(h, n), t, stop, i) && nf[i] != Empty
    ensures Seeking(nf, Path(h, n), t + 1, stop, And(i + (t + 1), n - 1))
  {
    PathStep(h, n, t);
  }

  lemma SeekEnd(nf: seq<Flag>, h: nat, n: nat, t: nat, stop: nat, i: nat)
    requires IsPow2(n) && Seeking(nf, Path(h, n), t, stop, i)
    ensures i < n && OnPath(nf, Path(h, n), i)
  {
  }

  // The probing loop of the rehash; it has no cut-off.
  method FindFree(newFlags: array<bv32>, h: u32, m: nat, ghost b: nat) returns (i: nat)
    requires IsPow2(m) && LiveOrEmpty(Slots(newFlags[..]), m)
    requires b < m && Slots(newFlags[..])[b] == Empty
    ensures i < m && Slots(newFlags[..])[i] == Empty
    ensures OnPath(Slots(newFlags[..]), Path(h, m), i)
  {
    hide Slots, IsPow2, Path, And, OnPath;
    ghost var nf := Slots(newFlags[..]);
    ghost var stop := FirstEmpty(nf, h, m, b);
    var step := 0;
    PathStart(h, m);
    i := And(h, m - 1);
    while !IsEmpty(newFlags, i)
      invariant Seeking(nf, Path(h, m), step, stop, i)
      decreases stop - step
    {
      SeekStep(nf, h, m, step, stop, i);
      step := step + 1;
      i := And(i + step, m - 1);
    }
    SeekEnd(nf, h, m, step, stop, i);
  }

  ghost predicate Apart<K, V>(flags: array<bv32>, newFlags: array<bv32>, keys: array<K>, vals: array<V>) {
    && flags != newFlags && keys != vals as object
    && keys as object !in {flags, newFlags} && vals as object !in {flags, newFlags}
  }

  // Buckets only ever stop being live.
  ghost predicate Retired(was: seq<Flag>, now: seq<Flag>) {
    |was| == |now| && forall b: nat :: b < |now| && now[b] == Live ==> was[b] == Live
  }

  ghost predicate DoneBelow(fl: seq<Flag>, j: nat) {
    j <= |fl| && forall b: nat :: b < j ==> fl[b] != Live
  }

  lemma RetiredAfter(was: seq<Flag>, j: nat, now: seq<Flag>)
    requires j < |was| && Retired(was[j := Deleted], now)
    ensures Retired(was, now) && now[j] != Live
  {
  }

  lemma OneMoreDone(was: seq<Flag>, now: seq<Flag>, j: nat)
    requires DoneBelow(was, j) && Retired(was, now) && j < |now| && now[j] != Live
    ensures DoneBelow(now, j + 1)
  {
  }

  // Write an entry into bucket i, taking out the old entry if one lives there.
  method Exchange<K, V>(flags: array<bv32>, keys: array<K>, vals: array<V>, n: nat, key: K, val: V, i: nat)
    returns (kicked: bool, key': K, val': V)
    requires keys != vals as object && flags != keys as object && flags != vals as object
    requires n <= 16 * flags.Length && i < keys.Length == vals.Length
    modifies flags, keys, vals
    ensures kicked <==> i < n && old(Slots(flags[..]))[i] == Live
    ensures key' == old(keys[i]) && val' == old(vals[i])
    ensures keys[..] == old(keys[..])[i := key] && vals[..] == old(vals[..])[i := val]
    ensures Slots(flags[..]) == if kicked then old(Slots(flags[..]))[i := Deleted] else old(Slots(flags[..]))
    ensures Retired(old(Slots(flags[..])), Slots(flags[..]))
  {
    kicked := i < n && !IsEither(flags, i);
    key', val' := keys[i], vals[i];
    keys[i], vals[i] := key, val;
    if kicked { SetIsDelTrue(flags, i); }
  }

  // One round of the kick-out loop: find a free new bucket for the entry in hand and either
  // swap it with the old entry living there or write it and be done.
  method PlaceOne<K, V>(flags: array<bv32>, newFlags: array<bv32>, keys: array<K>, vals: array<V>,
                        n: nat, m: nat, hash: K -> u32, key: K, val: V,
                        ghost was: map<K, nat>, ghost now: map<K, nat>, ghost goal: map<K, V>)
    returns (kicked: bool, key': K, val': V, ghost was': map<K, nat>, ghost now': map<K, nat>)
    requires Apart(flags, newFlags, keys, vals)
    requires Midway(Slots(flags[..]), Slots(newFlags[..]), keys[..], vals[..], n, m, hash,
                    was, now, map[key := val], goal)
    requires |goal| < m
    modifies flags, newFlags, keys, vals
    ensures Midway(Slots(flags[..]), Slots(newFlags[..]), keys[..], vals[..], n, m, hash,
                   was', now', if kicked then map[key' := val'] else map[], goal)
    ensures if kicked then |was'| < |was| else was' == was
    ensures Retired(old(Slots(flags[..])), Slots(flags[..]))
  {
    ghost var fl, nf, ks, vs := Slots(flags[..]), Slots(newFlags[..]), keys[..], vals[..];
    ghost var b := Room(fl, nf, ks, vs, n, m, hash, was, now, map[key := val], goal);
    var i := FindFree(newFlags, hash(key), m, b);
    SetIsEmptyFalse(newFlags, i);
    kicked, key', val' := Exchange(flags, keys, vals, n, key, val, i);
    now' := now[key := i];
    if kicked {
      Kick(fl, nf, ks, vs, n, m, hash, was, now, goal, key, val, i);
      was' := was - {key'};
    } else {
      Place(fl, nf, ks, vs, n, m, hash, was, now, goal, key, val, i);
      was' := was;
    }
  }

  // The kick-out loop: every round but the last retires one old live bucket.
  method KickOut<K, V>(flags: array<bv32>, newFlags: array<bv32>, keys: array<K>, vals: array<V>,
                       n: nat, m: nat, hash: K -> u32, key0: K, val0: V,
                       ghost was0: map<K, nat>, ghost now0: map<K, nat>, ghost goal: map<K, V>)
    returns (ghost was: map<K, nat>, ghost now: map<K, nat>)
    requires Apart(flags, newFlags, keys, vals)
    requires Midway(Slots(flags[..]), Slots(newFlags[..]), keys[..], vals[..], n, m, hash,
                    was0, now0, map[key0 := val0], goal)
    requires |goal| < m
    modifies flags, newFlags, keys, vals
    ensures Midway(Slots(flags[..]), Slots(newFlags[..]), keys[..], vals[..], n, m, hash,
                   was, now, map[], goal)
    ensures Retired(old(Slots(flags[..])), Slots(flags[..]))
  {
    var key, val, more := key0, val0, true;
    was, now := was0, now0;
    while more
      invariant Midway(Slots(flags[..]), Slots(newFlags[..]), keys[..], vals[..], n, m, hash,
                       was, now, if more then map[key := val] else map[], goal)
      invariant Retired(old(Slots(flags[..])), Slots(flags[..]))
      decreases |was| + if more then 1 else 0
    {
      more, key, val, was, now :=
        PlaceOne(flags, newFlags, keys, vals, n, m, hash, key, val, was, now, goal);
    }
  }

  // The body of the outer loop: if old bucket j is live, take its entry in hand and place it.
  method TakeBucket<K, V>(flags: array<bv32>, newFlags: array<bv32>, keys: array<K>, vals: array<V>,
                          n: nat, m: nat, hash: K -> u32,
                          ghost was0: map<K, nat>, ghost now0: map<K, nat>, ghost goal: map<K, V>, j: nat)
    returns (ghost was: map<K, nat>, ghost now: map<K, nat>)
    requires Apart(flags, newFlags, keys, vals)
    requires Midway(Slots(flags[..]), Slots(newFlags[..]), keys[..], vals[..], n, m, hash,
                    was0, now0, map[], goal)
    requires |goal| < m && j < n
    modifies flags, newFlags, keys, vals
    ensures Midway(Slots(flags[..]), Slots(newFlags[..]), keys[..], vals[..], n, m, hash,
                   was, now, map[], goal)
    ensures Retired(old(Slots(flags[..])), Slots(flags[..])) && Slots(flags[..])[j] != Live
  {
    was, now := was0, now0;
    if !IsEither(flags, j) {
      var key, val := keys[j], vals[j];
      ghost var fl := Slots(flags[..]);
      Take(fl, Slots(newFlags[..]), keys[..], vals[..], n, m, hash, was, now, goal, j);
      SetIsDelTrue(flags, j);
      was, now := KickOut(flags, newFlags, keys, vals, n, m, hash, key, val, was - {key}, now, goal);
      RetiredAfter(fl, j, Slots(flags[..]));
    }
  }

  // The whole rehash: afterwards the new flags index exactly the entries of `goal`.
  method RehashAll<K, V>(flags: array<bv32>, newFlags: array<bv32>, keys: array<K>, vals: array<V>,
                         n: nat, m: nat, hash: K -> u32, ghost index: map<K, nat>, ghost goal: map<K, V>)
    returns (ghost now: map<K, nat>)
    requires Apart(flags, newFlags, keys, vals)
    requires Midway(Slots(flags[..]), Slots(newFlags[..]), keys[..], vals[..], n, m, hash,
                    index, map[], map[], goal)
    requires |goal| < m
    modifies flags, newFlags, keys, vals
    ensures TableOk(Slots(newFlags[..]), keys[..], m, now, hash)
    ensures DeletedSet(Slots(newFlags[..]), m) == {}
    ensures now.Keys == goal.Keys
    ensures forall k :: k in goal ==> now[k] < vals.Length && vals[..][now[k]] == goal[k]
  {
    ghost var was := index;
    now := map[];
    var j := 0;
    while j != n
      invariant j <= n
      invariant Midway(Slots(flags[..]), Slots(newFlags[..]), keys[..], vals[..], n, m, hash,
                       was, now, map[], goal)
      invariant DoneBelow(Slots(flags[..]), j)
      decreases n - j
    {
      ghost var before := Slots(flags[..]);
      was, now := TakeBucket(flags, newFlags, keys, vals, n, m, hash, was, now, goal, j);
      OneMoreDone(before, Slots(flags[..]), j);
      j := j + 1;
    }
    Settled(Slots(flags[..]), Slots(newFlags[..]), keys[..], vals[..], n, m, hash, was, now, goal);
  }

  lemma Settled<K, V>(fl: seq<Flag>, nf: seq<Flag>, ks: seq<K>, vs: seq<V>, n: nat, m: nat,
                      hash: K -> u32, was: map<K, nat>, now: map<K, nat>, goal: map<K, V>)
    requires Midway(fl, nf, ks, vs, n, m, hash, was, now, map[], goal)
    requires DoneBelow(fl, n)
    ensures TableOk(nf, ks, m, now, hash)
    ensures now.Keys == goal.Keys && DeletedSet(nf, m) == {}
    ensures forall k :: k in goal ==> now[k] < |vs| && vs[now[k]] == goal[k]
  {
    assert forall k :: k !in was;
  }
}
