// The shared ring buffer: any number of processes add and remove, interleaved at every semaphore
// operation, lock operation, copy and pointer move.
module Queue {
  import opened Words
  import Arith

  // A slot of the shared memory; while an element is being copied in, its bytes are of no use.
  datatype Slot<T> = Unwritten | Torn | Full(value: T)

  // Where a process is in queue_add or queue_remove.
  datatype Pc<T> =
    | Idle
    | AddWaits(x: T)        // before sem_wait(can_write_lock)
    | AddMayWrite(x: T)     // before pthread_mutex_lock
    | AddLocked(x: T)       // before memcpy
    | AddCopying(x: T)      // in memcpy
    | AddCopied(x: T)       // before tail = next
    | AddMoved(x: T)        // before pthread_mutex_unlock
    | AddPosts(x: T)        // before sem_post(can_read_lock)
    | RemoveWaits
    | RemoveMayRead
    | RemoveLocked
    | RemoveCopying
    | RemoveCopied(x: T)
    | RemoveMoved(x: T)
    | RemovePosts(x: T)

  // Pointers are counted in elements from the start of the data. `added` and `removed` are the
  // history: what has been put in and taken out, in the order of the pointer moves.
  datatype State<T> = State(slots: seq<Slot<T>>, head: nat, tail: nat, canWrite: nat, canRead: nat,
                            lock: Option<nat>, procs: seq<Pc<T>>, added: seq<T>, removed: seq<T>)

  ghost predicate Shape<T>(s: State<T>) {
    |s.slots| > 0 && s.head < |s.slots| && s.tail < |s.slots|
  }

  function Wrap(next: nat, max: nat): nat {
    if next == max then 0 else next
  }

  // queue_new, for n processes
  function Init<T>(max: nat, n: nat): State<T> {
    State(seq(max, i => Unwritten), 0, 0, max, 0, None, seq(n, i => Idle), [], [])
  }

  function Goto<T>(s: State<T>, p: nat, pc: Pc<T>): State<T>
    requires p < |s.procs|
  {
    s.(procs := s.procs[p := pc])
  }

  // The next step of process p, if it is not blocked. What is copied from a slot that is not full
  // is garbage: such a step is an error.
  ghost function Step<T>(s: State<T>, p: nat): Option<State<T>>
    requires Shape(s) && p < |s.procs|
  {
    match s.procs[p]
    case Idle => None
    case AddWaits(x) =>
      if s.canWrite > 0 then Some(Goto(s, p, AddMayWrite(x)).(canWrite := s.canWrite - 1)) else None
    case AddMayWrite(x) =>
      if s.lock.None? then Some(Goto(s, p, AddLocked(x)).(lock := Some(p))) else None
    case AddLocked(x) => Some(Goto(s, p, AddCopying(x)).(slots := s.slots[s.tail := Torn]))
    case AddCopying(x) => Some(Goto(s, p, AddCopied(x)).(slots := s.slots[s.tail := Full(x)]))
    case AddCopied(x) =>
      Some(Goto(s, p, AddMoved(x)).(tail := Wrap(s.tail + 1, |s.slots|), added := s.added + [x]))
    case AddMoved(x) => Some(Goto(s, p, AddPosts(x)).(lock := None))
    case AddPosts(_) => Some(Goto(s, p, Idle).(canRead := s.canRead + 1))
    case RemoveWaits =>
      if s.canRead > 0 then Some(Goto(s, p, RemoveMayRead).(canRead := s.canRead - 1)) else None
    case RemoveMayRead =>
      if s.lock.None? then Some(Goto(s, p, RemoveLocked).(lock := Some(p))) else None
    case RemoveLocked => Some(Goto(s, p, RemoveCopying))
    case RemoveCopying =>
      if s.slots[s.head].Full? then Some(Goto(s, p, RemoveCopied(s.slots[s.head].value))) else None
    case RemoveCopied(x) =>
      Some(Goto(s, p, RemoveMoved(x)).(head := Wrap(s.head + 1, |s.slots|), removed := s.removed + [x]))
    case RemoveMoved(x) => Some(Goto(s, p, RemovePosts(x)).(lock := None))
    case RemovePosts(_) => Some(Goto(s, p, Idle).(canWrite := s.canWrite + 1))
  }

  // Some process takes a step, or an idle one begins to add or to remove.
  ghost predicate Next<T(!new)>(s: State<T>, t: State<T>)
    requires Shape(s)
  {
    exists p: nat :: p < |s.procs| && Moves(s, p, t)
  }

  ghost predicate Moves<T(!new)>(s: State<T>, p: nat, t: State<T>)
    requires Shape(s) && p < |s.procs|
  {
    || Step(s, p) == Some(t)
    || (s.procs[p].Idle? && (t == Goto(s, p, RemoveWaits) || exists x :: t == Goto(s, p, AddWaits(x))))
  }

  // ---- Counting processes ----

  datatype Role = Outside | Writing | Written | Reading | Read

  // An adder holds a free slot until it has moved the tail, and an element not yet posted after
  // that; for a remover it is the other way round.
  function RoleOf<T>(pc: Pc<T>): Role {
    match pc
    case AddMayWrite(_) => Writing
    case AddLocked(_) => Writing
    case AddCopying(_) => Writing
    case AddCopied(_) => Writing
    case AddMoved(_) => Written
    case AddPosts(_) => Written
    case RemoveMayRead => Reading
    case RemoveLocked => Reading
    case RemoveCopying => Reading
    case RemoveCopied(_) => Reading
    case RemoveMoved(_) => Read
    case RemovePosts(_) => Read
    case _ => Outside
  }

  function Count<T>(procs: seq<Pc<T>>, r: Role): nat {
    if procs == [] then 0 else (if RoleOf(procs[0]) == r then 1 else 0) + Count(procs[1..], r)
  }

  function Is<T>(pc: Pc<T>, r: Role): nat {
    if RoleOf(pc) == r then 1 else 0
  }

  lemma {:induction false} CountUpdate<T>(procs: seq<Pc<T>>, p: nat, pc: Pc<T>, r: Role)
    requires p < |procs|
    ensures Count(procs[p := pc], r) + Is(procs[p], r) == Count(procs, r) + Is(pc, r)
    ensures Count(procs, r) >= Is(procs[p], r)
  {
    hide RoleOf;
    if p == 0 {
      assert procs[p := pc][1..] == procs[1..];
    } else {
      assert procs[p := pc][1..] == procs[1..][p - 1 := pc];
      CountUpdate(procs[1..], p - 1, pc, r);
    }
  }

  lemma {:induction false} CountIdle<T>(n: nat, r: Role)
    requires r != Outside
    ensures Count(seq<Pc<T>>(n, i => Idle), r) == 0
  {
    var procs := seq<Pc<T>>(n, i => Idle);
    if n > 0 {
      assert procs[1..] == seq<Pc<T>>(n - 1, i => Idle);
      CountIdle<T>(n - 1, r);
    }
  }

  // ---- The invariant ----

  predicate HoldsLock<T>(pc: Pc<T>) {
    pc.AddLocked? || pc.AddCopying? || pc.AddCopied? || pc.AddMoved?
    || pc.RemoveLocked? || pc.RemoveCopying? || pc.RemoveCopied? || pc.RemoveMoved?
  }

  ghost predicate Locking<T>(s: State<T>) {
    && (s.lock.Some? ==> s.lock.value < |s.procs|)
    && forall p :: 0 <= p < |s.procs| ==> (HoldsLock(s.procs[p]) <==> s.lock == Some(p))
  }

  // Every slot is free, full or in the hands of exactly one operation.
  ghost predicate Counted<T>(s: State<T>) {
    && |s.removed| <= |s.added|
    && s.canRead + Count(s.procs, Written) + Count(s.procs, Reading) == |s.added| - |s.removed|
    && s.canWrite + Count(s.procs, Writing) + Count(s.procs, Read) == |s.slots| - (|s.added| - |s.removed|)
  }

  // The elements added and not removed sit in the slots from head on.
  ghost predicate Stored<T>(s: State<T>)
    requires |s.slots| > 0
  {
    && s.head == |s.removed| % |s.slots| && s.tail == |s.added| % |s.slots|
    && s.removed <= s.added
    && forall k :: |s.removed| <= k < |s.added| ==> s.slots[k % |s.slots|] == Full(s.added[k])
  }

  // What the process inside the lock has copied.
  ghost predicate Copied<T>(s: State<T>, pc: Pc<T>)
    requires Shape(s)
  {
    match pc
    case AddCopied(x) => s.slots[s.tail] == Full(x)
    case RemoveCopied(x) => |s.removed| < |s.added| && x == s.added[|s.removed|]
    case _ => true
  }

  ghost predicate Inv<T>(s: State<T>) {
    && Shape(s) && Locking(s) && Counted(s) && Stored(s)
    && forall p :: 0 <= p < |s.procs| ==> Copied(s, s.procs[p])
  }

  lemma InitInv<T>(max: nat, n: nat)
    requires max > 0
    ensures Inv(Init<T>(max, n))
  {
    CountIdle<T>(n, Writing);
    CountIdle<T>(n, Written);
    CountIdle<T>(n, Reading);
    CountIdle<T>(n, Read);
  }

  // Only one process is inside the lock.
  lemma Alone<T>(s: State<T>, p: nat, q: nat)
    requires Locking(s) && p < |s.procs| && q < |s.procs| && HoldsLock(s.procs[p]) && p != q
    ensures !HoldsLock(s.procs[q])
  {
  }

  // An adder in possession of a permit finds room, a remover finds an element.
  lemma Room<T>(s: State<T>, p: nat)
    requires Counted(s) && p < |s.procs|
    ensures RoleOf(s.procs[p]) == Writing ==> |s.added| - |s.removed| < |s.slots|
    ensures RoleOf(s.procs[p]) == Reading ==> |s.removed| < |s.added|
  {
    CountUpdate(s.procs, p, s.procs[p], Writing);
    CountUpdate(s.procs, p, s.procs[p], Reading);
  }

  // The next slot round the buffer.
  lemma WrapIsMod(k: nat, max: nat)
    requires max > 0
    ensures Wrap(k % max + 1, max) == (k + 1) % max
  {
    Arith.DivMod(k, max);
    var q, r := k / max, k % max;
    if r + 1 == max {
      assert k + 1 == max * (q + 1) + 0;
      Arith.ModUnique(k + 1, max, q + 1, 0);
    } else {
      Arith.ModUnique(k + 1, max, q, r + 1);
    }
  }

  // Fewer than max apart means different slots.
  lemma OtherSlot(j: nat, k: nat, max: nat)
    requires j < k < j + max
    ensures j % max != k % max
  {
    if j % max == k % max {
      var q := Arith.SameRemainder(j, k, max);
      Arith.MulGap(max, 0, q);
      if q > 1 { Arith.MulGap(max, 1, q); }
    }
  }

  // ---- Every step keeps the invariant ----

  lemma LockingKept<T>(s: State<T>, p: nat, t: State<T>)
    requires Inv(s) && p < |s.procs| && Step(s, p) == Some(t)
    ensures Locking(t)
  {
    hide Count, Stored, Copied;
  }

  lemma CountsAfter<T>(procs: seq<Pc<T>>, p: nat, pc: Pc<T>)
    requires p < |procs|
    ensures Count(procs[p := pc], Writing) + Is(procs[p], Writing) == Count(procs, Writing) + Is(pc, Writing)
    ensures Count(procs[p := pc], Written) + Is(procs[p], Written) == Count(procs, Written) + Is(pc, Written)
    ensures Count(procs[p := pc], Reading) + Is(procs[p], Reading) == Count(procs, Reading) + Is(pc, Reading)
    ensures Count(procs[p := pc], Read) + Is(procs[p], Read) == Count(procs, Read) + Is(pc, Read)
  {
    hide Count, Is;
    CountUpdate(procs, p, pc, Writing);
    CountUpdate(procs, p, pc, Written);
    CountUpdate(procs, p, pc, Reading);
    CountUpdate(procs, p, pc, Read);
  }

  // Only process p moves, and what it gives up is what the semaphores and the lists get.
  lemma StepBalance<T>(s: State<T>, p: nat, t: State<T>)
    requires Shape(s) && p < |s.procs| && Step(s, p) == Some(t)
    ensures |t.procs| == |s.procs| && t.procs == s.procs[p := t.procs[p]] && |t.slots| == |s.slots|
    ensures var a, b := s.procs[p], t.procs[p];
      && t.canRead + Is(b, Written) + Is(b, Reading) - |t.added| + |t.removed|
           == s.canRead + Is(a, Written) + Is(a, Reading) - |s.added| + |s.removed|
      && t.canWrite + Is(b, Writing) + Is(b, Read) + |t.added| - |t.removed|
           == s.canWrite + Is(a, Writing) + Is(a, Read) + |s.added| - |s.removed|
    ensures |t.removed| > |s.removed| ==> s.procs[p].RemoveCopied? && |t.removed| == |s.removed| + 1
    ensures |t.added| >= |s.added|
  {
    hide Wrap, Count;
  }

  lemma CountedKept<T>(s: State<T>, p: nat, t: State<T>)
    requires Shape(s) && Counted(s) && p < |s.procs| && Step(s, p) == Some(t)
    requires s.procs[p].RemoveCopied? ==> |s.removed| < |s.added|
    ensures Counted(t)
  {
    hide Count, Step, Is;
    StepBalance(s, p, t);
    CountsAfter(s.procs, p, t.procs[p]);
  }

  // Writing into the slot at the tail touches no stored element.
  lemma WriteKeeps<T>(s: State<T>, v: Slot<T>)
    requires Shape(s) && Stored(s) && |s.added| - |s.removed| < |s.slots|
    ensures Stored(s.(slots := s.slots[s.tail := v]))
  {
    forall k | |s.removed| <= k < |s.added|
      ensures s.slots[s.tail := v][k % |s.slots|] == Full(s.added[k])
    {
      OtherSlot(k, |s.added|, |s.slots|);
    }
  }

  lemma AddKeeps<T>(s: State<T>, x: T)
    requires Shape(s) && Stored(s) && s.slots[s.tail] == Full(x)
    ensures Stored(s.(tail := Wrap(s.tail + 1, |s.slots|), added := s.added + [x]))
  {
    WrapIsMod(|s.added|, |s.slots|);
  }

  lemma RemoveKeeps<T>(s: State<T>, x: T)
    requires Shape(s) && Stored(s) && |s.removed| < |s.added| && x == s.added[|s.removed|]
    ensures Stored(s.(head := Wrap(s.head + 1, |s.slots|), removed := s.removed + [x]))
  {
    WrapIsMod(|s.removed|, |s.slots|);
  }

  lemma StoredSame<T>(s: State<T>, t: State<T>)
    requires Shape(s) && Stored(s)
    requires t.slots == s.slots && t.head == s.head && t.tail == s.tail && t.added == s.added && t.removed == s.removed
    ensures Shape(t) && Stored(t)
  {
  }

  lemma StoredKept<T>(s: State<T>, p: nat, t: State<T>)
    requires Inv(s) && p < |s.procs| && Step(s, p) == Some(t)
    ensures Shape(t) && Stored(t)
  {
    hide Count, Locking, Stored, Counted;
    Room(s, p);
    match s.procs[p]
    case AddLocked(x) =>
      WriteKeeps(s, Torn);
      StoredSame(s.(slots := s.slots[s.tail := Torn]), t);
    case AddCopying(x) =>
      WriteKeeps(s, Full(x));
      StoredSame(s.(slots := s.slots[s.tail := Full(x)]), t);
    case AddCopied(x) =>
      assert Copied(s, s.procs[p]);
      AddKeeps(s, x);
      StoredSame(s.(tail := Wrap(s.tail + 1, |s.slots|), added := s.added + [x]), t);
    case RemoveCopied(x) =>
      assert Copied(s, s.procs[p]);
      RemoveKeeps(s, x);
      StoredSame(s.(head := Wrap(s.head + 1, |s.slots|), removed := s.removed + [x]), t);
    case _ => StoredSame(s, t);
  }

  lemma CopiedKept<T>(s: State<T>, p: nat, t: State<T>, q: nat)
    requires Inv(s) && p < |s.procs| && Step(s, p) == Some(t) && q < |s.procs|
    ensures Shape(t) && Copied(t, t.procs[q])
  {
    hide Count, Locking, Counted;
    assert Copied(s, s.procs[q]);
    if q == p {
      if s.procs[p].RemoveCopying? { HeadIsFull(s, p); }
    } else if HoldsLock(s.procs[p]) {
      Alone(s, p, q);
    }
  }

  // A remover that copies finds the oldest element, whole.
  lemma HeadIsFull<T>(s: State<T>, p: nat)
    requires Inv(s) && p < |s.procs| && RoleOf(s.procs[p]) == Reading
    ensures |s.removed| < |s.added| && s.slots[s.head] == Full(s.added[|s.removed|])
  {
    hide Count, Locking;
    Room(s, p);
  }

  lemma StepKeeps<T>(s: State<T>, p: nat, t: State<T>)
    requires Inv(s) && p < |s.procs| && Step(s, p) == Some(t)
    ensures Inv(t)
  {
    hide Count, Locking, Counted, Stored, Copied, Inv;
    LockingKept(s, p, t);
    InvParts(s, p);
    CountedKept(s, p, t);
    StoredKept(s, p, t);
    forall q: nat | q < |t.procs|
      ensures Copied(t, t.procs[q])
    {
      CopiedKept(s, p, t, q);
    }
    AllKept(t);
  }

  lemma InvParts<T>(s: State<T>, p: nat)
    requires Inv(s) && p < |s.procs|
    ensures Shape(s) && Counted(s) && (s.procs[p].RemoveCopied? ==> |s.removed| < |s.added|)
  {
    hide Count, Locking, Stored;
    assert Copied(s, s.procs[p]);
  }

  lemma AllKept<T>(t: State<T>)
    requires Shape(t) && Locking(t) && Counted(t) && Stored(t)
    requires forall q: nat :: q < |t.procs| ==> Copied(t, t.procs[q])
    ensures Inv(t)
  {
    hide Count, Locking, Counted, Stored, Copied;
  }

  lemma BeginKeeps<T>(s: State<T>, p: nat, pc: Pc<T>)
    requires Inv(s) && p < |s.procs| && s.procs[p].Idle? && (pc.AddWaits? || pc.RemoveWaits?)
    ensures Inv(Goto(s, p, pc))
  {
    hide Count, Stored;
    CountUpdate(s.procs, p, pc, Writing);
    CountUpdate(s.procs, p, pc, Written);
    CountUpdate(s.procs, p, pc, Reading);
    CountUpdate(s.procs, p, pc, Read);
    StoredSame(s, Goto(s, p, pc));
  }

  lemma NextKeeps<T(!new)>(s: State<T>, t: State<T>)
    requires Inv(s) && Next(s, t)
    ensures Inv(t)
  {
    hide Count, Locking, Counted, Stored, Copied, Step;
    var p: nat :| p < |s.procs| && Moves(s, p, t);
    if Step(s, p) == Some(t) {
      StepKeeps(s, p, t);
    } else {
      BeginKeeps(s, p, t.procs[p]);
    }
  }

  // ---- Over whole runs ----

  ghost predicate Steps<T(!new)>(s: State<T>, t: State<T>, n: nat)
    decreases n
  {
    if n == 0 then s == t else exists u :: Shape(s) && Next(s, u) && Steps(u, t, n - 1)
  }

  lemma {:induction false} RunKeeps<T(!new)>(s: State<T>, t: State<T>, n: nat)
    requires Inv(s) && Steps(s, t, n)
    ensures Inv(t)
    decreases n
  {
    hide Inv, Next;
    if n > 0 {
      var u :| Shape(s) && Next(s, u) && Steps(u, t, n - 1);
      NextKeeps(s, u);
      RunKeeps(u, t, n - 1);
    }
  }

  lemma NextSize<T(!new)>(s: State<T>, t: State<T>)
    requires Shape(s) && Next(s, t)
    ensures |t.slots| == |s.slots| && |t.procs| == |s.procs|
  {
    hide Wrap;
  }

  lemma {:induction false} SlotsStay<T(!new)>(s: State<T>, t: State<T>, n: nat)
    requires Inv(s) && Steps(s, t, n)
    ensures |t.slots| == |s.slots| && |t.procs| == |s.procs|
    decreases n
  {
    hide Inv, Next;
    if n > 0 {
      var u :| Shape(s) && Next(s, u) && Steps(u, t, n - 1);
      NextSize(s, u);
      NextKeeps(s, u);
      SlotsStay(u, t, n - 1);
    }
  }

  // First in, first out, and never more than max_count in between; both semaphores and the
  // operations in progress always account for every slot.
  lemma FirstInFirstOut<T(!new)>(max: nat, n: nat, t: State<T>, k: nat)
    requires max > 0 && Steps(Init<T>(max, n), t, k)
    ensures t.removed <= t.added && |t.added| - |t.removed| <= max
    ensures t.canWrite + t.canRead + Count(t.procs, Writing) + Count(t.procs, Written)
          + Count(t.procs, Reading) + Count(t.procs, Read) == max
  {
    hide Steps, Locking, Copied, Count;
    InitInv<T>(max, n);
    RunKeeps(Init<T>(max, n), t, k);
    SlotsStay(Init<T>(max, n), t, k);
  }

  // No copy into a slot that still holds an unread element, no copy out of a slot that is not full.
  lemma CopiesAreSafe<T>(s: State<T>, p: nat)
    requires Inv(s) && p < |s.procs|
    ensures s.procs[p].AddLocked? || s.procs[p].AddCopying? ==>
      forall k :: |s.removed| <= k < |s.added| ==> k % |s.slots| != s.tail
    ensures s.procs[p].RemoveCopying? ==> |s.removed| < |s.added| && s.slots[s.head] == Full(s.added[|s.removed|])
  {
    hide Count, Locking, Copied;
    Room(s, p);
    forall k | |s.removed| <= k < |s.added| && RoleOf(s.procs[p]) == Writing
      ensures k % |s.slots| != s.tail
    {
      OtherSlot(k, |s.added|, |s.slots|);
    }
  }

  // ---- No deadlock ----

  ghost predicate CanStep<T(!new)>(s: State<T>, p: nat)
    requires Shape(s)
  {
    p < |s.procs| && Step(s, p).Some?
  }

  // As long as some operation is past its semaphore, some process can go on.
  lemma InsideGoesOn<T(!new)>(s: State<T>, p: nat)
    requires Inv(s) && p < |s.procs| && RoleOf(s.procs[p]) != Outside
    ensures exists q: nat :: CanStep(s, q)
  {
    hide Count, Stored, Counted, Copied;
    var q := if s.lock.Some? then s.lock.value else p;
    if s.procs[q].RemoveCopying? { HeadIsFull(s, q); }
    assert CanStep(s, q);
  }

  lemma {:induction false} NobodyInside<T>(procs: seq<Pc<T>>, r: Role)
    requires forall p :: 0 <= p < |procs| ==> RoleOf(procs[p]) == Outside
    requires r != Outside
    ensures Count(procs, r) == 0
  {
    hide RoleOf;
    if procs != [] {
      assert forall p :: 0 <= p < |procs[1..]| ==> procs[1..][p] == procs[p + 1];
      NobodyInside(procs[1..], r);
    }
  }

  // An adder and a remover that wait together cannot both wait for ever: someone can step.
  lemma WillingPairGoesOn<T(!new)>(s: State<T>, p: nat, q: nat)
    requires Inv(s) && p < |s.procs| && q < |s.procs| && s.procs[p].AddWaits? && s.procs[q].RemoveWaits?
    ensures exists i: nat :: CanStep(s, i)
  {
    hide Count, Stored, Locking, Copied;
    if i: nat :| i < |s.procs| && RoleOf(s.procs[i]) != Outside {
      InsideGoesOn(s, i);
    } else {
      NobodyInside(s.procs, Writing);
      NobodyInside(s.procs, Written);
      NobodyInside(s.procs, Reading);
      NobodyInside(s.procs, Read);
      assert s.canWrite + s.canRead == |s.slots|;
      assert CanStep(s, if s.canWrite > 0 then p else q);
    }
  }

  // Nobody can go on exactly when every process is idle, or all that are not wait to add to a full
  // queue, or all that are not wait to remove from an empty one.
  lemma StuckExactly<T(!new)>(s: State<T>)
    requires Inv(s)
    ensures (forall i: nat :: !CanStep(s, i)) <==>
      || (AllAre(s, true) && (AllAre(s, false) || |s.added| - |s.removed| == |s.slots|))
      || (AllAre(s, false) && |s.added| == |s.removed|)
  {
    hide Stored, Locking, Copied;
    if forall i: nat :: !CanStep(s, i) {
      Stuck(s);
    } else if AllAre(s, true) || AllAre(s, false) {
      NobodyInside(s.procs, Writing);
      NobodyInside(s.procs, Written);
      NobodyInside(s.procs, Reading);
      NobodyInside(s.procs, Read);
    }
  }

  // Every process is idle or waits to add (`adding`) or to remove.
  ghost predicate AllAre<T>(s: State<T>, adding: bool) {
    forall p :: 0 <= p < |s.procs| ==> s.procs[p].Idle? || (if adding then s.procs[p].AddWaits? else s.procs[p].RemoveWaits?)
  }

  lemma Stuck<T(!new)>(s: State<T>)
    requires Inv(s) && forall i: nat :: !CanStep(s, i)
    ensures AllAre(s, true) || AllAre(s, false)
    ensures AllAre(s, true) ==> AllAre(s, false) || |s.added| - |s.removed| == |s.slots|
    ensures AllAre(s, false) ==> AllAre(s, true) || |s.added| == |s.removed|
  {
    hide Stored, Locking, Copied;
    forall p: nat | p < |s.procs|
      ensures RoleOf(s.procs[p]) == Outside
      ensures s.procs[p].AddWaits? ==> s.canWrite == 0
      ensures s.procs[p].RemoveWaits? ==> s.canRead == 0
    {
      assert !CanStep(s, p);
      if RoleOf(s.procs[p]) != Outside { InsideGoesOn(s, p); }
    }
    NobodyInside(s.procs, Writing);
    NobodyInside(s.procs, Written);
    NobodyInside(s.procs, Reading);
    NobodyInside(s.procs, Read);
  }

  // ---- The operations at work on the shared memory ----

  class SharedQueue<T(!new)> {
    const data: array<Slot<T>>
    var head: nat
    var tail: nat
    var canWrite: nat
    var canRead: nat
    var lock: Option<nat>
    var procs: seq<Pc<T>>
    ghost var added: seq<T>
    ghost var removed: seq<T>

    ghost function View(): State<T>
      reads this, data
    {
      State(data[..], head, tail, canWrite, canRead, lock, procs, added, removed)
    }

    // queue_new
    constructor (max: nat, n: nat)
      requires max > 0
      ensures View() == Init(max, n) && fresh(data)
    {
      data := new Slot<T>[max](i => Unwritten);
      head, tail, canWrite, canRead, lock := 0, 0, max, 0, None;
      procs, added, removed := seq(n, i => Idle), [], [];
    }

    method Copy(v: Slot<T>)
      requires tail < data.Length
      modifies data
      ensures data[..] == old(data[..])[tail := v]
    {
      data[tail] := v;
    }

    // One step of queue_add.
    method AddTurn(p: nat)
      requires Shape(View()) && CanStep(View(), p) && !procs[p].Idle? && !IsRemove(procs[p])
      modifies this, data
      ensures Step(old(View()), p) == Some(View())
    {
      match procs[p]
      case AddWaits(x) => canWrite, procs := canWrite - 1, procs[p := AddMayWrite(x)];
      case AddMayWrite(x) => lock, procs := Some(p), procs[p := AddLocked(x)];
      case AddLocked(x) =>
        Copy(Torn);
        procs := procs[p := AddCopying(x)];
      case AddCopying(x) =>
        Copy(Full(x));
        procs := procs[p := AddCopied(x)];
      case AddCopied(x) =>
        var next := tail + 1;
        if next == data.Length { next := 0; }
        tail, added, procs := next, added + [x], procs[p := AddMoved(x)];
      case AddMoved(x) => lock, procs := None, procs[p := AddPosts(x)];
      case AddPosts(_) => canRead, procs := canRead + 1, procs[p := Idle];
    }

    // One step of queue_remove.
    method RemoveTurn(p: nat)
      requires Shape(View()) && CanStep(View(), p) && IsRemove(procs[p])
      modifies this
      ensures Step(old(View()), p) == Some(View())
    {
      match procs[p]
      case RemoveWaits => canRead, procs := canRead - 1, procs[p := RemoveMayRead];
      case RemoveMayRead => lock, procs := Some(p), procs[p := RemoveLocked];
      case RemoveLocked => procs := procs[p := RemoveCopying];
      case RemoveCopying => procs := procs[p := RemoveCopied(data[head].value)];
      case RemoveCopied(x) =>
        var next := head + 1;
        if next == data.Length { next := 0; }
        head, removed, procs := next, removed + [x], procs[p := RemoveMoved(x)];
      case RemoveMoved(x) => lock, procs := None, procs[p := RemovePosts(x)];
      case RemovePosts(_) => canWrite, procs := canWrite + 1, procs[p := Idle];
    }
  }

  predicate IsRemove<T>(pc: Pc<T>) {
    pc.RemoveWaits? || pc.RemoveMayRead? || pc.RemoveLocked? || pc.RemoveCopying? || pc.RemoveCopied?
    || pc.RemoveMoved? || pc.RemovePosts?
  }
}
