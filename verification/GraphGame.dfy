// Tokens on the assembler's graph: its own DUPs pass them on, every other node fires on what has
// arrived. Graphs that reach the same slots can do the same.
module GraphGame {
  import opened Words
  import opened IrGraph
  import opened Optimize

  // A token on its way to a slot, or in it.
  datatype Token<V> = Token(at: Dest, value: V)

  // A node has fired on tokens, sending these values by its first and by its second output. For OUTD
  // and OUTS this is what is printed.
  datatype Event<V> = Event(node: nat, ins: seq<Token<V>>, first: seq<V>, second: seq<V>)

  // What the nodes do: any relation between what they take and what they send.
  type Behaviour<!V> = Event<V> -> bool

  function SentOn<V>(e: Option<Dest>, vs: seq<V>): (r: seq<Token<V>>) {
    if e.None? then [] else seq(|vs|, k requires 0 <= k < |vs| => Token(e.value, vs[k]))
  }

  predicate AtDup<V>(nodes: seq<Node>, t: Token<V>) {
    t.at.node < |nodes| && IsDup(nodes[t.at.node])
  }

  // A DUP passes a token on to both outputs.
  function Passed<V>(nodes: seq<Node>, t: Token<V>): seq<Token<V>>
    requires AtDup(nodes, t)
  {
    SentOn(nodes[t.at.node].d1, [t.value]) + SentOn(nodes[t.at.node].d2, [t.value])
  }

  // The event can happen at its node, on tokens that have arrived there.
  ghost predicate CanFire<V(!new)>(nodes: seq<Node>, does: Behaviour<V>, e: Event<V>) {
    && e.node < |nodes| && !IsDup(nodes[e.node]) && does(e)
    && forall t :: t in e.ins ==> t.at.node == e.node
  }

  function Sent<V>(nodes: seq<Node>, e: Event<V>): seq<Token<V>>
    requires e.node < |nodes|
  {
    SentOn(nodes[e.node].d1, e.first) + SentOn(nodes[e.node].d2, e.second)
  }

  // The order in which tokens are listed means nothing.
  predicate Same<A(==)>(a: seq<A>, b: seq<A>) { multiset(a) == multiset(b) }

  ghost predicate PassStep<V>(nodes: seq<Node>, q: seq<Token<V>>, r: seq<Token<V>>, t: Token<V>, rest: seq<Token<V>>) {
    AtDup(nodes, t) && Same(q, [t] + rest) && Same(r, Passed(nodes, t) + rest)
  }

  ghost predicate FireStep<V(!new)>(nodes: seq<Node>, does: Behaviour<V>, q: seq<Token<V>>, r: seq<Token<V>>, e: Event<V>, rest: seq<Token<V>>) {
    CanFire(nodes, does, e) && Same(q, e.ins + rest) && Same(r, Sent(nodes, e) + rest)
  }

  // One step, with what can be seen of it.
  ghost predicate Step<V(!new)>(nodes: seq<Node>, does: Behaviour<V>, q: seq<Token<V>>, seen: Option<Event<V>>, r: seq<Token<V>>) {
    match seen
    case None => exists t, rest :: PassStep(nodes, q, r, t, rest)
    case Some(e) => exists rest :: FireStep(nodes, does, q, r, e, rest)
  }

  function More<V>(seen: Option<Event<V>>, trace: seq<Event<V>>): seq<Event<V>> {
    if seen.Some? then [seen.value] + trace else trace
  }

  // k steps lead from q to r, with these events.
  ghost predicate Runs<V(!new)>(nodes: seq<Node>, does: Behaviour<V>, q: seq<Token<V>>, trace: seq<Event<V>>, r: seq<Token<V>>, k: nat)
    decreases k
  {
    if k == 0 then trace == [] && Same(q, r)
    else exists seen, mid, less :: Step(nodes, does, q, seen, mid) && trace == More(seen, less) && Runs(nodes, does, mid, less, r, k - 1)
  }

  // ---- Settled tokens ----

  // Where a token is once all DUPs have passed it on.
  function Settled<V>(nodes: seq<Node>, t: Token<V>): seq<Token<V>> {
    OnAll(Leaves(nodes, t.at), t.value)
  }

  function OnAll<V>(ds: seq<Dest>, v: V): (r: seq<Token<V>>)
    ensures |r| == |ds|
  {
    seq(|ds|, k requires 0 <= k < |ds| => Token(ds[k], v))
  }

  function SettledAll<V>(nodes: seq<Node>, q: seq<Token<V>>): seq<Token<V>> {
    if q == [] then [] else Settled(nodes, q[0]) + SettledAll(nodes, q[1..])
  }

  lemma {:induction false} SettledJoin<V>(nodes: seq<Node>, a: seq<Token<V>>, b: seq<Token<V>>)
    ensures SettledAll(nodes, a + b) == SettledAll(nodes, a) + SettledAll(nodes, b)
  {
    hide Settled;
    if a == [] {
      assert a + b == b;
    } else {
      assert (a + b)[1..] == a[1..] + b;
      SettledJoin(nodes, a[1..], b);
    }
  }

  lemma SettledOne<V>(nodes: seq<Node>, t: Token<V>)
    ensures SettledAll(nodes, [t]) == Settled(nodes, t)
  {
    hide Settled;
    assert [t][1..] == [];
  }

  lemma FindToken<A>(q: seq<A>, t: A) returns (k: nat)
    requires t in multiset(q)
    ensures k < |q| && q[k] == t && q == q[..k] + [t] + q[k + 1..]
  {
    assert t in q;
    k :| k < |q| && q[k] == t;
  }

  lemma TakeOut<A>(q: seq<A>, k: nat)
    requires k < |q|
    ensures multiset(q) == multiset{q[k]} + multiset(q[..k] + q[k + 1..])
  {
    assert q == q[..k] + [q[k]] + q[k + 1..];
  }

  lemma SettledOut<V>(nodes: seq<Node>, q: seq<Token<V>>, k: nat)
    requires k < |q|
    ensures Same(SettledAll(nodes, q), Settled(nodes, q[k]) + SettledAll(nodes, q[..k] + q[k + 1..]))
  {
    hide Settled, SettledAll;
    assert q == q[..k] + ([q[k]] + q[k + 1..]);
    SettledJoin(nodes, q[..k], [q[k]] + q[k + 1..]);
    SettledJoin(nodes, [q[k]], q[k + 1..]);
    SettledJoin(nodes, q[..k], q[k + 1..]);
    SettledOne(nodes, q[k]);
  }

  // The order does not matter here either.
  lemma {:induction false} SettledSame<V>(nodes: seq<Node>, a: seq<Token<V>>, b: seq<Token<V>>)
    requires Same(a, b)
    ensures Same(SettledAll(nodes, a), SettledAll(nodes, b))
    decreases |a|
  {
    hide Settled, SettledAll;
    if a == [] {
      NoneLeft(b);
    } else {
      var k := SameRest(a, b);
      SettledSame(nodes, a[1..], b[..k] + b[k + 1..]);
      assert a[..0] + a[1..] == a[1..];
      SettledOut(nodes, a, 0);
      SettledOut(nodes, b, k);
    }
  }

  // Without its first element, a is the same as b without an equal one.
  lemma SameRest<A>(a: seq<A>, b: seq<A>) returns (k: nat)
    requires Same(a, b) && a != []
    ensures k < |b| && b[k] == a[0] && Same(a[1..], b[..k] + b[k + 1..])
  {
    TakeOut(a, 0);
    assert a[0] in multiset(b);
    k := FindToken(b, a[0]);
    TakeOut(b, k);
    assert a[..0] + a[1..] == a[1..];
    Cancel(a[0], multiset(a[1..]), multiset(b[..k] + b[k + 1..]));
  }

  lemma NoneLeft<A>(q: seq<A>)
    requires multiset(q) == multiset([])
    ensures q == []
  {
    assert |multiset(q)| == |q|;
  }

  lemma Cancel<A>(x: A, a: multiset<A>, b: multiset<A>)
    requires multiset{x} + a == multiset{x} + b
    ensures a == b
  {
    assert a == multiset{x} + a - multiset{x};
    assert b == multiset{x} + b - multiset{x};
  }

  // A token that has arrived is settled.
  lemma {:induction false} ArrivedSettled<V>(nodes: seq<Node>, q: seq<Token<V>>)
    requires forall t :: t in q ==> !AtDup(nodes, t)
    ensures SettledAll(nodes, q) == q
  {
    if q != [] {
      assert q[0] in q && Settled(nodes, q[0]) == [q[0]];
      ArrivedSettled(nodes, q[1..]);
      assert q == [q[0]] + q[1..];
    }
  }

  lemma SentSettled<V>(nodes: seq<Node>, e: Option<Dest>, vs: seq<V>)
    ensures SettledAll(nodes, SentOn(e, vs)) == OnReached(Reached(nodes, e), vs)
    decreases |vs|
  {
    hide Reached, Leaves;
    ReachedIs(nodes, e);
    if e.Some? && vs != [] {
      var q := SentOn(e, vs);
      assert q[1..] == SentOn(e, vs[1..]);
      SentSettled(nodes, e, vs[1..]);
    } else if vs != [] {
      SentSettled(nodes, e, vs[1..]);
    }
  }

  lemma ReachedIs(nodes: seq<Node>, e: Option<Dest>)
    ensures Reached(nodes, e) == if e.None? then [] else Leaves(nodes, e.value)
  {
  }

  function OnReached<V>(ds: seq<Dest>, vs: seq<V>): seq<Token<V>> {
    if vs == [] then [] else OnAll(ds, vs[0]) + OnReached(ds, vs[1..])
  }

  lemma OnAllJoin<V>(a: seq<Dest>, b: seq<Dest>, v: V)
    ensures OnAll(a + b, v) == OnAll(a, v) + OnAll(b, v)
  {
  }

  // Passing a token on does not change where it will be.
  lemma PassedSettled<V>(nodes: seq<Node>, t: Token<V>)
    requires Tidy(nodes) && AtDup(nodes, t)
    ensures SettledAll(nodes, Passed(nodes, t)) == Settled(nodes, t)
  {
    hide Tidy, Reached, Leaves, IsDup;
    var n := nodes[t.at.node];
    SettledJoin(nodes, SentOn(n.d1, [t.value]), SentOn(n.d2, [t.value]));
    SentSettled(nodes, n.d1, [t.value]);
    SentSettled(nodes, n.d2, [t.value]);
    OneValue(Reached(nodes, n.d1), t.value);
    OneValue(Reached(nodes, n.d2), t.value);
    OnAllJoin(Reached(nodes, n.d1), Reached(nodes, n.d2), t.value);
    DupLeaves(nodes, t.at);
  }

  lemma OneValue<V>(ds: seq<Dest>, v: V)
    ensures OnReached(ds, [v]) == OnAll(ds, v)
  {
    assert [v][1..] == [];
    assert OnReached<V>(ds, []) == [];
  }

  lemma DupLeaves(nodes: seq<Node>, d: Dest)
    requires Tidy(nodes) && d.node < |nodes| && IsDup(nodes[d.node])
    ensures Leaves(nodes, d) == Reached(nodes, nodes[d.node].d1) + Reached(nodes, nodes[d.node].d2)
  {
    var k := d.node;
    assert Onward(nodes, k, nodes[k].d1) && Onward(nodes, k, nodes[k].d2);
    OnwardsReached(nodes, k, nodes[k].d1);
    OnwardsReached(nodes, k, nodes[k].d2);
  }

  // ---- Every token can be passed on until it is settled ----

  lemma StepRun<V(!new)>(nodes: seq<Node>, does: Behaviour<V>, q: seq<Token<V>>, seen: Option<Event<V>>, mid: seq<Token<V>>,
                         trace: seq<Event<V>>, r: seq<Token<V>>, k: nat)
    requires Step(nodes, does, q, seen, mid) && Runs(nodes, does, mid, trace, r, k)
    ensures Runs(nodes, does, q, More(seen, trace), r, k + 1)
  {
    hide Step;
  }

  lemma {:induction false} RunsJoin<V(!new)>(nodes: seq<Node>, does: Behaviour<V>, q: seq<Token<V>>, a: seq<Event<V>>, mid: seq<Token<V>>, k: nat,
                                       b: seq<Event<V>>, r: seq<Token<V>>, n: nat)
    requires Runs(nodes, does, q, a, mid, k) && Runs(nodes, does, mid, b, r, n)
    ensures Runs(nodes, does, q, a + b, r, k + n)
    decreases k
  {
    hide Step, Same;
    if k == 0 {
      assert a + b == b;
      SameBack(q, mid);
      RunsFrom(nodes, does, mid, q, b, r, n);
    } else {
      var seen, next, less :| Step(nodes, does, q, seen, next) && a == More(seen, less) && Runs(nodes, does, next, less, mid, k - 1);
      RunsJoin(nodes, does, next, less, mid, k - 1, b, r, n);
      StepRun(nodes, does, q, seen, next, less + b, r, k - 1 + n);
      MoreJoin(seen, less, b);
    }
  }

  lemma SameBack<A>(a: seq<A>, b: seq<A>)
    requires Same(a, b)
    ensures Same(b, a)
  {
  }

  lemma MoreJoin<V>(seen: Option<Event<V>>, a: seq<Event<V>>, b: seq<Event<V>>)
    ensures More(seen, a) + b == More(seen, a + b)
  {
  }

  lemma RunsFrom<V(!new)>(nodes: seq<Node>, does: Behaviour<V>, p: seq<Token<V>>, q: seq<Token<V>>, trace: seq<Event<V>>, r: seq<Token<V>>, n: nat)
    requires Same(p, q) && Runs(nodes, does, p, trace, r, n)
    ensures Runs(nodes, does, q, trace, r, n)
  {
    if n > 0 {
      var seen, next, less :| Step(nodes, does, p, seen, next) && trace == More(seen, less) && Runs(nodes, does, next, less, r, n - 1);
      StepFrom(nodes, does, p, q, seen, next);
    }
  }

  lemma StepFrom<V(!new)>(nodes: seq<Node>, does: Behaviour<V>, p: seq<Token<V>>, q: seq<Token<V>>, seen: Option<Event<V>>, r: seq<Token<V>>)
    requires Same(p, q) && Step(nodes, does, p, seen, r)
    ensures Step(nodes, does, q, seen, r)
  {
    hide CanFire, Sent, Passed;
    match seen
    case None =>
      var t, rest :| PassStep(nodes, p, r, t, rest);
      assert PassStep(nodes, q, r, t, rest);
    case Some(e) =>
      var rest :| FireStep(nodes, does, p, r, e, rest);
      assert FireStep(nodes, does, q, r, e, rest);
  }

  // How far the tokens have to go.
  function Distance<V>(nodes: seq<Node>, q: seq<Token<V>>): nat {
    if q == [] then 0 else (if AtDup(nodes, q[0]) then Far(|nodes| - q[0].at.node) else 0) + Distance(nodes, q[1..])
  }

  // More than the two tokens that come of one can still have to go.
  function Far(n: nat): nat {
    if n == 0 then 0 else 2 * Far(n - 1) + 1
  }

  lemma {:induction false} FarGrows(m: nat, n: nat)
    requires m < n
    ensures 2 * Far(m) < Far(n)
    decreases n
  {
    if m < n - 1 { FarGrows(m, n - 1); }
  }

  lemma {:induction false} DistanceJoin<V>(nodes: seq<Node>, a: seq<Token<V>>, b: seq<Token<V>>)
    ensures Distance(nodes, a + b) == Distance(nodes, a) + Distance(nodes, b)
  {
    hide Far;
    if a == [] {
      assert a + b == b;
    } else {
      assert (a + b)[1..] == a[1..] + b;
      DistanceJoin(nodes, a[1..], b);
    }
  }

  lemma {:induction false} SentDistance<V>(nodes: seq<Node>, k: nat, e: Option<Dest>, v: V)
    requires k < |nodes| && IsDup(nodes[k]) && Onward(nodes, k, e)
    ensures 2 * Distance(nodes, SentOn(e, [v])) < Far(|nodes| - k)
  {
    var q := SentOn(e, [v]);
    if e.Some? {
      assert q == [Token(e.value, v)] && q[1..] == [];
      if AtDup(nodes, q[0]) { FarGrows(|nodes| - e.value.node, |nodes| - k); }
    }
  }

  lemma PassedDistance<V>(nodes: seq<Node>, t: Token<V>)
    requires Tidy(nodes) && AtDup(nodes, t)
    ensures Distance(nodes, Passed(nodes, t)) < Far(|nodes| - t.at.node)
  {
    hide Far, Distance, SentOn;
    var k := t.at.node;
    assert Onward(nodes, k, nodes[k].d1) && Onward(nodes, k, nodes[k].d2);
    SentDistance(nodes, k, nodes[k].d1, t.value);
    SentDistance(nodes, k, nodes[k].d2, t.value);
    DistanceJoin(nodes, SentOn(nodes[k].d1, [t.value]), SentOn(nodes[k].d2, [t.value]));
  }

  lemma {:induction false} SettleRun<V(!new)>(nodes: seq<Node>, does: Behaviour<V>, q: seq<Token<V>>) returns (r: seq<Token<V>>, n: nat)
    requires Tidy(nodes)
    ensures Runs(nodes, does, q, [], r, n) && Same(r, SettledAll(nodes, q)) && forall t :: t in r ==> !AtDup(nodes, t)
    decreases Distance(nodes, q)
  {
    hide Tidy, Passed, Settled, SettledAll, Distance, Far, Runs, AtDup;
    if t :| t in q && AtDup(nodes, t) {
      var k := FindToken(q, t);
      var rest := q[..k] + q[k + 1..];
      var mid := Passed(nodes, t) + rest;
      TakeOut(q, k);
      PassCloser(nodes, q, t, k);
      r, n := SettleRun(nodes, does, mid);
      PassRun(nodes, does, q, mid, t, rest, r, n);
      PassKeeps(nodes, q, mid, t, rest);
      n := n + 1;
    } else {
      r, n := q, 0;
      RunsNowhere(nodes, does, q);
      ArrivedSettled(nodes, q);
    }
  }

  lemma PassRun<V(!new)>(nodes: seq<Node>, does: Behaviour<V>, q: seq<Token<V>>, mid: seq<Token<V>>, t: Token<V>, rest: seq<Token<V>>,
                         r: seq<Token<V>>, n: nat)
    requires PassStep(nodes, q, mid, t, rest) && Runs(nodes, does, mid, [], r, n)
    ensures Runs(nodes, does, q, [], r, n + 1)
  {
    hide PassStep, Runs;
    assert Step(nodes, does, q, None, mid);
    StepRun(nodes, does, q, None, mid, [], r, n);
  }

  lemma PassCloser<V>(nodes: seq<Node>, q: seq<Token<V>>, t: Token<V>, k: nat)
    requires Tidy(nodes) && AtDup(nodes, t) && k < |q| && q[k] == t
    ensures Distance(nodes, Passed(nodes, t) + (q[..k] + q[k + 1..])) < Distance(nodes, q)
  {
    hide Tidy, Passed, Far;
    var a, b := q[..k], q[k + 1..];
    assert q == a + ([t] + b) && ([t] + b)[1..] == b;
    DistanceJoin(nodes, a, [t] + b);
    DistanceJoin(nodes, a, b);
    DistanceJoin(nodes, Passed(nodes, t), a + b);
    PassedDistance(nodes, t);
  }

  lemma PassKeeps<V>(nodes: seq<Node>, q: seq<Token<V>>, r: seq<Token<V>>, t: Token<V>, rest: seq<Token<V>>)
    requires Tidy(nodes) && PassStep(nodes, q, r, t, rest)
    ensures Same(SettledAll(nodes, q), SettledAll(nodes, r))
  {
    hide Tidy, Passed, Settled, SettledAll, AtDup;
    SettledSame(nodes, q, [t] + rest);
    SettledSame(nodes, r, Passed(nodes, t) + rest);
    SettledJoin(nodes, [t], rest);
    SettledJoin(nodes, Passed(nodes, t), rest);
    SettledOne(nodes, t);
    PassedSettled(nodes, t);
  }

  // ---- Graphs that reach the same ----

  // What a node sends settles in the same places.
  lemma SameSent<V>(a: seq<Node>, b: seq<Node>, e: Event<V>)
    requires SameReach(a, b) && e.node < |a|
    ensures e.node < |b| && SettledAll(a, Sent(a, e)) == SettledAll(b, Sent(b, e))
  {
    hide Reached, SettledAll;
    assert SameOutputs(a, b, e.node);
    SettledJoin(a, SentOn(a[e.node].d1, e.first), SentOn(a[e.node].d2, e.second));
    SettledJoin(b, SentOn(b[e.node].d1, e.first), SentOn(b[e.node].d2, e.second));
    SentSettled(a, a[e.node].d1, e.first);
    SentSettled(a, a[e.node].d2, e.second);
    SentSettled(b, b[e.node].d1, e.first);
    SentSettled(b, b[e.node].d2, e.second);
  }

  lemma SameKind(a: seq<Node>, b: seq<Node>, n: nat)
    requires SameReach(a, b) && n < |a|
    ensures n < |b| && IsDup(b[n]) == IsDup(a[n])
  {
    hide Reached;
    assert SameOutputs(a, b, n);
  }

  ghost predicate Alike<V>(a: seq<Node>, b: seq<Node>, q: seq<Token<V>>, p: seq<Token<V>>) {
    Same(SettledAll(a, q), SettledAll(b, p))
  }

  lemma Behead<A>(p: seq<A>)
    requires p != []
    ensures multiset(p[1..]) == multiset(p) - multiset{p[0]} && p[0] in multiset(p)
  {
    assert p == [p[0]] + p[1..];
  }

  lemma Remainder<A>(s: multiset<A>, ins: multiset<A>, rest: multiset<A>, p: seq<A>) returns (left: seq<A>)
    requires s == ins + rest && multiset(p) == s
    ensures multiset(left) == rest
    decreases |p|
  {
    if p == [] {
      left := [];
    } else {
      Behead(p);
      var t := s - multiset{p[0]};
      if p[0] in ins {
        left := Remainder(t, ins - multiset{p[0]}, rest, p[1..]);
      } else {
        var less := Remainder(t, ins, rest - multiset{p[0]}, p[1..]);
        left := [p[0]] + less;
      }
    }
  }

  // The same node can fire in the other graph, once the tokens there are settled.
  lemma FollowFire<V(!new)>(a: seq<Node>, b: seq<Node>, does: Behaviour<V>, q: seq<Token<V>>, r: seq<Token<V>>, e: Event<V>, rest: seq<Token<V>>, p: seq<Token<V>>)
    returns (s: seq<Token<V>>, n: nat)
    requires Tidy(b) && SameReach(a, b) && FireStep(a, does, q, r, e, rest) && Alike(a, b, q, p)
    ensures Runs(b, does, p, [e], s, n) && Alike(a, b, r, s)
  {
    hide Tidy, SameReach, Settled, SettledAll, Sent, IsDup, Runs;
    var p', k := SettleRun(b, does, p);
    FireSettled(a, q, e, rest, does, r);
    var left := Remainder(multiset(p'), multiset(e.ins), multiset(SettledAll(a, rest)), p');
    SameKind(a, b, e.node);
    s := Sent(b, e) + left;
    assert FireStep(b, does, p', s, e, left);
    FireRun(b, does, p', e, left, s);
    RunsJoin(b, does, p, [], p', k, [e], s, 1);
    assert [] + [e] == [e];
    n := k + 1;
    LeftSettled(b, p', e.ins, left);
    AfterFire(a, b, r, e, rest, left);
  }

  // Before it fires: the tokens taken, and the rest settled.
  lemma FireSettled<V(!new)>(a: seq<Node>, q: seq<Token<V>>, e: Event<V>, rest: seq<Token<V>>, does: Behaviour<V>, r: seq<Token<V>>)
    requires FireStep(a, does, q, r, e, rest)
    ensures multiset(SettledAll(a, q)) == multiset(e.ins) + multiset(SettledAll(a, rest))
  {
    hide Settled, SettledAll, Sent, IsDup;
    SettledSame(a, q, e.ins + rest);
    SettledJoin(a, e.ins, rest);
    ArrivedSettled(a, e.ins);
  }

  // Afterwards: what is sent settles in the same places.
  lemma AfterFire<V>(a: seq<Node>, b: seq<Node>, r: seq<Token<V>>, e: Event<V>, rest: seq<Token<V>>, left: seq<Token<V>>)
    requires SameReach(a, b) && e.node < |a| && e.node < |b| && Same(r, Sent(a, e) + rest)
    requires multiset(left) == multiset(SettledAll(a, rest)) && SettledAll(b, left) == left
    ensures Alike(a, b, r, Sent(b, e) + left)
  {
    hide SameReach, Settled, SettledAll, Sent;
    SettledSame(a, r, Sent(a, e) + rest);
    SettledJoin(a, Sent(a, e), rest);
    SettledJoin(b, Sent(b, e), left);
    SameSent(a, b, e);
  }

  lemma FireRun<V(!new)>(nodes: seq<Node>, does: Behaviour<V>, q: seq<Token<V>>, e: Event<V>, rest: seq<Token<V>>, r: seq<Token<V>>)
    requires FireStep(nodes, does, q, r, e, rest)
    ensures Runs(nodes, does, q, [e], r, 1)
  {
    hide FireStep, Same;
    assert Step(nodes, does, q, Some(e), r);
    assert Runs(nodes, does, r, [], r, 0) by { RunsNowhere(nodes, does, r); }
    assert [e] == More(Some(e), []);
  }

  lemma RunsNowhere<V(!new)>(nodes: seq<Node>, does: Behaviour<V>, r: seq<Token<V>>)
    ensures Runs(nodes, does, r, [], r, 0)
  {
  }

  lemma LeftSettled<V>(nodes: seq<Node>, p: seq<Token<V>>, ins: seq<Token<V>>, left: seq<Token<V>>)
    requires (forall t :: t in p ==> !AtDup(nodes, t)) && Same(p, ins + left)
    ensures SettledAll(nodes, left) == left
  {
    hide AtDup, SettledAll;
    forall t | t in left
      ensures !AtDup(nodes, t)
    {
      assert t in multiset(ins + left);
      assert t in multiset(p);
    }
    ArrivedSettled(nodes, left);
  }

  // Whatever one graph does, the other can do, event by event.
  lemma {:induction false} SameEvents<V(!new)>(a: seq<Node>, b: seq<Node>, does: Behaviour<V>, q: seq<Token<V>>, trace: seq<Event<V>>, r: seq<Token<V>>,
                                         k: nat, p: seq<Token<V>>) returns (s: seq<Token<V>>, n: nat)
    requires Tidy(a) && Tidy(b) && SameReach(a, b) && Runs(a, does, q, trace, r, k) && Alike(a, b, q, p)
    ensures Runs(b, does, p, trace, s, n) && Alike(a, b, r, s)
    decreases k
  {
    hide Tidy, SameReach, SettledAll, PassStep, FireStep;
    if k == 0 {
      s, n := p, 0;
      SettledSame(a, q, r);
    } else {
      var seen, mid, less :| Step(a, does, q, seen, mid) && trace == More(seen, less) && Runs(a, does, mid, less, r, k - 1);
      match seen
      case None =>
        var t, rest :| PassStep(a, q, mid, t, rest);
        PassKeeps(a, q, mid, t, rest);
        s, n := SameEvents(a, b, does, mid, less, r, k - 1, p);
      case Some(e) =>
        var rest :| FireStep(a, does, q, mid, e, rest);
        var p1, n1 := FollowFire(a, b, does, q, mid, e, rest, p);
        s, n := SameEvents(a, b, does, mid, less, r, k - 1, p1);
        RunsJoin(b, does, p, [e], p1, n1, less, s, n);
        n := n1 + n;
    }
  }

  lemma ReachBack(a: seq<Node>, b: seq<Node>)
    requires SameReach(a, b)
    ensures SameReach(b, a)
  {
    hide Reached;
    forall n | 0 <= n < |b| ensures SameOutputs(b, a, n) { assert SameOutputs(a, b, n); }
  }

  // From tokens at the same slots, graphs that reach the same have the same sequences of events: the
  // same nodes fire on the same tokens, and so the same is printed.
  lemma SameBehaviour<V(!new)>(a: seq<Node>, b: seq<Node>, does: Behaviour<V>, q: seq<Token<V>>, trace: seq<Event<V>>)
    requires Tidy(a) && Tidy(b) && SameReach(a, b) && forall t :: t in q ==> t.at.node < |a| && !IsDup(a[t.at.node])
    ensures (exists r, k: nat :: Runs(a, does, q, trace, r, k)) <==> exists r, k: nat :: Runs(b, does, q, trace, r, k)
  {
    hide Tidy, SameReach, SettledAll, Runs, IsDup;
    ReachBack(a, b);
    forall t | t in q ensures !AtDup(b, t) { SameKind(a, b, t.at.node); }
    ArrivedSettled(a, q);
    ArrivedSettled(b, q);
    if r, k: nat :| Runs(a, does, q, trace, r, k) { var s, n := SameEvents(a, b, does, q, trace, r, k, q); }
    if r, k: nat :| Runs(b, does, q, trace, r, k) { var s, n := SameEvents(b, a, does, q, trace, r, k, q); }
  }
}
