// Whole runs of the machine on an assembled program: they begin with the literals, follow the game
// step by step, and stay safe.
module Running {
  import opened Words
  import T = Tass
  import G = TokenGame
  import opened Types
  import opened Numbers
  import M = Machine
  import opened Placement
  import opened Circuit
  import opened Typing
  import opened Compiled
  import opened Wires
  import opened Firing
  import opened Execution
  import opened Following

  // ---- One step ----

  // A line has fired, or the parts have less far to go.
  ghost predicate Nearer(u: Setup, q: seq<Part>, g: G.Game, r: seq<Part>, h: G.Game) {
    |h.done| == |g.done| + 1 || (h == g && Weights(u, r) < Weights(u, q))
  }

  lemma TurnNearer(u: Setup, q: seq<Part>, g: G.Game, p: Part, news: seq<Part>, f: Option<G.Firing>, r: seq<Part>)
    requires f.Some? ==> G.Fits(u.P, f.value)
    requires Weights(u, r) + Weight(u, p) == Weights(u, q) + Weights(u, news) && (f.None? ==> Weights(u, news) < Weight(u, p))
    ensures Nearer(u, q, g, r, After(u, g, f))
  {
    hide Weights, Weight, G.Consumed, G.Deliveries, T.Emit;
  }

  lemma OnSwitchStep(u: Setup, s: M.State, q: seq<Part>, g: G.Game, k: nat, w: Wire) returns (r: seq<Part>, h: G.Game)
    requires Sound(u) && Shows(u, s, q, g) && k < |q| && q[k] == OnSwitch(w) && HeldKnown(u, HeldOf(u, q[k])) && FreshAfter(u, g)
    ensures Shows(u, M.State(s.flight - multiset{M.ToSwitch(Bits(u, w))} + M.Only(M.Switch(Bits(u, w))), s.waiting), r, h) && G.Next(u.P, g, h) && Nearer(u, q, g, r, h)
  {
    hide Nearer, Weights, Weight, Flight, HeldBy, Held, HeldAll, WaitsAre, PrintsAre, Playing, M.Switch, Bits, Implements, Regular, Turned, G.Fire, Tokens, G.Consumed;
    OneWire(u, w);
    OneHeld(u, w);
    assert PartOk(u, q[k]);
    var news, f := SwitchTurn(u, w);
    r := PartTurns(u, s, q, g, k, M.Only(M.Switch(Bits(u, w))), news, f);
    h := After(u, g, f);
    TurnNearer(u, q, g, q[k], news, f, r);
  }

  lemma AloneStep(u: Setup, s: M.State, q: seq<Part>, g: G.Game, k: nat, w: Wire, stale: Types.Token) returns (r: seq<Part>, h: G.Game)
    requires Sound(u) && Shows(u, s, q, g) && k < |q| && q[k] == Alone(w) && HeldKnown(u, HeldOf(u, q[k])) && FreshAfter(u, g)
    ensures Packed(u, w, stale).Some?
    ensures Shows(u, M.State(s.flight - multiset{M.ToDispatch(M.Single(Bits(u, w)))} + multiset{M.ToExecute(Packed(u, w, stale).value)}, s.waiting), r, h)
    ensures G.Next(u.P, g, h) && Nearer(u, q, g, r, h)
  {
    hide Nearer, Weights, Weight, Flight, HeldBy, Held, HeldAll, WaitsAre, PrintsAre, Playing, Packed, Bits, Implements, Regular, Turned, G.Fire, Tokens, G.Consumed;
    OneWire(u, w);
    OneHeld(u, w);
    assert PartOk(u, q[k]);
    var news, f := DispatchAlone(u, w, stale);
    r := PartTurns(u, s, q, g, k, multiset{M.ToExecute(Packed(u, w, stale).value)}, news, f);
    h := After(u, g, f);
    TurnNearer(u, q, g, q[k], news, f, r);
  }

  function PackedPair(u: Setup, l: Wire, r: Wire, stale: Types.Token): Option<Packet> {
    M.Dispatch(u.c.Program(), M.Both(Bits(u, l), Bits(u, r)), stale)
  }

  lemma PairedStep(u: Setup, s: M.State, q: seq<Part>, g: G.Game, k: nat, v: Wire, w: Wire, stale: Types.Token) returns (r: seq<Part>, h: G.Game)
    requires Sound(u) && Shows(u, s, q, g) && k < |q| && q[k] == Paired(v, w) && HeldKnown(u, HeldOf(u, q[k])) && FreshAfter(u, g)
    ensures PackedPair(u, v, w, stale).Some?
    ensures Shows(u, M.State(s.flight - multiset{M.ToDispatch(M.Both(Bits(u, v), Bits(u, w)))}
                             + multiset{M.ToExecute(PackedPair(u, v, w, stale).value)}, s.waiting), r, h)
    ensures G.Next(u.P, g, h) && Nearer(u, q, g, r, h)
  {
    hide Nearer, Weights, Weight, Flight, HeldBy, HeldAll, WaitsAre, PrintsAre, Playing, M.Dispatch, Bits, Implements, Regular, Turned, G.Fire, Tokens, G.Consumed;
    assert PartOk(u, q[k]);
    var news, f := DispatchPair(u, v, w, stale);
    r := PartTurns(u, s, q, g, k, multiset{M.ToExecute(PackedPair(u, v, w, stale).value)}, news, f);
    h := After(u, g, f);
    TurnNearer(u, q, g, q[k], news, f, r);
  }

  lemma InUnitStep(u: Setup, s: M.State, q: seq<Part>, g: G.Game, k: nat, p: Packet, out: seq<Wire>) returns (r: seq<Part>)
    requires Sound(u) && Shows(u, s, q, g) && k < |q| && q[k] == InUnit(p, out) && FreshAfter(u, g)
    ensures Shows(u, M.State(s.flight - multiset{M.ToExecute(p)} + M.Execute(u.Machine(), p), s.waiting), r, g) && Weights(u, r) < Weights(u, q)
  {
    hide Weights, Weight, Flight, HeldBy, HeldAll, WaitsAre, PrintsAre, Playing, Implements, Regular, Turned, M.Execute, Tokens;
    assert PartOk(u, q[k]);
    ExecuteTurn(u, p, out);
    r := PartTurns(u, s, q, g, k, M.Execute(u.Machine(), p), SwitchAll(out), None);
  }

  lemma AtMatchStep(u: Setup, s: M.State, q: seq<Part>, g: G.Game, k: nat, w: Wire) returns (r: seq<Part>)
    requires Sound(u) && Shows(u, s, q, g) && k < |q| && q[k] == AtMatch(w) && FreshAfter(u, g)
    ensures var (item, waiting) := M.Match(s.waiting, Bits(u, w));
      Shows(u, M.State(s.flight - multiset{M.ToMatch(Bits(u, w))} + M.Only(item), waiting), r, g)
    ensures Weights(u, r) < Weights(u, q)
  {
    hide Weights, Weight, Flight, HeldBy, HeldAll, WaitsAre, PrintsAre, Playing, Implements, Regular, Turned, Tokens, Bits, EdgeOk, Matching, MatchingOf, KeyAt, M.KeyOf, M.InOrder;
    assert PartOk(u, q[k]);
    var t := Bits(u, w);
    assert KeyAt(u, w) == M.KeyOf(t) by { KeyIs(u, w); }
    NeedsBoth(u, w);
    if Matching(u.c.nodes[w.edge.value.node]) != MATCHING_BOTH {
      MatchAlone(u, w, s.waiting);
      r := PartTurns(u, s, q, g, k, M.Only(M.Match(s.waiting, t).0), [Alone(w)], None);
    } else if KeyAt(u, w) in s.waiting {
      MatchTwo(s.waiting, t);
      r := MatchMeets(u, s, q, g, k, w);
    } else {
      MatchTwo(s.waiting, t);
      r := MatchWaits(u, s, q, g, k, w);
      assert s.flight - multiset{M.ToMatch(t)} + multiset{} == s.flight - multiset{M.ToMatch(t)};
    }
  }

  lemma KeyIs(u: Setup, w: Wire)
    ensures KeyAt(u, w) == M.KeyOf(Bits(u, w))
  {
  }

  lemma MatchTwo(waiting: M.Waiting, t: Types.Token)
    requires M.NeedsPartner(t)
    ensures M.Match(waiting, t) == if M.KeyOf(t) in waiting then (Some(M.ToDispatch(M.InOrder(t, waiting[M.KeyOf(t)]))), waiting - {M.KeyOf(t)})
                                   else (None, waiting[M.KeyOf(t) := t])
  {
    hide M.KeyOf, M.InOrder, MatchingOf;
    MatchingValues();
  }

  // What the next state is, item by item.
  lemma NextIs(m: M.Machine, s: M.State, i: M.Item, stale: Types.Token)
    ensures i.ToSwitch? ==> M.Next(m, s, i, stale) == M.State(s.flight - multiset{i} + M.Only(M.Switch(i.token)), s.waiting)
    ensures i.ToMatch? ==>
      M.Next(m, s, i, stale) == M.State(s.flight - multiset{i} + M.Only(M.Match(s.waiting, i.token).0), M.Match(s.waiting, i.token).1)
    ensures i.ToDispatch? && M.Dispatch(m.program, i.pair, stale).Some? ==>
      M.Next(m, s, i, stale) == M.State(s.flight - multiset{i} + multiset{M.ToExecute(M.Dispatch(m.program, i.pair, stale).value)}, s.waiting)
    ensures i.ToExecute? ==> M.Next(m, s, i, stale) == M.State(s.flight - multiset{i} + M.Execute(m, i.packet), s.waiting)
  {
    hide M.Dispatch, M.Execute, M.Switch, M.Match;
  }

  // Every step of the machine is at most one step of the game.
  lemma Step(u: Setup, s: M.State, q: seq<Part>, g: G.Game, i: M.Item, stale: Types.Token) returns (r: seq<Part>, h: G.Game)
    requires Sound(u) && Shows(u, s, q, g) && M.Enabled(s, i) && FreshAfter(u, g)
    ensures Shows(u, M.Next(u.Machine(), s, i, stale), r, h) && G.Next(u.P, g, h) && Nearer(u, q, g, r, h)
  {
    hide ItemOf, Weights, Weight, Sound, Shows, Bits, HeldKnown, HeldOf, FreshAfter, G.Next, M.Next, M.Dispatch, M.Execute, M.Switch, M.Match;
    var k := PartOf(u, s, q, g, i);
    ItemIs(u, q[k], i);
    NextIs(u.Machine(), s, i, stale);
    HeldHere(u, s, q, g, k);
    h := g;
    assert G.Next(u.P, g, g) by { G.NextSame(u.P, g); }
    match q[k]
    case OnSwitch(w) => r, h := OnSwitchStep(u, s, q, g, k, w);
    case AtMatch(w) => r := AtMatchStep(u, s, q, g, k, w);
    case Alone(w) => r, h := AloneStep(u, s, q, g, k, w, stale);
    case Paired(v, w) => r, h := PairedStep(u, s, q, g, k, v, w, stale);
    case InUnit(p, out) => r := InUnitStep(u, s, q, g, k, p, out);
  }

  lemma ItemIs(u: Setup, p: Part, i: M.Item)
    requires ItemOf(u, p) == Some(i)
    ensures match p
      case OnSwitch(w) => i == M.ToSwitch(Bits(u, w))
      case AtMatch(w) => i == M.ToMatch(Bits(u, w))
      case Waits(_) => false
      case Alone(w) => i == M.ToDispatch(M.Single(Bits(u, w)))
      case Paired(l, r) => i == M.ToDispatch(M.Both(Bits(u, l), Bits(u, r)))
      case InUnit(p, _) => i == M.ToExecute(p)
      case Printed(_) => i.PrintedNumber?
  {
    hide Bits, PrintData;
  }

  lemma PartOf(u: Setup, s: M.State, q: seq<Part>, g: G.Game, i: M.Item) returns (k: nat)
    requires Shows(u, s, q, g) && i in s.flight
    ensures k < |q| && ItemOf(u, q[k]) == Some(i)
  {
    hide Flight, ItemOf, HeldBy, WaitsAre, PrintsAre, Playing, PartOk;
    k := InFlight(u, q, i);
  }

  lemma HeldHere(u: Setup, s: M.State, q: seq<Part>, g: G.Game, k: nat)
    requires Shows(u, s, q, g) && k < |q|
    ensures HeldKnown(u, HeldOf(u, q[k]))
  {
    hide Flight, HeldBy, WaitsAre, PrintsAre, Playing, PartOk, HeldKnown, HeldOf;
    var r := Away(u, q, k);
    HeldIsKnown(u, g, q[k]);
  }

  // ---- Runs ----

  // The game has made at most k firings.
  ghost predicate Tracks(u: Setup, s: M.State, q: seq<Part>, gs: seq<G.Game>, k: nat) {
    G.Path(u.P, gs) && Shows(u, s, q, gs[|gs| - 1]) && |gs[|gs| - 1].done| <= k
  }

  // A longer horizon covers a shorter one.
  lemma FreshLess(u: Setup, k: nat, n: nat)
    requires FreshFor(u, k) && n <= k
    ensures FreshFor(u, n)
  {
    hide Fresh;
  }

  lemma {:induction false} RunFollows(u: Setup, s: M.State, q: seq<Part>, gs: seq<G.Game>, k: nat, t: M.State, n: nat)
    returns (r: seq<Part>, hs: seq<G.Game>)
    requires Sound(u) && Tracks(u, s, q, gs, k) && M.Steps(u.Machine(), s, t, n) && FreshFor(u, k + n)
    ensures Tracks(u, t, r, hs, k + n)
    decreases n
  {
    hide Sound, Shows, FreshFor, FreshAfter, G.Path, M.Next, M.Enabled, G.Next;
    if n == 0 {
      r, hs := q, gs;
    } else {
      var i, x :| M.Enabled(s, i) && M.Steps(u.Machine(), M.Next(u.Machine(), s, i, x), t, n - 1);
      G.PathEnds(u.P, gs);
      FreshNext(u, gs, k + n);
      var q1, h := Step(u, s, q, gs[|gs| - 1], i, x);
      NextCounts(u.P, gs[|gs| - 1], h);
      G.PathMore(u.P, gs, h);
      r, hs := RunFollows(u, M.Next(u.Machine(), s, i, x), q1, gs + [h], k + 1, t, n - 1);
    }
  }

  // ---- Safety ----

  // A token that stands before or in the matching unit is one of the parts.
  lemma StandsPart(u: Setup, s: M.State, q: seq<Part>, g: G.Game, t: Types.Token) returns (k: nat, w: Wire)
    requires Sound(u) && Shows(u, s, q, g) && M.Stands(s, t)
    ensures k < |q| && (q[k] == AtMatch(w) || q[k] == Waits(w)) && Needy(u, w) && Bits(u, w) == t
  {
    hide Sound, Flight, HeldBy, PrintsAre, Playing, Bits, EdgeOk, Matching, MatchingOf, KeyAt, M.KeyOf, M.NeedsPartner;
    if M.ToMatch(t) in s.flight {
      k := InFlight(u, q, M.ToMatch(t));
      w := q[k].w;
      assert PartOk(u, q[k]);
      NeedsBoth(u, w);
    } else {
      w := Partner(u, s, q, g, M.KeyOf(t));
      k := FindPart(q, Waits(w));
      KeyIs(u, w);
    }
  }

  // Two different parts before or in the matching unit are not for the same slot and tag.
  lemma PartsApart(u: Setup, s: M.State, q: seq<Part>, g: G.Game, j: nat, k: nat, v: Wire, w: Wire)
    requires Sound(u) && Shows(u, s, q, g) && j < |q| && k < |q| && j != k && Needy(u, v) && Needy(u, w)
    requires (q[j] == AtMatch(v) || q[j] == Waits(v)) && (q[k] == AtMatch(w) || q[k] == Waits(w))
    ensures !M.SameSlot(Bits(u, v), Bits(u, w))
  {
    hide Sound, Flight, HeldBy, Held, HeldOf, PrintsAre, WaitsAre, Playing, PartOk, EdgeOk, Matching, InputOf, KeyAt, Bits;
    if M.SameSlot(Bits(u, v), Bits(u, w)) {
      TwoHeldAtOnce(u, q, j, k);
      OneWire(u, v);
      OneWire(u, w);
      KeyIs(u, v);
      KeyIs(u, w);
      NeedsBoth(u, v);
      NeedsBoth(u, w);
      PartnersMeet(u, g, v, w);
    }
  }

  lemma TwoHeldAtOnce(u: Setup, q: seq<Part>, j: nat, k: nat)
    requires j < |q| && k < |q| && j != k
    ensures HeldOf(u, q[j]) + HeldOf(u, q[k]) <= HeldBy(u, q)
  {
    hide Flight, HeldBy, HeldOf, ItemOf, M.Only;
    var r := Away(u, q, j);
    TwoPlaces(q, j, k);
    var i := FindPart(r, q[k]);
    var r' := Away(u, r, i);
    Bags(HeldBy(u, q), HeldOf(u, q[j]), HeldOf(u, q[k]), HeldBy(u, r));
  }

  lemma TwoPlaces<A>(q: seq<A>, j: nat, k: nat)
    requires j < |q| && k < |q| && j != k
    ensures q[k] in multiset(q) - multiset{q[j]}
  {
    if j < k { TwoOrdered(q, j, k); } else { TwoOrdered(q, k, j); }
  }

  lemma TwoOrdered<A>(q: seq<A>, j: nat, k: nat)
    requires j < k < |q|
    ensures q[k] in multiset(q) - multiset{q[j]} && q[j] in multiset(q) - multiset{q[k]}
  {
    assert q == q[..j] + [q[j]] + q[j + 1..k] + [q[k]] + q[k + 1..];
  }

  lemma StateSafe(u: Setup, s: M.State, q: seq<Part>, g: G.Game)
    requires Sound(u) && Shows(u, s, q, g)
    ensures M.Safe(u.Machine(), s)
  {
    hide Sound, Shows, M.Stands, M.SameSlot, M.KeyOf, M.NeedsPartner, M.Proper, Bits, Needy;
    forall t, v | M.Stands(s, t) && M.Stands(s, v) && M.SameSlot(t, v)
      ensures t == v
    {
      var j, a := StandsPart(u, s, q, g, t);
      var k, b := StandsPart(u, s, q, g, v);
      if j != k { PartsApart(u, s, q, g, j, k, a, b); }
    }
    forall t | M.NeedsPartner(t) && M.ToMatch(t) in s.flight
      ensures s.flight[M.ToMatch(t)] == 1
      ensures !(M.KeyOf(t) in s.waiting && s.waiting[M.KeyOf(t)] == t)
    {
      MatchOnce(u, s, q, g, t);
    }
    assert M.SlotsSafe(s);
    StateProper(u, s, q, g);
  }

  lemma {:induction false} InFlightTwice(u: Setup, q: seq<Part>, i: M.Item) returns (j: nat, k: nat)
    requires Flight(u, q)[i] >= 2
    ensures j < |q| && k < |q| && j != k && ItemOf(u, q[j]) == Some(i) && ItemOf(u, q[k]) == Some(i)
  {
    hide ItemOf, Flight, HeldBy;
    if q == [] { Following.EmptyPart(u); }
    HeadItems(u, q);
    if ItemOf(u, q[0]) == Some(i) {
      k := InFlight(u, q[1..], i);
      j, k := 0, k + 1;
    } else {
      j, k := InFlightTwice(u, q[1..], i);
      j, k := j + 1, k + 1;
    }
  }

  lemma SlotWithItself(t: Types.Token)
    ensures M.SameSlot(t, t)
  {
  }

  lemma MatchOnce(u: Setup, s: M.State, q: seq<Part>, g: G.Game, t: Types.Token)
    requires Sound(u) && Shows(u, s, q, g) && M.NeedsPartner(t) && M.ToMatch(t) in s.flight
    ensures s.flight[M.ToMatch(t)] == 1
    ensures !(M.KeyOf(t) in s.waiting && s.waiting[M.KeyOf(t)] == t)
  {
    hide Sound, Flight, HeldBy, PrintsAre, Playing, Bits, EdgeOk, Matching, M.KeyOf, M.NeedsPartner, M.SameSlot, KeyAt;
    SlotWithItself(t);
    if s.flight[M.ToMatch(t)] >= 2 {
      var j, k := InFlightTwice(u, q, M.ToMatch(t));
      MatchPart(u, q, j, t);
      MatchPart(u, q, k, t);
      PartsApart(u, s, q, g, j, k, q[j].w, q[k].w);
    } else if M.KeyOf(t) in s.waiting && s.waiting[M.KeyOf(t)] == t {
      var j := InFlight(u, q, M.ToMatch(t));
      MatchPart(u, q, j, t);
      var v := Partner(u, s, q, g, M.KeyOf(t));
      var k := FindPart(q, Waits(v));
      PartsApart(u, s, q, g, j, k, q[j].w, v);
    }
  }

  lemma MatchPart(u: Setup, q: seq<Part>, k: nat, t: Types.Token)
    requires Sound(u) && k < |q| && ItemOf(u, q[k]) == Some(M.ToMatch(t)) && (forall p :: p in q ==> PartOk(u, p)) && M.NeedsPartner(t)
    ensures q[k].AtMatch? && Bits(u, q[k].w) == t && Needy(u, q[k].w)
  {
    hide Sound, Bits, EdgeOk, Matching, M.NeedsPartner;
    assert PartOk(u, q[k]);
    NeedsBoth(u, q[k].w);
  }

  // Single tokens only go to instructions that take one.
  lemma StateProper(u: Setup, s: M.State, q: seq<Part>, g: G.Game)
    requires Sound(u) && Shows(u, s, q, g)
    ensures M.Proper(u.Machine(), s)
  {
    hide Sound, Flight, HeldBy, WaitsAre, PrintsAre, Playing, Bits, EdgeOk, Matching, M.TakesTwo, Address, Number;
    forall t | M.ToDispatch(M.Single(t)) in s.flight && Number(Address(t.destination)) < |u.Machine().program|
      ensures !M.TakesTwo(u.Machine().program[Number(Address(t.destination))])
    {
      var k := InFlight(u, q, M.ToDispatch(M.Single(t)));
      assert PartOk(u, q[k]);
      SoundParts(u);
      HeadsPlaced(u, q[k].w);
      MatchesOne(u, q[k].w);
    }
  }
}
