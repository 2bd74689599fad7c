// How a run of the machine begins: the ready packets are the literals, which fire first.
module Beginning {
  import opened Words
  import T = Tass
  import G = TokenGame
  import opened Types
  import opened Numbers
  import M = Machine
  import E = Encoding
  import opened IrGraph
  import opened Placement
  import opened Assembled
  import opened Rendering
  import opened Circuit
  import opened Typing
  import opened Compiled
  import opened Wires
  import opened Firing
  import opened Execution
  import opened Following
  import opened Running

  // Line i is a literal whose instruction is not among the first k.
  predicate Unfired(u: Setup, k: nat, i: nat) {
    i < |u.P| && u.P[i].Literal? && Main(u.P, i) in u.c.idx && u.c.idx[Main(u.P, i)] >= k
  }

  ghost function Pending(u: Setup, k: nat): set<G.Arrival> {
    set i: nat | i < |u.P| && Unfired(u, k, i) :: G.Ready(i)
  }

  // The first k instructions have been looked at, and the literals among them have fired.
  ghost predicate Begun(u: Setup, k: nat, q: seq<Part>, g: G.Game)
    requires k <= |u.c.Program()|
  {
    && Playing(u, g) && g.inbox == HeldBy(u, q) + multiset(Pending(u, k)) && Flight(u, q) == M.ReadyItems(u.c.Program(), k)
    && (forall p :: p in q ==> PartOk(u, p) && p.InUnit?) && PrintsAre(u.P, multiset(q), g)
    && |g.done| <= k
  }

  lemma AllPlaced(u: Setup, i: nat)
    requires Implements(u.P, u.c) && i < |u.P| && u.P[i].Literal?
    ensures Main(u.P, i) in u.c.idx && u.c.idx[Main(u.P, i)] < |u.c.Program()|
  {
    hide Complete, Tidy, EdgesEndAtSlots, OutputsFeed, LiteralArg;
    LineIs(u, i);
    AddressSmall(u, Main(u.P, i));
  }

  lemma AddressSmall(u: Setup, n: nat)
    requires Implements(u.P, u.c) && n in u.c.idx
    ensures u.c.idx[n] < |u.c.Program()|
  {
    hide Tidy, EdgesEndAtSlots, LineBuilt, Placeable, Done, RoomAt, IsSettled;
  }

  lemma NothingYet(u: Setup)
    requires Sound(u)
    ensures Begun(u, 0, [], G.Init(u.P))
  {
    hide Regular, SecondsMarked, Implements, Unfired, Tokens, G.Inv, IsTyped;
    G.InitInv(u.P);
    EmptyPart(u);
    forall i: nat | i < |u.P|
      ensures Unfired(u, 0, i) <==> u.P[i].Literal?
    {
      UnfiredFirst(u, i);
    }
    assert Pending(u, 0) == (set i: nat | i < |u.P| && u.P[i].Literal? :: G.Ready(i));
  }

  lemma UnfiredFirst(u: Setup, i: nat)
    requires Implements(u.P, u.c) && i < |u.P|
    ensures Unfired(u, 0, i) <==> u.P[i].Literal?
  {
    hide Implements;
    if u.P[i].Literal? { AllPlaced(u, i); }
  }

  // ---- One instruction more ----

  // An instruction is ready exactly if it is that of a literal.
  lemma ReadyIsLiteral(u: Setup, k: nat) returns (lit: Option<nat>)
    requires Sound(u) && k < |u.c.Program()|
    ensures lit.Some? ==> lit.value < |u.P| && u.P[lit.value].Literal? && Main(u.P, lit.value) in u.c.idx && u.c.idx[Main(u.P, lit.value)] == k
    ensures lit.Some? ==> M.ReadyPacket(u.c.Program()[k], k) == Some(FiringPacket(u, lit.value, T.Nothing))
    ensures lit.None? ==> M.ReadyPacket(u.c.Program()[k], k) == None
    ensures lit.None? ==> forall i :: Unfired(u, k, i) ==> Unfired(u, k + 1, i)
  {
    hide Implements, SecondsMarked, Regular, EdgeWordOf, CreateDestination, Word, E.Layout.TagBits, E.Layout.WordBits, M.ReadyPacket;
    var n := NodeAt(u, k);
    InstructionIs(u, n);
    if IsDup(u.c.nodes[n]) {
      lit := None;
      DupArgs(u, n);
      NotReady(u.c.Program()[k], k);
      forall i | Unfired(u, k, i) ensures Unfired(u, k + 1, i) { NotThis(u, k, n, i); }
    } else {
      var i := LineOfNode(u, n);
      LineIs(u, i);
      if u.P[i].Literal? {
        lit := Some(i);
        LiteralReady(u, i, k);
      } else {
        lit := None;
        NotReady(u.c.Program()[k], k) by { OthersNotReady(u.P[i], u.c.nodes[n]); }
        forall j | Unfired(u, k, j) ensures Unfired(u, k + 1, j) {
          if u.c.idx[Main(u.P, j)] == k {
            SameAddress(u, n, Main(u.P, j));
            MainsDiffer(u.P, i, j);
          }
        }
      }
    }
  }

  lemma NodeAt(u: Setup, k: nat) returns (n: nat)
    requires Implements(u.P, u.c) && k < |u.c.Program()|
    ensures n in u.c.idx && u.c.idx[n] == k
  {
    hide Tidy, EdgesEndAtSlots, LineBuilt, Placeable, Done, RoomAt, IsSettled;
    n := u.c.order[k];
  }

  lemma SameAddress(u: Setup, a: nat, b: nat)
    requires Implements(u.P, u.c) && a in u.c.idx && b in u.c.idx && u.c.idx[a] == u.c.idx[b]
    ensures a == b
  {
    hide Tidy, EdgesEndAtSlots, LineBuilt, Placeable, Done, RoomAt, IsSettled;
    OneNode(u.c, a, b);
  }

  lemma DupArgs(u: Setup, n: nat)
    requires Implements(u.P, u.c) && n < |u.c.nodes| && IsDup(u.c.nodes[n])
    ensures u.c.nodes[n].in1 == NoArg
  {
  }

  lemma LineOfNode(u: Setup, n: nat) returns (i: nat)
    requires Implements(u.P, u.c) && n < |u.c.nodes| && !IsDup(u.c.nodes[n])
    ensures i < |u.P| && Main(u.P, i) == n
  {
    hide Tidy, Complete, EdgesEndAtSlots, LineBuilt;
    assert IsMain(u.P, n);
    i :| i < |u.P| && Main(u.P, i) == n;
  }

  lemma NotThis(u: Setup, k: nat, n: nat, i: nat)
    requires Implements(u.P, u.c) && n in u.c.idx && u.c.idx[n] == k && n < |u.c.nodes| && IsDup(u.c.nodes[n]) && Unfired(u, k, i)
    ensures Unfired(u, k + 1, i)
  {
    hide Implements;
    LineIs(u, i);
    if u.c.idx[Main(u.P, i)] == k { SameAddress(u, n, Main(u.P, i)); }
  }

  lemma NotReady(inst: Instruction, k: nat)
    requires inst.literals == NONE || (inst.literals == ONE && NumInputs(inst.opcode) == 2)
    ensures M.ReadyPacket(inst, k) == None
  {
  }

  lemma OthersNotReady(l: T.Line, n: Node)
    requires !l.Literal? && n.op == NodeOpOf(l) && n.op.Op? && n.in1 == LiteralArg(l)
    ensures n.in1.NoArg? || NumInputs(n.op.op) == 2
  {
  }

  lemma LiteralReady(u: Setup, i: nat, k: nat)
    requires Implements(u.P, u.c) && SecondsMarked(u.c) && i < |u.P| && u.P[i].Literal? && Main(u.P, i) in u.c.idx && u.c.idx[Main(u.P, i)] == k
    ensures k < |u.c.Program()| && M.ReadyPacket(u.c.Program()[k], k) == Some(FiringPacket(u, i, T.Nothing))
  {
    hide Implements, SecondsMarked, EdgeWordOf, CreateDestination, Word, E.Layout.TagBits;
    LineIs(u, i);
    InstructionIs(u, Main(u.P, i));
    FirstTag(u.Layout());
  }

  lemma FirstTag(y: E.Layout)
    ensures y.TagBits(T.NO_TAG) == Types.NO_TAG
  {
  }

  lemma BeginNext(u: Setup, k: nat, q: seq<Part>, g: G.Game) returns (r: seq<Part>, h: G.Game)
    requires Sound(u) && k < |u.c.Program()| && Begun(u, k, q, g) && FreshAfter(u, g)
    ensures Begun(u, k + 1, r, h) && G.Next(u.P, g, h)
  {
    hide Sound, FreshAfter, Playing, PrintsAre, PartOk, Pending, Unfired, FiringPacket, M.ReadyPacket, M.ReadyItems, Flight, HeldBy, G.Next;
    SoundParts(u);
    var lit := ReadyIsLiteral(u, k);
    if lit.None? {
      r, h := q, g;
      G.NextSame(u.P, g);
      SamePending(u, k);
      ReadyMore(u.c.Program(), k);
    } else {
      r, h := FireLiteral(u, k, q, g, lit.value);
    }
  }

  lemma SamePending(u: Setup, k: nat)
    requires forall i :: Unfired(u, k, i) ==> Unfired(u, k + 1, i)
    ensures Pending(u, k) == Pending(u, k + 1)
  {
    hide Unfired;
    forall i: nat ensures Unfired(u, k, i) <==> Unfired(u, k + 1, i) { LaterUnfired(u, k, i); }
  }

  lemma LaterUnfired(u: Setup, k: nat, i: nat)
    ensures Unfired(u, k + 1, i) ==> Unfired(u, k, i)
  {
  }

  // One literal fewer is pending.
  lemma PendingLess(u: Setup, k: nat, i: nat)
    requires Sound(u) && i < |u.P| && u.P[i].Literal? && Main(u.P, i) in u.c.idx && u.c.idx[Main(u.P, i)] == k
    ensures G.Ready(i) in Pending(u, k) && Pending(u, k + 1) == Pending(u, k) - {G.Ready(i)}
  {
    hide Sound, Unfired;
    forall j: nat | j < |u.P| ensures Unfired(u, k + 1, j) <==> Unfired(u, k, j) && j != i { UnfiredLess(u, k, i, j); }
    assert Unfired(u, k, i) by { UnfiredHere(u, k, i); }
  }

  lemma UnfiredHere(u: Setup, k: nat, i: nat)
    requires i < |u.P| && u.P[i].Literal? && Main(u.P, i) in u.c.idx && u.c.idx[Main(u.P, i)] == k
    ensures Unfired(u, k, i)
  {
  }

  lemma UnfiredLess(u: Setup, k: nat, i: nat, j: nat)
    requires Sound(u) && i < |u.P| && u.P[i].Literal? && Main(u.P, i) in u.c.idx && u.c.idx[Main(u.P, i)] == k && j < |u.P|
    ensures Unfired(u, k + 1, j) <==> Unfired(u, k, j) && j != i
  {
    hide Sound;
    SoundParts(u);
    if Unfired(u, k, j) && u.c.idx[Main(u.P, j)] == k {
      SameAddress(u, Main(u.P, i), Main(u.P, j));
      MainsDiffer(u.P, i, j);
    }
  }

  lemma SetBag<A>(s: set<A>, a: A, t: set<A>)
    requires a in s && t == s - {a}
    ensures multiset(s) == multiset{a} + multiset(t)
  {
  }

  // The packet of a literal, with the tokens it will send.
  lemma LiteralPart(u: Setup, i: nat) returns (p: Part)
    requires Sound(u) && i < |u.P| && u.P[i].Literal? && Implements(u.P, u.c)
    ensures p.InUnit? && p.p == FiringPacket(u, i, T.Nothing) && PartOk(u, p)
    ensures HeldOf(u, p) == multiset(G.Deliveries(u.P, T.Emit(u.P[i], T.Nothing)))
  {
    hide Sound, Implements, FiringPacket, HeldAll, G.Deliveries, M.FunctionUnit, BitsAll, WiresOk, Flight, HeldBy, Tokens;
    var out := Fire(u, i, T.Nothing);
    Handed(u, FiringPacket(u, i, T.Nothing), out);
    p := InUnit(FiringPacket(u, i, T.Nothing), out);
  }

  // The game when a literal fires.
  lemma LiteralFires(u: Setup, g: G.Game, i: nat) returns (h: G.Game)
    requires Regular(u.P) && Playing(u, g) && i < |u.P| && u.P[i].Literal? && G.Ready(i) in g.inbox && FreshAfter(u, g)
    ensures Playing(u, h) && G.Next(u.P, g, h)
    ensures h.inbox == g.inbox - multiset{G.Ready(i)} + multiset(G.Deliveries(u.P, T.Emit(u.P[i], T.Nothing)))
    ensures h.done == g.done + multiset{G.Firing(i, T.Nothing)}
  {
    hide Regular, FreshAfter, Playing, G.Deliveries, T.Emit;
    var f := G.Firing(i, T.Nothing);
    assert G.Enabled(u.P, g, f);
    h := G.Fire(u.P, g, f);
    FirePlays(u, g, f);
  }

  lemma FireLiteral(u: Setup, k: nat, q: seq<Part>, g: G.Game, i: nat) returns (r: seq<Part>, h: G.Game)
    requires Sound(u) && k < |u.c.Program()| && Begun(u, k, q, g) && FreshAfter(u, g)
    requires i < |u.P| && u.P[i].Literal? && Main(u.P, i) in u.c.idx && u.c.idx[Main(u.P, i)] == k && Implements(u.P, u.c)
    requires M.ReadyPacket(u.c.Program()[k], k) == Some(FiringPacket(u, i, T.Nothing))
    ensures Begun(u, k + 1, r, h) && G.Next(u.P, g, h)
  {
    hide Sound, FreshAfter, Implements, Playing, PrintsAre, PartOk, FiringPacket, M.ReadyPacket, M.ReadyItems, ItemOf, Flight, HeldBy, HeldOf, Pending, Main, G.Next, G.Deliveries, T.Emit;
    SoundParts(u);
    PendingLess(u, k, i);
    SetBag(Pending(u, k), G.Ready(i), Pending(u, k + 1));
    h := LiteralFires(u, g, i);
    var p := LiteralPart(u, i);
    More(u, q, p);
    UnitItem(u, p);
    r := q + [p];
    LiteralPrints(u, q, g, h, i, p);
    HeldMore(g.inbox, HeldBy(u, q), multiset(Pending(u, k)), G.Ready(i), multiset(Pending(u, k + 1)), HeldOf(u, p), h.inbox);
    ReadyMore(u.c.Program(), k);
    PartsMore(u, q, p);
  }

  lemma UnitItem(u: Setup, p: Part)
    requires p.InUnit?
    ensures M.Only(ItemOf(u, p)) == multiset{M.ToExecute(p.p)}
  {
  }

  lemma ReadyMore(program: seq<Instruction>, k: nat)
    requires k < |program|
    ensures var p := M.ReadyPacket(program[k], k);
      M.ReadyItems(program, k + 1) == M.ReadyItems(program, k) + (if p.Some? then multiset{M.ToExecute(p.value)} else multiset{})
  {
    hide M.ReadyPacket;
  }

  lemma PartsMore(u: Setup, q: seq<Part>, p: Part)
    requires (forall x :: x in q ==> PartOk(u, x) && x.InUnit?) && PartOk(u, p) && p.InUnit?
    ensures forall x :: x in q + [p] ==> PartOk(u, x) && x.InUnit?
  {
    hide PartOk;
  }

  lemma HeldMore<A>(inbox: multiset<A>, held: multiset<A>, pending: multiset<A>, a: A, less: multiset<A>, more: multiset<A>, after: multiset<A>)
    requires inbox == held + pending && pending == multiset{a} + less && after == inbox - multiset{a} + more
    ensures after == held + more + less
  {
  }

  lemma LiteralPrints(u: Setup, q: seq<Part>, g: G.Game, h: G.Game, i: nat, p: Part)
    requires PrintsAre(u.P, multiset(q), g) && i < |u.P| && u.P[i].Literal? && p.InUnit?
    requires h.done == g.done + multiset{G.Firing(i, T.Nothing)}
    ensures PrintsAre(u.P, multiset(q + [p]), h)
  {
    forall e | IsPrint(u.P, e)
      ensures h.done[e] == multiset(q + [p])[Printed(e)]
    {
      assert g.done[e] == multiset(q)[Printed(e)] && e != G.Firing(i, T.Nothing);
      assert multiset(q + [p]) == multiset(q) + multiset{p};
    }
  }

  // ---- The start of a run ----

  lemma {:induction false} BegunUpTo(u: Setup, k: nat) returns (q: seq<Part>, gs: seq<G.Game>)
    requires Sound(u) && k <= |u.c.Program()| && FreshFor(u, k)
    ensures G.Path(u.P, gs) && Begun(u, k, q, gs[|gs| - 1])
    decreases k
  {
    hide Sound, Begun, G.Next, G.Path, FreshFor, FreshAfter;
    if k == 0 {
      q, gs := [], [G.Init(u.P)];
      NothingYet(u);
      InitPath(u.P);
    } else {
      FreshLess(u, k, k - 1);
      q, gs := BegunUpTo(u, k - 1);
      G.PathEnds(u.P, gs);
      BegunFew(u, k - 1, q, gs[|gs| - 1]);
      FreshNext(u, gs, k);
      var r, h := BeginNext(u, k - 1, q, gs[|gs| - 1]);
      G.PathMore(u.P, gs, h);
      q, gs := r, gs + [h];
    }
  }

  lemma InitPath(P: seq<T.Line>)
    ensures G.Path(P, [G.Init(P)])
  {
    hide G.Init;
  }

  lemma BegunFew(u: Setup, k: nat, q: seq<Part>, g: G.Game)
    requires k <= |u.c.Program()| && Begun(u, k, q, g)
    ensures |g.done| <= k
  {
  }

  lemma NonePending(u: Setup)
    requires Implements(u.P, u.c)
    ensures Pending(u, |u.c.Program()|) == {}
  {
    hide Implements;
    forall i: nat | i < |u.P| && Unfired(u, |u.c.Program()|, i) ensures false { AddressSmall(u, Main(u.P, i)); }
  }

  lemma StartFollows(u: Setup) returns (q: seq<Part>, gs: seq<G.Game>)
    requires Sound(u) && FreshFor(u, |u.c.Program()|)
    ensures Tracks(u, M.Start(u.Machine()), q, gs, |u.c.Program()|)
  {
    hide Sound, FreshFor, Playing, PrintsAre, PartOk, Flight, HeldBy, G.Path, M.ReadyItems;
    var k := |u.c.Program()|;
    q, gs := BegunUpTo(u, k);
    G.PathEnds(u.P, gs);
    SoundParts(u);
    NonePending(u);
    var g := gs[|gs| - 1];
    assert g.inbox == HeldBy(u, q) + multiset{} == HeldBy(u, q);
    NoWaits(u, q);
  }

  lemma NoWaits(u: Setup, q: seq<Part>)
    requires forall p :: p in q ==> p.InUnit?
    ensures WaitsAre(u, multiset(q), map[])
  {
    hide Bits;
    forall p | p in multiset(q) ensures p.InUnit? { assert p in q; }
  }

  // No tags clash and no count wraps in the first n steps: they fire at most n lines, and the ready
  // packets at most one an instruction.
  ghost predicate FreshRun(u: Setup, n: nat) { FreshFor(u, |u.c.Program()| + n) }

  // Whatever state the machine reaches, the game can reach one that it shows.
  lemma ReachableFollows(u: Setup, t: M.State, n: nat) returns (q: seq<Part>, gs: seq<G.Game>)
    requires Sound(u) && M.Steps(u.Machine(), M.Start(u.Machine()), t, n) && FreshRun(u, n)
    ensures Tracks(u, t, q, gs, |u.c.Program()| + n)
  {
    hide Sound, Tracks, FreshFor, M.Steps, M.Start;
    FreshLess(u, |u.c.Program()| + n, |u.c.Program()|);
    var q0, gs0 := StartFollows(u);
    q, gs := RunFollows(u, M.Start(u.Machine()), q0, gs0, |u.c.Program()|, t, n);
  }

  // No state of any run is unsafe.
  lemma AlwaysSafe(u: Setup)
    requires Sound(u) && forall n: nat :: FreshRun(u, n)
    ensures M.SafeFrom(u.Machine(), M.Start(u.Machine())) && M.WaitingOk(M.Start(u.Machine()).waiting)
  {
    hide Sound, Shows, FreshRun, M.Safe;
    forall t, n: nat | M.Steps(u.Machine(), M.Start(u.Machine()), t, n)
      ensures M.Safe(u.Machine(), t)
    {
      ReachableSafe(u, t, n);
    }
  }

  lemma ReachableSafe(u: Setup, t: M.State, n: nat)
    requires Sound(u) && FreshRun(u, n) && M.Steps(u.Machine(), M.Start(u.Machine()), t, n)
    ensures M.Safe(u.Machine(), t)
  {
    hide Sound, Shows, FreshRun, M.Safe;
    var q, gs := ReachableFollows(u, t, n);
    G.PathEnds(u.P, gs);
    StateSafe(u, t, q, gs[|gs| - 1]);
  }
}
