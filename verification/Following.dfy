// Every step of the machine is a step of the token game, or changes nothing the game sees.
module Following {
  import opened Words
  import T = Tass
  import G = TokenGame
  import D = Delivery
  import opened Types
  import M = Machine
  import opened IrGraph
  import opened Placement
  import opened Rendering
  import opened Circuit
  import opened Typing
  import opened Compiled
  import opened Wires
  import opened Firing
  import opened Execution

  // ---- A state of the machine and a state of the game ----

  function KeyAt(u: Setup, w: Wire): M.Key { M.KeyOf(Bits(u, w)) }

  predicate KeptAt(u: Setup, p: Part, k: M.Key) {
    p.Waits? && KeyAt(u, p.w) == k
  }

  ghost predicate SameKey(u: Setup, p: Part, r: Part) {
    p.Waits? && r.Waits? && KeyAt(u, p.w) == KeyAt(u, r.w)
  }

  // The waiting parts are the waiting table.
  ghost predicate WaitsAre(u: Setup, b: multiset<Part>, waiting: M.Waiting) {
    && (forall p :: p in b && p.Waits? ==> KeyAt(u, p.w) in waiting && waiting[KeyAt(u, p.w)] == Bits(u, p.w) && b[p] == 1)
    && (forall k :: k in waiting ==> exists p :: p in b && KeptAt(u, p, k))
    && forall p, r :: p in b && r in b && SameKey(u, p, r) ==> p == r
  }

  predicate IsPrint(P: seq<T.Line>, f: G.Firing) { f.line < |P| && P[f.line].Output? }

  // What has been printed is what print lines have fired.
  ghost predicate PrintsAre(P: seq<T.Line>, b: multiset<Part>, g: G.Game) {
    forall f :: IsPrint(P, f) ==> g.done[f] == b[Printed(f)]
  }

  ghost predicate Playing(u: Setup, g: G.Game) {
    G.Inv(u.P, g) && G.Sent(g) <= Tokens(u.P) && Fresh(u, G.Sent(g))
  }

  ghost predicate Shows(u: Setup, s: M.State, q: seq<Part>, g: G.Game) {
    && s.flight == Flight(u, q) && WaitsAre(u, multiset(q), s.waiting) && HeldBy(u, q) == g.inbox
    && (forall p :: p in q ==> PartOk(u, p)) && PrintsAre(u.P, multiset(q), g) && Playing(u, g)
  }

  // ---- What is held has been sent ----

  lemma {:induction false} HeldAreArrivals(u: Setup, ws: seq<Wire>)
    ensures forall a :: a in HeldAll(u, ws) ==> a.Arrival?
  {
    if ws != [] { HeldAreArrivals(u, ws[1..]); }
  }

  lemma HeldIsKnown(u: Setup, g: G.Game, p: Part)
    requires Playing(u, g) && HeldOf(u, p) <= g.inbox
    ensures HeldKnown(u, HeldOf(u, p))
  {
    hide HeldAll, Tokens, CountOk;
    HeldAreArrivals(u, WiresOf(p));
    forall a | a in HeldOf(u, p)
      ensures a.Arrival? && a.token in Known(u.P)
    {
      assert a in g.inbox;
      D.Arrived(u.P, g, a);
      assert a.token in G.Sent(g);
    }
  }

  // ---- Firing a line ----

  // What a firing makes of tokens of the program are tokens of the program.
  lemma FireTokens(P: seq<T.Line>, g: G.Game, f: G.Firing)
    requires G.Inv(P, g) && G.Sent(g) <= Tokens(P) && G.Enabled(P, g, f)
    ensures G.Sent(G.Fire(P, g, f)) <= Tokens(P)
  {
    hide G.Inv, T.Emit, T.Matched, G.Consumed, T.Within, Tokens, G.Deliveries;
    G.EnabledWithin(P, g, f);
    G.WithinMore(f.ins, G.Sent(g), Tokens(P));
    TokensClosed(P);
    forall tok | tok in T.Emit(P[f.line], f.ins)
      ensures tok in Tokens(P)
    {
      assert T.Yields(P[f.line], f.ins, Tokens(P), tok);
      ClosedHas(P, Tokens(P), P[f.line], tok);
    }
  }

  lemma FirePlays(u: Setup, g: G.Game, f: G.Firing)
    requires Regular(u.P) && Playing(u, g) && G.Enabled(u.P, g, f) && FreshAfter(u, g)
    ensures Playing(u, G.Fire(u.P, g, f))
  {
    hide Regular, Fresh, G.Inv, T.Emit, T.Matched, G.Consumed, Tokens;
    assert G.Next(u.P, g, G.Fire(u.P, g, f));
    G.StepInv(u.P, g, f);
    FireTokens(u.P, g, f);
  }

  lemma FireEnabled(u: Setup, g: G.Game, f: G.Firing, held: multiset<G.Arrival>)
    requires G.Fits(u.P, f) && held == multiset(G.Consumed(u.P[f.line], f)) && held <= g.inbox
    ensures G.Enabled(u.P, g, f)
  {
    hide G.Consumed;
    forall a | a in G.Consumed(u.P[f.line], f) ensures a in g.inbox { assert a in held; }
  }

  // The game after a turn.
  ghost function After(u: Setup, g: G.Game, f: Option<G.Firing>): G.Game
    requires f.Some? ==> G.Fits(u.P, f.value)
  {
    if f.None? then g else G.Fire(u.P, g, f.value)
  }

  // ---- A part that turns ----

  lemma WaitsKept(u: Setup, b: multiset<Part>, part: Part, news: multiset<Part>, waiting: M.Waiting)
    requires WaitsAre(u, b, waiting) && part in b && !part.Waits? && forall p :: p in news ==> !p.Waits?
    ensures WaitsAre(u, b - multiset{part} + news, waiting)
  {
    hide Bits, KeyAt;
    var c := b - multiset{part} + news;
    forall p: Part | p.Waits? ensures p in c <==> p in b { }
    forall k | k in waiting
      ensures exists p :: p in c && KeptAt(u, p, k)
    {
      var p :| p in b && KeptAt(u, p, k);
      assert p in c;
    }
  }

  lemma PrintsKept(u: Setup, b: multiset<Part>, part: Part, news: seq<Part>, g: G.Game, f: Option<G.Firing>, held: multiset<G.Arrival>, items: multiset<M.Item>)
    requires PrintsAre(u.P, b, g) && part in b && !part.Printed? && Turned(u, held, items, news, f)
    ensures f.Some? ==> G.Fits(u.P, f.value)
    ensures PrintsAre(u.P, b - multiset{part} + multiset(news), After(u, g, f))
  {
    hide PartOk, Flight, HeldBy, G.Consumed, G.Deliveries, T.Emit, T.Matched;
    var c, after := b - multiset{part} + multiset(news), After(u, g, f);
    forall h | IsPrint(u.P, h)
      ensures after.done[h] == c[Printed(h)]
    {
      assert g.done[h] == b[Printed(h)];
      if f == Some(h) { assert news == [Printed(h)]; } else { assert Printed(h) !in news; }
    }
  }

  lemma PartTurns(u: Setup, s: M.State, q: seq<Part>, g: G.Game, k: nat, items: multiset<M.Item>, news: seq<Part>, f: Option<G.Firing>)
    returns (r: seq<Part>)
    requires Regular(u.P) && Shows(u, s, q, g) && k < |q| && !q[k].Waits? && !q[k].Printed?
    requires Turned(u, HeldOf(u, q[k]), items, news, f) && FreshAfter(u, g)
    ensures f.Some? ==> G.Enabled(u.P, g, f.value)
    ensures Shows(u, M.State(s.flight - M.Only(ItemOf(u, q[k])) + items, s.waiting), r, After(u, g, f))
    ensures Weights(u, r) + Weight(u, q[k]) == Weights(u, q) + Weights(u, news)
  {
    hide Weights, Weight, Regular, FreshAfter, PartOk, Flight, HeldBy, HeldOf, ItemOf, G.Consumed, G.Deliveries, T.Emit, T.Matched, Playing, WaitsAre, PrintsAre;
    r := Replace(u, q, k, news);
    var b := multiset(q);
    assert q[k] in b;
    WaitsKept(u, b, q[k], multiset(news), s.waiting);
    PrintsKept(u, b, q[k], news, g, f, HeldOf(u, q[k]), items);
    if f.Some? {
      FireEnabled(u, g, f.value, HeldOf(u, q[k]));
      FirePlays(u, g, f.value);
    }
    forall p | p in r
      ensures PartOk(u, p)
    {
      assert p in multiset(r);
      assert p in b || p in multiset(news);
    }
  }

  // ---- Matching ----

  lemma MatchingRange(n: Node)
    ensures Matching(n) == MATCHING_ONE || Matching(n) == MATCHING_ANY || Matching(n) == MATCHING_BOTH
    ensures MATCHING_ONE != MATCHING_BOTH && MATCHING_ANY != MATCHING_BOTH
  {
  }

  lemma MatchAlone(u: Setup, w: Wire, waiting: M.Waiting)
    requires Sound(u) && Heads(u, w) && Matching(u.c.nodes[w.edge.value.node]) != MATCHING_BOTH
    ensures M.Match(waiting, Bits(u, w)) == (Some(M.ToDispatch(M.Single(Bits(u, w)))), waiting)
    ensures Turned(u, HeldOf(u, AtMatch(w)), M.Only(M.Match(waiting, Bits(u, w)).0), [Alone(w)], None)
    ensures Weights(u, [Alone(w)]) < Weight(u, AtMatch(w))
  {
    hide Weights, Weight, Sound, EdgeOk, Held, HeldOf, HeldAll, Bits, Matching, MatchingOf, M.KeyOf, M.Match, Turned, PartOk;
    AloneNearer(u, w);
    PassesAlone(u, w);
    MatchOne(waiting, Bits(u, w));
    BecomesOne(u, HeldOf(u, AtMatch(w)), Alone(w)) by { AloneOk(u, w); }
  }

  lemma PassesAlone(u: Setup, w: Wire)
    requires Sound(u) && Heads(u, w) && Matching(u.c.nodes[w.edge.value.node]) != MATCHING_BOTH
    ensures var f := MatchingOf(Bits(u, w).destination); f == MATCHING_ONE || f == MATCHING_ANY
  {
    hide Sound, EdgeOk, Bits, Matching, MatchingOf;
    SoundParts(u);
    HeadsPlaced(u, w);
    MatchingRange(u.c.nodes[w.edge.value.node]);
  }

  lemma MatchOne(waiting: M.Waiting, t: Types.Token)
    requires MatchingOf(t.destination) == MATCHING_ONE || MatchingOf(t.destination) == MATCHING_ANY
    ensures M.Match(waiting, t) == (Some(M.ToDispatch(M.Single(t))), waiting)
  {
    hide MatchingOf, M.KeyOf;
  }

  lemma AloneOk(u: Setup, w: Wire)
    requires Heads(u, w) && Matching(u.c.nodes[w.edge.value.node]) != MATCHING_BOTH
    ensures PartOk(u, Alone(w))
  {
    hide EdgeOk, Matching;
  }

  lemma AloneNearer(u: Setup, w: Wire)
    ensures Weights(u, [Alone(w)]) < Weight(u, AtMatch(w)) && HeldOf(u, Alone(w)) == HeldOf(u, AtMatch(w))
  {
    hide Held, HeldAll, WayOf;
    OnePart(u, Alone(w));
  }

  // One part becomes another that holds the same.
  lemma BecomesOne(u: Setup, held: multiset<G.Arrival>, p: Part)
    requires PartOk(u, p) && !p.Waits? && !p.Printed? && HeldOf(u, p) == held
    ensures Turned(u, held, M.Only(ItemOf(u, p)), [p], None)
  {
    hide PartOk, HeldOf, ItemOf;
    OnePart(u, p);
  }

  lemma NeedsBoth(u: Setup, w: Wire)
    requires Sound(u) && Heads(u, w)
    ensures M.NeedsPartner(Bits(u, w)) <==> Matching(u.c.nodes[w.edge.value.node]) == MATCHING_BOTH
    ensures InputOf(Bits(u, w).destination) == w.edge.value.input
  {
    hide Sound, EdgeOk, Bits, Matching, MatchingOf, InputOf;
    SoundParts(u);
    HeadsPlaced(u, w);
  }

  // On an edge to an instruction that takes two tokens.
  ghost predicate Needy(u: Setup, w: Wire) {
    Heads(u, w) && Matching(u.c.nodes[w.edge.value.node]) == MATCHING_BOTH
  }

  // Without a partner the token waits.
  lemma WaitsMore(u: Setup, b: multiset<Part>, w: Wire, waiting: M.Waiting)
    requires WaitsAre(u, b, waiting) && AtMatch(w) in b && KeyAt(u, w) !in waiting
    ensures WaitsAre(u, b - multiset{AtMatch(w)} + multiset{Waits(w)}, waiting[KeyAt(u, w) := Bits(u, w)])
  {
    hide Bits, KeyAt;
    var c, after := b - multiset{AtMatch(w)} + multiset{Waits(w)}, waiting[KeyAt(u, w) := Bits(u, w)];
    assert Waits(w) !in b;
    forall p: Part | p.Waits? ensures c[p] == if p == Waits(w) then 1 else b[p] { }
    forall p, r | p in c && r in c && SameKey(u, p, r)
      ensures p == r
    {
      if p != Waits(w) && r != Waits(w) { assert p in b && r in b; }
    }
    forall k | k in after
      ensures exists p :: p in c && KeptAt(u, p, k)
    {
      if k == KeyAt(u, w) {
        assert Waits(w) in c && KeptAt(u, Waits(w), k);
      } else {
        var p :| p in b && KeptAt(u, p, k);
        assert p in c;
      }
    }
  }

  lemma MatchWaits(u: Setup, s: M.State, q: seq<Part>, g: G.Game, k: nat, w: Wire) returns (r: seq<Part>)
    requires Shows(u, s, q, g) && k < |q| && q[k] == AtMatch(w) && Needy(u, w) && KeyAt(u, w) !in s.waiting
    ensures Shows(u, M.State(s.flight - multiset{M.ToMatch(Bits(u, w))}, s.waiting[KeyAt(u, w) := Bits(u, w)]), r, g)
    ensures Weights(u, r) < Weights(u, q)
  {
    hide Weights, Flight, HeldBy, HeldOf, Playing, WaitsAre, PrintsAre, PartOk, Needy, KeyAt, Bits;
    r := SwapWaits(u, q, k, w);
    var b, c := multiset(q), multiset(r);
    WaitsMore(u, b, w, s.waiting);
    PrintsSame(u.P, b, c, g);
    WaitsOk(u, q, k, w);
    PartsStay(u, q, r, multiset{Waits(w)});
  }

  lemma SwapWaits(u: Setup, q: seq<Part>, k: nat, w: Wire) returns (r: seq<Part>)
    requires k < |q| && q[k] == AtMatch(w)
    ensures AtMatch(w) in multiset(q) && multiset(r) == multiset(q) - multiset{AtMatch(w)} + multiset{Waits(w)}
    ensures HeldBy(u, r) == HeldBy(u, q) && Flight(u, r) == Flight(u, q) - multiset{M.ToMatch(Bits(u, w))}
    ensures Weights(u, r) < Weights(u, q)
  {
    hide Weights, WayOf, Flight, HeldBy, HeldOf, Bits;
    r := Replace(u, q, k, [Waits(w)]);
    OnePart(u, Waits(w));
    SameHeld(u, w);
    assert AtMatch(w) in multiset(q);
    assert multiset([Waits(w)]) == multiset{Waits(w)};
  }

  lemma WaitsOk(u: Setup, q: seq<Part>, k: nat, w: Wire)
    requires k < |q| && q[k] == AtMatch(w) && Needy(u, w) && forall p :: p in q ==> PartOk(u, p)
    ensures PartOk(u, Waits(w))
  {
    hide Matching, EdgeOk;
    assert PartOk(u, q[k]);
  }

  lemma PartsStay(u: Setup, q: seq<Part>, r: seq<Part>, news: multiset<Part>)
    requires (forall p :: p in q ==> PartOk(u, p)) && (forall p :: p in news ==> PartOk(u, p)) && multiset(r) <= multiset(q) + news
    ensures forall p :: p in r ==> PartOk(u, p)
  {
    hide PartOk;
    forall p | p in r
      ensures PartOk(u, p)
    {
      assert p in multiset(r);
      assert p in multiset(q) || p in news;
    }
  }

  lemma PrintsSame(P: seq<T.Line>, b: multiset<Part>, c: multiset<Part>, g: G.Game)
    requires PrintsAre(P, b, g) && forall f :: b[Printed(f)] == c[Printed(f)]
    ensures PrintsAre(P, c, g)
  {
  }

  lemma SameHeld(u: Setup, w: Wire)
    ensures HeldOf(u, AtMatch(w)) == HeldOf(u, Waits(w))
  {
  }

  // ---- Partners ----

  // A token that needs a partner is at a slot of a line.
  lemma AtSlot(u: Setup, g: G.Game, w: Wire) returns (a: G.Arrival)
    requires Sound(u) && Playing(u, g) && Needy(u, w) && Held(u, w) <= g.inbox
    ensures Held(u, w) == multiset{a} && a.Arrival? && a.token in G.Sent(g)
    ensures a.token.tag == w.tag && a.line < |u.P| && w.edge.value == Slot(u.P, a.line, a.port) && a.port < |G.Ports(u.P[a.line])|
    ensures a.token.word == w.word
  {
    hide Implements, SecondsMarked, Regular, Known, G.Ports, Slot, EdgeOk, Playing, HeldKnown, Held, Matching;
    HeldIsKnown(u, g, AtMatch(w)) by { OneHeld(u, w); }
    OneHeld(u, w);
    NotDup(u, w.edge.value.node);
    var i, port, x := AtLine(u, w);
    a := G.Arrival(i, port, x);
    assert a in Held(u, w);
    PlayedSent(u, g, a);
  }

  lemma PlayedSent(u: Setup, g: G.Game, a: G.Arrival)
    requires Playing(u, g) && a in g.inbox && a.Arrival?
    ensures a.token in G.Sent(g)
  {
    hide Tokens, Fresh;
    D.Arrived(u.P, g, a);
  }

  // Two tokens with one key come to different inputs of one node, under one tag.
  lemma PartnersMeet(u: Setup, g: G.Game, v: Wire, w: Wire)
    requires Sound(u) && Playing(u, g) && Needy(u, v) && Needy(u, w) && Held(u, v) + Held(u, w) <= g.inbox
    requires KeyAt(u, v) == KeyAt(u, w)
    ensures v.edge.value.node == w.edge.value.node && v.tag == w.tag && v.edge.value.input != w.edge.value.input
  {
    hide Implements, SecondsMarked, Regular, Tokens, G.Ports, G.Inv, EdgeOk, Held, Matching, KeyAt, Bits;
    var a := AtSlot(u, g, v);
    var b := AtSlot(u, g, w);
    KeysMeet(u, v, w);
    assert v.tag == w.tag;
    if v.edge.value.input == w.edge.value.input {
      SlotsMeet(u.P, a.line, a.port, b.line, b.port);
      SlotOnce(u, g, a, b);
    }
  }

  // Two arrivals, if only two copies of one, do not share a slot and a tag.
  lemma SlotOnce(u: Setup, g: G.Game, a: G.Arrival, b: G.Arrival)
    requires Regular(u.P) && Playing(u, g) && multiset{a} + multiset{b} <= g.inbox
    ensures !D.SameSlot(a, b)
  {
    hide Regular, G.Inv, D.SameSlot, Tokens;
    D.InvSafe(u.P, g);
    var both := multiset{a} + multiset{b};
    assert both[a] <= g.inbox[a] && both[b] <= g.inbox[b];
    assert a in g.inbox && b in g.inbox;
  }

  lemma KeysMeet(u: Setup, v: Wire, w: Wire)
    requires Sound(u) && Heads(u, v) && Heads(u, w) && KeyAt(u, v) == KeyAt(u, w)
    ensures v.edge.value.node == w.edge.value.node && u.Layout().TagBits(v.tag) == u.Layout().TagBits(w.tag)
  {
    hide Sound, EdgeOk;
    SameBitsSameSlot(u, v, w);
  }

  lemma SlotsMeet(P: seq<T.Line>, i: nat, port: nat, j: nat, port': nat)
    requires i < |P| && j < |P| && port < |G.Ports(P[i])| && port' < |G.Ports(P[j])| && Slot(P, i, port) == Slot(P, j, port')
    ensures i == j && port == port'
  {
    MainsDiffer(P, i, j);
    InputsDiffer();
  }

  // The pair in slot order.
  lemma PairOk(u: Setup, g: G.Game, v: Wire, w: Wire) returns (p: Part)
    requires Sound(u) && Playing(u, g) && Needy(u, v) && Needy(u, w) && Held(u, v) + Held(u, w) <= g.inbox
    requires KeyAt(u, v) == KeyAt(u, w)
    ensures PartOk(u, p) && p.Paired? && ItemOf(u, p) == Some(M.ToDispatch(M.InOrder(Bits(u, w), Bits(u, v))))
    ensures HeldOf(u, p) == Held(u, v) + Held(u, w)
  {
    hide Sound, Playing, EdgeOk, Held, Matching, KeyAt, Bits, InputOf;
    PartnersMeet(u, g, v, w);
    NeedsBoth(u, w);
    TwoHeld(u, v, w);
    TwoHeld(u, w, v);
    EdgeInputs(u, v);
    EdgeInputs(u, w);
    p := if w.edge.value.input == INPUT_ONE then Paired(w, v) else Paired(v, w);
  }

  lemma EdgeInputs(u: Setup, w: Wire)
    requires Sound(u) && Heads(u, w)
    ensures w.edge.value.input == INPUT_ONE || w.edge.value.input == INPUT_TWO
  {
    hide Sound, EdgeOk;
    SoundParts(u);
    PlacedEdge(u, w.edge.value);
  }

  lemma WaitsLess(u: Setup, b: multiset<Part>, c: multiset<Part>, v: Wire, waiting: M.Waiting)
    requires WaitsAre(u, b, waiting) && Waits(v) in b
    requires forall r: Part :: r.Waits? ==> c[r] == if r == Waits(v) then b[r] - 1 else b[r]
    ensures WaitsAre(u, c, waiting - {KeyAt(u, v)})
  {
    hide Bits, KeyAt;
    var after := waiting - {KeyAt(u, v)};
    forall k | k in after
      ensures exists r :: r in c && KeptAt(u, r, k)
    {
      var r :| r in b && KeptAt(u, r, k);
      assert r in c;
    }
    forall r | r in c && r.Waits?
      ensures r in b && KeyAt(u, r.w) in after
    {
      assert KeyAt(u, r.w) == KeyAt(u, v) ==> SameKey(u, r, Waits(v));
    }
  }

  // The partner in the waiting table.
  lemma Partner(u: Setup, s: M.State, q: seq<Part>, g: G.Game, key: M.Key) returns (v: Wire)
    requires Shows(u, s, q, g) && key in s.waiting
    ensures Waits(v) in multiset(q) && KeyAt(u, v) == key && s.waiting[key] == Bits(u, v) && Needy(u, v)
  {
    hide Flight, HeldBy, Playing, Bits, KeyAt, EdgeOk, Matching;
    var part :| part in multiset(q) && KeptAt(u, part, key);
    v := part.w;
    assert PartOk(u, part);
  }

  lemma Bags<A>(t: multiset<A>, a: multiset<A>, b: multiset<A>, c: multiset<A>)
    requires a <= t && c == t - a && b <= c
    ensures b + a <= t && c - b + (b + a) == t
  {
  }

  lemma NoBag<A>(t: multiset<A>, b: multiset<A>)
    requires b == multiset{}
    ensures t - b == t
  {
  }

  lemma Away(u: Setup, q: seq<Part>, k: nat) returns (r: seq<Part>)
    requires k < |q|
    ensures multiset(r) == multiset(q) - multiset{q[k]}
    ensures HeldOf(u, q[k]) <= HeldBy(u, q) && HeldBy(u, r) == HeldBy(u, q) - HeldOf(u, q[k])
    ensures Flight(u, r) == Flight(u, q) - M.Only(ItemOf(u, q[k]))
    ensures Weights(u, r) + Weight(u, q[k]) == Weights(u, q)
  {
    hide Flight, HeldBy, HeldOf, ItemOf, M.Only, Weights, Weight;
    r := Replace(u, q, k, []);
    EmptyPart(u);
  }

  lemma More(u: Setup, q: seq<Part>, p: Part)
    ensures multiset(q + [p]) == multiset(q) + multiset{p}
    ensures HeldBy(u, q + [p]) == HeldBy(u, q) + HeldOf(u, p)
    ensures Flight(u, q + [p]) == Flight(u, q) + M.Only(ItemOf(u, p))
    ensures Weights(u, q + [p]) == Weights(u, q) + Weight(u, p)
  {
    hide Flight, HeldBy, HeldOf, ItemOf, M.Only, Weights, Weight;
    Join(u, q, [p]);
    OnePart(u, p);
  }

  // Both partners leave the sequence.
  lemma BothAway(u: Setup, q: seq<Part>, k: nat, w: Wire, v: Wire) returns (r: seq<Part>)
    requires k < |q| && q[k] == AtMatch(w) && Waits(v) in multiset(q)
    ensures multiset(r) == multiset(q) - multiset{AtMatch(w)} - multiset{Waits(v)}
    ensures Held(u, v) + Held(u, w) <= HeldBy(u, q) && HeldBy(u, r) + (Held(u, v) + Held(u, w)) == HeldBy(u, q)
    ensures Flight(u, r) == Flight(u, q) - multiset{M.ToMatch(Bits(u, w))}
    ensures Weights(u, r) + Weight(u, AtMatch(w)) <= Weights(u, q)
  {
    hide Flight, HeldBy, HeldOf, Held, Bits, ItemOf, M.Only, Weights, Weight;
    var q1 := Away(u, q, k);
    var j := FindPart(q1, Waits(v));
    r := Away(u, q1, j);
    OneWire(u, w);
    OneWire(u, v);
    WireItems(u, w, v);
    NoBag(Flight(u, q1), M.Only(ItemOf(u, q1[j])));
    Bags(HeldBy(u, q), Held(u, w), Held(u, v), HeldBy(u, q1));
  }

  lemma BothHeld(u: Setup, q: seq<Part>, k: nat, w: Wire, v: Wire)
    requires k < |q| && q[k] == AtMatch(w) && Waits(v) in multiset(q)
    ensures Held(u, v) + Held(u, w) <= HeldBy(u, q)
  {
    hide Flight, HeldBy, Held, Bits, Weights, Weight;
    var r := BothAway(u, q, k, w, v);
  }

  // ... and the pair comes in.
  lemma SwapPair(u: Setup, q: seq<Part>, k: nat, w: Wire, v: Wire, p: Part) returns (r: seq<Part>)
    requires k < |q| && q[k] == AtMatch(w) && Waits(v) in multiset(q) && HeldOf(u, p) == Held(u, v) + Held(u, w)
    ensures HeldBy(u, r) == HeldBy(u, q)
    ensures multiset(r) == multiset(q) - multiset{AtMatch(w)} - multiset{Waits(v)} + multiset{p}
    ensures Flight(u, r) == Flight(u, q) - multiset{M.ToMatch(Bits(u, w))} + M.Only(ItemOf(u, p))
    ensures Weights(u, r) + Weight(u, AtMatch(w)) <= Weights(u, q) + Weight(u, p)
  {
    hide Flight, HeldBy, HeldOf, Held, Bits, ItemOf, M.Only, Weights, Weight;
    var rest := BothAway(u, q, k, w, v);
    More(u, rest, p);
    r := rest + [p];
  }

  lemma WireItems(u: Setup, w: Wire, v: Wire)
    ensures M.Only(ItemOf(u, AtMatch(w))) == multiset{M.ToMatch(Bits(u, w))} && M.Only(ItemOf(u, Waits(v))) == multiset{}
  {
    hide Bits;
  }

  lemma EmptyPart(u: Setup)
    ensures Flight(u, []) == multiset{} && HeldBy(u, []) == multiset{} && Weights(u, []) == 0
  {
  }

  lemma MatchMeets(u: Setup, s: M.State, q: seq<Part>, g: G.Game, k: nat, w: Wire) returns (r: seq<Part>)
    requires Sound(u) && Shows(u, s, q, g) && k < |q| && q[k] == AtMatch(w) && Needy(u, w) && KeyAt(u, w) in s.waiting
    ensures Shows(u, M.State(s.flight - multiset{M.ToMatch(Bits(u, w))}
                               + multiset{M.ToDispatch(M.InOrder(Bits(u, w), s.waiting[KeyAt(u, w)]))}, s.waiting - {KeyAt(u, w)}), r, g)
    ensures Weights(u, r) < Weights(u, q)
  {
    hide Weights, WayOf, Sound, Flight, HeldBy, HeldOf, Held, ItemOf, Playing, Bits, KeyAt, M.InOrder, WaitsAre, PrintsAre, PartOk, Needy;
    var v, p := PartnerPair(u, s, q, g, k, w);
    r := SwapPair(u, q, k, w, v, p);
    var b, c := multiset(q), multiset(r);
    PairCounts(b, c, w, v, p);
    WaitsLess(u, b, c, v, s.waiting);
    PrintsSame(u.P, b, c, g);
    PartsStay(u, q, r, multiset{p});
    assert M.Only(ItemOf(u, p)) == multiset{M.ToDispatch(M.InOrder(Bits(u, w), s.waiting[KeyAt(u, w)]))};
  }

  // What the exchange does to the waiting and the printed parts
  lemma PairCounts(b: multiset<Part>, c: multiset<Part>, w: Wire, v: Wire, p: Part)
    requires c == b - multiset{AtMatch(w)} - multiset{Waits(v)} + multiset{p} && p.Paired? && Waits(v) in b
    ensures forall r: Part :: r.Waits? ==> c[r] == if r == Waits(v) then b[r] - 1 else b[r]
    ensures forall f :: b[Printed(f)] == c[Printed(f)]
    ensures c <= b + multiset{p}
  {
  }

  // The waiting partner, and the pair the two make.
  lemma PartnerPair(u: Setup, s: M.State, q: seq<Part>, g: G.Game, k: nat, w: Wire) returns (v: Wire, p: Part)
    requires Sound(u) && Shows(u, s, q, g) && k < |q| && q[k] == AtMatch(w) && Needy(u, w) && KeyAt(u, w) in s.waiting
    ensures Waits(v) in multiset(q) && KeyAt(u, v) == KeyAt(u, w)
    ensures PartOk(u, p) && p.Paired? && HeldOf(u, p) == Held(u, v) + Held(u, w)
    ensures ItemOf(u, p) == Some(M.ToDispatch(M.InOrder(Bits(u, w), s.waiting[KeyAt(u, w)])))
  {
    hide Weights, Weight, Sound, Flight, HeldBy, HeldOf, Held, ItemOf, Playing, Bits, KeyAt, M.InOrder, WaitsAre, PrintsAre, PartOk, Needy;
    v := Partner(u, s, q, g, KeyAt(u, w));
    BothHeld(u, q, k, w, v);
    p := PairOk(u, g, v, w);
  }

  lemma FindPart(q: seq<Part>, p: Part) returns (j: nat)
    requires p in multiset(q)
    ensures j < |q| && q[j] == p
  {
    assert p in q;
    j :| j < |q| && q[j] == p;
  }

  lemma OneWire(u: Setup, w: Wire)
    ensures HeldOf(u, AtMatch(w)) == Held(u, w) == HeldOf(u, Waits(w))
  {
    hide Held;
    OneHeld(u, w);
  }
}
