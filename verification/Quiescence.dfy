// When the machine has nothing more to do, neither has the game; and what has been printed.
module Quiescence {
  import opened Words
  import T = Tass
  import G = TokenGame
  import opened Types
  import opened Numbers
  import M = Machine
  import opened IrGraph
  import opened Placement
  import opened Assembled
  import opened Rendering
  import opened Circuit
  import opened Compiled
  import opened Wires
  import opened Firing
  import opened Execution
  import opened Following

  // ---- Nothing left to fire ----

  ghost predicate Silent(P: seq<T.Line>, g: G.Game) {
    forall f :: !G.Enabled(P, g, f)
  }

  // Whatever is held is held by some part.
  lemma {:induction false} Holder(u: Setup, q: seq<Part>, a: G.Arrival) returns (k: nat)
    requires a in HeldBy(u, q)
    ensures k < |q| && a in HeldOf(u, q[k])
  {
    hide HeldOf;
    if a in HeldOf(u, q[0]) {
      k := 0;
    } else {
      k := Holder(u, q[1..], a);
      k := k + 1;
    }
  }

  // In a quiet state only waiting tokens are held.
  lemma QuietHolder(u: Setup, s: M.State, q: seq<Part>, g: G.Game, a: G.Arrival) returns (w: Wire)
    requires Sound(u) && Shows(u, s, q, g) && M.Quiet(s) && a in g.inbox
    ensures Waits(w) in multiset(q) && Needy(u, w) && Held(u, w) == multiset{a} && a.Arrival? && a.line < |u.P|
    ensures w.edge.Some? && w.edge.value == Slot(u.P, a.line, a.port) && a.token.tag == w.tag && a.port < |G.Ports(u.P[a.line])|
  {
    hide Sound, Flight, HeldBy, HeldOf, Held, WaitsAre, PrintsAre, Playing, PartOk, Bits, Slot, G.Ports, Needy;
    var k := Holder(u, q, a);
    QuietPart(u, s, q, g, k);
    PrintedHolds(u, q[k]);
    w := q[k].w;
    OneWire(u, w);
    assert q[k] in multiset(q);
    var r := Away(u, q, k);
    WaitsNeedy(u, q, k);
    var b := AtSlot(u, g, w);
    assert w.edge.Some? by { NeedyEdge(u, w); }
  }

  lemma NeedyEdge(u: Setup, w: Wire)
    requires Needy(u, w)
    ensures w.edge.Some?
  {
  }

  lemma WaitsNeedy(u: Setup, q: seq<Part>, k: nat)
    requires k < |q| && q[k].Waits? && forall p :: p in q ==> PartOk(u, p)
    ensures Needy(u, q[k].w)
  {
    hide Matching, EdgeOk;
    assert PartOk(u, q[k]);
  }

  lemma PrintedHolds(u: Setup, p: Part)
    ensures p.Printed? ==> HeldOf(u, p) == multiset{}
  {
  }

  lemma QuietPart(u: Setup, s: M.State, q: seq<Part>, g: G.Game, k: nat)
    requires Shows(u, s, q, g) && M.Quiet(s) && k < |q|
    ensures q[k].Waits? || q[k].Printed?
  {
    hide Weights, Weight, Flight, HeldBy, HeldOf, WaitsAre, PrintsAre, Playing, PartOk, Bits;
    var r := Replace(u, q, k, []);
    if !q[k].Waits? { assert ItemOf(u, q[k]).value in M.Only(ItemOf(u, q[k])); }
  }

  // A line with a waiting token needs two.
  lemma NeedyTakesTwo(u: Setup, w: Wire, i: nat, port: nat)
    requires Sound(u) && Needy(u, w) && i < |u.P| && port < |G.Ports(u.P[i])| && w.edge.value == Slot(u.P, i, port)
    ensures u.P[i].Binary? || u.P[i].Branch? || u.P[i].CopyTag?
  {
    hide Complete, Tidy, EdgesEndAtSlots, OutputsFeed, Regular, SecondsMarked, EdgeOk;
    SlotNode(u.P, i, port);
    LineIs(u, i);
    TwoKinds(u.P[i], u.c.nodes[w.edge.value.node]);
  }

  lemma TwoKinds(l: T.Line, n: Node)
    requires n.op == NodeOpOf(l) && n.in1 == LiteralArg(l) && n.op.Op? && Matching(n) == MATCHING_BOTH && |G.Ports(l)| > 0
    ensures l.Binary? || l.Branch? || l.CopyTag?
  {
    MatchingValues();
  }

  // Two waiting tokens at two inputs of one line have different tags.
  lemma WaitersApart(u: Setup, s: M.State, q: seq<Part>, g: G.Game, v: Wire, w: Wire)
    requires Sound(u) && Shows(u, s, q, g) && Waits(v) in multiset(q) && Waits(w) in multiset(q) && Needy(u, v) && Needy(u, w)
    requires v.edge.value.node == w.edge.value.node && v.tag == w.tag
    ensures v == w
  {
    hide Sound, Flight, HeldBy, PrintsAre, Playing, PartOk, EdgeOk, Matching, Number, Address, Word;
    SameNodeSameKey(u, v, w);
    assert SameKey(u, Waits(v), Waits(w));
  }

  lemma SameNodeSameKey(u: Setup, v: Wire, w: Wire)
    requires Sound(u) && Needy(u, v) && Needy(u, w) && v.edge.value.node == w.edge.value.node && v.tag == w.tag
    ensures KeyAt(u, v) == KeyAt(u, w)
  {
    hide Sound, EdgeOk, Matching, Number, Address, Word, EdgeWordOf;
    SoundParts(u);
    HeadsPlaced(u, v);
    HeadsPlaced(u, w);
  }

  lemma QuietIsSilent(u: Setup, s: M.State, q: seq<Part>, g: G.Game)
    requires Sound(u) && Shows(u, s, q, g) && M.Quiet(s)
    ensures Silent(u.P, g)
  {
    hide Sound, Shows, M.Quiet;
    forall f | G.Enabled(u.P, g, f)
      ensures false
    {
      NotEnabled(u, s, q, g, f);
    }
  }

  lemma NotEnabled(u: Setup, s: M.State, q: seq<Part>, g: G.Game, f: G.Firing)
    requires Sound(u) && Shows(u, s, q, g) && M.Quiet(s)
    ensures !G.Enabled(u.P, g, f)
  {
    hide Sound, Shows, M.Quiet, Held, Needy, Slot;
    if G.Enabled(u.P, g, f) {
      var a := FirstConsumed(u.P[f.line], f);
      var v := QuietHolder(u, s, q, g, a);
      NeedyTakesTwo(u, v, a.line, a.port);
      var b := G.Arrival(f.line, 1, f.ins.y);
      assert b in G.Consumed(u.P[f.line], f);
      var w := QuietHolder(u, s, q, g, b);
      SlotNode(u.P, a.line, a.port);
      SlotNode(u.P, b.line, b.port);
      WaitersApart(u, s, q, g, v, w);
      SameSingle(a, b);
    }
  }

  lemma SameSingle<A>(a: A, b: A)
    requires multiset{a} == multiset{b}
    ensures a == b
  {
    assert a in multiset{b};
  }

  lemma FirstConsumed(l: T.Line, f: G.Firing) returns (a: G.Arrival)
    requires T.Matched(l, f.ins)
    ensures a in G.Consumed(l, f) && (a.Arrival? ==> a.line == f.line && (f.ins.Two? ==> a == G.Arrival(f.line, 0, f.ins.x)))
    ensures l.Binary? || l.Branch? || l.CopyTag? ==> f.ins.Two? && f.ins.x.tag == f.ins.y.tag
  {
    a := match f.ins
      case Nothing => G.Ready(f.line)
      case One(x) => G.Arrival(f.line, if l.Merge? && x.name != l.a then 1 else 0, x)
      case Two(x, _) => G.Arrival(f.line, 0, x);
  }

  // ---- What has been printed ----

  function PrintsOf(q: seq<Part>): seq<Part> {
    if q == [] then [] else (if q[0].Printed? then [q[0]] else []) + PrintsOf(q[1..])
  }

  lemma {:induction false} PrintsCount(q: seq<Part>, p: Part)
    ensures multiset(PrintsOf(q))[p] == if p.Printed? then multiset(q)[p] else 0
  {
    if q != [] {
      PrintsCount(q[1..], p);
      assert q == [q[0]] + q[1..];
      assert multiset(q)[p] == multiset([q[0]])[p] + multiset(q[1..])[p];
    }
  }

  predicate IsPrinted(i: M.Item) { i.PrintedNumber? || i.PrintedText? }

  lemma PrintedItem(u: Setup, p: Part, i: M.Item)
    requires IsPrinted(i) && !p.Printed?
    ensures M.Only(ItemOf(u, p))[i] == 0
  {
    hide Bits;
  }

  // The printed items are those of the printed parts.
  lemma {:induction false} PrintedItems(u: Setup, q: seq<Part>, i: M.Item)
    requires IsPrinted(i)
    ensures Flight(u, q)[i] == Flight(u, PrintsOf(q))[i]
  {
    hide Flight, ItemOf, M.Only;
    if q != [] {
      PrintedItems(u, q[1..], i);
      HeadItems(u, q);
      var r := PrintsOf(q);
      if q[0].Printed? {
        assert r[0] == q[0] && r[1..] == PrintsOf(q[1..]);
        HeadItems(u, r);
      } else {
        assert r == PrintsOf(q[1..]);
        PrintedItem(u, q[0], i);
      }
    }
  }

  lemma Sums<A>(a: multiset<A>, x: multiset<A>, y: multiset<A>, r: multiset<A>)
    requires a <= y && r == y - a && x <= r
    ensures a + x <= y
  {
  }

  // Fewer parts, fewer items.
  lemma {:induction false} FewerItems(u: Setup, a: seq<Part>, b: seq<Part>)
    requires multiset(a) <= multiset(b)
    ensures Flight(u, a) <= Flight(u, b)
    decreases |a|
  {
    hide Flight, HeldBy, HeldOf, ItemOf, M.Only;
    if a == [] {
      EmptyPart(u);
    } else {
      assert a == [a[0]] + a[1..];
      assert a[0] in multiset(b);
      var k := FindPart(b, a[0]);
      var r := Replace(u, b, k, []);
      EmptyPart(u);
      FewerItems(u, a[1..], r);
      HeadItems(u, a);
      Sums(M.Only(ItemOf(u, a[0])), Flight(u, a[1..]), Flight(u, b), Flight(u, r));
    }
  }
}
