// Tokens on the edges of an assembled program, with symbolic tags and words: where they will arrive,
// and the bits they are made of.
module Wires {
  import opened Words
  import T = Tass
  import G = TokenGame
  import opened Types
  import opened Numbers
  import M = Machine
  import E = Encoding
  import opened IrGraph
  import opened Optimize
  import opened Placement
  import opened Assembled
  import opened Rendering
  import opened Circuit
  import opened Typing
  import opened Compiled

  // A program, its circuit, and the areas NTG draws.
  datatype Setup = Setup(P: seq<T.Line>, c: Circuit, areas: (Destination, TagBits) -> bv32)
  {
    function Layout(): E.Layout { E.Layout((n: T.Name) => SiteOf(P, c, |P|, n), areas) }

    function Machine(): M.Machine { M.Machine(c.Program(), areas) }
  }

  // The address word of the NTG instruction that draws activation n.
  function SiteOf(P: seq<T.Line>, c: Circuit, k: nat, n: T.Name): Destination
    requires k <= |P|
  {
    if k == 0 then 0
    else if P[k - 1].NewTag? && P[k - 1].newTag == n && Main(P, k - 1) in c.idx then
      CreateDestination(Word(c.idx[Main(P, k - 1)]), 0, 0)
    else SiteOf(P, c, k - 1, n)
  }

  lemma {:induction false} SiteIs(P: seq<T.Line>, c: Circuit, k: nat, i: nat)
    requires T.SingleDefs(P) && i < k <= |P| && P[i].NewTag? && Main(P, i) in c.idx
    ensures SiteOf(P, c, k, P[i].newTag) == CreateDestination(Word(c.idx[Main(P, i)]), 0, 0)
  {
    hide CreateDestination, Word;
    if i < k - 1 {
      assert P[i].newTag in T.Outs(P[i]);
      assert P[i].newTag !in T.Outs(P[k - 1]);
      SiteIs(P, c, k - 1, i);
    }
  }

  // The iteration count can still be increased.
  ghost predicate CountOk(a: T.Token) { E.CountBits(a.tag.iter) != 0xFFFF_FFFF }

  // Different tags of the tokens of S have different bits.
  ghost predicate TagsApart(u: Setup, S: iset<T.Token>) {
    forall a, b :: a in S && b in S && u.Layout().TagBits(a.tag) == u.Layout().TagBits(b.tag) ==> a.tag == b.tag
  }

  // ... and no iteration count of theirs wraps.
  ghost predicate Fresh(u: Setup, S: iset<T.Token>) {
    TagsApart(u, S) && forall a :: a in S ==> CountOk(a)
  }

  // That is so of the tokens sent in the first k firings, whichever they are.
  ghost predicate FreshFor(u: Setup, k: nat) {
    forall gs: seq<G.Game> :: G.Path(u.P, gs) && |gs[|gs| - 1].done| <= k ==> Fresh(u, G.Sent(gs[|gs| - 1]))
  }

  // Whatever the game does next, the tokens sent stay apart.
  ghost predicate FreshAfter(u: Setup, g: G.Game) {
    forall h :: G.Next(u.P, g, h) ==> Fresh(u, G.Sent(h))
  }

  lemma NextCounts(P: seq<T.Line>, g: G.Game, h: G.Game)
    requires G.Next(P, g, h)
    ensures |g.done| <= |h.done| <= |g.done| + 1
  {
    hide G.Enabled, G.Consumed, G.Deliveries, T.Emit;
  }

  lemma FreshNext(u: Setup, gs: seq<G.Game>, k: nat)
    requires G.Path(u.P, gs) && |gs[|gs| - 1].done| < k && FreshFor(u, k)
    ensures FreshAfter(u, gs[|gs| - 1])
  {
    hide G.Path, G.Next, Fresh;
    G.PathEnds(u.P, gs);
    forall h | G.Next(u.P, gs[|gs| - 1], h)
      ensures Fresh(u, G.Sent(h))
    {
      NextCounts(u.P, gs[|gs| - 1], h);
      G.PathMore(u.P, gs, h);
      var hs := gs + [h];
      assert hs[|hs| - 1] == h;
    }
  }

  // The tokens whose counts can still be increased.
  ghost function Known(P: seq<T.Line>): iset<T.Token> {
    iset tok | tok in Tokens(P) && CountOk(tok)
  }

  // No merge reads the same name twice.
  predicate MergesDiffer(P: seq<T.Line>) {
    forall i :: 0 <= i < |P| && P[i].Merge? ==> P[i].a != P[i].b
  }

  ghost predicate IsTyped(P: seq<T.Line>) {
    exists K: set<T.Name> :: Typed(P, K)
  }

  ghost predicate Sound(u: Setup) {
    && T.SingleDefs(u.P) && Regular(u.P) && IsTyped(u.P) && MergesDiffer(u.P)
    && Implements(u.P, u.c) && SecondsMarked(u.c)
  }

  // ---- Tokens on edges ----

  // Without an edge the token goes to /dev/null.
  datatype Wire = Wire(edge: Option<Dest>, tag: T.Tag, word: T.Word)

  ghost predicate EdgeOk(c: Circuit, e: Dest) {
    exists k :: 0 <= k < |c.order| && EdgeOf(c.nodes, c.order, k, e)
  }

  ghost predicate WireOk(c: Circuit, w: Wire) {
    w.edge.Some? ==> EdgeOk(c, w.edge.value)
  }

  function EdgeWordOf(c: Circuit, e: Option<Dest>): Destination {
    if e.Some? && IsPlaced(c.nodes, c.idx, e.value.node) then TargetWord(c.nodes, c.idx, e.value) else DEV_NULL
  }

  function Bits(u: Setup, w: Wire): Types.Token {
    Token(EdgeWordOf(u.c, w.edge), u.Layout().WordBits(w.word), u.Layout().TagBits(w.tag))
  }

  // ---- Where a token will arrive ----

  // The line of a node, looking from the k-th line back.
  function LineAt(P: seq<T.Line>, k: nat, n: nat): nat
    requires k <= |P|
  {
    if k == 0 then 0 else if Main(P, k - 1) == n then k - 1 else LineAt(P, k - 1, n)
  }

  lemma {:induction false} LineAtIs(P: seq<T.Line>, k: nat, i: nat)
    requires i < k <= |P|
    ensures LineAt(P, k, Main(P, i)) == i
  {
    hide Main;
    if Main(P, k - 1) == Main(P, i) { MainsDiffer(P, k - 1, i); } else { LineAtIs(P, k - 1, i); }
  }

  function PortOf(d: Dest): nat { if d.input == INPUT_ONE then 0 else 1 }

  // The arrival of a token at a slot.
  function ArrivalAt(P: seq<T.Line>, d: Dest, tag: T.Tag, word: T.Word): G.Arrival {
    var i, port := LineAt(P, |P|, d.node), PortOf(d);
    G.Arrival(i, port, T.Token(if i < |P| && port < |G.Ports(P[i])| then G.Ports(P[i])[port] else T.Name("", 0), tag, word))
  }

  lemma ArrivalAtSlot(P: seq<T.Line>, i: nat, port: nat, tag: T.Tag, word: T.Word)
    requires i < |P| && port < |G.Ports(P[i])|
    ensures ArrivalAt(P, Slot(P, i, port), tag, word) == G.Arrival(i, port, T.Token(G.Ports(P[i])[port], tag, word))
  {
    LineAtIs(P, |P|, i);
    InputsDiffer();
  }

  lemma InputsDiffer()
    ensures INPUT_ONE != INPUT_TWO
  {
  }

  function Arrivals(P: seq<T.Line>, ds: seq<Dest>, tag: T.Tag, word: T.Word): (r: seq<G.Arrival>)
    ensures |r| == |ds|
  {
    seq(|ds|, k requires 0 <= k < |ds| => ArrivalAt(P, ds[k], tag, word))
  }

  lemma ArrivalsAppend(P: seq<T.Line>, a: seq<Dest>, b: seq<Dest>, tag: T.Tag, word: T.Word)
    ensures Arrivals(P, a + b, tag, word) == Arrivals(P, a, tag, word) + Arrivals(P, b, tag, word)
  {
    hide ArrivalAt;
  }

  // What the token on the wire is good for.
  function Held(u: Setup, w: Wire): multiset<G.Arrival> {
    if w.edge.None? then multiset{} else multiset(Arrivals(u.P, Leaves(u.c.nodes, w.edge.value), w.tag, w.word))
  }

  // A sequence without repetition and a set of the same elements.
  lemma {:induction false} SameBag<A>(q: seq<A>, s: set<A>)
    requires (forall i, j :: 0 <= i < j < |q| ==> q[i] != q[j]) && forall a :: a in q <==> a in s
    ensures multiset(q) == multiset(s)
    decreases |q|
  {
    if q == [] {
      assert s == {};
    } else {
      var rest, head := q[1..], q[0];
      forall i | 0 <= i < |rest| ensures rest[i] != head { assert rest[i] == q[i + 1]; }
      forall a ensures a in rest <==> a in s - {head} { assert a in q <==> a == head || a in rest; }
      SameBag(rest, s - {head});
      assert q == [head] + rest && multiset(s) == multiset{head} + multiset(s - {head});
    }
  }

  // An output that feeds a name delivers its token to every slot that reads the name.
  lemma FeedDelivers(P: seq<T.Line>, ds: seq<Dest>, n: T.Name, tag: T.Tag, word: T.Word)
    requires FeedsName(P, ds, Some(n))
    ensures multiset(Arrivals(P, ds, tag, word)) == multiset(G.Deliveries(P, {T.Token(n, tag, word)}))
  {
    hide G.Ports, ArrivalAt, Slot;
    var q, out := Arrivals(P, ds, tag, word), {T.Token(n, tag, word)};
    forall k: nat | k < |ds|
      ensures exists i: nat, port: nat :: G.Reads(P, i, port, n) && ds[k] == Slot(P, i, port) && q[k] == G.Arrival(i, port, T.Token(n, tag, word))
    {
      assert ds[k] in ds;
      var i: nat, port: nat :| G.Reads(P, i, port, n) && ds[k] == Slot(P, i, port);
      ArrivalAtSlot(P, i, port, tag, word);
    }
    forall a | a in G.Deliveries(P, out)
      ensures a in q
    {
      assert G.Reads(P, a.line, a.port, n);
      var d := Slot(P, a.line, a.port);
      assert ReadsAt(P, d, n);
      var k :| 0 <= k < |ds| && ds[k] == d;
      ArrivalAtSlot(P, a.line, a.port, tag, word);
      assert q[k] == a;
    }
    SameBag(q, G.Deliveries(P, out));
  }

  // ---- Different tokens have different bits ----

  lemma PlacedEdge(u: Setup, e: Dest)
    requires Implements(u.P, u.c) && EdgeOk(u.c, e)
    ensures IsPlaced(u.c.nodes, u.c.idx, e.node) && EdgeWordOf(u.c, Some(e)) == TargetWord(u.c.nodes, u.c.idx, e)
    ensures IsEdge(u.c.nodes, e) && e.node < |u.c.nodes| && IsInput(e.input)
    ensures u.c.nodes[e.node].op.Op? ==>
      var w := EdgeWordOf(u.c, Some(e));
      && Number(Address(w)) == u.c.idx[e.node] < |u.c.insts|
      && InputOf(w) == e.input && MatchingOf(w) == Matching(u.c.nodes[e.node])
      && !Reserved(Address(w)) && Address(w) == Word(u.c.idx[e.node])
  {
    hide Tidy, LineBuilt, IsMain, IsInput, TargetWord, Number, Word, Address, InputOf, MatchingOf, Matching, Reserved;
    var c := u.c;
    var k :| 0 <= k < |c.order| && EdgeOf(c.nodes, c.order, k, e);
    Decodes(c.nodes, c.labels, c.left, c.order, c.idx, c.insts, k, e);
    assert HasEdge(c.nodes[c.order[k]], e);
    EdgeInside(c.nodes, e);
    if c.nodes[e.node].op.Op? { WordOfNumber(Address(EdgeWordOf(c, Some(e)))); }
  }

  // An edge to a node that is no added DUP ends at a slot of its line.
  lemma SolidEdge(u: Setup, e: Dest) returns (i: nat, port: nat)
    requires Implements(u.P, u.c) && EdgeOk(u.c, e) && e.node < |u.c.nodes| && !IsDup(u.c.nodes[e.node])
    ensures i < |u.P| && port < |G.Ports(u.P[i])| && e == Slot(u.P, i, port)
    ensures Leaves(u.c.nodes, e) == [e]
    ensures LineBuilt(u.P, u.c, i)
  {
    hide Complete, Tidy, LineBuilt, IsMain, IsInput, G.Ports, Slot, IsDup;
    PlacedEdge(u, e);
    assert Solid(u.c.nodes, e);
    assert IsSlot(u.P, e);
    i, port :| i < |u.P| && port < |G.Ports(u.P[i])| && e == Slot(u.P, i, port);
  }

  lemma {:induction false} OneNode(c: Circuit, a: nat, b: nat)
    requires Indexed(c.nodes, c.order, c.idx) && a in c.idx && b in c.idx && c.idx[a] == c.idx[b]
    ensures a == b
  {
    assert c.order[c.idx[a]] == a && c.order[c.idx[b]] == b;
  }

  // Two tokens for the same slot with the same tag bits are on the same edge under the same tag.
  lemma SameBitsSameSlot(u: Setup, a: Wire, b: Wire)
    requires Sound(u) && WireOk(u.c, a) && WireOk(u.c, b) && a.edge.Some? && b.edge.Some?
    requires a.edge.value.node < |u.c.nodes| && b.edge.value.node < |u.c.nodes|
    requires u.c.nodes[a.edge.value.node].op.Op? && u.c.nodes[b.edge.value.node].op.Op?
    requires M.KeyOf(Bits(u, a)) == M.KeyOf(Bits(u, b))
    ensures a.edge.value.node == b.edge.value.node
    ensures InputOf(Bits(u, a).destination) == a.edge.value.input && InputOf(Bits(u, b).destination) == b.edge.value.input
    ensures u.Layout().TagBits(a.tag) == u.Layout().TagBits(b.tag)
  {
    hide Tidy, LineBuilt, IsMain, TargetWord, Number, Word, Address, InputOf, MatchingOf, Matching, Reserved, Regular, EdgeOk;
    PlacedEdge(u, a.edge.value);
    PlacedEdge(u, b.edge.value);
    OneNode(u.c, a.edge.value.node, b.edge.value.node);
  }
}
