// The machine running an assembled program follows the token game of its lines: what is in flight,
// waits or is being executed is what waits at the slots.
module Execution {
  import opened Words
  import T = Tass
  import G = TokenGame
  import opened Types
  import opened Numbers
  import M = Machine
  import E = Encoding
  import opened IrGraph
  import opened Optimize
  import opened Placement
  import opened Assembled
  import opened Rendering
  import opened Circuit
  import opened Typing
  import opened Compiled
  import opened Wires
  import opened Firing

  // Something in flight or waiting, in symbols: a packet with the tokens it will send, and what has
  // been printed with the firing that printed it.
  datatype Part =
    | OnSwitch(w: Wire)
    | AtMatch(w: Wire)
    | Waits(w: Wire)
    | Alone(w: Wire)
    | Paired(l: Wire, r: Wire)
    | InUnit(p: Packet, out: seq<Wire>)
    | Printed(f: G.Firing)

  function WiresOf(p: Part): seq<Wire> {
    match p
    case Paired(l, r) => [l, r]
    case InUnit(_, out) => out
    case Printed(_) => []
    case _ => [p.w]
  }

  function PrintData(u: Setup, f: G.Firing): Data {
    if f.ins.One? then u.Layout().WordBits(f.ins.x.word) else 0
  }

  // The item of the machine; a waiting token is in the waiting table.
  function ItemOf(u: Setup, p: Part): Option<M.Item> {
    match p
    case OnSwitch(w) => Some(M.ToSwitch(Bits(u, w)))
    case AtMatch(w) => Some(M.ToMatch(Bits(u, w)))
    case Waits(_) => None
    case Alone(w) => Some(M.ToDispatch(M.Single(Bits(u, w))))
    case Paired(l, r) => Some(M.ToDispatch(M.Both(Bits(u, l), Bits(u, r))))
    case InUnit(p, _) => Some(M.ToExecute(p))
    case Printed(f) => Some(M.PrintedNumber(PrintData(u, f)))
  }

  function HeldOf(u: Setup, p: Part): multiset<G.Arrival> { HeldAll(u, WiresOf(p)) }

  function Flight(u: Setup, q: seq<Part>): multiset<M.Item> {
    if q == [] then multiset{} else M.Only(ItemOf(u, q[0])) + Flight(u, q[1..])
  }

  function HeldBy(u: Setup, q: seq<Part>): multiset<G.Arrival> {
    if q == [] then multiset{} else HeldOf(u, q[0]) + HeldBy(u, q[1..])
  }

  // ---- How far the parts have to go ----

  // The steps that are left to a token on an edge, and to those added DUPs make of it, before they
  // fire a line, wait or are gone, are no more than that.
  function Way(nodes: seq<Node>, d: Dest): (n: nat)
    ensures n >= 4
    decreases |nodes| - d.node
  {
    if d.node < |nodes| && IsDup(nodes[d.node])
    then 4 + WayOn(nodes, d.node, nodes[d.node].d1) + WayOn(nodes, d.node, nodes[d.node].d2)
    else 4
  }

  function WayOn(nodes: seq<Node>, k: nat, e: Option<Dest>): (n: nat)
    requires k < |nodes|
    ensures n >= 4
    decreases |nodes| - k, 0
  {
    if e.Some? && k < e.value.node < |nodes| then Way(nodes, e.value) else 4
  }

  function WayOf(nodes: seq<Node>, w: Wire): (n: nat)
    ensures n >= 4
  {
    if w.edge.None? then 4 else Way(nodes, w.edge.value)
  }

  function Ways(nodes: seq<Node>, ws: seq<Wire>): nat {
    if ws == [] then 0 else WayOf(nodes, ws[0]) + Ways(nodes, ws[1..])
  }

  function Weight(u: Setup, p: Part): nat {
    match p
    case OnSwitch(w) => WayOf(u.c.nodes, w)
    case AtMatch(w) => WayOf(u.c.nodes, w) - 1
    case Alone(w) => WayOf(u.c.nodes, w) - 2
    case Paired(_, _) => 2
    case InUnit(_, out) => 1 + Ways(u.c.nodes, out)
    case _ => 0
  }

  function Weights(u: Setup, q: seq<Part>): nat {
    if q == [] then 0 else Weight(u, q[0]) + Weights(u, q[1..])
  }

  // What an added DUP makes of a token has less far to go than the token had.
  lemma DupNearer(u: Setup, w: Wire)
    requires Tidy(u.c.nodes) && w.edge.Some? && w.edge.value.node < |u.c.nodes| && IsDup(u.c.nodes[w.edge.value.node])
    ensures Ways(u.c.nodes, ToBoth(u.c.nodes[w.edge.value.node], w.tag, w.word)) + 4 <= WayOf(u.c.nodes, w)
  {
    var nodes, n := u.c.nodes, w.edge.value.node;
    assert Onward(nodes, n, nodes[n].d1) && Onward(nodes, n, nodes[n].d2);
    var out := ToBoth(nodes[n], w.tag, w.word);
    assert WayOf(nodes, w) == 4 + WayOn(nodes, n, nodes[n].d1) + WayOn(nodes, n, nodes[n].d2);
    assert WayOn(nodes, n, nodes[n].d1) == WayOf(nodes, out[0]);
    if |out| == 2 {
      assert WayOn(nodes, n, nodes[n].d2) == WayOf(nodes, out[1]);
      TwoWays(nodes, out[0], out[1]);
    } else {
      OneWay(nodes, out[0]);
    }
  }

  lemma OneWay(nodes: seq<Node>, a: Wire)
    ensures Ways(nodes, [a]) == WayOf(nodes, a)
  {
    hide WayOf;
    assert [a][1..] == [];
  }

  lemma TwoWays(nodes: seq<Node>, a: Wire, b: Wire)
    ensures Ways(nodes, [a, b]) == WayOf(nodes, a) + WayOf(nodes, b)
  {
    hide WayOf;
    assert [a, b][1..] == [b];
    OneWay(nodes, b);
  }

  lemma {:induction false} Join(u: Setup, q: seq<Part>, r: seq<Part>)
    ensures Flight(u, q + r) == Flight(u, q) + Flight(u, r)
    ensures HeldBy(u, q + r) == HeldBy(u, q) + HeldBy(u, r)
    ensures Weights(u, q + r) == Weights(u, q) + Weights(u, r)
    decreases |q|
  {
    hide ItemOf, HeldOf, Weight;
    if q == [] {
      assert q + r == r;
    } else {
      assert (q + r)[1..] == q[1..] + r;
      Join(u, q[1..], r);
    }
  }

  lemma OnePart(u: Setup, p: Part)
    ensures Flight(u, [p]) == M.Only(ItemOf(u, p)) && HeldBy(u, [p]) == HeldOf(u, p) && Weights(u, [p]) == Weight(u, p)
  {
    hide ItemOf, HeldOf, Weight;
    assert [p][1..] == [];
  }

  // One part gives way to others.
  lemma Replace(u: Setup, q: seq<Part>, k: nat, news: seq<Part>) returns (r: seq<Part>)
    requires k < |q|
    ensures multiset(r) == multiset(q) - multiset{q[k]} + multiset(news)
    ensures M.Only(ItemOf(u, q[k])) <= Flight(u, q) && HeldOf(u, q[k]) <= HeldBy(u, q)
    ensures Flight(u, r) == Flight(u, q) - M.Only(ItemOf(u, q[k])) + Flight(u, news)
    ensures HeldBy(u, r) == HeldBy(u, q) - HeldOf(u, q[k]) + HeldBy(u, news)
    ensures Weights(u, r) + Weight(u, q[k]) == Weights(u, q) + Weights(u, news)
  {
    hide ItemOf, HeldOf, Weight, Flight, HeldBy, Weights;
    var a, b := q[..k], q[k + 1..];
    assert q == a + ([q[k]] + b);
    Join(u, a, [q[k]] + b);
    Join(u, [q[k]], b);
    OnePart(u, q[k]);
    r := a + b + news;
    Join(u, a, b);
    Join(u, a + b, news);
  }

  lemma HeadItems(u: Setup, q: seq<Part>)
    requires q != []
    ensures Flight(u, q) == M.Only(ItemOf(u, q[0])) + Flight(u, q[1..])
  {
    hide ItemOf;
  }

  lemma {:induction false} InFlight(u: Setup, q: seq<Part>, i: M.Item) returns (k: nat)
    requires i in Flight(u, q)
    ensures k < |q| && ItemOf(u, q[k]) == Some(i)
  {
    hide ItemOf;
    if ItemOf(u, q[0]) == Some(i) {
      k := 0;
    } else {
      k := InFlight(u, q[1..], i);
      k := k + 1;
    }
  }

  // ---- When parts make sense ----

  ghost predicate PartOk(u: Setup, p: Part) {
    && WiresOk(u.c, WiresOf(p))
    && match p
       case AtMatch(w) => Heads(u, w)
       case Waits(w) => Heads(u, w) && Matching(u.c.nodes[w.edge.value.node]) == MATCHING_BOTH
       case Alone(w) => Heads(u, w) && Matching(u.c.nodes[w.edge.value.node]) != MATCHING_BOTH
       case Paired(l, r) =>
         && Heads(u, l) && Heads(u, r) && Matching(u.c.nodes[l.edge.value.node]) == MATCHING_BOTH
         && r.edge.value.node == l.edge.value.node && l.tag == r.tag
         && l.edge.value.input == INPUT_ONE && r.edge.value.input == INPUT_TWO
       case InUnit(p, out) => M.FunctionUnit(p, u.areas(p.input, p.tag)) == BitsAll(u, out)
       case Printed(f) => f.ins.One? && f.line < |u.P| && u.P[f.line].Output?
       case _ => true
  }

  ghost predicate HeldKnown(u: Setup, held: multiset<G.Arrival>) {
    forall a :: a in held ==> a.Arrival? && a.token in Known(u.P)
  }

  // A part has turned into others: either its tokens are held as before, or a line has fired.
  ghost predicate Turned(u: Setup, held: multiset<G.Arrival>, items: multiset<M.Item>, news: seq<Part>, f: Option<G.Firing>) {
    && Flight(u, news) == items && (forall p :: p in news ==> PartOk(u, p) && !p.Waits?)
    && (f.None? ==> HeldBy(u, news) == held && forall p :: p in news ==> !p.Printed?)
    && (f.Some? ==>
          && G.Fits(u.P, f.value) && held == multiset(G.Consumed(u.P[f.value.line], f.value))
          && HeldBy(u, news) == multiset(G.Deliveries(u.P, T.Emit(u.P[f.value.line], f.value.ins)))
          && if u.P[f.value.line].Output? then news == [Printed(f.value)] else forall p :: p in news ==> !p.Printed?)
  }

  // ---- One token at a slot ----

  // A token on an edge to a line's node, as the token of the game.
  lemma AtLine(u: Setup, w: Wire) returns (i: nat, port: nat, x: T.Token)
    requires Sound(u) && w.edge.Some? && EdgeOk(u.c, w.edge.value) && HeldKnown(u, Held(u, w))
    requires w.edge.value.node < |u.c.nodes| && !IsDup(u.c.nodes[w.edge.value.node])
    ensures i < |u.P| && port < |G.Ports(u.P[i])| && w.edge.value == Slot(u.P, i, port)
    ensures x == T.Token(G.Ports(u.P[i])[port], w.tag, w.word) && x in Known(u.P)
    ensures Held(u, w) == multiset{G.Arrival(i, port, x)}
    ensures u.c.nodes[w.edge.value.node].op == NodeOpOf(u.P[i]) && u.c.nodes[w.edge.value.node].in1 == LiteralArg(u.P[i])
  {
    hide Implements, SecondsMarked, Regular, Known, G.Ports, ArrivalAt, Slot, EdgeOk, NodeOpOf, LiteralArg, OutputsFeed, Leaves;
    i, port := SolidEdge(u, w.edge.value);
    x := T.Token(G.Ports(u.P[i])[port], w.tag, w.word);
    ArrivalAtSlot(u.P, i, port, w.tag, w.word);
    assert Arrivals(u.P, [w.edge.value], w.tag, w.word) == [G.Arrival(i, port, x)];
    assert G.Arrival(i, port, x) in Held(u, w);
    LineIs(u, i);
    SlotNode(u.P, i, port);
  }

  lemma SlotNode(P: seq<T.Line>, i: nat, port: nat)
    requires i < |P|
    ensures Slot(P, i, port).node == Main(P, i)
  {
  }

  // A line whose node takes one token fires on it.
  lemma OneInput(l: T.Line, n: Node, i: nat, port: nat, x: T.Token)
    requires n.op == NodeOpOf(l) && n.in1 == LiteralArg(l) && port < |G.Ports(l)| && x.name == G.Ports(l)[port]
    requires n.op.Op? ==> Matching(n) != MATCHING_BOTH
    requires l.Merge? ==> l.a != l.b
    ensures T.Matched(l, T.One(x)) && G.Consumed(l, G.Firing(i, T.One(x))) == {G.Arrival(i, port, x)}
  {
    MatchingValues();
  }

  lemma MatchingValues()
    ensures MATCHING_ONE != MATCHING_BOTH && MATCHING_ANY != MATCHING_BOTH && MATCHING_ONE != MATCHING_ANY
  {
  }

  // ---- The switch ----

  lemma SwitchTurn(u: Setup, w: Wire) returns (news: seq<Part>, f: Option<G.Firing>)
    requires Sound(u) && PartOk(u, OnSwitch(w)) && HeldKnown(u, Held(u, w))
    ensures Turned(u, Held(u, w), M.Only(M.Switch(Bits(u, w))), news, f)
    ensures f.None? ==> Weights(u, news) < Weight(u, OnSwitch(w))
  {
    hide Implements, SecondsMarked, Regular, EdgeOk, Held, HeldKnown, Bits, M.Switch, Turned, OUTPUTD, DEV_NULL, Way;
    assert WireOk(u.c, [w][0]);
    if w.edge.None? {
      news, f := [], None;
      NullTurn(u, w);
    } else {
      PlacedEdge(u, w.edge.value);
      if u.c.nodes[w.edge.value.node].op.Op? {
        news, f := [AtMatch(w)], None;
        OnePart(u, AtMatch(w));
        PassTurn(u, w);
      } else {
        news, f := PrintTurn(u, w);
      }
    }
  }

  lemma NullTurn(u: Setup, w: Wire)
    requires w.edge.None?
    ensures Turned(u, Held(u, w), M.Only(M.Switch(Bits(u, w))), [], None)
  {
    hide E.Layout.WordBits, E.Layout.TagBits;
    NullWord();
  }

  lemma NullWord()
    ensures DEV_NULL != Types.OUTPUTD && DEV_NULL != Types.OUTPUTS
  {
  }

  lemma PassTurn(u: Setup, w: Wire)
    requires Sound(u) && Heads(u, w)
    ensures Turned(u, Held(u, w), M.Only(M.Switch(Bits(u, w))), [AtMatch(w)], None)
  {
    hide Sound, EdgeOk, Held, Bits;
    HeadsPlaced(u, w) by { SoundParts(u); }
    NotAnOutput(Bits(u, w).destination);
    OnePart(u, AtMatch(w));
    OneHeld(u, w);
  }

  lemma SoundParts(u: Setup)
    requires Sound(u)
    ensures Implements(u.P, u.c) && SecondsMarked(u.c) && Regular(u.P)
  {
  }

  lemma PrintTurn(u: Setup, w: Wire) returns (news: seq<Part>, f: Option<G.Firing>)
    requires Sound(u) && w.edge.Some? && EdgeOk(u.c, w.edge.value) && HeldKnown(u, Held(u, w))
    requires w.edge.value.node < |u.c.nodes| && !u.c.nodes[w.edge.value.node].op.Op?
    ensures Turned(u, Held(u, w), M.Only(M.Switch(Bits(u, w))), news, f) && f.Some?
  {
    hide Sound, EdgeOk, Held, HeldKnown, Slot, Known, Turned, G.Ports, G.Consumed, T.Matched, M.Switch;
    hide E.Layout.WordBits, E.Layout.TagBits, E.OpcodeOf, LiteralArg;
    SoundParts(u);
    PlacedEdge(u, w.edge.value);
    var i, port, x := AtLine(u, w);
    MergeReadsTwo(u, i);
    OneInput(u.P[i], u.c.nodes[w.edge.value.node], i, port, x);
    var g := G.Firing(i, T.One(x));
    news, f := [Printed(g)], Some(g);
    LinePrinted(u, Held(u, w), g);
    OutputPrints(u.c.nodes, u.c.idx, w.edge.value, Bits(u, w));
  }

  // A print line that fires.
  lemma LinePrinted(u: Setup, held: multiset<G.Arrival>, f: G.Firing)
    requires f.line < |u.P| && u.P[f.line].Output? && T.Matched(u.P[f.line], f.ins)
    requires held == multiset(G.Consumed(u.P[f.line], f))
    ensures Turned(u, held, multiset{M.PrintedNumber(PrintData(u, f))}, [Printed(f)], Some(f))
  {
    hide G.Deliveries, G.Consumed, PrintData;
    OnePart(u, Printed(f));
    NothingDelivered(u.P);
  }

  lemma NothingDelivered(P: seq<T.Line>)
    ensures multiset(G.Deliveries(P, {})) == multiset{}
  {
  }

  // ---- The instruction store ----

  function Packed(u: Setup, w: Wire, stale: Types.Token): Option<Packet> {
    M.Dispatch(u.c.Program(), M.Single(Bits(u, w)), stale)
  }

  lemma DispatchAlone(u: Setup, w: Wire, stale: Types.Token) returns (news: seq<Part>, f: Option<G.Firing>)
    requires Sound(u) && PartOk(u, Alone(w)) && HeldKnown(u, Held(u, w))
    ensures Packed(u, w, stale).Some? && Turned(u, Held(u, w), multiset{M.ToExecute(Packed(u, w, stale).value)}, news, f)
    ensures f.None? ==> Weights(u, news) < Weight(u, Alone(w))
  {
    hide Sound, EdgeOk, Held, HeldKnown, Packed, Turned, Matching, Weights, Weight;
    if IsDup(u.c.nodes[w.edge.value.node]) {
      news := DispatchDup(u, w, stale);
      f := None;
    } else {
      news, f := DispatchLine(u, w, stale);
    }
  }

  lemma DispatchDup(u: Setup, w: Wire, stale: Types.Token) returns (news: seq<Part>)
    requires Sound(u) && PartOk(u, Alone(w)) && IsDup(u.c.nodes[w.edge.value.node])
    ensures Packed(u, w, stale).Some? && Turned(u, Held(u, w), multiset{M.ToExecute(Packed(u, w, stale).value)}, news, None)
    ensures Weights(u, news) < Weight(u, Alone(w))
  {
    hide Weights, Ways, WayOf, Sound, EdgeOk, Held, Bits, PacketAt, M.Dispatch, M.FunctionUnit, HeldAll, BitsAll, Matching, ToBoth, WiresOk, Turned, E.Layout.WordBits, E.Layout.TagBits, Flight, HeldBy;
    DispatchSingle(u, w, stale) by { SoundParts(u); }
    PassOn(u, w) by { SoundParts(u); }
    var p, out := Packed(u, w, stale).value, ToBoth(u.c.nodes[w.edge.value.node], w.tag, w.word);
    news := [InUnit(p, out)];
    Passes(u, p, out);
    OnePart(u, InUnit(p, out));
    DupNearer(u, w) by { SoundParts(u); }
  }

  lemma DispatchLine(u: Setup, w: Wire, stale: Types.Token) returns (news: seq<Part>, f: Option<G.Firing>)
    requires Sound(u) && PartOk(u, Alone(w)) && HeldKnown(u, Held(u, w)) && !IsDup(u.c.nodes[w.edge.value.node])
    ensures Packed(u, w, stale).Some? && Turned(u, Held(u, w), multiset{M.ToExecute(Packed(u, w, stale).value)}, news, f) && f.Some?
  {
    hide Sound, EdgeOk, Held, HeldKnown, Bits, PacketAt, M.Dispatch, M.FunctionUnit, FiringPacket, Slot, Known, HeldAll, G.Ports, G.Consumed, G.Deliveries, T.Emit, T.Matched;
    hide E.Layout.WordBits, E.Layout.TagBits, NodeOpOf, LiteralArg, Matching, BitsAll, Turned;
    SoundParts(u);
    DispatchSingle(u, w, stale);
    var n := w.edge.value.node;
    var i, port, x := AtLine(u, w);
    SlotNode(u.P, i, port);
    MergeReadsTwo(u, i);
    OneInput(u.P[i], u.c.nodes[n], i, port, x);
    NotOutput(u.P[i], u.c.nodes[n]);
    var ins := T.One(x);
    var out := Fire(u, i, ins);
    SingleIsFiring(u, w, i, port, x);
    news, f := [InUnit(FiringPacket(u, i, ins), out)], Some(G.Firing(i, ins));
    LineFired(u, Held(u, w), i, ins, FiringPacket(u, i, ins), out);
  }

  // A packet that holds its tokens.
  lemma Handed(u: Setup, p: Packet, out: seq<Wire>)
    requires WiresOk(u.c, out) && M.FunctionUnit(p, u.areas(p.input, p.tag)) == BitsAll(u, out)
    ensures Flight(u, [InUnit(p, out)]) == multiset{M.ToExecute(p)} && HeldBy(u, [InUnit(p, out)]) == HeldAll(u, out)
    ensures PartOk(u, InUnit(p, out))
  {
    hide M.FunctionUnit, HeldAll, BitsAll, EdgeOk;
    OnePart(u, InUnit(p, out));
  }

  // A packet that passes its token on.
  lemma Passes(u: Setup, p: Packet, out: seq<Wire>)
    requires WiresOk(u.c, out) && M.FunctionUnit(p, u.areas(p.input, p.tag)) == BitsAll(u, out)
    ensures Turned(u, HeldAll(u, out), multiset{M.ToExecute(p)}, [InUnit(p, out)], None)
  {
    hide M.FunctionUnit, HeldAll, BitsAll, Flight, HeldBy, PartOk, WiresOk;
    Handed(u, p, out);
  }

  // A packet that sends what a firing makes.
  lemma LineFired(u: Setup, held: multiset<G.Arrival>, i: nat, ins: T.Inputs, p: Packet, out: seq<Wire>)
    requires i < |u.P| && !u.P[i].Output? && T.Matched(u.P[i], ins) && WiresOk(u.c, out)
    requires held == multiset(G.Consumed(u.P[i], G.Firing(i, ins)))
    requires M.FunctionUnit(p, u.areas(p.input, p.tag)) == BitsAll(u, out)
    requires HeldAll(u, out) == multiset(G.Deliveries(u.P, T.Emit(u.P[i], ins)))
    ensures Turned(u, held, multiset{M.ToExecute(p)}, [InUnit(p, out)], Some(G.Firing(i, ins)))
  {
    hide M.FunctionUnit, HeldAll, G.Consumed, G.Deliveries, T.Emit, T.Matched, BitsAll, Flight, HeldBy, PartOk, WiresOk;
    Handed(u, p, out);
  }

  lemma MergeReadsTwo(u: Setup, i: nat)
    requires Sound(u) && i < |u.P|
    ensures u.P[i].Merge? ==> u.P[i].a != u.P[i].b
  {
  }

  lemma NotOutput(l: T.Line, n: Node)
    requires n.op == NodeOpOf(l) && n.op.Op?
    ensures !l.Output?
  {
  }

  lemma SingleIsFiring(u: Setup, w: Wire, i: nat, port: nat, x: T.Token)
    requires Implements(u.P, u.c) && i < |u.P| && !u.P[i].Output? && T.Matched(u.P[i], T.One(x))
    requires w.edge.Some? && w.edge.value.node == Main(u.P, i) && x.tag == w.tag && x.word == w.word
    requires w.edge.value.node in u.c.idx && w.edge.value.node < |u.c.nodes| && u.c.nodes[w.edge.value.node].op.Op?
    requires u.c.nodes[w.edge.value.node].in1 == LiteralArg(u.P[i])
    ensures PacketAt(u, w.edge.value.node, u.Layout().WordBits(w.word), LiteralOf(u.c.nodes[w.edge.value.node].in1), u.Layout().TagBits(w.tag))
      == FiringPacket(u, i, T.One(x))
  {
    hide Implements, PacketAt, E.Layout.WordBits, E.Layout.TagBits;
    LineIs(u, i);
  }

  // A line whose node waits for a partner fires on the pair.
  lemma TwoInputs(l: T.Line, n: Node, i: nat, x: T.Token, y: T.Token)
    requires n.op == NodeOpOf(l) && n.in1 == LiteralArg(l) && n.op.Op? && Matching(n) == MATCHING_BOTH
    requires |G.Ports(l)| == 2 ==> x.name == G.Ports(l)[0] && y.name == G.Ports(l)[1]
    requires |G.Ports(l)| > 0 && x.tag == y.tag
    ensures |G.Ports(l)| == 2 && T.Matched(l, T.Two(x, y)) && !l.Output? && !l.Literal? && !l.CopyTagLit?
    ensures G.Consumed(l, G.Firing(i, T.Two(x, y))) == {G.Arrival(i, 0, x), G.Arrival(i, 1, y)}
  {
    MatchingValues();
  }

  // The two tokens of a pair, and the line they fire.
  lemma PairTokens(u: Setup, l: Wire, r: Wire) returns (i: nat, x: T.Token, y: T.Token)
    requires Sound(u) && PartOk(u, Paired(l, r)) && HeldKnown(u, HeldOf(u, Paired(l, r)))
    ensures i < |u.P| && l.edge.value.node == Main(u.P, i) && x.tag == l.tag && x.word == l.word && y.word == r.word
    ensures T.Matched(u.P[i], T.Two(x, y)) && T.Within(T.Two(x, y), Known(u.P))
    ensures !u.P[i].Output? && !u.P[i].Literal? && !u.P[i].CopyTagLit?
    ensures HeldOf(u, Paired(l, r)) == multiset(G.Consumed(u.P[i], G.Firing(i, T.Two(x, y))))
  {
    hide Sound, EdgeOk, Held, Slot, Known, HeldAll, G.Ports, G.Consumed, T.Matched, NodeOpOf, LiteralArg, Matching;
    SoundParts(u);
    TwoHeld(u, l, r);
    var n := l.edge.value.node;
    NotDup(u, n);
    var port, j, port';
    i, port, x := AtLine(u, l);
    j, port', y := AtLine(u, r);
    SlotNode(u.P, i, port);
    SlotsOfPair(u.P, l.edge.value, r.edge.value, i, port, j, port');
    TwoInputs(u.P[i], u.c.nodes[n], i, x, y);
    assert multiset{G.Arrival(i, 0, x)} + multiset{G.Arrival(i, 1, y)} == multiset({G.Arrival(i, 0, x), G.Arrival(i, 1, y)});
  }

  lemma DispatchPair(u: Setup, l: Wire, r: Wire, stale: Types.Token) returns (news: seq<Part>, f: Option<G.Firing>)
    requires Sound(u) && PartOk(u, Paired(l, r)) && HeldKnown(u, HeldOf(u, Paired(l, r)))
    ensures M.Dispatch(u.c.Program(), M.Both(Bits(u, l), Bits(u, r)), stale).Some?
    ensures Turned(u, HeldOf(u, Paired(l, r)), multiset{M.ToExecute(M.Dispatch(u.c.Program(), M.Both(Bits(u, l), Bits(u, r)), stale).value)}, news, f) && f.Some?
  {
    hide Sound, EdgeOk, HeldOf, HeldKnown, Bits, PacketAt, M.Dispatch, M.FunctionUnit, FiringPacket, Known, HeldAll, G.Consumed, G.Deliveries, T.Emit, T.Matched, T.Within;
    hide E.Layout.WordBits, E.Layout.TagBits, Matching, BitsAll, Turned, WiresOk;
    SoundParts(u);
    var i, x, y := PairTokens(u, l, r);
    var ins := T.Two(x, y);
    DispatchBoth(u, l, r, stale);
    var out := Fire(u, i, ins);
    PairIsFiring(u, l, r, i, x, y);
    news, f := [InUnit(FiringPacket(u, i, ins), out)], Some(G.Firing(i, ins));
    LineFired(u, HeldOf(u, Paired(l, r)), i, ins, FiringPacket(u, i, ins), out);
  }

  lemma NotDup(u: Setup, n: nat)
    requires n < |u.c.nodes| && Matching(u.c.nodes[n]) == MATCHING_BOTH
    ensures !IsDup(u.c.nodes[n])
  {
    if IsDup(u.c.nodes[n]) { DupMatches(u.c.nodes[n]); }
  }

  lemma SlotsOfPair(P: seq<T.Line>, d: Dest, e: Dest, i: nat, port: nat, j: nat, port': nat)
    requires i < |P| && j < |P| && d == Slot(P, i, port) && e == Slot(P, j, port')
    requires port < |G.Ports(P[i])| && port' < |G.Ports(P[j])|
    requires d.node == e.node && d.input == INPUT_ONE && e.input == INPUT_TWO
    ensures i == j && port == 0 && port' == 1
  {
    MainsDiffer(P, i, j);
    InputsDiffer();
  }

  lemma PairIsFiring(u: Setup, l: Wire, r: Wire, i: nat, x: T.Token, y: T.Token)
    requires Implements(u.P, u.c) && i < |u.P| && !u.P[i].Output? && !u.P[i].Literal? && !u.P[i].CopyTagLit?
    requires T.Matched(u.P[i], T.Two(x, y))
    requires l.edge.Some? && l.edge.value.node == Main(u.P, i) && x.tag == l.tag && x.word == l.word && y.word == r.word
    requires l.edge.value.node in u.c.idx && l.edge.value.node < |u.c.nodes| && u.c.nodes[l.edge.value.node].op.Op?
    ensures PacketAt(u, l.edge.value.node, u.Layout().WordBits(l.word), u.Layout().WordBits(r.word), u.Layout().TagBits(l.tag))
      == FiringPacket(u, i, T.Two(x, y))
  {
    hide Implements, PacketAt, E.Layout.WordBits, E.Layout.TagBits;
    LineIs(u, i);
  }

  // ---- The function unit ----

  function SwitchAll(out: seq<Wire>): (r: seq<Part>)
    ensures |r| == |out|
  {
    seq(|out|, k requires 0 <= k < |out| => OnSwitch(out[k]))
  }

  lemma {:induction false} SwitchAllIs(u: Setup, out: seq<Wire>)
    ensures Flight(u, SwitchAll(out)) == SwitchItems(u, out) && HeldBy(u, SwitchAll(out)) == HeldAll(u, out)
    ensures Weights(u, SwitchAll(out)) == Ways(u.c.nodes, out)
    decreases |out|
  {
    hide Held, Bits, WayOf;
    if out != [] {
      assert SwitchAll(out)[1..] == SwitchAll(out[1..]);
      SwitchAllIs(u, out[1..]);
      OneHeld(u, out[0]);
    }
  }

  function SwitchItems(u: Setup, out: seq<Wire>): multiset<M.Item> {
    if out == [] then multiset{} else multiset{M.ToSwitch(Bits(u, out[0]))} + SwitchItems(u, out[1..])
  }

  lemma OutgoingIs(u: Setup, out: seq<Wire>)
    requires |out| == 1 || |out| == 2
    ensures M.Outgoing(BitsAll(u, out)) == SwitchItems(u, out)
  {
    hide Bits;
    assert |out| == 1 ==> out[1..] == [];
    assert |out| == 2 ==> out[1..] == [out[1]] && out[1..][1..] == [];
  }

  lemma ExecuteTurn(u: Setup, p: Packet, out: seq<Wire>)
    requires PartOk(u, InUnit(p, out))
    ensures Turned(u, HeldAll(u, out), M.Execute(u.Machine(), p), SwitchAll(out), None)
    ensures Weights(u, SwitchAll(out)) < Weight(u, InUnit(p, out))
  {
    hide Weights, Ways, M.FunctionUnit, Held, Bits, BitsAll, HeldAll, EdgeOk, Flight, HeldBy, M.Outgoing;
    Results(p, u.areas(p.input, p.tag));
    assert |BitsAll(u, out)| == |out|;
    SwitchAllIs(u, out);
    OutgoingIs(u, out);
    forall q | q in SwitchAll(out)
      ensures PartOk(u, q)
    {
      var k :| 0 <= k < |out| && SwitchAll(out)[k] == q;
      assert WireOk(u.c, out[k]);
    }
  }

  lemma Results(p: Packet, area: bv32)
    ensures |M.FunctionUnit(p, area)| == 1 || |M.FunctionUnit(p, area)| == 2
  {
    hide Compute, CreateTag, TagArea;
  }
}
