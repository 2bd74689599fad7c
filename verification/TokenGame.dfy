// Running a program of lines: tokens wait at the input slots of the lines, and any line whose
// slots match may fire next.
module TokenGame {
  import opened Words
  import opened Tass
  import opened Rules
  import opened Uniqueness
  import opened Compiled

  // A token waiting at an input slot, or a literal that has not fired yet.
  datatype Arrival = Ready(line: nat) | Arrival(line: nat, port: nat, token: Token)

  datatype Firing = Firing(line: nat, ins: Inputs)

  // What waits, and the history: the tokens sent and the firings made so far.
  datatype Game = Game(inbox: multiset<Arrival>, log: multiset<Token>, done: multiset<Firing>)

  // The names a line reads, slot by slot.
  function Ports(l: Line): seq<Name> {
    match l
    case Literal(_, _) => []
    case Binary(_, _, a, b) => [a, b]
    case Merge(_, a, b) => [a, b]
    case Branch(_, _, src, test) => [src, test]
    case CopyTag(_, tagFrom, src) => [tagFrom, src]
    case CopyTagLit(_, tagFrom, _) => [tagFrom]
    case _ => [l.src]
  }

  predicate Reads(P: seq<Line>, i: nat, port: nat, n: Name) {
    i < |P| && port < |Ports(P[i])| && Ports(P[i])[port] == n
  }

  // What a firing takes from the slots of its line; a merge takes one token from either slot.
  function Consumed(l: Line, f: Firing): set<Arrival> {
    match f.ins
    case Nothing => {Ready(f.line)}
    case One(x) => {Arrival(f.line, if l.Merge? && x.name != l.a then 1 else 0, x)}
    case Two(x, y) => {Arrival(f.line, 0, x), Arrival(f.line, 1, y)}
  }

  predicate Fits(P: seq<Line>, f: Firing) {
    f.line < |P| && Matched(P[f.line], f.ins)
  }

  predicate Uses(P: seq<Line>, f: Firing, a: Arrival) {
    Fits(P, f) && a in Consumed(P[f.line], f)
  }

  predicate Makes(P: seq<Line>, f: Firing, tok: Token) {
    Fits(P, f) && tok in Emit(P[f.line], f.ins)
  }

  predicate Enabled(P: seq<Line>, g: Game, f: Firing) {
    Fits(P, f) && forall a :: a in Consumed(P[f.line], f) ==> a in g.inbox
  }

  // A token goes to every slot that reads its name.
  ghost function Deliveries(P: seq<Line>, out: set<Token>): (r: set<Arrival>)
    ensures forall a :: a in r <==> a.Arrival? && a.token in out && Reads(P, a.line, a.port, a.token.name)
  {
    set i: nat, port: nat, tok | i < |P| && port < 2 && tok in out && Reads(P, i, port, tok.name) :: Arrival(i, port, tok)
  }

  ghost function Fire(P: seq<Line>, g: Game, f: Firing): Game
    requires Fits(P, f)
  {
    var out := Emit(P[f.line], f.ins);
    Game(g.inbox - multiset(Consumed(P[f.line], f)) + multiset(Deliveries(P, out)),
         g.log + multiset(out), g.done + multiset{f})
  }

  ghost function Init(P: seq<Line>): Game {
    Game(multiset(set i: nat | i < |P| && P[i].Literal? :: Ready(i)), multiset{}, multiset{})
  }

  // One step of any schedule: some enabled line fires, or nothing happens.
  ghost predicate Next(P: seq<Line>, g: Game, h: Game) {
    h == g || exists f :: Enabled(P, g, f) && h == Fire(P, g, f)
  }

  ghost predicate IsRun(P: seq<Line>, r: nat -> Game) {
    r(0) == Init(P) && forall n: nat :: Next(P, r(n), r(n + 1))
  }

  // Whatever can fire does so some time.
  ghost predicate Fair(P: seq<Line>, r: nat -> Game) {
    forall n: nat, f :: Enabled(P, r(n), f) ==> Fires(r, f)
  }

  ghost predicate Fires(r: nat -> Game, f: Firing) {
    exists n: nat :: f in r(n).done
  }

  // ---- Finite runs ----

  // A finite run of the game.
  ghost predicate Path(P: seq<Line>, gs: seq<Game>) {
    gs != [] && gs[0] == Init(P) && forall k :: 0 <= k < |gs| - 1 ==> Next(P, gs[k], gs[k + 1])
  }

  lemma NextSame(P: seq<Line>, g: Game)
    ensures Next(P, g, g)
  {
  }

  lemma PathMore(P: seq<Line>, gs: seq<Game>, h: Game)
    requires Path(P, gs) && Next(P, gs[|gs| - 1], h)
    ensures Path(P, gs + [h])
  {
    hide Init, Next;
    var hs := gs + [h];
    forall k | 0 <= k < |hs| - 1
      ensures Next(P, hs[k], hs[k + 1])
    {
      if k < |gs| - 1 { assert hs[k] == gs[k] && hs[k + 1] == gs[k + 1]; }
    }
  }

  lemma PathEnds(P: seq<Line>, gs: seq<Game>)
    requires Path(P, gs)
    ensures gs != []
  {
  }

  // ---- The invariant of every run ----

  ghost function Sent(g: Game): iset<Token> { iset tok | tok in g.log }

  ghost predicate AtMostOnce(g: Game) {
    && (forall a :: g.inbox[a] <= 1)
    && (forall tok :: g.log[tok] <= 1)
    && (forall f :: g.done[f] <= 1)
  }

  ghost predicate Taken(P: seq<Line>, g: Game, a: Arrival) {
    exists f :: f in g.done && Uses(P, f, a)
  }

  // What has arrived at a slot so far.
  predicate Due(P: seq<Line>, g: Game, a: Arrival) {
    match a
    case Ready(i) => i < |P| && P[i].Literal?
    case Arrival(i, port, tok) => tok in g.log && Reads(P, i, port, tok.name)
  }

  // Whatever has arrived waits or has been taken, not both.
  ghost predicate Flow(P: seq<Line>, g: Game, a: Arrival) {
    && (a in g.inbox || Taken(P, g, a) <==> Due(P, g, a))
    && !(a in g.inbox && Taken(P, g, a))
  }

  ghost predicate Accounted(P: seq<Line>, g: Game, f: Firing) {
    Fits(P, f) && Within(f.ins, Sent(g)) && forall tok :: tok in Emit(P[f.line], f.ins) ==> tok in g.log
  }

  ghost predicate Made(P: seq<Line>, g: Game, tok: Token) {
    exists f :: f in g.done && Makes(P, f, tok)
  }

  ghost predicate Inv(P: seq<Line>, g: Game) {
    && AtMostOnce(g)
    && (forall a :: Flow(P, g, a))
    && (forall f :: f in g.done ==> Accounted(P, g, f))
    && (forall tok :: tok in g.log ==> Made(P, g, tok))
  }

  lemma InitInv(P: seq<Line>)
    ensures Inv(P, Init(P))
  {
    forall a
      ensures Flow(P, Init(P), a)
    {
      assert a in Init(P).inbox <==> Due(P, Init(P), a);
    }
  }

  // The tokens of an enabled firing have been sent.
  lemma EnabledWithin(P: seq<Line>, g: Game, f: Firing)
    requires Inv(P, g) && Enabled(P, g, f)
    ensures Within(f.ins, Sent(g))
  {
    hide AtMostOnce;
    forall a | a in Consumed(P[f.line], f)
      ensures a.Arrival? ==> a.token in Sent(g)
    {
      assert Flow(P, g, a);
    }
    match f.ins
    case Nothing =>
    case One(x) =>
      assert Arrival(f.line, if P[f.line].Merge? && x.name != P[f.line].a then 1 else 0, x) in Consumed(P[f.line], f);
    case Two(x, y) =>
      assert Arrival(f.line, 0, x) in Consumed(P[f.line], f) && Arrival(f.line, 1, y) in Consumed(P[f.line], f);
  }

  // A firing that is enabled has not happened.
  lemma EnabledNew(P: seq<Line>, g: Game, f: Firing)
    requires Inv(P, g) && Enabled(P, g, f)
    ensures f !in g.done
  {
    hide AtMostOnce, Due;
    var a := match f.ins
      case Nothing => Ready(f.line)
      case One(x) => Arrival(f.line, if P[f.line].Merge? && x.name != P[f.line].a then 1 else 0, x)
      case Two(x, y) => Arrival(f.line, 0, x);
    assert a in Consumed(P[f.line], f);
    assert Uses(P, f, a);
    assert Flow(P, g, a);
  }

  lemma MadeFrom(P: seq<Line>, g: Game, T: iset<Token>, tok: Token)
    requires Inv(P, g) && Sent(g) <= T && tok in g.log
    ensures exists i: nat :: i < |P| && Produced(P[i], T, tok)
  {
    hide AtMostOnce, Flow, Within;
    assert Made(P, g, tok);
    var f :| f in g.done && Makes(P, f, tok);
    assert Accounted(P, g, f);
    WithinMore(f.ins, Sent(g), T);
    assert Yields(P[f.line], f.ins, T, tok);
    assert Produced(P[f.line], T, tok);
  }

  lemma WithinMore(ins: Inputs, T: iset<Token>, U: iset<Token>)
    requires Within(ins, T) && T <= U
    ensures Within(ins, U)
  {
  }

  lemma SentSupported(P: seq<Line>, g: Game)
    requires Inv(P, g)
    ensures Supported(P, Sent(g))
  {
    hide Inv;
    forall tok | tok in Sent(g)
      ensures exists i: nat :: i < |P| && Produced(P[i], Sent(g), tok)
    {
      MadeFrom(P, g, Sent(g), tok);
    }
  }

  // The tokens sent so far and those of an enabled firing.
  ghost function SentWith(P: seq<Line>, g: Game, f: Firing): iset<Token>
    requires Fits(P, f)
  {
    iset tok | tok in g.log || tok in Emit(P[f.line], f.ins)
  }

  lemma SentWithSupported(P: seq<Line>, g: Game, f: Firing)
    requires Inv(P, g) && Enabled(P, g, f)
    ensures Supported(P, SentWith(P, g, f))
  {
    hide Inv, Emit, Matched, Within;
    var U := SentWith(P, g, f);
    EnabledWithin(P, g, f);
    assert Sent(g) <= U;
    WithinMore(f.ins, Sent(g), U);
    forall tok | tok in U
      ensures exists i: nat :: i < |P| && Produced(P[i], U, tok)
    {
      if tok in g.log {
        MadeFrom(P, g, U, tok);
      } else {
        assert Yields(P[f.line], f.ins, U, tok);
        assert Produced(P[f.line], U, tok);
      }
    }
  }

  // What an enabled firing makes has not been sent before: no other firing makes it.
  lemma EmitNew(P: seq<Line>, g: Game, f: Firing, tok: Token)
    requires Regular(P) && Inv(P, g) && Enabled(P, g, f) && tok in Emit(P[f.line], f.ins)
    ensures tok !in g.log
  {
    hide AtMostOnce, Flow, Emit, Matched, Within, Supported;
    if tok in g.log {
      assert Made(P, g, tok);
      var h :| h in g.done && Makes(P, h, tok);
      assert Accounted(P, g, h);
      var U := SentWith(P, g, f);
      EnabledWithin(P, g, f);
      SentWithSupported(P, g, f);
      WithinMore(h.ins, Sent(g), U);
      WithinMore(f.ins, Sent(g), U);
      SameLine(P, h, f, tok);
      SameFiring(P, U, P[f.line], h.ins, f.ins, tok);
      EnabledNew(P, g, f);
    }
  }

  lemma SameLine(P: seq<Line>, f: Firing, h: Firing, tok: Token)
    requires SingleDefs(P) && Makes(P, f, tok) && Makes(P, h, tok)
    ensures f.line == h.line
  {
    hide Emit, Matched, Outs;
    EmitsOuts(P[f.line], f.ins, tok);
    EmitsOuts(P[h.line], h.ins, tok);
  }

  lemma SameFiring(P: seq<Line>, U: iset<Token>, l: Line, i: Inputs, j: Inputs, tok: Token)
    requires Regular(P) && Supported(P, U) && l in P && Matched(l, i) && Matched(l, j)
    requires Within(i, U) && Within(j, U) && tok in Emit(l, i) && tok in Emit(l, j)
    ensures i == j
  {
    hide Supported, Emit, Matched, Within;
    assert Good(U, l);
    assert Yields(l, i, U, tok) && Yields(l, j, U, tok);
  }

  // ---- A step keeps the invariant ----

  lemma InboxAfter(P: seq<Line>, g: Game, f: Firing, a: Arrival)
    requires Regular(P) && Inv(P, g) && Enabled(P, g, f)
    ensures Fire(P, g, f).inbox[a] <= 1
    ensures a in Fire(P, g, f).inbox <==>
      (a in g.inbox && !Uses(P, f, a)) || a in Deliveries(P, Emit(P[f.line], f.ins))
  {
    hide Emit, Matched, Within, Consumed, Regular, Taken;
    var out := Emit(P[f.line], f.ins);
    assert Flow(P, g, a);
    if a in Deliveries(P, out) {
      EmitNew(P, g, f, a.token);
      assert a !in g.inbox;
    }
  }

  lemma TakenAfter(P: seq<Line>, g: Game, f: Firing, a: Arrival)
    requires Fits(P, f)
    ensures Taken(P, Fire(P, g, f), a) <==> Taken(P, g, a) || Uses(P, f, a)
  {
    hide Emit, Matched, Consumed, Deliveries, Uses;
    var h := Fire(P, g, f);
    assert f in h.done;
    assert forall e :: e in g.done ==> e in h.done;
  }

  lemma UsesDue(P: seq<Line>, g: Game, f: Firing, a: Arrival)
    requires Inv(P, g) && Enabled(P, g, f) && Uses(P, f, a)
    ensures a in g.inbox && Due(P, g, a)
  {
    assert Flow(P, g, a);
  }

  lemma FlowAfter(P: seq<Line>, g: Game, f: Firing, a: Arrival)
    requires Regular(P) && Inv(P, g) && Enabled(P, g, f)
    ensures Flow(P, Fire(P, g, f), a)
  {
    hide Emit, Matched, Consumed, Regular, Taken, Uses, Reads, AtMostOnce;
    var h, out := Fire(P, g, f), Emit(P[f.line], f.ins);
    assert Flow(P, g, a);
    InboxAfter(P, g, f, a);
    TakenAfter(P, g, f, a);
    if Uses(P, f, a) { UsesDue(P, g, f, a); }
    if a in Deliveries(P, out) { EmitNew(P, g, f, a.token); }
    if a.Arrival? { assert a.token in h.log <==> a.token in g.log || a.token in out; }
  }

  lemma CountsAfter(P: seq<Line>, g: Game, f: Firing)
    requires Regular(P) && Inv(P, g) && Enabled(P, g, f)
    ensures AtMostOnce(Fire(P, g, f))
  {
    hide Emit, Matched, Consumed, Regular, Flow, Deliveries;
    var h := Fire(P, g, f);
    forall a ensures h.inbox[a] <= 1 { InboxAfter(P, g, f, a); }
    forall tok ensures h.log[tok] <= 1 {
      if tok in Emit(P[f.line], f.ins) { EmitNew(P, g, f, tok); }
    }
    EnabledNew(P, g, f);
  }

  lemma HistoryAfter(P: seq<Line>, g: Game, f: Firing)
    requires Inv(P, g) && Enabled(P, g, f)
    ensures forall e :: e in Fire(P, g, f).done ==> Accounted(P, Fire(P, g, f), e)
    ensures forall tok :: tok in Fire(P, g, f).log ==> Made(P, Fire(P, g, f), tok)
  {
    hide Emit, Matched, Consumed, Flow, Deliveries, AtMostOnce, Within;
    var h := Fire(P, g, f);
    EnabledWithin(P, g, f);
    assert Sent(g) <= Sent(h);
    forall e | e in h.done
      ensures Accounted(P, h, e)
    {
      if e in g.done { assert Accounted(P, g, e); }
      WithinMore(e.ins, Sent(g), Sent(h));
    }
    forall tok | tok in h.log
      ensures Made(P, h, tok)
    {
      if tok in g.log {
        assert Made(P, g, tok);
        var e :| e in g.done && Makes(P, e, tok);
        assert e in h.done;
      } else {
        assert f in h.done && Makes(P, f, tok);
      }
    }
  }

  lemma StepInv(P: seq<Line>, g: Game, f: Firing)
    requires Regular(P) && Inv(P, g) && Enabled(P, g, f)
    ensures Inv(P, Fire(P, g, f))
  {
    hide Emit, Matched, Consumed, Regular, Flow, Deliveries, AtMostOnce, Accounted, Made, Fire;
    CountsAfter(P, g, f);
    HistoryAfter(P, g, f);
    forall a ensures Flow(P, Fire(P, g, f), a) { FlowAfter(P, g, f, a); }
  }

  // Every state of every run keeps the invariant.
  lemma {:induction false} RunInv(P: seq<Line>, r: nat -> Game, n: nat)
    requires Regular(P) && IsRun(P, r)
    ensures Inv(P, r(n))
  {
    hide Inv, Regular, Fire, Init;
    if n == 0 {
      InitInv(P);
    } else {
      RunInv(P, r, n - 1);
      assert Next(P, r(n - 1), r(n - 1 + 1));
      if r(n) != r(n - 1) {
        var f :| Enabled(P, r(n - 1), f) && r(n) == Fire(P, r(n - 1), f);
        StepInv(P, r(n - 1), f);
      }
    }
  }

  // ---- Fair runs miss nothing ----

  // All tokens a run ever sends.
  ghost function All(r: nat -> Game): iset<Token> {
    iset tok | InLog(r, tok)
  }

  ghost predicate InLog(r: nat -> Game, tok: Token) {
    exists n: nat :: tok in r(n).log
  }

  lemma {:induction false} History(P: seq<Line>, r: nat -> Game, n: nat, m: nat)
    requires IsRun(P, r) && n <= m
    ensures Sent(r(n)) <= Sent(r(m))
    ensures forall f :: f in r(n).done ==> f in r(m).done
    decreases m
  {
    hide Emit, Matched, Consumed, Deliveries;
    if n < m {
      History(P, r, n, m - 1);
      assert Next(P, r(m - 1), r(m - 1 + 1));
    }
  }

  lemma AllSupported(P: seq<Line>, r: nat -> Game)
    requires Regular(P) && IsRun(P, r)
    ensures Supported(P, All(r))
  {
    hide Regular, IsRun, Inv, Within, Emit, Matched;
    forall tok | tok in All(r)
      ensures exists i: nat :: i < |P| && Produced(P[i], All(r), tok)
    {
      assert InLog(r, tok);
      var n: nat :| tok in r(n).log;
      RunInv(P, r, n);
      SentAll(r, n);
      MadeFrom(P, r(n), All(r), tok);
    }
  }

  lemma SentAll(r: nat -> Game, n: nat)
    ensures Sent(r(n)) <= All(r)
  {
    forall tok | tok in Sent(r(n)) ensures tok in All(r) { assert InLog(r, tok); }
  }

  // Both tokens of a firing are there from some state on.
  lemma TogetherAt(P: seq<Line>, r: nat -> Game, ins: Inputs) returns (n: nat)
    requires IsRun(P, r) && Within(ins, All(r))
    ensures Within(ins, Sent(r(n)))
  {
    hide IsRun;
    match ins
    case Nothing => n := 0;
    case One(x) =>
      assert InLog(r, x);
      n :| x in r(n).log;
    case Two(x, y) =>
      assert InLog(r, x) && InLog(r, y);
      var i: nat, j: nat :| x in r(i).log && y in r(j).log;
      n := if i <= j then j else i;
      History(P, r, i, n);
      History(P, r, j, n);
  }

  // A firing that takes one of the tokens of f takes them all.
  lemma TakesAll(P: seq<Line>, g: Game, f: Firing, h: Firing, a: Arrival)
    requires Regular(P) && Inv(P, g) && Fits(P, f) && Within(f.ins, Sent(g)) && h in g.done
    requires Uses(P, f, a) && Uses(P, h, a)
    ensures f == h
  {
    hide AtMostOnce, Flow, Supported, Emit, Regular;
    assert Accounted(P, g, h);
    SentSupported(P, g);
    var l := P[f.line];
    InputsSingle(P, Sent(g), l);
    if f.ins.Two? { TwoSame(Sent(g), l, f.ins, h.ins); }
  }

  lemma InputsSingle(P: seq<Line>, T: iset<Token>, l: Line)
    requires Regular(P) && Supported(P, T) && l in P
    ensures forall n :: n in Ins(l) ==> SingleValued(T, n)
  {
    assert Good(T, l);
  }

  lemma TwoSame(T: iset<Token>, l: Line, i: Inputs, j: Inputs)
    requires Matched(l, i) && Matched(l, j) && Within(i, T) && Within(j, T) && i.Two?
    requires i.x == j.x || i.y == j.y
    requires forall n :: n in Ins(l) ==> SingleValued(T, n)
    ensures i == j
  {
    assert i.x.name in Ins(l) && i.y.name in Ins(l);
  }

  // Tokens that match have made their line fire, or enable it.
  lemma MatchedFires(P: seq<Line>, g: Game, f: Firing)
    requires Regular(P) && Inv(P, g) && Fits(P, f) && Within(f.ins, Sent(g))
    ensures f in g.done || Enabled(P, g, f)
  {
    hide AtMostOnce, Flow, Regular, Emit;
    if !Enabled(P, g, f) {
      var a :| a in Consumed(P[f.line], f) && a !in g.inbox;
      ConsumedDue(P, g, f, a);
      FlowTaken(P, g, a);
      var h :| h in g.done && Uses(P, h, a);
      TakesAll(P, g, f, h, a);
    }
  }

  lemma FlowTaken(P: seq<Line>, g: Game, a: Arrival)
    requires Inv(P, g) && Due(P, g, a) && a !in g.inbox
    ensures Taken(P, g, a)
  {
    assert Flow(P, g, a);
  }

  lemma ConsumedDue(P: seq<Line>, g: Game, f: Firing, a: Arrival)
    requires Fits(P, f) && Within(f.ins, Sent(g)) && a in Consumed(P[f.line], f)
    ensures Due(P, g, a)
  {
  }

  // Whatever can be produced from the tokens of a fair run is sent in it.
  lemma AllClosed(P: seq<Line>, r: nat -> Game)
    requires Regular(P) && IsRun(P, r) && Fair(P, r)
    ensures Closed(P, All(r))
  {
    hide Regular, IsRun, Within, Emit, Matched, Fair;
    forall l, tok | l in P && Produced(l, All(r), tok)
      ensures tok in All(r)
    {
      var ins :| Yields(l, ins, All(r), tok);
      var i: nat :| i < |P| && P[i] == l;
      FairFires(P, r, Firing(i, ins));
      var n: nat :| Firing(i, ins) in r(n).done;
      RunInv(P, r, n);
      SendsEmit(P, r, n, Firing(i, ins), tok);
    }
  }

  lemma SendsEmit(P: seq<Line>, r: nat -> Game, n: nat, f: Firing, tok: Token)
    requires Inv(P, r(n)) && f in r(n).done && Makes(P, f, tok)
    ensures tok in All(r)
  {
    hide Flow, Emit, Matched, AtMostOnce;
    assert Accounted(P, r(n), f);
    assert InLog(r, tok);
  }

  lemma FairFires(P: seq<Line>, r: nat -> Game, f: Firing)
    requires Regular(P) && IsRun(P, r) && Fair(P, r) && Fits(P, f) && Within(f.ins, All(r))
    ensures Fires(r, f)
  {
    hide Regular, IsRun, Within, Matched, Inv, Enabled;
    var n := TogetherAt(P, r, f.ins);
    RunInv(P, r, n);
    MatchedFires(P, r(n), f);
  }

  // The tokens of a fair run are exactly what the program defines.
  lemma FairOk(P: seq<Line>, r: nat -> Game)
    requires Regular(P) && IsRun(P, r) && Fair(P, r)
    ensures Ok(P, All(r), true)
  {
    hide IsRun, Fair, Supported, Closed, Good;
    AllSupported(P, r);
    AllClosed(P, r);
  }
}
