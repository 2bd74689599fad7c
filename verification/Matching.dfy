// Matching whole streams of tokens: the order of arrival does not matter.
module Matching {
  import opened Words
  import opened Types
  import opened Machine
  import opened MatchingStore

  function Sending(i: Option<Item>): (r: multiset<Pair>) {
    if i.Some? && i.value.ToDispatch? then multiset{i.value.pair} else multiset{}
  }

  // The pairs sent and the tokens left waiting when ts arrives at a table holding w.
  function MatchAll(w: Waiting, ts: seq<Token>): (multiset<Pair>, Waiting)
    decreases |ts|
  {
    if ts == [] then (multiset{}, w) else
      var (i, w1) := Match(w, ts[0]);
      var (sent, left) := MatchAll(w1, ts[1..]);
      (Sending(i) + sent, left)
  }

  // The loop of run_matching_unit over the tokens that come.
  method RunMatchingUnit(table: TokenWaitingTable, incoming: seq<Token>) returns (sent: seq<Pair>)
    requires table.Valid()
    modifies table`chains, table`nodes, table`contents, table.table, table.nodes
    ensures table.Valid() && multiset(sent) == MatchAll(old(table.contents), incoming).0
    ensures table.contents == MatchAll(old(table.contents), incoming).1
    ensures fresh(table.nodes - old(table.nodes))
  {
    hide Match, MatchAll, TokenWaitingTable.Valid;
    sent := [];
    ghost var w := table.contents;
    var k := 0;
    assert incoming[0..] == incoming;
    while k < |incoming|
      invariant k <= |incoming| && table.Valid() && fresh(table.nodes - old(table.nodes))
      invariant MatchAll(w, incoming).0 == multiset(sent) + MatchAll(table.contents, incoming[k..]).0
      invariant MatchAll(w, incoming).1 == MatchAll(table.contents, incoming[k..]).1
    {
      Unfold(table.contents, incoming, k);
      var i := table.Receive(incoming[k]);
      if i.Some? && i.value.ToDispatch? { sent := sent + [i.value.pair]; }
      k := k + 1;
    }
    MatchNone(table.contents, incoming[k..]);
  }

  lemma MatchNone(w: Waiting, ts: seq<Token>)
    requires ts == []
    ensures MatchAll(w, ts) == (multiset{}, w)
  {
  }

  lemma Unfold(w: Waiting, ts: seq<Token>, k: nat)
    requires k < |ts|
    ensures var (i, w1) := Match(w, ts[k]);
      MatchAll(w, ts[k..]) == (Sending(i) + MatchAll(w1, ts[k + 1..]).0, MatchAll(w1, ts[k + 1..]).1)
  {
    hide Match;
    assert ts[k..][1..] == ts[k + 1..];
  }

  // At most one token for every input of every instruction under every tag, counting those inside.
  ghost predicate OneEach(w: Waiting, ts: multiset<Token>) {
    && (forall t :: t in ts && NeedsPartner(t) ==> ts[t] == 1 && !(KeyOf(t) in w && SameSlot(t, w[KeyOf(t)])))
    && (forall t, u :: t in ts && u in ts && NeedsPartner(t) && NeedsPartner(u) && SameSlot(t, u) ==> t == u)
  }

  lemma OneEachStep(w: Waiting, t: Token, rest: multiset<Token>)
    requires WaitingOk(w) && OneEach(w, multiset{t} + rest)
    ensures OneEach(Match(w, t).1, rest) && WaitingOk(Match(w, t).1)
  {
    hide KeyOf, InputOf, MatchingOf, InOrder;
    var all, w1 := multiset{t} + rest, Match(w, t).1;
    forall u | u in rest && NeedsPartner(u)
      ensures rest[u] == 1 && !(KeyOf(u) in w1 && SameSlot(u, w1[KeyOf(u)]))
    {
      assert u in all && t in all && all[u] == 1;
    }
    forall u, v | u in rest && v in rest && NeedsPartner(u) && NeedsPartner(v) && SameSlot(u, v)
      ensures u == v
    {
      assert u in all && v in all;
    }
  }

  lemma MatchSwap(w: Waiting, t: Token, u: Token)
    requires WaitingOk(w) && OneEach(w, multiset{t, u})
    ensures Match(Match(w, t).1, u).1 == Match(Match(w, u).1, t).1
    ensures Sending(Match(w, t).0) + Sending(Match(Match(w, t).1, u).0)
         == Sending(Match(w, u).0) + Sending(Match(Match(w, u).1, t).0)
  {
    hide KeyOf, InputOf, MatchingOf, InOrder, Match;
    if Partners(ToMatch(t), ToMatch(u)) {
      var both := multiset{t, u};
      assert t in both && u in both && both[t] == 1;
      assert t != u;
      TwoInputs(t, u);
      if KeyOf(t) in w { TwoInputs(t, w[KeyOf(t)]); }
      MatchMeets(w, t, u);
    } else {
      MatchIndependent(w, t, u);
      MatchIndependent(w, u, t);
    }
  }

  lemma OneEachPair(w: Waiting, t: Token, u: Token, rest: multiset<Token>)
    requires OneEach(w, multiset{t, u} + rest)
    ensures OneEach(w, multiset{t, u})
  {
    var two, all := multiset{t, u}, multiset{t, u} + rest;
    forall x | x in two && NeedsPartner(x)
      ensures two[x] == 1 && !(KeyOf(x) in w && SameSlot(x, w[KeyOf(x)]))
    {
      assert x in all && all[x] == 1;
    }
    forall x, y | x in two && y in two && NeedsPartner(x) && NeedsPartner(y) && SameSlot(x, y)
      ensures x == y
    {
      assert x in all && y in all;
    }
  }

  lemma TwoSteps(w: Waiting, t: Token, u: Token, rest: seq<Token>)
    ensures var w1 := Match(w, t).1;
      var w2 := Match(w1, u).1;
      MatchAll(w, [t, u] + rest)
        == (Sending(Match(w, t).0) + Sending(Match(w1, u).0) + MatchAll(w2, rest).0, MatchAll(w2, rest).1)
  {
    hide Match, Sending;
    assert ([t, u] + rest)[1..] == [u] + rest && ([u] + rest)[1..] == rest;
    var w1 := Match(w, t).1;
    var s1, s2, r := Sending(Match(w, t).0), Sending(Match(w1, u).0), MatchAll(Match(w1, u).1, rest).0;
    assert s1 + (s2 + r) == s1 + s2 + r;
  }

  lemma OneStep(w: Waiting, t: Token, rest: seq<Token>)
    ensures MatchAll(w, [t] + rest) == (Sending(Match(w, t).0) + MatchAll(Match(w, t).1, rest).0, MatchAll(Match(w, t).1, rest).1)
  {
    hide Match, Sending;
    assert ([t] + rest)[1..] == rest;
  }

  // The first token of a, the rest, and t behind them.
  lemma Apart(a: seq<Token>, t: Token, b: seq<Token>)
    requires a != []
    ensures var u, c := a[0], a[1..];
      && a + [t] + b == [u] + (c + [t] + b) && [t] + (a + b) == [t, u] + (c + b)
      && [u] + ([t] + (c + b)) == [u, t] + (c + b)
      && multiset(a) + multiset{t} + multiset(b) == multiset{u} + (multiset(c) + multiset{t} + multiset(b))
      && multiset(a) + multiset{t} + multiset(b) == multiset{t, u} + (multiset(c) + multiset(b))
  {
    assert a == [a[0]] + a[1..];
  }

  // A later token may come first.
  lemma {:induction false} MoveFront(w: Waiting, a: seq<Token>, t: Token, b: seq<Token>)
    requires WaitingOk(w) && OneEach(w, multiset(a) + multiset{t} + multiset(b))
    ensures MatchAll(w, a + [t] + b) == MatchAll(w, [t] + (a + b))
    decreases |a|
  {
    hide Match, Sending, OneEach, WaitingOk;
    if a == [] {
      assert a + [t] + b == [t] + (a + b);
    } else {
      var u, c := a[0], a[1..];
      Apart(a, t, b);
      OneEachStep(w, u, multiset(c) + multiset{t} + multiset(b));
      MoveFront(Match(w, u).1, c, t, b);
      OneStep(w, u, c + [t] + b);
      OneStep(w, u, [t] + (c + b));
      OneEachPair(w, t, u, multiset(c) + multiset(b));
      MatchSwap(w, t, u);
      TwoSteps(w, t, u, c + b);
      TwoSteps(w, u, t, c + b);
    }
  }

  lemma Cancel(t: Token, a: multiset<Token>, b: multiset<Token>)
    requires multiset{t} + a == multiset{t} + b
    ensures a == b
  {
    assert multiset{t} + a - multiset{t} == a && multiset{t} + b - multiset{t} == b;
  }

  // Where a token is in a sequence.
  lemma Find(us: seq<Token>, t: Token) returns (a: seq<Token>, b: seq<Token>)
    requires t in us
    ensures us == a + [t] + b && multiset(us) == multiset(a) + multiset{t} + multiset(b) == multiset{t} + multiset(a + b)
  {
    var k :| 0 <= k < |us| && us[k] == t;
    a, b := us[..k], us[k + 1..];
    assert us == a + [t] + b;
  }

  // The first token of ts in another order of the same tokens.
  lemma Whereabouts(ts: seq<Token>, us: seq<Token>) returns (a: seq<Token>, b: seq<Token>)
    requires multiset(ts) == multiset(us) && ts != []
    ensures us == a + [ts[0]] + b
    ensures multiset(ts) == multiset(a) + multiset{ts[0]} + multiset(b) == multiset{ts[0]} + multiset(ts[1..])
    ensures multiset(ts[1..]) == multiset(a + b)
  {
    var t := ts[0];
    assert t in multiset(us);
    a, b := Find(us, t);
    assert ts == [t] + ts[1..];
    Cancel(t, multiset(ts[1..]), multiset(a + b));
  }

  // Any two orders of arrival send the same pairs and leave the same tokens waiting.
  lemma {:induction false} OrderDoesNotMatter(w: Waiting, ts: seq<Token>, us: seq<Token>)
    requires WaitingOk(w) && OneEach(w, multiset(ts)) && multiset(ts) == multiset(us)
    ensures MatchAll(w, ts) == MatchAll(w, us)
    decreases |ts|
  {
    hide Match, Sending, OneEach, WaitingOk;
    if ts == [] {
      assert |us| == |multiset(us)| == 0;
    } else {
      var t := ts[0];
      var a, b := Whereabouts(ts, us);
      MoveFront(w, a, t, b);
      assert ([t] + (a + b))[1..] == a + b;
      OneEachStep(w, t, multiset(ts[1..]));
      OrderDoesNotMatter(Match(w, t).1, ts[1..], a + b);
    }
  }

  // ---- Conservation ----

  function CountNeeding(ts: seq<Token>): nat {
    if ts == [] then 0 else (if NeedsPartner(ts[0]) then 1 else 0) + CountNeeding(ts[1..])
  }

  // What one token changes: a partner leaves the table with it, or it stays there itself.
  lemma StepCounts(w: Waiting, t: Token)
    ensures var (i, w1) := Match(w, t);
      var needs, pair := if NeedsPartner(t) then 1 else 0, if NeedsPartner(t) && KeyOf(t) in w then 1 else 0;
      && needs + |w| == 2 * pair + |w1|
      && (pair == 1 ==> Sending(i) == multiset{InOrder(t, w[KeyOf(t)])})
      && (pair == 0 ==> Sending(i) == multiset{} || (needs == 0 && Sending(i) == multiset{Single(t)}))
  {
    hide KeyOf, MatchingOf, InOrder;
    var w1 := Match(w, t).1;
    if NeedsPartner(t) && KeyOf(t) in w {
      assert w.Keys == w1.Keys + {KeyOf(t)};
    }
  }

  // Every token that needs a partner ends up in exactly one pair or waits: the tokens that came
  // and those that waited before are twice the pairs and those that wait after.
  lemma {:induction false} NothingLost(w: Waiting, ts: seq<Token>) returns (pairs: nat, singles: nat)
    ensures |MatchAll(w, ts).0| == pairs + singles
    ensures CountNeeding(ts) + |w| == 2 * pairs + |MatchAll(w, ts).1|
    ensures forall p :: p in MatchAll(w, ts).0 && p.Single? ==> !NeedsPartner(p.token)
    decreases |ts|
  {
    hide KeyOf, MatchingOf, Match, Sending;
    if ts == [] {
      pairs, singles := 0, 0;
    } else {
      StepCounts(w, ts[0]);
      pairs, singles := NothingLost(Match(w, ts[0]).1, ts[1..]);
      var one := Sending(Match(w, ts[0]).0);
      if NeedsPartner(ts[0]) && KeyOf(ts[0]) in w {
        pairs := pairs + 1;
      } else if one != multiset{} {
        singles := singles + 1;
      }
    }
  }
}
