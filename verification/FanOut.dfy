// Hooking every use of a variable to its definitions.
module FanOut {
  import opened Words
  import opened Types
  import opened IrGraph

  type Variables = map<string, seq<nat>>
  type Fans = map<string, seq<Fan>>
  type Uses = map<string, seq<Dest>>

  // Which fan a node belongs to, and the definitions the fans start from.
  datatype Owner = Owner(of: map<nat, (string, nat)>, defs: Variables)

  ghost predicate Owned(f: Fan, owner: Owner, x: string, j: nat) {
    && (forall i :: i in f.chain ==> i in owner.of && owner.of[i] == (x, j))
    && x in owner.defs && j < |owner.defs[x]| && |f.chain| > 0 && f.chain[0] == owner.defs[x][j]
  }

  function Adopt(owner: Owner, n: nat, x: string, j: nat): Owner {
    owner.(of := owner.of[n := (x, j)])
  }

  ghost predicate UsesSolid(nodes: seq<Node>, f: Fan) {
    forall k :: 0 <= k < |f.uses| ==> Solid(nodes, f.uses[k])
  }

  ghost predicate FanGood(nodes: seq<Node>, f: Fan, owner: Owner, base: nat, x: string, j: nat) {
    FanOk(nodes, f) && FanOver(f, base) && Owned(f, owner, x, j) && UsesSolid(nodes, f)
  }

  ghost predicate FansOk(nodes: seq<Node>, fans: Fans, owner: Owner, base: nat) {
    && Tidy(nodes) && fans.Keys == owner.defs.Keys && (forall x :: x in fans ==> |fans[x]| == |owner.defs[x]|)
    && forall x, j :: x in fans && 0 <= j < |fans[x]| ==> FanGood(nodes, fans[x][j], owner, base, x, j)
  }

  ghost function Longer(fans: Fans, x: string, j: nat, use: Dest, n: nat): Fans
    requires x in fans && j < |fans[x]|
  {
    fans[x := fans[x][j := Extend(fans[x][j], use, n)]]
  }

  lemma AttachKeeps(nodes: seq<Node>, fans: Fans, owner: Owner, base: nat, x: string, j: nat, use: Dest)
    requires FansOk(nodes, fans, owner, base) && base <= |nodes| && use.node < base && Solid(nodes, use)
    requires x in fans && j < |fans[x]|
    ensures var f := fans[x][j];
      && |f.chain| > 0 && Last(f) < |nodes|
      && (nodes[Last(f)].d1.Some? && nodes[Last(f)].d2.Some? <==> |f.uses| >= 2)
      && FansOk(Attached(nodes, Last(f), use), Longer(fans, x, j, use, |nodes|), Adopt(owner, |nodes|, x, j), base)
      && Last(Extend(f, use, |nodes|)) == EndAfter(nodes, Last(f))
  {
    hide FanOk, Attached, EndAfter, Tidy, Solid;
    var f := fans[x][j];
    assert FanGood(nodes, f, owner, base, x, j);
    FanExtends(nodes, f, use);
    var p, after, more, own := Last(f), Attached(nodes, Last(f), use), Longer(fans, x, j, use, |nodes|), Adopt(owner, |nodes|, x, j);
    FanRange(nodes, f);
    assert p in f.chain;
    SecondIsUse(nodes, f);
    AttachedTidy(nodes, p, use);
    forall y, k | y in more && 0 <= k < |more[y]|
      ensures FanGood(after, more[y][k], own, base, y, k)
    {
      if (y, k) == (x, j) {
        ExtendOwned(f, use, |nodes|, owner, base, x, j);
      } else {
        var g := fans[y][k];
        assert FanGood(nodes, g, owner, base, y, k);
        FanRange(nodes, g);
        FanKept(nodes, g, p, use);
      }
    }
  }

  lemma SecondIsUse(nodes: seq<Node>, f: Fan)
    requires FanOk(nodes, f) && UsesSolid(nodes, f)
    ensures |f.chain| > 0 && Last(f) < |nodes|
    ensures nodes[Last(f)].d1.Some? && nodes[Last(f)].d2.Some? ==> Solid(nodes, nodes[Last(f)].d2.value)
  {
    assert FanLink(nodes, f, |f.chain| - 1);
  }

  lemma LastIsMovable(nodes: seq<Node>, fans: Fans, owner: Owner, base: nat, x: string, j: nat)
    requires FansOk(nodes, fans, owner, base) && x in fans && j < |fans[x]|
    ensures var f := fans[x][j];
      && |f.chain| > 0 && Last(f) < |nodes|
      && (nodes[Last(f)].d1.Some? && nodes[Last(f)].d2.Some? ==> Solid(nodes, nodes[Last(f)].d2.value))
  {
    hide FanOk, FanOver, Owned, UsesSolid, Tidy, Solid;
    assert FanGood(nodes, fans[x][j], owner, base, x, j);
    SecondIsUse(nodes, fans[x][j]);
  }

  lemma FanRange(nodes: seq<Node>, f: Fan)
    requires FanOk(nodes, f)
    ensures |f.chain| > 0 && forall i :: i in f.chain ==> i < |nodes|
  {
    forall i | i in f.chain
      ensures i < |nodes|
    {
      var k :| 0 <= k < |f.chain| && f.chain[k] == i;
      assert FanLink(nodes, f, k);
    }
  }

  lemma ExtendOwned(f: Fan, use: Dest, n: nat, owner: Owner, base: nat, x: string, j: nat)
    requires FanOver(f, base) && Owned(f, owner, x, j) && base <= n && use.node < base && |f.chain| > 0
    requires forall i :: i in f.chain ==> i < n
    ensures FanOver(Extend(f, use, n), base) && Owned(Extend(f, use, n), Adopt(owner, n, x, j), x, j)
  {
  }

  // ---- All definitions of a variable ----

  // What the j-th of m definitions feeds after the uses us: the last one all, the others three at most.
  function Share(us: seq<Dest>, j: nat, m: nat): seq<Dest> {
    if j + 1 == m || |us| <= 3 then us else us[..3]
  }

  ghost predicate Shares(fs: seq<Fan>, us: seq<Dest>) {
    forall j :: 0 <= j < |fs| ==> fs[j].uses == Share(us, j, |fs|)
  }

  // Where the next use is attached: to every definition up to the third use, then to the last only.
  ghost predicate EndsAre(ends: seq<nat>, fs: seq<Fan>, us: seq<Dest>) {
    if fs == [] then ends == []
    else if |us| <= 2 then |ends| == |fs| && forall j :: 0 <= j < |fs| ==> |fs[j].chain| > 0 && ends[j] == Last(fs[j])
    else |fs[|fs| - 1].chain| > 0 && ends == [Last(fs[|fs| - 1])]
  }

  ghost predicate VariableOk(variables: Variables, fans: Fans, uses: Uses, x: string)
    requires x in variables && x in fans && x in uses
  {
    Shares(fans[x], uses[x]) && EndsAre(variables[x], fans[x], uses[x])
  }

  ghost predicate VariablesOk(variables: Variables, fans: Fans, uses: Uses) {
    && fans.Keys == variables.Keys == uses.Keys
    && forall x :: x in variables ==> VariableOk(variables, fans, uses, x)
  }

  // ---- What attaching does not touch ----

  // A first output stays once it is there, and so does a second one that leads to an added DUP.
  predicate KeepsOutputs(nodes: seq<Node>, before: Node, after: Node) {
    && (before.d1.Some? ==> after.d1 == before.d1)
    && (before.d2.Some? && !Solid(nodes, before.d2.value) ==> after.d2 == before.d2)
  }

  // Only open or movable outputs change; new nodes are DUPs without arguments.
  ghost predicate Similar(a: seq<Node>, b: seq<Node>) {
    && |a| <= |b|
    && (forall k :: 0 <= k < |a| ==> b[k] == a[k].(d1 := b[k].d1, d2 := b[k].d2))
    && (forall k :: |a| <= k < |b| ==> b[k] == DUP_NODE.(d1 := b[k].d1, d2 := b[k].d2))
    && forall k :: 0 <= k < |a| ==> KeepsOutputs(a, a[k], b[k])
  }

  lemma AttachedSimilar(nodes: seq<Node>, p: nat, use: Dest)
    requires p < |nodes|
    requires nodes[p].d1.Some? && nodes[p].d2.Some? ==> Solid(nodes, nodes[p].d2.value)
    ensures Similar(nodes, Attached(nodes, p, use))
  {
    hide Solid;
  }

  lemma SimilarSolid(a: seq<Node>, b: seq<Node>, d: Dest)
    requires Similar(a, b) && Solid(a, d)
    ensures Solid(b, d)
  {
  }

  lemma SimilarSelf(a: seq<Node>)
    ensures Similar(a, a)
  {
    hide Solid;
  }

  // What is no slot stays none.
  lemma SimilarNotSolid(a: seq<Node>, b: seq<Node>, d: Dest)
    requires Similar(a, b) && !Solid(a, d)
    ensures !Solid(b, d)
  {
    hide KeepsOutputs;
    if d.node < |b| { assert b[d.node] == (if d.node < |a| then a[d.node] else DUP_NODE).(d1 := b[d.node].d1, d2 := b[d.node].d2); }
  }

  lemma KeepsTrans(a: seq<Node>, b: seq<Node>, c: seq<Node>, k: nat)
    requires Similar(a, b) && Similar(b, c) && k < |a|
    ensures KeepsOutputs(a, a[k], c[k])
  {
    hide Solid;
    assert KeepsOutputs(a, a[k], b[k]) && KeepsOutputs(b, b[k], c[k]);
    if a[k].d2.Some? && !Solid(a, a[k].d2.value) { SimilarNotSolid(a, b, a[k].d2.value); }
  }

  lemma SimilarTrans(a: seq<Node>, b: seq<Node>, c: seq<Node>)
    requires Similar(a, b) && Similar(b, c)
    ensures Similar(a, c)
  {
    hide KeepsOutputs;
    forall k | 0 <= k < |a| ensures KeepsOutputs(a, a[k], c[k]) { KeepsTrans(a, b, c, k); }
    forall k | 0 <= k < |c|
      ensures k < |a| ==> c[k] == a[k].(d1 := c[k].d1, d2 := c[k].d2)
      ensures k >= |a| ==> c[k] == DUP_NODE.(d1 := c[k].d1, d2 := c[k].d2)
    {
      if k < |b| { assert c[k] == b[k].(d1 := c[k].d1, d2 := c[k].d2); }
    }
  }

  // ---- Where edges end ----

  ghost predicate EdgeIn(nodes: seq<Node>, S: set<Dest>, e: Option<Dest>) {
    e.Some? && Solid(nodes, e.value) ==> e.value in S
  }

  // Every edge to a node that is no added DUP ends at a slot of S.
  ghost predicate EdgesIn(nodes: seq<Node>, S: set<Dest>) {
    forall n :: 0 <= n < |nodes| ==> EdgeIn(nodes, S, nodes[n].d1) && EdgeIn(nodes, S, nodes[n].d2)
  }

  ghost function Slots(uses: Uses): set<Dest> {
    set x, k | x in uses && 0 <= k < |uses[x]| :: uses[x][k]
  }

  lemma AttachedEdgesIn(nodes: seq<Node>, S: set<Dest>, p: nat, use: Dest)
    requires EdgesIn(nodes, S) && use in S && p < |nodes| && Similar(nodes, Attached(nodes, p, use))
    ensures EdgesIn(Attached(nodes, p, use), S)
  {
    hide Attached, Similar, Solid;
    AttachedEdges(nodes, p, use);
    var r := Attached(nodes, p, use);
    if |r| > |nodes| { NewDupNotSolid(r, |nodes|); }
    forall n | 0 <= n < |r|
      ensures EdgeIn(r, S, r[n].d1) && EdgeIn(r, S, r[n].d2)
    {
      if n < |nodes| {
        assert EdgeIn(nodes, S, nodes[n].d1) && EdgeIn(nodes, S, nodes[n].d2);
        EdgeInLater(nodes, r, S, nodes[n].d1);
        EdgeInLater(nodes, r, S, nodes[n].d2);
      } else {
        assert EdgeIn(nodes, S, nodes[p].d2);
        EdgeInLater(nodes, r, S, nodes[p].d2);
      }
    }
  }

  lemma NewDupNotSolid(nodes: seq<Node>, n: nat)
    requires n < |nodes| && nodes[n].op == Op(DUP) && nodes[n].optimizable
    ensures !Solid(nodes, Dest(n, INPUT_ONE))
  {
  }

  lemma EdgeInLater(a: seq<Node>, b: seq<Node>, S: set<Dest>, e: Option<Dest>)
    requires Similar(a, b) && EdgeIn(a, S, e)
    ensures EdgeIn(b, S, e)
  {
    hide Similar, Solid;
    if e.Some? && !Solid(a, e.value) { SimilarNotSolid(a, b, e.value); }
  }

  // Changing arguments moves no edge.
  lemma ArgsKeepEdges(a: seq<Node>, b: seq<Node>, S: set<Dest>)
    requires EdgesIn(a, S) && |a| == |b|
    requires forall k :: 0 <= k < |a| ==> b[k] == a[k].(in1 := b[k].in1, in2 := b[k].in2)
    ensures EdgesIn(b, S)
  {
    forall n | 0 <= n < |b|
      ensures EdgeIn(b, S, b[n].d1) && EdgeIn(b, S, b[n].d2)
    {
      assert EdgeIn(a, S, a[n].d1) && EdgeIn(a, S, a[n].d2);
    }
  }

  lemma EdgesInMore(nodes: seq<Node>, S: set<Dest>, R: set<Dest>)
    requires EdgesIn(nodes, S) && S <= R
    ensures EdgesIn(nodes, R)
  {
    hide Solid;
    forall n | 0 <= n < |nodes|
      ensures EdgeIn(nodes, R, nodes[n].d1) && EdgeIn(nodes, R, nodes[n].d2)
    {
      assert EdgeIn(nodes, S, nodes[n].d1) && EdgeIn(nodes, S, nodes[n].d2);
    }
  }

  lemma SlotsMore(a: Uses, x: string, use: Dest)
    requires x in a
    ensures Slots(a) + {use} <= Slots(a[x := a[x] + [use]])
  {
    var b := a[x := a[x] + [use]];
    forall d | d in Slots(a) + {use}
      ensures d in Slots(b)
    {
      if d in Slots(a) {
        var y, k :| y in a && 0 <= k < |a[y]| && a[y][k] == d;
        assert b[y][k] == d;
      } else {
        assert b[x][|a[x]|] == use;
      }
    }
  }

  // Right after parsing, outputs lead to the DUPs of the rows with two outputs only.
  ghost predicate OnlyToDups(nodes: seq<Node>) {
    EdgesIn(nodes, {})
  }

  // ---- Arguments ----

  // The variable an argument names, if it names one: not "_", and not a label.
  function Named(arg: Arg, labels: set<string>): Option<string> {
    if arg.Ref? && arg.name != "_" && arg.name !in labels then Some(arg.name) else None
  }

  // What is left of an argument: numbers and labels.
  function Cleared(arg: Arg, labels: set<string>): Arg {
    if arg.Ref? && (arg.name == "_" || arg.name !in labels) then NoArg else arg
  }

  // A single literal of an instruction with two inputs moves to the first.
  function Settled(n: Node): Node {
    if Inputs(n.op) == 2 && n.in1.NoArg? && !n.in2.NoArg? then n.(in1 := n.in2, in2 := NoArg) else n
  }

  function Fixed(n: Node, labels: set<string>): Node {
    Settled(n.(in1 := Cleared(n.in1, labels), in2 := Cleared(n.in2, labels)))
  }

  function UseOf(arg: Arg, labels: set<string>, x: string, d: Dest): seq<Dest> {
    if Named(arg, labels) == Some(x) then [d] else []
  }

  // All uses of x in the first i nodes, in order.
  function UsesOf(nodes: seq<Node>, labels: set<string>, x: string, i: nat): (us: seq<Dest>)
    requires i <= |nodes|
    ensures forall k :: 0 <= k < |us| ==> us[k].node < i
  {
    if i == 0 then [] else
      UsesOf(nodes, labels, x, i - 1) + UseOf(nodes[i - 1].in1, labels, x, Dest(i - 1, INPUT_ONE))
        + UseOf(nodes[i - 1].in2, labels, x, Dest(i - 1, INPUT_TWO))
  }

  ghost predicate UsesAre(uses: Uses, nodes: seq<Node>, labels: set<string>, i: nat)
    requires i <= |nodes|
  {
    forall x :: x in uses ==> uses[x] == UsesOf(nodes, labels, x, i)
  }

  // One argument has been dealt with.
  ghost predicate OneMore(a: Uses, b: Uses, arg: Arg, labels: set<string>, d: Dest) {
    a.Keys == b.Keys && forall x :: x in a ==> b[x] == a[x] + UseOf(arg, labels, x, d)
  }

  lemma UsesNext(u0: Uses, u1: Uses, nodes: seq<Node>, labels: set<string>, i: nat)
    requires i < |nodes| && UsesAre(u0, nodes, labels, i) && u1.Keys == u0.Keys
    requires forall x :: x in u1 ==> u1[x] == u0[x] + UseOf(nodes[i].in1, labels, x, Dest(i, INPUT_ONE))
                                           + UseOf(nodes[i].in2, labels, x, Dest(i, INPUT_TWO))
    ensures UsesAre(u1, nodes, labels, i + 1)
  {
    hide UseOf;
  }

  // Up to edges, the first i nodes are fixed, the others original, and the added ones DUPs.
  ghost predicate FixedUpTo(nodes: seq<Node>, was: seq<Node>, labels: set<string>, i: nat) {
    && |was| <= |nodes|
    && (forall k :: 0 <= k < |was| ==> KeepsOutputs(was, was[k], nodes[k]))
    && (forall k :: 0 <= k < |was| ==>
          nodes[k] == (if k < i then Fixed(was[k], labels) else was[k]).(d1 := nodes[k].d1, d2 := nodes[k].d2))
    && forall k :: |was| <= k < |nodes| ==> nodes[k] == DUP_NODE.(d1 := nodes[k].d1, d2 := nodes[k].d2)
  }

  lemma FixedNext(a: seq<Node>, b: seq<Node>, was: seq<Node>, labels: set<string>, i: nat)
    requires FixedUpTo(a, was, labels, i) && i < |was| && Similar(a[i := Fixed(a[i], labels)], b)
    ensures FixedUpTo(b, was, labels, i + 1)
  {
    hide Cleared, Inputs, KeepsOutputs;
    var c := a[i := Fixed(a[i], labels)];
    forall k | 0 <= k < |was| ensures KeepsOutputs(was, was[k], b[k]) { FixedKeeps(a, b, was, labels, i, k); }
    forall k | 0 <= k < |was|
      ensures b[k] == (if k < i + 1 then Fixed(was[k], labels) else was[k]).(d1 := b[k].d1, d2 := b[k].d2)
    {
      assert b[k] == c[k].(d1 := b[k].d1, d2 := b[k].d2);
    }
    forall k | |was| <= k < |b|
      ensures b[k] == DUP_NODE.(d1 := b[k].d1, d2 := b[k].d2)
    {
      if k < |c| { assert b[k] == c[k].(d1 := b[k].d1, d2 := b[k].d2); }
    }
  }

  lemma FixedKeeps(a: seq<Node>, b: seq<Node>, was: seq<Node>, labels: set<string>, i: nat, k: nat)
    requires FixedUpTo(a, was, labels, i) && i < |was| && Similar(a[i := Fixed(a[i], labels)], b) && k < |was|
    ensures KeepsOutputs(was, was[k], b[k])
  {
    hide Cleared, Inputs, Solid;
    var c := a[i := Fixed(a[i], labels)];
    assert KeepsOutputs(was, was[k], a[k]) && KeepsOutputs(c, c[k], b[k]);
    if was[k].d2.Some? && !Solid(was, was[k].d2.value) {
      var d := was[k].d2.value;
      FixedNotSolid(a, was, labels, i, d);
      SameSolid(a, i, c[i], d);
    }
  }

  lemma FixedNotSolid(a: seq<Node>, was: seq<Node>, labels: set<string>, i: nat, d: Dest)
    requires FixedUpTo(a, was, labels, i) && !Solid(was, d)
    ensures !Solid(a, d)
  {
    hide Cleared, Inputs, KeepsOutputs;
    if d.node < |a| {
      assert d.node < |was| ==> a[d.node].op == was[d.node].op && a[d.node].optimizable == was[d.node].optimizable;
      assert d.node >= |was| ==> a[d.node] == DUP_NODE.(d1 := a[d.node].d1, d2 := a[d.node].d2);
    }
  }

  // ---- What parsing leaves ----

  // Every definition is a node with open outputs, and defines one variable.
  ghost predicate Parsed(nodes: seq<Node>, owner: Owner) {
    && Tidy(nodes) && NoDupArgs(nodes) && OnlyToDups(nodes)
    && forall x, j :: x in owner.defs && 0 <= j < |owner.defs[x]| ==> Opens(nodes, owner, x, j)
  }

  // The assembler's own DUPs have no arguments.
  ghost predicate NoDupArgs(nodes: seq<Node>) {
    forall k :: 0 <= k < |nodes| && IsDup(nodes[k]) ==> nodes[k].in1.NoArg? && nodes[k].in2.NoArg?
  }

  ghost predicate Opens(nodes: seq<Node>, owner: Owner, x: string, j: nat)
    requires x in owner.defs && j < |owner.defs[x]|
  {
    var i := owner.defs[x][j];
    i < |nodes| && nodes[i].d1.None? && nodes[i].d2.None? && i in owner.of && owner.of[i] == (x, j)
  }

  ghost function NewFans(defs: Variables): Fans {
    map x | x in defs :: seq(|defs[x]|, j requires 0 <= j < |defs[x]| => Fan([defs[x][j]], []))
  }

  ghost function NoUses(defs: Variables): Uses {
    map x | x in defs :: []
  }

  lemma NewFansOk(nodes: seq<Node>, owner: Owner)
    requires Parsed(nodes, owner)
    ensures FansOk(nodes, NewFans(owner.defs), owner, |nodes|)
    ensures VariablesOk(owner.defs, NewFans(owner.defs), NoUses(owner.defs))
  {
    var fans := NewFans(owner.defs);
    forall x, j | x in fans && 0 <= j < |fans[x]|
      ensures FanGood(nodes, fans[x][j], owner, |nodes|, x, j)
    {
      assert Opens(nodes, owner, x, j);
      assert FanLink(nodes, fans[x][j], 0);
    }
  }

  class Assembler {
    var nodes: seq<Node>
    var variables: Variables
    ghost var fans: Fans
    ghost var owner: Owner
    ghost var uses: Uses
    const labels: set<string>
    ghost const base: nat
    ghost const defs: Variables

    ghost predicate Hooked()
      reads this
    {
      base <= |nodes| && owner.defs == defs && FansOk(nodes, fans, owner, base) && VariablesOk(variables, fans, uses)
      && EdgesIn(nodes, Slots(uses))
    }

    constructor (parsed: seq<Node>, variables: Variables, labels: set<string>, ghost owner: Owner)
      requires owner.defs == variables && Parsed(parsed, owner)
      ensures Hooked() && nodes == parsed && this.variables == variables && this.labels == labels
      ensures base == |parsed| && defs == variables && uses == NoUses(variables)
    {
      nodes, this.variables, this.labels := parsed, variables, labels;
      fans, this.owner, uses, base, defs := NewFans(variables), owner, NoUses(variables), |parsed|, variables;
      NewFansOk(parsed, owner);
      EdgesInMore(parsed, {}, Slots(NoUses(variables)));
    }

    // The body of the inner loop: one definition gets one use.
    method Attach(x: string, p: nat, use: Dest)
      requires p < |nodes| && x in variables
      modifies this`nodes, this`variables
      ensures nodes == Attached(old(nodes), p, use)
      ensures variables == if old(nodes)[p].d1.Some? && old(nodes)[p].d2.Some? then old(variables)[x := [|old(nodes)|]] else old(variables)
    {
      var parent := p;
      if nodes[p].d1.None? {
        nodes := nodes[p := nodes[p].(d1 := Some(use))];
      } else {
        if nodes[p].d2.Some? {
          var newDup := DUP_NODE.(d1 := nodes[p].d2);
          nodes := nodes[p := nodes[p].(d2 := Some(Dest(|nodes|, INPUT_ONE)))] + [newDup];
          variables := variables[x := [|nodes| - 1]];
          parent := |nodes| - 1;
        }
        nodes := nodes[parent := nodes[parent].(d2 := Some(use))];
      }
    }

    method AttachFan(x: string, p: nat, use: Dest, ghost j: nat, ghost S: set<Dest>)
      requires EdgesIn(nodes, S) && use in S
      requires FansOk(nodes, fans, owner, base) && base <= |nodes| && use.node < base && Solid(nodes, use)
      requires x in variables
      requires x in fans && j < |fans[x]| && |fans[x][j].chain| > 0 && p == Last(fans[x][j])
      modifies this`nodes, this`variables, this`fans, this`owner
      ensures FansOk(nodes, fans, owner, base) && base <= |nodes| && Similar(old(nodes), nodes)
      ensures owner.defs == old(owner).defs && EdgesIn(nodes, S)
      ensures fans == Longer(old(fans), x, j, use, |old(nodes)|) && |fans[x][j].chain| > 0
      ensures |old(fans)[x][j].uses| < 2 ==> variables == old(variables) && Last(fans[x][j]) == Last(old(fans)[x][j])
      ensures |old(fans)[x][j].uses| >= 2 ==> variables == old(variables)[x := [Last(fans[x][j])]]
    {
      hide FansOk, Attached, Similar, Solid, EdgesIn;
      LastIsMovable(nodes, fans, owner, base, x, j);
      AttachKeeps(nodes, fans, owner, base, x, j, use);
      AttachedSimilar(nodes, p, use);
      AttachedEdgesIn(nodes, S, p, use);
      var n := |nodes|;
      Attach(x, p, use);
      fans, owner := Longer(fans, x, j, use, n), Adopt(owner, n, x, j);
    }

    // The k-th definition on record gets the use.
    method AttachNext(x: string, parents: seq<nat>, k: nat, use: Dest, ghost fs: seq<Fan>, ghost us: seq<Dest>,
                      ghost vars0: Variables, ghost fans0: Fans, ghost S: set<Dest>)
      requires EdgesIn(nodes, S) && use in S
      requires FansOk(nodes, fans, owner, base) && base <= |nodes| && use.node < base && Solid(nodes, use)
      requires k < |parents| && fs != []
      requires SameElsewhere(vars0, variables, fans0, fans, x)
      requires Partly(fs, fans[x], us, use, parents, variables[x], k)
      modifies this`nodes, this`variables, this`fans, this`owner
      ensures FansOk(nodes, fans, owner, base) && base <= |nodes| && Similar(old(nodes), nodes)
      ensures owner.defs == old(owner).defs && EdgesIn(nodes, S)
      ensures SameElsewhere(vars0, variables, fans0, fans, x) && x in fans && x in variables
      ensures Partly(fs, fans[x], us, use, parents, variables[x], k + 1)
    {
      hide FansOk, Partly, Extend, Longer, Similar, EdgesIn;
      ghost var j := NextFan(us, k, |fs|);
      PartlyHere(fs, fans[x], us, use, parents, variables[x], k);
      ghost var gs, ends, n, was, vars := fans[x], variables[x], |nodes|, fans, variables;
      AttachFan(x, parents[k], use, j, S);
      LongerIs(was, x, j, use, n);
      PartlyNext(fs, gs, us, use, parents, ends, variables[x], k, n);
    }

    // One input slot: every definition on record gets the use.
    method AttachUse(x: string, use: Dest)
      requires Hooked() && use.node < base && Solid(nodes, use)
      modifies this`nodes, this`variables, this`fans, this`owner, this`uses
      ensures Hooked() && Similar(old(nodes), nodes)
      ensures uses == if x in old(uses) then old(uses)[x := old(uses)[x] + [use]] else old(uses)
    {
      hide FansOk, Partly, Shares, EndsAre, SameElsewhere, VariablesOk, VariableOk, Similar, EdgesIn, Slots;
      SimilarSelf(nodes);
      SameNames(variables, fans, uses);
      if x !in variables { return; }
      AtVariable(variables, fans, uses, x);
      var parents := variables[x];
      ghost var fs, us := fans[x], uses[x];
      ghost var S := Slots(uses) + {use};
      EdgesInMore(nodes, Slots(uses), S);
      PartlyBegins(fs, us, use, parents);
      Elsewhere(variables, fans, x);
      for k := 0 to |parents|
        invariant FansOk(nodes, fans, owner, base) && base <= |nodes| && uses == old(uses) && Similar(old(nodes), nodes)
        invariant owner.defs == defs && Solid(nodes, use) && EdgesIn(nodes, S)
        invariant SameElsewhere(old(variables), variables, old(fans), fans, x) && x in fans && x in variables
        invariant Partly(fs, fans[x], us, use, parents, variables[x], k)
      {
        ghost var before := nodes;
        AttachNext(x, parents, k, use, fs, us, old(variables), old(fans), S);
        SimilarTrans(old(nodes), before, nodes);
        SimilarSolid(before, nodes, use);
      }
      Finished(fs, fans[x], us, use, parents, variables[x]);
      SlotsMore(uses, x, use);
      uses := uses[x := us + [use]];
      EdgesInMore(nodes, S, Slots(uses));
      StillOk(old(variables), variables, old(fans), fans, old(uses), uses, x);
    }

    // A class member that only changes arguments keeps the fans.
    method SetInput(i: nat, second: bool, arg: Arg)
      requires Hooked() && i < |nodes|
      modifies this`nodes
      ensures nodes == old(nodes)[i := SetArg(old(nodes)[i], second, arg)]
      ensures Hooked()
    {
      hide VariablesOk, EdgesIn, Slots;
      ArgsDoNotMatter(nodes, nodes[i := SetArg(nodes[i], second, arg)], fans, owner, base);
      ArgsKeepEdges(nodes, nodes[i := SetArg(nodes[i], second, arg)], Slots(uses));
      nodes := nodes[i := SetArg(nodes[i], second, arg)];
    }

    // One input of node i: a variable is hooked up and cleared, anything else stays.
    method FixInput(i: nat, second: bool)
      requires Hooked() && i < |nodes| && (GetArg(nodes[i], second).Ref? ==> i < base && !IsDup(nodes[i]))
      modifies this`nodes, this`variables, this`fans, this`owner, this`uses
      ensures Hooked()
      ensures var arg := GetArg(old(nodes)[i], second);
        && OneMore(old(uses), uses, arg, labels, Dest(i, if second then INPUT_TWO else INPUT_ONE))
        && Similar(old(nodes)[i := SetArg(old(nodes)[i], second, Cleared(arg, labels))], nodes)
        && (arg.NoArg? ==> nodes == old(nodes) && uses == old(uses))
    {
      hide Hooked, Similar;
      var arg := GetArg(nodes[i], second);
      if !arg.Ref? || (arg.name != "_" && arg.name in labels) {
        assert nodes[i := SetArg(nodes[i], second, arg)] == nodes;
        SimilarSelf(nodes);
        return;
      }
      SetInput(i, second, NoArg);
      SimilarSelf(nodes);
      if arg.name != "_" { AttachUse(arg.name, Dest(i, if second then INPUT_TWO else INPUT_ONE)); }
    }

    // One turn of the loop over the nodes.
    method FixNode(i: nat)
      requires Hooked() && i < |nodes|
      requires i >= base || IsDup(nodes[i]) ==> nodes[i].in1.NoArg? && nodes[i].in2.NoArg?
      modifies this`nodes, this`variables, this`fans, this`owner, this`uses
      ensures Hooked() && uses.Keys == old(uses).Keys
      ensures i >= base ==> nodes == old(nodes) && uses == old(uses)
      ensures Similar(old(nodes)[i := Fixed(old(nodes)[i], labels)], nodes)
      ensures forall x :: x in uses ==> uses[x] == old(uses)[x] + UseOf(old(nodes)[i].in1, labels, x, Dest(i, INPUT_ONE))
                                                   + UseOf(old(nodes)[i].in2, labels, x, Dest(i, INPUT_TWO))
    {
      hide Hooked, Similar;
      ghost var n := nodes[i];
      ghost var was1 := nodes[i := SetArg(n, false, Cleared(n.in1, labels))];
      FixInput(i, false);
      SimilarAt(was1, nodes, i);
      ghost var was2 := nodes[i := SetArg(nodes[i], true, Cleared(n.in2, labels))];
      SimilarUpdate(was1, nodes, i, was2[i]);
      FixInput(i, true);
      ghost var cleared := was1[i := SetArg(was1[i], true, Cleared(n.in2, labels))];
      SimilarTrans(cleared, was2, nodes);
      SimilarAt(cleared, nodes, i);
      SimilarUpdate(cleared, nodes, i, Settled(nodes[i]));
      assert cleared[i := Fixed(n, labels)] == old(nodes)[i := Fixed(n, labels)];
      Settle(i);
    }

    method Settle(i: nat)
      requires Hooked() && i < |nodes|
      modifies this`nodes
      ensures nodes == old(nodes)[i := Settled(old(nodes)[i])] && Hooked()
    {
      hide VariablesOk, EdgesIn, Slots;
      ArgsDoNotMatter(nodes, nodes[i := Settled(nodes[i])], fans, owner, base);
      ArgsKeepEdges(nodes, nodes[i := Settled(nodes[i])], Slots(uses));
      if Inputs(nodes[i].op) == 2 && nodes[i].in1.NoArg? && !nodes[i].in2.NoArg? {
        nodes := nodes[i := nodes[i].(in1 := nodes[i].in2, in2 := NoArg)];
      }
    }

    // The loop that fixes up the inputs; it runs over the nodes it appends, too.
    method HookInputs()
      requires Hooked() && |nodes| == base && UsesAre(uses, nodes, labels, 0) && NoDupArgs(nodes)
      modifies this`nodes, this`variables, this`fans, this`owner, this`uses
      ensures Hooked() && FixedUpTo(nodes, old(nodes), labels, base) && base == |old(nodes)|
      ensures UsesAre(uses, old(nodes), labels, base) && uses.Keys == old(uses).Keys
      ensures old(nodes) == [] ==> nodes == []
      ensures forall x, j :: x in defs && x in uses && 0 <= j < |defs[x]| ==>
        FeedsExactly(nodes, base, defs[x], UsesOf(old(nodes), labels, x, base), j)
    {
      hide Hooked, Fixed, UseOf, UsesOf, Feeds;
      ghost var was := nodes;
      var i := 0;
      while i < |nodes|
        invariant Hooked() && |was| == base <= |nodes| && uses.Keys == old(uses).Keys
        invariant FixedUpTo(nodes, was, labels, if i < base then i else base)
        invariant UsesAre(uses, was, labels, if i < base then i else base)
        invariant was == [] ==> nodes == []
        decreases if i < base then base - i else 0, |nodes| - i
      {
        ghost var nodes0, uses0 := nodes, uses;
        if i < base { assert nodes[i] == was[i].(d1 := nodes[i].d1, d2 := nodes[i].d2); }
        FixNode(i);
        if i < base {
          FixedNext(nodes0, nodes, was, labels, i);
          UsesNext(uses0, uses, was, labels, i);
        }
        i := i + 1;
      }
      AllFeed();
    }

    lemma AllFeed()
      requires Hooked()
      ensures defs.Keys == uses.Keys
      ensures forall x, j :: x in defs && 0 <= j < |defs[x]| ==> FeedsExactly(nodes, base, defs[x], uses[x], j)
    {
      hide FanOk, FanOver;
      forall x, j | x in defs && 0 <= j < |defs[x]|
        ensures FeedsExactly(nodes, base, defs[x], uses[x], j)
      {
        assert FanGood(nodes, fans[x][j], owner, base, x, j);
        assert VariableOk(variables, fans, uses, x);
        FanFeeds(nodes, base, fans[x][j]);
      }
    }
  }

  // The j-th definition of a variable feeds its share of the uses, each once and in order.
  ghost predicate FeedsExactly(nodes: seq<Node>, base: nat, defs: seq<nat>, us: seq<Dest>, j: nat) {
    && j < |defs| && defs[j] < |nodes|
    && Feeds(nodes, base, defs[j]) == Share(us, j, |defs|)
  }

  function GetArg(n: Node, second: bool): Arg {
    if second then n.in2 else n.in1
  }

  function SetArg(n: Node, second: bool, arg: Arg): Node {
    if second then n.(in2 := arg) else n.(in1 := arg)
  }

  lemma ArgsDoNotMatter(a: seq<Node>, b: seq<Node>, fans: Fans, owner: Owner, base: nat)
    requires FansOk(a, fans, owner, base) && |a| == |b|
    requires forall k :: 0 <= k < |a| ==> b[k] == a[k].(in1 := b[k].in1, in2 := b[k].in2)
    ensures FansOk(b, fans, owner, base)
  {
    hide Owned;
    forall n | 0 <= n < |b|
      ensures Onward(b, n, b[n].d1) && Onward(b, n, b[n].d2)
    {
      assert Onward(a, n, a[n].d1) && Onward(a, n, a[n].d2);
    }
    forall x, j | x in fans && 0 <= j < |fans[x]|
      ensures FanGood(b, fans[x][j], owner, base, x, j)
    {
      var f := fans[x][j];
      assert FanGood(a, f, owner, base, x, j);
      assert UsesSolid(b, f);
      forall k | 0 <= k < |f.chain| ensures FanLink(b, f, k) { assert FanLink(a, f, k); }
    }
  }

  lemma SimilarAt(a: seq<Node>, b: seq<Node>, i: nat)
    requires Similar(a, b) && i < |a|
    ensures i < |b| && b[i] == a[i].(d1 := b[i].d1, d2 := b[i].d2)
  {
  }

  // Changing the arguments of the same node in both keeps them similar.
  lemma SimilarUpdate(a: seq<Node>, b: seq<Node>, i: nat, n: Node)
    requires Similar(a, b) && i < |a| && n == b[i].(in1 := n.in1, in2 := n.in2)
    ensures Similar(a[i := a[i].(in1 := n.in1, in2 := n.in2)], b[i := n])
  {
    hide Solid;
    var a', b' := a[i := a[i].(in1 := n.in1, in2 := n.in2)], b[i := n];
    forall k | 0 <= k < |a|
      ensures KeepsOutputs(a', a'[k], b'[k])
    {
      assert KeepsOutputs(a, a[k], b[k]);
      if a[k].d2.Some? { SameSolid(a, i, a'[i], a[k].d2.value); }
    }
  }

  lemma SameSolid(a: seq<Node>, i: nat, n: Node, d: Dest)
    requires i < |a| && n.op == a[i].op && n.optimizable == a[i].optimizable
    ensures Solid(a[i := n], d) == Solid(a, d)
  {
  }

  // Only x has changed.
  ghost predicate SameElsewhere(vars: Variables, vars': Variables, fans: Fans, fans': Fans, x: string) {
    && vars.Keys == vars'.Keys == fans.Keys == fans'.Keys && x in vars
    && forall y :: y in vars && y != x ==> vars'[y] == vars[y] && fans'[y] == fans[y]
  }

  lemma StillOk(vars: Variables, vars': Variables, fans: Fans, fans': Fans, uses: Uses, uses': Uses, x: string)
    requires VariablesOk(vars, fans, uses) && SameElsewhere(vars, vars', fans, fans', x)
    requires uses'.Keys == uses.Keys && forall y :: y in uses && y != x ==> uses'[y] == uses[y]
    requires Shares(fans'[x], uses'[x]) && EndsAre(vars'[x], fans'[x], uses'[x])
    ensures VariablesOk(vars', fans', uses')
  {
    hide Shares, EndsAre;
    forall y | y in vars'
      ensures VariableOk(vars', fans', uses', y)
    {
      if y != x { assert VariableOk(vars, fans, uses, y); }
    }
  }

  lemma SameNames(vars: Variables, fans: Fans, uses: Uses)
    requires VariablesOk(vars, fans, uses)
    ensures fans.Keys == vars.Keys == uses.Keys
  {
  }

  lemma AtVariable(vars: Variables, fans: Fans, uses: Uses, x: string)
    requires VariablesOk(vars, fans, uses) && x in vars
    ensures x in fans && x in uses && Shares(fans[x], uses[x]) && EndsAre(vars[x], fans[x], uses[x])
  {
    assert VariableOk(vars, fans, uses, x);
  }

  lemma Elsewhere(vars: Variables, fans: Fans, x: string)
    requires vars.Keys == fans.Keys && x in vars
    ensures SameElsewhere(vars, vars, fans, fans, x)
  {
  }

  lemma LongerIs(fans: Fans, x: string, j: nat, use: Dest, n: nat)
    requires x in fans && j < |fans[x]|
    ensures var longer := Longer(fans, x, j, use, n);
      && longer.Keys == fans.Keys && longer[x] == fans[x][j := Extend(fans[x][j], use, n)]
      && forall y :: y in fans && y != x ==> longer[y] == fans[y]
  {
  }

  function NextFan(us: seq<Dest>, k: nat, m: nat): nat
    requires m > 0
  {
    if |us| <= 2 then k else m - 1
  }

  lemma PartlyBegins(fs: seq<Fan>, us: seq<Dest>, use: Dest, parents: seq<nat>)
    requires Shares(fs, us) && EndsAre(parents, fs, us)
    ensures Partly(fs, fs, us, use, parents, parents, 0) && (parents != [] ==> fs != [])
  {
  }

  lemma PartlyHere(fs: seq<Fan>, gs: seq<Fan>, us: seq<Dest>, use: Dest, parents: seq<nat>, ends: seq<nat>, k: nat)
    requires Partly(fs, gs, us, use, parents, ends, k) && k < |parents|
    ensures |fs| == |gs| > 0
    ensures var j := NextFan(us, k, |fs|);
      j < |gs| && |gs[j].chain| > 0 && parents[k] == Last(gs[j]) && (|gs[j].uses| >= 2 <==> |us| >= 2)
  {
  }

  lemma PartlyNext(fs: seq<Fan>, gs: seq<Fan>, us: seq<Dest>, use: Dest, parents: seq<nat>, ends: seq<nat>,
                   ends': seq<nat>, k: nat, n: nat)
    requires Partly(fs, gs, us, use, parents, ends, k) && k < |parents| && fs != []
    requires var j := NextFan(us, k, |fs|);
      j < |gs| && |gs[j].chain| > 0 && (if |us| < 2 then ends' == ends else ends' == [Last(Extend(gs[j], use, n))])
    ensures var j := NextFan(us, k, |fs|);
      j < |gs| && Partly(fs, gs[j := Extend(gs[j], use, n)], us, use, parents, ends', k + 1)
  {
  }

  // k of the parents have got the use.
  ghost predicate Partly(fs: seq<Fan>, gs: seq<Fan>, us: seq<Dest>, use: Dest, parents: seq<nat>, ends: seq<nat>, k: nat) {
    && Shares(fs, us) && EndsAre(parents, fs, us) && |gs| == |fs| && k <= |parents|
    && (forall j :: 0 <= j < |fs| ==>
          if Done(us, k, j, |fs|) then gs[j].uses == fs[j].uses + [use] && |gs[j].chain| > 0 else gs[j] == fs[j])
    && (|us| < 2 ==> ends == parents && forall j :: 0 <= j < |fs| ==> |gs[j].chain| > 0 && Last(gs[j]) == parents[j])
    && (|us| >= 2 ==> if k == 0 then ends == parents else
          var j := if |us| == 2 then k - 1 else |fs| - 1;
          j < |fs| && |gs[j].chain| > 0 && ends == [Last(gs[j])])
  }

  predicate Done(us: seq<Dest>, k: nat, j: nat, m: nat) {
    if |us| <= 2 then j < k else k > 0 && j + 1 == m
  }

  lemma Finished(fs: seq<Fan>, gs: seq<Fan>, us: seq<Dest>, use: Dest, parents: seq<nat>, ends: seq<nat>)
    requires Partly(fs, gs, us, use, parents, ends, |parents|)
    ensures Shares(gs, us + [use]) && EndsAre(ends, gs, us + [use])
  {
    var vs := us + [use];
    forall j | 0 <= j < |gs|
      ensures gs[j].uses == Share(vs, j, |gs|)
    {
      assert fs[j].uses == Share(us, j, |fs|);
      if |us| >= 3 { assert vs[..3] == us[..3]; }
    }
  }

  // ---- When fan-out is exact ----

  // Every definition feeds every use exactly when there is one definition or at most three uses.
  lemma ExactlyWhen(us: seq<Dest>, m: nat)
    ensures (forall j: nat :: j < m ==> Share(us, j, m) == us) <==> m <= 1 || |us| <= 3
  {
    if m > 1 && |us| > 3 { assert |Share(us, 0, m)| == 3; }
  }

  // No slot is listed twice: to feed the list is to feed every slot by one path.
  lemma {:induction false} UsesDiffer(nodes: seq<Node>, labels: set<string>, x: string, i: nat)
    requires i <= |nodes|
    ensures forall a, b :: 0 <= a < b < |UsesOf(nodes, labels, x, i)| ==>
      UsesOf(nodes, labels, x, i)[a] != UsesOf(nodes, labels, x, i)[b]
  {
    hide Named;
    if i > 0 { UsesDiffer(nodes, labels, x, i - 1); }
  }

  // A slot is on the list exactly if its argument names the variable.
  lemma {:induction false} UsesAreAll(nodes: seq<Node>, labels: set<string>, x: string, i: nat, d: Dest)
    requires i <= |nodes|
    ensures d in UsesOf(nodes, labels, x, i) <==>
      && d.node < i
      && ((d.input == INPUT_ONE && Named(nodes[d.node].in1, labels) == Some(x))
          || (d.input == INPUT_TWO && Named(nodes[d.node].in2, labels) == Some(x)))
  {
    hide Named;
    if i > 0 { UsesAreAll(nodes, labels, x, i - 1, d); }
  }

  // Every slot of the lists is an input that names a variable.
  lemma SlotsAreNamed(uses: Uses, nodes: seq<Node>, labels: set<string>, d: Dest)
    requires UsesAre(uses, nodes, labels, |nodes|) && d in Slots(uses)
    ensures d.node < |nodes|
    ensures Named((if d.input == INPUT_ONE then nodes[d.node].in1 else nodes[d.node].in2), labels).Some?
  {
    hide Named, UsesOf;
    var x, k :| x in uses && 0 <= k < |uses[x]| && uses[x][k] == d;
    UsesAreAll(nodes, labels, x, |nodes|, d);
  }

  // A node that a variable is hooked to keeps an input without a literal for it.
  lemma UseHasRoom(n: Node, labels: set<string>)
    requires Named(n.in1, labels).Some? || (Inputs(n.op) == 2 && Named(n.in2, labels).Some?)
    ensures Inputs(n.op) == 2 ==> Fixed(n, labels).in1.NoArg? || Fixed(n, labels).in2.NoArg?
  {
  }
}
