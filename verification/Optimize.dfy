// Removing DUPs that only pass tokens on: what every output reaches stays the same.
module Optimize {
  import opened Words
  import opened Types
  import opened IrGraph

  // The slots an edge reaches once the assembler's own DUPs have passed its token on, in order.
  function Leaves(nodes: seq<Node>, d: Dest): seq<Dest>
    decreases |nodes| - d.node
  {
    if d.node < |nodes| && IsDup(nodes[d.node])
    then Onwards(nodes, d.node, nodes[d.node].d1) + Onwards(nodes, d.node, nodes[d.node].d2)
    else [d]
  }

  // ... for an output of DUP k.
  function Onwards(nodes: seq<Node>, k: nat, e: Option<Dest>): seq<Dest>
    requires k < |nodes|
    decreases |nodes| - k, 0
  {
    if e.None? then [] else if k < e.value.node < |nodes| then Leaves(nodes, e.value) else [e.value]
  }

  function Reached(nodes: seq<Node>, e: Option<Dest>): seq<Dest> {
    if e.None? then [] else Leaves(nodes, e.value)
  }

  lemma OnwardsReached(nodes: seq<Node>, k: nat, e: Option<Dest>)
    requires k < |nodes| && IsDup(nodes[k]) && Onward(nodes, k, e)
    ensures Onwards(nodes, k, e) == Reached(nodes, e)
  {
  }

  // Output `first` or second of p, which leads to m, now leads where m's one output leads.
  function Bypassed(nodes: seq<Node>, p: nat, first: bool, m: nat): seq<Node>
    requires p < |nodes| && m < |nodes|
  {
    nodes[p := if first then nodes[p].(d1 := nodes[m].d1) else nodes[p].(d2 := nodes[m].d1)]
  }

  predicate LeadsTo(e: Option<Dest>, m: nat) {
    e.Some? && e.value.node == m
  }

  // p reaches m by the named output, and m is a pass-through.
  ghost predicate CanBypass(nodes: seq<Node>, p: nat, first: bool, m: nat) {
    && p < |nodes| && m < |nodes| && IsDup(nodes[m]) && nodes[m].d2.None?
    && LeadsTo(if first then nodes[p].d1 else nodes[p].d2, m)
  }

  lemma BypassTidy(nodes: seq<Node>, p: nat, first: bool, m: nat)
    requires Tidy(nodes) && CanBypass(nodes, p, first, m)
    ensures Tidy(Bypassed(nodes, p, first, m))
  {
    hide IsInput;
    var r := Bypassed(nodes, p, first, m);
    assert Onward(nodes, p, nodes[p].d1) && Onward(nodes, p, nodes[p].d2);
    assert Onward(nodes, m, nodes[m].d1);
    forall n | 0 <= n < |r|
      ensures Onward(r, n, r[n].d1) && Onward(r, n, r[n].d2)
    {
      assert Onward(nodes, n, nodes[n].d1) && Onward(nodes, n, nodes[n].d2);
    }
  }

  lemma PassThrough(nodes: seq<Node>, p: nat, m: nat, e: Option<Dest>)
    requires Tidy(nodes) && p < |nodes| && m < |nodes| && IsDup(nodes[p]) && IsDup(nodes[m]) && nodes[m].d2.None?
    requires LeadsTo(e, m) && Onward(nodes, p, e)
    ensures Onwards(nodes, p, e) == Onwards(nodes, p, nodes[m].d1) && Onward(nodes, p, nodes[m].d1)
  {
    assert Onward(nodes, m, nodes[m].d1);
    OnwardsReached(nodes, m, nodes[m].d1);
    OnwardsReached(nodes, p, nodes[m].d1);
    OneOutput(nodes, e.value);
  }

  lemma OneOutput(nodes: seq<Node>, d: Dest)
    requires d.node < |nodes| && IsDup(nodes[d.node]) && nodes[d.node].d2.None?
    ensures Leaves(nodes, d) == Onwards(nodes, d.node, nodes[d.node].d1)
  {
    assert Onwards(nodes, d.node, nodes[d.node].d1) + [] == Onwards(nodes, d.node, nodes[d.node].d1);
  }

  // Going round a pass-through changes nothing that any edge reaches.
  lemma {:induction false} BypassReaches(nodes: seq<Node>, p: nat, first: bool, m: nat, d: Dest)
    requires Tidy(nodes) && CanBypass(nodes, p, first, m)
    ensures Leaves(Bypassed(nodes, p, first, m), d) == Leaves(nodes, d)
    decreases |nodes| - d.node
  {
    var r, k := Bypassed(nodes, p, first, m), d.node;
    if k < |nodes| && IsDup(nodes[k]) {
      BypassTidy(nodes, p, first, m);
      assert Onward(nodes, k, nodes[k].d1) && Onward(nodes, k, nodes[k].d2);
      assert Onward(r, k, r[k].d1) && Onward(r, k, r[k].d2);
      BypassOutput(nodes, p, first, m, k, nodes[k].d1);
      BypassOutput(nodes, p, first, m, k, nodes[k].d2);
      if k == p {
        PassThrough(nodes, p, m, if first then nodes[p].d1 else nodes[p].d2);
        BypassOutput(nodes, p, first, m, p, nodes[m].d1);
      }
    }
  }

  lemma {:induction false} BypassOutput(nodes: seq<Node>, p: nat, first: bool, m: nat, k: nat, e: Option<Dest>)
    requires Tidy(nodes) && CanBypass(nodes, p, first, m) && k < |nodes|
    ensures Onwards(Bypassed(nodes, p, first, m), k, e) == Onwards(nodes, k, e)
    decreases |nodes| - k, 0
  {
    if e.Some? && k < e.value.node < |nodes| { BypassReaches(nodes, p, first, m, e.value); }
  }

  // Every output of every node reaches the same slots in both graphs.
  ghost predicate SameReach(a: seq<Node>, b: seq<Node>) {
    |a| == |b| && forall n :: 0 <= n < |a| ==> SameOutputs(a, b, n)
  }

  ghost predicate SameOutputs(a: seq<Node>, b: seq<Node>, n: nat)
    requires n < |a| == |b|
  {
    && b[n] == a[n].(d1 := b[n].d1, d2 := b[n].d2)
    && Reached(b, b[n].d1) == Reached(a, a[n].d1)
    && Reached(b, b[n].d2) == Reached(a, a[n].d2)
  }

  lemma SameReachTrans(a: seq<Node>, b: seq<Node>, c: seq<Node>)
    requires SameReach(a, b) && SameReach(b, c)
    ensures SameReach(a, c)
  {
    hide Reached;
    forall n | 0 <= n < |a| ensures SameOutputs(a, c, n) { assert SameOutputs(a, b, n) && SameOutputs(b, c, n); }
  }

  lemma BypassSame(nodes: seq<Node>, p: nat, first: bool, m: nat)
    requires Tidy(nodes) && CanBypass(nodes, p, first, m)
    ensures SameReach(nodes, Bypassed(nodes, p, first, m)) && Tidy(Bypassed(nodes, p, first, m))
  {
    BypassTidy(nodes, p, first, m);
    forall n | 0 <= n < |nodes|
      ensures SameOutputs(nodes, Bypassed(nodes, p, first, m), n)
    {
      if nodes[n].d1.Some? { BypassReaches(nodes, p, first, m, nodes[n].d1.value); }
      if nodes[n].d2.Some? { BypassReaches(nodes, p, first, m, nodes[n].d2.value); }
      if n == p { BypassTarget(nodes, p, first, m); }
    }
  }

  lemma BypassTarget(nodes: seq<Node>, p: nat, first: bool, m: nat)
    requires Tidy(nodes) && CanBypass(nodes, p, first, m)
    ensures Reached(Bypassed(nodes, p, first, m), nodes[m].d1) == Reached(nodes, if first then nodes[p].d1 else nodes[p].d2)
  {
    assert Onward(nodes, m, nodes[m].d1);
    OnwardsReached(nodes, m, nodes[m].d1);
    OneOutput(nodes, (if first then nodes[p].d1 else nodes[p].d2).value);
    if nodes[m].d1.Some? { BypassReaches(nodes, p, first, m, nodes[m].d1.value); }
  }

  // ---- optimize_graph ----

  type Parents = map<nat, seq<nat>>

  function ParentsOf(parents: Parents, n: nat): seq<nat> {
    if n in parents then parents[n] else []
  }

  function AddParent(parents: Parents, e: Option<Dest>, p: nat): Parents {
    if e.None? then parents else parents[e.value.node := ParentsOf(parents, e.value.node) + [p]]
  }

  // Whoever is on record as a parent has the edge.
  ghost predicate OnRecord(parents: Parents, nodes: seq<Node>, n: nat) {
    forall p :: p in ParentsOf(parents, n) ==> p < |nodes| && (LeadsTo(nodes[p].d1, n) || LeadsTo(nodes[p].d2, n))
  }

  lemma AddKeeps(parents: Parents, nodes: seq<Node>, e: Option<Dest>, p: nat)
    requires p < |nodes| && (e == nodes[p].d1 || e == nodes[p].d2)
    requires forall n: nat :: OnRecord(parents, nodes, n)
    ensures forall n: nat :: OnRecord(AddParent(parents, e, p), nodes, n)
  {
    forall n: nat
      ensures OnRecord(AddParent(parents, e, p), nodes, n)
    {
      assert OnRecord(parents, nodes, n);
    }
  }

  // How many outputs of the first k live nodes lead to n.
  function EdgesTo(nodes: seq<Node>, live: seq<nat>, k: nat, n: nat): nat
    requires k <= |live| && forall j :: 0 <= j < |live| ==> live[j] < |nodes|
  {
    if k == 0 then 0 else
      EdgesTo(nodes, live, k - 1, n) + (if LeadsTo(nodes[live[k - 1]].d1, n) then 1 else 0)
        + (if LeadsTo(nodes[live[k - 1]].d2, n) then 1 else 0)
  }

  method FindParents(nodes: seq<Node>, live: seq<nat>) returns (parents: Parents)
    requires forall k :: 0 <= k < |live| ==> live[k] < |nodes|
    ensures forall n: nat :: OnRecord(parents, nodes, n)
    ensures forall n: nat :: |ParentsOf(parents, n)| == EdgesTo(nodes, live, |live|, n)
  {
    parents := map[];
    for k := 0 to |live|
      invariant forall n: nat :: OnRecord(parents, nodes, n)
      invariant forall n: nat :: |ParentsOf(parents, n)| == EdgesTo(nodes, live, k, n)
    {
      var p := live[k];
      AddKeeps(parents, nodes, nodes[p].d1, p);
      parents := AddParent(parents, nodes[p].d1, p);
      AddKeeps(parents, nodes, nodes[p].d2, p);
      parents := AddParent(parents, nodes[p].d2, p);
    }
  }

  predicate Distinct(q: seq<nat>) {
    forall i, j :: 0 <= i < j < |q| ==> q[i] != q[j]
  }

  // The nodes of q without n.
  function Without(q: seq<nat>, n: nat): seq<nat> {
    if q == [] then [] else if q[0] == n then q[1..] else [q[0]] + Without(q[1..], n)
  }

  lemma {:induction false} WithoutIs(q: seq<nat>, n: nat)
    requires Distinct(q)
    ensures Distinct(Without(q, n)) && forall m :: m in Without(q, n) <==> m in q && m != n
    ensures q != [] && q[0] != n ==> Without(q, n) != [] && Without(q, n)[0] == q[0]
  {
    if q != [] && q[0] != n {
      WithoutIs(q[1..], n);
      var r := Without(q[1..], n);
      forall m ensures m in Without(q, n) <==> m in q && m != n {
        assert m in q <==> m == q[0] || m in q[1..];
      }
      forall j | 0 <= j < |r| ensures r[j] != q[0] { assert r[j] in q[1..]; }
    }
  }

  // A DUP of the assembler's own with one incoming edge.
  predicate HasOneParent(nodes: seq<Node>, live: seq<nat>, n: nat)
    requires forall k :: 0 <= k < |live| ==> live[k] < |nodes|
  {
    n < |nodes| && IsDup(nodes[n]) && EdgesTo(nodes, live, |live|, n) == 1
  }

  // Only DUPs with one parent are taken out, and the nodes that are left keep their order at the front.
  ghost predicate OnlyDupsGone(nodes: seq<Node>, live: seq<nat>, left: seq<nat>)
    requires forall k :: 0 <= k < |live| ==> live[k] < |nodes|
  {
    && Distinct(left) && (forall n :: n in left ==> n in live)
    && (forall n :: n in live && n !in left ==> HasOneParent(nodes, live, n))
    && (live != [] && live[0] < |nodes| && !IsDup(nodes[live[0]]) ==> left != [] && left[0] == live[0])
  }

  lemma DupGone(nodes: seq<Node>, live: seq<nat>, left: seq<nat>, n: nat)
    requires forall k :: 0 <= k < |live| ==> live[k] < |nodes|
    requires OnlyDupsGone(nodes, live, left) && HasOneParent(nodes, live, n)
    ensures OnlyDupsGone(nodes, live, Without(left, n))
    ensures forall m :: m in Without(left, n) <==> m in left && m != n
  {
    hide EdgesTo;
    WithoutIs(left, n);
  }

  // e is an edge of the graph.
  ghost predicate IsEdge(nodes: seq<Node>, e: Dest) {
    exists n :: 0 <= n < |nodes| && HasEdge(nodes[n], e)
  }

  predicate HasEdge(n: Node, e: Dest) { n.d1 == Some(e) || n.d2 == Some(e) }

  ghost predicate NoNewEdges(a: seq<Node>, b: seq<Node>) {
    forall n, e :: 0 <= n < |b| && HasEdge(b[n], e) ==> IsEdge(a, e)
  }

  lemma BypassNoNewEdges(a: seq<Node>, b: seq<Node>, p: nat, first: bool, m: nat)
    requires NoNewEdges(a, b) && p < |b| && m < |b|
    ensures NoNewEdges(a, Bypassed(b, p, first, m))
  {
    var r := Bypassed(b, p, first, m);
    forall n, e | 0 <= n < |r| && HasEdge(r[n], e)
      ensures IsEdge(a, e)
    {
      assert HasEdge(b[n], e) || HasEdge(b[m], e);
    }
  }

  lemma SameEdges(a: seq<Node>)
    ensures NoNewEdges(a, a)
  {
  }

  // The pass: nodes are visited in their old order, the parents on record are those from before.
  method OptimizeGraph(nodes: seq<Node>, live: seq<nat>) returns (after: seq<Node>, left: seq<nat>)
    requires Tidy(nodes) && Distinct(live) && forall k :: 0 <= k < |live| ==> live[k] < |nodes|
    ensures SameReach(nodes, after) && Tidy(after)
    ensures OnlyDupsGone(nodes, live, left) && NoNewEdges(nodes, after)
    ensures forall n :: n in live && nodes[n].d2.None? && HasOneParent(nodes, live, n) ==> n !in left
  {
    hide Tidy, Reached, SameReach, Without, OnlyDupsGone, EdgesTo, NoNewEdges;
    var parents := FindParents(nodes, live);
    after, left := nodes, live;
    SameReachSelf(nodes);
    NoneGone(nodes, live);
    SameEdges(nodes);
    for k := 0 to |live|
      invariant |after| == |nodes| && Tidy(after) && SameReach(nodes, after)
      invariant OnlyDupsGone(nodes, live, left) && NoNewEdges(nodes, after)
      invariant forall j :: k <= j < |live| ==> OnRecord(parents, after, live[j])
      invariant forall n :: 0 <= n < |nodes| && nodes[n].d2.None? ==> after[n].d2.None?
      invariant forall j :: 0 <= j < k && nodes[live[j]].d2.None? && HasOneParent(nodes, live, live[j]) ==> live[j] !in left
    {
      var n := live[k];
      assert OnRecord(parents, after, n);
      SameNode(nodes, after, n);
      if after[n].op == Op(DUP) && |ParentsOf(parents, n)| == 1 && after[n].d2.None? && after[n].optimizable {
        var parent := ParentsOf(parents, n)[0];
        assert parent in ParentsOf(parents, n);
        ghost var before := after;
        if LeadsTo(after[parent].d1, n) {
          BypassSame(after, parent, true, n);
          BypassNoNewEdges(nodes, after, parent, true, n);
          after := after[parent := after[parent].(d1 := after[n].d1)];
        } else if LeadsTo(after[parent].d2, n) {
          BypassSame(after, parent, false, n);
          BypassNoNewEdges(nodes, after, parent, false, n);
          after := after[parent := after[parent].(d2 := after[n].d1)];
        } else {
          assert false;
        }
        DupGone(nodes, live, left, n);
        left := Without(left, n);
        SameReachTrans(nodes, before, after);
      }
    }
  }

  lemma NoneGone(nodes: seq<Node>, live: seq<nat>)
    requires Distinct(live) && forall k :: 0 <= k < |live| ==> live[k] < |nodes|
    ensures OnlyDupsGone(nodes, live, live)
  {
  }

  lemma SameReachSelf(a: seq<Node>)
    ensures SameReach(a, a)
  {
  }

  lemma SameNode(a: seq<Node>, b: seq<Node>, n: nat)
    requires SameReach(a, b) && n < |a|
    ensures |a| == |b| && b[n] == a[n].(d1 := b[n].d1, d2 := b[n].d2)
  {
    assert SameOutputs(a, b, n);
  }
}
