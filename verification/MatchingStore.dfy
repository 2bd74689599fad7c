// The waiting table of the matching unit: buckets of linked nodes, behaving as a map from
// (tag, address) to the token that waits there.
module MatchingStore {
  import opened Words
  import opened Types
  import opened Machine

  // key_to_index; the sum is taken modulo 2^64
  function Index(k: Key, size: nat): (i: nat)
    requires size > 0
    ensures i < size
  {
    Mod(Sum(k) as int, size)
  }

  function Sum(k: Key): bv64 { k.tag + k.address as bv64 }

  function Mod(x: int, size: nat): (i: nat)
    requires size > 0
    ensures i < size
  {
    x % size
  }

  class Node {
    const key: Key
    const value: Token
    var next: Node?

    constructor (key: Key, value: Token, next: Node?)
      ensures this.key == key && this.value == value && this.next == next
    {
      this.key, this.value, this.next := key, value, next;
    }
  }

  datatype Bucket = EMPTY | LIST(head: Node)

  // ---- Chains as values ----

  ghost function Find(c: seq<Node>, k: Key): Option<Token> {
    if c == [] then None else if c[0].key == k then Some(c[0].value) else Find(c[1..], k)
  }

  ghost predicate DistinctKeys(c: seq<Node>) {
    forall i, j :: 0 <= i < j < |c| ==> c[i].key != c[j].key
  }

  ghost predicate BelongTo(c: seq<Node>, i: nat, size: nat)
    requires size > 0
  {
    forall n :: n in c ==> Index(n.key, size) == i
  }

  lemma {:induction false} FindNone(c: seq<Node>, k: Key)
    requires forall n :: n in c ==> n.key != k
    ensures Find(c, k) == None
  {
    if c != [] {
      assert forall n :: n in c[1..] ==> n in c;
      FindNone(c[1..], k);
    }
  }

  lemma {:induction false} FindAt(c: seq<Node>, j: nat)
    requires DistinctKeys(c) && j < |c|
    ensures Find(c, c[j].key) == Some(c[j].value)
  {
    if j > 0 { FindAt(c[1..], j - 1); }
  }

  lemma {:induction false} FindWithout(c: seq<Node>, j: nat, k: Key)
    requires DistinctKeys(c) && j < |c|
    ensures Find(c[..j] + c[j + 1..], k) == if k == c[j].key then None else Find(c, k)
  {
    var d := c[..j] + c[j + 1..];
    if j == 0 {
      assert d == c[1..];
      if k == c[0].key { FindNone(d, k); }
    } else {
      assert d[0] == c[0] && d[1..] == c[1..][..j - 1] + c[1..][j..];
      FindWithout(c[1..], j - 1, k);
      assert c[1..][j - 1] == c[j];
    }
  }

  // The chains hold exactly the entries of m, each in its own bucket.
  ghost predicate Represents(chains: seq<seq<Node>>, m: Waiting) {
    |chains| > 0 && forall k :: Find(chains[Index(k, |chains|)], k) == Value(m, k)
  }

  ghost function Value(m: Waiting, k: Key): Option<Token> {
    if k in m then Some(m[k]) else None
  }

  ghost predicate Sorted(chains: seq<seq<Node>>) {
    |chains| > 0 && forall i :: 0 <= i < |chains| ==> BelongTo(chains[i], i, |chains|) && DistinctKeys(chains[i])
  }

  lemma RepresentsPush(chains: seq<seq<Node>>, m: Waiting, n: Node)
    requires Represents(chains, m) && Sorted(chains) && n.key !in m
    ensures var i := Index(n.key, |chains|);
      var after := chains[i := [n] + chains[i]];
      Represents(after, m[n.key := n.value]) && Sorted(after)
  {
    hide Index;
    var i := Index(n.key, |chains|);
    var c := [n] + chains[i];
    var after := chains[i := c];
    NotIn(chains[i], n.key);
    assert c[1..] == chains[i];
    forall k
      ensures Find(after[Index(k, |after|)], k) == Value(m[n.key := n.value], k)
    {
      assert Find(chains[Index(k, |chains|)], k) == Value(m, k);
    }
    assert BelongTo(c, i, |chains|) && DistinctKeys(c);
  }

  // A key that is not found is no node's key.
  lemma NotIn(c: seq<Node>, k: Key)
    requires DistinctKeys(c) && Find(c, k) == None
    ensures forall n :: n in c ==> n.key != k
  {
    forall n | n in c
      ensures n.key != k
    {
      var j :| 0 <= j < |c| && c[j] == n;
      FindAt(c, j);
    }
  }

  lemma RepresentsDrop(chains: seq<seq<Node>>, m: Waiting, k: Key, j: nat)
    requires Represents(chains, m) && Sorted(chains)
    requires j < |chains[Index(k, |chains|)]| && chains[Index(k, |chains|)][j].key == k
    ensures var i := Index(k, |chains|);
      var after := chains[i := chains[i][..j] + chains[i][j + 1..]];
      Represents(after, m - {k}) && Sorted(after)
  {
    hide Index;
    var i := Index(k, |chains|);
    var d := chains[i][..j] + chains[i][j + 1..];
    var after := chains[i := d];
    forall x
      ensures Find(after[Index(x, |after|)], x) == Value(m - {k}, x)
    {
      assert Find(chains[Index(x, |chains|)], x) == Value(m, x);
      if Index(x, |chains|) == i { FindWithout(chains[i], j, x); }
    }
    assert forall n :: n in d ==> n in chains[i];
    assert DistinctKeys(d);
  }

  lemma SortedSize(chains: seq<seq<Node>>)
    requires Sorted(chains)
    ensures |chains| > 0
  {
  }

  // ---- The table ----

  ghost predicate Linked(c: seq<Node>)
    reads c
  {
    forall j :: 0 <= j < |c| ==> LinkedAt(c, j)
  }

  ghost predicate LinkedAt(c: seq<Node>, j: nat)
    requires j < |c|
    reads c[j]
  {
    c[j].next == if j + 1 < |c| then c[j + 1] else null
  }

  lemma LinkedPush(n: Node, c: seq<Node>)
    requires Linked(c) && n.next == if c == [] then null else c[0]
    ensures Linked([n] + c)
  {
    var d := [n] + c;
    forall j | 0 <= j < |d|
      ensures LinkedAt(d, j)
    {
      if j > 0 { assert LinkedAt(c, j - 1); }
    }
  }

  lemma LinkedTail(c: seq<Node>)
    requires Linked(c) && c != []
    ensures Linked(c[1..])
  {
    forall j | 0 <= j < |c[1..]|
      ensures LinkedAt(c[1..], j)
    {
      assert LinkedAt(c, j + 1);
    }
  }

  // Past the node at j everything is linked as before.
  lemma LinkedDrop(c: seq<Node>, j: nat)
    requires 0 < j < |c| && c[j - 1].next == if j + 1 < |c| then c[j + 1] else null
    requires forall k :: 0 <= k < |c| && k != j - 1 ==> LinkedAt(c, k)
    ensures Linked(c[..j] + c[j + 1..])
  {
    var d := c[..j] + c[j + 1..];
    forall k | 0 <= k < |d|
      ensures LinkedAt(d, k)
    {
      if k < j - 1 { assert LinkedAt(c, k); }
      if k >= j { assert LinkedAt(c, k + 1); }
    }
  }

  lemma FindWhere(c: seq<Node>, k: Key)
    requires Find(c, k).Some?
    ensures exists j :: 0 <= j < |c| && c[j].key == k
  {
    if forall n :: n in c ==> n.key != k { FindNone(c, k); }
  }

  // A node is in one chain only.
  lemma Apart(chains: seq<seq<Node>>, i: nat, n: Node)
    requires Sorted(chains) && i < |chains| && n in chains[i]
    ensures forall j :: 0 <= j < |chains| && j != i ==> n !in chains[j]
  {
    hide Index;
  }

  lemma NodesDiffer(chains: seq<seq<Node>>, i: nat)
    requires Sorted(chains) && i < |chains|
    ensures forall j, k :: 0 <= j < k < |chains[i]| ==> chains[i][j] != chains[i][k]
  {
  }

  ghost predicate HeadOk(b: Bucket, c: seq<Node>) {
    if c == [] then b.EMPTY? else b == LIST(c[0])
  }

  class TokenWaitingTable {
    const table: array<Bucket>
    ghost var chains: seq<seq<Node>>
    ghost var nodes: set<Node>
    ghost var contents: Waiting

    ghost predicate Valid()
      reads this, table, nodes
    {
      && table.Length == |chains|
      && (forall i, n :: 0 <= i < |chains| && n in chains[i] ==> n in nodes)
      && (forall i :: 0 <= i < |chains| ==> HeadOk(table[i], chains[i]) && Linked(chains[i]))
      && Sorted(chains) && Represents(chains, contents)
    }

    constructor (size: nat)
      requires size > 0
      ensures Valid() && contents == map[] && fresh(table) && nodes == {}
    {
      table := new Bucket[size];
      contents, nodes := map[], {};
      chains := seq(size, i => []);
      new;
      for i := 0 to size
        invariant forall j :: 0 <= j < i ==> table[j] == EMPTY
        invariant contents == map[] && nodes == {} && chains == seq(size, i => [])
      {
        table[i] := EMPTY;
      }
    }

    // The search loop of run_matching_unit.
    method Lookup(key: Key) returns (found: Option<Token>)
      requires Valid()
      ensures found == Value(contents, key)
    {
      hide Sorted, Index;
      var i := Index(key, table.Length);
      ghost var c := chains[i];
      if table[i].EMPTY? { return None; }
      var cur: Node? := table[i].head;
      ghost var j := 0;
      while cur != null
        invariant 0 <= j <= |c| && cur == (if j < |c| then c[j] else null)
        invariant Find(c[j..], key) == Find(c, key)
        decreases |c| - j
      {
        if cur.key == key { return Some(cur.value); }
        assert c[j..][1..] == c[j + 1..];
        assert LinkedAt(c, j);
        cur := cur.next;
        j := j + 1;
      }
      return None;
    }

    // add_to_waiting_table
    method Add(key: Key, token: Token)
      requires Valid() && key !in contents
      modifies this`chains, this`nodes, this`contents, table
      ensures Valid() && contents == old(contents)[key := token]
      ensures fresh(nodes - old(nodes))
    {
      hide Sorted, Index, Represents;
      SortedSize(chains);
      var i := Index(key, table.Length);
      var next: Node? := null;
      if table[i].LIST? { next := table[i].head; }
      var n := new Node(key, token, next);
      table[i] := LIST(n);
      RepresentsPush(chains, contents, n);
      LinkedPush(n, chains[i]);
      chains := chains[i := [n] + chains[i]];
      nodes := nodes + {n};
      contents := contents[key := token];
    }

    // Take the first node of bucket i out of its chain.
    method RemoveHead(i: nat, key: Key)
      requires Valid() && i == Index(key, |chains|) && chains[i] != [] && chains[i][0].key == key
      modifies this`chains, this`contents, table
      ensures Valid() && contents == old(contents) - {key}
    {
      hide Sorted, Index, Represents;
      ghost var c := chains[i];
      assert LinkedAt(c, 0);
      var head := table[i].head;
      if head.next == null {
        table[i] := EMPTY;
      } else {
        table[i] := LIST(head.next);
      }
      RepresentsDrop(chains, contents, key, 0);
      LinkedTail(c);
      assert c[..0] + c[0 + 1..] == c[1..];
      chains := chains[i := c[1..]];
      contents := contents - {key};
    }

    // Take the node behind prev out of its chain.
    method RemoveAfter(i: nat, key: Key, prev: Node, cur: Node, ghost j: nat)
      requires Valid() && i == Index(key, |chains|) && 0 < j < |chains[i]|
      requires prev == chains[i][j - 1] && cur == chains[i][j] && cur.key == key
      modifies this`chains, this`contents, prev
      ensures Valid() && contents == old(contents) - {key}
    {
      hide Sorted, Index, Represents, BelongTo;
      ghost var c := chains[i];
      Apart(chains, i, prev);
      NodesDiffer(chains, i);
      assert LinkedAt(c, j);
      prev.next := cur.next;
      forall k | 0 <= k < |c| && k != j - 1
        ensures LinkedAt(c, k)
      {
        assert old(LinkedAt(c, k)) && c[k] != prev;
      }
      LinkedDrop(c, j);
      RepresentsDrop(chains, contents, key, j);
      ghost var d := c[..j] + c[j + 1..];
      chains := chains[i := d];
      contents := contents - {key};
    }

    // remove_from_waiting_table
    method Remove(key: Key)
      requires Valid() && key in contents
      modifies this`chains, this`contents, table, nodes
      ensures Valid() && contents == old(contents) - {key}
    {
      hide Sorted, Index;
      var i := Index(key, table.Length);
      ghost var c := chains[i];
      assert Find(c, key) == Value(contents, key);
      FindWhere(c, key);
      if table[i].head.key == key {
        RemoveHead(i, key);
        return;
      }
      var prev := table[i].head;
      assert LinkedAt(c, 0);
      var cur := prev.next;
      ghost var j := 1;
      while cur != null
        invariant 1 <= j <= |c| && prev == c[j - 1] && cur == (if j < |c| then c[j] else null)
        invariant forall k :: 0 <= k < j ==> c[k].key != key
        invariant Valid() && chains == old(chains) && contents == old(contents)
        decreases |c| - j
      {
        if cur.key == key {
          RemoveAfter(i, key, prev, cur, j);
          return;
        }
        assert LinkedAt(c, j);
        prev := cur;
        cur := cur.next;
        j := j + 1;
      }
    }

    // One token arrives: exactly what Machine says of a table that is a map.
    method Receive(token: Token) returns (sent: Option<Item>)
      requires Valid()
      modifies this`chains, this`nodes, this`contents, table, nodes
      ensures Valid() && (sent, contents) == Match(old(contents), token)
      ensures fresh(nodes - old(nodes))
    {
      hide KeyOf, MatchingOf, InOrder, Valid, Index;
      var f := MatchingOf(token.destination);
      if f == MATCHING_ONE || f == MATCHING_ANY { return Some(ToDispatch(Single(token))); }
      if f != MATCHING_BOTH { return None; }
      var key := KeyOf(token);
      var found := Lookup(key);
      if found.None? {
        Add(key, token);
        return None;
      }
      Remove(key);
      return Some(ToDispatch(InOrder(token, found.value)));
    }
  }
}
