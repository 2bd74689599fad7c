// Trap mode: the tokens of user code wait in a hash table until the handler lets them go.
module Trap {
  import opened Words
  import opened Types
  import Bits
  import HT = HashTable
  import opened Machine

  // The key a token waits under: a destination word.
  datatype TrapKey = TrapKey(word: bv32)

  type Table = map<TrapKey, Token>

  const TRAP_CODE_LIMIT: bv32 := 100

  // kh_int64_hash_func
  function HashBits(key: bv64): bv32 { (((key >> 33) ^ key ^ (key << 11)) & 0xFFFF_FFFF) as bv32 }

  function Low(n: int): Bits.u32 { n % 0x1_0000_0000 }

  function Hash(key: TrapKey): Bits.u32 { Low(HashBits(key.word as bv64) as int) }

  // What random() draws for one trapped token: the handler's tag and the key.
  datatype Draw = Draw(area: bv32, key: TrapKey)

  // One packet, the area NTG would draw, and the draws for its two outputs.
  datatype Event = Event(packet: Packet, area: bv32, first: Draw, second: Draw)

  // The table, everything sent in order, and the history of the trapped tokens.
  datatype Unit = Unit(table: Table, out: seq<Token>, trapped: multiset<Token>, released: multiset<Token>,
                       discarded: multiset<Token>, plain: multiset<Token>)

  function Results(e: Event): seq<Token> {
    FunctionUnit(e.packet, e.area)
  }

  function AnswerKey(e: Event): TrapKey
    requires |Results(e)| > 0
  {
    TrapKey(Results(e)[0].destination)
  }

  // An RTD to a pending key is the handler's answer.
  predicate Answers(table: Table, e: Event) {
    e.packet.opcode.RTD? && |Results(e)| > 0 && AnswerKey(e) in table
  }

  predicate UserCode(p: Packet) {
    (Address(p.input) & 0xFFFF) >= TRAP_CODE_LIMIT
  }

  // What the handler gets to see of a trapped token.
  function Notice(input: Destination, t: Token, d: Draw): seq<Token> {
    [ToHandler(0, HashBits(input as bv64), d.area), ToHandler(1, HashBits(t.destination as bv64), d.area),
     ToHandler(2, d.key.word, d.area)]
  }

  function ToHandler(address: bv32, data: bv32, area: bv32): Token {
    Token(CreateDestination(address, INPUT_ONE, MATCHING_ONE), data as Data, area as TagBits)
  }

  // single_step_token
  function Catch(u: Unit, input: Destination, t: Token, d: Draw): Unit {
    u.(table := u.table[d.key := t], out := u.out + Notice(input, t, d), trapped := u.trapped + multiset{t})
  }

  // One turn of run_processing_unit in trap mode.
  function Turn(u: Unit, e: Event): Unit {
    var results := Results(e);
    if Answers(u.table, e) then
      var key := AnswerKey(e);
      var token := u.table[key];
      if results[0].data == 1
      then u.(table := u.table - {key}, out := u.out + [token], released := u.released + multiset{token})
      else u.(table := u.table - {key}, discarded := u.discarded + multiset{token})
    else if UserCode(e.packet) && |results| > 0 then
      var one := Catch(u, e.packet.input, results[0], e.first);
      if |results| == 2 then Catch(one, e.packet.input, results[1], e.second) else one
    else u.(out := u.out + results, plain := u.plain + multiset(results))
  }

  // ---- The tokens in a table ----

  ghost function ValuesOf<K, V>(m: map<K, V>, ks: set<K>): (v: multiset<V>)
    requires ks <= m.Keys
    ensures |v| == |ks|
    decreases |ks|
  {
    if ks == {} then multiset{} else
      var k :| k in ks;
      ValuesOf(m, ks - {k}) + multiset{m[k]}
  }

  ghost function Values<K, V>(m: map<K, V>): (v: multiset<V>)
    ensures |v| == |m|
  {
    ValuesOf(m, m.Keys)
  }

  // Whichever key is taken first, the rest and it make the whole.
  lemma {:induction false} TakeOut<K, V>(m: map<K, V>, ks: set<K>, k: K)
    requires ks <= m.Keys && k in ks
    ensures ValuesOf(m, ks) == ValuesOf(m, ks - {k}) + multiset{m[k]}
    decreases |ks|
  {
    var j :| j in ks && ValuesOf(m, ks) == ValuesOf(m, ks - {j}) + multiset{m[j]};
    if j != k {
      TakeOut(m, ks - {j}, k);
      TakeOut(m, ks - {k}, j);
      assert ks - {j} - {k} == ks - {k} - {j};
    }
  }

  lemma {:induction false} SameValues<K, V>(m: map<K, V>, n: map<K, V>, ks: set<K>)
    requires ks <= m.Keys && ks <= n.Keys && forall k :: k in ks ==> n[k] == m[k]
    ensures ValuesOf(m, ks) == ValuesOf(n, ks)
    decreases |ks|
  {
    if ks != {} {
      var k :| k in ks;
      TakeOut(m, ks, k);
      TakeOut(n, ks, k);
      SameValues(m, n, ks - {k});
    }
  }

  lemma ValuesWithout<K, V>(m: map<K, V>, k: K)
    requires k in m
    ensures Values(m) == Values(m - {k}) + multiset{m[k]}
  {
    TakeOut(m, m.Keys, k);
    SameValues(m, m - {k}, m.Keys - {k});
    assert (m - {k}).Keys == m.Keys - {k};
  }

  lemma ValuesWith<K, V>(m: map<K, V>, k: K, t: V)
    ensures k !in m ==> Values(m[k := t]) == Values(m) + multiset{t}
    ensures k in m ==> Values(m[k := t]) + multiset{m[k]} == Values(m) + multiset{t}
  {
    hide Values;
    ValuesWithout(m[k := t], k);
    if k in m {
      assert m[k := t] - {k} == m - {k};
      ValuesWithout(m, k);
    } else {
      assert m[k := t] - {k} == m;
    }
  }

  // ---- Conservation ----

  // Every trapped token waits, or has been released, or has been discarded: exactly one of the three.
  ghost predicate Conserved(u: Unit) {
    u.trapped == Values(u.table) + u.released + u.discarded
  }

  // The keys drawn for what this turn traps are not pending.
  predicate FreshKeys(u: Unit, e: Event) {
    !Answers(u.table, e) && UserCode(e.packet) ==>
      && e.first.key !in u.table
      && (|Results(e)| == 2 ==> e.second.key !in u.table && e.second.key != e.first.key)
  }

  lemma CatchConserves(u: Unit, input: Destination, t: Token, d: Draw)
    ensures Conserved(u) && d.key !in u.table ==> Conserved(Catch(u, input, t, d))
    ensures d.key !in u.table ==> Surplus(Catch(u, input, t, d)) == Surplus(u)
    ensures d.key in u.table ==> Surplus(Catch(u, input, t, d)) == Surplus(u) + 1
  {
    hide Values, Notice;
    ValuesWith(u.table, d.key, t);
  }

  // How many trapped tokens have got lost.
  ghost function Surplus(u: Unit): int {
    |u.trapped| - |Values(u.table)| - |u.released| - |u.discarded|
  }

  lemma AnswerConserves(u: Unit, e: Event)
    requires Answers(u.table, e)
    ensures Conserved(u) ==> Conserved(Turn(u, e))
    ensures Surplus(Turn(u, e)) == Surplus(u)
  {
    hide FunctionUnit;
    var key := AnswerKey(e);
    ValuesWithout(u.table, key);
    var v, t := Values(u.table - {key}), multiset{u.table[key]};
    Regroup(v, t, u.released, u.discarded);
    assert Conserved(u) ==> u.trapped == v + t + u.released + u.discarded;
  }

  lemma Regroup(v: multiset<Token>, t: multiset<Token>, r: multiset<Token>, d: multiset<Token>)
    ensures v + t + r + d == v + (r + t) + d == v + r + (d + t)
  {
  }

  // A turn keeps the account exactly if the keys it draws are fresh.
  lemma TurnConserves(u: Unit, e: Event)
    requires Conserved(u)
    ensures Conserved(Turn(u, e)) <==> FreshKeys(u, e)
  {
    hide FunctionUnit, Values, UserCode;
    OneOrTwoResults(e);
    if Answers(u.table, e) {
      AnswerConserves(u, e);
    } else if UserCode(e.packet) {
      var one := Catch(u, e.packet.input, Results(e)[0], e.first);
      CatchConserves(u, e.packet.input, Results(e)[0], e.first);
      if |Results(e)| == 2 { CatchConserves(one, e.packet.input, Results(e)[1], e.second); }
      assert Surplus(u) == 0;
      if Conserved(Turn(u, e)) { assert Surplus(Turn(u, e)) == 0; }
    }
  }

  lemma OneOrTwoResults(e: Event)
    ensures |Results(e)| == 1 || |Results(e)| == 2
  {
    hide Compute;
  }

  // ---- Whole runs ----

  const START: Unit := Unit(map[], [], multiset{}, multiset{}, multiset{}, multiset{})

  function Run(es: seq<Event>): Unit
    decreases |es|
  {
    if es == [] then START else Turn(Run(es[..|es| - 1]), es[|es| - 1])
  }

  // Every key drawn in the run was free when it was drawn.
  ghost predicate AllFresh(es: seq<Event>) {
    forall k :: 0 <= k < |es| ==> FreshKeys(Run(es[..k]), es[k])
  }

  lemma {:induction false} RunConserves(es: seq<Event>)
    requires AllFresh(es)
    ensures Conserved(Run(es))
    decreases |es|
  {
    hide Turn, FreshKeys;
    if es != [] {
      var before := es[..|es| - 1];
      forall k | 0 <= k < |before| ensures FreshKeys(Run(before[..k]), before[k]) { assert before[..k] == es[..k]; }
      RunConserves(before);
      TurnConserves(Run(before), es[|es| - 1]);
    }
  }

  // What the unit without trap mode would send for the packets that are not answers.
  ghost function Untrapped(es: seq<Event>): multiset<Token>
    decreases |es|
  {
    if es == [] then multiset{} else
      var before, e := es[..|es| - 1], es[|es| - 1];
      Untrapped(before) + if Answers(Run(before).table, e) then multiset{} else multiset(Results(e))
  }

  lemma TurnSends(u: Unit, e: Event)
    ensures Turn(u, e).plain + Turn(u, e).trapped
      == u.plain + u.trapped + if Answers(u.table, e) then multiset{} else multiset(Results(e))
  {
    hide FunctionUnit, UserCode, Notice;
    OneOrTwoResults(e);
    var r := Results(e);
    if |r| == 1 {
      assert r == [r[0]];
    } else {
      assert r == [r[0], r[1]];
    }
  }

  // Every token is sent at once or trapped; none is made up and none is dropped before the handler.
  lemma {:induction false} SentOrTrapped(es: seq<Event>)
    ensures Run(es).plain + Run(es).trapped == Untrapped(es)
    decreases |es|
  {
    hide Turn, Answers, Results;
    if es != [] {
      SentOrTrapped(es[..|es| - 1]);
      TurnSends(Run(es[..|es| - 1]), es[|es| - 1]);
    }
  }

  ghost predicate AlwaysYes(es: seq<Event>) {
    forall k :: 0 <= k < |es| ==> SaysYes(Run(es[..k]), es[k])
  }

  ghost predicate SaysYes(u: Unit, e: Event) {
    Answers(u.table, e) ==> Results(e)[0].data == 1
  }

  lemma {:induction false} NothingDiscarded(es: seq<Event>)
    requires AlwaysYes(es)
    ensures Run(es).discarded == multiset{}
    decreases |es|
  {
    hide Turn, SaysYes;
    if es != [] {
      var before := es[..|es| - 1];
      forall k | 0 <= k < |before| ensures SaysYes(Run(before[..k]), before[k]) { assert before[..k] == es[..k]; }
      NothingDiscarded(before);
      YesDiscardsNothing(Run(before), es[|es| - 1]);
    }
  }

  lemma YesDiscardsNothing(u: Unit, e: Event)
    requires SaysYes(u, e)
    ensures Turn(u, e).discarded == u.discarded
  {
    hide Results, Notice, UserCode;
  }

  // With a handler that always says yes and has answered everything, the tokens sent at once and
  // those released are, up to order, what the unit without trap mode would have sent.
  lemma YesChangesNothing(es: seq<Event>)
    requires AllFresh(es) && AlwaysYes(es) && Run(es).table == map[]
    ensures Run(es).plain + Run(es).released == Untrapped(es)
  {
    hide Run, AllFresh, AlwaysYes, Untrapped;
    RunConserves(es);
    SentOrTrapped(es);
    NothingDiscarded(es);
    assert Values<TrapKey, Token>(map[]) == multiset{};
  }

  lemma SameButKey(a: Table, b: Table, key: TrapKey, t: Token)
    requires b - {key} == a - {key}
    ensures b[key := t] == a[key := t]
  {
    forall k | k in a && k != key ensures k in b && b[k] == a[k] { assert k in a - {key} && (a - {key})[k] == a[k]; }
    forall k | k in b && k != key ensures k in a { assert k in b - {key}; }
  }

  // ---- The unit at work on its hash table ----

  class ProcessingUnit {
    const table: HT.KHash<TrapKey, Token>
    var out: seq<Token>

    ghost predicate Valid()
      reads this, table, table.Repr()
    {
      table.Valid()
    }

    constructor ()
      ensures Valid() && table.Entered() == map[] && out == [] && fresh(table) && fresh(table.Repr())
    {
      hide HT.KHash.Valid, HT.KHash.Contents, HT.KHash.Entered;
      table := new HT.KHash(Hash);
      out := [];
      new;
      table.EnteredIs();
    }

    method Add(t: Token)
      modifies this`out
      ensures out == old(out) + [t]
    {
      out := out + [t];
    }

    // kh_put and kh_value
    method Remember(key: TrapKey, t: Token)
      requires Valid() && table.CanPut()
      modifies table.Repr()
      ensures Valid() && fresh(table.Repr() - old(table.Repr()))
      ensures table.Entered() == old(table.Entered())[key := t] && (old(table.nBuckets) < 0x8000_0000 ==> table.CanPut())
    {
      hide HT.KHash.Valid, HT.KHash.Contents, HT.KHash.Entered;
      table.EnteredIs();
      ghost var before := table.Entered();
      var x, _ := table.Put(key);
      table.EnteredIs();
      ghost var after := table.Entered();
      table.SetValue(key, x, t);
      table.EnteredIs();
      SameButKey(before, after, key, t);
    }

    method Notify(input: Destination, t: Token, d: Draw)
      modifies this`out
      ensures out == old(out) + Notice(input, t, d)
    {
      hide HashBits, ToHandler;
      var a, b, c := ToHandler(0, HashBits(input as bv64), d.area), ToHandler(1, HashBits(t.destination as bv64), d.area),
                     ToHandler(2, d.key.word, d.area);
      AddThree(a, b, c);
    }

    method AddThree(a: Token, b: Token, c: Token)
      modifies this`out
      ensures out == old(out) + [a, b, c]
    {
      Add(a);
      Add(b);
      Add(c);
      assert old(out) + [a] + [b] + [c] == old(out) + ([a] + [b] + [c]);
    }

    method SingleStep(input: Destination, t: Token, d: Draw)
      requires Valid() && table.CanPut()
      modifies this`out, table.Repr()
      ensures Valid() && fresh(table.Repr() - old(table.Repr()))
      ensures out == old(out) + Notice(input, t, d) && table.Entered() == old(table.Entered())[d.key := t]
      ensures old(table.nBuckets) < 0x8000_0000 ==> table.CanPut()
    {
      hide HT.KHash.Valid, HT.KHash.Entered, Notice;
      Notify(input, t, d);
      Remember(d.key, t);
    }

    // The handler's answer to a pending key: release the token or drop it, and forget the key.
    method Answer(key: TrapKey, x: nat, yes: bool)
      requires Valid() && key in table.index && table.index[key] == x
      modifies this`out, table.Repr()
      ensures Valid() && table.Repr() == old(table.Repr())
      ensures key in old(table.Entered()) && table.Entered() == old(table.Entered()) - {key}
      ensures out == if yes then old(out) + [old(table.Entered())[key]] else old(out)
    {
      hide HT.KHash.Valid, HT.KHash.Entered;
      table.EnteredIs();
      if yes {
        var t := table.Value(key, x);
        out := out + [t];
      }
      Forget(key, x);
    }

    method Forget(key: TrapKey, x: nat)
      requires Valid() && key in table.index && table.index[key] == x
      modifies table.Repr()
      ensures Valid() && table.Repr() == old(table.Repr())
      ensures table.Entered() == old(table.Entered()) - {key}
    {
      hide HT.KHash.Valid, HT.KHash.Entered, HT.KHash.Contents;
      table.EnteredIs();
      table.ThatKeyOnly(key);
      table.Del(x);
      table.EnteredIs();
    }

    ghost function View(): Unit
      reads this, table, table.vals
    {
      START.(table := table.Entered(), out := out)
    }

    // One turn of run_processing_unit: table and output are those of Turn.
    method RunTurn(e: Event)
      requires Valid() && table.nBuckets < 0x8000_0000
      modifies this`out, table.Repr()
      ensures Valid() && fresh(table.Repr() - old(table.Repr()))
      ensures View().table == Turn(old(View()), e).table && out == Turn(old(View()), e).out
    {
      hide HT.KHash.Valid, HT.KHash.Entered, HT.KHash.Contents, Notice, UserCode, Results, FunctionUnit, AnswerKey;
      var results := Results(e);
      OneOrTwoResults(e);
      table.EnteredIs();
      if e.packet.opcode.RTD? {
        var key := AnswerKey(e);
        var x := table.Get(key);
        if x != table.nBuckets {
          Answer(key, x, results[0].data == 1);
          return;
        }
      }
      if UserCode(e.packet) {
        SingleStep(e.packet.input, results[0], e.first);
        if |results| == 2 { SingleStep(e.packet.input, results[1], e.second); }
      } else {
        out := out + results;
      }
    }
  }
}
