// The units at work on first-in-first-out queues: one turn of each unit's loop is one step of Machine.
module Units {
  import opened Words
  import opened Types
  import opened Machine

  ghost function Bag<T>(q: seq<T>, f: T -> Item): multiset<Item> {
    if q == [] then multiset{} else multiset{f(q[0])} + Bag(q[1..], f)
  }

  lemma {:induction false} BagAdd<T>(q: seq<T>, x: T, f: T -> Item)
    ensures Bag(q + [x], f) == Bag(q, f) + multiset{f(x)}
  {
    if q == [] {
      assert q + [x] == [x];
    } else {
      assert (q + [x])[1..] == q[1..] + [x];
      BagAdd(q[1..], x, f);
    }
  }

  lemma BagRemove<T>(q: seq<T>, f: T -> Item)
    requires q != []
    ensures Bag(q, f) == multiset{f(q[0])} + Bag(q[1..], f)
  {
  }

  const SWITCH: Token -> Item := (t: Token) => ToSwitch(t)
  const MATCH: Token -> Item := (t: Token) => ToMatch(t)
  const DISPATCH: Pair -> Item := (p: Pair) => ToDispatch(p)
  const EXECUTE: Packet -> Item := (p: Packet) => ToExecute(p)

  // Everything in the queues.
  datatype Queues = Queues(outgoing: seq<Token>, arriving: seq<Token>, pairs: seq<Pair>, packets: seq<Packet>, printed: seq<Item>)

  ghost function Flight(q: Queues): multiset<Item> {
    Bag(q.outgoing, SWITCH) + Bag(q.arriving, MATCH) + Bag(q.pairs, DISPATCH) + Bag(q.packets, EXECUTE) + multiset(q.printed)
  }

  lemma Added(q: Queues, t: Token, p: Pair, k: Packet, i: Item)
    ensures Flight(q.(outgoing := q.outgoing + [t])) == Flight(q) + multiset{ToSwitch(t)}
    ensures Flight(q.(arriving := q.arriving + [t])) == Flight(q) + multiset{ToMatch(t)}
    ensures Flight(q.(pairs := q.pairs + [p])) == Flight(q) + multiset{ToDispatch(p)}
    ensures Flight(q.(packets := q.packets + [k])) == Flight(q) + multiset{ToExecute(k)}
    ensures Flight(q.(printed := q.printed + [i])) == Flight(q) + multiset{i}
  {
    hide Bag;
    BagAdd(q.outgoing, t, SWITCH);
    BagAdd(q.arriving, t, MATCH);
    BagAdd(q.pairs, p, DISPATCH);
    BagAdd(q.packets, k, EXECUTE);
  }

  lemma TakenOutgoing(q: Queues)
    requires q.outgoing != []
    ensures Flight(q.(outgoing := q.outgoing[1..])) == Flight(q) - multiset{ToSwitch(q.outgoing[0])}
  {
    hide Bag;
    BagRemove(q.outgoing, SWITCH);
  }

  lemma TakenArriving(q: Queues)
    requires q.arriving != []
    ensures Flight(q.(arriving := q.arriving[1..])) == Flight(q) - multiset{ToMatch(q.arriving[0])}
  {
    hide Bag;
    BagRemove(q.arriving, MATCH);
  }

  lemma TakenPairs(q: Queues)
    requires q.pairs != []
    ensures Flight(q.(pairs := q.pairs[1..])) == Flight(q) - multiset{ToDispatch(q.pairs[0])}
  {
    hide Bag;
    BagRemove(q.pairs, DISPATCH);
  }

  lemma TakenPackets(q: Queues)
    requires q.packets != []
    ensures Flight(q.(packets := q.packets[1..])) == Flight(q) - multiset{ToExecute(q.packets[0])}
  {
    hide Bag;
    BagRemove(q.packets, EXECUTE);
  }

  class System {
    const m: Machine
    var outgoing: seq<Token>    // execution_token_output_queue
    var arriving: seq<Token>    // matching_unit_input_queue
    var pairs: seq<Pair>        // ready_token_pair_queue
    var packets: seq<Packet>    // executable_packet_queue
    var printed: seq<Item>
    var waiting: Waiting

    ghost function InQueues(): Queues
      reads this
    {
      Queues(outgoing, arriving, pairs, packets, printed)
    }

    ghost function Contents(): State
      reads this
    {
      State(Flight(InQueues()), waiting)
    }

    constructor (m: Machine)
      ensures this.m == m && Contents() == State(multiset{}, map[])
    {
      this.m := m;
      outgoing, arriving, pairs, packets, printed, waiting := [], [], [], [], [], map[];
    }

    // What run_instruction_store does before its loop: the program is loaded, and instructions
    // without missing inputs go out.
    method AddReadyInstructions()
      modifies this`packets
      ensures Contents() == State(old(Contents().flight) + ReadyItems(m.program, |m.program|), old(waiting))
    {
      hide Flight, ReadyPacket;
      for i := 0 to |m.program|
        invariant Flight(InQueues()) == old(Flight(InQueues())) + ReadyItems(m.program, i)
        invariant waiting == old(waiting)
      {
        var ready := ReadyPacket(m.program[i], i);
        if ready.Some? { ToProcessing(ready.value); }
      }
    }

    method Print(i: Item)
      modifies this`printed
      ensures Flight(InQueues()) == old(Flight(InQueues())) + multiset{i}
    {
      hide Flight;
      Added(InQueues(), NOTHING, Single(NOTHING), NO_PACKET, i);
      printed := printed + [i];
    }

    method ToMatching(t: Token)
      modifies this`arriving
      ensures Flight(InQueues()) == old(Flight(InQueues())) + multiset{ToMatch(t)}
    {
      hide Flight;
      Added(InQueues(), t, Single(t), NO_PACKET, ToMatch(t));
      arriving := arriving + [t];
    }

    method ToStore(p: Pair)
      modifies this`pairs
      ensures Flight(InQueues()) == old(Flight(InQueues())) + multiset{ToDispatch(p)}
    {
      hide Flight;
      Added(InQueues(), NOTHING, p, NO_PACKET, ToDispatch(p));
      pairs := pairs + [p];
    }

    method ToProcessing(p: Packet)
      modifies this`packets
      ensures Flight(InQueues()) == old(Flight(InQueues())) + multiset{ToExecute(p)}
    {
      hide Flight;
      Added(InQueues(), NOTHING, Single(NOTHING), p, ToExecute(p));
      packets := packets + [p];
    }

    method ToIoSwitch(t: Token)
      modifies this`outgoing
      ensures Flight(InQueues()) == old(Flight(InQueues())) + multiset{ToSwitch(t)}
    {
      hide Flight;
      Added(InQueues(), t, Single(t), NO_PACKET, ToSwitch(t));
      outgoing := outgoing + [t];
    }

    // One turn of the loop of run_io_switch.
    method IoSwitch()
      requires outgoing != []
      modifies this
      ensures forall x :: Contents() == Next(m, old(Contents()), ToSwitch(old(outgoing[0])), x)
    {
      hide Flight, Switch;
      var t := outgoing[0];
      TakenOutgoing(InQueues());
      outgoing := outgoing[1..];
      Route(t);
    }

    method Route(t: Token)
      modifies this`printed, this`arriving
      ensures Flight(InQueues()) == old(Flight(InQueues())) + Only(Switch(t))
    {
      hide Flight, OUTPUTD, OUTPUTS, REGISTER_INPUT_HANDLER, DEREGISTER_INPUT_HANDLER, DEV_NULL;
      if t.destination == OUTPUTD {
        Print(PrintedNumber(t.data));
      } else if t.destination == OUTPUTS {
        Print(PrintedText(t.data));
      } else if t.destination == REGISTER_INPUT_HANDLER {
      } else if t.destination == DEREGISTER_INPUT_HANDLER {
      } else if t.destination == DEV_NULL {
      } else {
        ToMatching(t);
      }
    }

    // One turn of run_matching_unit, with the waiting table as a map.
    method MatchingUnit()
      requires arriving != []
      modifies this
      ensures forall x :: Contents() == Next(m, old(Contents()), ToMatch(old(arriving[0])), x)
    {
      hide Flight, Match;
      var t := arriving[0];
      TakenArriving(InQueues());
      arriving := arriving[1..];
      FindPartner(t);
    }

    method FindPartner(t: Token)
      modifies this`pairs, this`waiting
      ensures Flight(InQueues()) == old(Flight(InQueues())) + Only(Match(old(waiting), t).0)
      ensures waiting == Match(old(waiting), t).1
    {
      hide Flight, MatchingOf, KeyOf, InOrder;
      var f, k := MatchingOf(t.destination), KeyOf(t);
      if f == MATCHING_ONE || f == MATCHING_ANY {
        ToStore(Single(t));
      } else if f == MATCHING_BOTH {
        if k !in waiting {
          waiting := waiting[k := t];
        } else {
          ToStore(InOrder(t, waiting[k]));
          waiting := waiting - {k};
        }
      }
    }

    // One turn of run_instruction_store.
    method InstructionStore(stale: Token)
      requires pairs != []
      modifies this
      ensures Contents() == Next(m, old(Contents()), ToDispatch(old(pairs[0])), stale)
    {
      hide Flight, Dispatch;
      var packet := Dispatch(m.program, pairs[0], stale);
      TakenPairs(InQueues());
      pairs := pairs[1..];
      if packet.Some? { ToProcessing(packet.value); }
    }

    // One turn of run_processing_unit without trap mode.
    method ProcessingUnit()
      requires packets != []
      modifies this
      ensures forall x :: Contents() == Next(m, old(Contents()), ToExecute(old(packets[0])), x)
    {
      hide Flight, FunctionUnit;
      var p := packets[0];
      TakenPackets(InQueues());
      packets := packets[1..];
      var out := FunctionUnit(p, m.areas(p.input, p.tag));
      OneOrTwo(p, m.areas(p.input, p.tag));
      SendResult(out);
    }

    method SendResult(out: seq<Token>)
      requires |out| == 1 || |out| == 2
      modifies this`outgoing
      ensures Flight(InQueues()) == old(Flight(InQueues())) + Outgoing(out)
    {
      hide Flight;
      ToIoSwitch(out[0]);
      if |out| == 2 { ToIoSwitch(out[1]); }
    }
  }

  const NOTHING: Token := Token(0, 0, 0)
  const NO_PACKET: Packet := Packet(0, 0, DUP, 0, 0, 0, 0, false)

  lemma OneOrTwo(p: Packet, area: bv32)
    ensures |FunctionUnit(p, area)| == 1 || |FunctionUnit(p, area)| == 2
  {
    hide Compute;
  }
}
