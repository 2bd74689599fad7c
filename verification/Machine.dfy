// The machine as a step system: any unit may take any item that is in flight to it, and items
// overtake each other freely. Every schedule of the real units and their queues is one of its runs.
module Machine {
  import opened Words
  import opened Numbers
  import opened Types

  // What the matching unit sends on: one token, or a pair in slot order.
  datatype Pair = Single(token: Token) | Both(left: Token, right: Token)

  datatype Key = Key(tag: TagBits, address: bv32)

  function KeyOf(t: Token): Key { Key(t.tag, Address(t.destination)) }

  predicate NeedsPartner(t: Token) { MatchingOf(t.destination) == MATCHING_BOTH }

  type Waiting = map<Key, Token>

  // Something in flight, named after the unit it goes to; what has been printed goes nowhere.
  datatype Item =
    | ToSwitch(token: Token)
    | ToMatch(token: Token)
    | ToDispatch(pair: Pair)
    | ToExecute(packet: Packet)
    | PrintedNumber(data: Data)
    | PrintedText(data: Data)

  // The loaded program, and the tag areas that NTG draws at an address under a tag.
  datatype Machine = Machine(program: seq<Instruction>, areas: (Destination, TagBits) -> bv32)

  // ---- The four units ----

  // run_io_switch
  function Switch(t: Token): Option<Item> {
    if t.destination == OUTPUTD then Some(PrintedNumber(t.data))
    else if t.destination == OUTPUTS then Some(PrintedText(t.data))
    else if t.destination == REGISTER_INPUT_HANDLER then None
    else if t.destination == DEREGISTER_INPUT_HANDLER then None
    else if t.destination == DEV_NULL then None
    else Some(ToMatch(t))
  }

  // ready_token_pair_from_tokens
  function InOrder(t: Token, u: Token): Pair {
    if InputOf(t.destination) == INPUT_ONE then Both(t, u) else Both(u, t)
  }

  // run_matching_unit on one token
  function Match(w: Waiting, t: Token): (Option<Item>, Waiting) {
    var f, k := MatchingOf(t.destination), KeyOf(t);
    if f == MATCHING_ONE || f == MATCHING_ANY then (Some(ToDispatch(Single(t))), w)
    else if f == MATCHING_BOTH then
      if k in w then (Some(ToDispatch(InOrder(t, w[k]))), w - {k}) else (None, w[k := t])
    else (None, w)
  }

  predicate TakesTwo(inst: Instruction) {
    inst.literals == NONE && NumInputs(inst.opcode) == 2
  }

  // run_instruction_store on one pair. If it wants a second token and the pair has none, it reads
  // whatever the memory holds: `stale`.
  function Dispatch(program: seq<Instruction>, p: Pair, stale: Token): Option<Packet> {
    var first := if p.Single? then p.token else p.left;
    var address := Address(first.destination);
    if Number(address) >= |program| then None
    else
      var inst := program[Number(address)];
      if TakesTwo(inst) then
        var second := if p.Single? then stale else p.right;
        Some(Packet(first.data, second.data, inst.opcode, first.tag, inst.destination1, inst.destination2,
                    CreateDestination(address, 0, 0), inst.both))
      else if inst.literals == ONE || NumInputs(inst.opcode) == 1 then
        Some(Packet(first.data, inst.literal1, inst.opcode, first.tag, inst.destination1, inst.destination2,
                    CreateDestination(address, 0, 0), inst.both))
      else None
  }

  // function_unit and send_result: the tokens an execution sends
  function FunctionUnit(p: Packet, area: bv32): seq<Token> {
    match p.opcode
    case BRR => [Token(if p.data2 != 0 then p.destination1 else p.destination2, p.data1, p.tag)]
    case NTG => [Token(p.destination1, CreateTag(area, 0), p.tag), Token(p.destination2, p.tag, p.tag)]
    case RTD => [Token((p.data2 & 0xFFFF_FFFF) as bv32, p.data1, p.tag)]
    case BIN(op) => Pure(p, Compute(op, p.data1, p.data2), p.tag)
    case DUP => Pure(p, p.data1, p.tag)
    case NEG => Pure(p, Flag(p.data1 == 0), p.tag)
    case MER => Pure(p, p.data1, p.tag)
    case ITG => Pure(p, p.data1, p.tag + 1)
    case SIL => Pure(p, p.data1, CreateTag(TagArea(p.tag), (p.data2 & 0xFFFF_FFFF) as bv32))
    case CTG => Pure(p, p.data2, p.data1)
    case ETG => Pure(p, p.tag, p.tag)
  }

  function Pure(p: Packet, data: Data, tag: TagBits): seq<Token> {
    if p.both then [Token(p.destination1, data, tag), Token(p.destination2, data, tag)]
    else [Token(p.destination1, data, tag)]
  }

  // ---- Steps ----

  datatype State = State(flight: multiset<Item>, waiting: Waiting)

  function Only(i: Option<Item>): multiset<Item> {
    if i.Some? then multiset{i.value} else multiset{}
  }

  function Execute(m: Machine, p: Packet): multiset<Item> {
    Outgoing(FunctionUnit(p, m.areas(p.input, p.tag)))
  }

  function Outgoing(out: seq<Token>): multiset<Item> {
    if |out| == 2 then multiset{ToSwitch(out[0]), ToSwitch(out[1])}
    else if |out| == 1 then multiset{ToSwitch(out[0])} else multiset{}
  }

  // What becomes of an item at its unit.
  function Made(m: Machine, w: Waiting, i: Item, stale: Token): multiset<Item> {
    match i
    case ToSwitch(t) => Only(Switch(t))
    case ToMatch(t) => Only(Match(w, t).0)
    case ToDispatch(p) =>
      var packet := Dispatch(m.program, p, stale);
      if packet.Some? then multiset{ToExecute(packet.value)} else multiset{}
    case ToExecute(p) => Execute(m, p)
    case _ => multiset{}
  }

  function WaitingAfter(w: Waiting, i: Item): Waiting {
    if i.ToMatch? then Match(w, i.token).1 else w
  }

  predicate Enabled(s: State, i: Item) {
    i in s.flight && !i.PrintedNumber? && !i.PrintedText?
  }

  function Next(m: Machine, s: State, i: Item, stale: Token): State {
    State(s.flight - multiset{i} + Made(m, s.waiting, i, stale), WaitingAfter(s.waiting, i))
  }

  predicate Quiet(s: State) {
    forall i :: i in s.flight ==> i.PrintedNumber? || i.PrintedText?
  }

  // ---- The beginning ----

  // add_ready_instructions: an instruction whose inputs are all literals is executed at once.
  function ReadyPacket(inst: Instruction, i: nat): Option<Packet> {
    if inst.literals == TWO then
      Some(Packet(inst.literal1, inst.literal2, inst.opcode, NO_TAG, inst.destination1, inst.destination2,
                  CreateDestination(Word(i), 0, 0), inst.both))
    else if inst.literals == ONE && NumInputs(inst.opcode) == 1 then
      Some(Packet(inst.literal1, 0, inst.opcode, NO_TAG, inst.destination1, inst.destination2,
                  CreateDestination(Word(i), 0, 0), inst.both))
    else None
  }

  // Those of the first k instructions.
  function ReadyItems(program: seq<Instruction>, k: nat): multiset<Item>
    requires k <= |program|
  {
    if k == 0 then multiset{} else
      var p := ReadyPacket(program[k - 1], k - 1);
      ReadyItems(program, k - 1) + (if p.Some? then multiset{ToExecute(p.value)} else multiset{})
  }

  function Start(m: Machine): State {
    State(ReadyItems(m.program, |m.program|), map[])
  }

  // ---- When the schedule does not matter ----

  // Where a token is kept, a partner can find it.
  ghost predicate WaitingOk(w: Waiting) {
    forall k :: k in w ==> KeyOf(w[k]) == k && NeedsPartner(w[k])
  }

  // The token stands before or inside the matching unit, waiting for a partner.
  ghost predicate Stands(s: State, t: Token) {
    NeedsPartner(t) && (ToMatch(t) in s.flight || (KeyOf(t) in s.waiting && s.waiting[KeyOf(t)] == t))
  }

  predicate SameSlot(t: Token, u: Token) {
    KeyOf(t) == KeyOf(u) && InputOf(t.destination) == InputOf(u.destination)
  }

  // No two tokens for the same input of the same instruction under the same tag coexist.
  ghost predicate SlotsSafe(s: State) {
    && (forall t, u :: Stands(s, t) && Stands(s, u) && SameSlot(t, u) ==> t == u)
    && (forall t :: NeedsPartner(t) && ToMatch(t) in s.flight ==>
          s.flight[ToMatch(t)] == 1 && !(KeyOf(t) in s.waiting && s.waiting[KeyOf(t)] == t))
  }

  // A token on its own is never sent to an instruction that takes two.
  ghost predicate Proper(m: Machine, s: State) {
    forall t :: ToDispatch(Single(t)) in s.flight && Number(Address(t.destination)) < |m.program| ==>
      !TakesTwo(m.program[Number(Address(t.destination))])
  }

  ghost predicate Safe(m: Machine, s: State) {
    SlotsSafe(s) && Proper(m, s)
  }

  // ---- The diamond ----

  // What the memory happens to hold plays no part.
  lemma StaleUnused(m: Machine, s: State, i: Item, x: Token, y: Token)
    requires Proper(m, s) && i in s.flight
    ensures Made(m, s.waiting, i, x) == Made(m, s.waiting, i, y)
  {
    hide Match, Switch, Execute, Address, Number;
  }

  lemma Swap(f: multiset<Item>, i: Item, j: Item, a: multiset<Item>, b: multiset<Item>)
    requires i in f && j in f && i != j
    ensures f - multiset{i} + a - multiset{j} + b == f - multiset{j} + b - multiset{i} + a
    ensures j in f - multiset{i} + a && i in f - multiset{j} + b
  {
  }

  predicate Partners(i: Item, j: Item) {
    i.ToMatch? && j.ToMatch? && NeedsPartner(i.token) && NeedsPartner(j.token) && KeyOf(i.token) == KeyOf(j.token)
  }

  lemma MatchIndependent(w: Waiting, t: Token, u: Token)
    requires !Partners(ToMatch(t), ToMatch(u))
    ensures Match(Match(w, u).1, t).0 == Match(w, t).0
    ensures Match(Match(w, t).1, u).1 == Match(Match(w, u).1, t).1
  {
    hide Address, MatchingOf, InOrder;
  }

  // Items that do not meet in the waiting table do not influence each other.
  lemma Independent(m: Machine, w: Waiting, i: Item, j: Item, x: Token)
    requires !Partners(i, j)
    ensures Made(m, WaitingAfter(w, j), i, x) == Made(m, w, i, x)
    ensures WaitingAfter(WaitingAfter(w, i), j) == WaitingAfter(WaitingAfter(w, j), i)
  {
    hide Match, Execute, Switch, Dispatch, Partners;
    if i.ToMatch? && j.ToMatch? { MatchIndependent(w, i.token, j.token); }
  }

  // Whichever of two partners comes first, the pair is the same and nothing is left behind.
  lemma MatchMeets(w: Waiting, t: Token, u: Token)
    requires Partners(ToMatch(t), ToMatch(u)) && KeyOf(t) !in w && !SameSlot(t, u)
    ensures Match(w, t).0 == None && Match(Match(w, t).1, u) == (Some(ToDispatch(InOrder(t, u))), w)
    ensures Match(w, u).0 == None && Match(Match(w, u).1, t) == (Some(ToDispatch(InOrder(t, u))), w)
  {
    hide Address, MatchingOf;
    var k := KeyOf(t);
    TwoInputs(t, u);
    assert w[k := t] - {k} == w == w[k := u] - {k};
  }

  // Partners that both stand before the unit find no third token inside.
  lemma NobodyInside(s: State, t: Token, u: Token)
    requires SlotsSafe(s) && WaitingOk(s.waiting) && t != u && ToMatch(t) in s.flight && ToMatch(u) in s.flight
    requires Partners(ToMatch(t), ToMatch(u))
    ensures KeyOf(t) !in s.waiting && !SameSlot(t, u)
  {
    hide Address, MatchingOf, InputOf;
    assert Stands(s, t) && Stands(s, u);
    var k := KeyOf(t);
    if k in s.waiting {
      var v := s.waiting[k];
      assert Stands(s, v);
      TwoInputs(t, v);
      TwoInputs(u, v);
    }
  }

  // Partners meet in the same pair whichever comes first.
  lemma Meet(m: Machine, s: State, i: Item, j: Item, x: Token, y: Token)
    requires SlotsSafe(s) && WaitingOk(s.waiting) && i in s.flight && j in s.flight && i != j && Partners(i, j)
    ensures Next(m, Next(m, s, i, x), j, y) == Next(m, Next(m, s, j, y), i, x)
    ensures j in Next(m, s, i, x).flight && i in Next(m, s, j, y).flight
  {
    hide SlotsSafe, Match, InOrder, NeedsPartner, KeyOf, SameSlot;
    NobodyInside(s, i.token, j.token);
    MatchMeets(s.waiting, i.token, j.token);
    var pair := multiset{ToDispatch(InOrder(i.token, j.token))};
    assert Made(m, s.waiting, i, x) == multiset{} == Made(m, s.waiting, j, y);
    assert s.flight - multiset{i} + multiset{} - multiset{j} + pair == s.flight - multiset{j} + multiset{} - multiset{i} + pair;
  }

  // There are two inputs.
  lemma TwoInputs(t: Token, u: Token)
    ensures InputOf(t.destination) == INPUT_ONE || InputOf(t.destination) == INPUT_TWO
    ensures InputOf(u.destination) == INPUT_ONE || InputOf(u.destination) == INPUT_TWO
  {
  }

  // Two different steps of a safe state can be taken in either order.
  lemma Diamond(m: Machine, s: State, i: Item, x: Token, j: Item, y: Token)
    requires Safe(m, s) && WaitingOk(s.waiting) && Enabled(s, i) && Enabled(s, j) && i != j
    ensures Enabled(Next(m, s, i, x), j) && Enabled(Next(m, s, j, y), i)
    ensures Next(m, Next(m, s, i, x), j, y) == Next(m, Next(m, s, j, y), i, x)
  {
    hide Made, WaitingAfter, SlotsSafe, Proper, KeyOf, NeedsPartner;
    if Partners(i, j) {
      Meet(m, s, i, j, x, y);
    } else {
      Independent(m, s.waiting, i, j, x);
      Independent(m, s.waiting, j, i, y);
      Swap(s.flight, i, j, Made(m, s.waiting, i, x), Made(m, s.waiting, j, y));
    }
  }

  lemma WaitingKept(m: Machine, s: State, i: Item, x: Token)
    requires WaitingOk(s.waiting)
    ensures WaitingOk(Next(m, s, i, x).waiting)
  {
    hide Address, MatchingOf, Made, InOrder;
  }

  // ---- Runs ----

  // n steps lead from s to t.
  ghost predicate Steps(m: Machine, s: State, t: State, n: nat)
    decreases n
  {
    if n == 0 then s == t
    else exists i, x :: Enabled(s, i) && Steps(m, Next(m, s, i, x), t, n - 1)
  }

  ghost predicate SafeFrom(m: Machine, s: State) {
    forall t, n: nat :: Steps(m, s, t, n) ==> Safe(m, t)
  }

  lemma SafeNext(m: Machine, s: State, i: Item, x: Token)
    requires SafeFrom(m, s) && Enabled(s, i)
    ensures Safe(m, s) && SafeFrom(m, Next(m, s, i, x))
  {
    hide Safe, Next;
    assert Steps(m, s, s, 0);
    forall t, n: nat | Steps(m, Next(m, s, i, x), t, n)
      ensures Safe(m, t)
    {
      assert Steps(m, s, t, n + 1);
    }
  }

  // If some run from s ends, then after any first step a run ends in the same state one step sooner.
  lemma {:induction false} Strip(m: Machine, s: State, q: State, n: nat, i: Item, x: Token)
    requires SafeFrom(m, s) && WaitingOk(s.waiting) && Steps(m, s, q, n) && Quiet(q) && Enabled(s, i)
    ensures n > 0 && Steps(m, Next(m, s, i, x), q, n - 1)
    decreases n
  {
    hide Safe, Next, WaitingOk;
    SafeNext(m, s, i, x);
    if n > 0 {
      var j, y :| Enabled(s, j) && Steps(m, Next(m, s, j, y), q, n - 1);
      if i == j {
        SameStep(m, s, i, x, y);
      } else {
        Diamond(m, s, i, x, j, y);
        SafeNext(m, s, j, y);
        WaitingKept(m, s, j, y);
        Strip(m, Next(m, s, j, y), q, n - 1, i, x);
        assert Steps(m, Next(m, s, i, x), q, n - 1);
      }
    }
  }

  lemma SameStep(m: Machine, s: State, i: Item, x: Token, y: Token)
    requires Safe(m, s) && i in s.flight
    ensures Next(m, s, i, x) == Next(m, s, i, y)
  {
    hide Made;
    StaleUnused(m, s, i, x, y);
  }

  // Once one run from s ends, in n steps, every run from s can be continued to the same end, and
  // all of them take n steps.
  lemma {:induction false} Confluence(m: Machine, s: State, q: State, n: nat, t: State, k: nat)
    requires SafeFrom(m, s) && WaitingOk(s.waiting) && Steps(m, s, q, n) && Quiet(q) && Steps(m, s, t, k)
    ensures k <= n && Steps(m, t, q, n - k)
    decreases k
  {
    hide Safe, Next, WaitingOk, Quiet;
    if k > 0 {
      var i, x :| Enabled(s, i) && Steps(m, Next(m, s, i, x), t, k - 1);
      Strip(m, s, q, n, i, x);
      SafeNext(m, s, i, x);
      WaitingKept(m, s, i, x);
      Confluence(m, Next(m, s, i, x), q, n - 1, t, k - 1);
    }
  }

  // So the printed output, the tokens left waiting and the number of steps do not depend on the schedule.
  lemma ScheduleDoesNotMatter(m: Machine, s: State, q: State, n: nat, t: State, k: nat)
    requires SafeFrom(m, s) && WaitingOk(s.waiting)
    requires Steps(m, s, q, n) && Quiet(q) && Steps(m, s, t, k) && Quiet(t)
    ensures q == t && n == k
  {
    hide Safe, Next, WaitingOk;
    Confluence(m, s, q, n, t, k);
  }
}
