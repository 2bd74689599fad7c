// From the assembler's output through the file and the loader to the instructions the machine runs:
// a module loaded at an offset is the program the assembler would have made for that place.
module Linked {
  import opened Words
  import opened Numbers
  import opened Types
  import opened IrGraph
  import opened Placement
  import opened Assembled
  import opened Circuit
  import opened Relocation
  import Format
  import L = Loader
  import P = Parser

  // ---- Instructions as records ----

  // opcode_type
  function OpcodeNumber(op: Opcode): nat {
    match op
    case BIN(b) => BinNumber(b)
    case BRR => 2
    case DUP => 5
    case NEG => 6
    case MER => 7
    case NTG => 8
    case ITG => 9
    case SIL => 11
    case CTG => 12
    case RTD => 13
    case ETG => 14
  }

  function BinNumber(op: BinOp): nat {
    match op
    case Add => 0
    case Sub => 1
    case Less => 3
    case Equals => 4
    case Greater => 10
    case Mul => 15
    case BitXor => 16
    case BitAnd => 17
    case BitOr => 18
    case Shl => 19
    case Shr => 20
    case NotEquals => 21
    case GreaterEq => 26
    case LessEq => 27
  }

  // The instruction a number stands for, of those the function unit computes by itself.
  function OpcodeOf(n: nat): Option<Opcode> {
    match n
    case 0 => Some(BIN(Add))
    case 1 => Some(BIN(Sub))
    case 2 => Some(BRR)
    case 3 => Some(BIN(Less))
    case 4 => Some(BIN(Equals))
    case 5 => Some(DUP)
    case 6 => Some(NEG)
    case 7 => Some(MER)
    case 8 => Some(NTG)
    case 9 => Some(ITG)
    case 10 => Some(BIN(Greater))
    case 11 => Some(SIL)
    case 12 => Some(CTG)
    case 13 => Some(RTD)
    case 14 => Some(ETG)
    case 15 => Some(BIN(Mul))
    case 16 => Some(BIN(BitXor))
    case 17 => Some(BIN(BitAnd))
    case 18 => Some(BIN(BitOr))
    case 19 => Some(BIN(Shl))
    case 20 => Some(BIN(Shr))
    case 21 => Some(BIN(NotEquals))
    case 26 => Some(BIN(GreaterEq))
    case 27 => Some(BIN(LessEq))
    case _ => None
  }

  // No instruction of a compiled program is privileged.
  lemma OpcodeRoundTrip(op: Opcode)
    ensures OpcodeOf(OpcodeNumber(op)) == Some(op) && OpcodeNumber(op) < 35 && !L.Privileged(OpcodeNumber(op))
  {
  }

  function CountNumber(c: LiteralCount): nat {
    match c
    case NONE => 0
    case ONE => 1
    case TWO => 2
  }

  function CountOf(n: nat): LiteralCount { if n == 0 then NONE else if n == 1 then ONE else TWO }

  // serialize_instructions
  function RecordOf(i: Instruction): Format.Inst {
    Format.Inst(OpcodeNumber(i.opcode), Number(i.destination1), Number(i.destination2), if i.both then 1 else 0,
                i.literal1 as nat, i.literal2 as nat, CountNumber(i.literals))
  }

  // What the machine makes of an instruction in the store.
  function Decoded(i: L.Inst): Option<Instruction> {
    var op := OpcodeOf(i.opcode);
    if op.None? then None
    else Some(Instruction(op.value, i.d1, i.d2, i.both, i.literal1, i.literal2, CountOf(i.literals)))
  }

  lemma DataFits(l: Data)
    ensures (l as nat) < 0x1_0000_0000_0000_0000
  {
  }

  lemma DataWord(l: Data, n: nat)
    requires n == l as nat && n < 0x1_0000_0000_0000_0000
    ensures L.LiteralWord(n) == l
  {
    SmallMod(n);
  }

  lemma SmallMod(n: nat)
    requires n < 0x1_0000_0000_0000_0000
    ensures n % 0x1_0000_0000_0000_0000 == n
  {
  }

  // Writing and reading the C structure loses nothing.
  lemma RecordDecoded(i: Instruction)
    ensures Decoded(L.InstOf(RecordOf(i))) == Some(i)
  {
    hide OpcodeNumber, OpcodeOf, Number, Word, L.LiteralWord;
    OpcodeRoundTrip(i.opcode);
    WordOfNumber(i.destination1);
    WordOfNumber(i.destination2);
    DataFits(i.literal1);
    DataFits(i.literal2);
    DataWord(i.literal1, i.literal1 as nat);
    DataWord(i.literal2, i.literal2 as nat);
  }

  // ---- The file of a module ----

  // Compiled code exports nothing and refers to nothing outside.
  function FileOf(o: Object): Format.File {
    Format.File(o.constants, o.labels, [], [], seq(|o.code|, k requires 0 <= k < |o.code| => RecordOf(o.code[k])))
  }

  // The same row of ones as a number and as a word
  predicate SameOnes(n: nat, w: bv32) {
    (n == 0 && w == 0) || (n % 2 == 1 && Odd(w) && SameOnes(n / 2, Half(w)))
  }

  lemma {:induction false} NumberAtMost(w: bv32, top: nat, limit: bv32)
    requires SameOnes(top, limit) && w <= limit
    ensures Number(w) <= top
    decreases top
  {
    hide Half, Odd, Number;
    NumberIs(w);
    if top == 0 {
      AtMostZero(w);
    } else {
      HalfAtMost(w, limit);
      NumberAtMost(Half(w), top / 2, Half(limit));
    }
  }

  lemma NumberIs(w: bv32)
    ensures w == 0 ==> Number(w) == 0
    ensures Number(w) <= 2 * Number(Half(w)) + 1
  {
    hide Odd;
  }

  lemma AtMostZero(w: bv32)
    requires w <= 0
    ensures w == 0
  {
  }

  lemma HalfAtMost(w: bv32, limit: bv32)
    requires w <= limit
    ensures Half(w) <= Half(limit)
  {
  }

  lemma LowOnes()
    ensures SameOnes(0xFFFF, 0xFFFF)
  {
    assert SameOnes(0x3, 0x3);
    assert SameOnes(0xF, 0xF);
    assert SameOnes(0x3F, 0x3F);
    assert SameOnes(0xFF, 0xFF);
    assert SameOnes(0x3FF, 0x3FF);
    assert SameOnes(0xFFF, 0xFFF);
    assert SameOnes(0x3FFF, 0x3FFF);
  }

  lemma Ones()
    ensures SameOnes(0xFFFF_FFFF, 0xFFFF_FFFF)
  {
    LowOnes();
    assert SameOnes(0x3_FFFF, 0x3_FFFF);
    assert SameOnes(0xF_FFFF, 0xF_FFFF);
    assert SameOnes(0x3F_FFFF, 0x3F_FFFF);
    assert SameOnes(0xFF_FFFF, 0xFF_FFFF);
    assert SameOnes(0x3FF_FFFF, 0x3FF_FFFF);
    assert SameOnes(0xFFF_FFFF, 0xFFF_FFFF);
    assert SameOnes(0x3FFF_FFFF, 0x3FFF_FFFF);
  }

  lemma NumberFits(w: bv32)
    ensures Number(w) < 0x1_0000_0000
  {
    hide SameOnes, Number;
    Ones();
    NumberAtMost(w, 0xFFFF_FFFF, 0xFFFF_FFFF);
  }

  lemma RecordFits(i: Instruction)
    ensures Format.InstFits(RecordOf(i))
  {
    hide OpcodeNumber, Number;
    OpcodeRoundTrip(i.opcode);
    NumberFits(i.destination1);
    NumberFits(i.destination2);
    DataFits(i.literal1);
    DataFits(i.literal2);
  }

  // What Assemble ensures of its result.
  ghost predicate ObjectOf(rows: seq<P.Row>, c: Circuit, o: Object) {
    BuiltFrom(rows, c) && o.code == c.Program() && ListsAre(c.nodes, c.order, |c.order|, o.constants, o.labels)
  }

  lemma {:induction false} EntriesFit(nodes: seq<Node>, order: seq<nat>, v: nat)
    requires v <= |order| <= 0xFFFF_FFFF && forall k :: 0 <= k < |order| ==> order[k] < |nodes|
    ensures forall x :: x in Constants(nodes, order, v) ==> Format.PatchFits(x)
    ensures forall x :: x in LabelPatches(nodes, order, v) ==> Format.PatchFits(x)
  {
    hide ToPlace;
    if v > 0 { EntriesFit(nodes, order, v - 1); }
  }

  lemma OrderFits(c: Circuit)
    requires Complete(c.nodes, c.labels, c.left, c.order, c.idx, c.insts)
    ensures |c.order| <= |c.nodes| <= 0xFFF_FFFB && |c.insts| == |c.order|
    ensures forall k :: 0 <= k < |c.order| ==> c.order[k] < |c.nodes| && c.nodes[c.order[k]].op.Op? && c.order[k] in c.idx && c.idx[c.order[k]] == k
  {
    hide Done, RoomAt, IsSettled, LabelOk, InGraph;
    OrderInside(c.nodes, c.labels, c.order, c.idx, c.insts, |c.order|);
    forall i, j | 0 <= i < j < |c.order| ensures c.order[i] != c.order[j] { assert c.idx[c.order[i]] == i && c.idx[c.order[j]] == j; }
    FewEnough(c.order, |c.nodes|);
  }

  // The file can be written as long as its two lists are short enough for their 16-bit lengths, and
  // then it can be read.
  lemma FileWritten(rows: seq<P.Row>, c: Circuit, o: Object)
    requires ObjectOf(rows, c, o) && |o.constants| < 0x1_0000 && |o.labels| < 0x1_0000
    ensures L.Written(FileOf(o), Format.EncodeFile(FileOf(o))) && L.NothingBehind(FileOf(o))
  {
    hide Format.EncodeFile, RecordOf, Complete, Format.PatchFits, Format.InstFits, Constants, LabelPatches;
    OrderFits(c);
    EntriesFit(c.nodes, c.order, |c.order|);
    var code := FileOf(o).code;
    forall x | x in code
      ensures Format.InstFits(x)
    {
      var k :| 0 <= k < |code| && code[k] == x;
      RecordFits(o.code[k]);
    }
  }

  // ---- The program at another place ----

  // The nodes with their addresses moved.
  function IndexAt(idx: Index, offset: nat): (r: Index)
    ensures r.Keys == idx.Keys && forall n :: n in idx ==> r[n] == idx[n] + offset
  {
    map n | n in idx :: idx[n] + offset
  }

  function WordAt(c: Circuit, offset: nat, e: Option<Dest>): Destination {
    if e.Some? && IsPlaced(c.nodes, c.idx, e.value.node) then TargetWord(c.nodes, IndexAt(c.idx, offset), e.value) else DEV_NULL
  }

  function LiteralAt(c: Circuit, offset: nat, n: Node): Data {
    if n.in1.Ref? && n.in1.name in c.labels && c.labels[n.in1.name] in c.idx
    then LabelWord(IndexAt(c.idx, offset), c.labels[n.in1.name])
    else LiteralOf(n.in1)
  }

  // The k-th instruction of the program if the first one has address `offset`.
  function InstructionAt(c: Circuit, offset: nat, k: nat): Instruction
    requires k < |c.Program()| == |c.order| && c.order[k] < |c.nodes|
  {
    var n := c.nodes[c.order[k]];
    c.Program()[k].(destination1 := WordAt(c, offset, n.d1), destination2 := WordAt(c, offset, n.d2), literal1 := LiteralAt(c, offset, n))
  }

  // Moving the word is moving the address.
  lemma WordMoves(nodes: seq<Node>, idx: Index, e: Dest, offset: nat)
    requires e.node < |nodes| && nodes[e.node].op.Op? && e.node in idx && idx[e.node] < 0x1000_0000 && IsInput(e.input)
    ensures L.Increment(TargetWord(nodes, idx, e), offset) == TargetWord(nodes, IndexAt(idx, offset), e)
  {
    hide Matching, CreateDestination, Word, Number, Address, InputOf, MatchingOf, Plus;
    AddressOfWord(idx[e.node]);
    InputFits(e.input);
    MatchingFits(nodes[e.node]);
    DestinationRoundTrip(Word(idx[e.node]), e.input, Matching(nodes[e.node]));
    WordAdd(idx[e.node], offset);
  }

  lemma LabelWordMoves(idx: Index, target: nat, offset: nat)
    requires target in idx && idx[target] < 0x1000_0000
    ensures L.IncrementLiteral(LabelWord(idx, target), offset) == LabelWord(IndexAt(idx, offset), target)
  {
    hide LabelWord, Wide, LabelAt, L.Increment, L.IncrementLiteral;
    LabelWordIs(idx, target);
    LabelWordIs(IndexAt(idx, offset), target);
    FirstInputMoves(idx[target], offset);
    LiteralIncrement(LabelAt(idx[target]), offset);
  }

  function Wide(d: Destination): Data { d as Data }

  function LabelAt(i: nat): Destination { CreateDestination(Word(i), INPUT_ONE, MATCHING_ONE) }

  lemma LabelWordIs(idx: Index, target: nat)
    requires target in idx
    ensures LabelWord(idx, target) == Wide(LabelAt(idx[target]))
  {
    hide CreateDestination, Word;
  }

  lemma FirstInputMoves(i: nat, offset: nat)
    requires i < 0x1000_0000
    ensures L.Increment(LabelAt(i), offset) == LabelAt(i + offset)
  {
    hide CreateDestination, Word, Number, Address, InputOf, MatchingOf, Plus;
    AddressOfWord(i);
    LabelFields(Word(i));
    WordAdd(i, offset);
  }

  lemma LiteralIncrement(d: Destination, offset: nat)
    ensures L.IncrementLiteral(Wide(d), offset) == Wide(L.Increment(d, offset))
  {
    hide L.Increment, L.IncrementLiteral, Wide, Low;
    IncrementIs(Wide(d), offset);
    LowWide(d);
  }

  function Low(l: Data): Destination { (l & 0xFFFF_FFFF) as bv32 }

  lemma IncrementIs(l: Data, offset: nat)
    ensures L.IncrementLiteral(l, offset) == Wide(L.Increment(Low(l), offset))
  {
    hide L.Increment;
  }

  lemma LowWide(d: Destination)
    ensures Low(Wide(d)) == d
  {
    Narrow(d);
  }

  // A destination of the k-th instruction before the loader touches it
  lemma WordsOf(c: Circuit, k: nat)
    requires Complete(c.nodes, c.labels, c.left, c.order, c.idx, c.insts) && k < |c.order|
    ensures k < |c.Program()| && c.order[k] < |c.nodes|
    ensures var n, i := c.nodes[c.order[k]], c.Program()[k];
      && i.destination1 == WordAt(c, 0, n.d1) && i.destination2 == WordAt(c, 0, n.d2) && i.literal1 == LiteralAt(c, 0, n)
  {
    hide Matching, CreateDestination, Word, RoomAt, IsSettled, Placeable;
    OrderFits(c);
    assert Done(c.nodes, c.labels, c.order, c.idx, c.insts, k);
    assert IndexAt(c.idx, 0) == c.idx;
  }

  lemma DestinationMoves(c: Circuit, k: nat, part: L.Part, offset: nat)
    requires Complete(c.nodes, c.labels, c.left, c.order, c.idx, c.insts) && k < |c.order|
    requires part.FIRST_DESTINATION? || part.SECOND_DESTINATION?
    requires forall j :: 0 <= j < |c.order| ==> c.order[j] < |c.nodes|
    ensures var e := OutputOf(c.nodes[c.order[k]], part);
      L.MovedDestination(WordAt(c, 0, e), L.InList(Constants(c.nodes, c.order, |c.order|), k, part), offset) == WordAt(c, offset, e)
  {
    hide Placeable, Finished, RoomAt, IsSettled, TargetWord, L.Increment, L.InList, Number, Address, InputOf, MatchingOf, Matching, Constants, DEV_NULL, Reserved;
    var e := OutputOf(c.nodes[c.order[k]], part);
    ConstantsAre(c.nodes, c.order, |c.order|, k, part);
    assert IndexAt(c.idx, 0) == c.idx;
    if e.Some? {
      assert EdgeOf(c.nodes, c.order, k, e.value);
      Decodes(c.nodes, c.labels, c.left, c.order, c.idx, c.insts, k, e.value);
      if c.nodes[e.value.node].op.Op? {
        NotAnOutput(TargetWord(c.nodes, c.idx, e.value));
        EdgeInGraph(c.nodes, c.labels, c.left, c.order[k], e.value);
        Addressed(c, e.value.node);
        EdgeInput(c, k, e.value);
        WordMoves(c.nodes, c.idx, e.value, offset);
      } else {
        PlaceStays(c.nodes, c.idx, IndexAt(c.idx, offset), e.value);
      }
    }
  }

  lemma PlaceStays(nodes: seq<Node>, idx: Index, idx': Index, e: Dest)
    requires e.node < |nodes| && !nodes[e.node].op.Op?
    ensures TargetWord(nodes, idx, e) == TargetWord(nodes, idx', e)
  {
  }

  lemma Addressed(c: Circuit, n: nat)
    requires Complete(c.nodes, c.labels, c.left, c.order, c.idx, c.insts) && n in c.idx
    ensures c.idx[n] < |c.order| <= 0xFFF_FFFB
  {
    hide Placeable, Done, RoomAt, IsSettled;
    OrderFits(c);
  }

  lemma EdgeInput(c: Circuit, k: nat, e: Dest)
    requires Placeable(c.nodes, c.labels, c.left) && EdgeOf(c.nodes, c.order, k, e)
    ensures IsInput(e.input)
  {
    hide LabelOk;
    assert InGraph(c.nodes, c.nodes[c.order[k]].d1) && InGraph(c.nodes, c.nodes[c.order[k]].d2);
  }

  lemma LiteralMoves(c: Circuit, k: nat, offset: nat)
    requires Complete(c.nodes, c.labels, c.left, c.order, c.idx, c.insts) && k < |c.order|
    requires forall j :: 0 <= j < |c.order| ==> c.order[j] < |c.nodes|
    ensures var n := c.nodes[c.order[k]];
      && L.MovedLiteral(LiteralAt(c, 0, n), L.InList(LabelPatches(c.nodes, c.order, |c.order|), k, L.FIRST_LITERAL), offset) == LiteralAt(c, offset, n)
      && !L.InList(LabelPatches(c.nodes, c.order, |c.order|), k, L.SECOND_LITERAL)
  {
    hide Placeable, RoomAt, IsSettled, LabelWord, L.IncrementLiteral, L.InList, LabelPatches;
    LabelsAre(c.nodes, c.order, |c.order|, k, L.FIRST_LITERAL);
    LabelsAre(c.nodes, c.order, |c.order|, k, L.SECOND_LITERAL);
    assert IndexAt(c.idx, 0) == c.idx;
    var n := c.nodes[c.order[k]];
    assert Done(c.nodes, c.labels, c.order, c.idx, c.insts, k);
    if n.in1.Ref? {
      Addressed(c, c.labels[n.in1.name]);
      LabelWordMoves(c.idx, c.labels[n.in1.name], offset);
    }
  }

  // ---- What is loaded is what is run ----

  // Every instruction of the loaded block is that of the program placed at the offset: no edge and no
  // label is missed, none is moved that should stay, and nothing else changes.
  lemma BlockDecoded(rows: seq<P.Row>, c: Circuit, o: Object, offset: nat, privileged: bool, k: nat)
    requires ObjectOf(rows, c, o) && k < |c.Program()|
    ensures |c.Program()| == |c.order| && c.order[k] < |c.nodes|
    ensures |L.Block(L.ModuleOf(FileOf(o)), offset, privileged)| == |c.Program()|
    ensures Decoded(L.Block(L.ModuleOf(FileOf(o)), offset, privileged)[k]) == Some(InstructionAt(c, offset, k))
  {
    hide Complete, WordAt, LiteralAt, L.InList, L.InstOf, RecordOf, L.MovedDestination, L.MovedLiteral, Constants, LabelPatches, OpcodeOf;
    OrderFits(c);
    WordsOf(c, k);
    DestinationMoves(c, k, L.FIRST_DESTINATION, offset);
    DestinationMoves(c, k, L.SECOND_DESTINATION, offset);
    LiteralMoves(c, k, offset);
    RecordDecoded(c.Program()[k]);
    NotPrivileged(c.Program()[k], privileged);
    var m := L.ModuleOf(FileOf(o));
    assert m.code[k] == L.InstOf(RecordOf(o.code[k]));
    Stays(m.code[k].literal2, offset);
  }

  lemma Stays(l: Data, offset: nat)
    ensures L.MovedLiteral(l, false, offset) == l
  {
  }

  lemma NotPrivileged(i: Instruction, privileged: bool)
    ensures L.Allowed(L.InstOf(RecordOf(i)).opcode, privileged) == L.InstOf(RecordOf(i)).opcode
  {
    hide OpcodeNumber, Number, Word, L.LiteralWord;
    OpcodeRoundTrip(i.opcode);
  }

  // The store from `offset` on holds the program placed there.
  ghost predicate HoldsAt(store: seq<L.Inst>, c: Circuit, offset: nat) {
    && offset + |c.Program()| <= |store| && |c.Program()| == |c.order|
    && forall k :: 0 <= k < |c.order| ==> c.order[k] < |c.nodes| && Decoded(store[offset + k]) == Some(InstructionAt(c, offset, k))
  }

  // One load behind whatever is there already: always successful, since nothing is referred to.
  lemma LoadedHolds(rows: seq<P.Row>, c: Circuit, o: Object, was: seq<L.Inst>, names: seq<L.Export>, privileged: bool,
                    now: seq<L.Inst>, names': seq<L.Export>)
    requires ObjectOf(rows, c, o) && L.Loaded(was, names, L.ModuleOf(FileOf(o)), privileged, now, names')
    ensures was <= now && |now| == |was| + |c.Program()| && HoldsAt(now, c, |was|) && names' == names
  {
    hide ObjectOf, L.Block, Decoded, InstructionAt;
    var block := L.Block(L.ModuleOf(FileOf(o)), |was|, privileged);
    assert now == was + block;
    BlockSize(rows, c, o, |was|, privileged);
    forall k | 0 <= k < |c.order|
      ensures c.order[k] < |c.nodes| && Decoded(now[|was| + k]) == Some(InstructionAt(c, |was|, k))
    {
      BlockDecoded(rows, c, o, |was|, privileged, k);
      assert now[|was| + k] == block[k];
    }
  }

  lemma BlockSize(rows: seq<P.Row>, c: Circuit, o: Object, offset: nat, privileged: bool)
    requires ObjectOf(rows, c, o)
    ensures |L.Block(L.ModuleOf(FileOf(o)), offset, privileged)| == |c.Program()| == |c.order|
  {
    hide Complete, L.Relocated, RecordOf;
    OrderFits(c);
  }

  // ... and there it stays, whatever is loaded later.
  lemma StaysHeld(ms: seq<L.Module>, privileged: seq<bool>, stores: seq<L.Store>, k: nat, j: nat, rows: seq<P.Row>, c: Circuit, o: Object)
    requires L.LoadedAll(ms, privileged, stores) && k < j <= |ms| && ObjectOf(rows, c, o) && ms[k] == L.ModuleOf(FileOf(o))
    ensures HoldsAt(stores[j].instructions, c, L.Offset(ms, k))
  {
    hide ObjectOf, L.Block, L.Offset, L.LoadedAll, Decoded, InstructionAt, FileOf;
    L.Sizes(ms, privileged, stores);
    L.BlockStays(ms, privileged, stores, k, j);
    var offset, now := L.Offset(ms, k), stores[j].instructions;
    NothingOutside(o);
    var block := L.Block(ms[k], offset, privileged[k]);
    assert now[offset..offset + |ms[k].code|] == block;
    BlockSize(rows, c, o, offset, privileged[k]);
    forall i | 0 <= i < |c.order|
      ensures c.order[i] < |c.nodes| && Decoded(now[offset + i]) == Some(InstructionAt(c, offset, i))
    {
      BlockDecoded(rows, c, o, offset, privileged[k], i);
      assert now[offset + i] == now[offset..offset + |ms[k].code|][i];
    }
  }

  lemma NothingOutside(o: Object)
    ensures L.ModuleOf(FileOf(o)).externals == [] && |L.ModuleOf(FileOf(o)).code| == |o.code|
  {
  }

  // Loaded into an empty store the program is the one the machine theorems are about.
  lemma HeldAlone(rows: seq<P.Row>, c: Circuit, o: Object, now: seq<L.Inst>)
    requires ObjectOf(rows, c, o) && HoldsAt(now, c, 0)
    ensures forall k :: 0 <= k < |c.Program()| ==> Decoded(now[k]) == Some(c.Program()[k])
  {
    hide Complete, Decoded, WordAt, LiteralAt;
    forall k | 0 <= k < |c.Program()|
      ensures Decoded(now[k]) == Some(c.Program()[k])
    {
      WordsOf(c, k);
      assert Decoded(now[0 + k]) == Some(InstructionAt(c, 0, k));
    }
  }

  // The assembler writes the file, the loader loads it.
  method WriteAndLoad(store: L.InstructionStore, o: Object, privileged: bool, ghost rows: seq<P.Row>, ghost c: Circuit) returns (ok: bool)
    requires ObjectOf(rows, c, o) && |o.constants| < 0x1_0000 && |o.labels| < 0x1_0000
    modifies store
    ensures ok && old(store.instructions) <= store.instructions && store.exports == old(store.exports)
    ensures |store.instructions| == |old(store.instructions)| + |c.Program()|
    ensures HoldsAt(store.instructions, c, |old(store.instructions)|)
  {
    hide ObjectOf, Format.EncodeFile, Format.DecodeFile, Format.FileFits, L.Loaded, HoldsAt, RecordOf;
    var f := FileOf(o);
    var b := Format.WriteFile(f);
    FileWritten(rows, c, o);
    Format.FileRoundTrip(f);
    ok := store.LoadBytes(b, privileged);
    assert L.Written(f, b);
    LoadedHolds(rows, c, o, old(store.instructions), old(store.exports), privileged, store.instructions, store.exports);
  }
}
