// Loading modules into the instruction store: relocation, external references, exports.
module Loader {
  import opened Words
  import opened Numbers
  import opened Types
  import Format

  type Name = seq<Format.Byte>

  // destination_to_update
  type Patch = Format.Patch

  type External = Format.External

  // An instruction of a file, with words for numbers; opcodes are numbers here.
  datatype Inst = Inst(opcode: nat, d1: Destination, d2: Destination, both: bool, literal1: Data, literal2: Data, literals: nat)

  datatype Part = FIRST_DESTINATION | SECOND_DESTINATION | FIRST_LITERAL | SECOND_LITERAL

  datatype Export = Export(destination: Destination, name: Name)

  datatype Module = Module(constants: seq<Patch>, labels: seq<Patch>, externals: seq<External>, exports: seq<Export>, code: seq<Inst>)

  const DUP_OPCODE: nat := 5

  // OPN RED WRT CLS, HLT LOD LS SDF ULK LSK RND
  predicate Privileged(opcode: nat) {
    22 <= opcode <= 25 || 28 <= opcode <= 34
  }

  predicate Marks(p: Patch, part: Part) {
    match part
    case FIRST_DESTINATION => p.first
    case SECOND_DESTINATION => p.second
    case FIRST_LITERAL => p.literal1
    case SECOND_LITERAL => p.literal2
  }

  // ---- Relocation ----

  // increment_destination_address
  function Increment(d: Destination, offset: nat): Destination {
    CreateDestination(Plus(Address(d), Word(offset)), InputOf(d), MatchingOf(d))
  }

  // The word leads `offset` instructions further, to the same input, with the same matching.
  lemma IncrementMoves(d: Destination, offset: nat)
    requires Number(Address(d)) + offset < 0x1000_0000
    ensures var r := Increment(d, offset);
      && Number(Address(r)) == Number(Address(d)) + offset
      && InputOf(r) == InputOf(d) && MatchingOf(r) == MatchingOf(d)
  {
    hide Word, Number, Plus, Address, InputOf, MatchingOf, CreateDestination;
    AddressPlus(Address(d), offset);
    DestinationFields(d);
    DestinationRoundTrip(Plus(Address(d), Word(offset)), InputOf(d), MatchingOf(d));
  }

  // The literal is taken as a 32-bit word.
  function IncrementLiteral(l: Data, offset: nat): Data {
    Increment((l & 0xFFFF_FFFF) as bv32, offset) as Data
  }

  predicate InList(ps: seq<Patch>, i: nat, part: Part) {
    exists k :: 0 <= k < |ps| && ps[k].instruction == i && Marks(ps[k], part)
  }

  // is_in_list
  method IsInList(ps: seq<Patch>, i: nat, part: Part) returns (r: bool)
    ensures r == InList(ps, i, part)
  {
    for k := 0 to |ps|
      invariant forall j :: 0 <= j < k ==> !(ps[j].instruction == i && Marks(ps[j], part))
    {
      if ps[k].instruction == i && Marks(ps[k], part) { return true; }
    }
    return false;
  }

  function MovedDestination(d: Destination, constant: bool, offset: nat): Destination {
    if !constant && d != DEV_NULL then Increment(d, offset) else d
  }

  function MovedLiteral(l: Data, listed: bool, offset: nat): Data {
    if listed then IncrementLiteral(l, offset) else l
  }

  // User code cannot use privileged instructions: they become DUPs.
  function Allowed(opcode: nat, privileged: bool): nat {
    if !privileged && Privileged(opcode) then DUP_OPCODE else opcode
  }

  // Instruction i of a module at offset `offset`, before external references.
  ghost function Relocated(m: Module, i: nat, offset: nat, privileged: bool): Inst
    requires i < |m.code|
  {
    var c := m.code[i];
    c.(d1 := MovedDestination(c.d1, InList(m.constants, i, FIRST_DESTINATION), offset),
       d2 := MovedDestination(c.d2, InList(m.constants, i, SECOND_DESTINATION), offset),
       literal1 := MovedLiteral(c.literal1, InList(m.labels, i, FIRST_LITERAL), offset),
       literal2 := MovedLiteral(c.literal2, InList(m.labels, i, SECOND_LITERAL), offset),
       opcode := Allowed(c.opcode, privileged))
  }

  ghost function Block(m: Module, offset: nat, privileged: bool): (b: seq<Inst>)
    ensures |b| == |m.code|
  {
    seq(|m.code|, i requires 0 <= i < |m.code| => Relocated(m, i, offset, privileged))
  }

  // ---- Names ----

  // find_export: the first one counts.
  function Find(exports: seq<Export>, name: Name): Option<Destination> {
    if exports == [] then None
    else if exports[0].name == name then Some(exports[0].destination)
    else Find(exports[1..], name)
  }

  lemma {:induction false} FindMore(a: seq<Export>, b: seq<Export>, name: Name)
    ensures Find(a + b, name) == if Find(a, name).Some? then Find(a, name) else Find(b, name)
  {
    if a == [] {
      assert a + b == b;
    } else {
      assert (a + b)[1..] == a[1..] + b;
      FindMore(a[1..], b, name);
    }
  }

  // What a name resolves to is never changed by exporting more.
  lemma FoundForGood(a: seq<Export>, b: seq<Export>, name: Name)
    requires Find(a, name).Some?
    ensures Find(a + b, name) == Find(a, name)
  {
    FindMore(a, b, name);
  }

  method FindExport(exports: seq<Export>, name: Name) returns (r: Option<Destination>)
    ensures r == Find(exports, name)
  {
    var k := 0;
    assert exports[0..] == exports;
    while k < |exports|
      invariant k <= |exports| && Find(exports, name) == Find(exports[k..], name)
    {
      if exports[k].name == name { return Some(exports[k].destination); }
      assert exports[k..][1..] == exports[k + 1..];
      k := k + 1;
    }
    return None;
  }

  // ---- External references ----

  function Patched(c: Inst, p: Patch, d: Destination): Inst {
    c.(d1 := if p.first then d else c.d1, d2 := if p.second then d else c.d2,
       literal1 := if p.literal1 then d as Data else c.literal1,
       literal2 := if p.literal2 then d as Data else c.literal2)
  }

  ghost predicate Linkable(exports: seq<Export>, es: seq<External>, size: nat, k: nat) {
    k <= |es| && forall j :: 0 <= j < k ==> es[j].patch.instruction < size && Find(exports, es[j].name).Some?
  }

  // The block after the first k external references of a module.
  ghost function Resolved(block: seq<Inst>, es: seq<External>, exports: seq<Export>, k: nat): (b: seq<Inst>)
    requires Linkable(exports, es, |block|, k)
    ensures |b| == |block|
  {
    if k == 0 then block else
      var b, e := Resolved(block, es, exports, k - 1), es[k - 1];
      b[e.patch.instruction := Patched(b[e.patch.instruction], e.patch, Find(exports, e.name).value)]
  }

  function MovedExports(es: seq<Export>, offset: nat): (r: seq<Export>)
    ensures |r| == |es|
  {
    seq(|es|, k requires 0 <= k < |es| => Export(Increment(es[k].destination, offset), es[k].name))
  }

  // ---- The store ----

  class InstructionStore {
    var instructions: seq<Inst>
    var exports: seq<Export>

    constructor ()
      ensures instructions == [] && exports == []
    {
      instructions, exports := [], [];
    }

    method MoveDestination(constants: seq<Patch>, i: nat, part: Part, d: Destination, start: nat) returns (r: Destination)
      ensures r == MovedDestination(d, InList(constants, i, part), start)
    {
      hide Increment, DEV_NULL, InList;
      r := d;
      var fixed := IsInList(constants, i, part);
      if !fixed {
        if d != DEV_NULL { r := Increment(d, start); }
      }
    }

    method MoveLiteral(labels: seq<Patch>, i: nat, part: Part, l: Data, start: nat) returns (r: Data)
      ensures r == MovedLiteral(l, InList(labels, i, part), start)
    {
      hide IncrementLiteral, InList;
      r := l;
      var moves := IsInList(labels, i, part);
      if moves { r := IncrementLiteral(l, start); }
    }

    method Relocate(m: Module, i: nat, start: nat, privileged: bool) returns (inst: Inst)
      requires i < |m.code|
      ensures inst == Relocated(m, i, start, privileged)
    {
      hide MovedDestination, MovedLiteral, InList;
      inst := m.code[i];
      var d1 := MoveDestination(m.constants, i, FIRST_DESTINATION, inst.d1, start);
      var d2 := MoveDestination(m.constants, i, SECOND_DESTINATION, inst.d2, start);
      var l1 := MoveLiteral(m.labels, i, FIRST_LITERAL, inst.literal1, start);
      var l2 := MoveLiteral(m.labels, i, SECOND_LITERAL, inst.literal2, start);
      inst := inst.(d1 := d1, d2 := d2, literal1 := l1, literal2 := l2);
      if !privileged && Privileged(inst.opcode) { inst := inst.(opcode := DUP_OPCODE); }
    }

    method Append(m: Module, privileged: bool)
      modifies this`instructions
      ensures instructions == old(instructions) + Block(m, |old(instructions)|, privileged)
    {
      hide Relocated;
      var start := |instructions|;
      ghost var block := Block(m, start, privileged);
      for i := 0 to |m.code|
        invariant instructions == old(instructions) + block[..i]
      {
        var inst := Relocate(m, i, start, privileged);
        assert block[..i + 1] == block[..i] + [inst];
        instructions := instructions + [inst];
      }
      assert block[..|m.code|] == block;
    }

    method AllFound(es: seq<External>) returns (ok: bool)
      ensures ok <==> forall k :: 0 <= k < |es| ==> Find(exports, es[k].name).Some?
    {
      for k := 0 to |es|
        invariant forall j :: 0 <= j < k ==> Find(exports, es[j].name).Some?
      {
        var d := FindExport(exports, es[k].name);
        if d.None? { return false; }
      }
      return true;
    }

    // Patch the references of the block that starts at `start`; false if one lies beyond it.
    method Link(es: seq<External>, start: nat, ghost was: seq<Inst>, ghost block: seq<Inst>) returns (ok: bool)
      requires instructions == was + block && start == |was|
      requires forall k :: 0 <= k < |es| ==> Find(exports, es[k].name).Some? && es[k].patch.instruction != |block|
      modifies this`instructions
      ensures ok <==> Linkable(exports, es, |block|, |es|)
      ensures ok ==> instructions == was + Resolved(block, es, exports, |es|)
      ensures was <= instructions && |instructions| == |was| + |block|
    {
      hide Patched, Find;
      for k := 0 to |es|
        invariant Linkable(exports, es, |block|, k) && instructions == was + Resolved(block, es, exports, k)
      {
        var e := es[k];
        var d := FindExport(exports, e.name);
        if start + e.patch.instruction > |instructions| { return false; }
        var at := start + e.patch.instruction;
        instructions := instructions[at := Patched(instructions[at], e.patch, d.value)];
      }
      return true;
    }

    method AddExports(es: seq<Export>, start: nat)
      modifies this`exports
      ensures exports == old(exports) + MovedExports(es, start)
    {
      hide Increment;
      ghost var moved := MovedExports(es, start);
      for k := 0 to |es|
        invariant exports == old(exports) + moved[..k]
      {
        assert moved[..k + 1] == moved[..k] + [moved[k]];
        exports := exports + [Export(Increment(es[k].destination, start), es[k].name)];
      }
      assert moved[..|es|] == moved;
    }

    // load_file. A reference to the first instruction behind the module writes outside the store.
    method LoadFile(m: Module, privileged: bool) returns (ok: bool)
      requires forall k :: 0 <= k < |m.externals| ==> m.externals[k].patch.instruction != |m.code|
      modifies this
      ensures ok <==> Linkable(old(exports), m.externals, |m.code|, |m.externals|)
      ensures ok ==> Loaded(old(instructions), old(exports), m, privileged, instructions, exports)
      ensures !ok ==> exports == old(exports) && old(instructions) <= instructions
      ensures !ok && (forall k :: 0 <= k < |m.externals| ==> Find(old(exports), m.externals[k].name).Some?) ==>
        |instructions| == |old(instructions)| + |m.code|
      ensures (exists k :: 0 <= k < |m.externals| && Find(old(exports), m.externals[k].name).None?) ==>
        instructions == old(instructions)
    {
      hide Block, Find, Resolved, MovedExports;
      var found := AllFound(m.externals);
      if !found { return false; }
      var start := |instructions|;
      Append(m, privileged);
      ok := Link(m.externals, start, old(instructions), Block(m, start, privileged));
      if !ok { return false; }
      AddExports(m.exports, start);
    }

    // load_file from the bytes of the file
    method LoadBytes(b: seq<Format.Byte>, privileged: bool) returns (ok: bool)
      requires forall f :: Format.DecodeFile(b) == Some(f) ==> NothingBehind(f)
      modifies this
      ensures Format.DecodeFile(b).None? ==> !ok && instructions == old(instructions) && exports == old(exports)
      ensures forall f :: Written(f, b) ==> (ok <==> Linkable(old(exports), f.externals, |f.code|, |f.externals|))
      ensures ok ==> forall f :: Written(f, b) ==> Loaded(old(instructions), old(exports), ModuleOf(f), privileged, instructions, exports)
    {
      hide Format.DecodeFile, Format.EncodeFile, Format.FileFits, Loaded, Linkable;
      var f := Format.DecodeFile(b);
      forall g | Written(g, b) ensures f == Some(g) { Format.FileRoundTrip(g); }
      if f.None? { return false; }
      ok := LoadFile(ModuleOf(f.value), privileged);
    }
  }

  // No reference of the file names the instruction just behind its code.
  predicate NothingBehind(f: Format.File) {
    forall k :: 0 <= k < |f.externals| ==> f.externals[k].patch.instruction != |f.code|
  }

  // b is what the assembler writes for f.
  ghost predicate Written(f: Format.File, b: seq<Format.Byte>) {
    Format.FileFits(f) && b == Format.EncodeFile(f)
  }

  function LiteralWord(n: nat): Data { (n % 0x1_0000_0000_0000_0000) as Data }

  // The C structures of a file.
  function InstOf(i: Format.Inst): Inst {
    Inst(i.opcode, Word(i.d1), Word(i.d2), i.marker == 1, LiteralWord(i.literal1), LiteralWord(i.literal2), i.literals)
  }

  function ModuleOf(f: Format.File): (m: Module)
    ensures m.externals == f.externals && |m.code| == |f.code|
  {
    Module(f.constants, f.labels, f.externals,
           seq(|f.exports|, k requires 0 <= k < |f.exports| => Export(Word(f.exports[k].destination), f.exports[k].name)),
           seq(|f.code|, k requires 0 <= k < |f.code| => InstOf(f.code[k])))
  }

  // What one successful load does: the old store, then the linked block; the old exports, then the
  // moved ones.
  ghost predicate Loaded(was: seq<Inst>, names: seq<Export>, m: Module, privileged: bool, now: seq<Inst>, names': seq<Export>) {
    && Linkable(names, m.externals, |m.code|, |m.externals|)
    && now == was + Resolved(Block(m, |was|, privileged), m.externals, names, |m.externals|)
    && names' == names + MovedExports(m.exports, |was|)
  }

  // ---- Any number of loads ----

  datatype Store = Store(instructions: seq<Inst>, exports: seq<Export>)

  // ms are loaded one after the other, all successfully.
  ghost predicate LoadedAll(ms: seq<Module>, privileged: seq<bool>, stores: seq<Store>) {
    && |privileged| == |ms| && |stores| == |ms| + 1
    && stores[0] == Store([], [])
    && forall k :: 0 <= k < |ms| ==> LoadedAt(ms, privileged, stores, k)
  }

  ghost predicate LoadedAt(ms: seq<Module>, privileged: seq<bool>, stores: seq<Store>, k: nat)
    requires k < |ms| == |privileged| && |stores| == |ms| + 1
  {
    Loaded(stores[k].instructions, stores[k].exports, ms[k], privileged[k], stores[k + 1].instructions, stores[k + 1].exports)
  }

  // Where module k begins: behind all modules before it.
  function Offset(ms: seq<Module>, k: nat): nat
    requires k <= |ms|
  {
    if k == 0 then 0 else Offset(ms, k - 1) + |ms[k - 1].code|
  }

  lemma {:induction false} OffsetIsSize(ms: seq<Module>, privileged: seq<bool>, stores: seq<Store>, k: nat)
    requires LoadedAll(ms, privileged, stores) && k <= |ms|
    ensures |stores[k].instructions| == Offset(ms, k)
    decreases k
  {
    if k > 0 {
      OffsetIsSize(ms, privileged, stores, k - 1);
      assert LoadedAt(ms, privileged, stores, k - 1);
    }
  }

  lemma {:induction false} LaterLoads(ms: seq<Module>, privileged: seq<bool>, stores: seq<Store>, k: nat, j: nat)
    requires LoadedAll(ms, privileged, stores) && k <= j <= |ms|
    ensures stores[k].instructions <= stores[j].instructions && stores[k].exports <= stores[j].exports
    decreases j
  {
    if k < j {
      LaterLoads(ms, privileged, stores, k, j - 1);
      assert LoadedAt(ms, privileged, stores, j - 1);
    }
  }

  // In every later store module k is still there, linked as it was when it was loaded.
  lemma BlockStays(ms: seq<Module>, privileged: seq<bool>, stores: seq<Store>, k: nat, j: nat)
    requires LoadedAll(ms, privileged, stores) && k < j <= |ms|
    ensures Offset(ms, k) + |ms[k].code| <= |stores[j].instructions|
    ensures Linkable(stores[k].exports, ms[k].externals, |ms[k].code|, |ms[k].externals|)
    ensures stores[j].instructions[Offset(ms, k)..Offset(ms, k) + |ms[k].code|] == LinkedBlock(ms, privileged, stores, k)
  {
    hide Resolved, Block, Linkable, LoadedAll, LinkedBlock, Offset;
    AfterLoad(ms, privileged, stores, k);
    LaterLoads(ms, privileged, stores, k + 1, j);
    Sizes(ms, privileged, stores);
    Slice(stores[k].instructions, LinkedBlock(ms, privileged, stores, k), stores[j].instructions);
  }

  ghost function LinkedBlock(ms: seq<Module>, privileged: seq<bool>, stores: seq<Store>, k: nat): (b: seq<Inst>)
    requires k < |ms| == |privileged| && |stores| == |ms| + 1
    requires Linkable(stores[k].exports, ms[k].externals, |ms[k].code|, |ms[k].externals|)
    ensures |b| == |ms[k].code|
  {
    Resolved(Block(ms[k], Offset(ms, k), privileged[k]), ms[k].externals, stores[k].exports, |ms[k].externals|)
  }

  lemma Sizes(ms: seq<Module>, privileged: seq<bool>, stores: seq<Store>)
    requires LoadedAll(ms, privileged, stores)
    ensures |privileged| == |ms| && |stores| == |ms| + 1
  {
  }

  lemma AfterLoad(ms: seq<Module>, privileged: seq<bool>, stores: seq<Store>, k: nat)
    requires LoadedAll(ms, privileged, stores) && k < |ms|
    ensures |stores[k].instructions| == Offset(ms, k)
    ensures Linkable(stores[k].exports, ms[k].externals, |ms[k].code|, |ms[k].externals|)
    ensures stores[k + 1].instructions == stores[k].instructions + LinkedBlock(ms, privileged, stores, k)
  {
    hide Resolved, Block, Linkable;
    OffsetIsSize(ms, privileged, stores, k);
    assert LoadedAt(ms, privileged, stores, k);
  }

  lemma Slice(was: seq<Inst>, block: seq<Inst>, now: seq<Inst>)
    requires was + block <= now
    ensures |was| + |block| <= |now| && now[|was|..|was| + |block|] == block
  {
  }

  // What a name once resolves to, it resolves to for ever: the first exporter wins.
  lemma FirstExporterWins(ms: seq<Module>, privileged: seq<bool>, stores: seq<Store>, k: nat, j: nat, name: Name)
    requires LoadedAll(ms, privileged, stores) && k <= j <= |ms| && Find(stores[k].exports, name).Some?
    ensures Find(stores[j].exports, name) == Find(stores[k].exports, name)
  {
    LaterLoads(ms, privileged, stores, k, j);
    var a, b := stores[k].exports, stores[j].exports[|stores[k].exports|..];
    assert stores[j].exports == a + b;
    FoundForGood(a, b, name);
  }

  // The name of a module's export, if nobody exported it before, resolves to its own word moved by
  // the module's offset.
  lemma {:induction false} OwnExport(es: seq<Export>, offset: nat, k: nat)
    requires k < |es| && forall j :: 0 <= j < k ==> es[j].name != es[k].name
    ensures Find(MovedExports(es, offset), es[k].name) == Some(Increment(es[k].destination, offset))
    decreases k
  {
    hide Increment;
    var moved := MovedExports(es, offset);
    if k > 0 {
      assert moved[1..] == MovedExports(es[1..], offset);
      OwnExport(es[1..], offset, k - 1);
      assert es[1..][k - 1] == es[k];
    }
  }

  lemma NewExportFound(ms: seq<Module>, privileged: seq<bool>, stores: seq<Store>, k: nat, e: nat)
    requires LoadedAll(ms, privileged, stores) && k < |ms| && e < |ms[k].exports|
    requires Find(stores[k].exports, ms[k].exports[e].name).None?
    requires forall j :: 0 <= j < e ==> ms[k].exports[j].name != ms[k].exports[e].name
    ensures Find(stores[k + 1].exports, ms[k].exports[e].name)
      == Some(Increment(ms[k].exports[e].destination, Offset(ms, k)))
  {
    hide Increment, MovedExports, Find;
    OffsetIsSize(ms, privileged, stores, k);
    assert LoadedAt(ms, privileged, stores, k);
    FindMore(stores[k].exports, MovedExports(ms[k].exports, Offset(ms, k)), ms[k].exports[e].name);
    OwnExport(ms[k].exports, Offset(ms, k), e);
  }
}
