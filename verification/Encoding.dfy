// The token rules of Tass are what the function unit does, once tags and words are packed into bits.
module Encoding {
  import opened Words
  import T = Tass
  import opened Types
  import opened Machine

  // The iteration count, modulo 2^32.
  function CountBits(i: nat): bv32 {
    if i == 0 then 0 else CountBits(i - 1) + 1
  }

  // How an assembled program names its NTG instructions, and the areas they draw.
  datatype Layout = Layout(site: T.Name -> Destination, areas: (Destination, TagBits) -> bv32)
  {
    function AreaBits(a: T.Area): bv32
      decreases a
    {
      match a
      case Root => 0
      case Activation(n, parent) => areas(site(n), TagBits(parent))
    }

    function TagBits(t: T.Tag): TagBits
      decreases t
    {
      CreateTag(AreaBits(t.area), CountBits(t.iter))
    }

    function WordBits(w: T.Word): Data {
      match w
      case Num(n) => n
      case TagWord(t) => TagBits(t)
    }

    function TokenBits(d: Destination, t: T.Token): Token {
      Token(d, WordBits(t.word), TagBits(t.tag))
    }
  }

  // The opcode a line assembles to; an output line becomes no instruction.
  function OpcodeOf(l: T.Line): Opcode
    requires !l.Output?
  {
    match l
    case Literal(_, _) => DUP
    case Copy(_, _) => DUP
    case Binary(_, op, _, _) => BIN(op)
    case Merge(_, _, _) => MER
    case Branch(_, _, _, _) => BRR
    case NewTag(_, _, _) => NTG
    case CopyTag(_, _, _) => CTG
    case CopyTagLit(_, _, _) => CTG
    case NextIter(_, _) => ITG
    case ResetIter(_, _) => SIL
    case ReadTag(_, _) => ETG
  }

  // The operands and the tag of a firing.
  function Data1(y: Layout, l: T.Line, ins: T.Inputs): Data {
    if l.Literal? then l.value else if ins.Nothing? then 0 else y.WordBits(ins.x.word)
  }

  function Data2(y: Layout, l: T.Line, ins: T.Inputs): Data {
    if l.CopyTagLit? then l.value else if ins.Two? then y.WordBits(ins.y.word) else 0
  }

  function TagOf(ins: T.Inputs): T.Tag {
    if ins.Nothing? then T.NO_TAG else ins.x.tag
  }

  function PacketOf(y: Layout, l: T.Line, ins: T.Inputs, d1: Destination, d2: Destination, input: Destination, both: bool): Packet
    requires !l.Output?
  {
    Packet(Data1(y, l, ins), Data2(y, l, ins), OpcodeOf(l), y.TagBits(TagOf(ins)), d1, d2, input, both)
  }

  // The operands are of the kind the compiler gives them, and the iteration count does not wrap.
  predicate Plain(l: T.Line, ins: T.Inputs) {
    match l
    case Binary(_, _, _, _) => ins.Two? && ins.x.word.Num? && ins.y.word.Num?
    case Branch(_, f, _, _) => ins.Two? && ins.y.word.Num?
    case CopyTag(_, _, _) => ins.Two? && ins.x.word.TagWord?
    case CopyTagLit(_, _, _) => ins.One? && ins.x.word.TagWord?
    case NextIter(_, _) => ins.One? && CountBits(ins.x.tag.iter) != 0xFFFF_FFFF
    case _ => true
  }

  // Lines whose instruction sends its one result to both its destinations.
  predicate OneResult(l: T.Line) {
    !l.Branch? && !l.NewTag? && !l.Output?
  }

  lemma NextBits(area: bv32, n: bv32, m: bv32, t: TagBits, u: TagBits)
    requires n != 0xFFFF_FFFF && m == n + 1 && t == CreateTag(area, n) && u == CreateTag(area, m)
    ensures u == t + 1
  {
  }

  lemma ResetBits(area: bv32, n: bv32, zero: Data)
    requires zero == 0
    ensures CreateTag(TagArea(CreateTag(area, n)), (zero & 0xFFFF_FFFF) as bv32) == CreateTag(area, 0)
  {
  }

  lemma NextIterAgrees(y: Layout, l: T.Line, ins: T.Inputs, d1: Destination, d2: Destination, input: Destination,
                       both: bool, tok: T.Token)
    requires l.NextIter? && T.Matched(l, ins) && Plain(l, ins) && tok in T.Emit(l, ins)
    ensures Agrees(y, l, ins, d1, d2, input, both, tok)
  {
    hide Layout.TagBits, CountBits, Compute;
    NextTagBits(y, ins.x.tag.area, ins.x.tag.iter);
  }

  lemma NextTagBits(y: Layout, a: T.Area, i: nat)
    requires CountBits(i) != 0xFFFF_FFFF
    ensures y.TagBits(T.Tag(a, i + 1)) == y.TagBits(T.Tag(a, i)) + 1
  {
    hide CreateTag, Layout.AreaBits, Layout.TagBits, CountBits;
    CountNext(i);
    TagParts(y, a, i);
    TagParts(y, a, i + 1);
    NextBits(y.AreaBits(a), CountBits(i), CountBits(i + 1), y.TagBits(T.Tag(a, i)), y.TagBits(T.Tag(a, i + 1)));
  }

  lemma CountNext(i: nat)
    ensures CountBits(i + 1) == CountBits(i) + 1
  {
  }

  lemma TagParts(y: Layout, a: T.Area, i: nat)
    ensures y.TagBits(T.Tag(a, i)) == CreateTag(y.AreaBits(a), CountBits(i))
  {
    hide CreateTag, CountBits;
  }

  lemma ResetIterAgrees(y: Layout, l: T.Line, ins: T.Inputs, d1: Destination, d2: Destination, input: Destination,
                        both: bool, tok: T.Token)
    requires l.ResetIter? && T.Matched(l, ins) && tok in T.Emit(l, ins)
    ensures Agrees(y, l, ins, d1, d2, input, both, tok)
  {
    hide CreateTag, TagArea, TagIteration, Compute;
    var p := PacketOf(y, l, ins, d1, d2, input, both);
    ResetBits(y.AreaBits(ins.x.tag.area), CountBits(ins.x.tag.iter), p.data2);
  }

  // The instruction of a line sends the line's one token to its destinations.
  predicate Agrees(y: Layout, l: T.Line, ins: T.Inputs, d1: Destination, d2: Destination, input: Destination,
                   both: bool, tok: T.Token)
    requires !l.Output?
  {
    var p := PacketOf(y, l, ins, d1, d2, input, both);
    FunctionUnit(p, y.areas(p.input, p.tag))
      == if both then [y.TokenBits(d1, tok), y.TokenBits(d2, tok)] else [y.TokenBits(d1, tok)]
  }

  lemma OneResultAgrees(y: Layout, l: T.Line, ins: T.Inputs, d1: Destination, d2: Destination, input: Destination,
                        both: bool, tok: T.Token)
    requires OneResult(l) && T.Matched(l, ins) && Plain(l, ins) && tok in T.Emit(l, ins)
    ensures Agrees(y, l, ins, d1, d2, input, both, tok)
    ensures T.Emit(l, ins) == {tok}
  {
    hide CreateTag, TagArea, TagIteration, Compute, CountBits, Agrees;
    match l
    case NextIter(_, _) => NextIterAgrees(y, l, ins, d1, d2, input, both, tok);
    case ResetIter(_, _) => ResetIterAgrees(y, l, ins, d1, d2, input, both, tok);
    case _ => PlainAgrees(y, l, ins, d1, d2, input, both, tok);
  }

  lemma PlainAgrees(y: Layout, l: T.Line, ins: T.Inputs, d1: Destination, d2: Destination, input: Destination,
                    both: bool, tok: T.Token)
    requires OneResult(l) && !l.NextIter? && !l.ResetIter?
    requires T.Matched(l, ins) && Plain(l, ins) && tok in T.Emit(l, ins)
    ensures Agrees(y, l, ins, d1, d2, input, both, tok)
  {
    hide CreateTag, TagArea, TagIteration, Compute, CountBits;
  }

  // A branch sends its operand where the test points, also if the line names no false output.
  lemma BranchAgrees(y: Layout, l: T.Line, ins: T.Inputs, d1: Destination, d2: Destination, input: Destination, both: bool)
    requires l.Branch? && T.Matched(l, ins) && Plain(l, ins)
    ensures var p := PacketOf(y, l, ins, d1, d2, input, both);
      FunctionUnit(p, y.areas(p.input, p.tag))
        == [Token(if T.IsTrue(ins.y.word) then d1 else d2, y.WordBits(ins.x.word), y.TagBits(ins.x.tag))]
    ensures T.Emit(l, ins) ==
      if T.IsTrue(ins.y.word) then {T.Token(l.onTrue, ins.x.tag, ins.x.word)}
      else if l.onFalse.Some? then {T.Token(l.onFalse.value, ins.x.tag, ins.x.word)} else {}
  {
    hide CreateTag, TagArea, TagIteration, Compute;
  }

  // NTG draws the area of its activation and passes the old tag on.
  lemma NewTagAgrees(y: Layout, l: T.Line, ins: T.Inputs, d1: Destination, d2: Destination, both: bool)
    requires l.NewTag? && T.Matched(l, ins)
    ensures var p := PacketOf(y, l, ins, d1, d2, y.site(l.newTag), both);
      FunctionUnit(p, y.areas(p.input, p.tag))
        == [y.TokenBits(d1, T.Token(l.newTag, ins.x.tag, T.NewTagWord(l.newTag, ins.x.tag))),
            y.TokenBits(d2, T.Token(l.oldTag, ins.x.tag, T.TagWord(ins.x.tag)))]
  {
    hide CreateTag, TagArea, TagIteration, Compute;
    var a := T.Activation(l.newTag, ins.x.tag);
    assert y.AreaBits(a) == y.areas(y.site(l.newTag), y.TagBits(ins.x.tag));
    assert y.TagBits(T.Tag(a, 0)) == CreateTag(y.AreaBits(a), CountBits(0));
  }
}
