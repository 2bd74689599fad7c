// The assembly language between compiler and assembler: one line per instruction, tokens on
// named values, and which tokens a program can produce.
module Tass {
  import opened Words

  // A generated name: its fixed text and the number that makes it unique.
  datatype Name = Name(text: string, num: nat)

  // Tags: an area and an iteration count. Areas drawn by `random()` are taken as fresh:
  // each is named by the instruction that drew it and the tag it was drawn under.
  datatype Area = Root | Activation(site: Name, parent: Tag)
  datatype Tag = Tag(area: Area, iter: nat)

  const NO_TAG: Tag := Tag(Root, 0)

  // A data word holds a number or a tag.
  datatype Word = Num(n: Data) | TagWord(tag: Tag)

  datatype Token = Token(name: Name, tag: Tag, word: Word)

  datatype Line =
    | Literal(out: Name, value: Data)                  // out = DUP 5
    | Copy(out: Name, src: Name)                       // out = DUP src
    | Binary(out: Name, op: BinOp, a: Name, b: Name)   // out = ADD a b
    | Merge(out: Name, a: Name, b: Name)               // out = MER a b
    | Branch(onTrue: Name, onFalse: Option<Name>, src: Name, test: Name)  // t, f = BRR src test
    | NewTag(newTag: Name, oldTag: Name, src: Name)       // n, o = NTG src
    | CopyTag(out: Name, tagFrom: Name, src: Name)     // out = CTG tag src
    | CopyTagLit(out: Name, tagFrom: Name, value: Data)  // out = CTG tag 5
    | NextIter(out: Name, src: Name)                   // out = ITG src
    | ResetIter(out: Name, src: Name)                  // out = SIL src 0
    | ReadTag(out: Name, src: Name)                    // out = ETG src
    | Output(src: Name)                                // OUTD src

  // The names a line defines.
  function Outs(l: Line): set<Name> {
    match l
    case Branch(t, f, _, _) => if f.Some? then {t, f.value} else {t}
    case NewTag(n, o, _) => {n, o}
    case Output(_) => {}
    case _ => {l.out}
  }

  // The names a line reads.
  function Ins(l: Line): set<Name> {
    match l
    case Literal(_, _) => {}
    case Binary(_, _, a, b) => {a, b}
    case Merge(_, a, b) => {a, b}
    case Branch(_, _, src, test) => {src, test}
    case CopyTag(_, tagFrom, src) => {tagFrom, src}
    case CopyTagLit(_, tagFrom, _) => {tagFrom}
    case _ => {l.src}
  }

  // The two outputs of a line have different names.
  predicate OutsDiffer(l: Line) {
    match l
    case Branch(t, f, _, _) => f != Some(t)
    case NewTag(n, o, _) => n != o
    case _ => true
  }

  // What one firing consumes.
  datatype Inputs = Nothing | One(x: Token) | Two(x: Token, y: Token)

  // The matching rule: one token per input slot under a common tag, but a merge takes whatever
  // arrives at either slot, and a literal is ready by itself.
  predicate Matched(l: Line, ins: Inputs) {
    match l
    case Literal(_, _) => ins.Nothing?
    case Binary(_, _, a, b) => ins.Two? && ins.x.name == a && ins.y.name == b && ins.x.tag == ins.y.tag
    case Merge(_, a, b) => ins.One? && (ins.x.name == a || ins.x.name == b)
    case Branch(_, _, src, test) => ins.Two? && ins.x.name == src && ins.y.name == test && ins.x.tag == ins.y.tag
    case CopyTag(_, tagFrom, src) =>
      ins.Two? && ins.x.name == tagFrom && ins.y.name == src && ins.x.tag == ins.y.tag
    case CopyTagLit(_, tagFrom, _) => ins.One? && ins.x.name == tagFrom
    case _ => ins.One? && ins.x.name == l.src
  }

  // The tests and operands of compiled code are numbers; a tag as a test or as an operand of
  // arithmetic is outside what the compiler emits.
  predicate IsTrue(w: Word) { w != Num(0) }

  function ComputeWord(op: BinOp, a: Word, b: Word): Word {
    if a.Num? && b.Num? then Num(Compute(op, a.n, b.n)) else a
  }

  function NewTagWord(site: Name, t: Tag): Word {
    TagWord(Tag(Activation(site, t), 0))
  }

  // The tokens one firing produces.
  function Emit(l: Line, ins: Inputs): set<Token>
    requires Matched(l, ins)
  {
    match l
    case Literal(out, v) => {Token(out, NO_TAG, Num(v))}
    case Copy(out, _) => {Token(out, ins.x.tag, ins.x.word)}
    case Binary(out, op, _, _) => {Token(out, ins.x.tag, ComputeWord(op, ins.x.word, ins.y.word))}
    case Merge(out, _, _) => {Token(out, ins.x.tag, ins.x.word)}
    case Branch(t, f, _, _) =>
      if IsTrue(ins.y.word) then {Token(t, ins.x.tag, ins.x.word)}
      else if f.Some? then {Token(f.value, ins.x.tag, ins.x.word)} else {}
    case NewTag(n, o, _) =>
      {Token(n, ins.x.tag, NewTagWord(n, ins.x.tag)), Token(o, ins.x.tag, TagWord(ins.x.tag))}
    case CopyTag(out, _, _) =>
      if ins.x.word.TagWord? then {Token(out, ins.x.word.tag, ins.y.word)} else {}
    case CopyTagLit(out, _, v) =>
      if ins.x.word.TagWord? then {Token(out, ins.x.word.tag, Num(v))} else {}
    case NextIter(out, _) => {Token(out, Tag(ins.x.tag.area, ins.x.tag.iter + 1), ins.x.word)}
    case ResetIter(out, _) => {Token(out, Tag(ins.x.tag.area, 0), ins.x.word)}
    case ReadTag(out, _) => {Token(out, ins.x.tag, TagWord(ins.x.tag))}
    case Output(_) => {}
  }

  // ---- Sets of tokens ----

  ghost predicate Within(ins: Inputs, T: iset<Token>) {
    match ins
    case Nothing => true
    case One(x) => x in T
    case Two(x, y) => x in T && y in T
  }

  // Line l turns tokens of T into tok.
  ghost predicate Yields(l: Line, ins: Inputs, T: iset<Token>, tok: Token) {
    Matched(l, ins) && Within(ins, T) && tok in Emit(l, ins)
  }

  ghost predicate Produced(l: Line, T: iset<Token>, tok: Token) {
    exists ins :: Yields(l, ins, T, tok)
  }

  // Every token of T is produced by some line from tokens of T.
  ghost predicate Supported(P: seq<Line>, T: iset<Token>) {
    forall tok :: tok in T ==> exists i: nat :: i < |P| && Produced(P[i], T, tok)
  }

  // T contains whatever the lines produce from it.
  ghost predicate Closed(P: seq<Line>, T: iset<Token>) {
    forall l, tok :: l in P && Produced(l, T, tok) ==> tok in T
  }

  // No two output positions of the program define the same name.
  ghost predicate SingleDefs(P: seq<Line>) {
    && (forall i, j, n :: 0 <= i < j < |P| && n in Outs(P[i]) ==> n !in Outs(P[j]))
    && (forall l :: l in P ==> OutsDiffer(l))
  }

  // A name's tokens come from its defining line.
  lemma DefinedBy(P: seq<Line>, T: iset<Token>, l: Line, tok: Token)
    requires SingleDefs(P) && Supported(P, T) && l in P && tok in T && tok.name in Outs(l)
    ensures Produced(l, T, tok)
  {
    var i: nat :| i < |P| && Produced(P[i], T, tok);
    var ins :| Yields(P[i], ins, T, tok);
    EmitsOuts(P[i], ins, tok);
    var j: nat :| j < |P| && P[j] == l;
  }

  lemma EmitsOuts(l: Line, ins: Inputs, tok: Token)
    requires Matched(l, ins) && tok in Emit(l, ins)
    ensures tok.name in Outs(l)
  {
  }
}
