// What each line of assembly does to the tokens under one tag.
module Rules {
  import opened Words
  import opened Tass

  // A program and a set of tokens its lines support; `full` when the set is also closed,
  // so that nothing that can be produced is missing.
  ghost predicate Ok(P: seq<Line>, T: iset<Token>, full: bool) {
    SingleDefs(P) && Supported(P, T) && (full ==> Closed(P, T))
  }

  // Under tag t the name n carries at most the word w, and exactly that if T is full.
  ghost predicate At(T: iset<Token>, n: Name, t: Tag, w: Option<Word>, full: bool) {
    && (forall v :: Token(n, t, v) in T ==> w == Some(v))
    && (full && w.Some? ==> Token(n, t, w.value) in T)
  }

  lemma InClosed(P: seq<Line>, T: iset<Token>, l: Line, ins: Inputs, tok: Token)
    requires Closed(P, T) && l in P && Yields(l, ins, T, tok)
    ensures tok in T
  {
    assert Produced(l, T, tok);
  }

  lemma From(P: seq<Line>, T: iset<Token>, l: Line, tok: Token) returns (ins: Inputs)
    requires SingleDefs(P) && Supported(P, T) && l in P && tok in T && tok.name in Outs(l)
    ensures Yields(l, ins, T, tok)
  {
    DefinedBy(P, T, l, tok);
    ins :| Yields(l, ins, T, tok);
  }

  lemma LiteralAt(P: seq<Line>, T: iset<Token>, full: bool, out: Name, n: Data, t: Tag)
    requires Ok(P, T, full) && Literal(out, n) in P
    ensures At(T, out, t, if t == NO_TAG then Some(Num(n)) else None, full)
  {
    var l := Literal(out, n);
    forall v | Token(out, t, v) in T
      ensures t == NO_TAG && v == Num(n)
    {
      var ins := From(P, T, l, Token(out, t, v));
    }
    if full { InClosed(P, T, l, Nothing, Token(out, NO_TAG, Num(n))); }
  }

  lemma CopyAt(P: seq<Line>, T: iset<Token>, full: bool, out: Name, src: Name, t: Tag, w: Option<Word>)
    requires Ok(P, T, full) && Copy(out, src) in P
    requires At(T, src, t, w, full)
    ensures At(T, out, t, w, full)
  {
    var l := Copy(out, src);
    forall v | Token(out, t, v) in T
      ensures w == Some(v)
    {
      var ins := From(P, T, l, Token(out, t, v));
      assert ins.x == Token(src, t, v);
    }
    if full && w.Some? { InClosed(P, T, l, One(Token(src, t, w.value)), Token(out, t, w.value)); }
  }

  lemma BinaryAt(P: seq<Line>, T: iset<Token>, full: bool, out: Name, op: BinOp, a: Name, b: Name, t: Tag,
                 x: Option<Word>, y: Option<Word>)
    requires Ok(P, T, full) && Binary(out, op, a, b) in P
    requires At(T, a, t, x, full) && At(T, b, t, y, full)
    ensures At(T, out, t, if x.Some? && y.Some? then Some(ComputeWord(op, x.value, y.value)) else None, full)
  {
    hide ComputeWord;
    var l := Binary(out, op, a, b);
    forall v | Token(out, t, v) in T
      ensures x.Some? && y.Some? && v == ComputeWord(op, x.value, y.value)
    {
      var ins := From(P, T, l, Token(out, t, v));
      assert ins.x == Token(a, t, ins.x.word) && ins.y == Token(b, t, ins.y.word);
    }
    if full && x.Some? && y.Some? {
      InClosed(P, T, l, Two(Token(a, t, x.value), Token(b, t, y.value)),
               Token(out, t, ComputeWord(op, x.value, y.value)));
    }
  }

  lemma MergeAt(P: seq<Line>, T: iset<Token>, full: bool, out: Name, a: Name, b: Name, t: Tag,
                x: Option<Word>, y: Option<Word>)
    requires Ok(P, T, full) && Merge(out, a, b) in P
    requires At(T, a, t, x, full) && At(T, b, t, y, full) && (x.None? || y.None?)
    ensures At(T, out, t, if x.Some? then x else y, full)
  {
    var l := Merge(out, a, b);
    var w := if x.Some? then x else y;
    forall v | Token(out, t, v) in T
      ensures w == Some(v)
    {
      var ins := From(P, T, l, Token(out, t, v));
      assert ins.x == Token(a, t, v) || ins.x == Token(b, t, v);
    }
    if full && w.Some? {
      InClosed(P, T, l, One(Token(if x.Some? then a else b, t, w.value)), Token(out, t, w.value));
    }
  }

  lemma BranchTrueAt(P: seq<Line>, T: iset<Token>, full: bool, onTrue: Name, onFalse: Option<Name>,
                     src: Name, test: Name, t: Tag, x: Option<Word>, c: Option<Word>)
    requires Ok(P, T, full) && Branch(onTrue, onFalse, src, test) in P
    requires At(T, src, t, x, full) && At(T, test, t, c, full)
    ensures At(T, onTrue, t, if x.Some? && c.Some? && IsTrue(c.value) then x else None, full)
  {
    var l := Branch(onTrue, onFalse, src, test);
    forall v | Token(onTrue, t, v) in T
      ensures x == Some(v) && c.Some? && IsTrue(c.value)
    {
      var ins := From(P, T, l, Token(onTrue, t, v));
      assert ins.x == Token(src, t, v) && ins.y == Token(test, t, ins.y.word);
    }
    if full && x.Some? && c.Some? && IsTrue(c.value) {
      InClosed(P, T, l, Two(Token(src, t, x.value), Token(test, t, c.value)), Token(onTrue, t, x.value));
    }
  }

  lemma BranchFalseAt(P: seq<Line>, T: iset<Token>, full: bool, onTrue: Name, onFalse: Name,
                      src: Name, test: Name, t: Tag, x: Option<Word>, c: Option<Word>)
    requires Ok(P, T, full) && Branch(onTrue, Some(onFalse), src, test) in P
    requires At(T, src, t, x, full) && At(T, test, t, c, full)
    ensures At(T, onFalse, t, if x.Some? && c.Some? && !IsTrue(c.value) then x else None, full)
  {
    var l := Branch(onTrue, Some(onFalse), src, test);
    forall v | Token(onFalse, t, v) in T
      ensures x == Some(v) && c.Some? && !IsTrue(c.value)
    {
      var ins := From(P, T, l, Token(onFalse, t, v));
      assert ins.x == Token(src, t, v) && ins.y == Token(test, t, ins.y.word);
    }
    if full && x.Some? && c.Some? && !IsTrue(c.value) {
      InClosed(P, T, l, Two(Token(src, t, x.value), Token(test, t, c.value)), Token(onFalse, t, x.value));
    }
  }

  // ---- Lines that read or draw tags ----

  lemma NewTagAt(P: seq<Line>, T: iset<Token>, full: bool, n: Name, o: Name, src: Name, t: Tag, x: Option<Word>)
    requires Ok(P, T, full) && NewTag(n, o, src) in P
    requires At(T, src, t, x, full)
    ensures At(T, n, t, if x.Some? then Some(NewTagWord(n, t)) else None, full)
    ensures At(T, o, t, if x.Some? then Some(TagWord(t)) else None, full)
  {
    var l := NewTag(n, o, src);
    forall v | Token(n, t, v) in T
      ensures x.Some? && v == NewTagWord(n, t)
    {
      var ins := From(P, T, l, Token(n, t, v));
      assert ins.x == Token(src, t, ins.x.word);
    }
    forall v | Token(o, t, v) in T
      ensures x.Some? && v == TagWord(t)
    {
      var ins := From(P, T, l, Token(o, t, v));
      assert ins.x == Token(src, t, ins.x.word);
    }
    if full && x.Some? {
      InClosed(P, T, l, One(Token(src, t, x.value)), Token(n, t, NewTagWord(n, t)));
      InClosed(P, T, l, One(Token(src, t, x.value)), Token(o, t, TagWord(t)));
    }
  }

  // Whatever the context, the first output of an NTG names its own activation.
  lemma NewTagForm(P: seq<Line>, T: iset<Token>, n: Name, o: Name, src: Name, t: Tag, v: Word)
    requires Ok(P, T, false) && NewTag(n, o, src) in P && Token(n, t, v) in T
    ensures v == NewTagWord(n, t)
  {
    var ins := From(P, T, NewTag(n, o, src), Token(n, t, v));
  }

  // ... and the second is the tag it came under.
  lemma OldTagForm(P: seq<Line>, T: iset<Token>, n: Name, o: Name, src: Name, t: Tag, v: Word)
    requires Ok(P, T, false) && NewTag(n, o, src) in P && Token(o, t, v) in T
    ensures v == TagWord(t)
  {
    var ins := From(P, T, NewTag(n, o, src), Token(o, t, v));
  }

  lemma ReadTagAt(P: seq<Line>, T: iset<Token>, full: bool, out: Name, src: Name, t: Tag, x: Option<Word>)
    requires Ok(P, T, full) && ReadTag(out, src) in P
    requires At(T, src, t, x, full)
    ensures At(T, out, t, if x.Some? then Some(TagWord(t)) else None, full)
  {
    var l := ReadTag(out, src);
    forall v | Token(out, t, v) in T
      ensures x.Some? && v == TagWord(t)
    {
      var ins := From(P, T, l, Token(out, t, v));
      assert ins.x == Token(src, t, ins.x.word);
    }
    if full && x.Some? { InClosed(P, T, l, One(Token(src, t, x.value)), Token(out, t, TagWord(t))); }
  }

  // Every token on n carries its own tag.
  ghost predicate CarriesOwnTag(T: iset<Token>, n: Name) {
    forall t, v :: Token(n, t, v) in T ==> v == TagWord(t)
  }

  lemma ReadTagForm(P: seq<Line>, T: iset<Token>, out: Name, src: Name)
    requires Ok(P, T, false) && ReadTag(out, src) in P
    ensures CarriesOwnTag(T, out)
  {
    forall t, v | Token(out, t, v) in T
      ensures v == TagWord(t)
    {
      var ins := From(P, T, ReadTag(out, src), Token(out, t, v));
    }
  }

  lemma NextIterAt(P: seq<Line>, T: iset<Token>, full: bool, out: Name, src: Name, a: Area, i: nat, x: Option<Word>)
    requires Ok(P, T, full) && NextIter(out, src) in P
    requires At(T, src, Tag(a, i), x, full)
    ensures At(T, out, Tag(a, i + 1), x, full)
  {
    var l, t := NextIter(out, src), Tag(a, i + 1);
    forall v | Token(out, t, v) in T
      ensures x == Some(v)
    {
      var ins := From(P, T, l, Token(out, t, v));
      assert ins.x == Token(src, Tag(a, i), v);
    }
    if full && x.Some? { InClosed(P, T, l, One(Token(src, Tag(a, i), x.value)), Token(out, t, x.value)); }
  }

  lemma NextIterZero(P: seq<Line>, T: iset<Token>, full: bool, out: Name, src: Name, a: Area)
    requires Ok(P, T, full) && NextIter(out, src) in P
    ensures At(T, out, Tag(a, 0), None, full)
  {
    forall v | Token(out, Tag(a, 0), v) in T
      ensures false
    {
      var ins := From(P, T, NextIter(out, src), Token(out, Tag(a, 0), v));
    }
  }

  // The tokens of src under area a are at most the word w at iteration k.
  ghost predicate OnlyIter(T: iset<Token>, src: Name, a: Area, k: Option<nat>, w: Word, full: bool) {
    && (forall i: nat, v :: Token(src, Tag(a, i), v) in T ==> k == Some(i) && v == w)
    && (full && k.Some? ==> Token(src, Tag(a, k.value), w) in T)
  }

  lemma ResetIterAt(P: seq<Line>, T: iset<Token>, full: bool, out: Name, src: Name, a: Area, j: nat,
                    k: Option<nat>, w: Word)
    requires Ok(P, T, full) && ResetIter(out, src) in P
    requires OnlyIter(T, src, a, k, w, full)
    ensures At(T, out, Tag(a, j), if k.Some? && j == 0 then Some(w) else None, full)
  {
    var l := ResetIter(out, src);
    forall v | Token(out, Tag(a, j), v) in T
      ensures k.Some? && j == 0 && v == w
    {
      var ins := From(P, T, l, Token(out, Tag(a, j), v));
      assert ins.x == Token(src, Tag(a, ins.x.tag.iter), v);
    }
    if full && k.Some? && j == 0 {
      InClosed(P, T, l, One(Token(src, Tag(a, k.value), w)), Token(out, Tag(a, 0), w));
    }
  }

  // Tag t is sent by at most the token of tg under tag g.
  ghost predicate SentFrom(T: iset<Token>, tg: Name, t: Tag, g: Option<Tag>, full: bool) {
    && (forall s :: Token(tg, s, TagWord(t)) in T ==> g == Some(s))
    && (full && g.Some? ==> Token(tg, g.value, TagWord(t)) in T)
  }

  lemma CopyTagAt(P: seq<Line>, T: iset<Token>, full: bool, out: Name, tg: Name, src: Name, t: Tag,
                  g: Option<Tag>, x: Option<Word>)
    requires Ok(P, T, full) && CopyTag(out, tg, src) in P
    requires SentFrom(T, tg, t, g, full) && (g.Some? ==> At(T, src, g.value, x, full))
    ensures At(T, out, t, if g.Some? then x else None, full)
  {
    var l := CopyTag(out, tg, src);
    forall v | Token(out, t, v) in T
      ensures g.Some? && x == Some(v)
    {
      var ins := From(P, T, l, Token(out, t, v));
      assert ins.x == Token(tg, ins.x.tag, TagWord(t)) && ins.y == Token(src, ins.x.tag, v);
    }
    if full && g.Some? && x.Some? {
      InClosed(P, T, l, Two(Token(tg, g.value, TagWord(t)), Token(src, g.value, x.value)), Token(out, t, x.value));
    }
  }

  lemma CopyTagLitAt(P: seq<Line>, T: iset<Token>, full: bool, out: Name, tg: Name, n: Data, t: Tag, g: Option<Tag>)
    requires Ok(P, T, full) && CopyTagLit(out, tg, n) in P
    requires SentFrom(T, tg, t, g, full)
    ensures At(T, out, t, if g.Some? then Some(Num(n)) else None, full)
  {
    var l := CopyTagLit(out, tg, n);
    forall v | Token(out, t, v) in T
      ensures g.Some? && v == Num(n)
    {
      var ins := From(P, T, l, Token(out, t, v));
      assert ins.x == Token(tg, ins.x.tag, TagWord(t));
    }
    if full && g.Some? { InClosed(P, T, l, One(Token(tg, g.value, TagWord(t))), Token(out, t, Num(n))); }
  }
}
