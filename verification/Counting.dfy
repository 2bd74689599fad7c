// Iteration counts stay below the number of firings, so they wrap only in runs of more than 2^32 steps.
module Counting {
  import opened Words
  import opened Numbers
  import T = Tass
  import G = TokenGame
  import E = Encoding
  import opened Compiled
  import opened Wires

  lemma {:induction false} CountIsWord(i: nat)
    ensures E.CountBits(i) == Word(i)
  {
    hide Word, Join;
    if i == 0 {
      assert Word(0) == 0 by { WordZero(); }
    } else {
      CountIsWord(i - 1);
      WordNext(i - 1);
      NextIs(Word(i - 1));
    }
  }

  lemma WordZero()
    ensures Word(0) == 0
  {
  }

  lemma NextIs(w: bv32)
    ensures Next(w) == w + 1
  {
  }

  // The last count before the wrap is 2^32 - 1.
  lemma SmallCount(i: nat)
    requires i < 0xFFFF_FFFF
    ensures E.CountBits(i) != 0xFFFF_FFFF
  {
    hide Word, Number, SamePower, Join, Half, Odd, E.CountBits;
    CountIsWord(i);
    HalfPower();
    NumberOfWord(i / 2, 0x8000_0000, 0x8000_0000);
    WordIs(i);
    JoinOnes(Word(i / 2), i % 2 == 1);
    OnesNumber();
  }

  lemma HalfPower()
    ensures SamePower(0x8000_0000, 0x8000_0000)
  {
    Addresses();
    assert SamePower(0x2000_0000, 0x2000_0000);
    assert SamePower(0x4000_0000, 0x4000_0000);
  }

  lemma JoinOnes(h: bv32, odd: bool)
    requires h < 0x8000_0000
    ensures Join(h, odd) == 0xFFFF_FFFF ==> h == 0x7FFF_FFFF && odd
  {
  }

  lemma OnesNumber()
    ensures Number(0x7FFF_FFFF) == 0x7FFF_FFFF
  {
    ReservedOnes();
    assert Number(0x1FFF_FFFF) == 0x1FFF_FFFF;
    assert Number(0x3FFF_FFFF) == 0x3FFF_FFFF;
  }

  lemma ReservedOnes()
    ensures Number(0xFFF_FFFF) == 0xFFF_FFFF
  {
    assert Number(0x7) == 0x7;
    assert Number(0x1F) == 0x1F;
    assert Number(0x7F) == 0x7F;
    assert Number(0x1FF) == 0x1FF;
    assert Number(0x7FF) == 0x7FF;
    assert Number(0x1FFF) == 0x1FFF;
    assert Number(0x7FFF) == 0x7FFF;
    assert Number(0x1_FFFF) == 0x1_FFFF;
    assert Number(0x7_FFFF) == 0x7_FFFF;
    assert Number(0x1F_FFFF) == 0x1F_FFFF;
    assert Number(0x7F_FFFF) == 0x7F_FFFF;
    assert Number(0x1FF_FFFF) == 0x1FF_FFFF;
    assert Number(0x7FF_FFFF) == 0x7FF_FFFF;
  }

  // ---- Counts and firings ----

  predicate WordTurns(w: T.Word, k: nat) { w.TagWord? ==> w.tag.iter <= k }

  // Neither the tag of the token nor the one it carries counts further than k.
  predicate TokenTurns(tok: T.Token, k: nat) { tok.tag.iter <= k && WordTurns(tok.word, k) }

  ghost predicate Turns(g: G.Game, k: nat) {
    forall tok :: tok in g.log ==> TokenTurns(tok, k)
  }

  // A firing counts one further at most.
  lemma EmitTurns(l: T.Line, ins: T.Inputs, tok: T.Token, k: nat)
    requires T.Matched(l, ins) && tok in T.Emit(l, ins)
    requires (ins.One? || ins.Two? ==> TokenTurns(ins.x, k)) && (ins.Two? ==> TokenTurns(ins.y, k))
    ensures TokenTurns(tok, k + 1)
  {
    hide Compute;
  }

  lemma FireTurns(P: seq<T.Line>, g: G.Game, f: G.Firing, k: nat)
    requires G.Inv(P, g) && G.Enabled(P, g, f) && Turns(g, k)
    ensures Turns(G.Fire(P, g, f), k + 1)
  {
    hide G.Inv, T.Emit, T.Matched, G.Consumed, G.Deliveries, TokenTurns;
    G.EnabledWithin(P, g, f);
    forall tok | tok in G.Fire(P, g, f).log
      ensures TokenTurns(tok, k + 1)
    {
      if tok in g.log { MoreTurns(tok, k); } else { EmitTurns(P[f.line], f.ins, tok, k); }
    }
  }

  lemma MoreTurns(tok: T.Token, k: nat)
    requires TokenTurns(tok, k)
    ensures TokenTurns(tok, k + 1)
  {
  }

  lemma {:induction false} PathTurns(P: seq<T.Line>, gs: seq<G.Game>)
    requires Regular(P) && G.Path(P, gs)
    ensures G.Inv(P, gs[|gs| - 1]) && Turns(gs[|gs| - 1], |gs[|gs| - 1].done|)
    decreases |gs|
  {
    hide Regular, G.Inv, G.Init, G.Fire, G.Consumed, T.Matched, Turns;
    var n := |gs| - 1;
    if n == 0 {
      G.InitInv(P);
      NoTurns(P);
    } else {
      var before := gs[..n];
      PathTurns(P, before);
      assert before[|before| - 1] == gs[n - 1] && G.Next(P, gs[n - 1], gs[n - 1 + 1]);
      if gs[n] != gs[n - 1] {
        var f :| G.Enabled(P, gs[n - 1], f) && gs[n] == G.Fire(P, gs[n - 1], f);
        G.StepInv(P, gs[n - 1], f);
        FireTurns(P, gs[n - 1], f, |gs[n - 1].done|);
        FireCounts(P, gs[n - 1], f);
      }
    }
  }

  lemma NoTurns(P: seq<T.Line>)
    ensures Turns(G.Init(P), 0) && |G.Init(P).done| == 0
  {
  }

  lemma FireCounts(P: seq<T.Line>, g: G.Game, f: G.Firing)
    requires G.Enabled(P, g, f)
    ensures |G.Fire(P, g, f).done| == |g.done| + 1
  {
    hide G.Consumed, G.Deliveries, T.Emit, T.Matched;
  }

  // Within 2^32 - 1 firings no count wraps: what is left to ask of the areas is that they keep the tags
  // apart.
  lemma CountsFollow(u: Setup, k: nat)
    requires Regular(u.P) && k < 0xFFFF_FFFF
    ensures FreshFor(u, k) <==> forall gs: seq<G.Game> :: G.Path(u.P, gs) && |gs[|gs| - 1].done| <= k ==> TagsApart(u, G.Sent(gs[|gs| - 1]))
  {
    hide Regular, TagsApart, CountOk, TokenTurns, G.Inv;
    forall gs: seq<G.Game> | G.Path(u.P, gs) && |gs[|gs| - 1].done| <= k
      ensures Fresh(u, G.Sent(gs[|gs| - 1])) <==> TagsApart(u, G.Sent(gs[|gs| - 1]))
    {
      PathTurns(u.P, gs);
      forall a | a in G.Sent(gs[|gs| - 1]) ensures CountOk(a) { CountsOk(a, |gs[|gs| - 1].done|); }
    }
  }

  lemma CountsOk(a: T.Token, k: nat)
    requires TokenTurns(a, k) && k < 0xFFFF_FFFF
    ensures CountOk(a)
  {
    hide E.CountBits;
    SmallCount(a.tag.iter);
  }
}
