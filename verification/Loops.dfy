// The tokens around the body of a loop, turn by turn.
module Loops {
  import opened Words
  import F = Force
  import opened Tass
  import opened Rules
  import opened Codegen
  import opened Simulation

  // The code of a loop around its test and body: the variables it carries, their names before it,
  // the numbers its two groups of names begin after, the name of the test, and the names of the
  // variables at the end of the body.
  datatype Loop = Loop(q: seq<Var>, vars: map<Var, Name>, n: nat, base: nat, cond: Name, ends: map<Var, Name>)
  {
    ghost predicate Fits() {
      |q| > 0 && F.Distinct(q) && forall k :: 0 <= k < |q| ==> q[k] in vars && q[k] in ends
    }

    function TaggedOf(k: nat): Name requires k < |q| { Tagged(q[k], n + 3, k) }
    function LastOf(k: nat): Name requires k < |q| { Last(q[k], n + 3, k) }
    function AgainOf(k: nat): Name requires k < |q| { Again(q[k], n + 3, k) }
    function StartOf(k: nat): Name requires k < |q| { Start(q[k], n + 3, k) }
    function EndOf(k: nat): Name requires k < |q| { End(q[k], n + 3, k) }
    function OnOf(k: nat): Name requires k < |q| { Again0(q[k], base, k) }
    function OffOf(k: nat): Name requires k < |q| { Leave0(q[k], base, k) }
    function ResetOf(k: nat): Name requires k < |q| { Reset(q[k], base, k) }

    // The two lines that draw the tag of this activation.
    ghost predicate Draws(P: seq<Line>)
      requires Fits()
    {
      && NewTag(NewTagName(n), OldTagName(n), vars[q[0]]) in P
      && CopyTag(OldUnderNew(n), NewTagName(n), OldTagName(n)) in P
    }

    // The lines of the k-th variable.
    ghost predicate Carries(P: seq<Line>, k: nat)
      requires Fits() && k < |q|
    {
      && CopyTag(TaggedOf(k), NewTagName(n), vars[q[k]]) in P
      && Merge(StartOf(k), TaggedOf(k), LastOf(k)) in P
      && Branch(OnOf(k), Some(OffOf(k)), StartOf(k), cond) in P
      && NextIter(AgainOf(k), OnOf(k)) in P
      && ResetIter(ResetOf(k), OffOf(k)) in P
      && CopyTag(EndOf(k), OldUnderNew(n), ResetOf(k)) in P
      && Copy(LastOf(k), ends[q[k]]) in P
    }

    ghost predicate Coded(P: seq<Line>) {
      Fits() && Draws(P) && forall k: nat :: k < |q| ==> Carries(P, k)
    }
  }

  lemma CarriesBy(c: Loop, P: seq<Line>, k: nat)
    requires c.Fits() && k < |c.q|
    requires CopyTag(c.TaggedOf(k), NewTagName(c.n), c.vars[c.q[k]]) in P
    requires Merge(c.StartOf(k), c.TaggedOf(k), c.LastOf(k)) in P
    requires Branch(c.OnOf(k), Some(c.OffOf(k)), c.StartOf(k), c.cond) in P
    requires NextIter(c.AgainOf(k), c.OnOf(k)) in P
    requires ResetIter(c.ResetOf(k), c.OffOf(k)) in P
    requires CopyTag(c.EndOf(k), OldUnderNew(c.n), c.ResetOf(k)) in P
    requires Copy(c.LastOf(k), c.ends[c.q[k]]) in P
    ensures c.Carries(P, k)
  {
  }

  // ---- Drawing the tag ----

  ghost function Inside(c: Loop, t: Tag): Area { Activation(NewTagName(c.n), t) }

  // Only the activation's own parent sends tokens under its first tag.
  lemma SentIn(P: seq<Line>, T: iset<Token>, full: bool, c: Loop, t: Tag, i: nat, entered: bool)
    requires Ok(P, T, full) && c.Coded(P)
    requires At(T, NewTagName(c.n), t, if entered then Some(NewTagWord(NewTagName(c.n), t)) else None, full)
    ensures SentFrom(T, NewTagName(c.n), Tag(Inside(c, t), i), if entered && i == 0 then Some(t) else None, full)
  {
    var nt, ti := NewTagName(c.n), Tag(Inside(c, t), i);
    forall s | Token(nt, s, TagWord(ti)) in T
      ensures entered && i == 0 && s == t
    {
      NewTagForm(P, T, nt, OldTagName(c.n), c.vars[c.q[0]], s, TagWord(ti));
    }
  }

  // The activation sends its parent's tag back under its own first tag.
  lemma OldUnderNewAt(P: seq<Line>, T: iset<Token>, full: bool, c: Loop, t: Tag, entered: bool)
    requires Ok(P, T, full) && c.Coded(P)
    requires At(T, NewTagName(c.n), t, if entered then Some(NewTagWord(NewTagName(c.n), t)) else None, full)
    requires At(T, OldTagName(c.n), t, TagIf(entered, t), full)
    ensures SentFrom(T, OldUnderNew(c.n), t, if entered then Some(Tag(Inside(c, t), 0)) else None, full)
  {
    var otn, nt, ot, t0 := OldUnderNew(c.n), NewTagName(c.n), OldTagName(c.n), Tag(Inside(c, t), 0);
    SentIn(P, T, full, c, t, 0, entered);
    CopyTagAt(P, T, full, otn, nt, ot, t0, if entered then Some(t) else None, TagIf(entered, t));
    forall s | Token(otn, s, TagWord(t)) in T
      ensures entered && s == t0
    {
      var ins := From(P, T, CopyTag(otn, nt, ot), Token(otn, s, TagWord(t)));
      NewTagForm(P, T, nt, ot, c.vars[c.q[0]], ins.x.tag, ins.x.word);
      OldTagForm(P, T, nt, ot, c.vars[c.q[0]], ins.y.tag, ins.y.word);
    }
  }

  lemma Drawn(P: seq<Line>, T: iset<Token>, full: bool, c: Loop, t: Tag, w: Option<Word>)
    requires Ok(P, T, full) && c.Coded(P) && At(T, c.vars[c.q[0]], t, w, full)
    ensures At(T, NewTagName(c.n), t, if w.Some? then Some(NewTagWord(NewTagName(c.n), t)) else None, full)
    ensures At(T, OldTagName(c.n), t, TagIf(w.Some?, t), full)
  {
    hide Ok, At;
    NewTagAt(P, T, full, NewTagName(c.n), OldTagName(c.n), c.vars[c.q[0]], t, w);
  }

  // The variables enter the loop under area a as those of env, at turn 0 only, and only if the
  // first one is there.
  ghost predicate Enters(T: iset<Token>, c: Loop, a: Area, env: F.Env, full: bool)
    requires |c.q| > 0
  {
    forall k: nat, i: nat :: k < |c.q| ==>
      At(T, c.TaggedOf(k), Tag(a, i), if i == 0 && c.q[0] in env then NumIn(env, c.q[k]) else None, full)
  }

  lemma EntersInside(P: seq<Line>, T: iset<Token>, full: bool, c: Loop, t: Tag, env: F.Env)
    requires Ok(P, T, full) && c.Coded(P)
    requires forall j: nat :: j < |c.q| ==> At(T, c.vars[c.q[j]], t, NumIn(env, c.q[j]), full)
    ensures Enters(T, c, Inside(c, t), env, full)
  {
    hide Ok, At, SentFrom;
    var entered := c.q[0] in env;
    Drawn(P, T, full, c, t, NumIn(env, c.q[0]));
    forall k: nat, i: nat | k < |c.q|
      ensures At(T, c.TaggedOf(k), Tag(Inside(c, t), i), if i == 0 && entered then NumIn(env, c.q[k]) else None, full)
    {
      assert c.Carries(P, k);
      SentIn(P, T, full, c, t, i, entered);
      CopyTagAt(P, T, full, c.TaggedOf(k), NewTagName(c.n), c.vars[c.q[k]], Tag(Inside(c, t), i),
                if entered && i == 0 then Some(t) else None, NumIn(env, c.q[k]));
    }
  }

  // Nothing enters the loop under an area that is none of its activations.
  lemma EntersNowhere(P: seq<Line>, T: iset<Token>, c: Loop, a: Area)
    requires Ok(P, T, false) && c.Coded(P)
    requires !(a.Activation? && a.site == NewTagName(c.n))
    ensures Enters(T, c, a, map[], false)
  {
    var nt := NewTagName(c.n);
    forall k: nat, i: nat | k < |c.q|
      ensures At(T, c.TaggedOf(k), Tag(a, i), None, false)
    {
      assert c.Carries(P, k);
      forall s | Token(nt, s, TagWord(Tag(a, i))) in T
        ensures false
      {
        NewTagForm(P, T, nt, OldTagName(c.n), c.vars[c.q[0]], s, TagWord(Tag(a, i)));
      }
      CopyTagAt(P, T, false, c.TaggedOf(k), nt, c.vars[c.q[k]], Tag(a, i), None, None);
    }
  }

  // ---- One turn ----

  // At the start of a turn the k-th variable comes from outside (turn 0) or from the body before.
  lemma StartAt(P: seq<Line>, T: iset<Token>, full: bool, c: Loop, k: nat, ti: Tag,
                outer: Option<Word>, back: Option<Word>)
    requires Ok(P, T, full) && c.Coded(P) && k < |c.q|
    requires At(T, c.TaggedOf(k), ti, outer, full) && At(T, c.ends[c.q[k]], ti, back, full)
    requires outer.None? || back.None?
    ensures At(T, c.StartOf(k), ti, if outer.Some? then outer else back, full)
  {
    hide Ok, At;
    assert c.Carries(P, k);
    CopyAt(P, T, full, c.LastOf(k), c.ends[c.q[k]], ti, back);
    MergeAt(P, T, full, c.StartOf(k), c.TaggedOf(k), c.LastOf(k), ti, outer, back);
  }

  // After the test the k-th variable goes into the next turn or towards the exit.
  lemma TestedAt(P: seq<Line>, T: iset<Token>, full: bool, c: Loop, k: nat, a: Area, i: nat,
                 w: Option<Word>, v: Option<Data>)
    requires Ok(P, T, full) && c.Coded(P) && k < |c.q|
    requires At(T, c.StartOf(k), Tag(a, i), w, full) && At(T, c.cond, Tag(a, i), NumOf(v), full)
    ensures At(T, c.AgainOf(k), Tag(a, i + 1), if v.Some? && v.value != 0 then w else None, full)
    ensures At(T, c.OffOf(k), Tag(a, i), if v == Some(0) then w else None, full)
  {
    hide Ok, At;
    assert c.Carries(P, k);
    BranchTrueAt(P, T, full, c.OnOf(k), Some(c.OffOf(k)), c.StartOf(k), c.cond, Tag(a, i), w, NumOf(v));
    BranchFalseAt(P, T, full, c.OnOf(k), c.OffOf(k), c.StartOf(k), c.cond, Tag(a, i), w, NumOf(v));
    NextIterAt(P, T, full, c.AgainOf(k), c.OnOf(k), a, i, if v.Some? && v.value != 0 then w else None);
  }

  lemma AgainZero(P: seq<Line>, T: iset<Token>, full: bool, c: Loop, k: nat, a: Area)
    requires Ok(P, T, full) && c.Coded(P) && k < |c.q|
    ensures At(T, c.AgainOf(k), Tag(a, 0), None, full)
  {
    hide Ok, At;
    assert c.Carries(P, k);
    NextIterZero(P, T, full, c.AgainOf(k), c.OnOf(k), a);
  }

  // ---- Leaving ----

  // If the k-th variable leaves at turn e with word w, or never, it comes out under the old tag so.
  lemma LeavesAt(P: seq<Line>, T: iset<Token>, full: bool, c: Loop, t: Tag, entered: bool, k: nat,
                 e: Option<nat>, w: Word)
    requires Ok(P, T, full) && c.Coded(P) && k < |c.q|
    requires SentFrom(T, OldUnderNew(c.n), t, if entered then Some(Tag(Inside(c, t), 0)) else None, full)
    requires OnlyIter(T, c.OffOf(k), Inside(c, t), e, w, full) && (e.Some? ==> entered)
    ensures At(T, c.EndOf(k), t, if e.Some? then Some(w) else None, full)
  {
    hide Ok, At, SentFrom, OnlyIter;
    assert c.Carries(P, k);
    ResetIterAt(P, T, full, c.ResetOf(k), c.OffOf(k), Inside(c, t), 0, e, w);
    CopyTagAt(P, T, full, c.EndOf(k), OldUnderNew(c.n), c.ResetOf(k), t,
              if entered then Some(Tag(Inside(c, t), 0)) else None, if e.Some? then Some(w) else None);
  }

  // ---- Where the lines are ----

  lemma {:induction false} EnterHas(q: seq<Var>, vars: map<Var, Name>, n: nat, k: nat, j: nat)
    requires j < k <= |q| && forall x :: x in q ==> x in vars
    ensures CopyTag(Tagged(q[j], n + 3, j), NewTagName(n), vars[q[j]]) in EnterLines(q, vars, n, k)
    ensures Merge(Start(q[j], n + 3, j), Tagged(q[j], n + 3, j), Last(q[j], n + 3, j)) in EnterLines(q, vars, n, k)
    decreases k
  {
    if j < k - 1 { EnterHas(q, vars, n, k - 1, j); }
  }

  lemma {:induction false} TestHas(q: seq<Var>, n: nat, base: nat, cond: Name, k: nat, j: nat)
    requires j < k <= |q|
    ensures Branch(Again0(q[j], base, j), Some(Leave0(q[j], base, j)), Start(q[j], n + 3, j), cond)
      in TestLines(q, n, base, cond, k)
    ensures NextIter(Again(q[j], n + 3, j), Again0(q[j], base, j)) in TestLines(q, n, base, cond, k)
    ensures ResetIter(Reset(q[j], base, j), Leave0(q[j], base, j)) in TestLines(q, n, base, cond, k)
    ensures CopyTag(End(q[j], n + 3, j), OldUnderNew(n), Reset(q[j], base, j)) in TestLines(q, n, base, cond, k)
    decreases k
  {
    if j < k - 1 { TestHas(q, n, base, cond, k - 1, j); }
  }

  lemma {:induction false} BackHas(q: seq<Var>, vars: map<Var, Name>, n: nat, k: nat, j: nat)
    requires j < k <= |q| && forall x :: x in q ==> x in vars
    ensures Copy(Last(q[j], n + 3, j), vars[q[j]]) in BackLines(q, vars, n, k)
    decreases k
  {
    if j < k - 1 { BackHas(q, vars, n, k - 1, j); }
  }

  lemma Appended(a: seq<Line>, b: seq<Line>, P: seq<Line>)
    requires a + b <= P
    ensures forall l :: l in b ==> l in P
  {
    forall l | l in b
      ensures l in P
    {
      var k :| 0 <= k < |b| && b[k] == l;
      assert (a + b)[|a| + k] == l;
    }
  }
}
