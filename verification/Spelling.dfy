// The text of generated names: the number goes in as _tmp_N, and different names of a compiled
// program have different texts.
module Spelling {
  import opened Words
  import F = Force
  import opened Tass
  import opened Codegen
  import opened Numbering
  import opened Compiled
  import C = Correctness

  // ---- Decimal numbers ----

  function Digit(n: nat): (c: char)
    requires n < 10
    ensures '0' <= c <= '9' && c as int - '0' as int == n
  {
    (n + '0' as int) as char
  }

  predicate IsDigit(c: char) { '0' <= c <= '9' }

  function Decimal(n: nat): (s: string)
    ensures s != "" && forall k :: 0 <= k < |s| ==> IsDigit(s[k])
  {
    if n < 10 then [Digit(n)] else Decimal(n / 10) + [Digit(n % 10)]
  }

  function Value(s: string): int {
    if s == "" then 0 else 10 * Value(s[..|s| - 1]) + (s[|s| - 1] as int - '0' as int)
  }

  lemma {:induction false} DecimalValue(n: nat)
    ensures Value(Decimal(n)) == n
  {
    if n >= 10 {
      DecimalValue(n / 10);
      assert Decimal(n)[..|Decimal(n)| - 1] == Decimal(n / 10);
    } else {
      assert Decimal(n)[..0] == "";
    }
  }

  // ---- Texts ----

  // Where the last mark stands, or the end.
  function MarkAt(t: string): (p: nat)
    ensures p <= |t|
  {
    if t == "" then 0
    else if t[|t| - 1] == '%' then |t| - 1
    else
      var p := MarkAt(t[..|t| - 1]);
      if p < |t| - 1 then p else |t|
  }

  const TMP: string := "_tmp_"

  // _new_temp_variable in the middle of the text
  function Spell(n: Name): string {
    var p := MarkAt(n.text);
    n.text[..p] + Ending(n.num, if p < |n.text| then n.text[p + 1..] else "")
  }

  function Ending(num: nat, z: string): string {
    TMP + Decimal(num) + z
  }

  // Texts that stand behind a number: nothing, or "_" and no further number.
  predicate CleanTail(z: string) {
    && (z == "" || z[0] == '_')
    && (forall k :: 0 <= k < |z| ==> z[k] != '%')
    && forall k :: 0 <= k < |z| - 2 ==> !IsTmp(z, k)
  }

  predicate IsTmp(s: string, k: nat)
    requires k + 2 < |s|
  {
    s[k] == '_' && s[k + 1] == 't' && s[k + 2] == 'm'
  }

  predicate GoodText(t: string) {
    var p := MarkAt(t);
    p < |t| && CleanTail(t[p + 1..])
  }

  lemma {:induction false} MarkFound(x: string, z: string)
    requires forall k :: 0 <= k < |z| ==> z[k] != '%'
    ensures MarkAt(x + "%" + z) == |x|
    decreases |z|
  {
    var t := x + "%" + z;
    if z == "" {
      assert t[|t| - 1] == '%';
    } else {
      assert t[..|t| - 1] == x + "%" + z[..|z| - 1];
      MarkFound(x, z[..|z| - 1]);
    }
  }

  lemma TextGood(x: string, z: string)
    requires CleanTail(z)
    ensures GoodText(x + "%" + z)
  {
    MarkFound(x, z);
    assert (x + "%" + z)[|x| + 1..] == z;
  }

  // Inside the ending no second "_tmp" begins.
  lemma OneTmp(num: nat, z: string, k: nat)
    requires CleanTail(z) && 0 < k && k + 2 < |Ending(num, z)|
    ensures !IsTmp(Ending(num, z), k)
  {
    var d, e := Decimal(num), Ending(num, z);
    assert forall j :: 0 <= j < |d| ==> e[5 + j] == d[j];
    assert forall j :: 0 <= j < |z| ==> e[5 + |d| + j] == z[j];
    assert e[0] == '_' && e[1] == 't' && e[2] == 'm' && e[3] == 'p' && e[4] == '_' && e[5] == d[0];
    if k >= 5 + |d| {
      assert !IsTmp(z, k - 5 - |d|);
    } else if k >= 5 {
      assert IsDigit(d[k - 5]);
    }
  }

  // Where two texts with endings agree, the endings begin at the same place.
  lemma SamePlace(x: string, a: nat, z: string, y: string, b: nat, u: string)
    requires CleanTail(z) && CleanTail(u) && x + Ending(a, z) == y + Ending(b, u)
    ensures |x| >= |y|
  {
    if |x| < |y| {
      var k, s := |y| - |x|, x + Ending(a, z);
      var e, f := Ending(a, z), Ending(b, u);
      assert f[0] == '_' && f[1] == 't' && f[2] == 'm' && |f| >= 6;
      assert s[|y|] == f[0] && s[|y| + 1] == f[1] && s[|y| + 2] == f[2];
      assert s[|y|] == e[k] && s[|y| + 1] == e[k + 1] && s[|y| + 2] == e[k + 2];
      OneTmp(a, z, k);
    }
  }

  // The number is all digits up to the tail.
  lemma SameDigits(a: nat, z: string, b: nat, u: string)
    requires CleanTail(z) && CleanTail(u) && Decimal(a) + z == Decimal(b) + u
    ensures |Decimal(a)| >= |Decimal(b)|
  {
    var d, e := Decimal(a), Decimal(b);
    assert |d| < |d + z| ==> !IsDigit((d + z)[|d|]);
    assert forall k :: 0 <= k < |e| ==> IsDigit((e + u)[k]);
  }

  lemma SameNumber(a: nat, z: string, b: nat, u: string)
    requires CleanTail(z) && CleanTail(u) && Decimal(a) + z == Decimal(b) + u
    ensures a == b
  {
    hide Decimal, CleanTail, Value;
    SameDigits(a, z, b, u);
    SameDigits(b, u, a, z);
    assert (Decimal(a) + z)[..|Decimal(a)|] == Decimal(a) && (Decimal(b) + u)[..|Decimal(b)|] == Decimal(b);
    DecimalValue(a);
    DecimalValue(b);
  }

  // Equal texts have equal numbers.
  lemma SpellNumber(m: Name, n: Name)
    requires GoodText(m.text) && GoodText(n.text) && Spell(m) == Spell(n)
    ensures m.num == n.num
  {
    hide Decimal, CleanTail, MarkAt;
    var p, q := MarkAt(m.text), MarkAt(n.text);
    var x, y, z, u := m.text[..p], n.text[..q], m.text[p + 1..], n.text[q + 1..];
    assert Spell(m) == x + Ending(m.num, z) && Spell(n) == y + Ending(n.num, u);
    SamePlace(x, m.num, z, y, n.num, u);
    SamePlace(y, n.num, u, x, m.num, z);
    Tails(x, m.num, z, y, n.num, u);
    SameNumber(m.num, z, n.num, u);
  }

  lemma Tails(x: string, a: nat, z: string, y: string, b: nat, u: string)
    requires |x| == |y| && x + Ending(a, z) == y + Ending(b, u)
    ensures Decimal(a) + z == Decimal(b) + u
  {
    hide Decimal;
    assert (x + Ending(a, z))[|x| + 5..] == Decimal(a) + z;
    assert (y + Ending(b, u))[|y| + 5..] == Decimal(b) + u;
  }

  lemma SpellLong(n: Name)
    ensures Spell(n) != "_"
  {
    hide Decimal, MarkAt;
    assert |TMP| == 5;
  }

  // ---- The texts of the compiler ----

  predicate GoodName(n: Name) { GoodText(n.text) }

  lemma PlainTail()
    ensures CleanTail("")
  {
  }

  lemma BranchTails()
    ensures CleanTail("_true") && CleanTail("_false") && CleanTail("_1")
  {
  }

  lemma TagTails()
    ensures CleanTail("_new_tag_with_old") && CleanTail("_old_tag_with_old") && CleanTail("_old_tag_with_new")
  {
  }

  // Texts that end with the mark.
  lemma EndsWithMark(t: string)
    requires t != "" && t[|t| - 1] == '%'
    ensures GoodText(t)
  {
    hide CleanTail;
    PlainTail();
    assert t == t[..|t| - 1] + "%" + "";
    TextGood(t[..|t| - 1], "");
  }

  lemma GuardNames(k: nat)
    ensures GoodName(Name("%_true", k)) && GoodName(Name("%_false", k)) && GoodName(Name("%_1", k)) && GoodName(Name("%", k))
  {
    hide CleanTail, MarkAt, GoodText;
    BranchTails();
    assert "%_true" == "" + "%" + "_true" && "%_false" == "" + "%" + "_false" && "%_1" == "" + "%" + "_1";
    TextGood("", "_true");
    TextGood("", "_false");
    TextGood("", "_1");
    EndsWithMark("%");
  }

  lemma SplitNames(x: Var, k: nat)
    ensures GoodName(Name("_" + x + "%_true", k)) && GoodName(Name("_" + x + "%_false", k))
  {
    hide CleanTail, MarkAt, GoodText;
    BranchTails();
    assert "_" + x + "%_true" == ("_" + x) + "%" + "_true";
    assert "_" + x + "%_false" == ("_" + x) + "%" + "_false";
    TextGood("_" + x, "_true");
    TextGood("_" + x, "_false");
  }

  lemma TagNames(n: nat)
    ensures GoodName(NewTagName(n)) && GoodName(OldTagName(n)) && GoodName(OldUnderNew(n))
  {
    hide CleanTail, MarkAt, GoodText;
    TagTails();
    assert "%_new_tag_with_old" == "" + "%" + "_new_tag_with_old";
    assert "%_old_tag_with_old" == "" + "%" + "_old_tag_with_old";
    assert "%_old_tag_with_new" == "" + "%" + "_old_tag_with_new";
    TextGood("", "_new_tag_with_old");
    TextGood("", "_old_tag_with_old");
    TextGood("", "_old_tag_with_new");
  }

  lemma LoopVarNames(x: Var, base: nat, k: nat)
    ensures GoodName(Tagged(x, base, k)) && GoodName(Codegen.Last(x, base, k)) && GoodName(Again(x, base, k))
    ensures GoodName(Codegen.Start(x, base, k)) && GoodName(End(x, base, k))
  {
    hide GoodText;
    EndsWithMark("_" + x + "_loop_input_tagged%");
    EndsWithMark("_" + x + "_loop_last_value%");
    EndsWithMark("_" + x + "_loop_again%");
    EndsWithMark("_" + x + "_loop_start%");
    EndsWithMark("_" + x + "_loop_end%");
  }

  lemma TurnNames(x: Var, base: nat, k: nat)
    ensures GoodName(Again0(x, base, k)) && GoodName(Leave0(x, base, k)) && GoodName(Reset(x, base, k))
  {
    hide GoodText;
    EndsWithMark("_" + x + "_true%");
    EndsWithMark("_" + x + "_false%");
    EndsWithMark("_" + x + "_reset_il%");
  }

  // ---- Every name that is read is defined ----

  ghost predicate Defined(P: seq<Line>, n: Name) {
    exists l :: l in P && n in Outs(l)
  }

  // Two outputs have two numbers, and a merge reads two names.
  predicate NumbersDiffer(l: Line) {
    match l
    case Merge(_, a, b) => a != b
    case Branch(t, f, _, _) => f.Some? ==> f.value.num != t.num
    case NewTag(n, o, _) => n.num != o.num
    case _ => true
  }

  ghost predicate FineLine(P: seq<Line>, l: Line) {
    && (forall n :: n in Ins(l) ==> Defined(P, n)) && (forall n :: n in Outs(l) ==> GoodName(n))
    && NumbersDiffer(l) && !l.Output?
  }

  ghost predicate DefinedVars(P: seq<Line>, vars: map<Var, Name>) {
    forall x :: x in vars ==> Defined(P, vars[x])
  }

  ghost predicate Fine(P: seq<Line>, st: Gen) {
    && (forall l :: l in st.lines ==> FineLine(P, l)) && DefinedVars(P, st.vars)
    && (st.scope.Some? ==> Defined(P, st.scope.value)) && (st.guard.Some? ==> Defined(P, st.guard.value))
  }

  lemma FineMore(P: seq<Line>, st: Gen, r: Gen, lines: seq<Line>)
    requires Fine(P, st) && r.lines == st.lines + lines && (forall l :: l in lines ==> FineLine(P, l)) && DefinedVars(P, r.vars)
    requires (r.scope.Some? ==> Defined(P, r.scope.value)) && (r.guard.Some? ==> Defined(P, r.guard.value))
    ensures Fine(P, r)
  {
    hide FineLine, Defined;
  }

  lemma FineParts(P: seq<Line>, st: Gen)
    requires Fine(P, st)
    ensures DefinedVars(P, st.vars)
    ensures (st.scope.Some? ==> Defined(P, st.scope.value)) && (st.guard.Some? ==> Defined(P, st.guard.value))
  {
  }

  lemma LineDefines(P: seq<Line>, lines: seq<Line>, l: Line)
    requires lines <= P && l in lines
    ensures forall n :: n in Outs(l) ==> Defined(P, n)
  {
  }

  lemma LiteralAppends(n: Data, out: Name, st: Gen)
    ensures st.lines <= GenLiteral(n, out, st).lines
  {
  }

  lemma RawFine(P: seq<Line>, out: Name, n: Data, scope: Option<Name>)
    requires GoodName(out) && (scope.Some? ==> Defined(P, scope.value))
    ensures FineLine(P, RawLiteral(out, n, scope)) && Outs(RawLiteral(out, n, scope)) == {out}
  {
    hide GoodName, Defined;
  }

  lemma LiteralFine(P: seq<Line>, n: Data, out: Name, st: Gen)
    requires Fine(P, st) && GenLiteral(n, out, st).lines <= P && GoodName(out)
    ensures Fine(P, GenLiteral(n, out, st)) && Defined(P, out)
  {
    hide Fine, GoodName, Defined, FineLine, RawLiteral;
    FineParts(P, st);
    var r := GenLiteral(n, out, st);
    if st.guard.Some? {
      var tmp := Name("%", st.num + 1);
      var a, b := RawLiteral(tmp, n, st.scope), Branch(out, None, tmp, st.guard.value);
      GuardNames(st.num + 1);
      RawFine(P, tmp, n, st.scope);
      LineDefines(P, r.lines, a);
      LineDefines(P, r.lines, b);
      assert FineLine(P, b) by { GuardedFine(P, out, tmp, st.guard.value); }
      FineMore(P, st, r, [a, b]);
    } else {
      RawFine(P, out, n, st.scope);
      LineDefines(P, r.lines, RawLiteral(out, n, st.scope));
      FineMore(P, st, r, [RawLiteral(out, n, st.scope)]);
    }
  }

  lemma GuardedFine(P: seq<Line>, out: Name, src: Name, test: Name)
    requires GoodName(out) && Defined(P, src) && Defined(P, test)
    ensures FineLine(P, Branch(out, None, src, test))
  {
    hide GoodName, Defined;
  }

  lemma {:induction false} ExprFine(P: seq<Line>, e: F.Expr, st: Gen)
    requires Fine(P, st) && F.UsedExpr(e) <= st.vars.Keys && GenExpr(e, st).0.lines <= P
    ensures Fine(P, GenExpr(e, st).0) && Defined(P, GenExpr(e, st).1)
  {
    hide Fine, GenLiteral, GenExpr, GoodName, Defined;
    FineParts(P, st);
    match e
    case Number(n) =>
      NumberIs(e, st);
      var st1 := st.(num := st.num + 1);
      FineMore(P, st, st1, []);
      GuardNames(st.num + 1);
      LiteralFine(P, n, Name("%", st.num + 1), st1);
    case Variable(x) =>
      VariableIs(e, st);
    case Binary(op, a, b) =>
      BinaryIs(e, st);
      var (st1, x) := GenExpr(a, st);
      var (st2, y) := GenExpr(b, st1);
      var (r, out) := GenExpr(e, st);
      ExprFine(P, a, st);
      ExprFine(P, b, st1);
      FineParts(P, st2);
      var l := Line.Binary(out, op, x, y);
      GuardNames(r.num);
      LineDefines(P, r.lines, l);
      FineMore(P, st2, r, [l]);
  }

  // ---- Conditionals ----

  ghost predicate DefinedNames(P: seq<Line>, names: seq<Name>) {
    forall k :: 0 <= k < |names| ==> Defined(P, names[k])
  }

  lemma {:induction false} RenameDefined(P: seq<Line>, vars: map<Var, Name>, q: seq<Var>, names: seq<Name>, k: nat)
    requires k <= |q| && k <= |names| && DefinedVars(P, vars) && DefinedNames(P, names)
    ensures DefinedVars(P, Rename(vars, q, names, k))
  {
    hide Defined;
    if k > 0 { RenameDefined(P, vars, q, names, k - 1); }
  }

  lemma SplitLinesFine(P: seq<Line>, q: seq<Var>, vars: map<Var, Name>, cond: Name, base: nat)
    requires (set x | x in q) <= vars.Keys && DefinedVars(P, vars) && Defined(P, cond)
    requires forall l :: l in SplitLines(q, vars, cond, base) ==> l in P
    ensures forall l :: l in SplitLines(q, vars, cond, base) ==> FineLine(P, l)
    ensures DefinedNames(P, TrueNames(q, base)) && DefinedNames(P, FalseNames(q, base))
  {
    hide GoodName, DefinedVars;
    var ls := SplitLines(q, vars, cond, base);
    forall k: nat | k < |q|
      ensures FineLine(P, ls[k]) && Defined(P, TrueNames(q, base)[k]) && Defined(P, FalseNames(q, base)[k])
    {
      assert q[k] in (set x | x in q) && ls[k] in ls;
      VarDefined(P, vars, q[k]);
      SplitNames(q[k], base + 2 * k + 1);
      SplitNames(q[k], base + 2 * k + 2);
    }
  }

  lemma VarDefined(P: seq<Line>, vars: map<Var, Name>, x: Var)
    requires DefinedVars(P, vars) && x in vars
    ensures Defined(P, vars[x])
  {
  }

  lemma SplitFine(P: seq<Line>, q: seq<Var>, cond: Name, st: Gen)
    requires Fine(P, st) && (set x | x in q) <= st.vars.Keys && Defined(P, cond) && Split(q, cond, st).lines <= P
    ensures Fine(P, Split(q, cond, st)) && Defined(P, FalseGuard(Split(q, cond, st))) && DefinedNames(P, FalseNames(q, st.num))
  {
    hide Fine, GenLiteral, SplitLines, Rename, Defined, GoodName;
    FineParts(P, st);
    var base, r := st.num, Split(q, cond, st);
    var st1 := st.(lines := st.lines + SplitLines(q, st.vars, cond, base),
                   vars := Rename(st.vars, q, TrueNames(q, base), |q|), num := base + 2 * |q| + 1);
    var one := Name("%_1", st1.num);
    var st2 := GenLiteral(1, one, st1);
    LiteralAppends(1, one, st1);
    assert st1.lines <= st2.lines <= r.lines <= P;
    forall l | l in SplitLines(q, st.vars, cond, base) ensures l in P { assert l in st1.lines; }
    SplitLinesFine(P, q, st.vars, cond, base);
    RenameDefined(P, st.vars, q, TrueNames(q, base), |q|);
    FineMore(P, st, st1, SplitLines(q, st.vars, cond, base));
    GuardNames(st1.num);
    LiteralFine(P, 1, one, st1);
    FineParts(P, st2);
    var l := Branch(r.guard.value, Some(FalseGuard(r)), one, cond);
    GuardNames(r.num);
    GuardNames(r.num - 1);
    LineDefines(P, r.lines, l);
    FineMore(P, st2, r, [l]);
  }

  lemma {:induction false} MergeFine(P: seq<Line>, q: seq<Var>, tv: map<Var, Name>, fv: map<Var, Name>, st: Gen, k: nat)
    requires k <= |q| && (forall x :: x in q ==> x in tv && x in fv && x in st.vars)
    requires Fine(P, st) && DefinedVars(P, tv) && DefinedVars(P, fv) && MergeVars(q, tv, fv, st, k).lines <= P
    ensures Fine(P, MergeVars(q, tv, fv, st, k))
  {
    hide Fine, Defined, GoodText, MergeVars;
    MergeMore(q, tv, fv, st, k);
    if k > 0 {
      var p, r, x := MergeVars(q, tv, fv, st, k - 1), MergeVars(q, tv, fv, st, k), q[k - 1];
      assert p.lines <= r.lines <= P;
      MergeFine(P, q, tv, fv, st, k - 1);
      if tv[x] != fv[x] { PhiFine(P, x, tv[x], fv[x], p, r); }
    }
  }

  lemma PhiFine(P: seq<Line>, x: Var, a: Name, b: Name, p: Gen, r: Gen)
    requires Fine(P, p) && Defined(P, a) && Defined(P, b) && a != b && r.lines <= P
    requires var phi := Name("_" + x + "_phi%", p.num + 1);
      r == p.(lines := p.lines + [Merge(phi, a, b)], vars := p.vars[x := phi], num := p.num + 1)
    ensures Fine(P, r)
  {
    hide Fine, Defined, GoodText;
    FineParts(P, p);
    var l := Merge(r.vars[x], a, b);
    EndsWithMark("_" + x + "_phi%");
    LineDefines(P, r.lines, l);
    FineMore(P, p, r, [l]);
  }

  // ---- Loops ----

  ghost predicate LastsDefined(P: seq<Line>, q: seq<Var>, n: nat) {
    forall k :: 0 <= k < |q| ==> Defined(P, Codegen.Last(q[k], n + 3, k))
  }

  lemma EntryFine(P: seq<Line>, x: Var, prior: Name, n: nat, k: nat)
    requires Defined(P, prior) && Defined(P, NewTagName(n)) && Defined(P, Codegen.Last(x, n + 3, k))
    requires forall l :: l in EntryLines(x, prior, n, k) ==> l in P
    ensures forall l :: l in EntryLines(x, prior, n, k) ==> FineLine(P, l)
    ensures Defined(P, Codegen.Start(x, n + 3, k))
  {
    hide GoodName, Codegen.Start, NewTagName;
    LoopVarNames(x, n + 3, k);
    var ls := EntryLines(x, prior, n, k);
    assert ls[0] in ls && ls[1] in ls;
    assert Defined(P, Tagged(x, n + 3, k)) by { LineDefines(P, P, ls[0]); }
    LineDefines(P, P, ls[1]);
  }

  lemma {:induction false} EnterLinesFine(P: seq<Line>, q: seq<Var>, vars: map<Var, Name>, n: nat, k: nat)
    requires k <= |q| && (forall x :: x in q ==> x in vars) && DefinedVars(P, vars) && Defined(P, NewTagName(n)) && LastsDefined(P, q, n)
    requires forall l :: l in EnterLines(q, vars, n, k) ==> l in P
    ensures forall l :: l in EnterLines(q, vars, n, k) ==> FineLine(P, l)
    ensures forall j :: 0 <= j < k ==> Defined(P, Codegen.Start(q[j], n + 3, j))
  {
    hide Defined, FineLine, EntryLines, Codegen.Last, Codegen.Start, NewTagName;
    if k > 0 {
      EnterLinesFine(P, q, vars, n, k - 1);
      EntryFine(P, q[k - 1], vars[q[k - 1]], n, k - 1);
    }
  }

  lemma TagLinesFine(P: seq<Line>, first: Name, n: nat)
    requires Defined(P, first) && forall l :: l in TagLines(first, n) ==> l in P
    ensures forall l :: l in TagLines(first, n) ==> FineLine(P, l)
    ensures Defined(P, NewTagName(n)) && Defined(P, OldTagName(n)) && Defined(P, OldUnderNew(n))
  {
    hide GoodName, OldUnderNew;
    TagNames(n);
    var ls := TagLines(first, n);
    assert ls[0] in ls && ls[1] in ls;
    LineDefines(P, P, ls[0]);
    LineDefines(P, P, ls[1]);
  }

  lemma EnterFine(P: seq<Line>, q: seq<Var>, st: Gen)
    requires Fine(P, st) && |q| > 0 && (set x | x in q) <= st.vars.Keys && Enter(q, st).lines <= P && LastsDefined(P, q, st.num)
    ensures Fine(P, Enter(q, st)) && Defined(P, OldUnderNew(st.num))
    ensures DefinedNames(P, LoopNames(q, st.num + 3, Codegen.Start))
  {
    hide Fine, EnterLines, TagLines, Rename, Defined, GoodName, FineLine, Codegen.Last, Codegen.Start, NewTagName, OldTagName, OldUnderNew;
    FineParts(P, st);
    var n, r := st.num, Enter(q, st);
    forall x | x in q ensures x in st.vars { assert x in (set y | y in q); }
    VarDefined(P, st.vars, q[0]);
    var l := ReadTag(r.scope.value, Codegen.Start(q[0], n + 3, 0));
    var added := TagLines(st.vars[q[0]], n) + EnterLines(q, st.vars, n, |q|) + [l];
    forall m | m in added ensures m in P { assert m in r.lines; }
    TagLinesFine(P, st.vars[q[0]], n);
    EnterLinesFine(P, q, st.vars, n, |q|);
    EndsWithMark("_loop_current_tag%");
    ReadTagFine(P, r.scope.value, Codegen.Start(q[0], n + 3, 0));
    RenameDefined(P, st.vars, q, LoopNames(q, n + 3, Codegen.Start), |q|);
    FineMore(P, st, r, added);
  }

  lemma ReadTagFine(P: seq<Line>, out: Name, src: Name)
    requires Defined(P, src) && GoodText(out.text) && ReadTag(out, src) in P
    ensures FineLine(P, ReadTag(out, src)) && Defined(P, out)
  {
    LineDefines(P, P, ReadTag(out, src));
  }

  lemma TurnFine(P: seq<Line>, x: Var, n: nat, base: nat, cond: Name, k: nat)
    requires Defined(P, cond) && Defined(P, OldUnderNew(n)) && Defined(P, Codegen.Start(x, n + 3, k))
    requires forall l :: l in TurnLines(x, n, base, cond, k) ==> l in P
    ensures forall l :: l in TurnLines(x, n, base, cond, k) ==> FineLine(P, l)
    ensures Defined(P, Again(x, n + 3, k)) && Defined(P, End(x, n + 3, k))
  {
    hide GoodName, Again, End, Codegen.Start, Reset, OldUnderNew;
    LoopVarNames(x, n + 3, k);
    TurnNames(x, base, k);
    var ls := TurnLines(x, n, base, cond, k);
    assert ls[0] in ls && ls[1] in ls && ls[2] in ls && ls[3] in ls;
    LineDefines(P, P, ls[0]);
    LineDefines(P, P, ls[1]);
    LineDefines(P, P, ls[2]);
    LineDefines(P, P, ls[3]);
  }

  lemma {:induction false} TestLinesFine(P: seq<Line>, q: seq<Var>, n: nat, base: nat, cond: Name, k: nat)
    requires k <= |q| && Defined(P, cond) && Defined(P, OldUnderNew(n)) && DefinedNames(P, LoopNames(q, n + 3, Codegen.Start))
    requires forall l :: l in TestLines(q, n, base, cond, k) ==> l in P
    ensures forall l :: l in TestLines(q, n, base, cond, k) ==> FineLine(P, l)
    ensures forall j :: 0 <= j < k ==> Defined(P, Again(q[j], n + 3, j)) && Defined(P, End(q[j], n + 3, j))
  {
    hide Defined, FineLine, TurnLines, Again, End, Codegen.Start, OldUnderNew;
    if k > 0 {
      TestLinesFine(P, q, n, base, cond, k - 1);
      assert LoopNames(q, n + 3, Codegen.Start)[k - 1] == Codegen.Start(q[k - 1], n + 3, k - 1);
      TurnFine(P, q[k - 1], n, base, cond, k - 1);
    }
  }

  lemma TestFine(P: seq<Line>, q: seq<Var>, n: nat, cond: Name, st: Gen)
    requires Fine(P, st) && |q| > 0 && (set x | x in q) <= st.vars.Keys && Codegen.Test(q, n, cond, st).lines <= P
    requires Defined(P, cond) && Defined(P, OldUnderNew(n)) && DefinedNames(P, LoopNames(q, n + 3, Codegen.Start))
    ensures Fine(P, Codegen.Test(q, n, cond, st)) && DefinedNames(P, LoopNames(q, n + 3, End))
  {
    hide Fine, TestLines, Rename, Defined, GoodName, FineLine, Again, End, Codegen.Start, OldUnderNew;
    FineParts(P, st);
    var base, r := st.num + 1, Codegen.Test(q, n, cond, st);
    var l := ReadTag(r.scope.value, Again(q[0], n + 3, 0));
    var added := [l] + TestLines(q, n, base, cond, |q|);
    forall m | m in added ensures m in P { assert m in r.lines; }
    TestLinesFine(P, q, n, base, cond, |q|);
    EndsWithMark("_loop_next_tag%");
    ReadTagFine(P, r.scope.value, Again(q[0], n + 3, 0));
    RenameDefined(P, st.vars, q, LoopNames(q, n + 3, Again), |q|);
    FineMore(P, st, r, added);
  }

  lemma {:induction false} BackLinesFine(P: seq<Line>, q: seq<Var>, vars: map<Var, Name>, n: nat, k: nat)
    requires k <= |q| && (forall x :: x in q ==> x in vars) && DefinedVars(P, vars)
    ensures forall l :: l in BackLines(q, vars, n, k) ==> FineLine(P, l)
  {
    hide Defined, GoodName, Codegen.Last;
    if k > 0 {
      BackLinesFine(P, q, vars, n, k - 1);
      LoopVarNames(q[k - 1], n + 3, k - 1);
    }
  }

  // The last values are defined where the loop is closed.
  lemma {:induction false} BackLinesDefine(P: seq<Line>, q: seq<Var>, vars: map<Var, Name>, n: nat, k: nat)
    requires k <= |q| && (forall x :: x in q ==> x in vars) && forall l :: l in BackLines(q, vars, n, k) ==> l in P
    ensures forall j :: 0 <= j < k ==> Defined(P, Codegen.Last(q[j], n + 3, j))
  {
    hide Codegen.Last;
    if k > 0 {
      BackLinesDefine(P, q, vars, n, k - 1);
      var l := Copy(Codegen.Last(q[k - 1], n + 3, k - 1), vars[q[k - 1]]);
      assert l in BackLines(q, vars, n, k);
      LineDefines(P, P, l);
    }
  }

  lemma LeaveDefines(P: seq<Line>, q: seq<Var>, n: nat, st: Gen, outer: Gen)
    requires (set x | x in q) <= st.vars.Keys && Leave(q, n, st, outer).lines <= P
    ensures LastsDefined(P, q, n)
  {
    hide Defined, BackLines, Codegen.Last;
    forall x | x in q ensures x in st.vars { assert x in (set y | y in q); }
    forall l | l in BackLines(q, st.vars, n, |q|) ensures l in P { assert l in Leave(q, n, st, outer).lines; }
    BackLinesDefine(P, q, st.vars, n, |q|);
  }

  lemma LeaveFine(P: seq<Line>, q: seq<Var>, n: nat, st: Gen, outer: Gen)
    requires Fine(P, st) && Fine(P, outer) && (set x | x in q) <= st.vars.Keys && DefinedNames(P, LoopNames(q, n + 3, End))
    ensures Fine(P, Leave(q, n, st, outer))
  {
    hide Fine, BackLines, Rename, Defined, FineLine, End;
    FineParts(P, st);
    FineParts(P, outer);
    forall x | x in q ensures x in st.vars { assert x in (set y | y in q); }
    BackLinesFine(P, q, st.vars, n, |q|);
    RenameDefined(P, st.vars, q, LoopNames(q, n + 3, End), |q|);
    FineMore(P, st, Leave(q, n, st, outer), BackLines(q, st.vars, n, |q|));
  }

  // ---- Statements ----

  lemma {:induction false} StmtFine(P: seq<Line>, s: F.Stmt, st: Gen)
    requires F.Scoped(s, st.vars.Keys) && Fine(P, st) && GenStmt(s, st).lines <= P
    ensures Fine(P, GenStmt(s, st))
    decreases s, 1
  {
    hide Fine, GenExpr, GenIf, GenWhile, MergeVars, Leave, F.Enumerates;
    match s
    case Skip =>
    case Seq(a, b) =>
      GenGrows(b, GenStmt(a, st));
      StmtFine(P, a, st);
      StmtFine(P, b, GenStmt(a, st));
    case Assign(x, e) =>
      ExprFine(P, e, st);
      AssignFine(P, x, GenExpr(e, st).1, GenExpr(e, st).0);
    case If(_, _, _, _, _) => IfFine(P, s, st);
    case While(_, _, _) => WhileFine(P, s, st);
  }

  lemma AssignFine(P: seq<Line>, x: Var, v: Name, st: Gen)
    requires Fine(P, st) && Defined(P, v)
    requires var out := Name(x + "%", st.num + 1); st.lines + [Copy(out, v)] <= P
    ensures var out := Name(x + "%", st.num + 1);
      Fine(P, st.(lines := st.lines + [Copy(out, v)], vars := st.vars[x := out], num := st.num + 1))
  {
    hide Fine, Defined, GoodText;
    FineParts(P, st);
    var out := Name(x + "%", st.num + 1);
    EndsWithMark(x + "%");
    LineDefines(P, st.lines + [Copy(out, v)], Copy(out, v));
    FineMore(P, st, st.(lines := st.lines + [Copy(out, v)], vars := st.vars[x := out], num := st.num + 1), [Copy(out, v)]);
  }

  lemma {:induction false} IfFine(P: seq<Line>, s: F.Stmt, st: Gen)
    requires s.If? && F.Scoped(s, st.vars.Keys) && Fine(P, st) && GenStmt(s, st).lines <= P
    ensures Fine(P, GenStmt(s, st))
    decreases s, 0
  {
    hide Fine, GenExpr, GenIf, GenStmt, MergeVars, Split, Rename, FalseNames, Defined, F.Scoped;
    var p := GenIf(s, st);
    C.IfShape(s, st);
    IfGrows(s, st);
    assert p.test.lines <= p.thn.lines <= p.thnEnd.lines <= p.elsEnd.lines <= P;
    ExprFine(P, s.cond, st);
    SplitFine(P, s.order, p.cond, p.test);
    StmtFine(P, s.thn, p.thn);
    ElseFine(P, s.order, p.test, p.thn, p.thnEnd, p.els);
    StmtFine(P, s.els, p.els);
    FineParts(P, p.thnEnd);
    FineParts(P, p.elsEnd);
    FineParts(P, st);
    FineMore(P, p.elsEnd, p.elsEnd.(guard := st.guard), []);
    MergeFine(P, s.merge, p.thnEnd.vars, p.elsEnd.vars, p.elsEnd.(guard := st.guard), |s.merge|);
  }

  lemma ElseFine(P: seq<Line>, order: seq<Var>, test: Gen, thn: Gen, thnEnd: Gen, els: Gen)
    requires Fine(P, test) && Fine(P, thnEnd) && Defined(P, FalseGuard(thn)) && DefinedNames(P, FalseNames(order, test.num))
    requires els == thnEnd.(vars := Rename(test.vars, order, FalseNames(order, test.num), |order|), guard := Some(FalseGuard(thn)))
    ensures Fine(P, els)
  {
    hide Fine, Rename, Defined;
    FineParts(P, test);
    FineParts(P, thnEnd);
    RenameDefined(P, test.vars, order, FalseNames(order, test.num), |order|);
    FineMore(P, thnEnd, els, []);
  }

  lemma {:induction false} WhileFine(P: seq<Line>, s: F.Stmt, st: Gen)
    requires s.While? && F.Scoped(s, st.vars.Keys) && Fine(P, st) && GenStmt(s, st).lines <= P
    ensures Fine(P, GenStmt(s, st))
    decreases s, 0
  {
    hide Fine, GenExpr, Enter, Codegen.Test, Leave, LastsDefined, Defined;
    var p := GenWhile(s, st);
    WhileGrows(s, st);
    F.ScopedMore(s.body, F.Used(s), st.vars.Keys);
    F.AfterUsed(s.body, st.vars.Keys);
    assert p.enter.lines <= p.test.lines <= p.body.lines <= p.bodyEnd.lines <= P;
    LeaveDefines(P, s.order, st.num, p.bodyEnd, st);
    EnterFine(P, s.order, st);
    ExprFine(P, s.cond, p.enter);
    TestFine(P, s.order, st.num, p.cond, p.test);
    StmtFine(P, s.body, p.body);
    LeaveFine(P, s.order, st.num, p.bodyEnd, st);
  }

  // ---- Compiled programs ----

  ghost predicate AllFine(P: seq<Line>) {
    forall l :: l in P ==> FineLine(P, l) || FinePrint(P, l)
  }

  ghost predicate FinePrint(P: seq<Line>, l: Line) { l.Output? && Defined(P, l.src) }

  // Printing is all at the end.
  lemma CompiledFine(s: F.Stmt, q: seq<Var>)
    requires F.Scoped(s, {}) && forall x :: x in q ==> x in F.After(s, {})
    ensures AllFine(Compile(s, q)) && forall l :: l in Final(s).lines ==> !l.Output?
  {
    hide Fine, GenStmt, Final, Compile, FineLine, Defined;
    var P := Compile(s, q);
    ProgramIs(s, q);
    assert Fine(P, START) by { StartFine(P); }
    StmtFine(P, s, START);
    var st := Final(s);
    FineParts(P, st);
    forall l | l in st.lines ensures FineLine(P, l) && !l.Output? { LineIsFine(P, st, l); }
    forall l | l in P
      ensures FineLine(P, l) || FinePrint(P, l)
    {
      if l !in st.lines {
        var k :| |st.lines| <= k < |P| && P[k] == l;
        VarDefined(P, st.vars, q[k - |st.lines|]);
      }
    }
  }

  lemma StartFine(P: seq<Line>)
    ensures Fine(P, START)
  {
  }

  lemma LineIsFine(P: seq<Line>, st: Gen, l: Line)
    requires Fine(P, st) && l in st.lines
    ensures FineLine(P, l) && !l.Output?
  {
  }

  // The name occurs in the program.
  ghost predicate Occurs(P: seq<Line>, n: Name) {
    exists l :: l in P && n in Outs(l) + Ins(l)
  }

  lemma OccursDefined(P: seq<Line>, n: Name)
    requires AllFine(P) && Occurs(P, n)
    ensures Defined(P, n) && GoodName(n)
  {
    hide GoodName;
    var l :| l in P && n in Outs(l) + Ins(l);
    assert FineLine(P, l) || FinePrint(P, l);
    assert Defined(P, n);
    var d :| d in P && n in Outs(d);
    assert FineLine(P, d) || FinePrint(P, d);
  }

  // One number, one name.
  lemma NumberNames(s: F.Stmt, q: seq<Var>, m: Name, n: Name)
    requires F.Scoped(s, {}) && forall x :: x in q ==> x in F.After(s, {})
    requires Defined(Compile(s, q), m) && Defined(Compile(s, q), n) && m.num == n.num
    ensures m == n
  {
    hide GenStmt, Outs, F.Scoped, GoodText, NumbersDiffer;
    ProgramIs(s, q);
    CompiledFine(s, q);
    StmtNumbered(s, START);
    var P, lines := Compile(s, q), Final(s).lines;
    var l, k :| l in P && m in Outs(l) && k in P && n in Outs(k);
    PrintsDefineNothing(s, q, l);
    PrintsDefineNothing(s, q, k);
    assert lines[|START.lines|..] == lines;
    assert FineLine(P, l) || FinePrint(P, l);
    OneNumber(lines, Between(0, Final(s).num), l, k, m, n);
  }

  lemma PrintsDefineNothing(s: F.Stmt, q: seq<Var>, l: Line)
    requires F.Scoped(s, {}) && (forall x :: x in q ==> x in F.After(s, {})) && l in Compile(s, q) && Outs(l) != {}
    ensures l in Final(s).lines
  {
    hide GenStmt, F.Scoped;
    ProgramIs(s, q);
  }

  lemma OneNumber(lines: seq<Line>, u: set<nat>, l: Line, k: Line, m: Name, n: Name)
    requires Numbered(lines, u) && NumbersDiffer(l) && l in lines && k in lines && m in Outs(l) && n in Outs(k) && m.num == n.num
    ensures m == n
  {
    hide Outs;
    var i :| 0 <= i < |lines| && lines[i] == l;
    var j :| 0 <= j < |lines| && lines[j] == k;
    assert i == j;
    TwoOuts(l, m, n);
  }

  lemma TwoOuts(l: Line, m: Name, n: Name)
    requires m in Outs(l) && n in Outs(l) && m.num == n.num && NumbersDiffer(l)
    ensures m == n
  {
  }

  // Different names of a compiled program have different texts, and none is "_".
  lemma CompiledSpells(s: F.Stmt, q: seq<Var>, m: Name, n: Name)
    requires F.Scoped(s, {}) && forall x :: x in q ==> x in F.After(s, {})
    requires Occurs(Compile(s, q), m) && Occurs(Compile(s, q), n)
    ensures Spell(m) == Spell(n) ==> m == n
    ensures Spell(n) != "_"
  {
    hide AllFine, Defined, Occurs, Spell, GoodText, Compile, F.Scoped;
    CompiledFine(s, q);
    OccursDefined(Compile(s, q), m);
    OccursDefined(Compile(s, q), n);
    SpellLong(n);
    if Spell(m) == Spell(n) {
      SpellNumber(m, n);
      NumberNames(s, q, m, n);
    }
  }
}
