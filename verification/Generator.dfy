// GenerateAssemblyPass as it runs: a visitor that appends lines and rewrites its fields, proved to
// leave exactly the state that the functions of Codegen describe.
module Generator {
  import opened Words
  import F = Force
  import opened Tass
  import opened Codegen
  import opened Correctness

  // A variable later in q still has its old name.
  lemma {:induction false} RenameLater(vars: map<Var, Name>, q: seq<Var>, names: seq<Name>, k: nat, j: nat)
    requires k <= j < |q| && k <= |names| && F.Distinct(q) && q[j] in vars
    ensures q[j] in Rename(vars, q, names, k) && Rename(vars, q, names, k)[q[j]] == vars[q[j]]
    decreases k
  {
    if k > 0 { RenameLater(vars, q, names, k - 1, j); }
  }

  lemma RenameNext(vars: map<Var, Name>, q: seq<Var>, names: seq<Name>, k: nat)
    requires k < |q| && k < |names|
    ensures Rename(vars, q, names, k + 1) == Rename(vars, q, names, k)[q[k] := names[k]]
  {
  }

  lemma RenameNone(vars: map<Var, Name>, q: seq<Var>, names: seq<Name>)
    ensures Rename(vars, q, names, 0) == vars
  {
  }

  function TrueName(x: Var, num: nat): Name { Name("_" + x + "%_true", num + 1) }
  function FalseName(x: Var, num: nat): Name { Name("_" + x + "%_false", num + 2) }

  lemma SplitNext(q: seq<Var>, vars: map<Var, Name>, cond: Name, base: nat, k: nat)
    requires (set x | x in q) <= vars.Keys && k < |q| && q[k] in vars
    ensures TrueNames(q, base)[k] == TrueName(q[k], base + 2 * k)
    ensures FalseNames(q, base)[..k + 1] == FalseNames(q, base)[..k] + [FalseName(q[k], base + 2 * k)]
    ensures SplitLines(q, vars, cond, base)[..k + 1] == SplitLines(q, vars, cond, base)[..k]
      + [Branch(TrueName(q[k], base + 2 * k), Some(FalseName(q[k], base + 2 * k)), vars[q[k]], cond)]
  {
  }

  // The names of one loop variable.
  datatype LoopVariable = LoopVariable(tagged: Name, last: Name, again: Name, start: Name, end: Name)

  function NamesOf(x: Var, num: nat): LoopVariable {
    LoopVariable(Tagged(x, num, 0), Last(x, num, 0), Again(x, num, 0), Start(x, num, 0), End(x, num, 0))
  }

  // The names of all loop variables of a loop that starts after number n.
  ghost predicate NamesFit(order: seq<Var>, names: seq<LoopVariable>, n: nat) {
    |names| == |order| && forall k :: 0 <= k < |order| ==> names[k] == NamesOf(order[k], n + 3 + 5 * k)
  }

  lemma NoNames(order: seq<Var>, n: nat)
    ensures NamesFit(order[..0], [], n)
  {
  }

  lemma MoreNames(order: seq<Var>, names: seq<LoopVariable>, v: LoopVariable, n: nat, k: nat)
    requires k < |order| && NamesFit(order[..k], names, n) && v == NamesOf(order[k], n + 3 + 5 * k)
    ensures NamesFit(order[..k + 1], names + [v], n)
  {
    hide NamesOf;
  }

  lemma FirstNames(order: seq<Var>, names: seq<LoopVariable>, n: nat)
    requires NamesFit(order, names, n) && |order| > 0
    ensures names[0].start == Start(order[0], n + 3, 0) && names[0].again == Again(order[0], n + 3, 0)
  {
  }

  function TurnOf(x: Var, names: LoopVariable, oldUnderNew: Name, cond: Name, num: nat): seq<Line> {
    [Branch(Again0(x, num, 0), Some(Leave0(x, num, 0)), names.start, cond),
     NextIter(names.again, Again0(x, num, 0)),
     ResetIter(Reset(x, num, 0), Leave0(x, num, 0)),
     CopyTag(names.end, oldUnderNew, Reset(x, num, 0))]
  }

  lemma AllIn(order: seq<Var>, vars: map<Var, Name>)
    requires (set x | x in order) <= vars.Keys
    ensures forall x :: x in order ==> x in vars
  {
    assert forall x :: x in order ==> x in (set y | y in order);
  }

  lemma DrawsTag(x: Var, vars: map<Var, Name>, n: nat)
    requires x in vars
    ensures TagLines(vars[x], n) == [NewTag(NewTagName(n), OldTagName(n), vars[x]),
                                     CopyTag(OldUnderNew(n), NewTagName(n), OldTagName(n))]
  {
  }

  lemma EnterNext(order: seq<Var>, vars: map<Var, Name>, n: nat, k: nat)
    requires k < |order| && forall x :: x in order ==> x in vars
    ensures var v := NamesOf(order[k], n + 3 + 5 * k);
      && EnterLines(order, vars, n, k + 1) == EnterLines(order, vars, n, k)
        + [CopyTag(v.tagged, NewTagName(n), vars[order[k]]), Merge(v.start, v.tagged, v.last)]
      && LoopNames(order, n + 3, Start)[k] == v.start
    ensures k == 0 ==> EnterLines(order, vars, n, k) == []
  {
  }

  // The lines so far, when one more variable has entered.
  lemma LinesNext(start: seq<Line>, lines: seq<Line>, before: seq<Line>, after: seq<Line>, tags: seq<Line>, entered: seq<Line>,
                  entry: seq<Line>, k: nat)
    requires before == start + lines && lines == (if k == 0 then [] else tags + entered) && (k == 0 ==> entered == [])
    requires after == before + (if k == 0 then tags else []) + entry
    ensures after == start + (tags + (entered + entry))
  {
  }

  lemma TestNone(order: seq<Var>, n: nat, base: nat, cond: Name)
    ensures TestLines(order, n, base, cond, 0) == []
  {
  }

  lemma TestNext(order: seq<Var>, names: seq<LoopVariable>, n: nat, base: nat, cond: Name, k: nat)
    requires NamesFit(order, names, n) && k < |order|
    ensures TestLines(order, n, base, cond, k + 1) == TestLines(order, n, base, cond, k)
      + TurnOf(order[k], names[k], OldUnderNew(n), cond, base + 3 * k)
    ensures LoopNames(order, n + 3, Again)[k] == names[k].again
  {
  }

  lemma BackNone(order: seq<Var>, vars: map<Var, Name>, n: nat)
    requires forall x :: x in order ==> x in vars
    ensures BackLines(order, vars, n, 0) == []
  {
  }

  lemma BackNext(order: seq<Var>, names: seq<LoopVariable>, vars: map<Var, Name>, n: nat, k: nat)
    requires NamesFit(order, names, n) && k < |order| && forall x :: x in order ==> x in vars
    ensures BackLines(order, vars, n, k + 1) == BackLines(order, vars, n, k) + [Copy(names[k].last, vars[order[k]])]
    ensures LoopNames(order, n + 3, End)[k] == names[k].end
  {
  }

  lemma EnumeratedOnce(s: F.Stmt, d: set<Var>)
    requires (s.If? || s.While?) && F.Scoped(s, d)
    ensures F.Distinct(s.order) && (set x | x in s.order) <= d
  {
  }

  class GenerateAssemblyPass {
    var toReturn: seq<Line>
    var variables: map<Var, Name>
    var num: nat
    var currentScopeTag: Option<Name>
    var currentConditionalTrueVar: Option<Name>

    ghost function State(): Gen
      reads this
    {
      Gen(toReturn, variables, num, currentScopeTag, currentConditionalTrueVar)
    }

    constructor ()
      ensures State() == START
    {
      toReturn, variables, num, currentScopeTag, currentConditionalTrueVar := [], map[], 0, None, None;
    }

    method NewTempVariable(text: string) returns (name: Name)
      modifies this`num
      ensures num == old(num) + 1 && name == Name(text, num)
    {
      num := num + 1;
      name := Name(text, num);
    }

    method Append(l: Line)
      modifies this`toReturn
      ensures State() == Put(old(State()), l)
    {
      toReturn := toReturn + [l];
    }

    // ---- Expressions ----

    method CreateNumLiteral(n: Data, out: Name)
      modifies this
      ensures State() == GenLiteral(n, out, old(State()))
    {
      var name := out;
      if currentConditionalTrueVar.Some? { name := NewTempVariable("%"); }
      if currentScopeTag.Some? {
        Append(CopyTagLit(name, currentScopeTag.value, n));
      } else {
        Append(Literal(name, n));
      }
      if currentConditionalTrueVar.Some? {
        Append(Branch(out, None, name, currentConditionalTrueVar.value));
        assert toReturn == old(toReturn) + [RawLiteral(name, n, currentScopeTag),
                                            Branch(out, None, name, currentConditionalTrueVar.value)];
      }
    }

    method Expression(e: F.Expr) returns (name: Name)
      requires F.UsedExpr(e) <= variables.Keys
      modifies this
      ensures (State(), name) == GenExpr(e, old(State()))
      decreases e
    {
      hide GenLiteral;
      match e
      case Number(n) =>
        name := NewTempVariable("%");
        CreateNumLiteral(n, name);
      case Variable(x) =>
        name := variables[x];
      case Binary(op, l, r) =>
        var a := Expression(l);
        var b := Expression(r);
        name := NewTempVariable("%");
        Append(Line.Binary(name, op, a, b));
    }

    method Assignment(x: Var, e: F.Expr)
      requires F.UsedExpr(e) <= variables.Keys
      modifies this
      ensures State() == GenStmt(F.Assign(x, e), old(State()))
    {
      hide GenExpr;
      var v := Expression(e);
      var name := NewTempVariable(x + "%");
      Append(Copy(name, v));
      variables := variables[x := name];
    }

    // ---- Conditionals ----

    method SplitVariable(x: Var, cond: Name) returns (falseName: Name)
      requires x in variables
      modifies this`toReturn, this`variables, this`num
      ensures num == old(num) + 2 && falseName == FalseName(x, old(num))
      ensures variables == old(variables)[x := TrueName(x, old(num))]
      ensures toReturn == old(toReturn) + [Branch(TrueName(x, old(num)), Some(falseName), old(variables)[x], cond)]
    {
      var current := variables[x];
      var trueName := NewTempVariable("_" + x + "%_true");
      falseName := NewTempVariable("_" + x + "%_false");
      variables := variables[x := trueName];
      toReturn := toReturn + [Branch(trueName, Some(falseName), current, cond)];
    }

    // Every variable of the blocks splits into a true and a false name.
    method SplitVariables(order: seq<Var>, cond: Name) returns (falseNames: seq<Name>)
      requires (set x | x in order) <= variables.Keys && F.Distinct(order)
      modifies this`toReturn, this`variables, this`num
      ensures toReturn == old(toReturn) + SplitLines(order, old(variables), cond, old(num))
      ensures variables == Rename(old(variables), order, TrueNames(order, old(num)), |order|)
      ensures num == old(num) + 2 * |order| && falseNames == FalseNames(order, old(num))
    {
      hide SplitLines, TrueNames, FalseNames, TrueName, FalseName;
      ghost var was, base := variables, num;
      falseNames := [];
      for k := 0 to |order|
        invariant num == base + 2 * k && falseNames == FalseNames(order, base)[..k]
        invariant toReturn == old(toReturn) + SplitLines(order, was, cond, base)[..k]
        invariant variables == Rename(was, order, TrueNames(order, base), k)
      {
        assert order[k] in (set y | y in order);
        RenameLater(was, order, TrueNames(order, base), k, k);
        SplitNext(order, was, cond, base, k);
        var f := SplitVariable(order[k], cond);
        falseNames := falseNames + [f];
      }
    }

    // Split the variables, and the literal 1 into the guards of the two branches.
    method SplitBranches(order: seq<Var>, cond: Name) returns (falseNames: seq<Name>, falseGuard: Name)
      requires (set x | x in order) <= variables.Keys && F.Distinct(order)
      modifies this
      ensures State() == Split(order, cond, old(State()))
      ensures falseNames == FalseNames(order, old(num)) && falseGuard == FalseGuard(State())
    {
      hide SplitLines, TrueNames, FalseNames, Rename, GenLiteral;
      falseNames := SplitVariables(order, cond);
      var one := NewTempVariable("%_1");
      CreateNumLiteral(1, one);
      var t := NewTempVariable("%_true");
      falseGuard := NewTempVariable("%_false");
      Append(Branch(t, Some(falseGuard), one, cond));
      currentConditionalTrueVar := Some(t);
    }

    // The variables of q get new names.
    method Assign(q: seq<Var>, names: seq<Name>)
      requires |names| == |q|
      modifies this`variables
      ensures variables == Rename(old(variables), q, names, |q|)
    {
      for k := 0 to |q|
        invariant variables == Rename(old(variables), q, names, k)
      {
        RenameNext(old(variables), q, names, k);
        variables := variables[q[k] := names[k]];
      }
    }

    // Merge what the two branches left under different names.
    method MergeBranches(q: seq<Var>, afterTrue: map<Var, Name>, afterFalse: map<Var, Name>)
      requires forall x :: x in q ==> x in afterTrue && x in afterFalse && x in variables
      modifies this
      ensures State() == MergeVars(q, afterTrue, afterFalse, old(State()), |q|)
    {
      for k := 0 to |q|
        invariant State() == MergeVars(q, afterTrue, afterFalse, old(State()), k)
      {
        var x := q[k];
        var trueName, falseName := afterTrue[x], afterFalse[x];
        if trueName != falseName {
          var phi := NewTempVariable("_" + x + "_phi%");
          toReturn := toReturn + [Merge(phi, trueName, falseName)];
          variables := variables[x := phi];
        }
      }
    }

    method Conditional(s: F.Stmt)
      requires s.If? && F.Scoped(s, variables.Keys)
      modifies this
      ensures State() == GenStmt(s, old(State()))
      decreases s, 0
    {
      hide GenExpr, Split, MergeVars, Rename, FalseNames, F.Scoped, F.Enumerates;
      IfShape(s, State());
      EnumeratedOnce(s, variables.Keys);
      var past := variables;
      var cond := Expression(s.cond);
      var priorGuard := currentConditionalTrueVar;
      var falseNames, falseGuard := SplitBranches(s.order, cond);
      Statement(s.thn);
      var afterTrue := variables;
      currentConditionalTrueVar := Some(falseGuard);
      variables := past;
      Assign(s.order, falseNames);
      Statement(s.els);
      var afterFalse := variables;
      currentConditionalTrueVar := priorGuard;
      MergeBranches(s.merge, afterTrue, afterFalse);
    }

    // ---- Loops ----

    // The lines that take one variable into the loop.
    method EnterVariable(x: Var, newTag: Name) returns (names: LoopVariable)
      requires x in variables
      modifies this`toReturn, this`variables, this`num
      ensures names == NamesOf(x, old(num)) && num == old(num) + 5
      ensures variables == old(variables)[x := names.start]
      ensures toReturn == old(toReturn) + [CopyTag(names.tagged, newTag, old(variables)[x]),
                                           Merge(names.start, names.tagged, names.last)]
    {
      var prior := variables[x];
      var tagged := NewTempVariable("_" + x + "_loop_input_tagged%");
      var last := NewTempVariable("_" + x + "_loop_last_value%");
      var again := NewTempVariable("_" + x + "_loop_again%");
      var start := NewTempVariable("_" + x + "_loop_start%");
      var end := NewTempVariable("_" + x + "_loop_end%");
      names := LoopVariable(tagged, last, again, start, end);
      toReturn := toReturn + [CopyTag(tagged, newTag, prior), Merge(start, tagged, last)];
      variables := variables[x := start];
    }

    method TagNames() returns (newTag: Name, oldTag: Name, oldUnderNew: Name)
      modifies this`num
      ensures num == old(num) + 3
      ensures newTag == NewTagName(old(num)) && oldTag == OldTagName(old(num)) && oldUnderNew == OldUnderNew(old(num))
    {
      newTag := NewTempVariable("%_new_tag_with_old");
      oldTag := NewTempVariable("%_old_tag_with_old");
      oldUnderNew := NewTempVariable("%_old_tag_with_new");
    }

    // The first variable draws the tag.
    method DrawTag(first: Name, newTag: Name, oldTag: Name, oldUnderNew: Name)
      modifies this`toReturn
      ensures toReturn == old(toReturn) + [NewTag(newTag, oldTag, first), CopyTag(oldUnderNew, newTag, oldTag)]
    {
      toReturn := toReturn + [NewTag(newTag, oldTag, first), CopyTag(oldUnderNew, newTag, oldTag)];
    }

    // The k-th variable enters the loop that begins after number n, with the variables `was`.
    method EnterNth(order: seq<Var>, k: nat, newTag: Name, oldTag: Name, oldUnderNew: Name, ghost was: map<Var, Name>, ghost n: nat)
      returns (v: LoopVariable)
      requires k < |order| && order[k] in variables && (forall x :: x in order ==> x in was) && variables[order[k]] == was[order[k]]
      requires newTag == NewTagName(n) && oldTag == OldTagName(n) && oldUnderNew == OldUnderNew(n) && num == n + 3 + 5 * k
      modifies this`toReturn, this`variables, this`num
      ensures v == NamesOf(order[k], n + 3 + 5 * k) && num == n + 3 + 5 * (k + 1)
      ensures variables == old(variables)[order[k] := LoopNames(order, n + 3, Start)[k]]
      ensures toReturn == old(toReturn) + (if k == 0 then TagLines(was[order[0]], n) else [])
                          + [CopyTag(v.tagged, NewTagName(n), was[order[k]]), Merge(v.start, v.tagged, v.last)]
    {
      hide LoopNames, TagLines, EnterLines, NamesOf, NewTagName, OldTagName, OldUnderNew;
      EnterNext(order, was, n, k);
      if k == 0 {
        DrawsTag(order[0], was, n);
        DrawTag(variables[order[0]], newTag, oldTag, oldUnderNew);
      }
      v := EnterVariable(order[k], newTag);
    }

    // All variables enter the loop; the first one draws the tag.
    method EnterVariables(order: seq<Var>) returns (oldUnderNew: Name, names: seq<LoopVariable>)
      requires |order| > 0 && (set x | x in order) <= variables.Keys && F.Distinct(order)
      modifies this`toReturn, this`variables, this`num
      ensures old(order[0] in variables && forall x :: x in order ==> x in variables)
      ensures toReturn == old(toReturn) + (TagLines(old(variables)[order[0]], old(num))
                                           + EnterLines(order, old(variables), old(num), |order|))
      ensures variables == Rename(old(variables), order, LoopNames(order, old(num) + 3, Start), |order|)
      ensures num == old(num) + 3 + 5 * |order| && oldUnderNew == OldUnderNew(old(num))
      ensures NamesFit(order, names, old(num))
    {
      hide LoopNames, TagLines, EnterLines, Rename, NamesOf, NamesFit, NewTagName, OldTagName;
      ghost var was, n := variables, num;
      AllIn(order, variables);
      var newTag, oldTag;
      newTag, oldTag, oldUnderNew := TagNames();
      names := [];
      NoNames(order, n);
      ghost var lines := [];
      RenameNone(was, order, LoopNames(order, n + 3, Start));
      for k := 0 to |order|
        invariant num == n + 3 + 5 * k && NamesFit(order[..k], names, n)
        invariant variables == Rename(was, order, LoopNames(order, n + 3, Start), k)
        invariant lines == if k == 0 then [] else TagLines(was[order[0]], n) + EnterLines(order, was, n, k)
        invariant toReturn == old(toReturn) + lines
      {
        RenameLater(was, order, LoopNames(order, n + 3, Start), k, k);
        RenameNext(was, order, LoopNames(order, n + 3, Start), k);
        EnterNext(order, was, n, k);
        ghost var before := toReturn;
        var v := EnterNth(order, k, newTag, oldTag, oldUnderNew, was, n);
        MoreNames(order, names, v, n, k);
        names := names + [v];
        LinesNext(old(toReturn), lines, before, toReturn, TagLines(was[order[0]], n), EnterLines(order, was, n, k),
                  [CopyTag(v.tagged, NewTagName(n), was[order[k]]), Merge(v.start, v.tagged, v.last)], k);
        lines := TagLines(was[order[0]], n) + EnterLines(order, was, n, k + 1);
      }
      assert order[..|order|] == order;
    }

    // One variable goes round again or leaves.
    method TestVariable(x: Var, names: LoopVariable, oldUnderNew: Name, cond: Name)
      modifies this`toReturn, this`variables, this`num
      ensures num == old(num) + 3 && variables == old(variables)[x := names.again]
      ensures toReturn == old(toReturn) + TurnOf(x, names, oldUnderNew, cond, old(num))
    {
      var t := NewTempVariable("_" + x + "_true%");
      var f := NewTempVariable("_" + x + "_false%");
      toReturn := toReturn + [Branch(t, Some(f), names.start, cond)];
      toReturn := toReturn + [NextIter(names.again, t)];
      var reset := NewTempVariable("_" + x + "_reset_il%");
      toReturn := toReturn + [ResetIter(reset, f)];
      toReturn := toReturn + [CopyTag(names.end, oldUnderNew, reset)];
      variables := variables[x := names.again];
    }

    method TestVariables(order: seq<Var>, names: seq<LoopVariable>, oldUnderNew: Name, cond: Name, ghost n: nat)
      requires NamesFit(order, names, n) && oldUnderNew == OldUnderNew(n)
      modifies this`toReturn, this`variables, this`num
      ensures num == old(num) + 3 * |order|
      ensures variables == Rename(old(variables), order, LoopNames(order, n + 3, Again), |order|)
      ensures toReturn == old(toReturn) + TestLines(order, n, old(num), cond, |order|)
    {
      hide LoopNames, TestLines, TurnOf, OldUnderNew;
      ghost var lines := TestLines(order, n, num, cond, 0);
      assert lines == [] by { TestNone(order, n, num, cond); }
      for k := 0 to |order|
        invariant num == old(num) + 3 * k
        invariant variables == Rename(old(variables), order, LoopNames(order, n + 3, Again), k)
        invariant lines == TestLines(order, n, old(num), cond, k)
        invariant toReturn == old(toReturn) + lines
      {
        TestNext(order, names, n, old(num), cond, k);
        lines := TestLines(order, n, old(num), cond, k + 1);
        TestVariable(order[k], names[k], oldUnderNew, cond);
      }
    }

    method CloseVariable(x: Var, names: LoopVariable)
      requires x in variables
      modifies this`toReturn, this`variables
      ensures toReturn == old(toReturn) + [Copy(names.last, old(variables)[x])]
      ensures variables == old(variables)[x := names.end]
    {
      var endOfBody := variables[x];
      toReturn := toReturn + [Copy(names.last, endOfBody)];
      variables := variables[x := names.end];
    }

    // The end of the body goes back to the start.
    method CloseLoop(order: seq<Var>, names: seq<LoopVariable>, ghost n: nat)
      requires NamesFit(order, names, n) && F.Distinct(order) && (set x | x in order) <= variables.Keys
      modifies this`toReturn, this`variables
      ensures old(forall x :: x in order ==> x in variables)
      ensures variables == Rename(old(variables), order, LoopNames(order, n + 3, End), |order|)
      ensures toReturn == old(toReturn) + BackLines(order, old(variables), n, |order|)
    {
      hide LoopNames, BackLines, NamesOf;
      ghost var was := variables;
      AllIn(order, variables);
      ghost var lines := BackLines(order, was, n, 0);
      assert lines == [] by { BackNone(order, was, n); }
      for k := 0 to |order|
        invariant variables == Rename(was, order, LoopNames(order, n + 3, End), k)
        invariant lines == BackLines(order, was, n, k)
        invariant toReturn == old(toReturn) + lines
      {
        RenameLater(was, order, LoopNames(order, n + 3, End), k, k);
        BackNext(order, names, was, n, k);
        CloseVariable(order[k], names[k]);
        lines := BackLines(order, was, n, k + 1);
      }
    }

    // Everything before the loop test.
    method StartLoop(order: seq<Var>) returns (oldUnderNew: Name, names: seq<LoopVariable>)
      requires |order| > 0 && (set x | x in order) <= variables.Keys && F.Distinct(order)
      modifies this
      ensures State() == Enter(order, old(State()))
      ensures oldUnderNew == OldUnderNew(old(num)) && NamesFit(order, names, old(num))
    {
      hide LoopNames, TagLines, EnterLines, Rename, NamesOf;
      ghost var n := num;
      oldUnderNew, names := EnterVariables(order);
      FirstNames(order, names, n);
      var current := NewTempVariable("_loop_current_tag%");
      Append(ReadTag(current, names[0].start));
      currentScopeTag, currentConditionalTrueVar := Some(current), None;
    }

    // From the loop test to the start of the body.
    method TestLoop(order: seq<Var>, names: seq<LoopVariable>, oldUnderNew: Name, cond: Name, ghost n: nat)
      requires |order| > 0 && (set x | x in order) <= variables.Keys
      requires NamesFit(order, names, n) && oldUnderNew == OldUnderNew(n)
      modifies this
      ensures State() == Codegen.Test(order, n, cond, old(State()))
    {
      hide LoopNames, TestLines, Rename, NamesOf, OldUnderNew;
      FirstNames(order, names, n);
      var next := NewTempVariable("_loop_next_tag%");
      Append(ReadTag(next, names[0].again));
      currentScopeTag, currentConditionalTrueVar := Some(next), None;
      TestVariables(order, names, oldUnderNew, cond, n);
    }

    method WhileLoop(s: F.Stmt)
      requires s.While? && F.Scoped(s, variables.Keys)
      modifies this
      ensures State() == GenStmt(s, old(State()))
      decreases s, 0
    {
      hide GenExpr, Enter, Codegen.Test, Rename, LoopNames, BackLines, F.Scoped, F.Enumerates, NamesFit;
      WhileShape(s, State());
      EnumeratedOnce(s, variables.Keys);
      ghost var st := State();
      var priorScope, priorGuard := currentScopeTag, currentConditionalTrueVar;
      var oldUnderNew, names := StartLoop(s.order);
      var cond := Expression(s.cond);
      TestLoop(s.order, names, oldUnderNew, cond, st.num);
      Statement(s.body);
      CloseLoop(s.order, names, st.num);
      currentScopeTag, currentConditionalTrueVar := priorScope, priorGuard;
    }

    // ---- Statements ----

    method Statement(s: F.Stmt)
      requires F.Scoped(s, variables.Keys)
      modifies this
      ensures State() == GenStmt(s, old(State()))
      decreases s, 1
    {
      hide GenExpr, GenIf, GenWhile, F.Enumerates;
      match s
      case Skip =>
      case Seq(a, b) =>
        Statement(a);
        Statement(b);
      case Assign(x, e) => Assignment(x, e);
      case If(_, _, _, _, _) => Conditional(s);
      case While(_, _, _) => WhileLoop(s);
    }

    // The program, and an OUTD for every variable of q.
    method Program(s: F.Stmt, q: seq<Var>)
      requires F.Scoped(s, {}) && (forall x :: x in q ==> x in F.After(s, {})) && State() == START
      modifies this
      ensures toReturn == Compile(s, q)
    {
      hide GenStmt, F.Scoped;
      assert variables.Keys == {};
      Statement(s);
      ghost var lines := PrintLines(variables, q);
      for k := 0 to |q|
        invariant variables == GenStmt(s, START).vars
        invariant toReturn == GenStmt(s, START).lines + lines[..k]
      {
        Append(Output(variables[q[k]]));
        assert lines[..k + 1] == lines[..k] + [lines[k]];
      }
      assert lines[..|q|] == lines;
    }
  }
}
