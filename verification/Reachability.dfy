/**
 * The terminal flag and the recorded jumps say exactly what runs can do: a legal statement is
 * not terminal exactly if some run falls out of it, and a jump to a loop or a labelled block
 * is recorded exactly if some run makes it.
 */
module Reachability {

  import opened Options
  import Numbers
  import opened SwitchRanges
  import opened StructuredCode
  import opened CompoundRules
  import opened Legality
  import opened LegalStatements
  import opened StatementRuns

  /** How control leaves a statement for another one of the same function. */
  datatype Way = Falls | Breaks(k: nat) | Continues(k: nat)

  /** The report allows it. */
  predicate Can(r: Report, w: Way) {
    match w
    case Falls => !r.ends
    case Breaks(k) => k in r.breaks
    case Continues(k) => k in r.continues
  }

  /** A run did it. */
  predicate Went(exit: Exit, ctx: Context, w: Way) {
    match w
    case Falls => exit.Normal?
    case Breaks(k) => exit.Broke? && Aim(ctx, exit.target) == Some(k)
    case Continues(k) => exit.Continued? && Aim(ctx, exit.target) == Some(k)
  }

  // ----- targets inside a new place -----

  lemma {:induction false} NamedInside(ctx: Context, p: Place, t: Option<Label>)
    ensures Named(ctx + [p], t) == if Named(ctx, t).Some? then Named(ctx, t) else if p.name == t then Some(|ctx|) else None
  {
    if ctx == [] {
      assert ctx + [p] == [p];
    } else {
      assert (ctx + [p])[1..] == ctx[1..] + [p];
      NamedInside(ctx[1..], p, t);
    }
  }

  lemma AimInside(ctx: Context, p: Place, t: Option<Label>)
    requires p.name.Some? ==> Named(ctx, p.name).None?
    ensures Aim(ctx + [p], t) == if (t.None? && p.loop) || (t.Some? && t == p.name) then Some(|ctx|) else Aim(ctx, t)
  {
    if t.Some? { NamedInside(ctx, p, t); } else { assert (ctx + [p])[..|ctx|] == ctx; }
  }

  /** What a run of a body did, seen from outside the place it stands in. */
  lemma Outwards(ctx: Context, p: Place, rules: Rules, exit: Exit)
    requires !BadLabel(ctx, p.name, rules)
    ensures exit.Broke? && !(exit.target.None? && p.loop) && !(exit.target.Some? && exit.target == p.name) ==>
              Aim(ctx + [p], exit.target) == Aim(ctx, exit.target)
    ensures exit.Continued? && !(exit.target.None? && p.loop) && !(exit.target.Some? && exit.target == p.name) ==>
              Aim(ctx + [p], exit.target) == Aim(ctx, exit.target)
    ensures (exit.Broke? || exit.Continued?) && ((exit.target.None? && p.loop) || (exit.target.Some? && exit.target == p.name)) ==>
              Aim(ctx + [p], exit.target) == Some(|ctx|)
  {
    if exit.Broke? || exit.Continued? { AimInside(ctx, p, exit.target); }
  }

  // ----- no run does what the report rules out -----

  /** Whatever a run did, the report allows. */
  ghost predicate Within(exit: Exit, ctx: Context, r: Report) {
    && (exit.Normal? ==> !r.ends)
    && (exit.Broke? ==> Aim(ctx, exit.target).Some? && Aim(ctx, exit.target).value in r.breaks)
    && (exit.Continued? ==>
        Aim(ctx, exit.target).Some? && Aim(ctx, exit.target).value in r.continues && ctx[Aim(ctx, exit.target).value].loop)
  }

  lemma {:induction false} ExecWithin(env: Env, s: Stmt, ctx: Context, rules: Rules, tr: Trace, fuel: nat)
    requires Judge(s, ctx, rules).ok
    ensures Within(Exec(env, s, tr, fuel).exit, ctx, Judge(s, ctx, rules))
    decreases fuel, s, 0
  {
    hide JudgeBlock, JudgeIf, JudgeCases, ExecScope, ExecIf, Iterate, ForEach, SwitchOk, Aim;
    match s
    case Scope(name, body) =>
      if name.None? {
        ScopeWithin(env, [], body, ctx, rules, tr, fuel);
      } else {
        ScopeWithin(env, [], body, ctx + [Place(name, false)], rules, tr, fuel);
        Outwards(ctx, Place(name, false), rules, ExecScope(env, [], body, tr, fuel).exit);
        AimBelow(ctx, ExecScope(env, [], body, tr, fuel).exit);
      }
    case If(choice) => IfWithin(env, choice, ctx, rules, tr, fuel);
    case While(name, c, body) => IterateWithin(env, name, Some(c), [], body, ctx, rules, tr, fuel);
    case Loop(name, body) => IterateWithin(env, name, None, [], body, ctx, rules, tr, fuel);
    case CStyleFor(name, ds, test, step, body) =>
      IterateWithin(env, name, test, step, body, ctx, rules, AfterDecls(ds, tr), fuel);
    case TupleFor(name, e, elements, body) =>
      if elements == [] {
        NoPasses(env, name, body, Enter(e, tr), fuel);
      } else {
        ForEachWithin(env, name, elements, body, ctx, rules, Enter(e, tr), fuel);
      }
    case With(e, _, _, body) => ScopeWithin(env, Held(s), body, ctx, rules, Enter(e, tr) + Opened(s), fuel);
    case Switch(e, kind, cases) =>
      var v := Value(env, e, kind, tr);
      SomeSelected(kind, cases, env.value(e.id, Enter(e, tr)));
      var k := Selected(kind, cases, v).value;
      assert cases[k] in cases && cases[k].body < cases[k];
      CaseJudged(kind, cases, ctx, rules, k);
      ScopeWithin(env, [], cases[k].body, ctx, rules, After(e, tr), fuel);
      CaseCounts(kind, cases, ctx, rules, k);
    case _ =>
  }

  lemma NoPasses(env: Env, name: Option<Label>, body: Block, tr: Trace, fuel: nat)
    ensures ForEach(env, name, [], body, tr, fuel) == Ended(Normal, tr)
  {
  }

  lemma AimBelow(ctx: Context, exit: Exit)
    ensures (exit.Broke? || exit.Continued?) && Aim(ctx, exit.target).Some? ==> Aim(ctx, exit.target).value < |ctx|
  {
  }

  lemma {:induction false} IfWithin(env: Env, choice: IfOperator, ctx: Context, rules: Rules, tr: Trace, fuel: nat)
    requires JudgeIf(choice, ctx, rules).ok
    ensures Within(ExecIf(env, choice, tr, fuel).exit, ctx, JudgeIf(choice, ctx, rules))
    decreases fuel, choice, 0
  {
    hide JudgeBlock, ExecScope, Aim;
    var tr' := After(choice.cond, tr);
    if Holds(env, choice.cond, tr) {
      ScopeWithin(env, [], choice.body, ctx, rules, tr', fuel);
    } else {
      match choice.alternative
      case NoElse =>
      case Else(body) => ScopeWithin(env, [], body, ctx, rules, tr', fuel);
      case ElseIf(choice') => IfWithin(env, choice', ctx, rules, tr', fuel);
    }
  }

  lemma {:induction false} BlockWithin(env: Env, b: Block, ctx: Context, rules: Rules, tr: Trace, fuel: nat)
    requires JudgeBlock(b, ctx, rules).ok
    ensures Within(ExecBlock(env, b, tr, fuel).exit, ctx, JudgeBlock(b, ctx, rules))
    decreases fuel, b, 0
  {
    hide Judge, Exec, Aim;
    if b.Cons? {
      ExecWithin(env, b.head, ctx, rules, tr, fuel);
      var r := Exec(env, b.head, tr, fuel);
      if r.exit.Normal? { BlockWithin(env, b.tail, ctx, rules, r.tr, fuel); }
    }
  }

  lemma {:induction false} ScopeWithin(env: Env, vars: seq<Var>, b: Block, ctx: Context, rules: Rules, tr: Trace,
                                       fuel: nat)
    requires JudgeBlock(b, ctx, rules).ok
    ensures Within(ExecScope(env, vars, b, tr, fuel).exit, ctx, JudgeBlock(b, ctx, rules))
    decreases fuel, b, 1
  {
    hide JudgeBlock, ExecBlock;
    BlockWithin(env, b, ctx, rules, tr, fuel);
  }

  lemma {:induction false} IterateWithin(env: Env, name: Option<Label>, test: Option<Expr>, step: seq<Expr>, body: Block,
                                         ctx: Context, rules: Rules, tr: Trace, fuel: nat)
    requires JudgeBlock(body, ctx + [Place(name, true)], rules).ok && !BadLabel(ctx, name, rules)
    ensures var r := JudgeBlock(body, ctx + [Place(name, true)], rules);
            Within(Iterate(env, name, test, step, body, tr, fuel).exit, ctx,
                   Outside(r, ctx, name, rules, test.None? && |ctx| !in r.breaks))
    decreases fuel, body, 2
  {
    hide JudgeBlock, ExecScope, Aim;
    if fuel > 0 && !(test.Some? && !Holds(env, test.value, tr)) {
      var tr' := if test.Some? then After(test.value, tr) else tr;
      var r := ExecScope(env, [], body, tr', fuel);
      ScopeWithin(env, [], body, ctx + [Place(name, true)], rules, tr', fuel);
      Outwards(ctx, Place(name, true), rules, r.exit);
      AimBelow(ctx, r.exit);
      if ContinuesLoop(r.exit, name) {
        IterateWithin(env, name, test, step, body, ctx, rules, AfterAll(step, r.tr), fuel - 1);
      }
    }
  }

  lemma {:induction false} ForEachWithin(env: Env, name: Option<Label>, elements: seq<Option<Var>>, body: Block,
                                         ctx: Context, rules: Rules, tr: Trace, fuel: nat)
    requires JudgeBlock(body, ctx + [Place(name, true)], rules).ok && !BadLabel(ctx, name, rules) && elements != []
    ensures Within(ForEach(env, name, elements, body, tr, fuel).exit, ctx, JudgePasses(name, body, ctx, rules, false))
    decreases fuel, body, 2, |elements|
  {
    hide JudgeBlock, ExecScope, Aim;
    var vars := Bound(elements[0]);
    var r := ExecScope(env, vars, body, tr + Inits(vars), fuel);
    ScopeWithin(env, vars, body, ctx + [Place(name, true)], rules, tr + Inits(vars), fuel);
    Outwards(ctx, Place(name, true), rules, r.exit);
    AimBelow(ctx, r.exit);
    if ContinuesLoop(r.exit, name) {
      if elements[1..] == [] {
        NoPasses(env, name, body, r.tr, fuel);
      } else {
        ForEachWithin(env, name, elements[1..], body, ctx, rules, r.tr, fuel);
      }
    }
  }

  // ----- the cases of a switch -----

  lemma SomeSelected(kind: IntType, cases: seq<Case>, n: nat)
    requires SwitchOk(kind, cases)
    ensures Selected(kind, cases, kind.Clip(n)).Some?
  {
    SelectedCase(kind, cases, kind.Clip(n));
    kind.ClipInType(n);
    if DefaultCase(cases).None? { PartitionMatches(kind, cases, kind.Clip(n)); }
  }

  ghost function SwitchReport(cases: seq<Case>, ctx: Context, rules: Rules): Report {
    var d := DefaultCase(cases);
    if d.None? then JudgeCases(cases, ctx, rules)
    else Both(JudgeCases(cases, ctx, rules), JudgeBlock(cases[d.value].body, ctx, rules))
  }

  /** The report on a switch includes that on each case. */
  lemma CaseCounts(kind: IntType, cases: seq<Case>, ctx: Context, rules: Rules, k: nat)
    requires SwitchOk(kind, cases) && k < |cases|
    ensures var all := SwitchReport(cases, ctx, rules);
            var r := JudgeBlock(cases[k].body, ctx, rules);
            (all.ends ==> r.ends) && r.breaks <= all.breaks && r.continues <= all.continues
  {
    hide JudgeBlock;
    if cases[k].ranges.Some? { CaseCounted(cases, ctx, rules, k); } else { TheDefault(cases, k); }
  }

  lemma {:induction false} CaseCounted(cases: seq<Case>, ctx: Context, rules: Rules, k: nat)
    requires k < |cases| && cases[k].ranges.Some?
    ensures var all, r := JudgeCases(cases, ctx, rules), JudgeBlock(cases[k].body, ctx, rules);
            (all.ends ==> r.ends) && r.breaks <= all.breaks && r.continues <= all.continues
  {
    hide JudgeBlock;
    CasesJudged(cases, ctx, rules);
    if k > 0 { CaseCounted(cases[1..], ctx, rules, k - 1); }
  }

  lemma {:induction false} CountBoth(kind: IntType, rs: seq<Range>, rs': seq<Range>, x: int)
    ensures kind.Count(rs + rs', x) == kind.Count(rs, x) + kind.Count(rs', x)
  {
    if rs == [] {
      assert rs + rs' == rs';
    } else {
      CountBoth(kind, rs[1..], rs', x);
      assert (rs + rs')[1..] == rs[1..] + rs';
    }
  }

  lemma {:induction false} CountedOnce(kind: IntType, rs: seq<Range>, v: nat)
    requires kind.InSome(rs, v)
    ensures kind.Count(rs, kind.AsInt(v)) >= 1
  {
    var i :| 0 <= i < |rs| && kind.Contains(rs[i], v);
    if i > 0 {
      assert kind.Contains(rs[1..][i - 1], v);
      CountedOnce(kind, rs[1..], v);
    }
  }

  predicate HasValue(kind: IntType, c: Case, v: nat) {
    c.ranges.Some? && kind.InSome(c.ranges.value, v)
  }

  /** A value is counted once for every case that has it. */
  lemma {:induction false} CountedForCase(kind: IntType, cases: seq<Case>, v: nat, k: nat)
    requires k < |cases| && HasValue(kind, cases[k], v)
    ensures kind.Count(AllRanges(cases), kind.AsInt(v)) >= 1
    ensures forall j :: k < j < |cases| && HasValue(kind, cases[j], v) ==> kind.Count(AllRanges(cases), kind.AsInt(v)) >= 2
  {
    var first := if cases[0].ranges.Some? then cases[0].ranges.value else [];
    CountBoth(kind, first, AllRanges(cases[1..]), kind.AsInt(v));
    if k == 0 {
      CountedOnce(kind, first, v);
      forall j | k < j < |cases| && HasValue(kind, cases[j], v) ensures kind.Count(AllRanges(cases), kind.AsInt(v)) >= 2 {
        CountedForCase(kind, cases[1..], v, j - 1);
      }
    } else {
      CountedForCase(kind, cases[1..], v, k - 1);
      forall j | k < j < |cases| && HasValue(kind, cases[j], v) ensures kind.Count(AllRanges(cases), kind.AsInt(v)) >= 2 {
        assert HasValue(kind, cases[1..][j - 1], v);
      }
    }
  }

  lemma {:induction false} FirstMatchIs(kind: IntType, cases: seq<Case>, v: nat)
    ensures var m := FirstMatch(kind, cases, v);
            && (m.Some? ==> HasValue(kind, cases[m.value], v) && forall j :: 0 <= j < m.value ==> !HasValue(kind, cases[j], v))
            && (m.None? ==> forall j :: 0 <= j < |cases| ==> !HasValue(kind, cases[j], v))
  {
    if cases != [] && !HasValue(kind, cases[0], v) {
      FirstMatchIs(kind, cases[1..], v);
      assert forall j :: 1 <= j < |cases| ==> cases[j] == cases[1..][j - 1];
    }
  }

  /** In a legal switch a value selects the only case that has it, and the default case if none does. */
  lemma SelectionIs(kind: IntType, cases: seq<Case>, n: nat, k: nat)
    requires SwitchOk(kind, cases) && k < |cases|
    ensures var v := kind.Clip(n);
            Selected(kind, cases, v) == Some(k) <==>
              if cases[k].ranges.Some? then kind.InSome(cases[k].ranges.value, v)
              else forall j :: 0 <= j < |cases| ==> !HasValue(kind, cases[j], v)
  {
    var v := kind.Clip(n);
    kind.ClipInType(n);
    SelectedCase(kind, cases, v);
    FirstMatchIs(kind, cases, v);
    var m := FirstMatch(kind, cases, v);
    if m.Some? {
      CountedForCase(kind, cases, v, m.value);
      assert kind.Count(AllRanges(cases), kind.AsInt(v)) <= 1;
      if HasValue(kind, cases[k], v) { assert k == m.value; }
    } else if cases[k].ranges.None? {
      TheDefault(cases, k);
    }
  }

  /** Every case of a legal switch can be selected. */
  lemma CaseSelectable(kind: IntType, cases: seq<Case>, k: nat) returns (n: nat)
    requires SwitchOk(kind, cases) && k < |cases|
    ensures Selected(kind, cases, kind.Clip(n)) == Some(k)
  {
    if cases[k].ranges.Some? {
      var r := cases[k].ranges.value[0];
      assert kind.ValidRange(r);
      n := r.low;
      ClipKeeps(kind, n);
      assert kind.Contains(r, n);
    } else {
      TheDefault(cases, k);
      var x :| kind.InType(x) && kind.Count(AllRanges(cases), x) == 0;
      n := PatternFor(kind, x);
      ClipKeeps(kind, n);
      forall j | 0 <= j < |cases| ensures !HasValue(kind, cases[j], n) {
        if HasValue(kind, cases[j], n) { CountedForCase(kind, cases, n, j); }
      }
    }
    SelectionIs(kind, cases, n, k);
  }

  lemma ClipKeeps(kind: IntType, p: nat)
    requires kind.Valid() && kind.Pattern(p)
    ensures kind.Clip(p) == p
  {
    Numbers.SmallMod(p, if kind.Enum? then kind.count else kind.Modulus());
  }

  lemma PatternFor(kind: IntType, x: int) returns (p: nat)
    requires kind.Valid() && kind.InType(x)
    ensures kind.Pattern(p) && kind.AsInt(p) == x
  {
    kind.HalfModulus();
    p := if kind.Signed? && x < 0 then x + kind.Modulus() else x;
  }

  // ----- whatever the report allows, some run does -----

  /** A C-style "for" without a condition is left by a break. */
  ghost predicate Leavable(x: Spot, rules: Rules) {
    x.s.CStyleFor? && x.s.test.None? ==> |x.ctx| in JudgeBlock(x.s.body, x.ctx + [Place(x.s.name, true)], rules).breaks
  }

  ghost predicate AllLeavable(b: Block, ctx: Context, rules: Rules) {
    forall x :: InBlock(x, b, ctx) ==> Leavable(x, rules)
  }

  ghost predicate StmtLeavable(s: Stmt, ctx: Context, rules: Rules) {
    forall x, last :: InStmt(x, s, ctx, last) ==> Leavable(x, rules)
  }

  ghost predicate IfLeavable(choice: IfOperator, ctx: Context, rules: Rules) {
    forall x :: InIf(x, choice, ctx) ==> Leavable(x, rules)
  }

  function Always(b: bool, v: nat): Env {
    Env((id: nat, t: Trace) => b, (id: nat, t: Trace) => v)
  }

  function Most(a: nat, b: nat): nat {
    if a < b then b else a
  }

  /** First one expression with this answer, then another run. */
  lemma AfterAnswer(b: bool, v: nat, c: Expr, tr: Trace, env: Env, to: nat) returns (env': Env)
    ensures Holds(env', c, tr) == b && env'.value(c.id, Enter(c, tr)) == v
    ensures SameAnswers(env, env', |After(c, tr)|, to)
  {
    AfterExtends(c, tr);
    env' := Then(Always(b, v), |After(c, tr)|, env);
    ThenSecond(Always(b, v), |After(c, tr)|, env, |After(c, tr)|, to);
  }

  lemma {:induction false} StmtWay(s: Stmt, ctx: Context, rules: Rules, w: Way, tr: Trace) returns (env: Env, fuel: nat)
    requires Judge(s, ctx, rules).ok && Can(Judge(s, ctx, rules), w) && StmtLeavable(s, ctx, rules)
    ensures Went(Exec(env, s, tr, fuel).exit, ctx, w)
    decreases s, 0
  {
    hide JudgeBlock, JudgeIf, JudgeCases, ExecScope, ExecIf, Iterate, ForEach, SwitchOk, Aim, InBlock, InIf, InCases, StmtLeavable,
         AllLeavable, IfLeavable;
    env, fuel := Always(false, 0), 1;
    match s
    case Scope(name, body) =>
      BodyLeavable(s, ctx, rules);
      if name.None? {
        env, fuel := ScopeWay([], body, ctx, rules, w, tr);
      } else {
        var p, r := Place(name, false), JudgeBlock(body, ctx + [Place(name, false)], rules);
        var w' := if w.Falls? && r.ends then Breaks(|ctx|) else w;
        env, fuel := ScopeWay([], body, ctx + [p], rules, w', tr);
        Outwards(ctx, p, rules, ExecScope(env, [], body, tr, fuel).exit);
        AimBelow(ctx, ExecScope(env, [], body, tr, fuel).exit);
      }
    case If(choice) =>
      ChoiceLeavable(s, ctx, rules);
      env, fuel := IfWay(choice, ctx, rules, w, tr);
    case While(name, c, body) =>
      BodyLeavable(s, ctx, rules);
      env, fuel := IterateWay(name, Some(c), [], body, ctx, rules, w, tr);
    case Loop(name, body) =>
      BodyLeavable(s, ctx, rules);
      env, fuel := IterateWay(name, None, [], body, ctx, rules, w, tr);
    case CStyleFor(name, ds, test, step, body) =>
      BodyLeavable(s, ctx, rules);
      ForLeavable(s, ctx, rules);
      env, fuel := IterateWay(name, test, step, body, ctx, rules, w, AfterDecls(ds, tr));
    case TupleFor(name, e, elements, body) =>
      if elements == [] {
        NoPasses(env, name, body, Enter(e, tr), fuel);
      } else {
        BodyLeavable(s, ctx, rules);
        env, fuel := ForEachWay(name, elements, body, ctx, rules, w, Enter(e, tr));
      }
    case With(e, _, _, body) =>
      BodyLeavable(s, ctx, rules);
      env, fuel := ScopeWay(Held(s), body, ctx, rules, w, Enter(e, tr) + Opened(s));
    case Switch(e, kind, cases) =>
      var k := CaseThatCan(kind, cases, ctx, rules, w);
      var body := cases[k].body;
      assert cases[k] in cases && body < cases[k];
      CaseJudged(kind, cases, ctx, rules, k);
      CaseLeavable(s, ctx, rules, k);
      var n := CaseSelectable(kind, cases, k);
      var env1, fuel1 := ScopeWay([], body, ctx, rules, w, After(e, tr));
      var to := |ExecScope(env1, [], body, After(e, tr), fuel1).tr|;
      var env2 := AfterAnswer(true, n, e, tr, env1, to);
      ScopeLocal(env1, env2, [], body, After(e, tr), fuel1, fuel1, |After(e, tr)|, to);
      env, fuel := env2, fuel1;
    case _ =>
  }

  /** What stands inside a statement. */
  lemma BodyLeavable(s: Stmt, ctx: Context, rules: Rules)
    requires StmtLeavable(s, ctx, rules)
    ensures s.Scope? ==> AllLeavable(s.body, if s.name.None? then ctx else ctx + [Place(s.name, false)], rules)
    ensures s.While? || s.Loop? || s.CStyleFor? || (s.TupleFor? && s.elements != []) ==>
      AllLeavable(s.body, ctx + [Place(s.name, true)], rules)
    ensures s.With? ==> AllLeavable(s.body, ctx, rules)
  {
    if s.Scope? || s.While? || s.Loop? || s.CStyleFor? || (s.TupleFor? && s.elements != []) || s.With? {
      var inner := if s.With? || (s.Scope? && s.name.None?) then ctx else ctx + [Place(s.name, !s.Scope?)];
      forall x | InBlock(x, s.body, inner) ensures Leavable(x, rules) { assert InStmt(x, s, ctx, true); }
    }
  }

  lemma ChoiceLeavable(s: Stmt, ctx: Context, rules: Rules)
    requires StmtLeavable(s, ctx, rules) && s.If?
    ensures IfLeavable(s.choice, ctx, rules)
  {
    forall x | InIf(x, s.choice, ctx) ensures Leavable(x, rules) { assert InStmt(x, s, ctx, true); }
  }

  lemma ForLeavable(s: Stmt, ctx: Context, rules: Rules)
    requires StmtLeavable(s, ctx, rules) && s.CStyleFor?
    ensures s.test.None? ==> |ctx| in JudgeBlock(s.body, ctx + [Place(s.name, true)], rules).breaks
  {
    assert InStmt(Spot(s, ctx, true), s, ctx, true);
  }

  lemma CaseLeavable(s: Stmt, ctx: Context, rules: Rules, k: nat)
    requires StmtLeavable(s, ctx, rules) && s.Switch? && SwitchOk(s.kind, s.cases) && k < |s.cases|
    ensures AllLeavable(s.cases[k].body, ctx, rules)
  {
    forall x | InBlock(x, s.cases[k].body, ctx) ensures Leavable(x, rules) {
      assert InCases(x, s.cases, ctx);
      assert InStmt(x, s, ctx, true);
    }
  }

  /** Some case can leave the switch in every way that the switch can. */
  lemma CaseThatCan(kind: IntType, cases: seq<Case>, ctx: Context, rules: Rules, w: Way) returns (k: nat)
    requires SwitchOk(kind, cases)
    requires Can(SwitchReport(cases, ctx, rules), w)
    ensures k < |cases| && Can(JudgeBlock(cases[k].body, ctx, rules), w)
  {
    hide JudgeBlock;
    var d := DefaultCase(cases);
    if d.Some? && Can(JudgeBlock(cases[d.value].body, ctx, rules), w) {
      k := d.value;
    } else {
      k := ListedThatCan(cases, ctx, rules, w);
    }
  }

  lemma {:induction false} ListedThatCan(cases: seq<Case>, ctx: Context, rules: Rules, w: Way) returns (k: nat)
    requires Can(JudgeCases(cases, ctx, rules), w)
    ensures k < |cases| && Can(JudgeBlock(cases[k].body, ctx, rules), w)
  {
    hide JudgeBlock;
    CasesJudged(cases, ctx, rules);
    k := 0;
    if cases[0].ranges.None? || !Can(JudgeBlock(cases[0].body, ctx, rules), w) {
      k := ListedThatCan(cases[1..], ctx, rules, w);
      k := k + 1;
    }
  }

  lemma {:induction false} IfWay(choice: IfOperator, ctx: Context, rules: Rules, w: Way, tr: Trace)
    returns (env: Env, fuel: nat)
    requires JudgeIf(choice, ctx, rules).ok && Can(JudgeIf(choice, ctx, rules), w) && IfLeavable(choice, ctx, rules)
    ensures Went(ExecIf(env, choice, tr, fuel).exit, ctx, w)
    decreases choice, 0
  {
    hide JudgeBlock, ExecScope, Aim, InBlock;
    var c, tr' := choice.cond, After(choice.cond, tr);
    if w.Falls? && choice.alternative.NoElse? {
      env, fuel := Always(false, 0), 0;
    } else if Can(JudgeBlock(choice.body, ctx, rules), w) {
      assert AllLeavable(choice.body, ctx, rules);
      var env1, fuel1 := ScopeWay([], choice.body, ctx, rules, w, tr');
      var to := |ExecScope(env1, [], choice.body, tr', fuel1).tr|;
      env := AfterAnswer(true, 0, c, tr, env1, to);
      fuel := fuel1;
      ScopeLocal(env1, env, [], choice.body, tr', fuel, fuel, |tr'|, to);
    } else {
      match choice.alternative
      case Else(body) =>
        assert AllLeavable(body, ctx, rules);
        var env1, fuel1 := ScopeWay([], body, ctx, rules, w, tr');
        var to := |ExecScope(env1, [], body, tr', fuel1).tr|;
        env := AfterAnswer(false, 0, c, tr, env1, to);
        fuel := fuel1;
        ScopeLocal(env1, env, [], body, tr', fuel, fuel, |tr'|, to);
      case ElseIf(choice') =>
        assert IfLeavable(choice', ctx, rules);
        var env1, fuel1 := IfWay(choice', ctx, rules, w, tr');
        env := AfterAnswer(false, 0, c, tr, env1, |ExecIf(env1, choice', tr', fuel1).tr|);
        fuel := fuel1;
        IfLocal(env1, env, choice', tr', fuel, fuel);
    }
  }

  lemma {:induction false} BlockWay(b: Block, ctx: Context, rules: Rules, w: Way, tr: Trace)
    returns (env: Env, fuel: nat)
    requires JudgeBlock(b, ctx, rules).ok && Can(JudgeBlock(b, ctx, rules), w) && AllLeavable(b, ctx, rules)
    ensures Went(ExecBlock(env, b, tr, fuel).exit, ctx, w)
    decreases b, 0
  {
    hide Judge, Exec, Aim, InStmt, StmtLeavable, AllLeavable;
    env, fuel := Always(false, 0), 0;
    if b.Cons? {
      PartsLeavable(b, ctx, rules);
      if b.tail.Empty? || (!w.Falls? && Can(Judge(b.head, ctx, rules), w)) {
        env, fuel := StmtWay(b.head, ctx, rules, w, tr);
      } else {
        var env1, fuel1 := StmtWay(b.head, ctx, rules, Falls, tr);
        var r := Exec(env1, b.head, tr, fuel1);
        var env2, fuel2 := BlockWay(b.tail, ctx, rules, w, r.tr);
        env, fuel := Then(env1, |r.tr|, env2), Most(fuel1, fuel2);
        ThenFirst(env1, |r.tr|, env2, |tr|);
        ThenSecond(env1, |r.tr|, env2, |r.tr|, |ExecBlock(env2, b.tail, r.tr, fuel2).tr|);
        ExecLocal(env1, env, b.head, tr, fuel1, fuel);
        BlockLocal(env2, env, b.tail, r.tr, fuel2, fuel);
      }
    }
  }

  lemma PartsLeavable(b: Block, ctx: Context, rules: Rules)
    requires AllLeavable(b, ctx, rules) && b.Cons?
    ensures StmtLeavable(b.head, ctx, rules) && AllLeavable(b.tail, ctx, rules)
  {
    forall x, last | InStmt(x, b.head, ctx, last) ensures Leavable(x, rules) {
      if x == Spot(b.head, ctx, last) {
        assert InBlock(Spot(b.head, ctx, b.tail.Empty?), b, ctx);
      } else {
        assert InStmt(x, b.head, ctx, b.tail.Empty?) && InBlock(x, b, ctx);
      }
    }
    forall x | InBlock(x, b.tail, ctx) ensures Leavable(x, rules) { assert InBlock(x, b, ctx); }
  }

  lemma {:induction false} ScopeWay(vars: seq<Var>, b: Block, ctx: Context, rules: Rules, w: Way, tr: Trace)
    returns (env: Env, fuel: nat)
    requires JudgeBlock(b, ctx, rules).ok && Can(JudgeBlock(b, ctx, rules), w) && AllLeavable(b, ctx, rules)
    ensures Went(ExecScope(env, vars, b, tr, fuel).exit, ctx, w)
    decreases b, 1
  {
    hide JudgeBlock, ExecBlock, AllLeavable, Aim;
    env, fuel := BlockWay(b, ctx, rules, w, tr);
  }

  lemma {:induction false} IterateWay(name: Option<Label>, test: Option<Expr>, step: seq<Expr>, body: Block, ctx: Context, rules: Rules,
                                      w: Way, tr: Trace) returns (env: Env, fuel: nat)
    requires JudgeBlock(body, ctx + [Place(name, true)], rules).ok && !BadLabel(ctx, name, rules)
    requires var r := JudgeBlock(body, ctx + [Place(name, true)], rules);
             Can(Outside(r, ctx, name, rules, test.None? && |ctx| !in r.breaks), w)
    requires AllLeavable(body, ctx + [Place(name, true)], rules)
    ensures Went(Iterate(env, name, test, step, body, tr, fuel).exit, ctx, w)
    decreases body, 2
  {
    hide JudgeBlock, ExecScope, AllLeavable, Aim;
    if w.Falls? && test.Some? {
      env, fuel := Always(false, 0), 1;
    } else {
      var p, tr' := Place(name, true), if test.Some? then After(test.value, tr) else tr;
      var env1, fuel1 := ScopeWay([], body, ctx + [p], rules, if w.Falls? then Breaks(|ctx|) else w, tr');
      var r := ExecScope(env1, [], body, tr', fuel1);
      Outwards(ctx, p, rules, r.exit);
      AimBelow(ctx, r.exit);
      env, fuel := env1, Most(1, fuel1);
      if test.Some? { env := AfterAnswer(true, 0, test.value, tr, env1, |r.tr|); } else { SameSelf(env1, |tr'|, |r.tr|); }
      ScopeLocal(env1, env, [], body, tr', fuel1, fuel, |tr'|, |r.tr|);
    }
  }

  lemma SameSelf(env: Env, from: nat, to: nat)
    ensures SameAnswers(env, env, from, to)
  {
  }

  lemma {:induction false} ForEachWay(name: Option<Label>, elements: seq<Option<Var>>, body: Block, ctx: Context, rules: Rules, w: Way,
                                      tr: Trace) returns (env: Env, fuel: nat)
    requires JudgeBlock(body, ctx + [Place(name, true)], rules).ok && !BadLabel(ctx, name, rules) && elements != []
    requires Can(JudgePasses(name, body, ctx, rules, false), w) && AllLeavable(body, ctx + [Place(name, true)], rules)
    ensures Went(ForEach(env, name, elements, body, tr, fuel).exit, ctx, w)
    decreases body, 2, |elements|
  {
    hide JudgeBlock, ExecScope, AllLeavable, Aim;
    var p, vars, report := Place(name, true), Bound(elements[0]), JudgeBlock(body, ctx + [Place(name, true)], rules);
    var breaks := |ctx| in report.breaks;
    var w1 := if !w.Falls? then w else if breaks then Breaks(|ctx|) else if !report.ends then Falls else Continues(|ctx|);
    env, fuel := ScopeWay(vars, body, ctx + [p], rules, w1, tr + Inits(vars));
    var r := ExecScope(env, vars, body, tr + Inits(vars), fuel);
    Outwards(ctx, p, rules, r.exit);
    AimBelow(ctx, r.exit);
    if w.Falls? && !breaks {
      assert ContinuesLoop(r.exit, name);
      if elements[1..] == [] {
        NoPasses(env, name, body, r.tr, fuel);
      } else {
        var env1, fuel1 := env, fuel;
        var env2, fuel2 := ForEachWay(name, elements[1..], body, ctx, rules, w, r.tr);
        env, fuel := Then(env1, |r.tr|, env2), Most(fuel1, fuel2);
        ThenFirst(env1, |r.tr|, env2, |tr|);
        ThenSecond(env1, |r.tr|, env2, |r.tr|, |ForEach(env2, name, elements[1..], body, r.tr, fuel2).tr|);
        ScopeLocal(env1, env, vars, body, tr + Inits(vars), fuel1, fuel, |tr|, |r.tr|);
        ForEachLocal(env2, env, name, elements[1..], body, r.tr, fuel2, fuel);
      }
    }
  }

  // ----- both together -----

  /** Control leaves a legal body in some way in some run exactly if the report says that it can. */
  lemma ReportIsExact(b: Block, ctx: Context, rules: Rules, w: Way, tr: Trace)
    requires JudgeBlock(b, ctx, rules).ok && AllLeavable(b, ctx, rules)
    ensures Can(JudgeBlock(b, ctx, rules), w) <==> exists env, fuel :: Went(ExecBlock(env, b, tr, fuel).exit, ctx, w)
  {
    hide JudgeBlock, ExecBlock, Aim, AllLeavable;
    if Can(JudgeBlock(b, ctx, rules), w) {
      var env, fuel := BlockWay(b, ctx, rules, w, tr);
    }
    if env, fuel :| Went(ExecBlock(env, b, tr, fuel).exit, ctx, w) { BlockWithin(env, b, ctx, rules, tr, fuel); }
  }

  /** A C-style "for" without condition and without a break to it is never left, but it is not terminal either. */
  lemma EndlessFor(env: Env, tr: Trace, fuel: nat, rules: Rules)
    ensures !Judge(CStyleFor(None, [], None, [], Empty), [], rules).ends
    ensures Exec(env, CStyleFor(None, [], None, [], Empty), tr, fuel).exit.OutOfFuel?
  {
    SpinsOn(env, AfterDecls([], tr), fuel);
  }

  lemma {:induction false} SpinsOn(env: Env, tr: Trace, fuel: nat)
    ensures Iterate(env, None, None, [], Empty, tr, fuel).exit.OutOfFuel?
    decreases fuel
  {
    if fuel > 0 {
      assert ExecBlock(env, Empty, tr, fuel) == Ended(Normal, tr);
      var r := ExecScope(env, [], Empty, tr, fuel);
      assert r == Leave(ExecBlock(env, Empty, tr, fuel), []);
      SpinsOn(env, AfterAll([], r.tr), fuel - 1);
    }
  }

  /** A legal C-style "for" is left by some run exactly if it has a condition or a break to it, though the flag always says so. */
  lemma ForIsLeft(s: Stmt, ctx: Context, rules: Rules, tr: Trace)
    requires s.CStyleFor? && Judge(s, ctx, rules).ok && AllLeavable(s.body, ctx + [Place(s.name, true)], rules)
    ensures !Judge(s, ctx, rules).ends
    ensures (exists env, fuel :: Exec(env, s, tr, fuel).exit.Normal?) <==>
            s.test.Some? || |ctx| in JudgeBlock(s.body, ctx + [Place(s.name, true)], rules).breaks
  {
    hide JudgeBlock, Iterate, Aim, AllLeavable;
    var tr' := AfterDecls(s.decls, tr);
    if s.test.Some? || |ctx| in JudgeBlock(s.body, ctx + [Place(s.name, true)], rules).breaks {
      var env, fuel := IterateWay(s.name, s.test, s.step, s.body, ctx, rules, Falls, tr');
      assert Exec(env, s, tr, fuel).exit.Normal?;
    }
    if env, fuel :| Exec(env, s, tr, fuel).exit.Normal? {
      IterateWithin(env, s.name, s.test, s.step, s.body, ctx, rules, tr', fuel);
    }
  }
}
