/**
 * Legality by looking at one statement at a time: a body is legal exactly if each statement
 * that stands in it is in order where it stands, and no statement follows one that control
 * cannot pass.
 */
module LegalStatements {

  import opened Options
  import opened StructuredCode
  import opened Legality
  import SwitchRanges
  import CompoundRules

  /** A statement, the loops and labelled blocks around it, and whether it is the last one of its block. */
  datatype Spot = Spot(s: Stmt, ctx: Context, last: bool)

  // ----- the statements of a body -----

  /** The spot is somewhere in the block.  What a tuple-for without elements or a refused switch holds is not looked at. */
  ghost predicate InBlock(x: Spot, b: Block, ctx: Context)
    decreases b, 1
  {
    b.Cons? && (InStmt(x, b.head, ctx, b.tail.Empty?) || InBlock(x, b.tail, ctx))
  }

  ghost predicate InStmt(x: Spot, s: Stmt, ctx: Context, last: bool)
    decreases s, 0
  {
    || x == Spot(s, ctx, last)
    || match s
       case Scope(name, body) => InBlock(x, body, if name.None? then ctx else ctx + [Place(name, false)])
       case If(choice) => InIf(x, choice, ctx)
       case While(name, _, body) => InBlock(x, body, ctx + [Place(name, true)])
       case Loop(name, body) => InBlock(x, body, ctx + [Place(name, true)])
       case CStyleFor(name, _, _, _, body) => InBlock(x, body, ctx + [Place(name, true)])
       case TupleFor(name, _, elements, body) => elements != [] && InBlock(x, body, ctx + [Place(name, true)])
       case With(_, _, _, body) => InBlock(x, body, ctx)
       case Switch(_, kind, cases) => SwitchOk(kind, cases) && InCases(x, cases, ctx)
       case _ => false
  }

  ghost predicate InIf(x: Spot, choice: IfOperator, ctx: Context)
    decreases choice, 0
  {
    || InBlock(x, choice.body, ctx)
    || match choice.alternative
       case NoElse => false
       case Else(body) => InBlock(x, body, ctx)
       case ElseIf(choice') => InIf(x, choice', ctx)
  }

  ghost predicate InCases(x: Spot, cases: seq<Case>, ctx: Context)
    decreases cases, 0
  {
    exists k :: 0 <= k < |cases| && (assert cases[k] in cases && cases[k].body < cases[k]; InBlock(x, cases[k].body, ctx))
  }

  // ----- in order where it stands -----

  ghost predicate HasPlace(ctx: Context, name: Label) {
    exists k :: 0 <= k < |ctx| && ctx[k].name == Some(name)
  }

  ghost predicate HasLoop(ctx: Context) {
    exists k :: 0 <= k < |ctx| && ctx[k].loop
  }

  /** The label is no keyword, and nothing around has it. */
  ghost predicate FreshLabel(ctx: Context, name: Option<Label>, rules: Rules) {
    name.Some? ==> name.value !in rules.keywords && !HasPlace(ctx, name.value)
  }

  ghost predicate InOrder(x: Spot, rules: Rules) {
    match x.s
    case Return(result) => result.None? <==> rules.returnsVoid
    case Break(target) => if target.Some? then HasPlace(x.ctx, target.value) else HasLoop(x.ctx)
    case Continue(target) =>
      if target.Some? then exists k: nat :: FirstOf(x.ctx, target.value, k) && x.ctx[k].loop else HasLoop(x.ctx)
    case Scope(name, _) => FreshLabel(x.ctx, name, rules)
    case While(name, _, _) => FreshLabel(x.ctx, name, rules)
    case Loop(name, _) => FreshLabel(x.ctx, name, rules)
    case CStyleFor(name, _, _, _, _) => FreshLabel(x.ctx, name, rules)
    case TupleFor(name, _, elements, _) => elements != [] ==> FreshLabel(x.ctx, name, rules)
    case Switch(_, kind, cases) => SwitchOk(kind, cases)
    case _ => true
  }

  /** The outermost place with the label; labels inside each other differ, so it is the only one. */
  ghost predicate FirstOf(ctx: Context, name: Label, k: nat) {
    k < |ctx| && ctx[k].name == Some(name) && forall j :: 0 <= j < k ==> ctx[j].name != Some(name)
  }

  lemma {:induction false} NamedIs(ctx: Context, name: Label)
    ensures Named(ctx, Some(name)).Some? <==> HasPlace(ctx, name)
    ensures forall k: nat :: FirstOf(ctx, name, k) <==> Named(ctx, Some(name)) == Some(k)
  {
    if ctx != [] {
      var rest := ctx[1..];
      NamedIs(rest, name);
      if k :| 0 <= k < |ctx| && ctx[k].name == Some(name) { assert k > 0 ==> rest[k - 1].name == Some(name); }
      if k :| 0 <= k < |rest| && rest[k].name == Some(name) { assert ctx[k + 1].name == Some(name); }
      forall k: nat ensures FirstOf(ctx, name, k) <==> Named(ctx, Some(name)) == Some(k) {
        assert k > 0 && ctx[0].name != Some(name) ==> (FirstOf(ctx, name, k) <==> FirstOf(rest, name, k - 1)) by {
          if k > 0 && ctx[0].name != Some(name) { FirstOfRest(ctx, name, k); }
        }
      }
    }
  }

  lemma FirstOfRest(ctx: Context, name: Label, k: nat)
    requires ctx != [] && k > 0 && ctx[0].name != Some(name)
    ensures FirstOf(ctx, name, k) <==> FirstOf(ctx[1..], name, k - 1)
  {
    var rest := ctx[1..];
    assert forall j :: 0 <= j < |rest| ==> rest[j] == ctx[j + 1];
    if FirstOf(rest, name, k - 1) {
      forall j | 0 <= j < k ensures ctx[j].name != Some(name) { assert j > 0 ==> ctx[j] == rest[j - 1]; }
    }
  }

  lemma {:induction false} InnermostIs(ctx: Context)
    ensures Innermost(ctx).Some? <==> HasLoop(ctx)
    ensures Innermost(ctx).Some? ==> ctx[Innermost(ctx).value].loop
  {
    if ctx != [] {
      var n := |ctx| - 1;
      InnermostIs(ctx[..n]);
      if k :| 0 <= k < |ctx| && ctx[k].loop { assert k < n ==> ctx[..n][k].loop; }
      if k :| 0 <= k < n && ctx[..n][k].loop { assert ctx[k].loop; }
    }
  }

  /** What a statement is judged by, besides what stands inside it. */
  lemma JudgedInOrder(s: Stmt, ctx: Context, last: bool, rules: Rules)
    ensures s.Return? || s.Break? || s.Continue? || s.Switch? ==> (Judge(s, ctx, rules).ok ==> InOrder(Spot(s, ctx, last), rules))
    ensures s.Return? || s.Break? || s.Continue? ==> (InOrder(Spot(s, ctx, last), rules) ==> Judge(s, ctx, rules).ok)
  {
    hide SwitchOk, JudgeBlock, JudgeCases;
    InnermostIs(ctx);
    if (s.Break? || s.Continue?) && s.target.Some? {
      NamedIs(ctx, s.target.value);
      if s.Continue? && Named(ctx, s.target).Some? { assert FirstOf(ctx, s.target.value, Named(ctx, s.target).value); }
    }
  }

  lemma FreshIs(ctx: Context, name: Option<Label>, rules: Rules)
    ensures FreshLabel(ctx, name, rules) <==> !BadLabel(ctx, name, rules)
  {
    if name.Some? { NamedIs(ctx, name.value); }
  }

  // ----- a legal body has no statement out of order -----

  /** In order, and not in front of another statement if control cannot pass it. */
  ghost predicate Fine(x: Spot, rules: Rules) {
    InOrder(x, rules) && (!x.last ==> !Judge(x.s, x.ctx, rules).ends)
  }

  lemma {:induction false} BlockFine(x: Spot, b: Block, ctx: Context, rules: Rules)
    requires JudgeBlock(b, ctx, rules).ok && InBlock(x, b, ctx)
    ensures Fine(x, rules)
    decreases b, 1
  {
    hide Judge, InOrder;
    if InStmt(x, b.head, ctx, b.tail.Empty?) {
      StmtFine(x, b.head, ctx, b.tail.Empty?, rules);
    } else {
      BlockFine(x, b.tail, ctx, rules);
    }
  }

  lemma {:induction false} StmtFine(x: Spot, s: Stmt, ctx: Context, last: bool, rules: Rules)
    requires Judge(s, ctx, rules).ok && (!last ==> !Judge(s, ctx, rules).ends) && InStmt(x, s, ctx, last)
    ensures Fine(x, rules)
    decreases s, 0
  {
    hide JudgeBlock, SwitchOk, InBlock;
    JudgedInOrder(s, ctx, last, rules);
    match s
    case Scope(name, body) =>
      FreshIs(ctx, name, rules);
      if x != Spot(s, ctx, last) { BlockFine(x, body, if name.None? then ctx else ctx + [Place(name, false)], rules); }
    case If(choice) => if x != Spot(s, ctx, last) { IfFine(x, choice, ctx, rules); }
    case While(name, _, body) =>
      FreshIs(ctx, name, rules);
      if x != Spot(s, ctx, last) { BlockFine(x, body, ctx + [Place(name, true)], rules); }
    case Loop(name, body) =>
      FreshIs(ctx, name, rules);
      if x != Spot(s, ctx, last) { BlockFine(x, body, ctx + [Place(name, true)], rules); }
    case CStyleFor(name, _, _, _, body) =>
      FreshIs(ctx, name, rules);
      if x != Spot(s, ctx, last) { BlockFine(x, body, ctx + [Place(name, true)], rules); }
    case TupleFor(name, _, elements, body) =>
      FreshIs(ctx, name, rules);
      if x != Spot(s, ctx, last) { BlockFine(x, body, ctx + [Place(name, true)], rules); }
    case With(_, _, _, body) => if x != Spot(s, ctx, last) { BlockFine(x, body, ctx, rules); }
    case Switch(_, kind, cases) =>
      if x != Spot(s, ctx, last) {
        var k :| 0 <= k < |cases| && InBlock(x, cases[k].body, ctx);
        assert cases[k] in cases && cases[k].body < cases[k];
        CaseJudged(kind, cases, ctx, rules, k);
        BlockFine(x, cases[k].body, ctx, rules);
      }
    case _ =>
  }

  lemma {:induction false} IfFine(x: Spot, choice: IfOperator, ctx: Context, rules: Rules)
    requires JudgeIf(choice, ctx, rules).ok && InIf(x, choice, ctx)
    ensures Fine(x, rules)
    decreases choice, 0
  {
    if InBlock(x, choice.body, ctx) {
      BlockFine(x, choice.body, ctx, rules);
    } else {
      match choice.alternative
      case Else(body) => BlockFine(x, body, ctx, rules);
      case ElseIf(choice') => IfFine(x, choice', ctx, rules);
    }
  }

  /** All cases of a legal switch are judged. */
  lemma CaseJudged(kind: SwitchRanges.IntType, cases: seq<Case>, ctx: Context, rules: Rules, k: nat)
    requires SwitchOk(kind, cases) && k < |cases|
    requires JudgeCases(cases, ctx, rules).ok
    requires var d := CompoundRules.DefaultCase(cases); d.Some? ==> JudgeBlock(cases[d.value].body, ctx, rules).ok
    ensures JudgeBlock(cases[k].body, ctx, rules).ok
  {
    if cases[k].ranges.Some? {
      CasesAll(cases, ctx, rules, k);
    } else {
      TheDefault(cases, k);
    }
  }

  lemma {:induction false} CasesAll(cases: seq<Case>, ctx: Context, rules: Rules, k: nat)
    requires JudgeCases(cases, ctx, rules).ok && k < |cases| && cases[k].ranges.Some?
    ensures JudgeBlock(cases[k].body, ctx, rules).ok
  {
    CasesJudged(cases, ctx, rules);
    if k > 0 { CasesAll(cases[1..], ctx, rules, k - 1); }
  }

  lemma {:induction false} TheDefault(cases: seq<Case>, k: nat)
    requires CompoundRules.SingleDefault(cases) && k < |cases| && cases[k].ranges.None?
    ensures CompoundRules.DefaultCase(cases) == Some(k)
  {
    var d := CompoundRules.DefaultCase(cases);
    DefaultFound(cases, k);
    assert d.Some? && cases[d.value].ranges.None?;
  }

  lemma {:induction false} DefaultFound(cases: seq<Case>, k: nat)
    requires k < |cases| && cases[k].ranges.None?
    ensures CompoundRules.DefaultCase(cases).Some?
  {
    if k > 0 { DefaultFound(cases[1..], k - 1); }
  }

  // ----- and an illegal one has one -----

  lemma {:induction false} BlockFault(b: Block, ctx: Context, rules: Rules) returns (x: Spot)
    requires !JudgeBlock(b, ctx, rules).ok
    ensures InBlock(x, b, ctx) && !Fine(x, rules)
    decreases b, 1
  {
    hide Judge, InOrder, InStmt;
    var last := b.tail.Empty?;
    if !Judge(b.head, ctx, rules).ok {
      x := StmtFault(b.head, ctx, last, rules);
    } else if !last && Judge(b.head, ctx, rules).ends {
      x := Spot(b.head, ctx, last);
      Itself(b.head, ctx, last);
    } else {
      x := BlockFault(b.tail, ctx, rules);
    }
  }

  lemma Itself(s: Stmt, ctx: Context, last: bool)
    ensures InStmt(Spot(s, ctx, last), s, ctx, last)
  {
  }

  lemma {:induction false} StmtFault(s: Stmt, ctx: Context, last: bool, rules: Rules) returns (x: Spot)
    requires !Judge(s, ctx, rules).ok
    ensures InStmt(x, s, ctx, last) && !Fine(x, rules)
    decreases s, 0
  {
    hide JudgeBlock, SwitchOk, InBlock;
    x := Spot(s, ctx, last);
    JudgedInOrder(s, ctx, last, rules);
    match s
    case Scope(name, body) =>
      FreshIs(ctx, name, rules);
      if InOrder(x, rules) { x := BlockFault(body, if name.None? then ctx else ctx + [Place(name, false)], rules); }
    case If(choice) => x := IfFault(choice, ctx, rules);
    case While(name, _, body) =>
      FreshIs(ctx, name, rules);
      if InOrder(x, rules) { x := BlockFault(body, ctx + [Place(name, true)], rules); }
    case Loop(name, body) =>
      FreshIs(ctx, name, rules);
      if InOrder(x, rules) { x := BlockFault(body, ctx + [Place(name, true)], rules); }
    case CStyleFor(name, _, _, _, body) =>
      FreshIs(ctx, name, rules);
      if InOrder(x, rules) { x := BlockFault(body, ctx + [Place(name, true)], rules); }
    case TupleFor(name, _, elements, body) =>
      FreshIs(ctx, name, rules);
      if InOrder(x, rules) { x := BlockFault(body, ctx + [Place(name, true)], rules); }
    case With(_, _, _, body) => x := BlockFault(body, ctx, rules);
    case Switch(_, kind, cases) =>
      if SwitchOk(kind, cases) {
        var k := CaseAtFault(kind, cases, ctx, rules);
        assert cases[k] in cases && cases[k].body < cases[k];
        x := BlockFault(cases[k].body, ctx, rules);
        assert InCases(x, cases, ctx);
      }
    case _ =>
  }

  lemma {:induction false} IfFault(choice: IfOperator, ctx: Context, rules: Rules) returns (x: Spot)
    requires !JudgeIf(choice, ctx, rules).ok
    ensures InIf(x, choice, ctx) && !Fine(x, rules)
    decreases choice, 0
  {
    if !JudgeBlock(choice.body, ctx, rules).ok {
      x := BlockFault(choice.body, ctx, rules);
    } else {
      match choice.alternative
      case Else(body) => x := BlockFault(body, ctx, rules);
      case ElseIf(choice') => x := IfFault(choice', ctx, rules);
    }
  }

  lemma CaseAtFault(kind: SwitchRanges.IntType, cases: seq<Case>, ctx: Context, rules: Rules) returns (k: nat)
    requires SwitchOk(kind, cases)
    requires var d := CompoundRules.DefaultCase(cases);
             !JudgeCases(cases, ctx, rules).ok || (d.Some? && !JudgeBlock(cases[d.value].body, ctx, rules).ok)
    ensures k < |cases| && !JudgeBlock(cases[k].body, ctx, rules).ok
  {
    if JudgeCases(cases, ctx, rules).ok {
      k := CompoundRules.DefaultCase(cases).value;
    } else {
      k := CasesFault(cases, ctx, rules);
    }
  }

  lemma {:induction false} CasesFault(cases: seq<Case>, ctx: Context, rules: Rules) returns (k: nat)
    requires !JudgeCases(cases, ctx, rules).ok
    ensures k < |cases| && !JudgeBlock(cases[k].body, ctx, rules).ok
  {
    CasesJudged(cases, ctx, rules);
    k := 0;
    if cases[0].ranges.None? || JudgeBlock(cases[0].body, ctx, rules).ok {
      k := CasesFault(cases[1..], ctx, rules);
      k := k + 1;
    }
  }

  /** A body is legal exactly if every statement in it is in order and none stands behind one that control cannot pass. */
  lemma LegalMeans(body: Block, ctx: Context, rules: Rules)
    ensures JudgeBlock(body, ctx, rules).ok <==> forall x :: InBlock(x, body, ctx) ==> Fine(x, rules)
  {
    if JudgeBlock(body, ctx, rules).ok {
      forall x | InBlock(x, body, ctx) ensures Fine(x, rules) { BlockFine(x, body, ctx, rules); }
    } else {
      var x := BlockFault(body, ctx, rules);
    }
  }
}
