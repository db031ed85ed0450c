/**
 * Runs of statements seen from outside: they only add events, and they depend on nothing
 * but what the expressions they evaluate yield.
 */
module StatementRuns {

  import opened Options
  import opened StructuredCode

  // ----- events are only added -----

  lemma AfterExtends(e: Expr, tr: Trace)
    ensures tr <= Enter(e, tr) <= After(e, tr) && |tr| < |Enter(e, tr)|
  {
  }

  lemma {:induction false} AfterAllExtends(es: seq<Expr>, tr: Trace)
    ensures tr <= AfterAll(es, tr)
    decreases |es|
  {
    if es != [] {
      AfterExtends(es[0], tr);
      AfterAllExtends(es[1..], After(es[0], tr));
    }
  }

  lemma {:induction false} AfterDeclsExtends(ds: seq<Decl>, tr: Trace)
    ensures tr <= AfterDecls(ds, tr)
    decreases |ds|
  {
    if ds != [] {
      AfterExtends(ds[0].init, tr);
      AfterDeclsExtends(ds[1..], AfterDecl(ds[0], tr));
    }
  }

  lemma {:induction false} ExecExtends(env: Env, s: Stmt, tr: Trace, fuel: nat)
    ensures tr <= Exec(env, s, tr, fuel).tr
    decreases fuel, s, 0
  {
    hide ExecScope, ExecIf, Iterate, ForEach, Enter, After, AfterDecls, Opened, Held;
    match s
    case Simple(e) => AfterExtends(e, tr);
    case Declare(ds) => AfterDeclsExtends(ds, tr);
    case Scope(name, body) => ScopeExtends(env, [], body, tr, fuel);
    case If(choice) => IfExtends(env, choice, tr, fuel);
    case While(name, c, body) => IterateExtends(env, name, Some(c), [], body, tr, fuel);
    case Loop(name, body) => IterateExtends(env, name, None, [], body, tr, fuel);
    case CStyleFor(name, ds, test, step, body) =>
      AfterDeclsExtends(ds, tr);
      IterateExtends(env, name, test, step, body, AfterDecls(ds, tr), fuel);
    case TupleFor(name, e, elements, body) =>
      AfterExtends(e, tr);
      ForEachExtends(env, name, elements, body, Enter(e, tr), fuel);
    case With(e, _, _, body) =>
      AfterExtends(e, tr);
      ScopeExtends(env, Held(s), body, Enter(e, tr) + Opened(s), fuel);
    case Switch(e, kind, cases) =>
      AfterExtends(e, tr);
      var k := Selected(kind, cases, Value(env, e, kind, tr));
      if k.Some? {
        assert cases[k.value] in cases;
        ScopeExtends(env, [], cases[k.value].body, After(e, tr), fuel);
      }
    case Return(result) => if result.Some? { AfterExtends(result.value, tr); }
    case HaltIf(c) => AfterExtends(c, tr);
    case Break(_) =>
    case Continue(_) =>
    case Halt =>
  }

  lemma {:induction false} IfExtends(env: Env, choice: IfOperator, tr: Trace, fuel: nat)
    ensures After(choice.cond, tr) <= ExecIf(env, choice, tr, fuel).tr && tr <= ExecIf(env, choice, tr, fuel).tr
    decreases fuel, choice, 0
  {
    AfterExtends(choice.cond, tr);
    var tr' := After(choice.cond, tr);
    if Holds(env, choice.cond, tr) {
      ScopeExtends(env, [], choice.body, tr', fuel);
    } else {
      match choice.alternative
      case NoElse =>
      case Else(body) => ScopeExtends(env, [], body, tr', fuel);
      case ElseIf(choice') => IfExtends(env, choice', tr', fuel);
    }
  }

  lemma {:induction false} BlockExtends(env: Env, b: Block, tr: Trace, fuel: nat)
    ensures tr <= ExecBlock(env, b, tr, fuel).tr
    decreases fuel, b, 0
  {
    if b.Cons? {
      ExecExtends(env, b.head, tr, fuel);
      var r := Exec(env, b.head, tr, fuel);
      if r.exit.Normal? { BlockExtends(env, b.tail, r.tr, fuel); }
    }
  }

  lemma {:induction false} ScopeExtends(env: Env, vars: seq<Var>, b: Block, tr: Trace, fuel: nat)
    ensures tr <= ExecBlock(env, b, tr, fuel).tr <= ExecScope(env, vars, b, tr, fuel).tr
    decreases fuel, b, 1
  {
    BlockExtends(env, b, tr, fuel);
  }

  lemma {:induction false} IterateExtends(env: Env, name: Option<Label>, test: Option<Expr>, step: seq<Expr>,
                                          body: Block, tr: Trace, fuel: nat)
    ensures tr <= Iterate(env, name, test, step, body, tr, fuel).tr
    decreases fuel, body, 2
  {
    if fuel > 0 {
      if test.Some? { AfterExtends(test.value, tr); }
      var tr' := if test.Some? then After(test.value, tr) else tr;
      ScopeExtends(env, [], body, tr', fuel);
      var r := ExecScope(env, [], body, tr', fuel);
      if ContinuesLoop(r.exit, name) {
        AfterAllExtends(step, r.tr);
        IterateExtends(env, name, test, step, body, AfterAll(step, r.tr), fuel - 1);
      }
    }
  }

  lemma {:induction false} ForEachExtends(env: Env, name: Option<Label>, elements: seq<Option<Var>>, body: Block,
                                          tr: Trace, fuel: nat)
    ensures tr <= ForEach(env, name, elements, body, tr, fuel).tr
    decreases fuel, body, 2, |elements|
  {
    if elements != [] {
      var vars := Bound(elements[0]);
      ScopeExtends(env, vars, body, tr + Inits(vars), fuel);
      var r := ExecScope(env, vars, body, tr + Inits(vars), fuel);
      if ContinuesLoop(r.exit, name) { ForEachExtends(env, name, elements[1..], body, r.tr, fuel); }
    }
  }

  // ----- what a run depends on -----

  /** The same answers to all questions asked after some events, up to a number of them. */
  ghost predicate SameAnswers(env: Env, env': Env, from: nat, to: nat) {
    forall id: nat, t: Trace :: from < |t| <= to ==> env.test(id, t) == env'.test(id, t) && env.value(id, t) == env'.value(id, t)
  }

  lemma FewerAnswers(env: Env, env': Env, from: nat, to: nat, from': nat, to': nat)
    requires SameAnswers(env, env', from, to) && from <= from' && to' <= to
    ensures SameAnswers(env, env', from', to')
  {
  }

  /** A condition is asked for while it is evaluated. */
  lemma SameTest(env: Env, env': Env, c: Expr, tr: Trace, to: nat)
    requires SameAnswers(env, env', |tr|, to) && |After(c, tr)| <= to
    ensures Holds(env, c, tr) == Holds(env', c, tr) && env.value(c.id, Enter(c, tr)) == env'.value(c.id, Enter(c, tr))
  {
    AfterExtends(c, tr);
  }

  /** A run that ends is the same with more fuel, and with other answers to questions that it does not ask. */
  lemma {:induction false} ExecLocal(env: Env, env': Env, s: Stmt, tr: Trace, fuel: nat, fuel': nat)
    requires fuel <= fuel' && !Exec(env, s, tr, fuel).exit.OutOfFuel?
    requires SameAnswers(env, env', |tr|, |Exec(env, s, tr, fuel).tr|)
    ensures Exec(env', s, tr, fuel') == Exec(env, s, tr, fuel)
    decreases fuel, s, 0
  {
    hide SameAnswers, ExecScope, ExecIf, Iterate, ForEach, Holds;
    var to := |Exec(env, s, tr, fuel).tr|;
    match s
    case Scope(name, body) => ScopeLocal(env, env', [], body, tr, fuel, fuel', |tr|, to);
    case If(choice) => IfLocal(env, env', choice, tr, fuel, fuel');
    case While(name, c, body) => IterateLocal(env, env', name, Some(c), [], body, tr, fuel, fuel');
    case Loop(name, body) => IterateLocal(env, env', name, None, [], body, tr, fuel, fuel');
    case CStyleFor(name, ds, test, step, body) =>
      var tr', r := AfterDecls(ds, tr), Iterate(env, name, test, step, body, AfterDecls(ds, tr), fuel);
      AfterDeclsExtends(ds, tr);
      FewerAnswers(env, env', |tr|, to, |tr'|, |r.tr|);
      IterateLocal(env, env', name, test, step, body, tr', fuel, fuel');
    case TupleFor(name, e, elements, body) =>
      var r := ForEach(env, name, elements, body, Enter(e, tr), fuel);
      AfterExtends(e, tr);
      FewerAnswers(env, env', |tr|, to, |Enter(e, tr)|, |r.tr|);
      ForEachLocal(env, env', name, elements, body, Enter(e, tr), fuel, fuel');
    case With(e, _, _, body) =>
      AfterExtends(e, tr);
      ScopeLocal(env, env', Held(s), body, Enter(e, tr) + Opened(s), fuel, fuel', |tr|, to);
    case Switch(e, kind, cases) =>
      AfterExtends(e, tr);
      var k := Selected(kind, cases, Value(env, e, kind, tr));
      if k.Some? {
        assert cases[k.value] in cases;
        ScopeExtends(env, [], cases[k.value].body, After(e, tr), fuel);
        SameTest(env, env', e, tr, to);
        ScopeLocal(env, env', [], cases[k.value].body, After(e, tr), fuel, fuel', |tr|, to);
      } else {
        SameTest(env, env', e, tr, to);
      }
    case HaltIf(c) => SameTest(env, env', c, tr, to);
    case _ =>
  }

  lemma {:induction false} IfLocal(env: Env, env': Env, choice: IfOperator, tr: Trace, fuel: nat, fuel': nat)
    requires fuel <= fuel' && !ExecIf(env, choice, tr, fuel).exit.OutOfFuel?
    requires SameAnswers(env, env', |tr|, |ExecIf(env, choice, tr, fuel).tr|)
    ensures ExecIf(env', choice, tr, fuel') == ExecIf(env, choice, tr, fuel)
    decreases fuel, choice, 0
  {
    hide SameAnswers, ExecScope, Holds;
    var to, tr' := |ExecIf(env, choice, tr, fuel).tr|, After(choice.cond, tr);
    IfExtends(env, choice, tr, fuel);
    AfterExtends(choice.cond, tr);
    SameTest(env, env', choice.cond, tr, to);
    if Holds(env, choice.cond, tr) {
      ScopeLocal(env, env', [], choice.body, tr', fuel, fuel', |tr|, to);
    } else {
      match choice.alternative
      case NoElse =>
      case Else(body) => ScopeLocal(env, env', [], body, tr', fuel, fuel', |tr|, to);
      case ElseIf(choice') =>
        FewerAnswers(env, env', |tr|, to, |tr'|, to);
        IfLocal(env, env', choice', tr', fuel, fuel');
    }
  }

  lemma {:induction false} BlockLocal(env: Env, env': Env, b: Block, tr: Trace, fuel: nat, fuel': nat)
    requires fuel <= fuel' && !ExecBlock(env, b, tr, fuel).exit.OutOfFuel?
    requires SameAnswers(env, env', |tr|, |ExecBlock(env, b, tr, fuel).tr|)
    ensures ExecBlock(env', b, tr, fuel') == ExecBlock(env, b, tr, fuel)
    decreases fuel, b, 0
  {
    hide SameAnswers, Exec;
    if b.Cons? {
      var to, r := |ExecBlock(env, b, tr, fuel).tr|, Exec(env, b.head, tr, fuel);
      ExecExtends(env, b.head, tr, fuel);
      if r.exit.Normal? {
        BlockExtends(env, b.tail, r.tr, fuel);
        FewerAnswers(env, env', |tr|, to, |r.tr|, to);
        BlockLocal(env, env', b.tail, r.tr, fuel, fuel');
      }
      FewerAnswers(env, env', |tr|, to, |tr|, |r.tr|);
      ExecLocal(env, env', b.head, tr, fuel, fuel');
    }
  }

  lemma {:induction false} ScopeLocal(env: Env, env': Env, vars: seq<Var>, b: Block, tr: Trace, fuel: nat, fuel': nat,
                                      from: nat, to: nat)
    requires fuel <= fuel' && !ExecScope(env, vars, b, tr, fuel).exit.OutOfFuel?
    requires SameAnswers(env, env', from, to) && from <= |tr| && |ExecScope(env, vars, b, tr, fuel).tr| <= to
    ensures ExecScope(env', vars, b, tr, fuel') == ExecScope(env, vars, b, tr, fuel)
    decreases fuel, b, 1
  {
    hide SameAnswers, ExecBlock;
    FewerAnswers(env, env', from, to, |tr|, |ExecBlock(env, b, tr, fuel).tr|);
    BlockLocal(env, env', b, tr, fuel, fuel');
  }

  lemma {:induction false} IterateLocal(env: Env, env': Env, name: Option<Label>, test: Option<Expr>, step: seq<Expr>,
                                        body: Block, tr: Trace, fuel: nat, fuel': nat)
    requires fuel <= fuel' && !Iterate(env, name, test, step, body, tr, fuel).exit.OutOfFuel?
    requires SameAnswers(env, env', |tr|, |Iterate(env, name, test, step, body, tr, fuel).tr|)
    ensures Iterate(env', name, test, step, body, tr, fuel') == Iterate(env, name, test, step, body, tr, fuel)
    decreases fuel, body, 2
  {
    hide SameAnswers, ExecScope, Holds;
    var to := |Iterate(env, name, test, step, body, tr, fuel).tr|;
    var tr' := if test.Some? then After(test.value, tr) else tr;
    var r := ExecScope(env, [], body, tr', fuel);
    if test.Some? { AfterExtends(test.value, tr); }
    ScopeExtends(env, [], body, tr', fuel);
    AfterAllExtends(step, r.tr);
    if ContinuesLoop(r.exit, name) { IterateExtends(env, name, test, step, body, AfterAll(step, r.tr), fuel - 1); }
    if test.Some? { SameTest(env, env', test.value, tr, to); }
    if !(test.Some? && !Holds(env, test.value, tr)) {
      ScopeLocal(env, env', [], body, tr', fuel, fuel', |tr|, to);
      if ContinuesLoop(r.exit, name) {
        FewerAnswers(env, env', |tr|, to, |AfterAll(step, r.tr)|, to);
        IterateLocal(env, env', name, test, step, body, AfterAll(step, r.tr), fuel - 1, fuel' - 1);
      }
    }
  }

  lemma {:induction false} ForEachLocal(env: Env, env': Env, name: Option<Label>, elements: seq<Option<Var>>, body: Block,
                                        tr: Trace, fuel: nat, fuel': nat)
    requires fuel <= fuel' && !ForEach(env, name, elements, body, tr, fuel).exit.OutOfFuel?
    requires SameAnswers(env, env', |tr|, |ForEach(env, name, elements, body, tr, fuel).tr|)
    ensures ForEach(env', name, elements, body, tr, fuel') == ForEach(env, name, elements, body, tr, fuel)
    decreases fuel, body, 2, |elements|
  {
    hide SameAnswers, ExecScope;
    if elements != [] {
      var to, vars := |ForEach(env, name, elements, body, tr, fuel).tr|, Bound(elements[0]);
      var r := ExecScope(env, vars, body, tr + Inits(vars), fuel);
      ScopeExtends(env, vars, body, tr + Inits(vars), fuel);
      if ContinuesLoop(r.exit, name) {
        ForEachExtends(env, name, elements[1..], body, r.tr, fuel);
        FewerAnswers(env, env', |tr|, to, |r.tr|, to);
        ForEachLocal(env, env', name, elements[1..], body, r.tr, fuel, fuel');
      }
      ScopeLocal(env, env', vars, body, tr + Inits(vars), fuel, fuel', |tr|, to);
    }
  }

  // ----- putting runs together -----

  /** One environment for the first events and another one for those after. */
  function Then(env: Env, n: nat, env': Env): Env {
    Env((id: nat, t: Trace) => if |t| <= n then env.test(id, t) else env'.test(id, t),
        (id: nat, t: Trace) => ThenValue(env, n, env', id, t))
  }

  function ThenValue(env: Env, n: nat, env': Env, id: nat, t: Trace): nat {
    if |t| <= n then env.value(id, t) else env'.value(id, t)
  }

  lemma ThenFirst(env: Env, n: nat, env': Env, from: nat)
    ensures SameAnswers(env, Then(env, n, env'), from, n)
  {
  }

  lemma ThenSecond(env: Env, n: nat, env': Env, from: nat, to: nat)
    requires n <= from
    ensures SameAnswers(env', Then(env, n, env'), from, to)
  {
  }

  // ----- statements said with others -----

  function Only(s: Stmt): Block {
    Cons(s, Empty)
  }

  lemma OnlyRuns(env: Env, s: Stmt, tr: Trace, fuel: nat)
    ensures var r := Exec(env, s, tr, fuel);
            ExecBlock(env, Only(s), tr, fuel) == r && (r.decls == [] ==> ExecScope(env, [], Only(s), tr, fuel) == r)
  {
    hide Exec;
    var r := Exec(env, s, tr, fuel);
    assert ExecBlock(env, Empty, r.tr, fuel) == Ended(Normal, r.tr);
    assert ExecBlock(env, Only(s), tr, fuel) == r;
    if r.decls == [] { assert r.tr + Destroys([] + r.decls) == r.tr; }
  }

  /** "halt if" is an "if" around a "halt". */
  lemma HaltIfIs(env: Env, c: Expr, tr: Trace, fuel: nat)
    ensures Exec(env, HaltIf(c), tr, fuel) == Exec(env, If(IfOperator(c, Only(Halt), NoElse)), tr, fuel)
  {
    OnlyRuns(env, Halt, After(c, tr), fuel);
  }

  /** The body of an endless loop that does what a "while" does. */
  function TestOrLeave(c: Expr, body: Block): Block {
    Only(If(IfOperator(c, body, Else(Only(Break(None))))))
  }

  lemma {:induction false} WhileIterates(env: Env, name: Option<Label>, c: Expr, body: Block, tr: Trace, fuel: nat)
    ensures Iterate(env, name, Some(c), [], body, tr, fuel) == Iterate(env, name, None, [], TestOrLeave(c, body), tr, fuel)
    decreases fuel
  {
    hide ExecScope, Holds, After;
    if fuel > 0 {
      TestOrLeaveRuns(env, c, body, tr, fuel);
      var r := ExecScope(env, [], body, After(c, tr), fuel);
      if Holds(env, c, tr) && ContinuesLoop(r.exit, name) { WhileIterates(env, name, c, body, AfterAll([], r.tr), fuel - 1); }
    }
  }

  /** A "while" is an endless loop that tests, and leaves if the test fails. */
  lemma WhileIs(env: Env, name: Option<Label>, c: Expr, body: Block, tr: Trace, fuel: nat)
    ensures Exec(env, While(name, c, body), tr, fuel) == Exec(env, Loop(name, TestOrLeave(c, body)), tr, fuel)
  {
    hide Iterate;
    WhileIterates(env, name, c, body, tr, fuel);
  }

  lemma TestOrLeaveRuns(env: Env, c: Expr, body: Block, tr: Trace, fuel: nat)
    ensures ExecScope(env, [], TestOrLeave(c, body), tr, fuel) ==
            if Holds(env, c, tr) then ExecScope(env, [], body, After(c, tr), fuel) else Ended(Broke(None), After(c, tr))
  {
    OnlyRuns(env, If(IfOperator(c, body, Else(Only(Break(None))))), tr, fuel);
    OnlyRuns(env, Break(None), After(c, tr), fuel);
  }

  /** A C-style "for" without step is a scope with its variables and a "while". */
  lemma ForIs(env: Env, name: Option<Label>, ds: seq<Decl>, c: Expr, body: Block, tr: Trace, fuel: nat)
    ensures Exec(env, CStyleFor(name, ds, Some(c), [], body), tr, fuel) ==
            Exec(env, Scope(None, Cons(Declare(ds), Only(While(name, c, body)))), tr, fuel)
  {
    hide Iterate, AfterDecls;
    var r := Iterate(env, name, Some(c), [], body, AfterDecls(ds, tr), fuel);
    OnlyRuns(env, While(name, c, body), AfterDecls(ds, tr), fuel);
    assert Exec(env, While(name, c, body), AfterDecls(ds, tr), fuel) == r;
    assert ExecBlock(env, Cons(Declare(ds), Only(While(name, c, body))), tr, fuel) == Result(r.exit, r.tr,
                     Declared(ds) + []);
    assert [] + (Declared(ds) + []) == Declared(ds) == Declared(ds) + [];
  }

  /** A "with" that binds nothing, of an expression without temporaries, evaluates it and runs the body. */
  lemma WithIs(env: Env, e: Expr, unused: seq<set<Var>>, body: Block, tr: Trace, fuel: nat)
    requires e.temps == []
    ensures Exec(env, With(e, unused, None, body), tr, fuel) ==
            ExecBlock(env, Cons(Simple(e), Only(Scope(None, body))), tr, fuel)
  {
    NothingKept(unused);
    var s := With(e, unused, None, body);
    assert Held(s) == [] && Opened(s) == [];
    assert Enter(e, tr) + Opened(s) == After(e, tr);
    OnlyRuns(env, Scope(None, body), After(e, tr), fuel);
  }

  lemma {:induction false} NothingKept(passes: seq<set<Var>>)
    ensures KeepAll([], passes) == [] == GoneAll([], passes)
    decreases |passes|
  {
    if passes != [] { NothingKept(passes[1..]); }
  }
}
