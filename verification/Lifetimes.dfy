/**
 * Variables between initialization and destruction: on every way out of every
 * scope, what the scope initialized is destroyed, once, and nothing else is.
 */
module Lifetimes {

  import opened Options
  import opened StructuredCode

  type Vars = multiset<Var>

  /** One event; destroying a variable that is not alive is a fault. */
  function Happens(live: Option<Vars>, ev: Event): Option<Vars> {
    if live.None? then None
    else
      match ev
      case Eval(_) => live
      case Init(v) => Some(live.value + multiset{v})
      case Destroy(v) => if v in live.value then Some(live.value - multiset{v}) else None
  }

  /** The variables alive after some events, or nothing if one was destroyed while not alive. */
  function Alive(tr: Trace): Option<Vars> {
    if tr == [] then Some(multiset{}) else Happens(Alive(tr[..|tr| - 1]), tr[|tr| - 1])
  }

  lemma AliveNext(tr: Trace, ev: Event)
    ensures Alive(tr + [ev]) == Happens(Alive(tr), ev)
  {
    assert (tr + [ev])[..|tr|] == tr;
  }

  /** A fault is never undone. */
  lemma {:induction false} AlivePrefix(tr: Trace, tr': Trace)
    requires tr <= tr' && Alive(tr').Some?
    ensures Alive(tr).Some?
  {
    if tr != tr' { AlivePrefix(tr, tr'[..|tr'| - 1]); }
  }

  function Plus(live: Vars, vs: seq<Var>): Vars {
    live + multiset(vs)
  }

  lemma PlusNone(live: Vars)
    ensures Plus(live, []) == live
  {
  }

  lemma PlusTwice(live: Vars, vs: seq<Var>, ws: seq<Var>)
    ensures Plus(Plus(live, vs), ws) == Plus(live, vs + ws)
  {
  }

  lemma PlusOne(live: Vars, v: Var)
    ensures Plus(live, [v]) == live + multiset{v} && Plus(live, [v]) - multiset{v} == live
  {
  }

  lemma PlusSwap(live: Vars, vs: seq<Var>, ws: seq<Var>)
    ensures Plus(Plus(live, vs), ws) == Plus(Plus(live, ws), vs)
  {
  }

  /** Events that leave exactly the given variables alive. */
  ghost predicate Are(tr: Trace, live: Vars) {
    Alive(tr) == Some(live)
  }

  lemma {:induction false} AfterInits(tr: Trace, vs: seq<Var>, live: Vars)
    requires Are(tr, live)
    ensures Are(tr + Inits(vs), Plus(live, vs))
  {
    hide Plus, Alive;
    if vs == [] {
      assert tr + Inits(vs) == tr;
      PlusNone(live);
    } else {
      var n := |vs| - 1;
      assert vs == vs[..n] + [vs[n]];
      AfterInits(tr, vs[..n], live);
      AliveNext(tr + Inits(vs[..n]), Init(vs[n]));
      assert tr + Inits(vs) == tr + Inits(vs[..n]) + [Init(vs[n])];
      PlusTwice(live, vs[..n], [vs[n]]);
      PlusOne(Plus(live, vs[..n]), vs[n]);
    }
  }

  lemma {:induction false} AfterDestroys(tr: Trace, vs: seq<Var>, live: Vars)
    requires Are(tr, Plus(live, vs))
    ensures Are(tr + Destroys(vs), live)
    decreases |vs|
  {
    hide Plus, Alive;
    if vs == [] {
      assert tr + Destroys(vs) == tr;
      PlusNone(live);
    } else {
      var n := |vs| - 1;
      assert vs == vs[..n] + [vs[n]];
      PlusTwice(live, vs[..n], [vs[n]]);
      PlusOne(Plus(live, vs[..n]), vs[n]);
      AliveNext(tr, Destroy(vs[n]));
      AfterDestroys(tr + [Destroy(vs[n])], vs[..n], live);
      assert tr + Destroys(vs) == tr + [Destroy(vs[n])] + Destroys(vs[..n]);
    }
  }

  lemma AfterEnter(e: Expr, tr: Trace, live: Vars)
    requires Are(tr, live)
    ensures Are(Enter(e, tr), Plus(live, e.temps))
  {
    AliveNext(tr, Eval(e.id));
    AfterInits(tr + [Eval(e.id)], e.temps, live);
  }

  lemma AfterExpr(e: Expr, tr: Trace, live: Vars)
    requires Are(tr, live)
    ensures Are(After(e, tr), live)
  {
    AfterEnter(e, tr, live);
    AfterDestroys(Enter(e, tr), e.temps, live);
  }

  lemma {:induction false} AfterExprs(es: seq<Expr>, tr: Trace, live: Vars)
    requires Are(tr, live)
    ensures Are(AfterAll(es, tr), live)
  {
    if es != [] {
      AfterExpr(es[0], tr, live);
      AfterExprs(es[1..], After(es[0], tr), live);
    }
  }

  lemma AfterOneDecl(d: Decl, tr: Trace, live: Vars)
    requires Are(tr, live)
    ensures Are(AfterDecl(d, tr), Plus(live, [d.v]))
  {
    hide Plus;
    AfterEnter(d.init, tr, live);
    AfterInits(Enter(d.init, tr), [d.v], Plus(live, d.init.temps));
    assert Inits([d.v]) == [Init(d.v)];
    PlusSwap(live, d.init.temps, [d.v]);
    AfterDestroys(Enter(d.init, tr) + [Init(d.v)], d.init.temps, Plus(live, [d.v]));
  }

  lemma {:induction false} AfterAllDecls(ds: seq<Decl>, tr: Trace, live: Vars)
    requires Are(tr, live)
    ensures Are(AfterDecls(ds, tr), Plus(live, Declared(ds)))
  {
    hide Plus, Alive, AfterDecl;
    if ds == [] {
      assert Declared(ds) == [];
      PlusNone(live);
    } else {
      AfterOneDecl(ds[0], tr, live);
      AfterAllDecls(ds[1..], AfterDecl(ds[0], tr), Plus(live, [ds[0].v]));
      assert Declared(ds) == [ds[0].v] + Declared(ds[1..]);
      PlusTwice(live, [ds[0].v], Declared(ds[1..]));
    }
  }

  lemma {:induction false} AfterDrops(tr: Trace, vs: seq<Var>, live: Vars)
    requires Are(tr, Plus(live, vs))
    ensures Are(tr + Drops(vs), live)
    decreases |vs|
  {
    hide Plus, Alive;
    if vs == [] {
      assert tr + Drops(vs) == tr;
      PlusNone(live);
    } else {
      assert vs == [vs[0]] + vs[1..];
      PlusTwice(live, [vs[0]], vs[1..]);
      PlusSwap(live, [vs[0]], vs[1..]);
      PlusOne(Plus(live, vs[1..]), vs[0]);
      AliveNext(tr, Destroy(vs[0]));
      AfterDrops(tr + [Destroy(vs[0])], vs[1..], live);
      assert tr + Drops(vs) == tr + [Destroy(vs[0])] + Drops(vs[1..]);
    }
  }

  /** A pass loses no variable: each is kept or gone. */
  lemma {:induction false} KeepOrGone(vs: seq<Var>, dead: set<Var>, live: Vars)
    ensures Plus(Plus(live, Keep(vs, dead)), Gone(vs, dead)) == Plus(live, vs)
  {
    if vs == [] {
      PlusNone(live);
    } else {
      hide Plus;
      var v, rest := vs[0], vs[1..];
      assert vs == [v] + rest;
      KeepOrGone(rest, dead, Plus(live, [v]));
      PlusTwice(live, [v], rest);
      if v in dead {
        assert Keep(vs, dead) == Keep(rest, dead);
        PlusSwap(live, [v], Keep(rest, dead));
        PlusTwice(Plus(live, Keep(rest, dead)), [v], Gone(rest, dead));
      } else {
        assert Gone(vs, dead) == Gone(rest, dead);
        PlusTwice(live, [v], Keep(rest, dead));
      }
    }
  }

  lemma {:induction false} KeepOrGoneAll(vs: seq<Var>, passes: seq<set<Var>>, live: Vars)
    ensures Plus(Plus(live, KeepAll(vs, passes)), GoneAll(vs, passes)) == Plus(live, vs)
    decreases |passes|
  {
    if passes == [] {
      PlusNone(Plus(live, vs));
    } else {
      hide Plus;
      var kept, gone := Keep(vs, passes[0]), Gone(vs, passes[0]);
      var rest := GoneAll(kept, passes[1..]);
      KeepOrGone(vs, passes[0], live);
      KeepOrGoneAll(kept, passes[1..], Plus(live, gone));
      PlusSwap(live, kept, gone);
      PlusSwap(live, gone, KeepAll(kept, passes[1..]));
      PlusTwice(Plus(live, KeepAll(kept, passes[1..])), gone, rest);
    }
  }

  /** The body of a "with" starts with exactly what its scope holds. */
  lemma AfterOpened(s: Stmt, tr: Trace, live: Vars)
    requires s.With? && Are(tr, live)
    ensures Are(Enter(s.e, tr) + Opened(s), Plus(live, Held(s)))
  {
    hide Plus, Are;
    var bound, kept, gone := Bound(s.bound), KeepAll(s.e.temps, s.unused), GoneAll(s.e.temps, s.unused);
    AfterEnter(s.e, tr, live);
    AfterInits(Enter(s.e, tr), bound, Plus(live, s.e.temps));
    KeepOrGoneAll(s.e.temps, s.unused, live);
    PlusSwap(Plus(live, kept), gone, bound);
    AfterDrops(Enter(s.e, tr) + Inits(bound), gone, Plus(Plus(live, kept), bound));
    PlusTwice(live, kept, bound);
    assert Enter(s.e, tr) + Inits(bound) + Drops(gone) == Enter(s.e, tr) + Opened(s);
  }

  // ----- statements -----

  predicate Leaves(exit: Exit) {
    !exit.Halted? && !exit.OutOfFuel?
  }

  /** No fault; and a run that leaves, in whatever way, leaves what it declared and what was alive before. */
  ghost predicate Keeps(r: Result, live: Vars) {
    && Alive(r.tr).Some?
    && (Leaves(r.exit) ==> Are(r.tr, Plus(live, r.decls)))
  }

  lemma LeaveKeeps(r: Result, vars: seq<Var>, live: Vars)
    requires Keeps(r, Plus(live, vars))
    ensures Keeps(Leave(r, vars), live)
  {
    if Leaves(r.exit) {
      PlusTwice(live, vars, r.decls);
      AfterDestroys(r.tr, vars + r.decls, live);
      PlusNone(live);
    }
  }

  lemma {:induction false} ExecKeeps(env: Env, s: Stmt, tr: Trace, fuel: nat, live: Vars)
    requires Are(tr, live)
    ensures Keeps(Exec(env, s, tr, fuel), live)
    decreases fuel, s, 0
  {
    hide Plus, Alive;
    PlusNone(live);
    match s
    case Simple(e) => AfterExpr(e, tr, live);
    case Declare(ds) => AfterAllDecls(ds, tr, live);
    case Scope(name, body) => ScopeKeeps(env, [], body, tr, fuel, live);
    case If(choice) => IfKeeps(env, choice, tr, fuel, live);
    case While(name, c, body) => IterateKeeps(env, name, Some(c), [], body, tr, fuel, live);
    case Loop(name, body) => IterateKeeps(env, name, None, [], body, tr, fuel, live);
    case CStyleFor(name, ds, test, step, body) =>
      AfterAllDecls(ds, tr, live);
      var live' := Plus(live, Declared(ds));
      IterateKeeps(env, name, test, step, body, AfterDecls(ds, tr), fuel, live');
      LeaveKeeps(Iterate(env, name, test, step, body, AfterDecls(ds, tr), fuel), Declared(ds), live);
    case TupleFor(name, e, elements, body) =>
      AfterEnter(e, tr, live);
      ForEachKeeps(env, name, elements, body, Enter(e, tr), fuel, Plus(live, e.temps));
      LeaveKeeps(ForEach(env, name, elements, body, Enter(e, tr), fuel), e.temps, live);
    case With(e, _, _, body) =>
      AfterOpened(s, tr, live);
      ScopeKeeps(env, Held(s), body, Enter(e, tr) + Opened(s), fuel, live);
    case Switch(e, kind, cases) =>
      AfterExpr(e, tr, live);
      var k := Selected(kind, cases, Value(env, e, kind, tr));
      if k.Some? {
        assert cases[k.value] in cases;
        ScopeKeeps(env, [], cases[k.value].body, After(e, tr), fuel, live);
      }
    case Return(result) => if result.Some? { AfterExpr(result.value, tr, live); }
    case HaltIf(c) => AfterExpr(c, tr, live);
    case Break(_) =>
    case Continue(_) =>
    case Halt =>
  }

  lemma {:induction false} IfKeeps(env: Env, choice: IfOperator, tr: Trace, fuel: nat, live: Vars)
    requires Are(tr, live)
    ensures Keeps(ExecIf(env, choice, tr, fuel), live)
    decreases fuel, choice, 0
  {
    hide Plus, Alive;
    PlusNone(live);
    AfterExpr(choice.cond, tr, live);
    var tr' := After(choice.cond, tr);
    if Holds(env, choice.cond, tr) {
      ScopeKeeps(env, [], choice.body, tr', fuel, live);
    } else {
      match choice.alternative
      case NoElse =>
      case Else(body) => ScopeKeeps(env, [], body, tr', fuel, live);
      case ElseIf(choice') => IfKeeps(env, choice', tr', fuel, live);
    }
  }

  lemma {:induction false} BlockKeeps(env: Env, b: Block, tr: Trace, fuel: nat, live: Vars)
    requires Are(tr, live)
    ensures Keeps(ExecBlock(env, b, tr, fuel), live)
    decreases fuel, b, 0
  {
    hide Plus, Alive;
    PlusNone(live);
    if b.Cons? {
      ExecKeeps(env, b.head, tr, fuel, live);
      var r := Exec(env, b.head, tr, fuel);
      if r.exit.Normal? {
        BlockKeeps(env, b.tail, r.tr, fuel, Plus(live, r.decls));
        var r' := ExecBlock(env, b.tail, r.tr, fuel);
        PlusTwice(live, r.decls, r'.decls);
      }
    }
  }

  lemma {:induction false} ScopeKeeps(env: Env, vars: seq<Var>, b: Block, tr: Trace, fuel: nat, live: Vars)
    requires Are(tr, Plus(live, vars))
    ensures Keeps(ExecScope(env, vars, b, tr, fuel), live)
    decreases fuel, b, 1
  {
    hide Plus, Alive;
    PlusNone(live);
    BlockKeeps(env, b, tr, fuel, Plus(live, vars));
    LeaveKeeps(ExecBlock(env, b, tr, fuel), vars, live);
  }

  lemma {:induction false} IterateKeeps(env: Env, name: Option<Label>, test: Option<Expr>, step: seq<Expr>, body: Block,
                                        tr: Trace, fuel: nat, live: Vars)
    requires Are(tr, live)
    ensures Keeps(Iterate(env, name, test, step, body, tr, fuel), live)
    decreases fuel, body, 2
  {
    hide Plus, Alive;
    PlusNone(live);
    if fuel > 0 {
      if test.Some? { AfterExpr(test.value, tr, live); }
      var tr' := if test.Some? then After(test.value, tr) else tr;
      ScopeKeeps(env, [], body, tr', fuel, live);
      var r := ExecScope(env, [], body, tr', fuel);
      if ContinuesLoop(r.exit, name) {
        AfterExprs(step, r.tr, live);
        IterateKeeps(env, name, test, step, body, AfterAll(step, r.tr), fuel - 1, live);
      }
    }
  }

  lemma {:induction false} ForEachKeeps(env: Env, name: Option<Label>, elements: seq<Option<Var>>, body: Block,
                                        tr: Trace, fuel: nat, live: Vars)
    requires Are(tr, live)
    ensures Keeps(ForEach(env, name, elements, body, tr, fuel), live)
    decreases fuel, body, 2, |elements|
  {
    hide Plus, Alive;
    PlusNone(live);
    if elements != [] {
      var vars := Bound(elements[0]);
      AfterInits(tr, vars, live);
      ScopeKeeps(env, vars, body, tr + Inits(vars), fuel, live);
      var r := ExecScope(env, vars, body, tr + Inits(vars), fuel);
      if ContinuesLoop(r.exit, name) { ForEachKeeps(env, name, elements[1..], body, r.tr, fuel, live); }
    }
  }

  /** A function destroys only what is alive, and when it returns nothing is. */
  lemma FunctionKeeps(env: Env, params: seq<Var>, body: Block, fuel: nat)
    ensures var r := ExecFunction(env, params, body, fuel);
            && Alive(r.tr).Some?
            && (r.exit.Returned? ==> Alive(r.tr) == Some(multiset{}))
  {
    PlusNone(Plus(multiset{}, params));
    PlusNone(multiset{});
    AfterInits([], params, multiset{});
    assert [] + Inits(params) == Inits(params);
    ScopeKeeps(env, [], body, Inits(params), fuel, Plus(multiset{}, params));
    LeaveKeeps(ExecScope(env, [], body, Inits(params), fuel), params, multiset{});
  }
}
