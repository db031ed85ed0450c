/**
 * A whole function: its body is lowered, falling off the end returns, and the
 * finished blocks do exactly what the body means.
 */
module FunctionLowering {

  import opened Options
  import opened StructuredCode
  import opened BasicBlocks
  import opened Simulation
  import opened StraightCode
  import opened BuilderState
  import opened Lowering
  import opened Lifetimes
  import opened Legality

  /** The machine started in c ends, or runs on, as the result says. */
  ghost predicate Does(g: Cfg, env: Env, c: Conf, r: Result, fuel: nat) {
    match r.exit
    case Returned => Ends(g, env, c, Done(r.tr))
    case Halted => Ends(g, env, c, Stopped(r.tr))
    case OutOfFuel => Spins(g, env, c, fuel, r.tr)
    case _ => false
  }

  /** The machine at the beginning of a function; its registers hold anything. */
  function Entry(params: seq<Var>, flag: bool, val: nat): Conf {
    At(0, 0, Inits(params), flag, val)
  }

  ghost predicate Implements(g: Cfg, params: seq<Var>, body: Block) {
    forall env, flag, val, fuel :: Does(g, env, Entry(params, flag, val), ExecFunction(env, params, body, fuel), fuel)
  }

  // ----- the builder -----

  function Initial(params: seq<Var>, keywords: set<Label>): State {
    State(map[0 := []], 1, 0, [], [params], false, keywords)
  }

  lemma InitialReady(params: seq<Var>, keywords: set<Label>)
    ensures Ready(Initial(params, keywords)) && Dangling(Initial(params, keywords)) == {}
  {
    var s := Initial(params, keywords);
    assert TargetsIn(s.code[0]) == {};
    assert AllTargets(s.code) == {};
  }

  /** With no loop around, every block is finished and every branch target inserted. */
  lemma FinishedWellFormed(s: State)
    requires Tidy(s, true) && Dangling(s) == {}
    ensures WellFormed(s.code)
  {
    forall b, i | b in s.code && 0 <= i < |s.code[b]| ensures s.code[b][i].Targets() <= s.code.Keys {
      forall t | t in s.code[b][i].Targets() ensures t in s.code {
        assert t in TargetsIn(s.code[b]);
        assert t in AllTargets(s.code);
        assert t !in Dangling(s);
      }
    }
  }

  function EndCode(params: seq<Var>): Code {
    Emits(Destroys(params)) + [Ret]
  }

  lemma LinkedSelf(g: Cfg)
    ensures Linked(g, g, b => b)
  {
    forall b | b in g ensures RelinkAll(x => x, g[b]) <= g[b] { assert RelinkAll(x => x, g[b]) == g[b]; }
  }

  /** Falling off the end destroys the parameters and returns. */
  lemma FallsOff(g: Cfg, env: Env, c: Conf, b: BlockId, i: nat, params: seq<Var>, tr: Trace)
    requires Lands(g, env, c, 0, b, i, tr) && Has(g, b, i, EndCode(params))
    ensures Ends(g, env, c, Done(tr + Destroys(params)))
  {
    var n: nat :| n >= 0 && var d := Run(g, env, n, c); d.At? && d.b == b && d.i == i && d.tr == tr;
    var d := Run(g, env, n, c);
    var cs := Emits(Destroys(params));
    var m := Regs(tr, d.flag, d.val);
    assert Has(g, b, i, cs) && g[b][i + |cs|] == Ret by {
      var e := g[b][i..i + |EndCode(params)|];
      assert e == EndCode(params);
      assert g[b][i..i + |cs|] == e[..|cs|] == cs;
      assert g[b][i + |cs|] == e[|cs|];
    }
    RunStraight(g, env, b, i, cs, m);
    EffectsEmits(env, Destroys(params), m);
    var f := Run(g, env, |cs|, d);
    assert f == Spot(b, i + |cs|, Effects(env, cs, m));
    assert Run(g, env, 1, f) == Step(g, env, f) == Done(tr + Destroys(params));
    RunAdd(g, env, |cs|, 1, d);
    assert Ends(g, env, d, Done(tr + Destroys(params)));
    EndsAfter(g, env, c, n, Done(tr + Destroys(params)));
  }

  function Finished(q: State, terminal: bool, params: seq<Var>): State
    requires q.at in q.code
  {
    if terminal then q else Appended(q, EndCode(params))
  }

  lemma FinishedTidy(a: State, q: State, terminal: bool, params: seq<Var>)
    requires a == Initial(params, a.keywords) && Built(a, q, terminal, []) && !q.errors
    ensures WellFormed(Finished(q, terminal, params).code)
  {
    InitialReady(params, a.keywords);
    assert LoopAims(q.loops) == {};
    if !terminal {
      StraightOpen(Emits(Destroys(params)));
      AppendTerminator(q, Emits(Destroys(params)), Ret);
    }
    FinishedWellFormed(Finished(q, terminal, params));
  }

  lemma FinishedLinked(q: State, terminal: bool, params: seq<Var>)
    requires q.at in q.code
    ensures Linked(q.code, Finished(q, terminal, params).code, b => b)
  {
    var g := Finished(q, terminal, params).code;
    var rho: Link := b => b;
    if terminal { ContainsSelf(q.code); } else { AppendContains(q, EndCode(params)); }
    LinkedSelf(g);
    LinkedPart(q.code, g, g, rho);
  }

  /** What the body's blocks do, followed by the end of the function. */
  lemma BodyThenEnd(g: Cfg, env: Env, c: Conf, r: Result, fuel: nat, out: Out, params: seq<Var>)
    requires out.frames == [params] && out.loops == [] && r.decls == [] && Matches(g, b => b, env, c, r, fuel, out)
    requires !out.terminal ==> Has(g, out.b, out.i, EndCode(params))
    ensures var r' := Leave(r, params); Does(g, env, c, if r'.exit.Normal? then r'.(exit := Returned) else r', fuel)
  {
    hide Lands, Spins, Has;
    ExtendNone([params]);
    DestroyScope([], params, 0);
    assert [] + [params] == [params] && DestroyDown([], 0) == [] && Destroys(params) + [] == Destroys(params);
    assert params + r.decls == params;
    assert forall name: Option<Label> :: Target([], name).None?;
    if r.exit.Normal? { FallsOff(g, env, c, out.b, out.i, params, r.tr); }
  }

  lemma FinishedDoes(a: State, q: State, terminal: bool, params: seq<Var>, body: Block, env: Env, flag: bool, val: nat,
                     fuel: nat)
    requires a == Initial(params, a.keywords) && Built(a, q, terminal, []) && Sim(a, q, terminal, Nested(body))
    ensures q.at in q.code
    ensures Does(Finished(q, terminal, params).code, env, Entry(params, flag, val), ExecFunction(env, params, body, fuel), fuel)
  {
    hide Sim, Sound, Grown, Tidy, Dangling, Linked, Contains, Matches, Does;
    BuiltLoops(a, q, terminal, []);
    var g := Finished(q, terminal, params).code;
    FinishedLinked(q, terminal, params);
    var rho: Link := b => b;
    var m := Regs(Inits(params), flag, val);
    UseSim(a, q, terminal, Nested(body), g, rho, env, m, fuel);
    assert Entry(params, flag, val) == Start(a, rho, m);
    if !terminal { assert Has(g, q.at, q.Here(), EndCode(params)); }
    BodyThenEnd(g, env, Entry(params, flag, val), ExecScope(env, [], body, Inits(params), fuel), fuel,
                OutOf(a, q, terminal), params);
  }

  lemma FinishedImplements(a: State, q: State, terminal: bool, params: seq<Var>, body: Block)
    requires a == Initial(params, a.keywords) && Built(a, q, terminal, []) && Sim(a, q, terminal, Nested(body))
    ensures Implements(Finished(q, terminal, params).code, params, body)
  {
    forall env, flag, val, fuel
      ensures Does(Finished(q, terminal, params).code, env, Entry(params, flag, val), ExecFunction(env, params, body, fuel), fuel)
    {
      FinishedDoes(a, q, terminal, params, body, env, flag, val, fuel);
    }
  }

  /** Legal statements, and no way to fall off the end of a function that returns a value. */
  ghost predicate Legal(body: Block, rules: Rules) {
    var r := JudgeBlock(body, [], rules);
    r.ok && (r.ends || rules.returnsVoid)
  }

  /** Lowers a function, unless there is an error in it. */
  method BuildFunction(params: seq<Var>, body: Block, rules: Rules) returns (g: Option<Cfg>)
    ensures g.Some? <==> Legal(body, rules)
    ensures g.Some? ==> WellFormed(g.value) && Implements(g.value, params, body)
  {
    hide JudgeBlock, Ready, Sound, Tidy, Grown, Contains, Dangling, LoopsGrow, Sim, Has, Built, Implements, Appended;
    InitialReady(params, rules.keywords);
    var context := new FunctionContext(params, rules);
    ghost var a := context.View();
    var terminal := context.BuildBlock(body);
    ghost var q := context.View();
    BuiltLoops(a, q, terminal, []);
    assert Around([]) == [];
    if context.errors || (!terminal && !rules.returnsVoid) { return None; }
    if !terminal {
      ExtendNone(a.frames);
      DestroyScope([], params, 0);
      assert [] + [params] == [params] && DestroyDown([], 0) == [] && Destroys(params) + [] == Destroys(params);
      context.CallDestructorsDown(0);
      context.Append([Ret]);
      AppendTwice(q, Emits(Destroys(params)), [Ret]);
    }
    FinishedTidy(a, q, terminal, params);
    FinishedImplements(a, q, terminal, params, body);
    g := Some(context.code);
  }

  // ----- all runs -----

  lemma EndsOnce(g: Cfg, env: Env, c: Conf, d: Conf, n: nat)
    requires Ends(g, env, c, d) && !d.At? && !Run(g, env, n, c).At?
    ensures Run(g, env, n, c) == d
  {
    var m: nat :| Run(g, env, m, c) == d;
    if m <= n {
      RunAdd(g, env, m, n - m, c);
      RunEnded(g, env, n - m, d);
    } else {
      RunAdd(g, env, n, m - n, c);
      RunEnded(g, env, m - n, Run(g, env, n, c));
    }
  }

  lemma RunningBefore(g: Cfg, env: Env, c: Conf, n: nat, m: nat)
    requires n <= m && Run(g, env, m, c).At?
    ensures Run(g, env, n, c).At?
  {
    if !Run(g, env, n, c).At? {
      RunAdd(g, env, n, m - n, c);
      RunEnded(g, env, m - n, Run(g, env, n, c));
    }
  }

  /** A machine that has ended by step n does so as the body run with fuel n + 1 says. */
  lemma EndedAsMeant(g: Cfg, params: seq<Var>, body: Block, env: Env, flag: bool, val: nat, n: nat)
    requires Implements(g, params, body) && !Run(g, env, n, Entry(params, flag, val)).At?
    ensures var r, d := ExecFunction(env, params, body, n + 1), Run(g, env, n, Entry(params, flag, val));
            (r.exit == Returned && d == Done(r.tr)) || (r.exit == Halted && d == Stopped(r.tr))
  {
    var c, r := Entry(params, flag, val), ExecFunction(env, params, body, n + 1);
    assert Does(g, env, c, r, n + 1);
    match r.exit
    case Returned => EndsOnce(g, env, c, Done(r.tr), n);
    case Halted => EndsOnce(g, env, c, Stopped(r.tr), n);
    case OutOfFuel =>
      var m: nat :| m >= n + 1 && var d := Run(g, env, m, c); d.At? && d.tr == r.tr;
      RunningBefore(g, env, c, n, m);
  }

  ghost predicate Forever(g: Cfg, env: Env, c: Conf) {
    forall n: nat :: Run(g, env, n, c).At?
  }

  /** The blocks return exactly when the body does, with the same events. */
  lemma SameReturns(g: Cfg, params: seq<Var>, body: Block, env: Env, flag: bool, val: nat, tr: Trace)
    requires Implements(g, params, body)
    ensures Ends(g, env, Entry(params, flag, val), Done(tr))
       <==> exists fuel: nat :: ExecFunction(env, params, body, fuel) == Result(Returned, tr, [])
  {
    var c := Entry(params, flag, val);
    if Ends(g, env, c, Done(tr)) {
      var n: nat :| Run(g, env, n, c) == Done(tr);
      EndedAsMeant(g, params, body, env, flag, val, n);
      assert ExecFunction(env, params, body, n + 1) == Result(Returned, tr, []);
    }
    if fuel: nat :| ExecFunction(env, params, body, fuel) == Result(Returned, tr, []) {
      assert Does(g, env, c, ExecFunction(env, params, body, fuel), fuel);
    }
  }

  /** The blocks halt exactly when the body does, with the same events. */
  lemma SameHalts(g: Cfg, params: seq<Var>, body: Block, env: Env, flag: bool, val: nat, tr: Trace)
    requires Implements(g, params, body)
    ensures Ends(g, env, Entry(params, flag, val), Stopped(tr))
       <==> exists fuel: nat :: ExecFunction(env, params, body, fuel) == Result(Halted, tr, [])
  {
    var c := Entry(params, flag, val);
    if Ends(g, env, c, Stopped(tr)) {
      var n: nat :| Run(g, env, n, c) == Stopped(tr);
      EndedAsMeant(g, params, body, env, flag, val, n);
      assert ExecFunction(env, params, body, n + 1) == Result(Halted, tr, []);
    }
    if fuel: nat :| ExecFunction(env, params, body, fuel) == Result(Halted, tr, []) {
      assert Does(g, env, c, ExecFunction(env, params, body, fuel), fuel);
    }
  }

  /** Blocks never get stuck: no run reaches "unreachable", a missing block, or the end of one. */
  lemma NeverStuck(g: Cfg, params: seq<Var>, body: Block, env: Env, flag: bool, val: nat)
    requires Implements(g, params, body)
    ensures !Ends(g, env, Entry(params, flag, val), Stuck)
  {
    if Ends(g, env, Entry(params, flag, val), Stuck) {
      var n: nat :| Run(g, env, n, Entry(params, flag, val)) == Stuck;
      EndedAsMeant(g, params, body, env, flag, val, n);
    }
  }

  /** The blocks run forever exactly when the body does. */
  lemma SameDivergence(g: Cfg, params: seq<Var>, body: Block, env: Env, flag: bool, val: nat)
    requires Implements(g, params, body)
    ensures Forever(g, env, Entry(params, flag, val))
       <==> forall fuel: nat :: ExecFunction(env, params, body, fuel).exit.OutOfFuel?
  {
    var c := Entry(params, flag, val);
    if Forever(g, env, c) {
      forall fuel: nat ensures ExecFunction(env, params, body, fuel).exit.OutOfFuel? {
        assert Does(g, env, c, ExecFunction(env, params, body, fuel), fuel);
      }
    } else {
      var n: nat :| !Run(g, env, n, c).At?;
      EndedAsMeant(g, params, body, env, flag, val, n);
      assert !ExecFunction(env, params, body, n + 1).exit.OutOfFuel?;
    }
  }

  // ----- events at every moment -----

  /** The events so far. */
  function Events(c: Conf): Trace
  {
    if c.Stuck? then [] else c.tr
  }

  lemma {:induction false} EventsGrow(g: Cfg, env: Env, n: nat, c: Conf)
    requires !Run(g, env, n, c).Stuck?
    ensures Events(c) <= Events(Run(g, env, n, c))
  {
    if n > 0 {
      if Step(g, env, c).Stuck? { RunEnded(g, env, n - 1, Stuck); }
      EventsGrow(g, env, n - 1, Step(g, env, c));
    }
  }

  lemma EventsBetween(g: Cfg, env: Env, c: Conf, n: nat, m: nat)
    requires n <= m && !Run(g, env, m, c).Stuck?
    ensures Events(Run(g, env, n, c)) <= Events(Run(g, env, m, c))
  {
    RunAdd(g, env, n, m - n, c);
    EventsGrow(g, env, m - n, Run(g, env, n, c));
  }

  lemma EventsBeforeEnd(g: Cfg, env: Env, c: Conf, n: nat, d: Conf)
    requires Ends(g, env, c, d) && (d.Done? || d.Stopped?)
    ensures Events(Run(g, env, n, c)) <= d.tr
  {
    var m: nat :| Run(g, env, m, c) == d;
    if n <= m {
      EventsBetween(g, env, c, n, m);
    } else {
      RunAdd(g, env, m, n - m, c);
      RunEnded(g, env, n - m, d);
    }
  }

  /** Whatever the blocks have done after n steps, the body does too, given fuel for n rounds. */
  lemma EventsAsMeant(g: Cfg, params: seq<Var>, body: Block, env: Env, flag: bool, val: nat, n: nat)
    requires Implements(g, params, body)
    ensures Events(Run(g, env, n, Entry(params, flag, val))) <= ExecFunction(env, params, body, n).tr
  {
    var c, r := Entry(params, flag, val), ExecFunction(env, params, body, n);
    assert Does(g, env, c, r, n);
    if r.exit.OutOfFuel? {
      var m: nat :| m >= n && var d := Run(g, env, m, c); d.At? && d.tr == r.tr;
      EventsBetween(g, env, c, n, m);
    } else {
      EventsBeforeEnd(g, env, c, n, if r.exit.Returned? then Done(r.tr) else Stopped(r.tr));
    }
  }

  /** At no moment have the blocks destroyed a variable that was not alive; once they return, none is. */
  lemma BlocksKeepLifetimes(g: Cfg, params: seq<Var>, body: Block, env: Env, flag: bool, val: nat, n: nat)
    requires Implements(g, params, body)
    ensures var c := Run(g, env, n, Entry(params, flag, val));
            && Alive(Events(c)).Some?
            && (c.Done? ==> Alive(c.tr) == Some(multiset{}))
  {
    var c := Run(g, env, n, Entry(params, flag, val));
    FunctionKeeps(env, params, body, n);
    EventsAsMeant(g, params, body, env, flag, val, n);
    AlivePrefix(Events(c), ExecFunction(env, params, body, n).tr);
    if c.Done? {
      EndedAsMeant(g, params, body, env, flag, val, n);
      FunctionKeeps(env, params, body, n + 1);
    }
  }
}
