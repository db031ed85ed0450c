/** One rule for each kind of statement: blocks of this shape do what the statement does. */
module StatementRules {

  import opened Options
  import opened StructuredCode
  import opened BasicBlocks
  import opened Simulation
  import opened StraightCode
  import opened BuilderState

  // ----- lists and scopes -----

  lemma EmptyRule(a: State)
    requires Sound(a)
    ensures Sim(a, a, false, List(Empty))
  {
    forall g, rho, env, m: Regs, fuel: nat | Linked(a.code, g, rho)
      ensures Matches(g, rho, env, Start(a, rho, m), Meaning(env, List(Empty), m.tr, fuel), fuel, OutOf(a, a, false))
    {
      assert Run(g, env, 0, Start(a, rho, m)) == Start(a, rho, m);
    }
  }

  /** Straight code that has the effect of a statement. */
  lemma StraightRule(a: State, b: State, cs: Code, job: Job)
    requires Sound(a) && Sound(b) && b.at == a.at && b.code[b.at] == a.code[a.at] + cs && Straight(cs)
    requires forall env, m: Regs, fuel :: Meaning(env, job, m.tr, fuel).exit.Normal? && Meaning(env, job, m.tr, fuel).tr == Effects(env, cs, m).tr
    ensures Sim(a, b, false, job)
  {
    forall g, rho, env, m: Regs, fuel: nat | Linked(b.code, g, rho)
      ensures Matches(g, rho, env, Start(a, rho, m), Meaning(env, job, m.tr, fuel), fuel, OutOf(a, b, false))
    {
      assert Has(b.code, a.at, a.Here(), cs);
      RunLinked(b.code, g, rho, env, a.at, a.Here(), cs, m);
      assert Run(g, env, |cs|, Start(a, rho, m)).At?;
    }
  }

  /** A statement that cannot be fallen out of, at the end of a list. */
  lemma LastRule(a: State, b: State, s: Stmt)
    requires Sound(a) && Sound(b) && Sim(a, b, true, One(s))
    ensures Sim(a, b, true, List(Cons(s, Empty)))
  {
    forall g, rho, env, m: Regs, fuel: nat | Linked(b.code, g, rho)
      ensures Matches(g, rho, env, Start(a, rho, m), Meaning(env, List(Cons(s, Empty)), m.tr, fuel), fuel, OutOf(a, b, true))
    {
      UseSim(a, b, true, One(s), g, rho, env, m, fuel);
    }
  }

  /** A statement and the statements after it. */
  lemma SequenceRule(a: State, b: State, c: State, terminal: bool, s: Stmt, rest: Block)
    requires Sound(a) && Sound(b) && Sound(c)
    requires Sim(a, b, false, One(s)) && Sim(b, c, terminal, List(rest))
    requires Contains(b.code, c.code) && LoopsGrow(b.loops, c.loops) && b.frames == Extend(a.frames, DeclaredBy(s))
    ensures Sim(a, c, terminal, List(Cons(s, rest)))
  {
    forall g, rho, env, m: Regs, fuel: nat | Linked(c.code, g, rho)
      ensures Matches(g, rho, env, Start(a, rho, m), Meaning(env, List(Cons(s, rest)), m.tr, fuel), fuel, OutOf(a, c, terminal))
    {
      LinkedPart(b.code, c.code, g, rho);
      UseSim(a, b, false, One(s), g, rho, env, m, fuel);
      var r := Exec(env, s, m.tr, fuel);
      if r.exit.Normal? {
        var n, m' := LandingRegs(g, env, Start(a, rho, m), 0, rho(b.at), b.Here(), r.tr);
        UseSim(b, c, terminal, List(rest), g, rho, env, m', fuel);
        var r' := ExecBlock(env, rest, r.tr, fuel);
        ExtendTwice(a.frames, r.decls, r'.decls);
        Prepend(g, rho, env, Start(a, rho, m), n, r', fuel, fuel, OutOf(b, c, terminal));
      } else {
        MatchesGrow(g, rho, env, Start(a, rho, m), r, fuel, OutOf(a, b, false), OutOf(a, c, terminal));
      }
    }
  }

  /** The registers of a machine that has landed somewhere. */
  lemma LandingRegs(g: Cfg, env: Env, c: Conf, k: nat, b: BlockId, i: nat, tr: Trace) returns (n: nat, m: Regs)
    requires Lands(g, env, c, k, b, i, tr)
    ensures n >= k && m.tr == tr && Run(g, env, n, c) == Spot(b, i, m)
  {
    n :| n >= k && var d := Run(g, env, n, c); d.At? && d.b == b && d.i == i && d.tr == tr;
    var d := Run(g, env, n, c);
    m := Regs(d.tr, d.flag, d.val);
  }

  /** Leaving a scope on any path: the code that falls out of it, and the jumps out of it, destroy its variables. */
  lemma LeaveMatches(g: Cfg, rho: Link, env: Env, c: Conf, r: Result, fuel: nat, inner: Out, outer: Out, vars: seq<Var>,
                     code: Cfg, cs: Code)
    requires outer.frames != [] && inner.frames == outer.frames + [vars] && inner.loops == outer.loops
    requires forall k :: 0 <= k < |outer.loops| ==> outer.loops[k].size <= |outer.frames|
    requires Matches(g, rho, env, c, r, fuel, inner)
    requires r.exit.Normal? && !inner.terminal ==>
               && !outer.terminal && outer.b == inner.b && outer.i == inner.i + |cs| && Linked(code, g, rho)
               && Has(code, inner.b, inner.i, cs) && cs == Emits(Destroys(vars + r.decls))
    ensures Matches(g, rho, env, c, Leave(r, vars), fuel, outer)
  {
    ExtendScope(outer.frames, vars, r.decls);
    ExtendNone(outer.frames);
    match r.exit
    case Normal =>
      var n, m := LandingRegs(g, env, c, 0, rho(inner.b), inner.i, r.tr);
      RunLinked(code, g, rho, env, inner.b, inner.i, cs, m);
      EffectsEmits(env, Destroys(vars + r.decls), m);
      RunAdd(g, env, n, |cs|, c);
      assert Run(g, env, n + |cs|, c).At?;
    case Broke(t) => DestroyScopeAssoc(outer.frames, r.tr, vars + r.decls,
               outer.loops[Target(outer.loops, t).value].size);
    case Continued(t) => DestroyScopeAssoc(outer.frames, r.tr, vars + r.decls,
                   outer.loops[Target(outer.loops, t).value].size);
    case Returned => DestroyScopeAssoc(outer.frames, r.tr, vars + r.decls, 0);
    case Halted =>
    case OutOfFuel =>
  }

  lemma DestroyScopeAssoc(f: Frames, tr: Trace, vs: seq<Var>, depth: nat)
    requires depth <= |f|
    ensures tr + DestroyDown(f + [vs], depth) == tr + Destroys(vs) + DestroyDown(f, depth)
  {
    DestroyScope(f, vs, depth);
  }

  /** What was appended to a block is there. */
  lemma HasAppended(code: Cfg, b: BlockId, before: Code, cs: Code)
    requires b in code && code[b] == before + cs
    ensures Has(code, b, |before|, cs) && |code[b]| == |before| + |cs|
  {
  }

  lemma ScopeMatches(a: State, p: State, q: State, b: State, terminal: bool, body: Block, g: Cfg, rho: Link, env: Env,
                     m: Regs, fuel: nat)
    requires Sound(a) && Sound(b) && p == a.(frames := a.frames + [[]]) && Sound(q)
    requires Sim(p, q, terminal, List(body))
    requires Contains(q.code, b.code) && b.at == q.at && b.loops == q.loops
    requires !terminal ==> b.code[b.at] == q.code[q.at] + Emits(Destroys(DeclaredIn(body)))
    requires terminal ==> b.code == q.code
    requires forall k :: 0 <= k < |q.loops| ==> q.loops[k].size <= |a.frames|
    requires Linked(b.code, g, rho)
    ensures Matches(g, rho, env, Start(a, rho, m), Meaning(env, Nested(body), m.tr, fuel), fuel, OutOf(a, b, terminal))
  {
    hide Sound, Sim, Contains, Linked, Matches, Has, Emits, Destroys;
    SoundFacts(a);
    SoundFacts(q);
    SoundFacts(b);
    LinkedPart(q.code, b.code, g, rho);
    UseSim(p, q, terminal, List(body), g, rho, env, m, fuel);
    var r := ExecBlock(env, body, m.tr, fuel);
    assert [] + r.decls == r.decls;
    var cs := Emits(Destroys([] + r.decls));
    if r.exit.Normal? && !terminal { HasAppended(b.code, q.at, q.code[q.at], cs); }
    LeaveMatches(g, rho, env, Start(a, rho, m), r, fuel, OutOf(p, q, terminal), OutOf(a, b, terminal), [], b.code, cs);
  }

  /** A block with its own scope: its statements, then the destruction of its variables if control gets there. */
  lemma ScopeRule(a: State, p: State, q: State, b: State, terminal: bool, body: Block)
    requires Sound(a) && Sound(b) && p == a.(frames := a.frames + [[]]) && Sound(q)
    requires Sim(p, q, terminal, List(body))
    requires Contains(q.code, b.code) && b.at == q.at && b.loops == q.loops
    requires !terminal ==> b.code[b.at] == q.code[q.at] + Emits(Destroys(DeclaredIn(body)))
    requires terminal ==> b.code == q.code
    requires forall k :: 0 <= k < |q.loops| ==> q.loops[k].size <= |a.frames|
    ensures Sim(a, b, terminal, Nested(body))
  {
    hide Contains, Linked, Matches;
    forall g, rho, env, m: Regs, fuel: nat | Linked(b.code, g, rho)
      ensures Matches(g, rho, env, Start(a, rho, m), Meaning(env, Nested(body), m.tr, fuel), fuel, OutOf(a, b, terminal))
    {
      ScopeMatches(a, p, q, b, terminal, body, g, rho, env, m, fuel);
    }
  }

  /** Code that ends with a jump, if it can be fallen out of, continues where the jump leads. */
  lemma JoinMatches(code: Cfg, g: Cfg, rho: Link, env: Env, c: Conf, r: Result, fuel: nat, inner: Out, outer: Out)
    requires inner.frames != [] && outer.frames == inner.frames && LoopsGrow(inner.loops, outer.loops)
    requires Matches(g, rho, env, c, r, fuel, inner) && Linked(code, g, rho)
    requires !inner.terminal ==> !outer.terminal && outer.i == 0 && Has(code, inner.b, inner.i, [Br(outer.b)])
    ensures Matches(g, rho, env, c, r, fuel, outer)
  {
    if r.exit.Normal? {
      var n, m := LandingRegs(g, env, c, 0, rho(inner.b), inner.i, r.tr);
      RunJump(code, g, rho, env, inner.b, inner.i, outer.b, m);
      RunAdd(g, env, n, 1, c);
      assert Run(g, env, n + 1, c).At?;
    } else {
      MatchesGrow(g, rho, env, c, r, fuel, inner, outer);
    }
  }

  // ----- if -----

  lemma IfMatches(a: State, p: State, q: State, f: State, t: bool, choice: IfOperator, g: Cfg, rho: Link, env: Env,
                  m: Regs, fuel: nat)
    requires Sound(a) && Sound(p) && Sound(q) && Sound(f) && choice.alternative.NoElse?
    requires Has(f.code, a.at, a.Here(), CondCode(choice.cond) + [CondBr(p.at, f.at)])
    requires p.code[p.at] == [] && f.code[f.at] == [] && p.frames == a.frames
    requires Sim(p, q, t, Nested(choice.body))
    requires Contains(q.code, f.code) && LoopsGrow(q.loops, f.loops)
    requires !t ==> Has(f.code, q.at, q.Here(), [Br(f.at)])
    requires Linked(f.code, g, rho)
    ensures Matches(g, rho, env, Start(a, rho, m), Meaning(env, Choice(choice), m.tr, fuel), fuel, OutOf(a, f, false))
  {
    hide Sound, Sim, Contains, Linked, Has, LoopsGrow, CondCode;
    SoundFacts(a);
    SoundFacts(p);
    SoundFacts(q);
    SoundFacts(f);
    var n := |CondCode(choice.cond)| + 1;
    var m' := Regs(After(choice.cond, m.tr), Holds(env, choice.cond, m.tr), m.val);
    RunCondition(f.code, g, rho, env, a.at, a.Here(), choice.cond, p.at, f.at, m);
    if Holds(env, choice.cond, m.tr) {
      LinkedPart(q.code, f.code, g, rho);
      UseSim(p, q, t, Nested(choice.body), g, rho, env, m', fuel);
      var r := ExecScope(env, [], choice.body, m'.tr, fuel);
      JoinMatches(f.code, g, rho, env, Start(p, rho, m'), r, fuel, OutOf(p, q, t), OutOf(a, f, false));
      Prepend(g, rho, env, Start(a, rho, m), n, r, fuel, fuel, OutOf(a, f, false));
    }
  }

  lemma IfRule(a: State, p: State, q: State, f: State, t: bool, choice: IfOperator)
    requires Sound(a) && Sound(p) && Sound(q) && Sound(f) && choice.alternative.NoElse?
    requires Has(f.code, a.at, a.Here(), CondCode(choice.cond) + [CondBr(p.at, f.at)])
    requires p.code[p.at] == [] && f.code[f.at] == [] && p.frames == a.frames
    requires Sim(p, q, t, Nested(choice.body))
    requires Contains(q.code, f.code) && LoopsGrow(q.loops, f.loops)
    requires !t ==> Has(f.code, q.at, q.Here(), [Br(f.at)])
    ensures Sim(a, f, false, Choice(choice))
  {
    hide Contains, Linked, Matches, Has, LoopsGrow, CondCode;
    forall g, rho, env, m: Regs, fuel: nat | Linked(f.code, g, rho)
      ensures Matches(g, rho, env, Start(a, rho, m), Meaning(env, Choice(choice), m.tr, fuel), fuel, OutOf(a, f, false))
    {
      IfMatches(a, p, q, f, t, choice, g, rho, env, m, fuel);
    }
  }

  /** The alternative as a piece of syntax of its own. */
  function AlternativeJob(alternative: Alternative): Job
    requires !alternative.NoElse?
  {
    if alternative.Else? then Nested(alternative.body) else Choice(alternative.choice)
  }

  lemma IfElseMatches(a: State, p: State, q: State, p': State, q': State, f: State, e: BlockId, t: bool, t': bool,
                      choice: IfOperator, g: Cfg, rho: Link, env: Env, m: Regs, fuel: nat)
    requires Sound(a) && Sound(p) && Sound(q) && Sound(p') && Sound(q') && Sound(f) && !choice.alternative.NoElse?
    requires Has(f.code, a.at, a.Here(), CondCode(choice.cond) + [CondBr(p.at, p'.at)])
    requires p.code[p.at] == [] && p'.code[p'.at] == [] && p.frames == a.frames && p'.frames == a.frames
    requires Sim(p, q, t, Nested(choice.body)) && Sim(p', q', t', AlternativeJob(choice.alternative))
    requires Contains(q.code, f.code) && LoopsGrow(q.loops, f.loops)
    requires Contains(q'.code, f.code) && LoopsGrow(q'.loops, f.loops)
    requires !t ==> Has(f.code, q.at, q.Here(), [Br(e)])
    requires !t' ==> Has(f.code, q'.at, q'.Here(), [Br(e)])
    requires !(t && t') ==> f.at == e && f.code[e] == []
    requires Linked(f.code, g, rho)
    ensures Matches(g, rho, env, Start(a, rho, m), Meaning(env, Choice(choice), m.tr, fuel), fuel, OutOf(a, f, t && t'))
  {
    hide Sound, Sim, Contains, Linked, Matches, Has, LoopsGrow;
    SoundFacts(a);
    SoundFacts(p);
    SoundFacts(q);
    SoundFacts(p');
    SoundFacts(q');
    SoundFacts(f);
    var n := |CondCode(choice.cond)| + 1;
    var m' := Regs(After(choice.cond, m.tr), Holds(env, choice.cond, m.tr), m.val);
    RunCondition(f.code, g, rho, env, a.at, a.Here(), choice.cond, p.at, p'.at, m);
    var r := ExecIf(env, choice, m.tr, fuel);
    if Holds(env, choice.cond, m.tr) {
      LinkedPart(q.code, f.code, g, rho);
      UseSim(p, q, t, Nested(choice.body), g, rho, env, m', fuel);
      JoinMatches(f.code, g, rho, env, Start(p, rho, m'), r, fuel, OutOf(p, q, t), OutOf(a, f, t && t'));
    } else {
      LinkedPart(q'.code, f.code, g, rho);
      UseSim(p', q', t', AlternativeJob(choice.alternative), g, rho, env, m', fuel);
      JoinMatches(f.code, g, rho, env, Start(p', rho, m'), r, fuel, OutOf(p', q', t'), OutOf(a, f, t && t'));
    }
    Prepend(g, rho, env, Start(a, rho, m), n, r, fuel, fuel, OutOf(a, f, t && t'));
  }

  lemma IfElseRule(a: State, p: State, q: State, p': State, q': State, f: State, e: BlockId, t: bool, t': bool,
                   choice: IfOperator)
    requires Sound(a) && Sound(p) && Sound(q) && Sound(p') && Sound(q') && Sound(f) && !choice.alternative.NoElse?
    requires Has(f.code, a.at, a.Here(), CondCode(choice.cond) + [CondBr(p.at, p'.at)])
    requires p.code[p.at] == [] && p'.code[p'.at] == [] && p.frames == a.frames && p'.frames == a.frames
    requires Sim(p, q, t, Nested(choice.body)) && Sim(p', q', t', AlternativeJob(choice.alternative))
    requires Contains(q.code, f.code) && LoopsGrow(q.loops, f.loops)
    requires Contains(q'.code, f.code) && LoopsGrow(q'.loops, f.loops)
    requires !t ==> Has(f.code, q.at, q.Here(), [Br(e)])
    requires !t' ==> Has(f.code, q'.at, q'.Here(), [Br(e)])
    requires !(t && t') ==> f.at == e && f.code[e] == []
    ensures Sim(a, f, t && t', Choice(choice))
  {
    hide Contains, Linked, Matches, Has, LoopsGrow;
    forall g, rho, env, m: Regs, fuel: nat | Linked(f.code, g, rho)
      ensures Matches(g, rho, env, Start(a, rho, m), Meaning(env, Choice(choice), m.tr, fuel), fuel, OutOf(a, f, t && t'))
    {
      IfElseMatches(a, p, q, p', q', f, e, t, t', choice, g, rho, env, m, fuel);
    }
  }

  // ----- jumps -----

  lemma ReachJump(g: Cfg, env: Env, c: Conf, n: nat, b: BlockId, i: nat, m: Regs, k: nat)
    requires n >= k && Run(g, env, n, c) == Spot(b, i, m)
    ensures Lands(g, env, c, k, b, i, m.tr)
  {
    var d := Run(g, env, n, c);
    assert n >= k && d.At? && d.b == b && d.i == i && d.tr == m.tr;
  }

  /** Destroying everything above the target's depth and jumping to it. */
  lemma JumpRule(a: State, f: State, k: nat, to: BlockId, s: Stmt)
    requires Sound(a) && Sound(f) && (s.Break? || s.Continue?)
    requires Target(f.loops, s.target) == Some(k)
    requires s.Break? ==> f.loops[k].breaks > 0 && to == f.loops[k].brk
    requires s.Continue? ==> f.loops[k].continues > 0 && f.loops[k].cont == Some(to)
    requires Has(f.code, a.at, a.Here(), Emits(DestroyDown(a.frames, f.loops[k].size)) + [Br(to)])
    ensures Sim(a, f, true, One(s))
  {
    forall g, rho, env, m: Regs, fuel: nat | Linked(f.code, g, rho)
      ensures Matches(g, rho, env, Start(a, rho, m), Meaning(env, One(s), m.tr, fuel), fuel, OutOf(a, f, true))
    {
      JumpMatches(f.code, g, rho, env, a.at, a.Here(), DestroyDown(a.frames, f.loops[k].size), to, m);
      ExtendNone(a.frames);
    }
  }

  lemma JumpMatches(code: Cfg, g: Cfg, rho: Link, env: Env, b: BlockId, i: nat, ds: Trace, to: BlockId, m: Regs)
    requires Linked(code, g, rho) && Has(code, b, i, Emits(ds) + [Br(to)])
    ensures Lands(g, env, Spot(rho(b), i, m), 1, rho(to), 0, m.tr + ds)
  {
    RunThenJump(code, g, rho, env, b, i, Emits(ds), to, m);
    EffectsEmits(env, ds, m);
    ReachJump(g, env, Spot(rho(b), i, m), |Emits(ds)| + 1, rho(to), 0, Regs(m.tr + ds, m.flag, m.val), 1);
  }

  lemma ReturnMatches(a: State, f: State, result: Option<Expr>, g: Cfg, rho: Link, env: Env, m: Regs, fuel: nat)
    requires Sound(a) && Sound(f)
    requires Has(f.code, a.at, a.Here(), (if result.Some? then AfterCode(result.value) else []) + Emits(DestroyDown(a.frames, 0)) + [Ret])
    requires Linked(f.code, g, rho)
    ensures Matches(g, rho, env, Start(a, rho, m), Meaning(env, One(Return(result)), m.tr, fuel), fuel, OutOf(a, f, true))
  {
    hide Sound, Linked, Has, DestroyDown, AfterCode;
    SoundFacts(a);
    SoundFacts(f);
    var cs := if result.Some? then AfterCode(result.value) else [];
    var ds := Emits(DestroyDown(a.frames, 0));
    var m' := m.(tr := if result.Some? then After(result.value, m.tr) else m.tr);
    if result.Some? { AfterEffects(env, result.value, m); }
    EffectsAppend(env, cs, ds, m);
    EffectsEmits(env, DestroyDown(a.frames, 0), m');
    ExtendNone(a.frames);
    RunThenEnd(f.code, g, rho, env, a.at, a.Here(), cs + ds, Ret, m);
  }

  lemma ReturnRule(a: State, f: State, result: Option<Expr>)
    requires Sound(a) && Sound(f)
    requires Has(f.code, a.at, a.Here(), (if result.Some? then AfterCode(result.value) else []) + Emits(DestroyDown(a.frames, 0)) + [Ret])
    ensures Sim(a, f, true, One(Return(result)))
  {
    hide Linked, Matches, Has, AfterCode, DestroyDown;
    forall g, rho, env, m: Regs, fuel: nat | Linked(f.code, g, rho)
      ensures Matches(g, rho, env, Start(a, rho, m), Meaning(env, One(Return(result)), m.tr, fuel), fuel, OutOf(a, f, true))
    {
      ReturnMatches(a, f, result, g, rho, env, m, fuel);
    }
  }

  /** Straight code and an instruction that ends the run. */
  lemma RunThenEnd(code: Cfg, g: Cfg, rho: Link, env: Env, b: BlockId, i: nat, cs: Code, last: Instr, m: Regs)
    requires Linked(code, g, rho) && Has(code, b, i, cs + [last]) && Straight(cs) && (last.Ret? || last.CallHalt?)
    ensures var tr := Effects(env, cs, m).tr; Ends(g, env, Spot(rho(b), i, m), if last.Ret? then Done(tr) else Stopped(tr))
  {
    HasSplit(code, b, i, cs, [last]);
    RunLinked(code, g, rho, env, b, i, cs, m);
    var m' := Effects(env, cs, m);
    var c, d := Spot(rho(b), i, m), Spot(rho(b), i + |cs|, m');
    LinkedHas(code, g, rho, b, i + |cs|, [last]);
    assert g[rho(b)][i + |cs|] == g[rho(b)][i + |cs|..i + |cs| + 1][0];
    assert Run(g, env, 1, d) == Run(g, env, 0, Step(g, env, d));
    RunAdd(g, env, |cs|, 1, c);
    assert Run(g, env, |cs| + 1, c) == if last.Ret? then Done(m'.tr) else Stopped(m'.tr);
  }

  lemma HaltRule(a: State, f: State)
    requires Sound(a) && Sound(f) && Has(f.code, a.at, a.Here(), [CallHalt, Unreachable])
    ensures Sim(a, f, true, One(Halt))
  {
    forall g, rho, env, m: Regs, fuel: nat | Linked(f.code, g, rho)
      ensures Matches(g, rho, env, Start(a, rho, m), Meaning(env, One(Halt), m.tr, fuel), fuel, OutOf(a, f, true))
    {
      assert [CallHalt, Unreachable] == [CallHalt] + [Unreachable];
      HasSplit(f.code, a.at, a.Here(), [CallHalt], [Unreachable]);
      assert [] + [CallHalt] == [CallHalt];
      RunThenEnd(f.code, g, rho, env, a.at, a.Here(), [], CallHalt, m);
    }
  }

  lemma HaltIfMatches(a: State, f: State, yes: BlockId, c: Expr, g: Cfg, rho: Link, env: Env, m: Regs, fuel: nat)
    requires Sound(a) && Sound(f) && f.code[f.at] == []
    requires Has(f.code, a.at, a.Here(), CondCode(c) + [CondBr(yes, f.at)])
    requires Has(f.code, yes, 0, [CallHalt, Unreachable])
    requires Linked(f.code, g, rho)
    ensures Matches(g, rho, env, Start(a, rho, m), Meaning(env, One(HaltIf(c)), m.tr, fuel), fuel, OutOf(a, f, false))
  {
    hide Sound, Linked, Has, Run, CondCode;
    SoundFacts(a);
    SoundFacts(f);
    var n := |CondCode(c)| + 1;
    RunCondition(f.code, g, rho, env, a.at, a.Here(), c, yes, f.at, m);
    if Holds(env, c, m.tr) {
      assert [CallHalt, Unreachable] == [CallHalt] + [Unreachable];
      HasSplit(f.code, yes, 0, [CallHalt], [Unreachable]);
      assert [] + [CallHalt] == [CallHalt];
      RunThenEnd(f.code, g, rho, env, yes, 0, [], CallHalt, Regs(After(c, m.tr), true, m.val));
      EndsAfter(g, env, Start(a, rho, m), n, Stopped(After(c, m.tr)));
    }
  }

  lemma HaltIfRule(a: State, f: State, yes: BlockId, c: Expr)
    requires Sound(a) && Sound(f) && f.code[f.at] == []
    requires Has(f.code, a.at, a.Here(), CondCode(c) + [CondBr(yes, f.at)])
    requires Has(f.code, yes, 0, [CallHalt, Unreachable])
    ensures Sim(a, f, false, One(HaltIf(c)))
  {
    hide Linked, Matches, Has, CondCode;
    forall g, rho, env, m: Regs, fuel: nat | Linked(f.code, g, rho)
      ensures Matches(g, rho, env, Start(a, rho, m), Meaning(env, One(HaltIf(c)), m.tr, fuel), fuel, OutOf(a, f, false))
    {
      HaltIfMatches(a, f, yes, c, g, rho, env, m, fuel);
    }
  }

  // ----- loops -----

  /** The blocks of a loop: where it tests, where its body starts, where "continue" leads, where it is left to. */
  datatype LoopBlocks = LoopBlocks(test: BlockId, body: BlockId, cont: BlockId, exit: BlockId)

  ghost predicate TestGoes(g: Cfg, rho: Link, env: Env, l: LoopBlocks, test: Option<Expr>) {
    forall m: Regs ::
      if test.None? then Lands(g, env, Spot(rho(l.test), 0, m), 0, rho(l.body), 0, m.tr)
      else Lands(g, env, Spot(rho(l.test), 0, m), 0, rho(if Holds(env, test.value, m.tr) then l.body else l.exit), 0, After(test.value, m.tr))
  }

  ghost predicate StepGoes(g: Cfg, rho: Link, env: Env, l: LoopBlocks, step: seq<Expr>) {
    forall m: Regs :: Lands(g, env, Spot(rho(l.cont), 0, m), 0, rho(l.test), 0, AfterAll(step, m.tr))
  }

  ghost predicate BodyGoes(g: Cfg, rho: Link, env: Env, l: LoopBlocks, body: Block, inner: Out)
    requires inner.frames != []
  {
    forall m: Regs, fuel :: Matches(g, rho, env, Spot(rho(l.body), 0, m), ExecScope(env, [], body, m.tr, fuel), fuel, inner)
  }

  ghost predicate BodyEndGoes(g: Cfg, rho: Link, env: Env, l: LoopBlocks, inner: Out) {
    !inner.terminal ==> forall m: Regs :: Lands(g, env, Spot(rho(inner.b), inner.i, m), 1, rho(l.cont), 0, m.tr)
  }

  /** The frame of the loop is the innermost one while its body is built. */
  ghost predicate LoopFramed(inner: Out, outer: Out, l: LoopBlocks, name: Option<Label>) {
    && inner.loops != [] && outer.loops == inner.loops[..|inner.loops| - 1]
    && inner.frames == outer.frames && outer.frames != []
    && var f := inner.loops[|inner.loops| - 1];
    && f.name == name && f.brk == l.exit && f.cont == Some(l.cont) && f.size == |outer.frames|
    && (name.Some? ==> FirstNamed(outer.loops, name).None?)
    && (f.breaks > 0 ==> !outer.terminal)
    && (!outer.terminal ==> outer.b == l.exit && outer.i == 0)
  }

  /** A jump out of the body is one of the loop itself, or goes on outwards. */
  lemma LoopJump(inner: Out, outer: Out, l: LoopBlocks, name: Option<Label>, t: Option<Label>)
    requires LoopFramed(inner, outer, l, name)
    ensures Target(inner.loops, t) == if t.None? || t == name then Some(|outer.loops|) else Target(outer.loops, t)
  {
    var f := inner.loops[|inner.loops| - 1];
    assert inner.loops == outer.loops + [f];
    TargetPush(outer.loops, f, t);
  }

  lemma PassOutwards(g: Cfg, rho: Link, env: Env, c: Conf, r: Result, fuel: nat, inner: Out, outer: Out, l: LoopBlocks,
                     name: Option<Label>)
    requires LoopFramed(inner, outer, l, name) && Matches(g, rho, env, c, r, fuel, inner)
    requires !BreaksLoop(r.exit, name) && !ContinuesLoop(r.exit, name)
    ensures Matches(g, rho, env, c, r, fuel, outer)
  {
    if r.exit.Broke? || r.exit.Continued? { LoopJump(inner, outer, l, name, r.exit.target); }
  }

  /** After a pass through the body that goes on, the machine is at the block for "continue", some steps later. */
  lemma BodyContinues(g: Cfg, rho: Link, env: Env, c: Conf, r: Result, fuel: nat, inner: Out, outer: Out, l: LoopBlocks,
                      name: Option<Label>)
    requires LoopFramed(inner, outer, l, name) && Matches(g, rho, env, c, r, fuel, inner)
    requires BodyEndGoes(g, rho, env, l, inner) && ContinuesLoop(r.exit, name) && r.decls == []
    ensures Lands(g, env, c, 1, rho(l.cont), 0, r.tr)
  {
    if r.exit.Normal? {
      var n, m := LandingRegs(g, env, c, 0, rho(inner.b), inner.i, r.tr);
      LandsAfter(g, env, c, n, 1, rho(l.cont), 0, r.tr);
      LandsFewer(g, env, c, n + 1, 1, rho(l.cont), 0, r.tr);
    } else {
      LoopJump(inner, outer, l, name, r.exit.target);
      ExtendNone(outer.frames);
      assert r.tr + [] == r.tr;
    }
  }

  lemma BodyBreaks(g: Cfg, rho: Link, env: Env, c: Conf, r: Result, fuel: nat, inner: Out, outer: Out, l: LoopBlocks,
                   name: Option<Label>)
    requires LoopFramed(inner, outer, l, name) && Matches(g, rho, env, c, r, fuel, inner)
    requires BreaksLoop(r.exit, name) && r.decls == []
    ensures Matches(g, rho, env, c, Ended(Normal, r.tr), fuel, outer)
  {
    LoopJump(inner, outer, l, name, r.exit.target);
    ExtendNone(outer.frames);
    assert r.tr + [] == r.tr;
    LandsFewer(g, env, c, 1, 0, rho(l.exit), 0, r.tr);
  }

  lemma StillRuns(g: Cfg, rho: Link, env: Env, c: Conf, out: Out)
    requires c.At? && out.frames != []
    ensures Matches(g, rho, env, c, Ended(OutOfFuel, c.tr), 0, out)
  {
    assert Run(g, env, 0, c) == c;
  }

  lemma ArrivesAt(g: Cfg, rho: Link, env: Env, c: Conf, tr: Trace, fuel: nat, out: Out)
    requires out.frames != [] && !out.terminal && Lands(g, env, c, 0, rho(out.b), out.i, tr)
    ensures Matches(g, rho, env, c, Ended(Normal, tr), fuel, out)
  {
  }

  /** After a pass that goes on, the machine comes back to the test some steps later, which pays for one round. */
  lemma RoundMatches(g: Cfg, rho: Link, env: Env, c: Conf, r: Result, fuel: nat, inner: Out, outer: Out, l: LoopBlocks,
                     name: Option<Label>, step: seq<Expr>) returns (n: nat, m: Regs)
    requires LoopFramed(inner, outer, l, name) && Matches(g, rho, env, c, r, fuel, inner)
    requires BodyEndGoes(g, rho, env, l, inner) && ContinuesLoop(r.exit, name) && r.decls == []
    requires StepGoes(g, rho, env, l, step)
    ensures n >= 1 && Run(g, env, n, c) == Spot(rho(l.test), 0, m) && m.tr == AfterAll(step, r.tr)
  {
    hide Matches, Lands, LoopFramed, BodyEndGoes;
    BodyContinues(g, rho, env, c, r, fuel, inner, outer, l, name);
    var n1, m1 := LandingRegs(g, env, c, 1, rho(l.cont), 0, r.tr);
    var n2, m2 := LandingRegs(g, env, Spot(rho(l.cont), 0, m1), 0, rho(l.test), 0, AfterAll(step, r.tr));
    RunAdd(g, env, n1, n2, c);
    n, m := n1 + n2, m2;
  }

  /** Where the test leads if it holds. */
  lemma TestPasses(g: Cfg, rho: Link, env: Env, l: LoopBlocks, test: Option<Expr>, m: Regs) returns (n: nat, m': Regs)
    requires TestGoes(g, rho, env, l, test) && (test.Some? ==> Holds(env, test.value, m.tr))
    ensures Run(g, env, n, Spot(rho(l.test), 0, m)) == Spot(rho(l.body), 0, m')
    ensures m'.tr == if test.Some? then After(test.value, m.tr) else m.tr
  {
    hide Lands;
    n, m' := LandingRegs(g, env, Spot(rho(l.test), 0, m), 0, rho(l.body), 0,
                         if test.Some? then After(test.value, m.tr) else m.tr);
  }

  lemma TestFails(g: Cfg, rho: Link, env: Env, l: LoopBlocks, test: Option<Expr>, m: Regs, fuel: nat, outer: Out)
    requires TestGoes(g, rho, env, l, test) && test.Some? && !Holds(env, test.value, m.tr)
    requires outer.frames != [] && !outer.terminal && outer.b == l.exit && outer.i == 0
    ensures Matches(g, rho, env, Spot(rho(l.test), 0, m), Ended(Normal, After(test.value, m.tr)), fuel, outer)
  {
    hide Lands;
    ArrivesAt(g, rho, env, Spot(rho(l.test), 0, m), After(test.value, m.tr), fuel, outer);
  }

  lemma FramedFacts(inner: Out, outer: Out, l: LoopBlocks, name: Option<Label>)
    requires LoopFramed(inner, outer, l, name)
    ensures outer.frames != [] && inner.frames != [] && (!outer.terminal ==> outer.b == l.exit && outer.i == 0)
  {
  }

  lemma UseBody(g: Cfg, rho: Link, env: Env, l: LoopBlocks, body: Block, inner: Out, m: Regs, fuel: nat)
    requires inner.frames != [] && BodyGoes(g, rho, env, l, body, inner)
    ensures Matches(g, rho, env, Spot(rho(l.body), 0, m), ExecScope(env, [], body, m.tr, fuel), fuel, inner)
  {
  }

  /** One pass of an iteration. */
  lemma IterateOnce(env: Env, name: Option<Label>, test: Option<Expr>, step: seq<Expr>, body: Block, tr: Trace,
                    fuel: nat)
    ensures var tr' := if test.Some? then After(test.value, tr) else tr;
            var r := ExecScope(env, [], body, tr', fuel);
            Iterate(env, name, test, step, body, tr, fuel) ==
              if fuel == 0 then Ended(OutOfFuel, tr)
              else if test.Some? && !Holds(env, test.value, tr) then Ended(Normal, tr')
              else if BreaksLoop(r.exit, name) then Ended(Normal, r.tr)
              else if ContinuesLoop(r.exit, name) then Iterate(env, name, test, step, body, AfterAll(step, r.tr), fuel - 1)
              else r
  {
    hide ExecScope;
  }

  /** A loop made of such blocks iterates like the source loop, for ever if need be. */
  lemma {:induction false} LoopMatches(g: Cfg, rho: Link, env: Env, l: LoopBlocks, name: Option<Label>,
                                       test: Option<Expr>, step: seq<Expr>, body: Block, inner: Out, outer: Out,
                                       m: Regs, fuel: nat)
    requires LoopFramed(inner, outer, l, name) && (test.Some? ==> !outer.terminal)
    requires TestGoes(g, rho, env, l, test) && StepGoes(g, rho, env, l, step)
    requires BodyGoes(g, rho, env, l, body, inner) && BodyEndGoes(g, rho, env, l, inner)
    ensures Matches(g, rho, env, Spot(rho(l.test), 0, m), Iterate(env, name, test, step, body, m.tr, fuel), fuel, outer)
    decreases fuel
  {
    FramedFacts(inner, outer, l, name);
    hide Matches, Lands, Run, LoopFramed, TestGoes, StepGoes, BodyGoes, BodyEndGoes, Iterate, ExecScope, BreaksLoop,
         ContinuesLoop, After, AfterAll, Holds;
    IterateOnce(env, name, test, step, body, m.tr, fuel);
    var c := Spot(rho(l.test), 0, m);
    if fuel == 0 {
      StillRuns(g, rho, env, c, outer);
    } else if test.Some? && !Holds(env, test.value, m.tr) {
      TestFails(g, rho, env, l, test, m, fuel, outer);
    } else {
      var n, m' := TestPasses(g, rho, env, l, test, m);
      var c', r := Spot(rho(l.body), 0, m'), ExecScope(env, [], body, m'.tr, fuel);
      UseBody(g, rho, env, l, body, inner, m', fuel);
      if BreaksLoop(r.exit, name) {
        BodyBreaks(g, rho, env, c', r, fuel, inner, outer, l, name);
        Prepend(g, rho, env, c, n, Ended(Normal, r.tr), fuel, fuel, outer);
      } else if ContinuesLoop(r.exit, name) {
        var k, m1 := RoundMatches(g, rho, env, c', r, fuel, inner, outer, l, name, step);
        LoopMatches(g, rho, env, l, name, test, step, body, inner, outer, m1, fuel - 1);
        var r' := Iterate(env, name, test, step, body, m1.tr, fuel - 1);
        Prepend(g, rho, env, c', k, r', fuel - 1, fuel, outer);
        Prepend(g, rho, env, c, n, r', fuel, fuel, outer);
      } else {
        PassOutwards(g, rho, env, c', r, fuel, inner, outer, l, name);
        Prepend(g, rho, env, c, n, r, fuel, fuel, outer);
      }
    }
  }

  lemma JumpLands(code: Cfg, g: Cfg, rho: Link, env: Env, b: BlockId, i: nat, to: BlockId, m: Regs)
    requires Linked(code, g, rho) && Has(code, b, i, [Br(to)])
    ensures Lands(g, env, Spot(rho(b), i, m), 1, rho(to), 0, m.tr)
  {
    RunJump(code, g, rho, env, b, i, to, m);
    ReachJump(g, env, Spot(rho(b), i, m), 1, rho(to), 0, m, 1);
  }

  lemma StayLands(g: Cfg, env: Env, b: BlockId, i: nat, m: Regs)
    ensures Lands(g, env, Spot(b, i, m), 0, b, i, m.tr)
  {
    var c := Spot(b, i, m);
    assert Run(g, env, 0, c) == c;
    ReachJump(g, env, c, 0, b, i, m, 0);
  }

  lemma ConditionLands(code: Cfg, g: Cfg, rho: Link, env: Env, b: BlockId, i: nat, c: Expr, yes: BlockId, no: BlockId,
                       m: Regs)
    requires Linked(code, g, rho) && Has(code, b, i, CondCode(c) + [CondBr(yes, no)])
    ensures Lands(g, env, Spot(rho(b), i, m), 0, rho(if Holds(env, c, m.tr) then yes else no), 0, After(c, m.tr))
  {
    RunCondition(code, g, rho, env, b, i, c, yes, no, m);
    ReachJump(g, env, Spot(rho(b), i, m), |CondCode(c)| + 1, rho(if Holds(env, c, m.tr) then yes else no), 0,
              Regs(After(c, m.tr), Holds(env, c, m.tr), m.val), 0);
  }

  /** The code of a loop's blocks. */
  ghost predicate LoopCode(code: Cfg, l: LoopBlocks, test: Option<Expr>, step: seq<Expr>) {
    && (if test.Some? then Has(code, l.test, 0, CondCode(test.value) + [CondBr(l.body, l.exit)])
        else l.test == l.body || Has(code, l.test, 0, [Br(l.body)]))
    && ((l.cont == l.test && step == []) || Has(code, l.cont, 0, AfterAllCode(step) + [Br(l.test)]))
  }

  lemma TestBlockGoes(code: Cfg, g: Cfg, rho: Link, env: Env, l: LoopBlocks, test: Option<Expr>, step: seq<Expr>)
    requires Linked(code, g, rho) && LoopCode(code, l, test, step)
    ensures TestGoes(g, rho, env, l, test)
  {
    hide Linked, Has, Lands, CondCode, AfterAllCode;
    forall m: Regs ensures
      if test.None? then Lands(g, env, Spot(rho(l.test), 0, m), 0, rho(l.body), 0, m.tr)
      else Lands(g, env, Spot(rho(l.test), 0, m), 0, rho(if Holds(env, test.value, m.tr) then l.body else l.exit), 0,
                 After(test.value, m.tr))
    {
      if test.Some? {
        ConditionLands(code, g, rho, env, l.test, 0, test.value, l.body, l.exit, m);
      } else if l.test == l.body {
        StayLands(g, env, rho(l.test), 0, m);
      } else {
        JumpLands(code, g, rho, env, l.test, 0, l.body, m);
        LandsFewer(g, env, Spot(rho(l.test), 0, m), 1, 0, rho(l.body), 0, m.tr);
      }
    }
  }

  lemma StepBlockGoes(code: Cfg, g: Cfg, rho: Link, env: Env, l: LoopBlocks, test: Option<Expr>, step: seq<Expr>)
    requires Linked(code, g, rho) && LoopCode(code, l, test, step)
    ensures StepGoes(g, rho, env, l, step)
  {
    hide Linked, Has, Lands, CondCode, AfterAllCode, Effects, Run;
    forall m: Regs ensures Lands(g, env, Spot(rho(l.cont), 0, m), 0, rho(l.test), 0, AfterAll(step, m.tr)) {
      if l.cont == l.test && step == [] {
        StayLands(g, env, rho(l.test), 0, m);
      } else {
        RunThenJump(code, g, rho, env, l.cont, 0, AfterAllCode(step), l.test, m);
        AfterAllEffects(env, step, m);
        ReachJump(g, env, Spot(rho(l.cont), 0, m), |AfterAllCode(step)| + 1, rho(l.test), 0,
                  Regs(AfterAll(step, m.tr), m.flag, m.val), 0);
      }
    }
  }

  /** From code and simulated body to the iterating loop. */
  lemma LoopCodeMatches(code: Cfg, g: Cfg, rho: Link, env: Env, w: State, x: State, t: bool, l: LoopBlocks,
                        name: Option<Label>, test: Option<Expr>, step: seq<Expr>, body: Block, outer: Out, m: Regs, fuel: nat)
    requires Sound(w) && Sound(x) && w.at == l.body && w.code[w.at] == [] && Sim(w, x, t, Nested(body))
    requires Linked(code, g, rho) && Contains(x.code, code) && LoopCode(code, l, test, step)
    requires !t ==> Has(code, x.at, x.Here(), [Br(l.cont)])
    requires LoopFramed(OutOf(w, x, t), outer, l, name) && (test.Some? ==> !outer.terminal)
    ensures Matches(g, rho, env, Spot(rho(l.test), 0, m), Iterate(env, name, test, step, body, m.tr, fuel), fuel, outer)
  {
    hide Linked, Has, Lands, Matches, Contains, Sim, LoopCode, TestGoes, StepGoes, Sound;
    SoundFacts(w);
    SoundFacts(x);
    var inner := OutOf(w, x, t);
    TestBlockGoes(code, g, rho, env, l, test, step);
    StepBlockGoes(code, g, rho, env, l, test, step);
    LinkedPart(x.code, code, g, rho);
    assert BodyGoes(g, rho, env, l, body, inner) by {
      forall m: Regs, fuel: nat
        ensures Matches(g, rho, env, Spot(rho(l.body), 0, m), ExecScope(env, [], body, m.tr, fuel), fuel, inner)
      {
        UseSim(w, x, t, Nested(body), g, rho, env, m, fuel);
      }
    }
    assert BodyEndGoes(g, rho, env, l, inner) by {
      if !t {
        forall m: Regs ensures Lands(g, env, Spot(rho(inner.b), inner.i, m), 1, rho(l.cont), 0, m.tr) {
          JumpLands(code, g, rho, env, x.at, x.Here(), l.cont, m);
        }
      }
    }
    LoopMatches(g, rho, env, l, name, test, step, body, inner, outer, m, fuel);
  }

  /** "while" and "loop": a jump to the loop's blocks. */
  lemma LoopRule(a: State, w: State, x: State, f: State, t: bool, terminal: bool, l: LoopBlocks, s: Stmt)
    requires Sound(a) && Sound(w) && Sound(x) && Sound(f) && (s.While? || s.Loop?)
    requires w.at == l.body && w.code[w.at] == [] && Sim(w, x, t, Nested(s.body)) && Contains(x.code, f.code)
    requires Has(f.code, a.at, a.Here(), [Br(l.test)])
    requires LoopCode(f.code, l, if s.While? then Some(s.cond) else None, [])
    requires !t ==> Has(f.code, x.at, x.Here(), [Br(l.cont)])
    requires LoopFramed(OutOf(w, x, t), OutOf(a, f, terminal), l, s.name) && (s.While? ==> !terminal)
    ensures Sim(a, f, terminal, One(s))
  {
    var test := if s.While? then Some(s.cond) else None;
    forall g, rho, env, m: Regs, fuel: nat | Linked(f.code, g, rho)
      ensures Matches(g, rho, env, Start(a, rho, m), Meaning(env, One(s), m.tr, fuel), fuel, OutOf(a, f, terminal))
    {
      RunJump(f.code, g, rho, env, a.at, a.Here(), l.test, m);
      LoopCodeMatches(f.code, g, rho, env, w, x, t, l, s.name, test, [], s.body, OutOf(a, f, terminal), m, fuel);
      Prepend(g, rho, env, Start(a, rho, m), 1, Iterate(env, s.name, test, [], s.body, m.tr, fuel), fuel, fuel,
              OutOf(a, f, terminal));
    }
  }

  lemma ForMatches(a: State, w: State, x: State, y: State, f: State, t: bool, l: LoopBlocks, s: Stmt, g: Cfg, rho: Link,
                   env: Env, m: Regs, fuel: nat)
    requires Sound(a) && Sound(w) && Sound(x) && Sound(y) && Sound(f) && s.CStyleFor?
    requires w.at == l.body && w.code[w.at] == [] && Sim(w, x, t, Nested(s.body)) && Contains(x.code, f.code)
    requires Has(f.code, a.at, a.Here(), DeclsCode(s.decls) + [Br(l.test)])
    requires LoopCode(f.code, l, s.test, s.step)
    requires !t ==> Has(f.code, x.at, x.Here(), [Br(l.cont)])
    requires w.frames == a.frames + [Declared(s.decls)]
    requires LoopFramed(OutOf(w, x, t), OutOf(w, y, false), l, s.name)
    requires y.at == l.exit == f.at && y.code[y.at] == [] && y.loops == f.loops
    requires f.code[f.at] == Emits(Destroys(Declared(s.decls)))
    requires forall k :: 0 <= k < |f.loops| ==> f.loops[k].size <= |a.frames|
    requires Linked(f.code, g, rho)
    ensures Matches(g, rho, env, Start(a, rho, m), Meaning(env, One(s), m.tr, fuel), fuel, OutOf(a, f, false))
  {
    hide Sound, Sim, Contains, Linked, Matches, LoopCode, LoopFramed, DeclsCode, Effects;
    SoundFacts(a);
    SoundFacts(w);
    SoundFacts(x);
    SoundFacts(y);
    SoundFacts(f);
    var cs, vs := DeclsCode(s.decls), Declared(s.decls);
    RunThenJump(f.code, g, rho, env, a.at, a.Here(), cs, l.test, m);
    DeclsEffects(env, s.decls, m);
    var m' := Regs(AfterDecls(s.decls, m.tr), m.flag, m.val);
    LoopCodeMatches(f.code, g, rho, env, w, x, t, l, s.name, s.test, s.step, s.body, OutOf(w, y, false), m', fuel);
    var r := Iterate(env, s.name, s.test, s.step, s.body, m'.tr, fuel);
    Prepend(g, rho, env, Start(a, rho, m), |cs| + 1, r, fuel, fuel, OutOf(w, y, false));
    assert vs + r.decls == vs;
    LeaveMatches(g, rho, env, Start(a, rho, m), r, fuel, OutOf(w, y, false), OutOf(a, f, false), vs, f.code,
                 Emits(Destroys(vs)));
  }

  /** A C-style "for": its variables live in a scope around the loop. */
  lemma ForRule(a: State, w: State, x: State, y: State, f: State, t: bool, l: LoopBlocks, s: Stmt)
    requires Sound(a) && Sound(w) && Sound(x) && Sound(y) && Sound(f) && s.CStyleFor?
    requires w.at == l.body && w.code[w.at] == [] && Sim(w, x, t, Nested(s.body)) && Contains(x.code, f.code)
    requires Has(f.code, a.at, a.Here(), DeclsCode(s.decls) + [Br(l.test)])
    requires LoopCode(f.code, l, s.test, s.step)
    requires !t ==> Has(f.code, x.at, x.Here(), [Br(l.cont)])
    requires w.frames == a.frames + [Declared(s.decls)]
    requires LoopFramed(OutOf(w, x, t), OutOf(w, y, false), l, s.name)
    requires y.at == l.exit == f.at && y.code[y.at] == [] && y.loops == f.loops
    requires f.code[f.at] == Emits(Destroys(Declared(s.decls)))
    requires forall k :: 0 <= k < |f.loops| ==> f.loops[k].size <= |a.frames|
    ensures Sim(a, f, false, One(s))
  {
    hide Contains, Linked, Matches, Has, LoopCode, LoopFramed, DeclsCode;
    forall g, rho, env, m: Regs, fuel: nat | Linked(f.code, g, rho)
      ensures Matches(g, rho, env, Start(a, rho, m), Meaning(env, One(s), m.tr, fuel), fuel, OutOf(a, f, false))
    {
      ForMatches(a, w, x, y, f, t, l, s, g, rho, env, m, fuel);
    }
  }

  // ----- blocks -----

  lemma PlainBlockRule(a: State, f: State, t: bool, body: Block)
    requires Sound(a) && Sound(f) && Sim(a, f, t, Nested(body))
    ensures Sim(a, f, t, One(Scope(None, body)))
  {
    forall g, rho, env, m: Regs, fuel: nat | Linked(f.code, g, rho)
      ensures Matches(g, rho, env, Start(a, rho, m), Meaning(env, One(Scope(None, body)), m.tr, fuel), fuel, OutOf(a, f, t))
    {
      UseSim(a, f, t, Nested(body), g, rho, env, m, fuel);
    }
  }

  lemma IfStatementRule(a: State, f: State, t: bool, choice: IfOperator)
    requires Sound(a) && Sound(f) && Sim(a, f, t, Choice(choice))
    ensures Sim(a, f, t, One(If(choice)))
  {
    forall g, rho, env, m: Regs, fuel: nat | Linked(f.code, g, rho)
      ensures Matches(g, rho, env, Start(a, rho, m), Meaning(env, One(If(choice)), m.tr, fuel), fuel, OutOf(a, f, t))
    {
      UseSim(a, f, t, Choice(choice), g, rho, env, m, fuel);
    }
  }

  lemma FallsOutOfLabel(code: Cfg, g: Cfg, rho: Link, env: Env, c: Conf, r: Result, fuel: nat, inner: Out, outer: Out)
    requires inner.frames != [] && outer.frames == inner.frames && r.exit.Normal?
    requires Matches(g, rho, env, c, r, fuel, inner)
    requires !inner.terminal ==> !outer.terminal && outer.i == 0 && Linked(code, g, rho) && Has(code, inner.b, inner.i, [Br(outer.b)])
    ensures Matches(g, rho, env, c, Ended(Normal, r.tr), fuel, outer)
  {
    hide Lands, Linked, Has;
    var n, m := LandingRegs(g, env, c, 0, rho(inner.b), inner.i, r.tr);
    JumpLands(code, g, rho, env, inner.b, inner.i, outer.b, m);
    LandsAfter(g, env, c, n, 1, rho(outer.b), 0, r.tr);
    LandsFewer(g, env, c, n + 1, 0, rho(outer.b), 0, r.tr);
  }

  lemma BreaksLabel(g: Cfg, rho: Link, env: Env, c: Conf, r: Result, fuel: nat, inner: Out, outer: Out, fr: LoopFrame)
    requires outer.frames == inner.frames != [] && inner.loops == outer.loops + [fr] && fr.name.Some? && fr.cont.None?
    requires FirstNamed(outer.loops, fr.name).None? && fr.size == |outer.frames| && r.decls == []
    requires fr.breaks > 0 ==> !outer.terminal && outer.b == fr.brk && outer.i == 0
    requires r.exit == Broke(fr.name) && Matches(g, rho, env, c, r, fuel, inner)
    ensures Matches(g, rho, env, c, Ended(Normal, r.tr), fuel, outer)
  {
    hide Lands;
    TargetPush(outer.loops, fr, fr.name);
    ExtendNone(outer.frames);
    assert r.tr + [] == r.tr;
    LandsFewer(g, env, c, 1, 0, rho(fr.brk), 0, r.tr);
  }

  lemma PassesLabel(g: Cfg, rho: Link, env: Env, c: Conf, r: Result, fuel: nat, inner: Out, outer: Out, fr: LoopFrame)
    requires outer.frames == inner.frames != [] && inner.loops == outer.loops + [fr] && fr.name.Some? && fr.cont.None?
    requires FirstNamed(outer.loops, fr.name).None? && !r.exit.Normal? && r.exit != Broke(fr.name)
    requires Matches(g, rho, env, c, r, fuel, inner)
    ensures Matches(g, rho, env, c, r, fuel, outer)
  {
    hide Lands, DestroyDown, Extend;
    if r.exit.Broke? || r.exit.Continued? { TargetPush(outer.loops, fr, r.exit.target); }
  }

  lemma LabelledBlockMatches(a: State, p: State, q: State, f: State, t: bool, terminal: bool, e: BlockId, name: Label, body: Block,
                             g: Cfg, rho: Link, env: Env, m: Regs, fuel: nat)
    requires Sound(a) && Sound(p) && Sound(q) && Sound(f) && Sim(p, q, t, Nested(body)) && Contains(q.code, f.code)
    requires Linked(f.code, g, rho)
    requires p.at == a.at && p.code == a.code && p.frames == a.frames
    requires q.loops != [] && f.loops == q.loops[..|q.loops| - 1] && FirstNamed(f.loops, Some(name)).None?
    requires var fr := q.loops[|q.loops| - 1];
             && fr.name == Some(name) && fr.cont.None? && fr.size == |a.frames| && fr.brk == e
             && terminal == (t && fr.breaks == 0)
    requires !t ==> Has(f.code, q.at, q.Here(), [Br(e)])
    requires !terminal ==> f.at == e && f.code[e] == []
    ensures Matches(g, rho, env, Start(a, rho, m), Exec(env, Scope(Some(name), body), m.tr, fuel), fuel, OutOf(a, f, terminal))
  {
    hide Sound, Sim, Contains, Linked, Lands;
    SoundFacts(a);
    SoundFacts(p);
    SoundFacts(q);
    SoundFacts(f);
    var fr := q.loops[|q.loops| - 1];
    assert q.loops == f.loops + [fr];
    var c := Start(a, rho, m);
    LinkedPart(q.code, f.code, g, rho);
    UseSim(p, q, t, Nested(body), g, rho, env, m, fuel);
    var r := ExecScope(env, [], body, m.tr, fuel);
    if r.exit.Normal? {
      FallsOutOfLabel(f.code, g, rho, env, c, r, fuel, OutOf(p, q, t), OutOf(a, f, terminal));
    } else if r.exit == Broke(Some(name)) {
      BreaksLabel(g, rho, env, c, r, fuel, OutOf(p, q, t), OutOf(a, f, terminal), fr);
    } else {
      PassesLabel(g, rho, env, c, r, fuel, OutOf(p, q, t), OutOf(a, f, terminal), fr);
    }
  }

  /** A labelled block can be left by "break" to its label, and only by that. */
  lemma LabelledBlockRule(a: State, p: State, q: State, f: State, t: bool, terminal: bool, e: BlockId, name: Label,
                          body: Block)
    requires Sound(a) && Sound(p) && Sound(q) && Sound(f) && Sim(p, q, t, Nested(body)) && Contains(q.code, f.code)
    requires p.at == a.at && p.code == a.code && p.frames == a.frames
    requires q.loops != [] && f.loops == q.loops[..|q.loops| - 1] && FirstNamed(f.loops, Some(name)).None?
    requires var fr := q.loops[|q.loops| - 1];
             && fr.name == Some(name) && fr.cont.None? && fr.size == |a.frames| && fr.brk == e
             && terminal == (t && fr.breaks == 0)
    requires !t ==> Has(f.code, q.at, q.Here(), [Br(e)])
    requires !terminal ==> f.at == e && f.code[e] == []
    ensures Sim(a, f, terminal, One(Scope(Some(name), body)))
  {
    hide Contains, Matches, Linked, Has;
    forall g, rho, env, m: Regs, fuel: nat | Linked(f.code, g, rho)
      ensures Matches(g, rho, env, Start(a, rho, m), Meaning(env, One(Scope(Some(name), body)), m.tr, fuel), fuel, OutOf(a, f, terminal))
    {
      LabelledBlockMatches(a, p, q, f, t, terminal, e, name, body, g, rho, env, m, fuel);
    }
  }

  lemma RunBind(code: Cfg, g: Cfg, rho: Link, env: Env, b: BlockId, i: nat, e: Expr, more: Trace, m: Regs)
    requires Linked(code, g, rho) && Has(code, b, i, EnterCode(e) + Emits(more))
    ensures Run(g, env, |EnterCode(e) + Emits(more)|, Spot(rho(b), i, m)) ==
            Spot(rho(b), i + |EnterCode(e) + Emits(more)|, Regs(Enter(e, m.tr) + more, m.flag, m.val))
  {
    RunLinked(code, g, rho, env, b, i, EnterCode(e) + Emits(more), m);
    EnterEffects(env, e, m);
    EffectsAppend(env, EnterCode(e), Emits(more), m);
    EffectsEmits(env, more, m.(tr := Enter(e, m.tr)));
  }

  /** A list of statements in a scope that holds some variables, and the end of that scope. */
  lemma ListMatches(g: Cfg, rho: Link, env: Env, p: State, q: State, f: State, t: bool, outer: Out, vs: seq<Var>,
                    body: Block, m: Regs, fuel: nat)
    requires Sound(p) && Sound(q) && Sound(f) && Sim(p, q, t, List(body)) && Contains(q.code, f.code)
    requires Linked(f.code, g, rho)
    requires outer.frames != [] && p.frames == outer.frames + [vs] && q.loops == outer.loops
    requires forall k :: 0 <= k < |outer.loops| ==> outer.loops[k].size <= |outer.frames|
    requires var ds := Emits(Destroys(vs + DeclaredIn(body)));
             !t ==> !outer.terminal && Has(f.code, q.at, q.Here(), ds) && outer.b == q.at && outer.i == q.Here() + |ds|
    ensures Matches(g, rho, env, Start(p, rho, m), ExecScope(env, vs, body, m.tr, fuel), fuel, outer)
  {
    LinkedPart(q.code, f.code, g, rho);
    UseSim(p, q, t, List(body), g, rho, env, m, fuel);
    var r := ExecBlock(env, body, m.tr, fuel);
    LeaveMatches(g, rho, env, Start(p, rho, m), r, fuel, OutOf(p, q, t), outer, vs, f.code,
                 Emits(Destroys(vs + r.decls)));
  }

  lemma WithMatches(a: State, p: State, q: State, f: State, t: bool, s: Stmt, g: Cfg, rho: Link, env: Env, m: Regs,
                    fuel: nat)
    requires Sound(a) && Sound(p) && Sound(q) && Sound(f) && s.With?
    requires p.frames == a.frames + [Held(s)] && p.at == a.at
    requires p.code[p.at] == a.code[a.at] + (EnterCode(s.e) + Emits(Opened(s)))
    requires !t ==> f.code[f.at] == q.code[q.at] + Emits(Destroys(Held(s) + DeclaredIn(s.body)))
    requires Sim(p, q, t, List(s.body)) && Contains(p.code, f.code) && Contains(q.code, f.code)
    requires f.at == q.at && f.loops == q.loops && (forall k :: 0 <= k < |f.loops| ==> f.loops[k].size <= |a.frames|)
    requires Linked(f.code, g, rho)
    ensures Matches(g, rho, env, Start(a, rho, m), Meaning(env, One(s), m.tr, fuel), fuel, OutOf(a, f, t))
  {
    hide Sound, Sim, Contains, Linked, Matches, Held, Opened;
    SoundFacts(a);
    SoundFacts(p);
    SoundFacts(q);
    SoundFacts(f);
    var vs, more := Held(s), Opened(s);
    var cs := EnterCode(s.e) + Emits(more);
    assert Has(p.code, a.at, a.Here(), cs);
    HasPart(p.code, f.code, a.at, a.Here(), cs);
    RunBind(f.code, g, rho, env, a.at, a.Here(), s.e, more, m);
    var m' := Regs(Enter(s.e, m.tr) + more, m.flag, m.val);
    if !t { assert Has(f.code, q.at, q.Here(), Emits(Destroys(vs + DeclaredIn(s.body)))); }
    ListMatches(g, rho, env, p, q, f, t, OutOf(a, f, t), vs, s.body, m', fuel);
    Prepend(g, rho, env, Start(a, rho, m), |cs|, ExecScope(env, vs, s.body, m'.tr, fuel), fuel, fuel, OutOf(a, f, t));
  }

  lemma WithRule(a: State, p: State, q: State, f: State, t: bool, s: Stmt)
    requires Sound(a) && Sound(p) && Sound(q) && Sound(f) && s.With?
    requires p.frames == a.frames + [Held(s)] && p.at == a.at
    requires p.code[p.at] == a.code[a.at] + (EnterCode(s.e) + Emits(Opened(s)))
    requires !t ==> f.code[f.at] == q.code[q.at] + Emits(Destroys(Held(s) + DeclaredIn(s.body)))
    requires Sim(p, q, t, List(s.body)) && Contains(p.code, f.code) && Contains(q.code, f.code)
    requires f.at == q.at && f.loops == q.loops && (forall k :: 0 <= k < |f.loops| ==> f.loops[k].size <= |a.frames|)
    ensures Sim(a, f, t, One(s))
  {
    hide Contains, Linked, Matches;
    forall g, rho, env, m: Regs, fuel: nat | Linked(f.code, g, rho)
      ensures Matches(g, rho, env, Start(a, rho, m), Meaning(env, One(s), m.tr, fuel), fuel, OutOf(a, f, t))
    {
      WithMatches(a, p, q, f, t, s, g, rho, env, m, fuel);
    }
  }
}
