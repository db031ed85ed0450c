/** Code without branches, as emitted for expressions, declarations and destructors. */
module StraightCode {

  import opened SwitchRanges
  import opened StructuredCode
  import opened BasicBlocks
  import opened Simulation

  datatype Regs = Regs(tr: Trace, flag: bool, val: nat)

  function Spot(b: BlockId, i: nat, m: Regs): Conf {
    At(b, i, m.tr, m.flag, m.val)
  }

  predicate Straight(cs: Code) {
    forall k :: 0 <= k < |cs| ==> cs[k].Emit? || cs[k].Test? || cs[k].Read? || cs[k].Compare?
  }

  function Effect(env: Env, i: Instr, m: Regs): Regs {
    match i
    case Emit(ev) => m.(tr := m.tr + [ev])
    case Test(id) => m.(flag := env.test(id, m.tr))
    case Read(id, kind) => m.(val := kind.Clip(env.value(id, m.tr)))
    case Compare(kind, rs) => m.(flag := InAny(kind, rs, m.val))
    case _ => m
  }

  function Effects(env: Env, cs: Code, m: Regs): Regs {
    if cs == [] then m else Effects(env, cs[1..], Effect(env, cs[0], m))
  }

  function Emits(tr: Trace): (cs: Code)
    ensures |cs| == |tr| && Straight(cs) && forall k :: 0 <= k < |tr| ==> cs[k] == Emit(tr[k])
  {
    seq(|tr|, k requires 0 <= k < |tr| => Emit(tr[k]))
  }

  lemma EmitsAppend(tr: Trace, tr': Trace)
    ensures Emits(tr + tr') == Emits(tr) + Emits(tr')
  {
  }

  lemma DropsAppend(vs: seq<Var>, ws: seq<Var>)
    ensures Drops(vs + ws) == Drops(vs) + Drops(ws) && (|ws| == 1 ==> Drops(ws) == [Destroy(ws[0])])
  {
  }

  lemma NoEmits()
    ensures Emits([]) == []
  {
  }

  lemma {:induction false} EffectsAppend(env: Env, cs: Code, ds: Code, m: Regs)
    ensures Effects(env, cs + ds, m) == Effects(env, ds, Effects(env, cs, m))
  {
    if cs == [] {
      assert cs + ds == ds;
    } else {
      assert (cs + ds)[1..] == cs[1..] + ds;
      EffectsAppend(env, cs[1..], ds, Effect(env, cs[0], m));
    }
  }

  lemma {:induction false} EffectsEmits(env: Env, tr: Trace, m: Regs)
    ensures Effects(env, Emits(tr), m) == m.(tr := m.tr + tr)
  {
    if tr == [] {
      assert m.tr + tr == m.tr;
    } else {
      assert Emits(tr)[1..] == Emits(tr[1..]);
      EffectsEmits(env, tr[1..], m.(tr := m.tr + [tr[0]]));
      assert m.tr + [tr[0]] + tr[1..] == m.tr + tr;
    }
  }

  lemma {:induction false} RunStraight(g: Cfg, env: Env, b: BlockId, i: nat, cs: Code, m: Regs)
    requires Has(g, b, i, cs) && Straight(cs)
    ensures Run(g, env, |cs|, Spot(b, i, m)) == Spot(b, i + |cs|, Effects(env, cs, m))
    decreases |cs|
  {
    if cs != [] {
      assert g[b][i] == g[b][i..i + |cs|][0];
      assert g[b][i + 1..i + 1 + |cs[1..]|] == g[b][i..i + |cs|][1..] == cs[1..];
      RunStraight(g, env, b, i + 1, cs[1..], Effect(env, cs[0], m));
    }
  }

  /** Straight code built into a function is run by it. */
  lemma RunLinked(code: Cfg, g: Cfg, rho: Link, env: Env, b: BlockId, i: nat, cs: Code, m: Regs)
    requires Linked(code, g, rho) && Has(code, b, i, cs) && Straight(cs)
    ensures Run(g, env, |cs|, Spot(rho(b), i, m)) == Spot(rho(b), i + |cs|, Effects(env, cs, m))
  {
    if cs != [] {
      LinkedHas(code, g, rho, b, i, cs);
      assert RelinkAll(rho, cs) == cs;
      RunStraight(g, env, rho(b), i, cs, m);
    }
  }

  // ----- code of expressions -----

  function EnterCode(e: Expr): (cs: Code)
    ensures Straight(cs)
  {
    Emits([Eval(e.id)] + Inits(e.temps))
  }

  function AfterCode(e: Expr): (cs: Code)
    ensures Straight(cs)
  {
    EnterCode(e) + Emits(Destroys(e.temps))
  }

  function DeclCode(d: Decl): (cs: Code)
    ensures Straight(cs)
  {
    EnterCode(d.init) + [Emit(Init(d.v))] + Emits(Destroys(d.init.temps))
  }

  /** A condition is put in a register before its temporaries are destroyed. */
  function CondCode(c: Expr): (cs: Code)
    ensures Straight(cs)
  {
    EnterCode(c) + [Test(c.id)] + Emits(Destroys(c.temps))
  }

  function ReadCode(e: Expr, kind: IntType): (cs: Code)
    ensures Straight(cs)
  {
    EnterCode(e) + [Read(e.id, kind)] + Emits(Destroys(e.temps))
  }

  function AfterAllCode(es: seq<Expr>): (cs: Code)
    ensures Straight(cs)
  {
    if es == [] then [] else AfterCode(es[0]) + AfterAllCode(es[1..])
  }

  function DeclsCode(ds: seq<Decl>): (cs: Code)
    ensures Straight(cs)
  {
    if ds == [] then [] else DeclCode(ds[0]) + DeclsCode(ds[1..])
  }

  lemma EnterEffects(env: Env, e: Expr, m: Regs)
    ensures Effects(env, EnterCode(e), m) == m.(tr := Enter(e, m.tr))
  {
    EffectsEmits(env, [Eval(e.id)] + Inits(e.temps), m);
    assert m.tr + ([Eval(e.id)] + Inits(e.temps)) == Enter(e, m.tr);
  }

  /** One instruction between entering an expression and destroying its temporaries. */
  lemma SandwichEffects(env: Env, e: Expr, i: Instr, m: Regs)
    ensures var m1 := Effect(env, i, m.(tr := Enter(e, m.tr)));
            Effects(env, EnterCode(e) + [i] + Emits(Destroys(e.temps)), m) == m1.(tr := m1.tr + Destroys(e.temps))
  {
    var m0 := m.(tr := Enter(e, m.tr));
    EnterEffects(env, e, m);
    EffectsAppend(env, EnterCode(e), [i], m);
    assert Effects(env, [i], m0) == Effect(env, i, m0);
    EffectsAppend(env, EnterCode(e) + [i], Emits(Destroys(e.temps)), m);
    EffectsEmits(env, Destroys(e.temps), Effect(env, i, m0));
  }

  lemma AfterEffects(env: Env, e: Expr, m: Regs)
    ensures Effects(env, AfterCode(e), m) == m.(tr := After(e, m.tr))
  {
    EnterEffects(env, e, m);
    EffectsAppend(env, EnterCode(e), Emits(Destroys(e.temps)), m);
    EffectsEmits(env, Destroys(e.temps), m.(tr := Enter(e, m.tr)));
  }

  lemma {:induction false} AfterAllEffects(env: Env, es: seq<Expr>, m: Regs)
    ensures Effects(env, AfterAllCode(es), m) == m.(tr := AfterAll(es, m.tr))
  {
    if es != [] {
      AfterEffects(env, es[0], m);
      EffectsAppend(env, AfterCode(es[0]), AfterAllCode(es[1..]), m);
      AfterAllEffects(env, es[1..], m.(tr := After(es[0], m.tr)));
    }
  }

  lemma {:induction false} DeclsEffects(env: Env, ds: seq<Decl>, m: Regs)
    ensures Effects(env, DeclsCode(ds), m) == m.(tr := AfterDecls(ds, m.tr))
  {
    if ds != [] {
      SandwichEffects(env, ds[0].init, Emit(Init(ds[0].v)), m);
      EffectsAppend(env, DeclCode(ds[0]), DeclsCode(ds[1..]), m);
      DeclsEffects(env, ds[1..], m.(tr := AfterDecl(ds[0], m.tr)));
    }
  }

  // ----- branches -----

  lemma RunJump(code: Cfg, g: Cfg, rho: Link, env: Env, b: BlockId, i: nat, target: BlockId, m: Regs)
    requires Linked(code, g, rho) && Has(code, b, i, [Br(target)])
    ensures Run(g, env, 1, Spot(rho(b), i, m)) == Spot(rho(target), 0, m)
  {
    LinkedHas(code, g, rho, b, i, [Br(target)]);
    assert g[rho(b)][i] == g[rho(b)][i..i + 1][0];
    var c := Spot(rho(b), i, m);
    assert Run(g, env, 1, c) == Run(g, env, 0, Step(g, env, c));
  }

  lemma RunFork(code: Cfg, g: Cfg, rho: Link, env: Env, b: BlockId, i: nat, yes: BlockId, no: BlockId, m: Regs)
    requires Linked(code, g, rho) && Has(code, b, i, [CondBr(yes, no)])
    ensures Run(g, env, 1, Spot(rho(b), i, m)) == Spot(rho(if m.flag then yes else no), 0, m)
  {
    LinkedHas(code, g, rho, b, i, [CondBr(yes, no)]);
    assert g[rho(b)][i] == g[rho(b)][i..i + 1][0];
    var c := Spot(rho(b), i, m);
    assert Run(g, env, 1, c) == Run(g, env, 0, Step(g, env, c));
  }

  lemma HasSplit(code: Cfg, b: BlockId, i: nat, cs: Code, ds: Code)
    requires Has(code, b, i, cs + ds)
    ensures Has(code, b, i, cs) && Has(code, b, i + |cs|, ds)
  {
    assert code[b][i..i + |cs|] == code[b][i..i + |cs + ds|][..|cs|];
    assert code[b][i + |cs|..i + |cs| + |ds|] == code[b][i..i + |cs + ds|][|cs|..];
  }

  /** The code of a condition and its branch goes where the condition says. */
  lemma RunCondition(code: Cfg, g: Cfg, rho: Link, env: Env, b: BlockId, i: nat, c: Expr, yes: BlockId, no: BlockId,
                     m: Regs)
    requires Linked(code, g, rho) && Has(code, b, i, CondCode(c) + [CondBr(yes, no)])
    ensures Run(g, env, |CondCode(c)| + 1, Spot(rho(b), i, m)) ==
            Spot(rho(if Holds(env, c, m.tr) then yes else no), 0, Regs(After(c, m.tr), Holds(env, c, m.tr), m.val))
  {
    hide Linked, Has, Run, Effects;
    HasSplit(code, b, i, CondCode(c), [CondBr(yes, no)]);
    RunLinked(code, g, rho, env, b, i, CondCode(c), m);
    SandwichEffects(env, c, Test(c.id), m);
    var m' := Regs(After(c, m.tr), Holds(env, c, m.tr), m.val);
    RunFork(code, g, rho, env, b, i + |CondCode(c)|, yes, no, m');
    RunAdd(g, env, |CondCode(c)|, 1, Spot(rho(b), i, m));
  }

  /** Straight code and a jump. */
  lemma RunThenJump(code: Cfg, g: Cfg, rho: Link, env: Env, b: BlockId, i: nat, cs: Code, target: BlockId, m: Regs)
    requires Linked(code, g, rho) && Has(code, b, i, cs + [Br(target)]) && Straight(cs)
    ensures Run(g, env, |cs| + 1, Spot(rho(b), i, m)) == Spot(rho(target), 0, Effects(env, cs, m))
  {
    HasSplit(code, b, i, cs, [Br(target)]);
    RunLinked(code, g, rho, env, b, i, cs, m);
    RunJump(code, g, rho, env, b, i + |cs|, target, Effects(env, cs, m));
    RunAdd(g, env, |cs|, 1, Spot(rho(b), i, m));
  }
}
