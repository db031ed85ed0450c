/** The rules for tuple-for, whose body is built once for each element, and for switch. */
module CompoundRules {

  import opened Options
  import opened SwitchRanges
  import opened StructuredCode
  import opened BasicBlocks
  import opened Simulation
  import opened StraightCode
  import opened BuilderState
  import opened StatementRules

  // ----- tuple-for -----

  /** From p on, the code runs the body for each of the elements. */
  ghost predicate PassesSim(p: State, code: Cfg, out: Out, name: Option<Label>, elements: seq<Option<Var>>, body: Block)
    requires p.at in p.code && out.frames != []
  {
    forall g, rho, env, m: Regs, fuel :: Linked(code, g, rho) ==>
      Matches(g, rho, env, Start(p, rho, m), ForEach(env, name, elements, body, m.tr, fuel), fuel, out)
  }

  lemma PassesPart(p: State, code: Cfg, code': Cfg, out: Out, out': Out, name: Option<Label>,
                   elements: seq<Option<Var>>, body: Block)
    requires p.at in p.code && out.frames != [] && PassesSim(p, code, out, name, elements, body)
    requires Contains(code, code')
    requires out'.frames == out.frames && LoopsGrow(out.loops, out'.loops) && out'.terminal == out.terminal
    requires !out.terminal ==> out'.b == out.b && out'.i == out.i
    ensures PassesSim(p, code', out', name, elements, body)
  {
    forall g, rho, env, m: Regs, fuel: nat | Linked(code', g, rho)
      ensures Matches(g, rho, env, Start(p, rho, m), ForEach(env, name, elements, body, m.tr, fuel), fuel, out')
    {
      LinkedPart(code, code', g, rho);
      MatchesGrow(g, rho, env, Start(p, rho, m), ForEach(env, name, elements, body, m.tr, fuel), fuel, out, out');
    }
  }

  lemma NoPassesRule(p: State, name: Option<Label>, body: Block)
    requires Sound(p)
    ensures PassesSim(p, p.code, OutOf(p, p, false), name, [], body)
  {
    forall g, rho, env, m: Regs, fuel: nat | Linked(p.code, g, rho)
      ensures Matches(g, rho, env, Start(p, rho, m), ForEach(env, name, [], body, m.tr, fuel), fuel, OutOf(p, p, false))
    {
      StayLands(g, env, rho(p.at), p.Here(), m);
    }
  }

  /** The code of one pass: the element variable, the body, and the end of the variable's life. */
  ghost predicate PassCode(p: State, p1: State, q: State, code: Cfg, t: bool, vs: seq<Var>, body: Block, next: BlockId) {
    && p.at in p.code && p1.at in p1.code && q.at in q.code
    && Has(code, p.at, p.Here(), Emits(Inits(vs)))
    && p1.at == p.at && p1.Here() == p.Here() + |vs| && p1.frames == p.frames + [vs]
    && (!t ==> Has(code, q.at, q.Here(), Emits(Destroys(vs + DeclaredIn(body))) + [Br(next)]))
    && Contains(q.code, code)
  }

  ghost function PassOut(p: State, q: State, t: bool, vs: seq<Var>, body: Block): Out
    requires q.at in q.code
  {
    Out(t, q.at, q.Here() + |Emits(Destroys(vs + DeclaredIn(body)))|, q.loops, p.frames)
  }

  /** One pass, seen from before the element variable. */
  lemma PassMatches(p: State, p1: State, q: State, f: State, g: Cfg, rho: Link, env: Env, t: bool, vs: seq<Var>,
                    body: Block, next: BlockId, m: Regs, fuel: nat)
    requires Sound(p) && Sound(p1) && Sound(q) && Sound(f) && Sim(p1, q, t, List(body))
    requires PassCode(p, p1, q, f.code, t, vs, body, next) && Linked(f.code, g, rho)
    requires forall k :: 0 <= k < |q.loops| ==> q.loops[k].size <= |p.frames|
    ensures Matches(g, rho, env, Start(p, rho, m), ExecScope(env, vs, body, m.tr + Inits(vs), fuel), fuel, PassOut(p, q, t, vs, body))
  {
    hide Linked, Matches, Sim, Has, Effects;
    SoundFacts(p);
    SoundFacts(p1);
    SoundFacts(q);
    SoundFacts(f);
    RunLinked(f.code, g, rho, env, p.at, p.Here(), Emits(Inits(vs)), m);
    EffectsEmits(env, Inits(vs), m);
    var m' := Regs(m.tr + Inits(vs), m.flag, m.val);
    var ds := Emits(Destroys(vs + DeclaredIn(body)));
    if !t { HasSplit(f.code, q.at, q.Here(), ds, [Br(next)]); }
    ListMatches(g, rho, env, p1, q, f, t, PassOut(p, q, t, vs, body), vs, body, m', fuel);
    Prepend(g, rho, env, Start(p, rho, m), |vs|, ExecScope(env, vs, body, m'.tr, fuel), fuel, fuel,
            PassOut(p, q, t, vs, body));
  }

  /** Whether the pass can go on to the next one. */
  predicate GoesOn(q: State, t: bool) {
    q.loops != [] && (!t || q.loops[|q.loops| - 1].continues > 0)
  }

  /** What follows a pass that can go on: the end of the loop, or the remaining passes. */
  ghost predicate RestSim(p': State, code: Cfg, out: Out, name: Option<Label>, rest: seq<Option<Var>>, body: Block,
                          next: BlockId, finish: BlockId)
    requires out.frames != []
  {
    if rest == [] then next == finish && !out.terminal
    else p'.at == next && p'.at in p'.code && p'.code[next] == [] && PassesSim(p', code, out, name, rest, body)
  }

  lemma RestMatches(g: Cfg, rho: Link, env: Env, c: Conf, tr: Trace, fuel: nat, p': State, code: Cfg, out: Out, name: Option<Label>,
                    rest: seq<Option<Var>>, body: Block, next: BlockId, finish: BlockId)
    requires out.frames != [] && out.i == 0 && out.b == finish && Linked(code, g, rho)
    requires RestSim(p', code, out, name, rest, body, next, finish) && Lands(g, env, c, 1, rho(next), 0, tr)
    ensures Matches(g, rho, env, c, ForEach(env, name, rest, body, tr, fuel), fuel, out)
  {
    if rest == [] {
      LandsFewer(g, env, c, 1, 0, rho(finish), 0, tr);
    } else {
      var n, m' := LandingRegs(g, env, c, 1, rho(next), 0, tr);
      assert Start(p', rho, m') == Spot(rho(next), 0, m');
      var r' := ForEach(env, name, rest, body, tr, fuel);
      assert Matches(g, rho, env, Start(p', rho, m'), r', fuel, out);
      Prepend(g, rho, env, c, n, r', fuel, fuel, out);
    }
  }

  /** A pass that goes on lands in the next block. */
  lemma PassLands(p: State, p1: State, q: State, code: Cfg, g: Cfg, rho: Link, env: Env, c: Conf, r: Result, fuel: nat, t: bool,
                  inner: Out, outer: Out, l: LoopBlocks, name: Option<Label>, vs: seq<Var>, body: Block)
    requires PassCode(p, p1, q, code, t, vs, body, l.cont) && Linked(code, g, rho)
    requires inner == PassOut(p, q, t, vs, body)
    requires LoopFramed(inner, outer, l, name) && Matches(g, rho, env, c, r, fuel, inner) && ContinuesLoop(r.exit, name)
    requires r.decls == []
    ensures Lands(g, env, c, 1, rho(l.cont), 0, r.tr)
  {
    hide PassCode, Linked, LoopFramed, Matches, Lands, BodyEndGoes, ContinuesLoop;
    PassEndGoes(p, p1, q, code, g, rho, env, t, l, vs, body);
    BodyContinues(g, rho, env, c, r, fuel, inner, outer, l, name);
  }

  lemma PassEndGoes(p: State, p1: State, q: State, code: Cfg, g: Cfg, rho: Link, env: Env, t: bool, l: LoopBlocks,
                    vs: seq<Var>, body: Block)
    requires PassCode(p, p1, q, code, t, vs, body, l.cont) && Linked(code, g, rho)
    ensures BodyEndGoes(g, rho, env, l, PassOut(p, q, t, vs, body))
  {
    hide Linked, Lands, Emits, Destroys, DeclaredIn, Has, Contains, Sim, Sound;
    var inner := PassOut(p, q, t, vs, body);
    if !t {
      HasSplit(code, q.at, q.Here(), Emits(Destroys(vs + DeclaredIn(body))), [Br(l.cont)]);
      forall m: Regs ensures Lands(g, env, Spot(rho(inner.b), inner.i, m), 1, rho(l.cont), 0, m.tr) {
        JumpLands(code, g, rho, env, inner.b, inner.i, l.cont, m);
      }
    }
  }

  /** One pass, and the passes after it if the first one can go on to them. */
  lemma PassRule(p: State, p1: State, q: State, p': State, f: State, t: bool, out: Out, name: Option<Label>,
                 elements: seq<Option<Var>>, body: Block, next: BlockId, finish: BlockId)
    requires Sound(p) && Sound(p1) && Sound(q) && Sound(f) && elements != [] && Sim(p1, q, t, List(body))
    requires PassCode(p, p1, q, f.code, t, Bound(elements[0]), body, next)
    requires (forall k :: 0 <= k < |q.loops| ==> q.loops[k].size <= |p.frames|) && out.frames == p.frames
    requires q.loops != [] && LoopsGrow(q.loops[..|q.loops| - 1], out.loops) && out.i == 0 && out.b == finish
    requires LoopFramed(PassOut(p, q, t, Bound(elements[0]), body), out.(loops := q.loops[..|q.loops| - 1]), LoopBlocks(next, next, next, finish), name)
    requires GoesOn(q, t) ==> RestSim(p', f.code, out, name, elements[1..], body, next, finish)
    ensures PassesSim(p, f.code, out, name, elements, body)
  {
    var vs := Bound(elements[0]);
    var inner, outer, l := PassOut(p, q, t, vs, body), out.(loops := q.loops[..|q.loops| - 1]), LoopBlocks(next, next,
                                   next, finish);
    forall g, rho, env, m: Regs, fuel: nat | Linked(f.code, g, rho)
      ensures Matches(g, rho, env, Start(p, rho, m), ForEach(env, name, elements, body, m.tr, fuel), fuel, out)
    {
      var c, r := Start(p, rho, m), ExecScope(env, vs, body, m.tr + Inits(vs), fuel);
      PassMatches(p, p1, q, f, g, rho, env, t, vs, body, next, m, fuel);
      if BreaksLoop(r.exit, name) {
        BodyBreaks(g, rho, env, c, r, fuel, inner, outer, l, name);
        MatchesGrow(g, rho, env, c, Ended(Normal, r.tr), fuel, outer, out);
      } else if ContinuesLoop(r.exit, name) {
        PassGoesOn(g, rho, env, c, r, fuel, q, t, inner, outer, l, name);
        PassLands(p, p1, q, f.code, g, rho, env, c, r, fuel, t, inner, outer, l, name, vs, body);
        RestMatches(g, rho, env, c, r.tr, fuel, p', f.code, out, name, elements[1..], body, next, finish);
      } else {
        PassOutwards(g, rho, env, c, r, fuel, inner, outer, l, name);
        MatchesGrow(g, rho, env, c, r, fuel, outer, out);
      }
    }
  }

  lemma PassGoesOn(g: Cfg, rho: Link, env: Env, c: Conf, r: Result, fuel: nat, q: State, t: bool, inner: Out,
                   outer: Out, l: LoopBlocks, name: Option<Label>)
    requires LoopFramed(inner, outer, l, name) && Matches(g, rho, env, c, r, fuel, inner)
    requires inner.terminal == t && inner.loops == q.loops && ContinuesLoop(r.exit, name)
    ensures GoesOn(q, t)
  {
    if r.exit.Continued? { LoopJump(inner, outer, l, name, r.exit.target); }
  }

  lemma UsePasses(p: State, code: Cfg, g: Cfg, rho: Link, env: Env, m: Regs, fuel: nat, out: Out, name: Option<Label>,
                  elements: seq<Option<Var>>, body: Block)
    requires p.at in p.code && out.frames != [] && PassesSim(p, code, out, name, elements, body) && Linked(code, g, rho)
    ensures Matches(g, rho, env, Start(p, rho, m), ForEach(env, name, elements, body, m.tr, fuel), fuel, out)
  {
  }

  lemma TupleForMatches(a: State, p: State, x: State, f: State, t: bool, s: Stmt, g: Cfg, rho: Link, env: Env, m: Regs,
                        fuel: nat)
    requires Sound(a) && Sound(p) && Sound(x) && Sound(f) && s.TupleFor? && Linked(f.code, g, rho)
    requires p.at == a.at && p.code[p.at] == a.code[a.at] + EnterCode(s.e) && p.frames == a.frames + [s.e.temps]
    requires Contains(p.code, f.code) && Contains(x.code, f.code)
    requires PassesSim(p, x.code, OutOf(p, x, t), s.name, s.elements, s.body)
    requires f.at == x.at && f.loops == x.loops && (!t ==> f.code[f.at] == x.code[x.at] + Emits(Destroys(s.e.temps)))
    requires forall k :: 0 <= k < |f.loops| ==> f.loops[k].size <= |a.frames|
    ensures Matches(g, rho, env, Start(a, rho, m), Exec(env, s, m.tr, fuel), fuel, OutOf(a, f, t))
  {
    hide PassesSim, Linked, Contains, Sound;
    SoundFacts(a);
    SoundFacts(p);
    SoundFacts(x);
    SoundFacts(f);
    var vs := s.e.temps;
    assert Has(p.code, a.at, a.Here(), EnterCode(s.e));
    HasPart(p.code, f.code, a.at, a.Here(), EnterCode(s.e));
    RunLinked(f.code, g, rho, env, a.at, a.Here(), EnterCode(s.e), m);
    EnterEffects(env, s.e, m);
    var m' := Regs(Enter(s.e, m.tr), m.flag, m.val);
    LinkedPart(x.code, f.code, g, rho);
    var r := ForEach(env, s.name, s.elements, s.body, m'.tr, fuel);
    UsePasses(p, x.code, g, rho, env, m', fuel, OutOf(p, x, t), s.name, s.elements, s.body);
    Prepend(g, rho, env, Start(a, rho, m), |EnterCode(s.e)|, r, fuel, fuel, OutOf(p, x, t));
    assert vs + r.decls == vs;
    if !t { assert Has(f.code, x.at, x.Here(), Emits(Destroys(vs))); }
    LeaveMatches(g, rho, env, Start(a, rho, m), r, fuel, OutOf(p, x, t), OutOf(a, f, t), vs, f.code, Emits(Destroys(vs)));
  }

  /** The passes inside the scope of the sequence expression's temporaries. */
  lemma TupleForRule(a: State, p: State, x: State, f: State, t: bool, s: Stmt)
    requires Sound(a) && Sound(p) && Sound(x) && Sound(f) && s.TupleFor?
    requires p.at == a.at && p.code[p.at] == a.code[a.at] + EnterCode(s.e) && p.frames == a.frames + [s.e.temps]
    requires Contains(p.code, f.code) && Contains(x.code, f.code)
    requires PassesSim(p, x.code, OutOf(p, x, t), s.name, s.elements, s.body)
    requires f.at == x.at && f.loops == x.loops && (!t ==> f.code[f.at] == x.code[x.at] + Emits(Destroys(s.e.temps)))
    requires forall k :: 0 <= k < |f.loops| ==> f.loops[k].size <= |a.frames|
    ensures Sim(a, f, t, One(s))
  {
    hide PassesSim, Linked, Contains, Matches;
    forall g, rho, env, m: Regs, fuel: nat | Linked(f.code, g, rho)
      ensures Matches(g, rho, env, Start(a, rho, m), Meaning(env, One(s), m.tr, fuel), fuel, OutOf(a, f, t))
    {
      TupleForMatches(a, p, x, f, t, s, g, rho, env, m, fuel);
    }
  }

  // ----- switch -----

  function FirstMatch(kind: IntType, cases: seq<Case>, v: nat): (k: Option<nat>)
    ensures k.Some? ==> k.value < |cases|
  {
    if cases == [] then None
    else if cases[0].ranges.Some? && kind.InSome(cases[0].ranges.value, v) then Some(0)
    else
      match FirstMatch(kind, cases[1..], v)
      case Some(k) => Some(k + 1)
      case None => None
  }

  function DefaultCase(cases: seq<Case>): (k: Option<nat>)
    ensures k.Some? ==> k.value < |cases| && cases[k.value].ranges.None?
  {
    if cases == [] then None
    else
      match DefaultCase(cases[1..])
      case Some(k) => Some(k + 1)
      case None => if cases[0].ranges.None? then Some(0) else None
  }

  lemma {:induction false} SelectedCase(kind: IntType, cases: seq<Case>, v: nat)
    ensures Selected(kind, cases, v) == if FirstMatch(kind, cases, v).Some? then FirstMatch(kind, cases, v) else DefaultCase(cases)
  {
    if cases != [] { SelectedCase(kind, cases[1..], v); }
  }

  /** The ranges of all cases, in source order. */
  function AllRanges(cases: seq<Case>): seq<Range> {
    if cases == [] then []
    else (if cases[0].ranges.Some? then cases[0].ranges.value else []) + AllRanges(cases[1..])
  }

  /** Every case but the default one has ranges, and all of them are of the type of the switch and not empty. */
  predicate CasesValid(kind: IntType, cases: seq<Case>)
    requires kind.Valid()
  {
    forall k :: 0 <= k < |cases| && cases[k].ranges.Some? ==> cases[k].ranges.value != [] && kind.ValidRanges(cases[k].ranges.value)
  }

  /** There is at most one default case. */
  predicate SingleDefault(cases: seq<Case>) {
    forall i, j :: 0 <= i < j < |cases| ==> cases[i].ranges.Some? || cases[j].ranges.Some?
  }

  lemma {:induction false} AllRangesValid(kind: IntType, cases: seq<Case>)
    requires kind.Valid() && CasesValid(kind, cases)
    ensures kind.ValidRanges(AllRanges(cases))
  {
    if cases != [] { AllRangesValid(kind, cases[1..]); }
  }

  /** A value in some range of some case has a matching case. */
  lemma {:induction false} CountedMatches(kind: IntType, cases: seq<Case>, v: nat, k: nat)
    requires k < |AllRanges(cases)| && kind.Contains(AllRanges(cases)[k], v)
    ensures FirstMatch(kind, cases, v).Some?
  {
    var rs := if cases[0].ranges.Some? then cases[0].ranges.value else [];
    if k < |rs| {
      assert kind.Contains(rs[k], v);
    } else {
      CountedMatches(kind, cases[1..], v, k - |rs|);
    }
  }

  lemma {:induction false} NoRanges(cases: seq<Case>)
    requires forall k :: 0 <= k < |cases| ==> cases[k].ranges.None?
    ensures AllRanges(cases) == []
  {
    if cases != [] { NoRanges(cases[1..]); }
  }

  /** Ranges that cover a type belong to some case. */
  lemma PartitionHasCase(kind: IntType, cases: seq<Case>)
    requires kind.Valid() && kind.Partition(AllRanges(cases))
    ensures exists k :: 0 <= k < |cases| && cases[k].ranges.Some?
  {
    if forall k :: 0 <= k < |cases| ==> cases[k].ranges.None? {
      NoRanges(cases);
      kind.HalfModulus();
      assert kind.InType(kind.AsInt(kind.Low()));
    }
  }

  /** Without a default case, accepted ranges leave no value of the type without a case. */
  lemma PartitionMatches(kind: IntType, cases: seq<Case>, v: nat)
    requires kind.Valid() && kind.Partition(AllRanges(cases)) && kind.Pattern(v)
    ensures FirstMatch(kind, cases, v).Some?
  {
    kind.PatternBounds(v);
    var k := kind.CountHit(AllRanges(cases), kind.AsInt(v));
    CountedMatches(kind, cases, v, k);
  }

  /** Equality and two-sided comparisons of patterns decide membership of a range. */
  lemma {:induction false} ComparisonDecides(kind: IntType, rs: seq<Range>, v: nat)
    requires kind.Valid() && kind.ValidRanges(rs) && kind.Pattern(v)
    ensures InAny(kind, rs, v) == kind.InSome(rs, v)
  {
    if rs != [] {
      assert kind.ValidRange(rs[0]);
      kind.HalfModulus();
      assert InRange(kind, rs[0], v) == kind.Contains(rs[0], v);
      ComparisonDecides(kind, rs[1..], v);
      if kind.InSome(rs, v) && !kind.Contains(rs[0], v) {
        var i :| 0 <= i < |rs| && kind.Contains(rs[i], v);
        assert kind.Contains(rs[1..][i - 1], v);
      }
      if kind.InSome(rs[1..], v) {
        var i :| 0 <= i < |rs[1..]| && kind.Contains(rs[1..][i], v);
        assert kind.Contains(rs[i + 1], v);
      }
    }
  }

  /** From p on, the comparisons run the first matching case, or arrive at the end of the chain. */
  ghost predicate ChainSim(p: State, code: Cfg, kind: IntType, cases: seq<Case>, out: Out, b: BlockId, i: nat)
    requires p.at in p.code && out.frames != [] && kind.Valid()
  {
    forall g, rho, env, m: Regs, fuel :: Linked(code, g, rho) && kind.Pattern(m.val) ==>
      ChainGoes(g, rho, env, Start(p, rho, m), m, fuel, kind, cases, out, b, i)
  }

  ghost predicate ChainGoes(g: Cfg, rho: Link, env: Env, c: Conf, m: Regs, fuel: nat, kind: IntType, cases: seq<Case>,
                            out: Out, b: BlockId, i: nat)
    requires out.frames != []
  {
    match FirstMatch(kind, cases, m.val)
    case None => Lands(g, env, c, 0, rho(b), i, m.tr)
    case Some(k) => Matches(g, rho, env, c, ExecScope(env, [], cases[k].body, m.tr, fuel), fuel, out)
  }

  lemma NoCasesRule(p: State, kind: IntType, out: Out)
    requires Sound(p) && out.frames != [] && kind.Valid()
    ensures ChainSim(p, p.code, kind, [], out, p.at, p.Here())
  {
    forall g, rho, env, m: Regs, fuel: nat | Linked(p.code, g, rho) && kind.Pattern(m.val)
      ensures ChainGoes(g, rho, env, Start(p, rho, m), m, fuel, kind, [], out, p.at, p.Here())
    {
      StayLands(g, env, rho(p.at), p.Here(), m);
    }
  }

  lemma SkipDefaultRule(p: State, code: Cfg, kind: IntType, cases: seq<Case>, out: Out, b: BlockId, i: nat)
    requires p.at in p.code && out.frames != [] && kind.Valid() && cases != [] && cases[0].ranges.None?
    requires ChainSim(p, code, kind, cases[1..], out, b, i)
    ensures ChainSim(p, code, kind, cases, out, b, i)
  {
    forall g, rho, env, m: Regs, fuel: nat | Linked(code, g, rho) && kind.Pattern(m.val)
      ensures ChainGoes(g, rho, env, Start(p, rho, m), m, fuel, kind, cases, out, b, i)
    {
      assert ChainGoes(g, rho, env, Start(p, rho, m), m, fuel, kind, cases[1..], out, b, i);
    }
  }

  lemma RunCompare(code: Cfg, g: Cfg, rho: Link, env: Env, b: BlockId, i: nat, kind: IntType, rs: seq<Range>,
                   yes: BlockId, no: BlockId, m: Regs)
    requires Linked(code, g, rho) && Has(code, b, i, [Compare(kind, rs)] + [CondBr(yes, no)])
    requires kind.Valid() && kind.ValidRanges(rs) && kind.Pattern(m.val)
    ensures Run(g, env, 2, Spot(rho(b), i, m)) == Spot(rho(if kind.InSome(rs, m.val) then yes else no), 0, m.(flag := kind.InSome(rs, m.val)))
  {
    HasSplit(code, b, i, [Compare(kind, rs)], [CondBr(yes, no)]);
    RunLinked(code, g, rho, env, b, i, [Compare(kind, rs)], m);
    ComparisonDecides(kind, rs, m.val);
    var m' := m.(flag := kind.InSome(rs, m.val));
    assert Effects(env, [Compare(kind, rs)], m) == m';
    RunFork(code, g, rho, env, b, i + 1, yes, no, m');
    RunAdd(g, env, 1, 1, Spot(rho(b), i, m));
  }

  /** A case: its comparison, its body, and the rest of the chain. */
  lemma CaseRule(p: State, h: State, q: State, p': State, code: Cfg, t: bool, kind: IntType, cases: seq<Case>, out: Out,
                 b: BlockId, i: nat)
    requires Sound(p) && Sound(h) && Sound(q) && Sound(p') && out.frames != [] && kind.Valid() && cases != []
    requires cases[0].ranges.Some?
    requires kind.ValidRanges(cases[0].ranges.value)
    requires Has(code, p.at, p.Here(), [Compare(kind, cases[0].ranges.value)] + [CondBr(h.at, p'.at)])
    requires h.code[h.at] == [] && p'.code[p'.at] == [] && h.frames == out.frames
    requires Sim(h, q, t, Nested(cases[0].body)) && Contains(q.code, code) && LoopsGrow(q.loops, out.loops)
    requires !t ==> !out.terminal && out.i == 0 && Has(code, q.at, q.Here(), [Br(out.b)])
    requires ChainSim(p', code, kind, cases[1..], out, b, i)
    ensures ChainSim(p, code, kind, cases, out, b, i)
  {
    var rs := cases[0].ranges.value;
    forall g, rho, env, m: Regs, fuel: nat | Linked(code, g, rho) && kind.Pattern(m.val)
      ensures ChainGoes(g, rho, env, Start(p, rho, m), m, fuel, kind, cases, out, b, i)
    {
      var c, m' := Start(p, rho, m), m.(flag := kind.InSome(rs, m.val));
      RunCompare(code, g, rho, env, p.at, p.Here(), kind, rs, h.at, p'.at, m);
      if kind.InSome(rs, m.val) {
        LinkedPart(q.code, code, g, rho);
        UseSim(h, q, t, Nested(cases[0].body), g, rho, env, m', fuel);
        var r := ExecScope(env, [], cases[0].body, m.tr, fuel);
        JoinMatches(code, g, rho, env, Start(h, rho, m'), r, fuel, OutOf(h, q, t), out);
        Prepend(g, rho, env, c, 2, r, fuel, fuel, out);
      } else {
        assert ChainGoes(g, rho, env, Start(p', rho, m'), m', fuel, kind, cases[1..], out, b, i);
        match FirstMatch(kind, cases[1..], m.val)
        case None =>
          LandsAfter(g, env, c, 2, 0, rho(b), i, m.tr);
          LandsFewer(g, env, c, 2, 0, rho(b), i, m.tr);
        case Some(k) =>
          assert cases[1..][k] == cases[k + 1];
          Prepend(g, rho, env, c, 2, ExecScope(env, [], cases[k + 1].body, m.tr, fuel), fuel, fuel, out);
      }
    }
  }

  lemma ChainPart(p: State, code: Cfg, code': Cfg, kind: IntType, cases: seq<Case>, out: Out, out': Out, b: BlockId,
                  i: nat)
    requires p.at in p.code && out.frames != [] && kind.Valid() && ChainSim(p, code, kind, cases, out, b, i)
    requires Contains(code, code')
    requires out'.frames == out.frames && LoopsGrow(out.loops, out'.loops)
    requires !out.terminal ==> !out'.terminal && out'.b == out.b && out'.i == out.i
    ensures ChainSim(p, code', kind, cases, out', b, i)
  {
    forall g, rho, env, m: Regs, fuel: nat | Linked(code', g, rho) && kind.Pattern(m.val)
      ensures ChainGoes(g, rho, env, Start(p, rho, m), m, fuel, kind, cases, out', b, i)
    {
      LinkedPart(code, code', g, rho);
      assert ChainGoes(g, rho, env, Start(p, rho, m), m, fuel, kind, cases, out, b, i);
      match FirstMatch(kind, cases, m.val)
      case None =>
      case Some(k) => MatchesGrow(g, rho, env, Start(p, rho, m), ExecScope(env, [], cases[k].body, m.tr, fuel), fuel,
                out, out');
    }
  }

  // ----- making all branches to one block lead to another -----

  function Redirect(n: BlockId, d: BlockId): Link {
    x => if x == n then d else x
  }

  /** All uses of block n replaced by block d, and n itself removed. */
  function Redirected(code: Cfg, n: BlockId, d: BlockId): Cfg {
    map b | b in code && b != n :: RelinkAll(Redirect(n, d), code[b])
  }

  /** The link rho after all branches to n were made to lead to d. */
  function Via(rho: Link, n: BlockId, d: BlockId): Link {
    x => rho(if x == n then d else x)
  }

  lemma RelinkVia(rho: Link, n: BlockId, d: BlockId, cs: Code)
    ensures RelinkAll(rho, RelinkAll(Redirect(n, d), cs)) == RelinkAll(Via(rho, n, d), cs)
  {
    forall k | 0 <= k < |cs| ensures Relink(rho, Relink(Redirect(n, d), cs[k])) == Relink(Via(rho, n, d), cs[k]) {
    }
  }

  lemma LinkedRedirected(code: Cfg, n: BlockId, d: BlockId, g: Cfg, rho: Link)
    requires Linked(Redirected(code, n, d), g, rho) && n in code && code[n] == []
    ensures Linked(code, g, Via(rho, n, d))
  {
    forall b | b in code && code[b] != [] ensures Via(rho, n, d)(b) in g && RelinkAll(Via(rho, n, d), code[b]) <= g[Via(rho, n, d)(b)] {
      assert b in Redirected(code, n, d) && Redirected(code, n, d)[b] == RelinkAll(Redirect(n, d), code[b]);
      RelinkVia(rho, n, d, code[b]);
    }
  }

  /** Links that agree on where control may leave to match the same results. */
  lemma MatchesLink(g: Cfg, rho: Link, rho': Link, env: Env, c: Conf, r: Result, fuel: nat, out: Out)
    requires out.frames != [] && Matches(g, rho, env, c, r, fuel, out) && rho'(out.b) == rho(out.b)
    requires forall k :: 0 <= k < |out.loops| ==>
               rho'(out.loops[k].brk) == rho(out.loops[k].brk) && (out.loops[k].cont.Some? ==> rho'(out.loops[k].cont.value) == rho(out.loops[k].cont.value))
    ensures Matches(g, rho', env, c, r, fuel, out)
  {
  }

  /** Nothing but the end of the chain is the redirected block. */
  ghost predicate Avoids(out: Out, n: BlockId) {
    n != out.b && forall k :: 0 <= k < |out.loops| ==> out.loops[k].brk != n && out.loops[k].cont != Some(n)
  }

  lemma ChainGoesVia(g: Cfg, rho: Link, env: Env, c: Conf, m: Regs, fuel: nat, kind: IntType, cases: seq<Case>,
                     out: Out, n: BlockId, d: BlockId)
    requires out.frames != [] && Avoids(out, n) && ChainGoes(g, Via(rho, n, d), env, c, m, fuel, kind, cases, out, n, 0)
    ensures ChainGoes(g, rho, env, c, m, fuel, kind, cases, out, d, 0)
  {
    match FirstMatch(kind, cases, m.val)
    case None =>
    case Some(k) => MatchesLink(g, Via(rho, n, d), rho, env, c, ExecScope(env, [], cases[k].body, m.tr, fuel), fuel, out);
  }

  /** The chain after its last, still empty, block has been replaced by the block control goes on in. */
  lemma ChainRedirected(p: State, z: State, f: Cfg, kind: IntType, cases: seq<Case>, out: Out, n: BlockId, d: BlockId)
    requires Sound(p) && Sound(z) && out.frames != [] && kind.Valid() && ChainSim(p, z.code, kind, cases, out, n, 0)
    requires n in z.code && z.code[n] == [] && n != p.at && Contains(Redirected(z.code, n, d), f) && Avoids(out, n)
    ensures ChainSim(p, f, kind, cases, out, d, 0)
  {
    forall g, rho, env, m: Regs, fuel: nat | Linked(f, g, rho) && kind.Pattern(m.val)
      ensures ChainGoes(g, rho, env, Start(p, rho, m), m, fuel, kind, cases, out, d, 0)
    {
      LinkedPart(Redirected(z.code, n, d), f, g, rho);
      LinkedRedirected(z.code, n, d, g, rho);
      assert Start(p, Via(rho, n, d), m) == Start(p, rho, m);
      UseChain(p, z.code, g, Via(rho, n, d), env, m, fuel, kind, cases, out, n, 0);
      ChainGoesVia(g, rho, env, Start(p, rho, m), m, fuel, kind, cases, out, n, d);
    }
  }

  lemma UseChain(p: State, code: Cfg, g: Cfg, rho: Link, env: Env, m: Regs, fuel: nat, kind: IntType, cases: seq<Case>,
                 out: Out, b: BlockId, i: nat)
    requires p.at in p.code && out.frames != [] && kind.Valid() && ChainSim(p, code, kind, cases, out, b, i)
    requires Linked(code, g, rho) && kind.Pattern(m.val)
    ensures ChainGoes(g, rho, env, Start(p, rho, m), m, fuel, kind, cases, out, b, i)
  {
  }

  // ----- the whole switch -----

  lemma ReadRuns(code: Cfg, g: Cfg, rho: Link, env: Env, b: BlockId, i: nat, e: Expr, kind: IntType, m: Regs)
    requires Linked(code, g, rho) && Has(code, b, i, ReadCode(e, kind))
    ensures Run(g, env, |ReadCode(e, kind)|, Spot(rho(b), i, m)) ==
            Spot(rho(b), i + |ReadCode(e, kind)|, Regs(After(e, m.tr), m.flag, Value(env, e, kind, m.tr)))
  {
    RunLinked(code, g, rho, env, b, i, ReadCode(e, kind), m);
    SandwichEffects(env, e, Read(e.id, kind), m);
  }

  lemma SwitchMatches(a: State, p: State, f: State, t: bool, b: BlockId, i: nat, s: Stmt, g: Cfg, rho: Link, env: Env,
                      m: Regs, fuel: nat)
    requires Sound(a) && Sound(p) && Sound(f) && s.Switch? && s.kind.Valid() && Linked(f.code, g, rho)
    requires p.at == a.at && p.code[p.at] == a.code[a.at] + ReadCode(s.e, s.kind) && Contains(p.code, f.code)
    requires ChainSim(p, f.code, s.kind, s.cases, OutOf(a, f, t), b, i)
    requires DefaultCase(s.cases).None? && s.kind.Partition(AllRanges(s.cases))
    ensures Matches(g, rho, env, Start(a, rho, m), Exec(env, s, m.tr, fuel), fuel, OutOf(a, f, t))
  {
    hide ChainSim, Linked, Contains, Sound, Matches;
    SoundFacts(a);
    SoundFacts(p);
    SoundFacts(f);
    assert Has(p.code, a.at, a.Here(), ReadCode(s.e, s.kind));
    HasPart(p.code, f.code, a.at, a.Here(), ReadCode(s.e, s.kind));
    ReadRuns(f.code, g, rho, env, a.at, a.Here(), s.e, s.kind, m);
    var m' := Regs(After(s.e, m.tr), m.flag, Value(env, s.e, s.kind, m.tr));
    s.kind.ClipInType(env.value(s.e.id, Enter(s.e, m.tr)));
    UseChain(p, f.code, g, rho, env, m', fuel, s.kind, s.cases, OutOf(a, f, t), b, i);
    PartitionMatches(s.kind, s.cases, m'.val);
    SelectedCase(s.kind, s.cases, m'.val);
    var k := FirstMatch(s.kind, s.cases, m'.val).value;
    Prepend(g, rho, env, Start(a, rho, m), |ReadCode(s.e, s.kind)|, ExecScope(env, [], s.cases[k].body, m'.tr, fuel),
            fuel, fuel, OutOf(a, f, t));
  }

  /** The value, the chain, and without a default case nothing else: some case always matches. */
  lemma SwitchRule(a: State, p: State, f: State, t: bool, b: BlockId, i: nat, s: Stmt)
    requires Sound(a) && Sound(p) && Sound(f) && s.Switch? && s.kind.Valid()
    requires p.at == a.at && p.code[p.at] == a.code[a.at] + ReadCode(s.e, s.kind) && Contains(p.code, f.code)
    requires ChainSim(p, f.code, s.kind, s.cases, OutOf(a, f, t), b, i)
    requires DefaultCase(s.cases).None? && s.kind.Partition(AllRanges(s.cases))
    ensures Sim(a, f, t, One(s))
  {
    hide ChainSim, Linked, Contains, Matches;
    forall g, rho, env, m: Regs, fuel: nat | Linked(f.code, g, rho)
      ensures Matches(g, rho, env, Start(a, rho, m), Meaning(env, One(s), m.tr, fuel), fuel, OutOf(a, f, t))
    {
      SwitchMatches(a, p, f, t, b, i, s, g, rho, env, m, fuel);
    }
  }

  lemma DefaultMatches(g: Cfg, rho: Link, env: Env, c: Conf, tr: Trace, fuel: nat, d: State, q: State, code: Cfg,
                       td: bool, body: Block, out: Out)
    requires Sound(d) && Sound(q) && d.code[d.at] == [] && d.frames == out.frames && Sim(d, q, td, Nested(body))
    requires Linked(code, g, rho) && Contains(q.code, code) && LoopsGrow(q.loops, out.loops)
    requires !td ==> !out.terminal && out.i == 0 && Has(code, q.at, q.Here(), [Br(out.b)])
    requires Lands(g, env, c, 0, rho(d.at), 0, tr)
    ensures Matches(g, rho, env, c, ExecScope(env, [], body, tr, fuel), fuel, out)
  {
    var n, m := LandingRegs(g, env, c, 0, rho(d.at), 0, tr);
    LinkedPart(q.code, code, g, rho);
    UseSim(d, q, td, Nested(body), g, rho, env, m, fuel);
    var r := ExecScope(env, [], body, tr, fuel);
    JoinMatches(code, g, rho, env, Start(d, rho, m), r, fuel, OutOf(d, q, td), out);
    Prepend(g, rho, env, c, n, r, fuel, fuel, out);
  }

  /** A matching case, or else the default one. */
  lemma ChainOrDefault(g: Cfg, rho: Link, env: Env, c: Conf, m: Regs, fuel: nat, d: State, q: State, code: Cfg, td: bool, k: nat,
                       kind: IntType, cases: seq<Case>, out: Out)
    requires out.frames != [] && d.frames == out.frames && DefaultCase(cases) == Some(k)
    requires ChainGoes(g, rho, env, c, m, fuel, kind, cases, out, d.at, 0)
    requires Sound(d) && Sound(q) && d.code[d.at] == [] && Sim(d, q, td, Nested(cases[k].body))
    requires Linked(code, g, rho) && Contains(q.code, code) && LoopsGrow(q.loops, out.loops)
    requires !td ==> !out.terminal && out.i == 0 && Has(code, q.at, q.Here(), [Br(out.b)])
    ensures var j := Selected(kind, cases, m.val);
            j.Some? && Matches(g, rho, env, c, ExecScope(env, [], cases[j.value].body, m.tr, fuel), fuel, out)
  {
    SelectedCase(kind, cases, m.val);
    if FirstMatch(kind, cases, m.val).None? {
      DefaultMatches(g, rho, env, c, m.tr, fuel, d, q, code, td, cases[k].body, out);
    }
  }

  /** Reading the value, then whatever the chain does with it. */
  lemma ReadThenChain(code: Cfg, g: Cfg, rho: Link, env: Env, b: BlockId, i: nat, s: Stmt, m: Regs, fuel: nat, j: nat,
                      out: Out)
    requires s.Switch? && out.frames != [] && Linked(code, g, rho) && Has(code, b, i, ReadCode(s.e, s.kind))
    requires Selected(s.kind, s.cases, Value(env, s.e, s.kind, m.tr)) == Some(j)
    requires var m' := Regs(After(s.e, m.tr), m.flag, Value(env, s.e, s.kind, m.tr));
             Matches(g, rho, env, Spot(rho(b), i + |ReadCode(s.e, s.kind)|, m'), ExecScope(env, [], s.cases[j].body, m'.tr, fuel), fuel, out)
    ensures Matches(g, rho, env, Spot(rho(b), i, m), Meaning(env, One(s), m.tr, fuel), fuel, out)
  {
    ReadRuns(code, g, rho, env, b, i, s.e, s.kind, m);
    SwitchMeaning(env, s, m.tr, fuel, j);
    Prepend(g, rho, env, Spot(rho(b), i, m), |ReadCode(s.e, s.kind)|, Meaning(env, One(s), m.tr, fuel), fuel, fuel, out);
  }

  lemma SwitchDefaultMatches(a: State, p: State, d: State, q: State, f: State, t: bool, td: bool, k: nat, s: Stmt,
                             g: Cfg, rho: Link, env: Env, m: Regs, fuel: nat)
    requires Sound(a) && Sound(p) && Sound(d) && Sound(q) && Sound(f) && s.Switch? && s.kind.Valid()
    requires p.at == a.at && p.code[p.at] == a.code[a.at] + ReadCode(s.e, s.kind) && Contains(p.code, f.code)
    requires ChainSim(p, f.code, s.kind, s.cases, OutOf(a, f, t), d.at, 0)
    requires DefaultCase(s.cases) == Some(k) && d.code[d.at] == [] && d.frames == a.frames
    requires Sim(d, q, td, Nested(s.cases[k].body)) && Contains(q.code, f.code) && LoopsGrow(q.loops, f.loops)
    requires !td ==> !t && Has(f.code, q.at, q.Here(), [Br(f.at)]) && f.code[f.at] == []
    requires Linked(f.code, g, rho)
    ensures Matches(g, rho, env, Start(a, rho, m), Meaning(env, One(s), m.tr, fuel), fuel, OutOf(a, f, t))
  {
    hide ChainSim, Linked, Contains, Sound, Matches, Sim, LoopsGrow;
    SoundFacts(a);
    SoundFacts(p);
    SoundFacts(d);
    SoundFacts(q);
    SoundFacts(f);
    assert Has(p.code, a.at, a.Here(), ReadCode(s.e, s.kind));
    HasPart(p.code, f.code, a.at, a.Here(), ReadCode(s.e, s.kind));
    var m' := Regs(After(s.e, m.tr), m.flag, Value(env, s.e, s.kind, m.tr));
    s.kind.ClipInType(env.value(s.e.id, Enter(s.e, m.tr)));
    UseChain(p, f.code, g, rho, env, m', fuel, s.kind, s.cases, OutOf(a, f, t), d.at, 0);
    ChainOrDefault(g, rho, env, Start(p, rho, m'), m', fuel, d, q, f.code, td, k, s.kind, s.cases, OutOf(a, f, t));
    ReadThenChain(f.code, g, rho, env, a.at, a.Here(), s, m, fuel, Selected(s.kind, s.cases, m'.val).value,
                  OutOf(a, f, t));
  }

  /** With a default case, the end of the chain is its block. */
  lemma SwitchDefaultRule(a: State, p: State, d: State, q: State, f: State, t: bool, td: bool, k: nat, s: Stmt)
    requires Sound(a) && Sound(p) && Sound(d) && Sound(q) && Sound(f) && s.Switch? && s.kind.Valid()
    requires p.at == a.at && p.code[p.at] == a.code[a.at] + ReadCode(s.e, s.kind) && Contains(p.code, f.code)
    requires ChainSim(p, f.code, s.kind, s.cases, OutOf(a, f, t), d.at, 0)
    requires DefaultCase(s.cases) == Some(k) && d.code[d.at] == [] && d.frames == a.frames
    requires Sim(d, q, td, Nested(s.cases[k].body)) && Contains(q.code, f.code) && LoopsGrow(q.loops, f.loops)
    requires !td ==> !t && Has(f.code, q.at, q.Here(), [Br(f.at)]) && f.code[f.at] == []
    ensures Sim(a, f, t, One(s))
  {
    hide ChainSim, Linked, Contains, Matches, LoopsGrow;
    forall g, rho, env, m: Regs, fuel: nat | Linked(f.code, g, rho)
      ensures Matches(g, rho, env, Start(a, rho, m), Meaning(env, One(s), m.tr, fuel), fuel, OutOf(a, f, t))
    {
      SwitchDefaultMatches(a, p, d, q, f, t, td, k, s, g, rho, env, m, fuel);
    }
  }

  lemma SwitchMeaning(env: Env, s: Stmt, tr: Trace, fuel: nat, j: nat)
    requires s.Switch? && Selected(s.kind, s.cases, Value(env, s.e, s.kind, tr)) == Some(j)
    ensures Meaning(env, One(s), tr, fuel) == ExecScope(env, [], s.cases[j].body, After(s.e, tr), fuel)
  {
  }
}
