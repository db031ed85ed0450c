/** What the steps that build a switch leave behind, as facts about states. */
module SwitchSteps {

  import opened Options
  import opened SwitchRanges
  import opened StructuredCode
  import opened BasicBlocks
  import opened Simulation
  import opened StraightCode
  import opened BuilderState
  import opened StatementRules
  import opened CompoundRules
  import opened BuildSteps

  // ----- redirecting the end of the chain -----

  /** Block n, which is empty, replaced by block d, which is entered. */
  function Rerouted(z: State, n: BlockId, d: BlockId): State {
    Inserted(z.(code := Redirected(z.code, n, d)), d)
  }

  lemma RelinkClosed(rho: Link, cs: Code)
    ensures Closed(cs) ==> Closed(RelinkAll(rho, cs))
  {
    if Closed(cs) {
      var r := RelinkAll(rho, cs);
      assert r[|r| - 1] == Relink(rho, cs[|cs| - 1]);
      forall i | 0 <= i < |r| - 1 ensures !r[i].IsTerminator() {
        assert r[i] == Relink(rho, cs[i]) && cs[i] == cs[..|cs| - 1][i];
      }
    }
  }

  lemma RedirectedTargets(code: Cfg, n: BlockId, d: BlockId, t: BlockId)
    requires t in AllTargets(Redirected(code, n, d))
    ensures t == d || (t in AllTargets(code) && t != n)
  {
    var r := Redirected(code, n, d);
    var b :| b in r && t in TargetsIn(r[b]);
    var i :| 0 <= i < |r[b]| && t in r[b][i].Targets();
    var c := code[b][i];
    assert r[b][i] == Relink(Redirect(n, d), c);
    if t != d {
      assert t in c.Targets();
      assert t in TargetsIn(code[b]);
    }
  }

  /** Code that does not mention the redirected block stays as it is. */
  lemma RelinkSame(cs: Code, n: BlockId, d: BlockId)
    requires n !in TargetsIn(cs)
    ensures RelinkAll(Redirect(n, d), cs) == cs
  {
    forall k | 0 <= k < |cs| ensures Relink(Redirect(n, d), cs[k]) == cs[k] {
      assert n in cs[k].Targets() ==> n in TargetsIn(cs);
    }
  }

  lemma TargetsOfBlock(code: Cfg, b: BlockId, t: BlockId)
    requires b in code && t in TargetsIn(code[b])
    ensures t in AllTargets(code)
  {
  }

  lemma RerouteGrown(base: State, z: State, n: BlockId, d: BlockId)
    requires Sound(base) && Grown(base, z) && base.next <= n && base.next <= d && d !in z.code
    ensures Grown(base, Rerouted(z, n, d))
  {
    var u := Rerouted(z, n, d);
    forall x | x in base.code ensures x in u.code && base.code[x] <= u.code[x] && (x != base.at ==> u.code[x] == base.code[x]) {
      if n in TargetsIn(base.code[x]) { TargetsOfBlock(base.code, x, n); }
      RelinkSame(base.code[x], n, d);
      assert x != n && x != d && u.code[x] == RelinkAll(Redirect(n, d), z.code[x]);
      assert base.code[x] <= z.code[x];
      assert RelinkAll(Redirect(n, d), base.code[x]) <= RelinkAll(Redirect(n, d), z.code[x]);
    }
  }

  lemma GoReroute(base: State, z: State, pending: set<BlockId>, n: BlockId, d: BlockId)
    requires Going(base, z, false, pending) && z.at == n && z.code[n] == []
    requires base.next <= n && base.next <= d < z.next && d !in z.code
    ensures Going(base, Rerouted(z, n, d), false, pending)
  {
    var u := Rerouted(z, n, d);
    RerouteGrown(base, z, n, d);
    var r := Redirected(z.code, n, d);
    AllTargetsInsert(r, d);
    forall t | t in AllTargets(u.code) ensures t == d || (t in AllTargets(z.code) && t != n) { RedirectedTargets(z.code, n, d, t); }
    assert Sound(u);
    if !z.errors {
      forall b | b in u.code && b != d ensures Closed(u.code[b]) {
        RelinkClosed(Redirect(n, d), z.code[b]);
      }
    }
  }

  // ----- the chain of comparisons -----

  /** The state in which the comparison of a case is built. */
  ghost predicate AtCase(base: State, v: State, aimed: bool, after: BlockId) {
    && Going(base, v, false, if aimed then {after} else {})
    && base.next <= after < v.next && after !in v.code && v.frames == base.frames && LoopsGrow(base.loops, v.loops)
  }

  lemma AtCaseReady(base: State, v: State, aimed: bool, after: BlockId)
    requires AtCase(base, v, aimed, after)
    ensures Ready(v) && Sound(v) && v.at in v.code && v.frames == base.frames && v.frames != []
  {
    GoReady(base, v, if aimed then {after} else {});
  }

  function CaseCode(v: State, kind: IntType, rs: seq<Range>): Code {
    [Compare(kind, rs)] + [CondBr(v.next, v.next + 1)]
  }

  ghost predicate CaseStarted(base: State, v: State, h: State, aimed: bool, after: BlockId, kind: IntType,
                              rs: seq<Range>) {
    && v.at in v.code && Ready(h)
    && Going(base, h, false, (if aimed then {after} else {}) + {v.next, v.next + 1})
    && h.at == v.next && h.code[h.at] == [] && h.frames == v.frames && h.loops == v.loops && h.next == v.next + 2
    && v.next + 1 !in h.code && after !in h.code && Contains(v.code, h.code) && Has(h.code, v.at, v.Here(), CaseCode(v, kind, rs))
    && (v.errors ==> h.errors)
  }

  lemma CaseStartedReady(base: State, v: State, h: State, aimed: bool, after: BlockId, kind: IntType, rs: seq<Range>)
    requires CaseStarted(base, v, h, aimed, after, kind, rs)
    ensures Ready(h) && h.at in h.code && h.frames == v.frames && h.frames != [] && h.next == v.next + 2
  {
  }

  lemma CaseStart(base: State, v: State, s0: State, h: State, aimed: bool, after: BlockId, kind: IntType, rs: seq<Range>)
    requires AtCase(base, v, aimed, after) && v.at in v.code && s0 == v.(next := v.next + 2)
    requires h == Inserted(Appended(s0, CaseCode(v, kind, rs)), v.next)
    ensures CaseStarted(base, v, h, aimed, after, kind, rs)
  {
    hide Ready, Sound, Going, Tidy, Grown, Contains, Dangling, LoopsGrow, Sim, Has, Linked, LoopAims;
    var pending := if aimed then {after} else {};
    AtCaseReady(base, v, aimed, after);
    SoundFacts(v);
    NotMentioned(v, v.next); NotMentioned(v, v.next + 1);
    GoCreate(base, v, false, pending);
    GoCreate(base, v.(next := v.next + 1), false, pending);
    GoBranch(base, s0, pending, [Compare(kind, rs)], CondBr(v.next, v.next + 1));
    var s1 := Appended(s0, CaseCode(v, kind, rs));
    GoInsert(base, s1, pending + {v.next, v.next + 1}, v.next);
    ContainsSelf(v.code); ContainsSelf(s1.code);
    KeepAppend(v.code, s0, CaseCode(v, kind, rs));
    KeepInsert(v.code, s1, v.next);
    KeepInsert(s1.code, s1, v.next);
    HasPart(s1.code, h.code, v.at, v.Here(), CaseCode(v, kind, rs));
    GoReady(base, h, pending + {v.next, v.next + 1});
    assert v.next + 1 !in h.code && after !in h.code;
  }

  /** The body of a case is built, and the block for the next case entered. */
  lemma CaseEnds(base: State, v: State, h: State, q: State, y: State, v': State, aimed: bool, t: bool, after: BlockId,
                 kind: IntType, rs: seq<Range>)
    requires AtCase(base, v, aimed, after) && CaseStarted(base, v, h, aimed, after, kind, rs) && h.frames != []
    requires Built(h, q, t, []) && q.at in q.code && y == Joined(q, t, after) && v' == Inserted(y, v.next + 1)
    ensures AtCase(base, v', aimed || !t, after)
    ensures Contains(q.code, v'.code) && Contains(v.code, v'.code)
    ensures Has(v'.code, v.at, v.Here(), CaseCode(v, kind, rs))
    ensures LoopsGrow(v.loops, v'.loops) && v'.loops == q.loops && v'.errors == q.errors && (h.errors ==> q.errors)
    ensures !t ==> Has(v'.code, q.at, q.Here(), [Br(after)])
  {
    hide Ready, Built, Sound, Tidy, Grown, Contains, Dangling, LoopsGrow, Sim, Has, Linked, Going, LoopAims;
    var pending, next := if aimed then {after} else {}, v.next + 1;
    AtCaseReady(base, v, aimed, after);
    CaseStartedReady(base, v, h, aimed, after, kind, rs);
    BuiltLoops(h, q, t, []);
    GoBuilt(base, h, q, pending + {v.next, next}, t, []);
    NotInserted(h, q, t, [], next);
    NotInserted(h, q, t, [], after);
    GoJoined(base, q, t, pending + {v.next, next}, after);
    ContainsSelf(h.code);
    KeepBuilt(h.code, h, q, t, []);
    var pending' := if aimed || !t then {after} else {};
    GoWider(base, y, true, (if t then pending + {v.next, next} else pending + {v.next, next} + {after}),
            pending' + {v.next, next});
    GoInsert(base, y, pending' + {v.next, next}, next);
    KeepInsert(q.code, y, next);
    ContainsTrans(h.code, q.code, v'.code);
    ContainsTrans(v.code, h.code, v'.code);
    HasPart(h.code, v'.code, v.at, v.Here(), CaseCode(v, kind, rs));
    ContainsSelf(y.code);
    KeepInsert(y.code, y, next);
    if !t { HasPart(y.code, v'.code, q.at, q.Here(), [Br(after)]); }
    InKeys(h, v', v.next);
    GoAbsorb(base, v', false, pending' + {v.next, next}, pending');
    ExtendNone(v.frames);
    LoopsGrowTrans(base.loops, v.loops, v'.loops);
  }

  /** All blocks that are new in the second state were created after the first. */
  ghost predicate NewSince(v: State, z: State) {
    v.next <= z.next && forall b :: b in z.code && b !in v.code ==> b >= v.next
  }

  lemma CaseIsNew(v: State, h: State, q: State, y: State, v': State, t: bool, after: BlockId, kind: IntType,
                  rs: seq<Range>)
    requires v.at in v.code && h == Inserted(Appended(v.(next := v.next + 2), CaseCode(v, kind, rs)), v.next)
    requires h.frames != []
    requires Built(h, q, t, []) && q.at in q.code && y == Joined(q, t, after) && v' == Inserted(y, v.next + 1)
    ensures NewSince(v, v')
  {
  }

  ghost function ChainOut(z: State, terminal: bool, after: BlockId, frames: Frames): Out {
    Out(terminal, after, 0, z.loops, frames)
  }

  /** How the chain built from state v on ends in state z. */
  ghost predicate ChainBuilt(base: State, v: State, z: State, aimed: bool, after: BlockId, terminal: bool,
                             last: Option<BlockId>) {
    && AtCase(base, z, aimed || !terminal, after) && z.at in z.code
    && LoopsGrow(v.loops, z.loops) && Contains(v.code, z.code) && (v.errors ==> z.errors) && NewSince(v, z)
    && (last.None? ==> z == v)
    && (last.Some? ==> z.at == last.value >= v.next && z.code[z.at] == [])
  }

  lemma ChainStart(base: State, v: State, aimed: bool, after: BlockId, kind: IntType)
    requires AtCase(base, v, aimed, after) && kind.Valid()
    ensures v.at in v.code && v.frames != [] && ChainBuilt(base, v, v, aimed, after, true, None)
    ensures ChainSim(v, v.code, kind, [], ChainOut(v, true, after, v.frames), v.at, v.Here())
  {
    hide Tidy, Grown, Contains, Dangling, LoopsGrow, Has, Linked, LoopAims, ChainSim;
    AtCaseReady(base, v, aimed, after);
    LoopsSelf(v.loops);
    ContainsSelf(v.code);
    NoCasesRule(v, kind, ChainOut(v, true, after, v.frames));
  }

  lemma ChainMore(base: State, v: State, h: State, q: State, y: State, v': State, z: State, aimed: bool, t: bool, rest: bool, after: BlockId,
                  last: Option<BlockId>, kind: IntType, cases: seq<Case>)
    requires v.at in v.code && v.frames != [] && h.at in h.code && h.frames != [] && q.at in q.code && v'.at in v'.code
    requires v'.frames != [] && z.at in z.code
    requires cases != [] && cases[0].ranges.Some? && kind.Valid() && kind.ValidRanges(cases[0].ranges.value)
    requires AtCase(base, v, aimed, after) && CaseStarted(base, v, h, aimed, after, kind, cases[0].ranges.value)
    requires Built(h, q, t, []) && (!q.errors ==> Sim(h, q, t, Nested(cases[0].body)))
    requires y == Joined(q, t, after) && v' == Inserted(y, v.next + 1) && NewSince(v, v')
    requires ChainBuilt(base, v', z, aimed || !t, after, rest, last)
    requires !z.errors ==> ChainSim(v', z.code, kind, cases[1..], ChainOut(z, rest, after, v.frames), z.at, z.Here())
    ensures ChainBuilt(base, v, z, aimed, after, t && rest, Some(if last.Some? then last.value else v'.at))
    ensures !z.errors ==> ChainSim(v, z.code, kind, cases, ChainOut(z, t && rest, after, v.frames), z.at, z.Here())
  {
    hide Sound, Tidy, Grown, Contains, Dangling, LoopsGrow, Sim, Has, Linked, LoopAims, ChainSim, Going;
    CaseEnds(base, v, h, q, y, v', aimed, t, after, kind, cases[0].ranges.value);
    AtCaseReady(base, v, aimed, after);
    AtCaseReady(base, v', aimed || !t, after);
    ContainsTrans(v.code, v'.code, z.code);
    LoopsGrowTrans(v.loops, v'.loops, z.loops);
    assert v'.at == v.next + 1 && v'.code[v'.at] == [];
    if !z.errors { ChainMoreSim(base, v, h, q, v', z, aimed, t, rest, after, last, kind, cases); }
  }

  lemma ChainMoreSim(base: State, v: State, h: State, q: State, v': State, z: State, aimed: bool, t: bool, rest: bool, after: BlockId,
                     last: Option<BlockId>, kind: IntType, cases: seq<Case>)
    requires cases != [] && cases[0].ranges.Some? && kind.Valid() && kind.ValidRanges(cases[0].ranges.value)
    requires AtCase(base, v, aimed, after) && CaseStarted(base, v, h, aimed, after, kind, cases[0].ranges.value)
    requires h.frames != []
    requires Built(h, q, t, []) && Sim(h, q, t, Nested(cases[0].body)) && v'.at == v.next + 1 && v'.at in v'.code
    requires v'.code[v'.at] == []
    requires AtCase(base, v', aimed || !t, after) && Contains(q.code, v'.code)
    requires Has(v'.code, v.at, v.Here(), CaseCode(v, kind, cases[0].ranges.value))
    requires v'.loops == q.loops && (!t ==> Has(v'.code, q.at, q.Here(), [Br(after)]))
    requires ChainBuilt(base, v', z, aimed || !t, after, rest, last) && v'.frames != [] && v.frames != []
    requires ChainSim(v', z.code, kind, cases[1..], ChainOut(z, rest, after, v.frames), z.at, z.Here())
    ensures ChainSim(v, z.code, kind, cases, ChainOut(z, t && rest, after, v.frames), z.at, z.Here())
  {
    hide Sound, Tidy, Grown, Contains, Dangling, LoopsGrow, Sim, Has, Linked, LoopAims, ChainSim, Going, NewSince;
    AtCaseReady(base, v, aimed, after);
    AtCaseReady(base, v', aimed || !t, after);
    CaseStartedReady(base, v, h, aimed, after, kind, cases[0].ranges.value);
    ReadyFacts(h);
    BuiltLoops(h, q, t, []);
    ContainsTrans(q.code, v'.code, z.code);
    HasPart(v'.code, z.code, v.at, v.Here(), CaseCode(v, kind, cases[0].ranges.value));
    if !t { HasPart(v'.code, z.code, q.at, q.Here(), [Br(after)]); }
    LoopsSelf(z.loops);
    ContainsSelf(z.code);
    var out := ChainOut(z, t && rest, after, v.frames);
    ChainPart(v', z.code, z.code, kind, cases[1..], ChainOut(z, rest, after, v.frames), out, z.at, z.Here());
    CaseRule(v, h, q, v', z.code, t, kind, cases, out, z.at, z.Here());
  }

  // ----- the end of the switch -----

  lemma GoDrop(a: State, s: State, t: bool, pending: set<BlockId>, b: BlockId)
    requires Going(a, s, t, pending) && b !in AllTargets(s.code)
    ensures Going(a, s, t, pending - {b})
  {
  }

  lemma LoopsAvoid(base: State, z: State, n: BlockId)
    requires Sound(base) && LoopsGrow(base.loops, z.loops) && base.next <= n
    ensures forall k :: 0 <= k < |z.loops| ==> z.loops[k].brk != n && z.loops[k].cont != Some(n)
  {
    forall k | 0 <= k < |z.loops| ensures z.loops[k].brk != n && z.loops[k].cont != Some(n) {
      assert FrameSound(base.loops[k], base.next, |base.frames|) && Same(base.loops[k], z.loops[k]);
    }
  }

  /** The state before the chain, and the chain seen from it. */
  lemma ChainFrom(p: State, v: State, code: Cfg, kind: IntType, cases: seq<Case>, out: Out, b: BlockId, i: nat)
    requires p.at == v.at && p.code == v.code && v.at in v.code && out.frames != [] && kind.Valid()
    requires ChainSim(v, code, kind, cases, out, b, i)
    ensures ChainSim(p, code, kind, cases, out, b, i)
  {
    forall g, rho, env, m: Regs, fuel: nat | Linked(code, g, rho) && kind.Pattern(m.val)
      ensures ChainGoes(g, rho, env, Start(p, rho, m), m, fuel, kind, cases, out, b, i)
    {
      assert Start(p, rho, m) == Start(v, rho, m);
      UseChain(v, code, g, rho, env, m, fuel, kind, cases, out, b, i);
    }
  }

  /** No default case: the end of the chain is the block after the switch, which no value reaches. */
  lemma SwitchEnds(a: State, p: State, v: State, z: State, u: State, f: State, terminal: bool, n: BlockId, s: Stmt)
    requires Ready(a) && s.Switch? && s.kind.Valid() && p == Appended(a, ReadCode(s.e, s.kind))
    requires v == p.(next := p.next + 1)
    requires v.at in v.code && v.frames != [] && ChainBuilt(p, v, z, false, p.next, terminal, Some(n))
    requires !z.errors ==> ChainSim(v, z.code, s.kind, s.cases, ChainOut(z, terminal, p.next, v.frames), z.at, z.Here())
    requires DefaultCase(s.cases).None? && s.kind.Partition(AllRanges(s.cases))
    requires u == Rerouted(z, n, p.next) && f == if terminal then Appended(u, [Unreachable]) else u
    ensures Built(a, f, terminal, [])
    ensures !f.errors ==> Sim(a, f, terminal, One(s))
  {
    hide Tidy, Grown, Contains, Dangling, LoopsGrow, Sim, Has, Linked, LoopAims, ChainSim, Going;
    var after, cs := p.next, ReadCode(s.e, s.kind);
    SwitchPrologue(a, p, s);
    var pending := if terminal then {} else {after};
    AtCaseReady(p, z, !terminal, after);
    GoReroute(p, z, pending, n, after);
    SwitchTail(a, p, u, f, terminal, terminal, pending, after, s);
    if !f.errors {
      var out := ChainOut(z, terminal, after, v.frames);
      LoopsAvoid(p, z, n);
      ContainsSelf(Redirected(z.code, n, after));
      RerouteContains(z, n, after, f);
      ChainFrom(p, v, z.code, s.kind, s.cases, out, n, 0);
      ChainRedirected(p, z, f.code, s.kind, s.cases, out, n, after);
      ContainsSelf(f.code);
      LoopsSelf(f.loops);
      ChainPart(p, f.code, f.code, s.kind, s.cases, out, OutOf(a, f, terminal), after, 0);
      GrownContains(p, f);
      SwitchRule(a, p, f, terminal, after, 0, s);
    }
  }

  lemma GrownContains(a: State, b: State)
    requires Grown(a, b)
    ensures Contains(a.code, b.code)
  {
  }

  lemma RerouteContains(z: State, n: BlockId, d: BlockId, f: State)
    requires var u := Rerouted(z, n, d); d !in z.code && (f == u || f == Appended(u, [Unreachable]))
    ensures Contains(Redirected(z.code, n, d), f.code)
  {
  }

  lemma SwitchPrologue(a: State, p: State, s: Stmt)
    requires Ready(a) && s.Switch? && p == Appended(a, ReadCode(s.e, s.kind))
    ensures Built(a, p, false, []) && Ready(p) && Sound(p) && p.at == a.at && p.frames == a.frames != []
    ensures p.next == a.next
    ensures Going(p, p.(next := p.next + 1), false, {}) && Going(p, p.(next := p.next + 2), false, {})
    ensures LoopsGrow(p.loops, p.loops) && p.next !in p.code && p.next + 1 !in p.code
  {
    hide Tidy, Grown, Contains, Dangling, LoopsGrow, Sim, Has, Linked, LoopAims, Going;
    GoStart(a);
    GoAppend(a, a, {}, ReadCode(s.e, s.kind));
    ExtendNone(a.frames);
    LoopsSelf(a.loops);
    GoFinish(a, p, false, {}, []);
    GoReady(a, p, {});
    GoStart(p);
    GoCreate(p, p, false, {});
    GoCreate(p, p.(next := p.next + 1), false, {});
    NotMentioned(p, p.next);
    NotMentioned(p, p.next + 1);
  }

  /** The block after the switch has been entered; if no case gets there, nothing follows. */
  lemma SwitchTail(a: State, p: State, u: State, f: State, t: bool, dead: bool, pending: set<BlockId>, after: BlockId,
                   s: Stmt)
    requires Ready(a) && s.Switch? && p == Appended(a, ReadCode(s.e, s.kind))
    requires Going(p, u, false, pending) && pending <= {after} && u.at == after && u.at in u.code
    requires u.frames == p.frames && LoopsGrow(p.loops, u.loops) && t == dead
    requires f == if dead then Appended(u, [Unreachable]) else u
    ensures Built(a, f, t, []) && Grown(p, f) && Sound(f)
  {
    hide Sound, Tidy, Grown, Contains, Dangling, LoopsGrow, Sim, Has, Linked, LoopAims, Going;
    SwitchPrologue(a, p, s);
    ReadyFacts(a);
    if dead {
      GoBranch(p, u, pending, [], Unreachable);
      assert [] + [Unreachable] == [Unreachable];
      assert pending + Unreachable.Targets() == pending;
    }
    ExtendNone(p.frames);
    GoFinish(p, f, t, pending, []);
    BuiltTrans(a, p, f, false, t, [], []);
  }

  /** The default case is entered from the end of the chain. */
  lemma DefaultStart(a: State, p: State, v: State, z: State, d: State, terminal: bool, last: Option<BlockId>, s: Stmt)
    requires Ready(a) && s.Switch? && p == Appended(a, ReadCode(s.e, s.kind)) && v == p.(next := p.next + 2)
    requires v.at in v.code && v.frames != [] && ChainBuilt(p, v, z, false, p.next, terminal, last)
    requires p.next + 1 !in z.code
    requires d == if last.None? then Inserted(Appended(z, [Br(p.next + 1)]), p.next + 1) else Rerouted(z, last.value, p.next + 1)
    ensures Ready(d) && Going(p, d, false, {p.next, p.next + 1}) && d.at == p.next + 1 && d.at in d.code
    ensures d.code[d.at] == []
    ensures d.frames == p.frames == a.frames && d.frames != [] && d.loops == z.loops && LoopsGrow(p.loops, d.loops)
    ensures p.next !in d.code && p.next < d.next
    ensures d.errors == z.errors && Grown(p, d)
  {
    hide Tidy, Grown, Contains, Dangling, LoopsGrow, Sim, Has, Linked, LoopAims, Going;
    var after, def := p.next, p.next + 1;
    SwitchPrologue(a, p, s);
    AtCaseReady(p, z, !terminal, after);
    var pending := if terminal then {} else {after};
    if last.None? {
      GoBranch(p, z, pending, [], Br(def));
      assert [] + [Br(def)] == [Br(def)];
      GoInsert(p, Appended(z, [Br(def)]), pending + {def}, def);
      GoWider(p, d, false, pending + {def}, {after, def});
    } else {
      GoReroute(p, z, pending, last.value, def);
      GoWider(p, d, false, pending, {after, def});
    }
    GoReady(p, d, {after, def});
    GoingGrown(p, d, false, {after, def});
  }

  lemma GoingGrown(a: State, s: State, t: bool, pending: set<BlockId>)
    requires Going(a, s, t, pending)
    ensures Grown(a, s)
  {
  }

  /** The chain ends in the default case, seen from the finished switch. */
  lemma DefaultChain(a: State, p: State, v: State, z: State, d: State, f: State, terminal: bool, t: bool,
                     last: Option<BlockId>, s: Stmt)
    requires Ready(a) && s.Switch? && s.kind.Valid() && p == Appended(a, ReadCode(s.e, s.kind))
    requires v == p.(next := p.next + 2)
    requires v.at in v.code && v.frames != [] && ChainBuilt(p, v, z, false, p.next, terminal, last)
    requires p.next + 1 !in z.code
    requires ChainSim(v, z.code, s.kind, s.cases, ChainOut(z, terminal, p.next, v.frames), z.at, z.Here())
    requires d == if last.None? then Inserted(Appended(z, [Br(p.next + 1)]), p.next + 1) else Rerouted(z, last.value, p.next + 1)
    requires Contains(d.code, f.code) && LoopsGrow(z.loops, f.loops) && f.at in f.code
    requires !terminal ==> !t && f.at == p.next && f.code[f.at] == []
    ensures ChainSim(p, f.code, s.kind, s.cases, OutOf(a, f, t), p.next + 1, 0)
  {
    hide Tidy, Grown, Contains, Dangling, LoopsGrow, Sim, Has, Linked, LoopAims, ChainSim, Going;
    var after, def, out := p.next, p.next + 1, ChainOut(z, terminal, p.next, v.frames);
    SwitchPrologue(a, p, s);
    AtCaseReady(p, z, !terminal, after);
    ChainFrom(p, v, z.code, s.kind, s.cases, out, z.at, z.Here());
    if last.None? {
      var y := Appended(z, [Br(def)]);
      ContainsSelf(z.code); ContainsSelf(y.code);
      KeepAppend(z.code, z, [Br(def)]);
      KeepInsert(z.code, y, def);
      KeepInsert(y.code, y, def);
      ContainsTrans(z.code, d.code, f.code);
      ContainsTrans(y.code, d.code, f.code);
      AppendHas(z, [Br(def)]);
      HasPart(y.code, f.code, z.at, z.Here(), [Br(def)]);
      ChainPart(p, z.code, f.code, s.kind, s.cases, out, OutOf(a, f, t), z.at, z.Here());
      ChainThenJump(p, f.code, s.kind, s.cases, OutOf(a, f, t), z.at, z.Here(), def);
    } else {
      LoopsAvoid(p, z, last.value);
      RerouteContains(z, last.value, def, d);
      ContainsTrans(Redirected(z.code, last.value, def), d.code, f.code);
      ChainRedirected(p, z, f.code, s.kind, s.cases, out, last.value, def);
      ContainsSelf(f.code);
      ChainPart(p, f.code, f.code, s.kind, s.cases, out, OutOf(a, f, t), def, 0);
    }
  }

  lemma AppendHas(s: State, cs: Code)
    requires s.at in s.code
    ensures Has(Appended(s, cs).code, s.at, s.Here(), cs)
  {
  }

  /** The end of the chain jumps on. */
  lemma ChainThenJump(p: State, code: Cfg, kind: IntType, cases: seq<Case>, out: Out, b: BlockId, i: nat, to: BlockId)
    requires p.at in p.code && out.frames != [] && kind.Valid() && ChainSim(p, code, kind, cases, out, b, i)
    requires Has(code, b, i, [Br(to)])
    ensures ChainSim(p, code, kind, cases, out, to, 0)
  {
    forall g, rho, env, m: Regs, fuel: nat | Linked(code, g, rho) && kind.Pattern(m.val)
      ensures ChainGoes(g, rho, env, Start(p, rho, m), m, fuel, kind, cases, out, to, 0)
    {
      UseChain(p, code, g, rho, env, m, fuel, kind, cases, out, b, i);
      if FirstMatch(kind, cases, m.val).None? {
        var c := Start(p, rho, m);
        var n, m' := LandingRegs(g, env, c, 0, rho(b), i, m.tr);
        JumpLands(code, g, rho, env, b, i, to, m');
        LandsAfter(g, env, c, n, 1, rho(to), 0, m.tr);
        LandsFewer(g, env, c, n + 1, 0, rho(to), 0, m.tr);
      }
    }
  }

  /** After the default case: the block after the switch, if anything leads there. */
  ghost predicate DefaultEnded(p: State, q: State, y: State, f: State, td: bool, t: bool, after: BlockId) {
    && q.at in q.code && y == Joined(q, td, after)
    && f == if !t then Inserted(y, after)
            else if after in AllTargets(y.code) then Appended(Inserted(y, after), [Unreachable])
            else y
  }

  lemma DefaultTail(a: State, p: State, d: State, q: State, y: State, f: State, td: bool, t: bool, s: Stmt)
    requires Ready(a) && s.Switch? && p == Appended(a, ReadCode(s.e, s.kind)) && p.frames != []
    requires Ready(d) && Going(p, d, false, {p.next, p.next + 1}) && d.at == p.next + 1 && d.frames == p.frames
    requires LoopsGrow(p.loops, d.loops)
    requires p.next !in d.code && p.next < d.next && d.frames != [] && Built(d, q, td, [])
    requires DefaultEnded(p, q, y, f, td, t, p.next) && (t ==> td)
    ensures Built(a, f, t, []) && Grown(p, f) && Contains(q.code, f.code) && Contains(d.code, f.code)
    ensures f.loops == q.loops && f.errors == q.errors && Sound(f)
    ensures !td ==> f.at == p.next && f.code[f.at] == [] && Has(f.code, q.at, q.Here(), [Br(p.next)])
    ensures !t ==> f.at == p.next && f.code[f.at] == []
  {
    hide Sound, Tidy, Grown, Contains, Dangling, LoopsGrow, Sim, Has, Linked, LoopAims, Going;
    var after, def := p.next, p.next + 1;
    SwitchPrologue(a, p, s);
    ReadyFacts(a); ReadyFacts(d);
    BuiltLoops(d, q, td, []);
    GoBuilt(p, d, q, {after, def}, td, []);
    NotInserted(d, q, td, [], after);
    GoJoined(p, q, td, {after, def}, after);
    assert {after, def} + {after} == {after, def};
    ContainsSelf(d.code); ContainsSelf(y.code);
    KeepBuilt(d.code, d, q, td, []);
    var u := Inserted(y, after);
    if !t || after in AllTargets(y.code) {
      GoInsert(p, y, {after, def}, after);
      KeepInsert(y.code, y, after);
      if t {
        GoBranch(p, u, {after, def}, [], Unreachable);
        assert [] + [Unreachable] == [Unreachable];
        assert {after, def} + Unreachable.Targets() == {after, def};
        KeepAppend(y.code, u, [Unreachable]);
      }
    } else {
      GoDrop(p, y, true, {after, def}, after);
    }
    ContainsTrans(q.code, y.code, f.code);
    ContainsTrans(d.code, q.code, f.code);
    InKeys(d, f, def);
    var pending := if !t || after in AllTargets(y.code) then {after, def} else {after, def} - {after};
    ExtendNone(p.frames);
    LoopsGrowTrans(p.loops, d.loops, q.loops);
    GoFinish(p, f, t, pending, []);
    BuiltTrans(a, p, f, false, t, [], []);
    if !td { HasPart(y.code, f.code, q.at, q.Here(), [Br(after)]); }
  }

  lemma SwitchDefaultEnds(a: State, p: State, v: State, z: State, d: State, q: State, y: State, f: State,
                          terminal: bool, td: bool, last: Option<BlockId>, k: nat, s: Stmt)
    requires Ready(a) && s.Switch? && s.kind.Valid() && p == Appended(a, ReadCode(s.e, s.kind))
    requires v == p.(next := p.next + 2)
    requires v.at in v.code && v.frames != [] && ChainBuilt(p, v, z, false, p.next, terminal, last)
    requires p.next + 1 !in z.code
    requires !z.errors ==> ChainSim(v, z.code, s.kind, s.cases, ChainOut(z, terminal, p.next, v.frames), z.at, z.Here())
    requires d == if last.None? then Inserted(Appended(z, [Br(p.next + 1)]), p.next + 1) else Rerouted(z, last.value, p.next + 1)
    requires DefaultCase(s.cases) == Some(k) && d.at in d.code && d.frames != []
    requires Built(d, q, td, []) && q.at in q.code && (!q.errors ==> Sim(d, q, td, Nested(s.cases[k].body)))
    requires DefaultEnded(p, q, y, f, td, terminal && td, p.next)
    ensures Built(a, f, terminal && td, [])
    ensures !f.errors ==> Sim(a, f, terminal && td, One(s))
  {
    hide Sound, Tidy, Grown, Contains, Dangling, LoopsGrow, Sim, Has, Linked, LoopAims, ChainSim, Going, DefaultEnded;
    DefaultStart(a, p, v, z, d, terminal, last, s);
    DefaultTail(a, p, d, q, y, f, td, terminal && td, s);
    SwitchPrologue(a, p, s);
    ReadyFacts(a); ReadyFacts(d);
    BuiltLoops(d, q, td, []);
    if !f.errors {
      BuiltGrows(d, q, td);
      SoundFacts(f);
      DefaultChain(a, p, v, z, d, f, terminal, terminal && td, last, s);
      LoopsSelf(f.loops);
      GrownContains(p, f);
      SwitchDefaultRule(a, p, d, q, f, terminal && td, td, k, s);
    }
  }

  lemma BuiltGrows(s: State, s': State, t: bool)
    requires s.frames != [] && Built(s, s', t, [])
    ensures LoopsGrow(s.loops, s'.loops)
  {
  }

  lemma FirstCase(p: State, v: State, k: nat)
    requires Going(p, v, false, {}) && v == p.(next := p.next + k) && k > 0
    ensures AtCase(p, v, false, p.next)
  {
    NotMentioned(p, p.next);
    LoopsSelf(p.loops);
  }

  lemma DefaultIsNew(v: State, z: State, b: BlockId)
    requires NewSince(v, z) && b !in v.code && b < v.next
    ensures b !in z.code
  {
  }

  lemma ChainFacts(base: State, v: State, z: State, aimed: bool, after: BlockId, terminal: bool, last: Option<BlockId>)
    requires ChainBuilt(base, v, z, aimed, after, terminal, last)
    ensures z.at in z.code && NewSince(v, z) && (last.None? ==> z == v) && (last.Some? ==> z.at == last.value)
  {
  }

  lemma DefaultEnds(p: State, q: State, y: State, f: State, td: bool, t: bool, after: BlockId)
    requires q.at in q.code && y == Joined(q, td, after)
    requires f == if !t then Inserted(y, after)
                  else if after in AllTargets(y.code) then Appended(Inserted(y, after), [Unreachable])
                  else y
    ensures DefaultEnded(p, q, y, f, td, t, after)
  {
  }
}
