/**
 * The state of the code builder between two steps, how steps may change it, and
 * what the blocks built for a piece of syntax promise.
 */
module BuilderState {

  import opened StructuredCode
  import opened BasicBlocks
  import opened Simulation
  import opened StraightCode

  datatype State = State(code: Cfg, next: BlockId, at: BlockId, loops: seq<LoopFrame>, frames: Frames, errors: bool,
                         keywords: set<Label>) {
    /** How much code the current block has. */
    ghost function Here(): nat
      requires at in code
    {
      |code[at]|
    }
  }

  // ----- branch targets -----

  function TargetsIn(cs: Code): set<BlockId> {
    set i, t | 0 <= i < |cs| && t in cs[i].Targets() :: t
  }

  function AllTargets(code: Cfg): set<BlockId> {
    set b, t | b in code && t in TargetsIn(code[b]) :: t
  }

  lemma TargetsAppend(cs: Code, ds: Code)
    ensures TargetsIn(cs + ds) == TargetsIn(cs) + TargetsIn(ds)
  {
    forall t | t in TargetsIn(cs) + TargetsIn(ds) ensures t in TargetsIn(cs + ds) {
      if t in TargetsIn(cs) {
        var i :| 0 <= i < |cs| && t in cs[i].Targets();
        assert (cs + ds)[i] == cs[i];
      } else {
        var i :| 0 <= i < |ds| && t in ds[i].Targets();
        assert (cs + ds)[|cs| + i] == ds[i];
      }
    }
  }

  lemma AllTargetsAppend(code: Cfg, b: BlockId, cs: Code)
    requires b in code
    ensures AllTargets(code[b := code[b] + cs]) == AllTargets(code) + TargetsIn(cs)
  {
    var code' := code[b := code[b] + cs];
    TargetsAppend(code[b], cs);
    forall t | t in AllTargets(code) + TargetsIn(cs) ensures t in AllTargets(code') {
      if t in AllTargets(code) {
        var x :| x in code && t in TargetsIn(code[x]);
        assert x in code' && t in TargetsIn(code'[x]);
      } else {
        assert b in code' && t in TargetsIn(code'[b]);
      }
    }
  }

  lemma AllTargetsInsert(code: Cfg, b: BlockId)
    requires b !in code
    ensures AllTargets(code[b := []]) == AllTargets(code)
  {
    var code' := code[b := []];
    forall t | t in AllTargets(code) ensures t in AllTargets(code') {
      var x :| x in code && t in TargetsIn(code[x]);
      assert x in code' && t in TargetsIn(code'[x]);
    }
  }

  lemma OpenNoTargets(cs: Code)
    requires Open(cs)
    ensures TargetsIn(cs) == {}
  {
    assert forall i :: 0 <= i < |cs| ==> !cs[i].IsTerminator() && cs[i].Targets() == {};
  }

  lemma StraightOpen(cs: Code)
    requires Straight(cs)
    ensures Open(cs)
  {
  }

  /** Targets that jumps recorded in the frames may have. */
  function LoopAims(loops: seq<LoopFrame>): set<BlockId> {
    (set k | 0 <= k < |loops| && loops[k].breaks > 0 :: loops[k].brk) +
    (set k | 0 <= k < |loops| && loops[k].continues > 0 && loops[k].cont.Some? :: loops[k].cont.value)
  }

  // ----- invariants -----

  /** All blocks mentioned have been created, and loops were entered inside the frames that are open. */
  ghost predicate Sound(s: State) {
    && s.at in s.code
    && s.frames != []
    && (forall b :: b in s.code ==> b < s.next)
    && (forall t :: t in AllTargets(s.code) ==> t < s.next)
    && (forall k :: 0 <= k < |s.loops| ==> FrameSound(s.loops[k], s.next, |s.frames|))
  }

  ghost predicate FrameSound(f: LoopFrame, next: BlockId, depth: nat) {
    f.brk < next && (f.cont.Some? ==> f.cont.value < next) && f.size <= depth
  }

  lemma SoundFacts(s: State)
    requires Sound(s)
    ensures s.at in s.code && s.at < s.next && s.frames != []
  {
  }

  /** All blocks but the current one are finished; that one is finished if control cannot go on. */
  ghost predicate Tidy(s: State, terminal: bool) {
    && s.at in s.code
    && (forall b :: b in s.code && b != s.at ==> Closed(s.code[b]))
    && if terminal then Closed(s.code[s.at]) else Open(s.code[s.at])
  }

  ghost predicate Ready(s: State) {
    Sound(s) && (!s.errors ==> Tidy(s, false))
  }

  lemma ReadyFacts(s: State)
    requires Ready(s)
    ensures Sound(s) && s.at in s.code && s.at < s.next && s.frames != []
  {
  }

  function Dangling(s: State): set<BlockId> {
    AllTargets(s.code) - s.code.Keys
  }

  /** Building only appends to the current block and adds new ones. */
  ghost predicate Grown(a: State, b: State) {
    && a.next <= b.next
    && (b.at == a.at || b.at >= a.next)
    && (a.errors ==> b.errors)
    && Contains(a.code, b.code)
    && (forall x :: x in a.code && x != a.at ==> b.code[x] == a.code[x])
    && (forall x :: x in b.code && x !in a.code ==> x >= a.next)
  }

  lemma GrownTrans(a: State, b: State, c: State)
    requires Sound(a) && Grown(a, b) && Grown(b, c)
    ensures Grown(a, c)
  {
    forall x | x in a.code ensures x in c.code && a.code[x] <= c.code[x] && (x != a.at ==> c.code[x] == a.code[x]) {
      assert a.code[x] <= b.code[x] && b.code[x] <= c.code[x];
    }
  }

  /** What building a piece of syntax leaves behind. */
  ghost predicate Built(a: State, b: State, terminal: bool, decls: seq<Var>)
    requires a.frames != []
  {
    && Sound(b)
    && Grown(a, b)
    && b.frames == Extend(a.frames, decls)
    && LoopsGrow(a.loops, b.loops)
    && (!b.errors ==> Tidy(b, terminal) && Dangling(b) <= Dangling(a) + LoopAims(b.loops))
  }

  // ----- what built blocks promise -----

  /** A statement, a list of statements in the current scope, a block with a scope of its own, or an if. */
  datatype Job = One(s: Stmt) | List(b: Block) | Nested(b: Block) | Choice(choice: IfOperator)

  function Meaning(env: Env, job: Job, tr: Trace, fuel: nat): Result {
    match job
    case One(s) => Exec(env, s, tr, fuel)
    case List(b) => ExecBlock(env, b, tr, fuel)
    case Nested(b) => ExecScope(env, [], b, tr, fuel)
    case Choice(i) => ExecIf(env, i, tr, fuel)
  }

  ghost function OutOf(a: State, b: State, terminal: bool): Out
    requires b.at in b.code
  {
    Out(terminal, b.at, b.Here(), b.loops, a.frames)
  }

  ghost function Start(a: State, rho: Link, m: Regs): Conf
    requires a.at in a.code
  {
    Spot(rho(a.at), a.Here(), m)
  }

  /** Whatever function the blocks end up in, it does what the syntax means. */
  ghost predicate Sim(a: State, b: State, terminal: bool, job: Job)
    requires a.at in a.code && b.at in b.code && a.frames != []
  {
    forall g, rho, env, m: Regs, fuel :: Linked(b.code, g, rho) ==>
      Matches(g, rho, env, Start(a, rho, m), Meaning(env, job, m.tr, fuel), fuel, OutOf(a, b, terminal))
  }

  lemma UseSim(a: State, b: State, terminal: bool, job: Job, g: Cfg, rho: Link, env: Env, m: Regs, fuel: nat)
    requires a.at in a.code && b.at in b.code && a.frames != []
    requires Sim(a, b, terminal, job) && Linked(b.code, g, rho)
    ensures Matches(g, rho, env, Start(a, rho, m), Meaning(env, job, m.tr, fuel), fuel, OutOf(a, b, terminal))
  {
  }

  // ----- changes of the state -----

  function Appended(s: State, cs: Code): State
    requires s.at in s.code
  {
    s.(code := s.code[s.at := s.code[s.at] + cs])
  }

  lemma AppendContains(s: State, cs: Code)
    requires s.at in s.code
    ensures Contains(s.code, Appended(s, cs).code)
  {
  }

  lemma ContainsSelf(code: Cfg)
    ensures Contains(code, code)
  {
  }

  lemma ContainsTrans(code: Cfg, code': Cfg, code'': Cfg)
    requires Contains(code, code') && Contains(code', code'')
    ensures Contains(code, code'')
  {
    forall b | b in code ensures b in code'' && code[b] <= code''[b] { assert code[b] <= code'[b] && code'[b] <= code''[b]; }
  }

  lemma AppendTwice(s: State, cs: Code, ds: Code)
    requires s.at in s.code
    ensures Appended(Appended(s, cs), ds) == Appended(s, cs + ds)
  {
    var s' := Appended(Appended(s, cs), ds);
    assert s.code[s.at] + cs + ds == s.code[s.at] + (cs + ds);
    assert s'.code == Appended(s, cs + ds).code;
  }

  lemma AppendFrames(s: State, frames: Frames, cs: Code)
    requires s.at in s.code
    ensures Appended(s.(frames := frames), cs) == Appended(s, cs).(frames := frames)
  {
  }

  lemma AppendNone(s: State)
    requires s.at in s.code
    ensures Appended(s, []) == s
  {
    assert s.code[s.at] + [] == s.code[s.at];
    assert s.code[s.at := s.code[s.at]] == s.code;
  }

  function Inserted(s: State, b: BlockId): State {
    s.(code := s.code[b := []], at := b)
  }

  lemma AppendSound(s: State, cs: Code)
    requires Sound(s) && (forall t :: t in TargetsIn(cs) ==> t < s.next)
    ensures var s' := Appended(s, cs); Sound(s') && Grown(s, s') && AllTargets(s'.code) == AllTargets(s.code) + TargetsIn(cs)
    ensures Has(Appended(s, cs).code, s.at, s.Here(), cs)
  {
    AllTargetsAppend(s.code, s.at, cs);
  }

  lemma AppendStraight(s: State, cs: Code)
    requires Sound(s) && Straight(cs)
    ensures var s' := Appended(s, cs);
            && Sound(s') && Grown(s, s') && Dangling(s') == Dangling(s)
            && (Tidy(s, false) ==> Tidy(s', false))
            && Has(s'.code, s.at, s.Here(), cs)
  {
    StraightOpen(cs);
    OpenNoTargets(cs);
    AppendSound(s, cs);
  }

  lemma TerminatorTargets(cs: Code, i: Instr)
    requires Open(cs)
    ensures TargetsIn(cs + [i]) == i.Targets()
  {
    OpenNoTargets(cs);
    TargetsAppend(cs, [i]);
    assert TargetsIn([i]) == i.Targets() by {
      forall t | t in i.Targets() ensures t in TargetsIn([i]) { assert [i][0] == i; }
    }
  }

  lemma TerminatorTidy(s: State, cs: Code, i: Instr)
    requires Tidy(s, false) && Open(cs) && i.IsTerminator()
    ensures Tidy(Appended(s, cs + [i]), true)
  {
    var c := Appended(s, cs + [i]).code[s.at];
    assert c[..|c| - 1] == s.code[s.at] + cs;
  }

  /** A terminator after other code finishes the current block. */
  lemma AppendTerminator(s: State, cs: Code, i: Instr)
    requires Sound(s) && Open(cs) && i.IsTerminator() && (forall t :: t in i.Targets() ==> t < s.next)
    ensures var s' := Appended(s, cs + [i]);
            && Sound(s') && Grown(s, s') && Dangling(s') == Dangling(s) + (i.Targets() - s.code.Keys)
            && (Tidy(s, false) ==> Tidy(s', true))
            && Has(s'.code, s.at, s.Here(), cs + [i])
  {
    hide Grown, Tidy, Has, Open;
    TerminatorTargets(cs, i);
    AppendSound(s, cs + [i]);
    if Tidy(s, false) { TerminatorTidy(s, cs, i); }
  }

  lemma InsertSound(s: State, b: BlockId)
    requires Sound(s) && b !in s.code && b < s.next
    ensures var s' := Inserted(s, b);
            && Sound(s') && AllTargets(s'.code) == AllTargets(s.code) && Dangling(s') == Dangling(s) - {b}
            && Contains(s.code, s'.code)
            && (Tidy(s, true) ==> Tidy(s', false))
  {
    AllTargetsInsert(s.code, b);
  }

  lemma InsertGrown(a: State, s: State, b: BlockId)
    requires Grown(a, s) && b !in s.code && a.next <= b
    ensures Grown(a, Inserted(s, b))
  {
  }

  // ----- a build in progress -----

  /**
   * Everything done since state a was sound; branches lead to blocks that exist, that were
   * missing before, that enclosing loops will insert, or that are pending.
   */
  ghost predicate Going(a: State, s: State, terminal: bool, pending: set<BlockId>) {
    && Sound(a) && Sound(s) && Grown(a, s)
    && (!s.errors ==> Tidy(s, terminal) && Dangling(s) <= Dangling(a) + LoopAims(s.loops) + pending)
  }

  lemma GoStart(a: State)
    requires Ready(a)
    ensures Going(a, a, false, {})
  {
  }

  lemma GoCreate(a: State, s: State, t: bool, pending: set<BlockId>)
    requires Going(a, s, t, pending)
    ensures Going(a, s.(next := s.next + 1), t, pending)
  {
  }

  lemma GoAppend(a: State, s: State, pending: set<BlockId>, cs: Code)
    requires Going(a, s, false, pending) && Straight(cs)
    ensures Going(a, Appended(s, cs), false, pending)
  {
    AppendStraight(s, cs);
    GrownTrans(a, s, Appended(s, cs));
  }

  lemma GoBranch(a: State, s: State, pending: set<BlockId>, cs: Code, i: Instr)
    requires Going(a, s, false, pending) && Open(cs) && i.IsTerminator()
    requires (forall t :: t in i.Targets() ==> t < s.next)
    ensures Going(a, Appended(s, cs + [i]), true, pending + i.Targets())
    ensures Has(Appended(s, cs + [i]).code, s.at, s.Here(), cs + [i])
  {
    AppendTerminator(s, cs, i);
    GrownTrans(a, s, Appended(s, cs + [i]));
  }

  lemma GoInsert(a: State, s: State, pending: set<BlockId>, b: BlockId)
    requires Going(a, s, true, pending) && b !in s.code && a.next <= b < s.next
    ensures Going(a, Inserted(s, b), false, pending)
  {
    InsertSound(s, b);
    InsertGrown(a, s, b);
  }

  lemma LoopAimsGrow(l: seq<LoopFrame>, l': seq<LoopFrame>)
    requires LoopsGrow(l, l')
    ensures LoopAims(l) <= LoopAims(l')
  {
    forall t | t in LoopAims(l) ensures t in LoopAims(l') {
      if k :| 0 <= k < |l| && l[k].breaks > 0 && l[k].brk == t {
        assert Same(l[k], l'[k]);
      } else {
        var k :| 0 <= k < |l| && l[k].continues > 0 && l[k].cont.Some? && l[k].cont.value == t;
        assert Same(l[k], l'[k]);
      }
    }
  }

  lemma GoBuilt(a: State, s: State, s': State, pending: set<BlockId>, t: bool, decls: seq<Var>)
    requires Going(a, s, false, pending) && Built(s, s', t, decls)
    ensures Going(a, s', t, pending)
  {
    GrownTrans(a, s, s');
    LoopAimsGrow(s.loops, s'.loops);
  }

  lemma GoPushFrame(a: State, s: State, t: bool, pending: set<BlockId>, vs: seq<Var>)
    requires Going(a, s, t, pending)
    ensures Going(a, s.(frames := s.frames + [vs]), t, pending)
  {
  }

  lemma GoPopFrame(a: State, s: State, t: bool, pending: set<BlockId>)
    requires Going(a, s, t, pending) && |s.frames| > 1
    requires forall k :: 0 <= k < |s.loops| ==> s.loops[k].size < |s.frames|
    ensures Going(a, s.(frames := s.frames[..|s.frames| - 1]), t, pending)
  {
  }

  lemma GoPushLoop(a: State, s: State, t: bool, pending: set<BlockId>, f: LoopFrame)
    requires Going(a, s, t, pending) && FrameSound(f, s.next, |s.frames|) && f.breaks == f.continues == 0
    ensures Going(a, s.(loops := s.loops + [f]), t, pending)
  {
    var l, l' := s.loops, s.loops + [f];
    assert LoopAims(l) <= LoopAims(l') by {
      forall t | t in LoopAims(l) ensures t in LoopAims(l') {
        if k :| 0 <= k < |l| && l[k].breaks > 0 && l[k].brk == t {
          assert l'[k] == l[k];
        } else {
          var k :| 0 <= k < |l| && l[k].continues > 0 && l[k].cont.Some? && l[k].cont.value == t;
          assert l'[k] == l[k];
        }
      }
    }
  }

  /** The blocks the jumps recorded in one frame lead to. */
  function FrameAims(f: LoopFrame): set<BlockId> {
    (if f.breaks > 0 then {f.brk} else {}) + (if f.continues > 0 && f.cont.Some? then {f.cont.value} else {})
  }

  lemma LoopAimsPop(l: seq<LoopFrame>)
    requires l != []
    ensures LoopAims(l) <= LoopAims(l[..|l| - 1]) + FrameAims(l[|l| - 1])
  {
    var l' := l[..|l| - 1];
    forall t | t in LoopAims(l) ensures t in LoopAims(l') + FrameAims(l[|l| - 1]) {
      if k :| 0 <= k < |l| && l[k].breaks > 0 && l[k].brk == t {
        if k < |l'| { assert l'[k] == l[k]; }
      } else {
        var k :| 0 <= k < |l| && l[k].continues > 0 && l[k].cont.Some? && l[k].cont.value == t;
        if k < |l'| { assert l'[k] == l[k]; }
      }
    }
  }

  lemma GoPopLoop(a: State, s: State, t: bool, pending: set<BlockId>)
    requires Going(a, s, t, pending) && s.loops != []
    ensures Going(a, s.(loops := s.loops[..|s.loops| - 1]), t, pending + FrameAims(s.loops[|s.loops| - 1]))
  {
    hide LoopAims, FrameAims;
    LoopAimsPop(s.loops);
  }

  lemma GoFinish(a: State, s: State, t: bool, pending: set<BlockId>, decls: seq<Var>)
    requires Going(a, s, t, pending) && pending <= s.code.Keys
    requires s.frames == Extend(a.frames, decls) && LoopsGrow(a.loops, s.loops)
    ensures Built(a, s, t, decls)
  {
  }

  lemma LoopsGrowTrans(l: seq<LoopFrame>, l': seq<LoopFrame>, l'': seq<LoopFrame>)
    requires LoopsGrow(l, l') && LoopsGrow(l', l'')
    ensures LoopsGrow(l, l'')
  {
    forall k | 0 <= k < |l| ensures Same(l[k], l''[k]) { assert Same(l[k], l'[k]) && Same(l'[k], l''[k]); }
  }

  /** The loops without their innermost frame grow when all of them do. */
  lemma LoopsGrowPop(l: seq<LoopFrame>, f: LoopFrame, l': seq<LoopFrame>)
    requires LoopsGrow(l + [f], l')
    ensures l' != [] && LoopsGrow(l, l'[..|l'| - 1]) && Same(f, l'[|l'| - 1])
  {
    forall k | 0 <= k < |l| ensures Same(l[k], l'[..|l'| - 1][k]) { assert Same((l + [f])[k], l'[k]); }
    assert Same((l + [f])[|l|], l'[|l|]);
  }

  lemma BuiltLoops(s: State, s': State, t: bool, decls: seq<Var>)
    requires s.frames != [] && Built(s, s', t, decls)
    ensures |s'.loops| == |s.loops| && Sound(s') && s'.at in s'.code && s'.frames == Extend(s.frames, decls)
    ensures s.next <= s'.next && (s.errors ==> s'.errors) && LoopsGrow(s.loops, s'.loops)
  {
  }

  lemma BuiltTrans(a: State, s: State, s': State, t: bool, t': bool, decls: seq<Var>, decls': seq<Var>)
    requires Ready(a) && Built(a, s, t, decls) && (s.errors || !t) && Built(s, s', t', decls')
    ensures Built(a, s', t', decls + decls')
  {
    GrownTrans(a, s, s');
    LoopsGrowTrans(a.loops, s.loops, s'.loops);
    LoopAimsGrow(s.loops, s'.loops);
    ExtendTwice(a.frames, decls, decls');
  }

  // ----- code that stays -----

  lemma KeepAppend(code: Cfg, s: State, cs: Code)
    requires Contains(code, s.code) && s.at in s.code
    ensures Contains(code, Appended(s, cs).code)
  {
    AppendContains(s, cs);
    ContainsTrans(code, s.code, Appended(s, cs).code);
  }

  lemma KeepInsert(code: Cfg, s: State, b: BlockId)
    requires Contains(code, s.code) && b !in s.code
    ensures Contains(code, Inserted(s, b).code)
  {
  }

  lemma KeepBuilt(code: Cfg, s: State, s': State, t: bool, decls: seq<Var>)
    requires s.frames != [] && Contains(code, s.code) && Built(s, s', t, decls)
    ensures Contains(code, s'.code)
  {
    ContainsTrans(code, s.code, s'.code);
  }

  /** Blocks created but not inserted when a build started are not inserted when it ends. */
  lemma NotInserted(s: State, s': State, t: bool, decls: seq<Var>, b: BlockId)
    requires s.frames != [] && Built(s, s', t, decls) && b !in s.code && b < s.next
    ensures b !in s'.code && b < s'.next
  {
  }
}
