/** What each sequence of builder steps leaves behind, as facts about states. */
module BuildSteps {

  import opened Options
  import opened StructuredCode
  import opened BasicBlocks
  import opened Simulation
  import opened StraightCode
  import opened BuilderState
  import opened StatementRules
  import opened CompoundRules

  // ----- while -----

  function WithLoop(s: State, brk: BlockId, cont: Option<BlockId>, name: Option<Label>): State {
    s.(loops := s.loops + [LoopFrame(name, brk, cont, |s.frames|, 0, 0)],
       errors := s.errors || RefusedLabel(s.keywords, s.loops, name))
  }

  lemma GoWithLoop(a: State, s: State, t: bool, pending: set<BlockId>, brk: BlockId, cont: Option<BlockId>,
                   name: Option<Label>)
    requires Going(a, s, t, pending) && brk < s.next && (cont.Some? ==> cont.value < s.next)
    ensures Going(a, WithLoop(s, brk, cont, name), t, pending)
  {
    var f := LoopFrame(name, brk, cont, |s.frames|, 0, 0);
    GoPushLoop(a, s, t, pending, f);
  }

  function LoopAt(name: Option<Label>, brk: BlockId, cont: BlockId, depth: nat): LoopFrame {
    LoopFrame(name, brk, Some(cont), depth, 0, 0)
  }

  /** A block built up to the point where the body of a loop starts. */
  ghost predicate BodyStarted(a: State, w: State, pending: set<BlockId>, frames: Frames, f: LoopFrame) {
    && Ready(w) && Going(a, w, false, pending)
    && w.loops == a.loops + [f] && w.frames == frames && f.breaks == f.continues == 0
    && w.code[w.at] == [] && w.next > f.brk >= a.next && f.brk !in w.code
    && (f.name.Some? && FirstNamed(a.loops, f.name).Some? ==> w.errors)
  }

  ghost predicate WhileStarted(a: State, w: State, s: Stmt) {
    && s.While? && a.at in a.code
    && BodyStarted(a, w, {a.next, a.next + 1, a.next + 2}, a.frames, LoopAt(s.name, a.next + 2, a.next, |a.frames|))
    && w.at == a.next + 1 && a.next in w.code
    && Has(w.code, a.at, a.Here(), [Br(a.next)])
    && Has(w.code, a.next, 0, CondCode(s.cond) + [CondBr(a.next + 1, a.next + 2)])
  }

  lemma WhileStartedReady(a: State, w: State, s: Stmt)
    requires WhileStarted(a, w, s)
    ensures Ready(w) && w.at in w.code && w.frames == a.frames && w.frames != [] && w.loops != []
  {
  }

  /** The test block of a "while", and the branch that ends it. */
  lemma WhileTest(a: State, s0: State, s1: State, s2: State, c: Expr)
    requires Ready(a) && s0 == a.(next := a.next + 3)
    requires s1 == Inserted(Appended(s0, [Br(a.next)]), a.next)
    requires s1.at in s1.code && s2 == Appended(s1, CondCode(c) + [CondBr(a.next + 1, a.next + 2)])
    ensures Going(a, s2, true, {a.next, a.next + 1, a.next + 2})
    ensures a.at in a.code && Has(s2.code, a.at, a.Here(), [Br(a.next)])
    ensures Has(s2.code, a.next, 0, CondCode(c) + [CondBr(a.next + 1, a.next + 2)])
    ensures a.next in s2.code && a.next + 1 !in s2.code && a.next + 2 !in s2.code
  {
    hide Sound, Tidy, Grown, Contains, Dangling, LoopsGrow, Sim, Has, Linked, Going, LoopAims, CondCode, Straight;
    SoundFacts(a);
    var test, body, after := a.next, a.next + 1, a.next + 2;
    NotMentioned(a, test); NotMentioned(a, body); NotMentioned(a, after);
    GoStart(a);
    GoCreate(a, a, false, {});
    GoCreate(a, a.(next := a.next + 1), false, {});
    GoCreate(a, a.(next := a.next + 2), false, {});
    GoBranch(a, s0, {}, [], Br(test));
    assert [] + [Br(test)] == [Br(test)];
    var r1 := Appended(s0, [Br(test)]);
    GoInsert(a, r1, {} + {test}, test);
    ContainsSelf(r1.code);
    KeepInsert(r1.code, r1, test);
    StraightOpen(CondCode(c));
    GoBranch(a, s1, {} + {test}, CondCode(c), CondBr(body, after));
    KeepAppend(r1.code, s1, CondCode(c) + [CondBr(body, after)]);
    assert {} + {test} + CondBr(body, after).Targets() == {test, body, after};
    HasPart(r1.code, s2.code, a.at, a.Here(), [Br(test)]);
  }

  lemma WhileStart(a: State, s0: State, s1: State, s2: State, w: State, s: Stmt)
    requires Ready(a) && s.While? && s0 == a.(next := a.next + 3)
    requires s1 == Inserted(Appended(s0, [Br(a.next)]), a.next)
    requires s1.at in s1.code && s2 == Appended(s1, CondCode(s.cond) + [CondBr(a.next + 1, a.next + 2)])
    requires w == Inserted(WithLoop(s2, a.next + 2, Some(a.next), s.name), a.next + 1)
    ensures WhileStarted(a, w, s)
  {
    hide Sound, Tidy, Grown, Contains, Dangling, LoopsGrow, Sim, Has, Linked, Going, LoopAims, CondCode, Straight;
    var test, body, after := a.next, a.next + 1, a.next + 2;
    WhileTest(a, s0, s1, s2, s.cond);
    var all := {test, body, after};
    GoWithLoop(a, s2, true, all, after, Some(test), s.name);
    var r2 := WithLoop(s2, after, Some(test), s.name);
    GoInsert(a, r2, all, body);
    ContainsSelf(s2.code);
    KeepInsert(s2.code, r2, body);
    HasPart(s2.code, w.code, a.at, a.Here(), [Br(test)]);
    HasPart(s2.code, w.code, test, 0, CondCode(s.cond) + [CondBr(body, after)]);
    GoReady(a, w, all);
    assert w.loops == a.loops + [LoopAt(s.name, after, test, |a.frames|)];
  }

  lemma NotMentioned(s: State, b: BlockId)
    requires Sound(s) && b >= s.next
    ensures b !in s.code
  {
  }

  lemma GoReady(a: State, s: State, pending: set<BlockId>)
    requires Going(a, s, false, pending)
    ensures Ready(s) && Sound(s) && s.at in s.code
  {
  }

  /** The state after the body of a loop, once control that falls out of it has been sent to the block for "continue". */
  ghost function BodyEnded(x: State, t: bool, cont: BlockId): State
    requires x.at in x.code && x.loops != []
  {
    if t then x else Appended(x, [Br(cont)]).(loops := GoneRound(x.loops))
  }

  lemma BodyEndedKeys(x: State, t: bool, cont: BlockId)
    requires x.at in x.code && x.loops != []
    ensures BodyEnded(x, t, cont).code.Keys == x.code.Keys
  {
  }

  lemma GoneRoundGrows(l: seq<LoopFrame>)
    requires l != []
    ensures LoopsGrow(l, GoneRound(l)) && GoneRound(l)[..|l| - 1] == l[..|l| - 1] && |GoneRound(l)| == |l|
  {
  }

  lemma GoGoneRound(a: State, s: State, t: bool, pending: set<BlockId>)
    requires Going(a, s, t, pending) && s.loops != []
    ensures Going(a, s.(loops := GoneRound(s.loops)), t, pending)
  {
    GoneRoundGrows(s.loops);
    LoopAimsGrow(s.loops, GoneRound(s.loops));
    forall k | 0 <= k < |s.loops| ensures FrameSound(GoneRound(s.loops)[k], s.next, |s.frames|) {
      assert Same(s.loops[k], GoneRound(s.loops)[k]);
    }
  }

  /** What holds after the body of a loop. */
  lemma LoopBodyEnded(a: State, w: State, x: State, y: State, t: bool, pending: set<BlockId>, f: LoopFrame)
    requires Sound(a) && BodyStarted(a, w, pending, w.frames, f) && Built(w, x, t, []) && f.cont.Some?
    requires f.cont.value in pending
    requires x.loops != [] && y == BodyEnded(x, t, f.cont.value)
    ensures Going(a, y.(loops := y.loops[..|y.loops| - 1]), true, pending + {f.brk, f.cont.value})
    ensures y.loops != [] && y.loops[..|y.loops| - 1] == x.loops[..|x.loops| - 1]
    ensures LoopsGrow(a.loops, x.loops[..|x.loops| - 1])
    ensures Same(f, x.loops[|x.loops| - 1]) && x.frames == w.frames && y.frames == w.frames
    ensures y.next == x.next >= w.next
    ensures Contains(x.code, y.code) && Contains(w.code, y.code) && f.brk !in y.code && y.errors == x.errors
    ensures !t ==> Has(y.code, x.at, x.Here(), [Br(f.cont.value)])
  {
    hide Sound, Tidy, Grown, Contains, Dangling, LoopsGrow, Sim, Has, Linked, Going;
    var cont := f.cont.value;
    SoundFacts(w);
    GoBuilt(a, w, x, pending, t, []);
    BuiltLoops(w, x, t, []);
    ExtendNone(w.frames);
    LoopsGrowPop(a.loops, f, x.loops);
    GoneRoundGrows(x.loops);
    ContainsSelf(x.code);
    ContainsSelf(w.code);
    KeepBuilt(w.code, w, x, t, []);
    NotInserted(w, x, t, [], f.brk);
    if !t {
      PendingKnown(w, x, t, f);
      GoBranch(a, x, pending, [], Br(cont));
      assert [] + [Br(cont)] == [Br(cont)];
      var z := Appended(x, [Br(cont)]);
      GoGoneRound(a, z, true, pending + {cont});
      KeepAppend(x.code, x, [Br(cont)]);
      KeepAppend(w.code, x, [Br(cont)]);
      GoPopLoop(a, y, true, pending + {cont});
      GoWider(a, y.(loops := y.loops[..|y.loops| - 1]), true, pending + {cont} + FrameAims(y.loops[|y.loops| - 1]),
              pending + {f.brk, cont});
    } else {
      GoPopLoop(a, y, true, pending);
      GoWider(a, y.(loops := y.loops[..|y.loops| - 1]), true, pending + FrameAims(y.loops[|y.loops| - 1]),
              pending + {f.brk, cont});
    }
  }

  lemma GoWider(a: State, s: State, t: bool, pending: set<BlockId>, pending': set<BlockId>)
    requires Going(a, s, t, pending) && pending <= pending'
    ensures Going(a, s, t, pending')
  {
  }

  /** The blocks of an open loop frame have been created. */
  lemma PendingKnown(w: State, x: State, t: bool, f: LoopFrame)
    requires Sound(w) && w.loops != [] && w.loops[|w.loops| - 1] == f && Built(w, x, t, [])
    ensures f.brk < x.next && (f.cont.Some? ==> f.cont.value < x.next)
  {
    assert FrameSound(w.loops[|w.loops| - 1], w.next, |w.frames|);
  }

  lemma WhileBuilt(a: State, w: State, x: State, y: State, f: State, t: bool, s: Stmt)
    requires Ready(a) && WhileStarted(a, w, s)
    requires Built(w, x, t, []) && (!x.errors ==> Sim(w, x, t, Nested(s.body))) && x.loops != []
    requires y == BodyEnded(x, t, a.next) && y.loops != []
    requires f == Inserted(y, a.next + 2).(loops := y.loops[..|y.loops| - 1])
    ensures Built(a, f, false, [])
    ensures !f.errors ==> Sim(a, f, false, One(s))
  {
    hide Sound, Tidy, Grown, Contains, Dangling, LoopsGrow, Sim, Has, Linked, Going;
    var test, body, after := a.next, a.next + 1, a.next + 2;
    var fr, all := LoopAt(s.name, after, test, |a.frames|), {test, body, after};
    SoundFacts(a);
    SoundFacts(w);
    BuiltLoops(w, x, t, []);
    LoopBodyEnded(a, w, x, y, t, all, fr);
    var y' := y.(loops := y.loops[..|y.loops| - 1]);
    assert all + {fr.brk, fr.cont.value} == all;
    GoInsert(a, y', all, after);
    assert f == Inserted(y', after);
    KeepInsert(x.code, y, after);
    KeepInsert(w.code, y, after);
    ExtendNone(a.frames);
    InKeys(w, f, test); InKeys(w, f, body);
    GoFinish(a, f, false, all, []);
    if !f.errors {
      if !t {
        BuiltLoops(w, x, t, []);
        ContainsSelf(y.code);
        KeepInsert(y.code, y, after);
        HasPart(y.code, f.code, x.at, x.Here(), [Br(test)]);
      }
      WhileSim(a, w, x, f, t, s);
    }
  }

  lemma WhileSim(a: State, w: State, x: State, f: State, t: bool, s: Stmt)
    requires Ready(a) && WhileStarted(a, w, s) && Built(a, f, false, []) && Built(w, x, t, [])
    requires Sim(w, x, t, Nested(s.body)) && !f.errors && !w.errors
    requires Contains(x.code, f.code) && Contains(w.code, f.code) && f.at == a.next + 2 && f.code[f.at] == []
    requires x.loops != [] && f.loops == x.loops[..|x.loops| - 1]
    requires Same(LoopAt(s.name, a.next + 2, a.next, |a.frames|), x.loops[|x.loops| - 1])
    requires !t ==> Has(f.code, x.at, x.Here(), [Br(a.next)])
    ensures Sim(a, f, false, One(s))
  {
    hide Sound, Tidy, Grown, Contains, Dangling, Sim, Has, Linked, Going, CondCode;
    var test, body, after := a.next, a.next + 1, a.next + 2;
    SoundFacts(a);
    SoundFacts(w);
    SoundFacts(f);
    HasPart(w.code, f.code, a.at, a.Here(), [Br(test)]);
    HasPart(w.code, f.code, test, 0, CondCode(s.cond) + [CondBr(body, after)]);
    ExtendNone(a.frames);
    NamedGrow(a.loops, f.loops, s.name);
    LoopRule(a, w, x, f, t, false, LoopBlocks(test, body, test, after), s);
  }

  lemma InKeys(w: State, f: State, b: BlockId)
    requires Contains(w.code, f.code) && b in w.code
    ensures b in f.code.Keys
  {
  }

  /** The loops with one more "continue" recorded in the innermost frame. */
  function GoneRound(loops: seq<LoopFrame>): seq<LoopFrame>
    requires loops != []
  {
    var k := |loops| - 1;
    loops[k := loops[k].(continues := loops[k].continues + 1)]
  }

  lemma SizesKept(a: State, q: State)
    requires Sound(a) && LoopsGrow(a.loops, q.loops)
    ensures forall k :: 0 <= k < |q.loops| ==> q.loops[k].size <= |a.frames|
  {
    forall k | 0 <= k < |q.loops| ensures q.loops[k].size <= |a.frames| {
      assert FrameSound(a.loops[k], a.next, |a.frames|) && Same(a.loops[k], q.loops[k]);
    }
  }

  // ----- statements without blocks -----

  lemma SimpleBuilt(a: State, f: State, e: Expr)
    requires Ready(a) && f == Appended(a, AfterCode(e))
    ensures Built(a, f, false, [])
    ensures Sim(a, f, false, One(Simple(e)))
  {
    hide Tidy, Grown, Contains, Dangling, LoopsGrow, Sim, Has, Linked;
    GoStart(a);
    GoAppend(a, a, {}, AfterCode(e));
    ExtendNone(a.frames);
    LoopsSelf(a.loops);
    GoFinish(a, f, false, {}, []);
    forall env, m: Regs, fuel: nat ensures Meaning(env, One(Simple(e)), m.tr, fuel).tr == Effects(env, AfterCode(e), m).tr {
      AfterEffects(env, e, m);
    }
    StraightRule(a, f, AfterCode(e), One(Simple(e)));
  }

  lemma LoopsSelf(l: seq<LoopFrame>)
    ensures LoopsGrow(l, l)
  {
  }

  lemma GoRegister(a: State, s: State, t: bool, pending: set<BlockId>, vs: seq<Var>)
    requires Going(a, s, t, pending)
    ensures Going(a, s.(frames := Extend(s.frames, vs)), t, pending)
  {
  }

  lemma DeclareBuilt(a: State, f: State, ds: seq<Decl>)
    requires Ready(a) && f == Appended(a, DeclsCode(ds)).(frames := Extend(a.frames, Declared(ds)))
    ensures Built(a, f, false, Declared(ds))
    ensures Sim(a, f, false, One(Declare(ds)))
  {
    hide Tidy, Grown, Contains, Dangling, LoopsGrow, Sim, Has, Linked;
    GoStart(a);
    GoAppend(a, a, {}, DeclsCode(ds));
    GoRegister(a, Appended(a, DeclsCode(ds)), false, {}, Declared(ds));
    LoopsSelf(a.loops);
    GoFinish(a, f, false, {}, Declared(ds));
    forall env, m: Regs, fuel: nat ensures Meaning(env, One(Declare(ds)), m.tr, fuel).tr == Effects(env, DeclsCode(ds), m).tr {
      DeclsEffects(env, ds, m);
    }
    StraightRule(a, f, DeclsCode(ds), One(Declare(ds)));
  }

  /** The loops with a jump recorded in frame k. */
  function Recorded(loops: seq<LoopFrame>, k: nat, isBreak: bool): seq<LoopFrame>
    requires k < |loops|
  {
    loops[k := if isBreak then loops[k].(breaks := loops[k].breaks + 1) else loops[k].(continues := loops[k].continues + 1)]
  }

  lemma JumpBuilt(a: State, f: State, k: nat, to: BlockId, s: Stmt)
    requires Ready(a) && (s.Break? || s.Continue?) && Target(a.loops, s.target) == Some(k)
    requires if s.Break? then to == a.loops[k].brk else a.loops[k].cont == Some(to)
    requires f == Appended(a.(loops := Recorded(a.loops, k, s.Break?)), Emits(DestroyDown(a.frames, a.loops[k].size)) + [Br(to)])
    ensures Built(a, f, true, [])
    ensures Sim(a, f, true, One(s))
  {
    hide Tidy, Grown, Contains, Dangling, Sim, Linked, LoopAims, DestroyDown;
    var cs := Emits(DestroyDown(a.frames, a.loops[k].size));
    var b := a.(loops := Recorded(a.loops, k, s.Break?));
    GoStart(a);
    RecordedGrows(a, k, s.Break?, to);
    LoopAimsGrow(a.loops, b.loops);
    GoLoops(a, a, b, false, {});
    StraightOpen(cs);
    assert FrameSound(a.loops[k], a.next, |a.frames|);
    GoBranch(a, b, {}, cs, Br(to));
    ExtendNone(a.frames);
    GoAbsorb(a, f, true, {} + {to}, {});
    GoFinish(a, f, true, {}, []);
    TargetGrow(a.loops, f.loops, s.target);
    JumpRule(a, f, k, to, s);
  }

  lemma RecordedGrows(a: State, k: nat, isBreak: bool, to: BlockId)
    requires Sound(a) && k < |a.loops|
    requires if isBreak then to == a.loops[k].brk else a.loops[k].cont == Some(to)
    ensures var l := Recorded(a.loops, k, isBreak); LoopsGrow(a.loops, l) && to in LoopAims(l)
  {
    var l := Recorded(a.loops, k, isBreak);
    if isBreak { assert l[k].breaks > 0 && l[k].brk == to; } else { assert l[k].continues > 0 && l[k].cont.Some? && l[k].cont.value == to; }
  }

  /** More jumps recorded in the frames. */
  lemma GoLoops(a: State, s: State, s': State, t: bool, pending: set<BlockId>)
    requires Going(a, s, t, pending) && s' == s.(loops := s'.loops) && LoopsGrow(s.loops, s'.loops)
    ensures Going(a, s', t, pending)
  {
    LoopAimsGrow(s.loops, s'.loops);
    forall k | 0 <= k < |s'.loops| ensures FrameSound(s'.loops[k], s'.next, |s'.frames|) {
      assert Same(s.loops[k], s'.loops[k]) && FrameSound(s.loops[k], s.next, |s.frames|);
    }
  }

  /** Pending blocks that recorded jumps, or the function itself, account for. */
  lemma GoAbsorb(a: State, s: State, t: bool, pending: set<BlockId>, pending': set<BlockId>)
    requires Going(a, s, t, pending) && pending <= pending' + LoopAims(s.loops) + s.code.Keys
    ensures Going(a, s, t, pending')
  {
  }

  lemma {:induction false} DestroyDownAppends(f: Frames, vs: seq<Var>)
    ensures Emits(DestroyDown(f + [vs], 0)) == Emits(Destroys(vs)) + Emits(DestroyDown(f, 0))
  {
    DestroyScope(f, vs, 0);
  }

  function ReturnCode(result: Option<Expr>, frames: Frames): Code {
    (if result.Some? then AfterCode(result.value) else []) + Emits(DestroyDown(frames, 0))
  }

  lemma ReturnBuilt(a: State, f: State, result: Option<Expr>)
    requires Ready(a) && f == Appended(a, ReturnCode(result, a.frames) + [Ret])
    ensures Built(a, f, true, [])
    ensures Sim(a, f, true, One(Return(result)))
  {
    hide Tidy, Grown, Contains, Dangling, Sim, Linked, LoopAims, DestroyDown, Has, LoopsGrow;
    var cs := ReturnCode(result, a.frames);
    GoStart(a);
    StraightOpen(cs);
    GoBranch(a, a, {}, cs, Ret);
    ExtendNone(a.frames);
    LoopsSelf(a.loops);
    GoFinish(a, f, true, {}, []);
    ReturnRule(a, f, result);
  }

  lemma HaltBuilt(a: State, f: State)
    requires Ready(a) && f == Appended(a, [CallHalt, Unreachable])
    ensures Built(a, f, true, [])
    ensures Sim(a, f, true, One(Halt))
  {
    hide Tidy, Grown, Contains, Dangling, Sim, Linked, LoopAims, Has, LoopsGrow;
    GoStart(a);
    assert [CallHalt] + [Unreachable] == [CallHalt, Unreachable];
    GoBranch(a, a, {}, [CallHalt], Unreachable);
    ExtendNone(a.frames);
    LoopsSelf(a.loops);
    GoFinish(a, f, true, {}, []);
    HaltRule(a, f);
  }

  // ----- two-way branches -----

  /** The condition of a branch has been built, and the block for "true" entered. */
  ghost predicate Branched(a: State, p: State, c: Expr) {
    && a.at in a.code
    && Ready(p) && Going(a, p, false, {a.next, a.next + 1})
    && p.at == a.next && p.code[p.at] == [] && p.frames == a.frames && p.loops == a.loops
    && p.next == a.next + 2 && a.next + 1 !in p.code
    && Has(p.code, a.at, a.Here(), CondCode(c) + [CondBr(a.next, a.next + 1)])
  }

  lemma BranchedReady(a: State, p: State, c: Expr)
    requires Branched(a, p, c)
    ensures Ready(p) && p.at in p.code && p.frames == a.frames && p.frames != [] && p.next == a.next + 2
  {
  }

  lemma Branch(a: State, s0: State, p: State, c: Expr)
    requires Ready(a) && s0 == a.(next := a.next + 2)
    requires p == Inserted(Appended(s0, CondCode(c) + [CondBr(a.next, a.next + 1)]), a.next)
    ensures Branched(a, p, c)
  {
    hide Sound, Tidy, Grown, Contains, Dangling, LoopsGrow, Sim, Has, Linked, Going, LoopAims;
    SoundFacts(a);
    var yes, no := a.next, a.next + 1;
    NotMentioned(a, yes); NotMentioned(a, no);
    GoStart(a);
    GoCreate(a, a, false, {});
    GoCreate(a, a.(next := a.next + 1), false, {});
    StraightOpen(CondCode(c));
    GoBranch(a, s0, {}, CondCode(c), CondBr(yes, no));
    var s1 := Appended(s0, CondCode(c) + [CondBr(yes, no)]);
    assert {} + CondBr(yes, no).Targets() == {yes, no};
    GoInsert(a, s1, {yes, no}, yes);
    ContainsSelf(s1.code);
    KeepInsert(s1.code, s1, yes);
    HasPart(s1.code, p.code, a.at, a.Here(), CondCode(c) + [CondBr(yes, no)]);
    GoReady(a, p, {yes, no});
    assert no !in p.code;
    assert p.code[p.at] == [];
  }

  lemma HaltIfBuilt(a: State, p: State, q: State, f: State, c: Expr)
    requires Ready(a) && Branched(a, p, c) && p.at in p.code
    requires q == Appended(p, [CallHalt, Unreachable]) && f == Inserted(q, a.next + 1)
    ensures Built(a, f, false, [])
    ensures Sim(a, f, false, One(HaltIf(c)))
  {
    hide Sound, Tidy, Grown, Contains, Dangling, LoopsGrow, Sim, Has, Linked, Going, LoopAims;
    SoundFacts(a);
    var yes, no := a.next, a.next + 1;
    assert [CallHalt] + [Unreachable] == [CallHalt, Unreachable];
    GoBranch(a, p, {yes, no}, [CallHalt], Unreachable);
    assert {yes, no} + Unreachable.Targets() == {yes, no};
    GoInsert(a, q, {yes, no}, no);
    ContainsSelf(p.code);
    KeepAppend(p.code, p, [CallHalt, Unreachable]);
    KeepInsert(p.code, q, no);
    ContainsSelf(q.code);
    KeepInsert(q.code, q, no);
    HasPart(p.code, f.code, a.at, a.Here(), CondCode(c) + [CondBr(yes, no)]);
    HasPart(q.code, f.code, yes, 0, [CallHalt, Unreachable]);
    ExtendNone(a.frames);
    LoopsSelf(a.loops);
    GoFinish(a, f, false, {yes, no}, []);
    GoReady(a, f, {yes, no});
    HaltIfRule(a, f, yes, c);
  }

  // ----- if -----

  /** The state after code that jumps to b if control falls out of it. */
  ghost function Joined(q: State, t: bool, b: BlockId): State
    requires q.at in q.code
  {
    if t then q else Appended(q, [Br(b)])
  }

  lemma GoJoined(a: State, q: State, t: bool, pending: set<BlockId>, b: BlockId)
    requires Going(a, q, t, pending) && b < q.next && q.at in q.code
    ensures Going(a, Joined(q, t, b), true, pending + {b})
    ensures Contains(q.code, Joined(q, t, b).code)
    ensures t ==> Going(a, Joined(q, t, b), true, pending)
    ensures !t ==> Has(Joined(q, t, b).code, q.at, q.Here(), [Br(b)])
  {
    hide Sound, Tidy, Grown, Contains, Dangling, LoopsGrow, Sim, Has, Linked, Going, LoopAims;
    if !t {
      GoBranch(a, q, pending, [], Br(b));
      assert [] + [Br(b)] == [Br(b)];
      AppendContains(q, [Br(b)]);
    } else {
      GoWider(a, q, true, pending, pending + {b});
      ContainsSelf(q.code);
    }
  }

  lemma IfBuilt(a: State, p: State, q: State, y: State, f: State, t: bool, choice: IfOperator)
    requires Ready(a) && Branched(a, p, choice.cond) && choice.alternative.NoElse?
    requires Built(p, q, t, []) && (!q.errors ==> Sim(p, q, t, Nested(choice.body))) && q.at in q.code
    requires y == Joined(q, t, a.next + 1) && f == Inserted(y, a.next + 1)
    ensures Built(a, f, false, [])
    ensures !f.errors ==> Sim(a, f, false, Choice(choice))
  {
    hide Sound, Tidy, Grown, Contains, Dangling, LoopsGrow, Sim, Has, Linked, Going, LoopAims, CondCode;
    SoundFacts(a);
    BuiltLoops(p, q, t, []);
    var yes, no := a.next, a.next + 1;
    GoBuilt(a, p, q, {yes, no}, t, []);
    GoJoined(a, q, t, {yes, no}, no);
    assert {yes, no} + {no} == {yes, no};
    NotInserted(p, q, t, [], no);
    GoInsert(a, y, {yes, no}, no);
    KeepInsert(q.code, y, no);
    ContainsSelf(p.code);
    KeepBuilt(p.code, p, q, t, []);
    ContainsTrans(p.code, q.code, f.code);
    ExtendNone(a.frames);
    SoundFacts(p);
    InKeys(p, f, yes);
    assert no in f.code.Keys;
    GoFinish(a, f, false, {yes, no}, []);
    if !f.errors {
      HasPart(p.code, f.code, a.at, a.Here(), CondCode(choice.cond) + [CondBr(yes, no)]);
      ContainsSelf(y.code);
      KeepInsert(y.code, y, no);
      if !t { HasPart(y.code, f.code, q.at, q.Here(), [Br(no)]); }
      LoopsSelf(q.loops);
      IfRule(a, p, q, f, t, choice);
    }
  }

  /** The block for "true" is finished, and the block for "false" entered. */
  ghost predicate Alternated(a: State, p: State, q: State, p': State, t: bool, e: BlockId, c: Expr) {
    && a.at in a.code && p.at in p.code && q.at in q.code
    && Ready(p') && Going(a, p', false, {a.next, a.next + 1, e}) && (t ==> Going(a, p', false, {a.next, a.next + 1}))
    && p'.at == a.next + 1 && p'.code[p'.at] == [] && p'.frames == a.frames && p'.loops == q.loops && LoopsGrow(a.loops, p'.loops)
    && a.next in p'.code && a.next <= e < p'.next && e !in p'.code && Contains(q.code, p'.code)
    && Has(p'.code, a.at, a.Here(), CondCode(c) + [CondBr(a.next, a.next + 1)])
    && (!t ==> Has(p'.code, q.at, q.Here(), [Br(e)]))
    && (q.errors ==> p'.errors)
  }

  lemma AlternatedReady(a: State, p: State, q: State, p': State, t: bool, e: BlockId, c: Expr)
    requires Alternated(a, p, q, p', t, e, c)
    ensures Ready(p') && p'.at in p'.code && p'.frames == a.frames && p'.frames != []
  {
  }

  lemma Alternate(a: State, p: State, q: State, y: State, p': State, t: bool, c: Expr)
    requires Ready(a) && Branched(a, p, c) && Built(p, q, t, []) && q.at in q.code
    requires y == Joined(q.(next := q.next + 1), t, q.next) && p' == Inserted(y, a.next + 1)
    ensures Alternated(a, p, q, p', t, q.next, c)
  {
    hide Sound, Tidy, Grown, Contains, Dangling, LoopsGrow, Sim, Has, Linked, Going, LoopAims, CondCode;
    SoundFacts(a);
    BuiltLoops(p, q, t, []);
    var yes, no, e := a.next, a.next + 1, q.next;
    GoBuilt(a, p, q, {yes, no}, t, []);
    NotMentioned(q, e);
    GoCreate(a, q, t, {yes, no});
    var q0 := q.(next := q.next + 1);
    GoJoined(a, q0, t, {yes, no}, e);
    assert {yes, no} + {e} == {yes, no, e};
    NotInserted(p, q, t, [], no);
    GoInsert(a, y, {yes, no, e}, no);
    if t { GoInsert(a, y, {yes, no}, no); }
    KeepInsert(q.code, y, no);
    ContainsSelf(p.code);
    KeepBuilt(p.code, p, q, t, []);
    ContainsTrans(p.code, q.code, p'.code);
    HasPart(p.code, p'.code, a.at, a.Here(), CondCode(c) + [CondBr(yes, no)]);
    ContainsSelf(y.code);
    KeepInsert(y.code, y, no);
    if !t { HasPart(y.code, p'.code, q.at, q.Here(), [Br(e)]); }
    GoReady(a, p', {yes, no, e});
    SoundFacts(p);
    InKeys(p, p', yes);
    ExtendNone(a.frames);
    assert e !in p'.code;
  }

  lemma IfElseBuilt(a: State, p: State, q: State, p': State, q': State, y: State, f: State, t: bool, t': bool,
                    e: BlockId, choice: IfOperator)
    requires Ready(a) && Branched(a, p, choice.cond) && Built(p, q, t, [])
    requires (!q.errors ==> Sim(p, q, t, Nested(choice.body)))
    requires q.at in q.code && Alternated(a, p, q, p', t, e, choice.cond) && !choice.alternative.NoElse?
    requires Built(p', q', t', []) && (!q'.errors ==> Sim(p', q', t', AlternativeJob(choice.alternative)))
    requires q'.at in q'.code
    requires y == Joined(q', t', e) && f == if t && t' then y else Inserted(y, e)
    ensures Built(a, f, t && t', [])
    ensures !f.errors ==> Sim(a, f, t && t', Choice(choice))
  {
    hide Built, Sound, Tidy, Grown, Contains, Dangling, LoopsGrow, Sim, Has, Linked, Going, LoopAims, CondCode;
    ReadyFacts(a);
    BuiltLoops(p, q, t, []);
    BuiltLoops(p', q', t', []);
    var yes, no := a.next, a.next + 1;
    NotInserted(p', q', t', [], e);
    GoBuilt(a, p', q', {yes, no, e}, t', []);
    GoJoined(a, q', t', {yes, no, e}, e);
    assert {yes, no, e} + {e} == {yes, no, e};
    ContainsSelf(y.code);
    if t && t' {
      GoBuilt(a, p', q', {yes, no}, t', []);
      GoJoined(a, q', t', {yes, no}, e);
    } else {
      GoInsert(a, y, {yes, no, e}, e);
      KeepInsert(y.code, y, e);
    }
    ContainsTrans(q'.code, y.code, f.code);
    ContainsSelf(p'.code);
    KeepBuilt(p'.code, p', q', t', []);
    ContainsTrans(p'.code, q'.code, f.code);
    ContainsTrans(q.code, p'.code, f.code);
    ExtendNone(a.frames);
    SoundFacts(p');
    InKeys(p', f, yes); InKeys(p', f, no);
    LoopsGrowTrans(a.loops, p'.loops, q'.loops);
    if t && t' { GoFinish(a, f, true, {yes, no}, []); } else { assert e in f.code.Keys; GoFinish(a, f, false, {yes, no, e}, []); }
    if !f.errors { IfElseSim(a, p, q, p', q', y, f, t, t', e, choice); }
  }

  lemma IfElseSim(a: State, p: State, q: State, p': State, q': State, y: State, f: State, t: bool, t': bool, e: BlockId,
                  choice: IfOperator)
    requires Sound(a) && Branched(a, p, choice.cond) && Built(p, q, t, []) && Sim(p, q, t, Nested(choice.body))
    requires q.at in q.code
    requires Alternated(a, p, q, p', t, e, choice.cond) && !choice.alternative.NoElse? && Built(p', q', t', [])
    requires Sim(p', q', t', AlternativeJob(choice.alternative)) && q'.at in q'.code && Built(a, f, t && t', [])
    requires f.loops == q'.loops
    requires Contains(q.code, f.code) && Contains(p'.code, f.code) && Contains(q'.code, f.code)
    requires Contains(y.code, f.code)
    requires !t' ==> Has(y.code, q'.at, q'.Here(), [Br(e)])
    requires !(t && t') ==> f.at == e && f.code[f.at] == []
    ensures Sim(a, f, t && t', Choice(choice))
  {
    hide Sound, Tidy, Grown, Contains, Dangling, LoopsGrow, Sim, Has, Linked, Going, LoopAims, CondCode;
    SoundFacts(a); SoundFacts(f);
    BuiltLoops(p, q, t, []);
    BuiltLoops(p', q', t', []);
    HasPart(p'.code, f.code, a.at, a.Here(), CondCode(choice.cond) + [CondBr(a.next, a.next + 1)]);
    if !t { HasPart(p'.code, f.code, q.at, q.Here(), [Br(e)]); }
    if !t' { HasPart(y.code, f.code, q'.at, q'.Here(), [Br(e)]); }
    LoopsSelf(f.loops);
    IfElseRule(a, p, q, p', q', f, e, t, t', choice);
  }

  // ----- loop -----

  ghost predicate LoopStarted(a: State, w: State, s: Stmt) {
    && s.Loop? && a.at in a.code
    && BodyStarted(a, w, {a.next, a.next + 1}, a.frames, LoopAt(s.name, a.next + 1, a.next, |a.frames|))
    && Going(a, w, false, {a.next})
    && w.at == a.next && Has(w.code, a.at, a.Here(), [Br(a.next)])
  }

  lemma LoopStartedReady(a: State, w: State, s: Stmt)
    requires LoopStarted(a, w, s)
    ensures Ready(w) && w.at in w.code && w.frames == a.frames && w.frames != [] && w.loops != []
  {
  }

  lemma LoopStart(a: State, s0: State, s1: State, w: State, s: Stmt)
    requires Ready(a) && s.Loop? && s0 == a.(next := a.next + 2)
    requires s1 == Appended(s0, [Br(a.next)])
    requires w == Inserted(WithLoop(s1, a.next + 1, Some(a.next), s.name), a.next)
    ensures LoopStarted(a, w, s)
  {
    hide Sound, Tidy, Grown, Contains, Dangling, LoopsGrow, Sim, Has, Linked, Going, LoopAims;
    SoundFacts(a);
    var body, after := a.next, a.next + 1;
    NotMentioned(a, body); NotMentioned(a, after);
    GoStart(a);
    GoCreate(a, a, false, {});
    GoCreate(a, a.(next := a.next + 1), false, {});
    GoBranch(a, s0, {}, [], Br(body));
    assert [] + [Br(body)] == [Br(body)] && {} + {body} == {body};
    GoWithLoop(a, s1, true, {body}, after, Some(body), s.name);
    var s2 := WithLoop(s1, after, Some(body), s.name);
    GoInsert(a, s2, {body}, body);
    ContainsSelf(s1.code);
    KeepInsert(s1.code, s2, body);
    HasPart(s1.code, w.code, a.at, a.Here(), [Br(body)]);
    GoReady(a, w, {body});
    GoWider(a, w, false, {body}, {body, after});
    assert w.loops == a.loops + [LoopAt(s.name, after, body, |a.frames|)];
    assert after !in w.code && w.code[w.at] == [];
    assert BodyStarted(a, w, {body, after}, a.frames, LoopAt(s.name, after, body, |a.frames|));
  }

  lemma LoopBuilt(a: State, w: State, x: State, y: State, f: State, t: bool, terminal: bool, s: Stmt)
    requires Ready(a) && LoopStarted(a, w, s)
    requires Built(w, x, t, []) && (!x.errors ==> Sim(w, x, t, Nested(s.body))) && x.loops != [] && x.at in x.code
    requires y == BodyEnded(x, t, a.next) && y.loops != [] && terminal == (x.loops[|x.loops| - 1].breaks == 0)
    requires var y' := y.(loops := y.loops[..|y.loops| - 1]); f == if terminal then y' else Inserted(y', a.next + 1)
    ensures Built(a, f, terminal, [])
    ensures !f.errors ==> Sim(a, f, terminal, One(s))
  {
    hide Sound, Tidy, Grown, Contains, Dangling, LoopsGrow, Sim, Has, Linked, Going, LoopAims;
    SoundFacts(a); SoundFacts(w);
    var body, after := a.next, a.next + 1;
    var fr, all := LoopAt(s.name, after, body, |a.frames|), {body, after};
    LoopBodyEnded(a, w, x, y, t, all, fr);
    BuiltLoops(w, x, t, []);
    var y' := y.(loops := y.loops[..|y.loops| - 1]);
    assert all + {fr.brk, fr.cont.value} == all;
    ExtendNone(a.frames);
    ContainsSelf(y.code);
    if terminal {
      LoopNotBroken(a, w, x, y, t, s);
    } else {
      GoInsert(a, y', all, after);
      KeepInsert(y.code, y', after);
    }
    ContainsTrans(x.code, y.code, f.code);
    ContainsTrans(w.code, y.code, f.code);
    InKeys(w, f, body);
    if terminal { GoFinish(a, f, true, {body}, []); } else { GoFinish(a, f, false, all, []); }
    if !f.errors {
      if !t { HasPart(y.code, f.code, x.at, x.Here(), [Br(body)]); }
      LoopSim(a, w, x, f, t, terminal, s);
    }
  }

  /** Nothing branches to the block after a loop that is never broken out of. */
  lemma LoopNotBroken(a: State, w: State, x: State, y: State, t: bool, s: Stmt)
    requires Ready(a) && LoopStarted(a, w, s) && Built(w, x, t, []) && x.loops != [] && x.at in x.code
    requires y == BodyEnded(x, t, a.next) && y.loops != [] && x.loops[|x.loops| - 1].breaks == 0
    requires Same(LoopAt(s.name, a.next + 1, a.next, |a.frames|), x.loops[|x.loops| - 1])
    ensures Going(a, y.(loops := y.loops[..|y.loops| - 1]), true, {a.next})
  {
    hide Sound, Tidy, Grown, Contains, Dangling, LoopsGrow, Sim, Has, Linked, Going, LoopAims;
    SoundFacts(w);
    GoBuilt(a, w, x, {a.next}, t, []);
    if !t {
      PendingKnown(w, x, t, LoopAt(s.name, a.next + 1, a.next, |a.frames|));
      GoBranch(a, x, {a.next}, [], Br(a.next));
      assert [] + [Br(a.next)] == [Br(a.next)];
      GoGoneRound(a, Appended(x, [Br(a.next)]), true, {a.next} + {a.next});
    }
    assert {a.next} + {a.next} == {a.next};
    GoPopLoop(a, y, true, {a.next});
    assert {a.next} + FrameAims(y.loops[|y.loops| - 1]) == {a.next};
  }

  lemma LoopSim(a: State, w: State, x: State, f: State, t: bool, terminal: bool, s: Stmt)
    requires Ready(a) && LoopStarted(a, w, s) && Built(a, f, terminal, []) && Built(w, x, t, [])
    requires Sim(w, x, t, Nested(s.body)) && !f.errors && !w.errors
    requires Contains(x.code, f.code) && Contains(w.code, f.code)
    requires (!terminal ==> f.at == a.next + 1 && f.code[f.at] == [])
    requires x.loops != [] && f.loops == x.loops[..|x.loops| - 1]
    requires Same(LoopAt(s.name, a.next + 1, a.next, |a.frames|), x.loops[|x.loops| - 1])
    requires terminal == (x.loops[|x.loops| - 1].breaks == 0)
    requires !t ==> Has(f.code, x.at, x.Here(), [Br(a.next)])
    ensures Sim(a, f, terminal, One(s))
  {
    hide Sound, Tidy, Grown, Contains, Dangling, Sim, Has, Linked, Going, LoopAims;
    var body, after := a.next, a.next + 1;
    SoundFacts(a); SoundFacts(w); SoundFacts(f);
    HasPart(w.code, f.code, a.at, a.Here(), [Br(body)]);
    ExtendNone(a.frames);
    NamedGrow(a.loops, f.loops, s.name);
    LoopRule(a, w, x, f, t, terminal, LoopBlocks(body, body, body, after), s);
  }

  // ----- C-style for -----

  /** The blocks of a C-style "for" built in state a. */
  function ForBlocks(a: State): LoopBlocks {
    LoopBlocks(a.next, a.next + 1, a.next + 2, a.next + 3)
  }

  function ForSet(a: State): set<BlockId> {
    {a.next, a.next + 1, a.next + 2, a.next + 3}
  }

  function ForTest(s: Stmt, l: LoopBlocks): Code
    requires s.CStyleFor?
  {
    if s.test.Some? then CondCode(s.test.value) + [CondBr(l.body, l.exit)] else [Br(l.body)]
  }

  ghost predicate ForStarted(a: State, w: State, s: Stmt) {
    && s.CStyleFor? && a.at in a.code
    && var l := ForBlocks(a);
    && BodyStarted(a, w, ForSet(a), a.frames + [Declared(s.decls)], LoopAt(s.name, l.exit, l.cont, |a.frames| + 1))
    && w.at == l.body && l.test in w.code && l.cont !in w.code && w.next == a.next + 4
    && Has(w.code, a.at, a.Here(), DeclsCode(s.decls) + [Br(l.test)])
    && Has(w.code, l.test, 0, ForTest(s, l))
  }

  lemma ForStartedReady(a: State, w: State, s: Stmt)
    requires ForStarted(a, w, s)
    ensures Ready(w) && w.at in w.code && w.frames == a.frames + [Declared(s.decls)] && w.frames != [] && w.loops != []
  {
  }

  lemma ForStart(a: State, s0: State, s1: State, s2: State, w: State, s: Stmt)
    requires Ready(a) && s.CStyleFor?
    requires s0 == Appended(a, DeclsCode(s.decls) + [Br(a.next)]).(frames := a.frames + [Declared(s.decls)], next := a.next + 4)
    requires s1 == Inserted(s0, a.next) && s2 == Appended(s1, ForTest(s, ForBlocks(a)))
    requires w == Inserted(WithLoop(s2, a.next + 3, Some(a.next + 2), s.name), a.next + 1)
    ensures ForStarted(a, w, s)
  {
    hide Ready, Sound, Tidy, Grown, Contains, Dangling, LoopsGrow, Sim, Has, Linked, Going, LoopAims, DeclsCode, CondCode,
         Declared, ForTest;
    ReadyFacts(a);
    var l, all, cs := ForBlocks(a), ForSet(a), DeclsCode(s.decls);
    NotMentioned(a, l.test); NotMentioned(a, l.body); NotMentioned(a, l.cont); NotMentioned(a, l.exit);
    ForStartGoes(a, s0, s1, s2, s);
    GoWithLoop(a, s2, true, all, l.exit, Some(l.cont), s.name);
    var s3 := WithLoop(s2, l.exit, Some(l.cont), s.name);
    GoInsert(a, s3, all, l.body);
    KeepInsert(s0.code, s3, l.body);
    ContainsSelf(s2.code);
    KeepInsert(s2.code, s3, l.body);
    HasPart(s0.code, w.code, a.at, a.Here(), cs + [Br(l.test)]);
    HasPart(s2.code, w.code, l.test, 0, ForTest(s, l));
    GoReady(a, w, all);
    assert w.loops == a.loops + [LoopAt(s.name, l.exit, l.cont, |a.frames| + 1)];
    assert l.exit !in w.code && l.cont !in w.code && w.code[w.at] == [];
    assert BodyStarted(a, w, all, a.frames + [Declared(s.decls)], LoopAt(s.name, l.exit, l.cont, |a.frames| + 1));
  }

  lemma ForStartGoes(a: State, s0: State, s1: State, s2: State, s: Stmt)
    requires Ready(a) && s.CStyleFor?
    requires s0 == Appended(a, DeclsCode(s.decls) + [Br(a.next)]).(frames := a.frames + [Declared(s.decls)], next := a.next + 4)
    requires s1 == Inserted(s0, a.next) && s2 == Appended(s1, ForTest(s, ForBlocks(a)))
    ensures Going(a, s2, true, ForSet(a)) && Contains(s0.code, s2.code)
    ensures Has(s0.code, a.at, a.Here(), DeclsCode(s.decls) + [Br(a.next)])
    ensures Has(s2.code, a.next, 0, ForTest(s, ForBlocks(a)))
  {
    hide Sound, Tidy, Grown, Contains, Dangling, LoopsGrow, Sim, Has, Linked, Going, LoopAims, DeclsCode, CondCode;
    SoundFacts(a);
    var l, all, cs := ForBlocks(a), ForSet(a), DeclsCode(s.decls);
    NotMentioned(a, l.test);
    GoStart(a);
    GoCreate(a, a, false, {});
    GoCreate(a, a.(next := a.next + 1), false, {});
    GoCreate(a, a.(next := a.next + 2), false, {});
    GoCreate(a, a.(next := a.next + 3), false, {});
    var a4 := a.(next := a.next + 4);
    GoPushFrame(a, a4, false, {}, Declared(s.decls));
    StraightOpen(cs);
    GoBranch(a, a4.(frames := a.frames + [Declared(s.decls)]), {}, cs, Br(l.test));
    assert s0 == Appended(a4.(frames := a.frames + [Declared(s.decls)]), cs + [Br(l.test)]);
    GoInsert(a, s0, {} + {l.test}, l.test);
    ContainsSelf(s0.code);
    KeepInsert(s0.code, s0, l.test);
    KeepAppend(s0.code, s1, ForTest(s, l));
    if s.test.Some? {
      StraightOpen(CondCode(s.test.value));
      GoBranch(a, s1, {} + {l.test}, CondCode(s.test.value), CondBr(l.body, l.exit));
      GoWider(a, s2, true, {} + {l.test} + {l.body, l.exit}, all);
    } else {
      GoBranch(a, s1, {} + {l.test}, [], Br(l.body));
      assert [] + [Br(l.body)] == [Br(l.body)];
      GoWider(a, s2, true, {} + {l.test} + {l.body}, all);
    }
  }

  /** The states at the end of a C-style "for". */
  ghost predicate ForEnded(a: State, w: State, x: State, y: State, z: State, u: State, f: State, t: bool, s: Stmt) {
    && s.CStyleFor? && ForStarted(a, w, s) && w.frames != [] && Built(w, x, t, []) && x.loops != [] && x.at in x.code
    && y == BodyEnded(x, t, a.next + 2) && y.loops != []
    && z == Appended(Inserted(y.(loops := y.loops[..|y.loops| - 1]), a.next + 2), AfterAllCode(s.step) + [Br(a.next)])
    && u == Inserted(z, a.next + 3)
    && f == Appended(u, Emits(Destroys(Declared(s.decls)))).(frames := a.frames)
  }

  lemma ForTail(a: State, w: State, x: State, y: State, z: State, u: State, f: State, t: bool, s: Stmt)
    requires Ready(a) && ForEnded(a, w, x, y, z, u, f, t, s)
    ensures Going(a, f.(frames := u.frames), false, ForSet(a)) && Sound(u) && ForSet(a) <= f.code.Keys
    ensures Contains(x.code, f.code) && Contains(w.code, f.code) && Contains(y.code, f.code)
    ensures f.loops == u.loops == x.loops[..|x.loops| - 1]
    ensures Same(LoopAt(s.name, a.next + 3, a.next + 2, |a.frames| + 1), x.loops[|x.loops| - 1])
    ensures LoopsGrow(a.loops, f.loops) && Has(f.code, a.next + 2, 0, AfterAllCode(s.step) + [Br(a.next)])
    ensures !t ==> Has(y.code, x.at, x.Here(), [Br(a.next + 2)])
  {
    hide Ready, Built, Sound, Tidy, Grown, Contains, Dangling, LoopsGrow, Sim, Has, Linked, Going, LoopAims, DeclsCode, CondCode,
         AfterAllCode, Appended, Inserted, BodyEnded, Emits, Destroys, Declared, ForTest;
    ReadyFacts(a); ReadyFacts(w);
    var l, all := ForBlocks(a), ForSet(a);
    var fr := LoopAt(s.name, l.exit, l.cont, |a.frames| + 1);
    LoopBodyEnded(a, w, x, y, t, all, fr);
    BuiltLoops(w, x, t, []);
    NotInserted(w, x, t, [], l.cont);
    BodyEndedKeys(x, t, l.cont);
    var y' := y.(loops := y.loops[..|y.loops| - 1]);
    assert all + {fr.brk, fr.cont.value} == all;
    ForTailGoes(a, y', z, u, f, s);
    ContainsTrans(x.code, y.code, f.code);
    ContainsTrans(w.code, y.code, f.code);
    InKeys(w, f, l.test); InKeys(w, f, l.body);
  }

  lemma ForGrown(a: State, w: State, x: State, y: State, z: State, u: State, f: State, t: bool, s: Stmt)
    requires Ready(a) && ForEnded(a, w, x, y, z, u, f, t, s)
    ensures Built(a, f, false, [])
    ensures f.errors == x.errors && (w.errors ==> x.errors)
    ensures !t ==> Has(f.code, x.at, x.Here(), [Br(a.next + 2)])
  {
    hide Sound, Tidy, Grown, Contains, Dangling, LoopsGrow, Sim, Has, Linked, Going, LoopAims, DeclsCode, CondCode,
         AfterAllCode, ForStarted;
    ReadyFacts(a);
    ForTail(a, w, x, y, z, u, f, t, s);
    BuiltLoops(w, x, t, []);
    ExtendNone(a.frames);
    SizesKept(a, f);
    GoFrames(a, f.(frames := u.frames), false, ForSet(a), a.frames);
    GoFinish(a, f, false, ForSet(a), []);
    if !t { HasPart(y.code, f.code, x.at, x.Here(), [Br(a.next + 2)]); }
  }

  /** The end of a C-style "for": its step block, the block after it, and the destruction of its variables. */
  lemma ForBuilt(a: State, w: State, x: State, y: State, z: State, u: State, f: State, t: bool, s: Stmt)
    requires Ready(a) && ForEnded(a, w, x, y, z, u, f, t, s) && w.at in w.code
    requires (!x.errors ==> Sim(w, x, t, Nested(s.body)))
    ensures Built(a, f, false, [])
    ensures !f.errors ==> Sim(a, f, false, One(s))
  {
    hide Sound, Tidy, Grown, Contains, Dangling, LoopsGrow, Sim, Has, Linked, Going, LoopAims, DeclsCode, CondCode,
         AfterAllCode, Built, ForStarted;
    ForTail(a, w, x, y, z, u, f, t, s);
    ForGrown(a, w, x, y, z, u, f, t, s);
    if !f.errors {
      assert [] + Emits(Destroys(Declared(s.decls))) == Emits(Destroys(Declared(s.decls)));
      ForSim(a, w, x, u, f, t, s);
    }
  }

  lemma GoFrames(a: State, s: State, t: bool, pending: set<BlockId>, frames: Frames)
    requires Going(a, s, t, pending) && frames != [] && (forall k :: 0 <= k < |s.loops| ==> s.loops[k].size <= |frames|)
    ensures Going(a, s.(frames := frames), t, pending)
  {
    forall k | 0 <= k < |s.loops| ensures FrameSound(s.loops[k], s.next, |frames|) {
      assert FrameSound(s.loops[k], s.next, |s.frames|);
    }
  }

  lemma ForTailGoes(a: State, y: State, z: State, u: State, f: State, s: Stmt)
    requires s.CStyleFor? && Sound(a) && Going(a, y, true, ForSet(a)) && a.next + 2 !in y.code && a.next + 3 !in y.code
    requires y.next >= a.next + 4
    requires z == Appended(Inserted(y, a.next + 2), AfterAllCode(s.step) + [Br(a.next)]) && u == Inserted(z, a.next + 3)
    requires f == Appended(u, Emits(Destroys(Declared(s.decls)))).(frames := a.frames)
    ensures Going(a, f.(frames := u.frames), false, ForSet(a)) && Contains(y.code, f.code) && Sound(u)
    ensures f.loops == u.loops == y.loops
    ensures Has(f.code, a.next + 2, 0, AfterAllCode(s.step) + [Br(a.next)])
    ensures a.next + 2 in f.code && a.next + 3 in f.code
  {
    hide Sound, Tidy, Grown, Contains, Dangling, LoopsGrow, Sim, Has, Linked, Going, LoopAims, AfterAllCode;
    var l, all, cs, ds := ForBlocks(a), ForSet(a), AfterAllCode(s.step), Emits(Destroys(Declared(s.decls)));
    GoInsert(a, y, all, l.cont);
    var v := Inserted(y, l.cont);
    StraightOpen(cs);
    GoBranch(a, v, all, cs, Br(l.test));
    assert all + {l.test} == all;
    GoInsert(a, z, all, l.exit);
    GoReady(a, u, all);
    GoAppend(a, u, all, ds);
    ContainsSelf(y.code);
    KeepInsert(y.code, y, l.cont);
    KeepAppend(y.code, v, cs + [Br(l.test)]);
    KeepInsert(y.code, z, l.exit);
    KeepAppend(y.code, u, ds);
    ContainsSelf(z.code);
    KeepInsert(z.code, z, l.exit);
    KeepAppend(z.code, u, ds);
    HasPart(z.code, f.code, l.cont, 0, cs + [Br(l.test)]);
  }

  lemma ForSim(a: State, w: State, x: State, u: State, f: State, t: bool, s: Stmt)
    requires Ready(a) && ForStarted(a, w, s) && Built(a, f, false, []) && Built(w, x, t, [])
    requires Sim(w, x, t, Nested(s.body)) && !f.errors && !w.errors
    requires Contains(x.code, f.code) && Contains(w.code, f.code) && Sound(u)
    requires f.at == u.at == a.next + 3 && u.code[u.at] == [] && f.code[f.at] == Emits(Destroys(Declared(s.decls)))
    requires u.loops == f.loops
    requires x.loops != [] && f.loops == x.loops[..|x.loops| - 1]
    requires Same(LoopAt(s.name, a.next + 3, a.next + 2, |a.frames| + 1), x.loops[|x.loops| - 1])
    requires Has(f.code, a.next + 2, 0, AfterAllCode(s.step) + [Br(a.next)])
    requires !t ==> Has(f.code, x.at, x.Here(), [Br(a.next + 2)])
    ensures Sim(a, f, false, One(s))
  {
    hide Sound, Tidy, Grown, Contains, Dangling, Sim, Has, Linked, Going, LoopAims, DeclsCode, CondCode, AfterAllCode;
    var l := ForBlocks(a);
    SoundFacts(a); SoundFacts(w); SoundFacts(f);
    HasPart(w.code, f.code, a.at, a.Here(), DeclsCode(s.decls) + [Br(l.test)]);
    HasPart(w.code, f.code, l.test, 0, ForTest(s, l));
    ExtendNone(a.frames);
    NamedGrow(a.loops, f.loops, s.name);
    SizesKept(a, f);
    ForRule(a, w, x, u, f, t, l, s);
  }

  // ----- labelled blocks -----

  lemma LabelledStart(a: State, p: State, name: Label)
    requires Ready(a) && p == WithLoop(a.(next := a.next + 1), a.next, None, Some(name))
    ensures Ready(p) && Going(a, p, false, {})
    ensures p.loops == a.loops + [LoopFrame(Some(name), a.next, None, |a.frames|, 0, 0)]
    ensures a.next !in p.code && p.frames == a.frames && p.at == a.at && p.code == a.code && p.next == a.next + 1
    ensures FirstNamed(a.loops, Some(name)).Some? ==> p.errors
  {
    hide Tidy, Grown, Contains, Dangling, LoopsGrow, Sim, Has, Linked, Going, LoopAims;
    GoStart(a);
    GoCreate(a, a, false, {});
    GoWithLoop(a, a.(next := a.next + 1), false, {}, a.next, None, Some(name));
    GoReady(a, p, {});
  }

  lemma LabelledBuilt(a: State, p: State, q: State, y: State, f: State, t: bool, terminal: bool, name: Label,
                      body: Block)
    requires Ready(a) && p == WithLoop(a.(next := a.next + 1), a.next, None, Some(name)) && p.at in p.code
    requires p.frames != []
    requires Built(p, q, t, []) && (!q.errors ==> Sim(p, q, t, Nested(body))) && q.loops != [] && q.at in q.code
    requires y == Joined(q.(loops := q.loops[..|q.loops| - 1]), t, a.next)
    requires terminal == (t && q.loops[|q.loops| - 1].breaks == 0)
    requires f == if terminal then y else Inserted(y, a.next)
    ensures Built(a, f, terminal, [])
    ensures !f.errors ==> Sim(a, f, terminal, One(Scope(Some(name), body)))
  {
    hide Sound, Tidy, Grown, Contains, Dangling, LoopsGrow, Sim, Has, Linked, Going, LoopAims;
    LabelledStart(a, p, name);
    ReadyFacts(a);
    var e, fr := a.next, LoopFrame(Some(name), a.next, None, |a.frames|, 0, 0);
    BuiltLoops(p, q, t, []);
    GoBuilt(a, p, q, {}, t, []);
    LoopsGrowPop(a.loops, fr, q.loops);
    NotInserted(p, q, t, [], e);
    var q' := q.(loops := q.loops[..|q.loops| - 1]);
    GoPopLoop(a, q, t, {});
    GoWider(a, q', t, {} + FrameAims(q.loops[|q.loops| - 1]), {e});
    GoJoined(a, q', t, {e}, e);
    assert {e} + {e} == {e};
    ExtendNone(a.frames);
    ContainsSelf(y.code);
    if terminal {
      GoWider(a, q', t, {} + FrameAims(q.loops[|q.loops| - 1]), {});
      GoFinish(a, f, true, {}, []);
    } else {
      GoInsert(a, y, {e}, e);
      KeepInsert(y.code, y, e);
      GoFinish(a, f, false, {e}, []);
    }
    ContainsTrans(q.code, y.code, f.code);
    if !f.errors {
      if !t { HasPart(y.code, f.code, q.at, q.Here(), [Br(e)]); }
      LabelledSim(a, p, q, f, t, terminal, name, body);
    }
  }

  lemma LabelledSim(a: State, p: State, q: State, f: State, t: bool, terminal: bool, name: Label, body: Block)
    requires Ready(a) && Ready(p) && p.at == a.at && p.code == a.code && p.frames == a.frames && !p.errors && !f.errors
    requires FirstNamed(a.loops, Some(name)).Some? ==> p.errors
    requires Built(a, f, terminal, []) && Built(p, q, t, []) && Sim(p, q, t, Nested(body)) && Contains(q.code, f.code)
    requires q.loops != [] && f.loops == q.loops[..|q.loops| - 1]
    requires terminal == (t && q.loops[|q.loops| - 1].breaks == 0)
    requires Same(LoopFrame(Some(name), a.next, None, |a.frames|, 0, 0), q.loops[|q.loops| - 1])
    requires !t ==> Has(f.code, q.at, q.Here(), [Br(a.next)])
    requires !terminal ==> f.at == a.next && f.code[f.at] == []
    ensures Sim(a, f, terminal, One(Scope(Some(name), body)))
  {
    hide Tidy, Grown, Contains, Dangling, Sim, Has, Linked, Going, LoopAims;
    NamedGrow(a.loops, f.loops, Some(name));
    LabelledBlockRule(a, p, q, f, t, terminal, a.next, name, body);
  }

  // ----- with -----

  lemma WithBuilt(a: State, p: State, q: State, f: State, t: bool, s: Stmt)
    requires Ready(a) && s.With?
    requires p == Appended(a, EnterCode(s.e) + Emits(Opened(s))).(frames := a.frames + [Held(s)])
    requires Ready(p) ==> Built(p, q, t, DeclaredIn(s.body)) && (!q.errors ==> Sim(p, q, t, List(s.body))) && q.at in q.code
    requires Ready(p)
    requires f == (if t then q else Appended(q, Emits(Destroys(Held(s) + DeclaredIn(s.body))))).(frames := a.frames)
    ensures Built(a, f, t, [])
    ensures !f.errors ==> Sim(a, f, t, One(s))
  {
    hide Held, Opened, Tidy, Grown, Contains, Dangling, LoopsGrow, Sim, Has, Linked, Going, LoopAims;
    var cs, vs := EnterCode(s.e) + Emits(Opened(s)), Held(s);
    var ds := Emits(Destroys(vs + DeclaredIn(s.body)));
    GoStart(a);
    GoAppend(a, a, {}, cs);
    GoPushFrame(a, Appended(a, cs), false, {}, vs);
    GoBuilt(a, p, q, {}, t, DeclaredIn(s.body));
    BuiltLoops(p, q, t, DeclaredIn(s.body));
    ContainsSelf(p.code); ContainsSelf(q.code);
    KeepBuilt(p.code, p, q, t, DeclaredIn(s.body));
    if !t {
      GoAppend(a, q, {}, ds);
      KeepAppend(p.code, q, ds);
      KeepAppend(q.code, q, ds);
    }
    SizesKept(a, q);
    GoFrames(a, f.(frames := q.frames), t, {}, a.frames);
    ExtendNone(a.frames);
    GoFinish(a, f, t, {}, []);
    if !f.errors { WithRule(a, p, q, f, t, s); }
  }

  lemma WithStart(a: State, p: State, cs: Code, vs: seq<Var>)
    requires Ready(a) && Straight(cs) && p == Appended(a, cs).(frames := a.frames + [vs])
    ensures Ready(p) && p.at in p.code && Going(a, p, false, {})
  {
    hide Tidy, Grown, Contains, Dangling, LoopsGrow, Sim, Has, Linked, Going, LoopAims;
    GoStart(a);
    GoAppend(a, a, {}, cs);
    GoPushFrame(a, Appended(a, cs), false, {}, vs);
    GoReady(a, p, {});
  }

  // ----- tuple-for -----

  function PassFrame(name: Option<Label>, finish: BlockId, next: BlockId, depth: nat): LoopFrame {
    LoopFrame(name, finish, Some(next), depth, 0, 0)
  }

  /** A pass up to its body; the frame of the element variable belongs to the loop. */
  function WithPass(a: State, vs: seq<Var>, finish: BlockId, next: BlockId, name: Option<Label>): State
    requires a.at in a.code
  {
    WithLoop(Appended(a, Emits(Inits(vs))), finish, Some(next), name).(frames := a.frames + [vs])
  }

  /** The state in which a pass starts: the block after the whole loop has been created, and is missing if it was broken out of. */
  ghost predicate AtPass(base: State, a: State, broken: bool, finish: BlockId) {
    && Going(base, a, false, if broken then {finish} else {})
    && base.next <= finish < a.next && finish !in a.code
  }

  lemma AtPassReady(base: State, a: State, broken: bool, finish: BlockId)
    requires AtPass(base, a, broken, finish)
    ensures Ready(a) && Sound(a) && a.at in a.code && a.frames != []
  {
    GoReady(base, a, if broken then {finish} else {});
  }

  ghost predicate PassStarted(base: State, a: State, p: State, broken: bool, vs: seq<Var>, finish: BlockId,
                              next: BlockId, name: Option<Label>) {
    && Going(base, p, false, if broken then {finish} else {}) && Ready(p)
    && a.at in a.code && p.at == a.at && p.frames == a.frames + [vs] && p.Here() == a.Here() + |vs|
    && p.loops == a.loops + [PassFrame(name, finish, next, |a.frames|)]
    && finish !in p.code && next !in p.code && finish < p.next && next < p.next && base.next <= next
    && Contains(a.code, p.code) && Has(p.code, a.at, a.Here(), Emits(Inits(vs)))
    && (name.Some? && FirstNamed(a.loops, name).Some? ==> p.errors) && (a.errors ==> p.errors)
  }

  lemma PassStartedReady(base: State, a: State, p: State, broken: bool, vs: seq<Var>, finish: BlockId, next: BlockId,
                         name: Option<Label>)
    requires PassStarted(base, a, p, broken, vs, finish, next, name)
    ensures Ready(p) && p.at in p.code && p.frames == a.frames + [vs] && p.loops != []
  {
  }

  lemma PassStart(base: State, a: State, a': State, p: State, broken: bool, vs: seq<Var>, finish: BlockId,
                  next: BlockId, name: Option<Label>)
    requires AtPass(base, a, broken, finish)
    requires if next == finish then a' == a else next == a.next && a' == a.(next := a.next + 1)
    requires a'.at in a'.code && p == WithPass(a', vs, finish, next, name)
    ensures PassStarted(base, a, p, broken, vs, finish, next, name)
  {
    hide Tidy, Grown, Contains, Dangling, LoopsGrow, Sim, Has, Linked, LoopAims;
    var pending := if broken then {finish} else {};
    GoReady(base, a, pending);
    NotMentioned(a, a.next);
    if next != finish { GoCreate(base, a, false, pending); }
    var b := Appended(a', Emits(Inits(vs)));
    AppendStraight(a', Emits(Inits(vs)));
    GoAppend(base, a', pending, Emits(Inits(vs)));
    GoWithLoop(base, b, false, pending, finish, Some(next), name);
    GoPushFrame(base, WithLoop(b, finish, Some(next), name), false, pending, vs);
    GoReady(base, p, pending);
    ContainsSelf(a.code);
    KeepAppend(a.code, a', Emits(Inits(vs)));
  }

  /** The code that falls out of the body of a pass. */
  function PassTail(vs: seq<Var>, body: Block, next: BlockId): Code {
    Emits(Destroys(vs + DeclaredIn(body))) + [Br(next)]
  }

  ghost function PassEnded(q: State, t: bool, vs: seq<Var>, body: Block, next: BlockId, frames: Frames): State
    requires q.at in q.code && q.loops != []
  {
    var y := if t then q else Appended(q, PassTail(vs, body, next));
    y.(loops := q.loops[..|q.loops| - 1], frames := frames)
  }

  /** After the body of a pass: jumps to the next block and to the end are accounted for. */
  lemma PassEnds(base: State, a: State, p: State, q: State, y: State, broken: bool, t: bool, vs: seq<Var>, body: Block,
                 finish: BlockId, next: BlockId, name: Option<Label>)
    requires Sound(a) && PassStarted(base, a, p, broken, vs, finish, next, name) && p.frames != []
    requires Built(p, q, t, DeclaredIn(body))
    requires q.loops != [] && q.at in q.code && y == PassEnded(q, t, vs, body, next, a.frames)
    ensures var fr := q.loops[|q.loops| - 1];
            && Same(PassFrame(name, finish, next, |a.frames|), fr)
            && Going(base, y, true, (if broken || fr.breaks > 0 then {finish} else {}) + (if GoesOn(q, t) then {next} else {}))
    ensures LoopsGrow(a.loops, y.loops) && Contains(q.code, y.code) && Contains(p.code, y.code)
    ensures Contains(a.code, y.code)
    ensures finish !in y.code && next !in y.code && y.next >= p.next && q.frames == a.frames + [vs + DeclaredIn(body)]
    ensures forall k :: 0 <= k < |q.loops| ==> q.loops[k].size <= |a.frames|
    ensures !t ==> Has(y.code, q.at, q.Here(), PassTail(vs, body, next))
  {
    hide Ready, Built, Sound, Tidy, Grown, Contains, Dangling, LoopsGrow, Sim, Has, Linked, Going, LoopAims;
    var D, pending := DeclaredIn(body), if broken then {finish} else {};
    var f := PassFrame(name, finish, next, |a.frames|);
    SoundFacts(a);
    BuiltLoops(p, q, t, D);
    ExtendScope(a.frames, vs, D);
    GoBuilt(base, p, q, pending, t, D);
    LoopsGrowPop(a.loops, f, q.loops);
    NotInserted(p, q, t, D, finish);
    NotInserted(p, q, t, D, next);
    ContainsSelf(q.code); ContainsSelf(p.code);
    KeepBuilt(p.code, p, q, t, D);
    PassSizes(a, q);
    var fr := q.loops[|q.loops| - 1];
    var z := if t then q else Appended(q, PassTail(vs, body, next));
    if !t {
      var ds := Emits(Destroys(vs + D));
      StraightOpen(ds);
      GoBranch(base, q, pending, ds, Br(next));
      KeepAppend(q.code, q, PassTail(vs, body, next));
      KeepAppend(p.code, q, PassTail(vs, body, next));
      GoPopLoop(base, z, true, pending + {next});
    } else {
      GoPopLoop(base, z, true, pending);
    }
    var z' := z.(loops := z.loops[..|z.loops| - 1]);
    GoFrames(base, z', true, (if t then pending else pending + {next}) + FrameAims(fr), a.frames);
    GoWider(base, y, true, (if t then pending else pending + {next}) + FrameAims(fr),
            (if broken || fr.breaks > 0 then {finish} else {}) + (if GoesOn(q, t) then {next} else {}));
    ContainsTrans(a.code, p.code, y.code);
  }

  lemma PassSizes(a: State, q: State)
    requires Sound(a) && q.loops != [] && LoopsGrow(a.loops, q.loops[..|q.loops| - 1])
    requires q.loops[|q.loops| - 1].size == |a.frames|
    ensures forall k :: 0 <= k < |q.loops| ==> q.loops[k].size <= |a.frames|
  {
    forall k | 0 <= k < |q.loops| ensures q.loops[k].size <= |a.frames| {
      if k < |q.loops| - 1 { assert FrameSound(a.loops[k], a.next, |a.frames|) && Same(a.loops[k], q.loops[..|q.loops| - 1][k]); }
    }
  }

  /** How the passes from state a on end in state f. */
  ghost predicate PassesBuilt(base: State, a: State, f: State, terminal: bool, broken: bool, finish: BlockId) {
    && Going(base, f, terminal, if terminal then {} else {finish}) && f.at in f.code
    && f.frames == a.frames && LoopsGrow(a.loops, f.loops) && Contains(a.code, f.code)
    && (broken ==> !terminal) && (!terminal ==> f.at == finish && f.code[finish] == []) && (a.errors ==> f.errors)
  }

  ghost function PassesOut(f: State, terminal: bool, finish: BlockId, frames: Frames): Out {
    Out(terminal, finish, 0, f.loops, frames)
  }

  /** The last pass, or one that control cannot get past. */
  lemma LastPass(base: State, a: State, p: State, q: State, y: State, f: State, broken: bool, t: bool, terminal: bool,
                 name: Option<Label>, elements: seq<Option<Var>>, body: Block, finish: BlockId, next: BlockId)
    requires AtPass(base, a, broken, finish) && elements != [] && a.frames != []
    requires PassStarted(base, a, p, broken, Bound(elements[0]), finish, next, name) && Built(p, q, t, DeclaredIn(body))
    requires !q.errors ==> Sim(p, q, t, List(body))
    requires q.loops != [] && q.at in q.code && y == PassEnded(q, t, Bound(elements[0]), body, next, a.frames)
    requires GoesOn(q, t) ==> |elements| == 1 && next == finish
    requires terminal == (!GoesOn(q, t) && !broken && q.loops[|q.loops| - 1].breaks == 0)
    requires f == if terminal then y else Inserted(y, finish)
    ensures PassesBuilt(base, a, f, terminal, broken, finish)
    ensures !f.errors ==> PassesSim(a, f.code, PassesOut(f, terminal, finish, a.frames), name, elements, body)
  {
    hide Sound, Tidy, Grown, Contains, Dangling, LoopsGrow, Sim, Has, Linked, Going, LoopAims, PassesSim;
    var vs, fr := Bound(elements[0]), q.loops[|q.loops| - 1];
    AtPassReady(base, a, broken, finish);
    PassEnds(base, a, p, q, y, broken, t, vs, body, finish, next, name);
    BuiltLoops(p, q, t, DeclaredIn(body));
    var pending := (if broken || fr.breaks > 0 then {finish} else {}) + (if GoesOn(q, t) then {next} else {});
    GoWider(base, y, true, pending, if terminal then {} else {finish});
    ContainsSelf(y.code);
    if !terminal {
      GoInsert(base, y, {finish}, finish);
      KeepInsert(y.code, y, finish);
    }
    ContainsTrans(a.code, y.code, f.code);
    SoundOf(base, f, terminal, if terminal then {} else {finish});
    LoopsSelf(f.loops);
    if !f.errors {
      PassSim(base, a, p, q, y, a, f, broken, t, terminal, name, elements, body, finish, next);
    }
  }

  lemma SoundOf(a: State, s: State, t: bool, pending: set<BlockId>)
    requires Going(a, s, t, pending)
    ensures Sound(s) && s.at in s.code
  {
  }

  lemma PassSim(base: State, a: State, p: State, q: State, y: State, p': State, f: State, broken: bool, t: bool, terminal: bool,
                name: Option<Label>, elements: seq<Option<Var>>, body: Block, finish: BlockId, next: BlockId)
    requires Sound(a) && elements != [] && PassStarted(base, a, p, broken, Bound(elements[0]), finish, next, name)
    requires !p.errors && Built(p, q, t, DeclaredIn(body)) && Sim(p, q, t, List(body)) && q.loops != []
    requires q.at in q.code
    requires y == PassEnded(q, t, Bound(elements[0]), body, next, a.frames) && Contains(y.code, f.code) && Sound(f)
    requires Contains(q.code, y.code) && Contains(p.code, y.code) && LoopsGrow(a.loops, y.loops)
    requires LoopsGrow(y.loops, f.loops)
    requires Same(PassFrame(name, finish, next, |a.frames|), q.loops[|q.loops| - 1])
    requires forall k :: 0 <= k < |q.loops| ==> q.loops[k].size <= |a.frames|
    requires !t ==> Has(y.code, q.at, q.Here(), PassTail(Bound(elements[0]), body, next))
    requires q.loops[|q.loops| - 1].breaks > 0 ==> !terminal
    requires GoesOn(q, t) ==> RestSim(p', f.code, PassesOut(f, terminal, finish, a.frames), name, elements[1..], body, next, finish)
    ensures PassesSim(a, f.code, PassesOut(f, terminal, finish, a.frames), name, elements, body)
  {
    hide Sound, Tidy, Grown, Contains, Dangling, Sim, Has, Linked, Going, LoopAims, PassesSim;
    var vs, out := Bound(elements[0]), PassesOut(f, terminal, finish, a.frames);
    SoundFacts(a); SoundFacts(p);
    BuiltLoops(p, q, t, DeclaredIn(body));
    HasPart(p.code, y.code, a.at, a.Here(), Emits(Inits(vs)));
    HasPart(y.code, f.code, a.at, a.Here(), Emits(Inits(vs)));
    if !t { HasPart(y.code, f.code, q.at, q.Here(), PassTail(vs, body, next)); }
    ContainsTrans(q.code, y.code, f.code);
    NamedGrow(a.loops, y.loops, name);
    PassRule(a, p, q, p', f, t, out, name, elements, body, next, finish);
  }

  /** A pass followed by others. */
  lemma MorePasses(base: State, a: State, p: State, q: State, y: State, p': State, f: State, broken: bool, t: bool, terminal: bool,
                   name: Option<Label>, elements: seq<Option<Var>>, body: Block, finish: BlockId, next: BlockId)
    requires AtPass(base, a, broken, finish) && |elements| > 1 && a.frames != [] && next != finish
    requires PassStarted(base, a, p, broken, Bound(elements[0]), finish, next, name) && Built(p, q, t, DeclaredIn(body))
    requires !q.errors ==> Sim(p, q, t, List(body))
    requires q.loops != [] && q.at in q.code && y == PassEnded(q, t, Bound(elements[0]), body, next, a.frames)
    requires GoesOn(q, t)
    requires p' == Inserted(y, next)
    requires PassesBuilt(base, p', f, terminal, broken || q.loops[|q.loops| - 1].breaks > 0, finish)
    requires !f.errors ==> PassesSim(p', f.code, PassesOut(f, terminal, finish, a.frames), name, elements[1..], body)
    ensures PassesBuilt(base, a, f, terminal, broken, finish)
    ensures !f.errors ==> PassesSim(a, f.code, PassesOut(f, terminal, finish, a.frames), name, elements, body)
  {
    hide Sound, Tidy, Grown, Contains, Dangling, LoopsGrow, Sim, Has, Linked, Going, LoopAims, PassesSim;
    var vs := Bound(elements[0]);
    AtPassReady(base, a, broken, finish);
    PassEnds(base, a, p, q, y, broken, t, vs, body, finish, next, name);
    BuiltLoops(p, q, t, DeclaredIn(body));
    ContainsSelf(y.code);
    KeepInsert(y.code, y, next);
    ContainsTrans(y.code, p'.code, f.code);
    ContainsTrans(a.code, y.code, f.code);
    LoopsGrowTrans(a.loops, y.loops, f.loops);
    SoundOf(base, f, terminal, if terminal then {} else {finish});
    if !f.errors {
      PassSim(base, a, p, q, y, p', f, broken, t, terminal, name, elements, body, finish, next);
    }
  }

  /** A pass that goes on enters the next one. */
  lemma NextPass(base: State, a: State, p: State, q: State, y: State, broken: bool, t: bool, vs: seq<Var>, body: Block,
                 finish: BlockId, next: BlockId, name: Option<Label>)
    requires Sound(a) && PassStarted(base, a, p, broken, vs, finish, next, name) && p.frames != []
    requires Built(p, q, t, DeclaredIn(body))
    requires q.loops != [] && q.at in q.code && y == PassEnded(q, t, vs, body, next, a.frames) && GoesOn(q, t)
    requires next != finish && base.next <= finish
    ensures AtPass(base, Inserted(y, next), broken || q.loops[|q.loops| - 1].breaks > 0, finish)
  {
    hide Sound, Tidy, Grown, Contains, Dangling, LoopsGrow, Sim, Has, Linked, Going, LoopAims;
    var fr := q.loops[|q.loops| - 1];
    PassEnds(base, a, p, q, y, broken, t, vs, body, finish, next, name);
    var pending := if broken || fr.breaks > 0 then {finish} else {};
    GoInsert(base, y, pending + {next}, next);
    GoAbsorb(base, Inserted(y, next), false, pending + {next}, pending);
  }

  lemma TupleForBuilt(a: State, p: State, x: State, f: State, t: bool, finish: BlockId, s: Stmt)
    requires Ready(a) && s.TupleFor? && a.frames != [] && a.at in a.code
    requires p == Appended(a, EnterCode(s.e)).(frames := a.frames + [s.e.temps])
    requires x.at in x.code && LoopsGrow(a.loops, x.loops) && x.frames == p.frames && Contains(p.code, x.code)
    requires Going(a, x, t, if t then {} else {finish}) && (!t ==> finish in x.code || Going(a, x, t, {}))
    requires !x.errors ==> PassesSim(p, x.code, OutOf(p, x, t), s.name, s.elements, s.body)
    requires f == (if t then x else Appended(x, Emits(Destroys(s.e.temps)))).(frames := a.frames)
    ensures Built(a, f, t, [])
    ensures !f.errors ==> Sim(a, f, t, One(s))
  {
    hide Sound, Tidy, Grown, Contains, Dangling, LoopsGrow, Sim, Has, Linked, Going, LoopAims, PassesSim;
    var ds := Emits(Destroys(s.e.temps));
    ReadyFacts(a);
    if !t && finish in x.code { GoAbsorb(a, x, t, {finish}, {}); }
    ContainsSelf(x.code);
    if !t {
      GoAppend(a, x, {}, ds);
      KeepAppend(x.code, x, ds);
    }
    ContainsTrans(p.code, x.code, f.code);
    SizesKept(a, x);
    GoFrames(a, f.(frames := x.frames), t, {}, a.frames);
    ExtendNone(a.frames);
    GoFinish(a, f, t, {}, []);
    if !f.errors { TupleForSim(a, p, x, f, t, s); }
  }

  lemma TupleForSim(a: State, p: State, x: State, f: State, t: bool, s: Stmt)
    requires Ready(a) && s.TupleFor? && p == Appended(a, EnterCode(s.e)).(frames := a.frames + [s.e.temps])
    requires Built(a, f, t, []) && Contains(p.code, f.code) && Contains(x.code, f.code) && x.at in x.code
    requires x.frames == p.frames
    requires x == f.(code := x.code, frames := x.frames)
    requires (!t ==> f.code[f.at] == x.code[x.at] + Emits(Destroys(s.e.temps)))
    requires PassesSim(p, x.code, OutOf(p, x, t), s.name, s.elements, s.body)
    requires exists pending :: Going(a, x, t, pending)
    ensures Sim(a, f, t, One(s))
  {
    hide Tidy, Grown, Contains, Dangling, Sim, Has, Linked, LoopAims, PassesSim;
    WithStart(a, p, EnterCode(s.e), s.e.temps);
    SizesKept(a, f);
    TupleForRule(a, p, x, f, t, s);
  }

  // ----- small facts for the builder -----

  lemma ErrorBuilt(a: State, t: bool)
    requires Ready(a)
    ensures Built(a, a.(errors := true), t, [])
  {
    ExtendNone(a.frames);
    LoopsSelf(a.loops);
  }

  lemma LoopDepth(a: State, k: nat)
    requires Sound(a) && k < |a.loops|
    ensures a.loops[k].size <= |a.frames|
  {
    assert FrameSound(a.loops[k], a.next, |a.frames|);
  }

  lemma ReturnCodeIs(a: State, result: Option<Expr>)
    ensures ReturnCode(result, a.frames) ==
            if result.None? then Emits(DestroyDown(a.frames, 0))
            else EnterCode(result.value) + Emits(DestroyDown(a.frames + [result.value.temps], 0))
  {
    if result.Some? {
      DestroyDownAppends(a.frames, result.value.temps);
    }
  }

  lemma WithFrames(a: State, b: State, c: State, d: State, p: State, s: Stmt)
    requires s.With? && a.at in a.code && b == Appended(a, EnterCode(s.e)).(frames := a.frames + [s.e.temps])
    requires c == Appended(b, Emits(Inits(Bound(s.bound))))
    requires d == Appended(c, Emits(Drops(GoneAll(s.e.temps, s.unused)))).(frames := a.frames + [KeepAll(s.e.temps, s.unused)])
    requires p == d.(frames := Extend(d.frames, Bound(s.bound)))
    ensures p == Appended(a, EnterCode(s.e) + Emits(Opened(s))).(frames := a.frames + [Held(s)])
  {
    var bound, gone := Inits(Bound(s.bound)), Drops(GoneAll(s.e.temps, s.unused));
    AppendTwice(a, EnterCode(s.e), Emits(bound));
    AppendTwice(a, EnterCode(s.e) + Emits(bound), Emits(gone));
    EmitsAppend(bound, gone);
    assert EnterCode(s.e) + Emits(bound) + Emits(gone) == EnterCode(s.e) + Emits(Opened(s));
    ExtendScope(a.frames, KeepAll(s.e.temps, s.unused), Bound(s.bound));
  }

  lemma FrameSplit(fs: Frames, vs: seq<Var>)
    ensures var f := fs + [vs]; f != [] && f[..|f| - 1] == fs && f[|f| - 1] == vs
  {
  }

  lemma KeepNext(vs: seq<Var>, i: nat, dead: set<Var>)
    requires i < |vs|
    ensures Keep(vs[i..], dead) == (if vs[i] in dead then [] else [vs[i]]) + Keep(vs[i + 1..], dead)
    ensures Gone(vs[i..], dead) == (if vs[i] in dead then [vs[i]] else []) + Gone(vs[i + 1..], dead)
  {
    assert vs[i..][1..] == vs[i + 1..];
  }

  lemma KeepEnd(vs: seq<Var>, dead: set<Var>)
    ensures Keep(vs[|vs|..], dead) == [] == Gone(vs[|vs|..], dead)
  {
  }

  lemma DropNext(a: State, gone: seq<Var>, v: Var)
    requires a.at in a.code
    ensures var b := Appended(a, Emits(Drops(gone)));
            b.at in b.code && Appended(b, Emits([Destroy(v)])) == Appended(a, Emits(Drops(gone + [v])))
  {
    hide Emits;
    AppendTwice(a, Emits(Drops(gone)), Emits([Destroy(v)]));
    EmitsAppend(Drops(gone), [Destroy(v)]);
    DropsAppend(gone, [v]);
  }

  lemma OpenedStraight(s: Stmt)
    requires s.With?
    ensures Straight(EnterCode(s.e) + Emits(Opened(s)))
  {
  }

  lemma ReturnFrames(a: State, b: State, f: State, e: Expr)
    requires a.at in a.code && b == Appended(a, EnterCode(e)).(frames := a.frames + [e.temps])
    requires f == Appended(b, Emits(DestroyDown(b.frames, 0))).(frames := b.frames[..|b.frames| - 1])
    ensures f == Appended(a, EnterCode(e) + Emits(DestroyDown(a.frames + [e.temps], 0)))
  {
    AppendTwice(a, EnterCode(e), Emits(DestroyDown(b.frames, 0)));
    assert b.frames[..|b.frames| - 1] == a.frames;
  }

  lemma ForPrologue(a: State, b: State, s0: State, s: Stmt)
    requires s.CStyleFor? && a.at in a.code && b == a.(frames := a.frames + [[]])
    requires s0 == Appended(Appended(b, DeclsCode(s.decls)).(frames := a.frames + [Declared(s.decls)], next := a.next + 4), [Br(a.next)])
    ensures s0 == Appended(a, DeclsCode(s.decls) + [Br(a.next)]).(frames := a.frames + [Declared(s.decls)], next := a.next + 4)
  {
    AppendTwice(a, DeclsCode(s.decls), [Br(a.next)]);
  }

  lemma PassPrologue(a: State, p: State, vs: seq<Var>, finish: BlockId, next: BlockId, name: Option<Label>)
    requires a.at in a.code
    requires var b := WithLoop(Appended(a.(frames := a.frames + [[]]), Emits(Inits(vs))).(frames := a.frames + [vs]),
                               finish, Some(next), name);
             p == b.(loops := b.loops[|b.loops| - 1 := b.loops[|b.loops| - 1].(size := |b.frames| - 1)])
    ensures p == WithPass(a, vs, finish, next, name)
  {
    var b := WithLoop(Appended(a.(frames := a.frames + [[]]), Emits(Inits(vs))).(frames := a.frames + [vs]), finish,
                      Some(next), name);
    assert p.loops == a.loops + [PassFrame(name, finish, next, |a.frames|)];
  }

  lemma AtPassFinish(base: State, a: State, broken: bool, finish: BlockId)
    requires AtPass(base, a, broken, finish)
    ensures base.next <= finish < a.next
  {
  }

  lemma FirstPass(a: State, p: State, p': State)
    requires Going(a, p, false, {}) && p'  == p.(next := p.next + 1)
    ensures AtPass(a, p', false, p.next)
  {
    GoCreate(a, p, false, {});
    NotMentioned(p, p.next);
  }

  lemma NoPasses(a: State, p: State, s: Stmt)
    requires s.TupleFor? && s.elements == [] && Going(a, p, false, {}) && p.loops == a.loops
    ensures p.at in p.code && p.frames != [] && LoopsGrow(a.loops, p.loops) && Contains(p.code, p.code)
    ensures Going(a, p, false, {p.next})
    ensures PassesSim(p, p.code, OutOf(p, p, false), s.name, s.elements, s.body)
  {
    LoopsSelf(p.loops);
    NoPassesRule(p, s.name, s.body);
  }

  lemma AllPasses(a: State, p: State, p': State, x: State, t: bool, s: Stmt)
    requires s.TupleFor? && Going(a, p, false, {}) && p.loops == a.loops && p' == p.(next := p.next + 1)
    requires p.frames != []
    requires PassesBuilt(a, p', x, t, false, p.next) && p'.at in p'.code
    requires !x.errors ==> PassesSim(p', x.code, PassesOut(x, t, p.next, p'.frames), s.name, s.elements, s.body)
    ensures x.at in x.code && LoopsGrow(a.loops, x.loops) && x.frames == p.frames && Contains(p.code, x.code)
    ensures Going(a, x, t, if t then {} else {p.next}) && (!t ==> p.next in x.code)
    ensures p.at in p.code && (!x.errors ==> PassesSim(p, x.code, OutOf(p, x, t), s.name, s.elements, s.body))
  {
    hide Tidy, Grown, Contains, Dangling, LoopsGrow, Sim, Has, Linked, LoopAims, PassesSim;
    if !x.errors {
      ContainsSelf(x.code);
      LoopsSelf(x.loops);
      PassesPart(p', x.code, x.code, PassesOut(x, t, p.next, p'.frames), OutOf(p, x, t), s.name, s.elements, s.body);
      PassesFrom(p, p', x.code, OutOf(p, x, t), s.name, s.elements, s.body);
    }
  }

  lemma PassesFrom(p: State, p': State, code: Cfg, out: Out, name: Option<Label>, elements: seq<Option<Var>>,
                   body: Block)
    requires p.at == p'.at && p.code == p'.code && p.at in p.code && out.frames != []
    requires PassesSim(p', code, out, name, elements, body)
    ensures PassesSim(p, code, out, name, elements, body)
  {
    forall g, rho, env, m: Regs, fuel: nat | Linked(code, g, rho)
      ensures Matches(g, rho, env, Start(p, rho, m), ForEach(env, name, elements, body, m.tr, fuel), fuel, out)
    {
      assert Start(p, rho, m) == Start(p', rho, m);
    }
  }

  lemma {:induction false} FirstNamedAt(l: seq<LoopFrame>, t: Option<Label>, i: nat)
    requires i <= |l| && (forall j :: 0 <= j < i ==> l[j].name != t) && (i < |l| ==> l[i].name == t)
    ensures FirstNamed(l, t) == if i < |l| then Some(i) else None
  {
    if i > 0 { FirstNamedAt(l[1..], t, i - 1); }
  }

  lemma {:induction false} LastLoopAt(l: seq<LoopFrame>, i: int)
    requires -1 <= i < |l| && (forall j :: i < j < |l| ==> l[j].cont.None?) && (i >= 0 ==> l[i].cont.Some?)
    ensures LastLoop(l) == if i >= 0 then Some(i) else None
    decreases |l|
  {
    if i < |l| - 1 { LastLoopAt(l[..|l| - 1], i); }
  }
}
