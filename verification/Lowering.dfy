/**
 * The code builder: structured statements become basic blocks, through a mutable
 * context with an insertion point, a stack of loop frames and a stack of
 * destruction frames.
 */
module Lowering {

  import opened Options
  import opened SwitchRanges
  import opened StructuredCode
  import opened BasicBlocks
  import opened Simulation
  import opened StraightCode
  import opened BuilderState
  import opened StatementRules
  import opened CompoundRules
  import opened BuildSteps
  import opened Temporaries
  import opened SwitchSteps
  import opened Legality

  class FunctionContext {

    var code: Cfg               // the blocks inserted so far
    var next: BlockId           // the block to be created next
    var at: BlockId             // the insertion point is the end of this block
    var loops: seq<LoopFrame>   // innermost last
    var frames: Frames          // innermost last; the first one holds the parameters
    var errors: bool            // whether any error was reported

    const rules: Rules          // what depends on the function and the language

    ghost function View(): State
      reads this
    {
      State(code, next, at, loops, frames, errors, rules.keywords)
    }

    constructor (params: seq<Var>, rules: Rules)
      ensures View() == State(map[0 := []], 1, 0, [], [params], false, rules.keywords) && this.rules == rules
    {
      this.rules := rules;
      code, next, at, loops, frames, errors := map[0 := []], 1, 0, [], [params], false;
    }

    // ----- the parts of the builder -----

    method CreateBlock() returns (b: BlockId)
      modifies `next
      ensures b == old(next) && View() == old(View()).(next := old(next) + 1)
    {
      b := next;
      next := next + 1;
    }

    /** Adds a created block to the function and goes on at its beginning. */
    method InsertBlock(b: BlockId)
      modifies `code, `at
      ensures View() == Inserted(old(View()), b) && at in code && at == b
    {
      code := code[b := []];
      at := b;
    }

    method Append(cs: Code)
      requires at in code
      modifies `code
      ensures View() == Appended(old(View()), cs) && at in code
    {
      code := code[at := code[at] + cs];
    }

    method ReportError()
      modifies `errors
      ensures View() == old(View()).(errors := true)
    {
      errors := true;
    }

    method PushFrame(vs: seq<Var>)
      modifies `frames
      ensures View() == old(View()).(frames := old(frames) + [vs])
    {
      frames := frames + [vs];
    }

    method PopFrame()
      requires frames != []
      modifies `frames
      ensures View() == old(View()).(frames := old(frames)[..|old(frames)| - 1])
    {
      frames := frames[..|frames| - 1];
    }

    method Register(vs: seq<Var>)
      requires frames != []
      modifies `frames
      ensures View() == old(View()).(frames := Extend(old(frames), vs))
    {
      frames := frames[..|frames| - 1] + [frames[|frames| - 1] + vs];
    }

    /** Destroys variables in reverse order of their registration. */
    method CallDestructors(vs: seq<Var>)
      requires at in code
      modifies `code
      ensures View() == Appended(old(View()), Emits(Destroys(vs))) && at in code
    {
      var i := |vs|;
      assert code[at] + Emits(Destroys(vs))[..0] == code[at];
      while i > 0
        invariant 0 <= i <= |vs| && at in code
        invariant View() == Appended(old(View()), Emits(Destroys(vs))[..|vs| - i])
      {
        i := i - 1;
        ghost var ds := Emits(Destroys(vs));
        assert ds[..|vs| - i] == ds[..|vs| - i - 1] + [Emit(Destroy(vs[i]))];
        Append([Emit(Destroy(vs[i]))]);
        assert old(code[at]) + ds[..|vs| - i] == old(code[at]) + ds[..|vs| - i - 1] + [Emit(Destroy(vs[i]))];
      }
      assert Emits(Destroys(vs))[..|vs|] == Emits(Destroys(vs));
    }

    /** Destroys all frames above the given depth, innermost first, and leaves them open. */
    method CallDestructorsDown(depth: nat)
      requires at in code && depth <= |frames|
      modifies `code
      ensures View() == Appended(old(View()), Emits(DestroyDown(old(frames), depth))) && at in code
    {
      hide Appended, DestroyDown, Destroys, Emits;
      var k := |frames|;
      ghost var a := View();
      ghost var done: Trace := [];
      assert frames[..k] == frames;
      AppendNone(a);
      NoEmits();
      assert done + DestroyDown(frames, depth) == DestroyDown(frames, depth);
      while k > depth
        invariant depth <= k <= |frames| && at in code && a.at in a.code
        invariant View() == Appended(a, Emits(done))
        invariant done + DestroyDown(frames[..k], depth) == DestroyDown(frames, depth)
      {
        k := k - 1;
        CallDestructors(frames[k]);
        ghost var more := Destroys(frames[k]);
        DestroyOne(frames, depth, k);
        AppendTwice(a, Emits(done), Emits(more));
        EmitsAppend(done, more);
        assert done + (more + DestroyDown(frames[..k], depth)) == done + more + DestroyDown(frames[..k], depth);
        done := done + more;
      }
      DestroyNone(frames[..k], depth);
      assert done + [] == done;
    }

    /** Evaluates an expression, whose temporaries go to the innermost frame. */
    method BuildExpression(e: Expr)
      requires at in code && frames != []
      modifies `code, `frames
      ensures View() == Appended(old(View()), EnterCode(e)).(frames := Extend(old(frames), e.temps)) && at in code
    {
      Append(EnterCode(e));
      Register(e.temps);
    }

    /** Evaluates an expression in a frame of its own, with one more instruction before the frame is destroyed. */
    method BuildInTemporaryFrame(e: Expr, cs: Code)
      requires at in code && frames != []
      modifies `code, `frames
      ensures View() == Appended(old(View()), EnterCode(e) + cs + Emits(Destroys(e.temps))) && at in code
      ensures frames == old(frames)
    {
      ghost var a := View();
      PushFrame([]);
      BuildExpression(e);
      assert Extend(a.frames + [[]], e.temps) == a.frames + [e.temps] by { ExtendScope(a.frames, [], e.temps); assert [] + e.temps == e.temps; }
      Append(cs);
      AppendTwice(a, EnterCode(e), cs);
      CallDestructors(frames[|frames| - 1]);
      AppendTwice(a, EnterCode(e) + cs, Emits(Destroys(e.temps)));
      PopFrame();
      assert (a.frames + [e.temps])[..|a.frames|] == a.frames;
    }

    /** Opens a frame that holds the temporaries of an expression. */
    method OpenFrame(e: Expr)
      requires at in code && frames != []
      modifies `code, `frames
      ensures View() == Appended(old(View()), EnterCode(e)).(frames := old(frames) + [e.temps]) && at in code
    {
      ghost var a := View();
      PushFrame([]);
      BuildExpression(e);
      ExtendScope(a.frames, [], e.temps);
      assert [] + e.temps == e.temps;
    }

    method BuildSimple(e: Expr)
      requires at in code && frames != []
      modifies `code, `frames
      ensures View() == Appended(old(View()), AfterCode(e)) && at in code && frames == old(frames)
    {
      BuildInTemporaryFrame(e, []);
      assert EnterCode(e) + [] + Emits(Destroys(e.temps)) == AfterCode(e);
    }

    method BuildCondition(c: Expr)
      requires at in code && frames != []
      modifies `code, `frames
      ensures View() == Appended(old(View()), CondCode(c)) && at in code && frames == old(frames)
    {
      BuildInTemporaryFrame(c, [Test(c.id)]);
    }

    method BuildSteps(es: seq<Expr>)
      requires at in code && frames != []
      modifies `code, `frames
      ensures View() == Appended(old(View()), AfterAllCode(es)) && at in code && frames == old(frames)
    {
      ghost var a := View();
      if es == [] {
        AppendNone(a);
      } else {
        BuildSimple(es[0]);
        BuildSteps(es[1..]);
        AppendTwice(a, AfterCode(es[0]), AfterAllCode(es[1..]));
      }
    }

    /** Declares variables one by one in the innermost frame. */
    method BuildDeclarations(ds: seq<Decl>)
      requires at in code && frames != []
      modifies `code, `frames
      ensures View() == Appended(old(View()), DeclsCode(ds)).(frames := Extend(old(frames), Declared(ds))) && at in code
    {
      ghost var a := View();
      if ds == [] {
        AppendNone(a);
        ExtendNone(frames);
      } else {
        BuildInTemporaryFrame(ds[0].init, [Emit(Init(ds[0].v))]);
        Register([ds[0].v]);
        BuildDeclarations(ds[1..]);
        ExtendTwice(a.frames, [ds[0].v], Declared(ds[1..]));
        assert [ds[0].v] + Declared(ds[1..]) == Declared(ds);
        AppendTwice(a, DeclCode(ds[0]), DeclsCode(ds[1..]));
      }
    }

    // ----- blocks -----

    /** Builds statements in the current scope.  Statements after one that control cannot pass are an error. */
    method BuildElements(b: Block) returns (terminal: bool)
      requires Ready(View())
      modifies this
      ensures Built(old(View()), View(), terminal, DeclaredIn(b))
      ensures !errors ==> Sim(old(View()), View(), terminal, List(b))
      ensures Told(old(errors), old(loops), errors, loops, terminal, JudgeBlock(b, Around(old(loops)), rules))
      decreases b, 0
    {
      hide Told, Judge;
      ghost var a := View();
      terminal := false;
      if b.Empty? {
        ToldFalls(errors, loops);
        EmptyRule(a);
        GoStart(a);
        ExtendNone(a.frames);
        GoFinish(a, a, false, {}, []);
        return;
      }
      terminal := Build(b.head);
      ghost var s := View();
      if b.tail.Empty? {
        assert DeclaredBy(b.head) + DeclaredIn(b.tail) == DeclaredBy(b.head);
        if !errors {
          if terminal { LastRule(a, s, b.head); } else { EmptyRule(s); SequenceRule(a, s, s, false, b.head, Empty); }
        }
      } else {
        if terminal { ReportError(); }
        ghost var s' := View();
        var rest := BuildElements(b.tail);
        ToldSequence(a.errors, a.loops, s.errors, s.loops, errors, loops, terminal, rest, Judge(b.head, Around(a.loops), rules),
                     JudgeBlock(b.tail, Around(s.loops), rules), JudgeBlock(b.tail, Around(a.loops), rules));
        BuiltTrans(a, s', View(), terminal, rest, DeclaredBy(b.head), DeclaredIn(b.tail));
        if !errors { SequenceRule(a, s, View(), rest, b.head, b.tail); }
        terminal := terminal || rest;
      }
    }

    /** Builds statements in a scope of their own. */
    method BuildBlock(b: Block) returns (terminal: bool)
      requires Ready(View())
      modifies this
      ensures Built(old(View()), View(), terminal, [])
      ensures !errors ==> Sim(old(View()), View(), terminal, Nested(b))
      ensures Told(old(errors), old(loops), errors, loops, terminal, JudgeBlock(b, Around(old(loops)), rules))
      decreases b, 1
    {
      hide Told, JudgeBlock, Sound, Tidy, Grown, Contains, Dangling, LoopsGrow, Sim, Has;
      ghost var a := View();
      SoundFacts(a);
      GoStart(a);
      PushFrame([]);
      ghost var p := View();
      GoPushFrame(a, a, false, {}, []);
      terminal := BuildElements(b);
      ghost var q := View();
      SoundFacts(q);
      GoBuilt(a, p, q, {}, terminal, DeclaredIn(b));
      ExtendScope(a.frames, [], DeclaredIn(b));
      assert [] + DeclaredIn(b) == DeclaredIn(b);
      if !terminal {
        CallDestructors(frames[|frames| - 1]);
        GoAppend(a, q, {}, Emits(Destroys(DeclaredIn(b))));
      }
      ContainsSelf(q.code);
      AppendContains(q, Emits(Destroys(DeclaredIn(b))));
      SizesKept(a, q);
      GoPopFrame(a, View(), terminal, {});
      PopFrame();
      assert frames == a.frames;
      ExtendNone(a.frames);
      GoFinish(a, View(), terminal, {}, []);
      if !errors { ScopeRule(a, p, q, View(), terminal, b); }
    }

    // ----- statements -----

    method Build(s: Stmt) returns (terminal: bool)
      requires Ready(View())
      modifies this
      ensures Built(old(View()), View(), terminal, DeclaredBy(s))
      ensures !errors ==> Sim(old(View()), View(), terminal, One(s))
      ensures Told(old(errors), old(loops), errors, loops, terminal, Judge(s, Around(old(loops)), rules))
      decreases s, 0
    {
      hide Told, JudgeBlock, Ready, Sound, Tidy, Grown, Contains, Dangling, LoopsGrow, Sim, Has, Linked, Built, Going,
           Appended, Inserted;
      ghost var a := View();
      ReadyFacts(a);
      terminal := false;
      ToldFalls(errors, loops);
      match s
      case Simple(e) =>
        BuildSimple(e);
        SimpleBuilt(a, View(), e);
      case Declare(ds) =>
        BuildDeclarations(ds);
        DeclareBuilt(a, View(), ds);
      case Scope(name, body) =>
        terminal := BuildScopeBlock(name, body);
      case If(choice) =>
        terminal := BuildIf(choice);
        BuiltLoops(a, View(), terminal, []);
        if !errors { IfStatementRule(a, View(), terminal, choice); }
      case While(_, _, _) => BuildWhile(s);
      case Loop(_, _) => terminal := BuildLoop(s);
      case CStyleFor(_, _, _, _, _) => BuildFor(s);
      case TupleFor(_, _, _, _) => terminal := BuildTupleFor(s);
      case With(_, _, _, _) => terminal := BuildWith(s);
      case Switch(_, _, _) => terminal := BuildSwitch(s);
      case Break(_) => terminal := BuildJump(s);
      case Continue(_) => terminal := BuildJump(s);
      case Return(result) => terminal := BuildReturn(result);
      case Halt =>
        Append([CallHalt, Unreachable]);
        HaltBuilt(a, View());
        terminal := true;
        ToldEnds(errors, loops);
      case HaltIf(c) =>
        var yes, no := StartBranch(c);
        ghost var p := View();
        BranchedReady(a, p, c);
        Append([CallHalt, Unreachable]);
        ghost var q := View();
        InsertBlock(no);
        HaltIfBuilt(a, p, q, View(), c);
    }

    /** The frame that a "break" or "continue" refers to. */
    method FetchLoopFrame(target: Option<Label>) returns (k: Option<nat>)
      ensures k == Target(loops, target)
    {
      if target.Some? {
        var i := 0;
        while i < |loops|
          invariant 0 <= i <= |loops| && forall j :: 0 <= j < i ==> loops[j].name != target
        {
          if loops[i].name == target {
            FirstNamedAt(loops, target, i);
            return Some(i);
          }
          i := i + 1;
        }
        FirstNamedAt(loops, target, i);
        k := None;
      } else {
        var i := |loops|;
        while i > 0
          invariant 0 <= i <= |loops| && forall j :: i <= j < |loops| ==> loops[j].cont.None?
        {
          i := i - 1;
          if loops[i].cont.Some? {
            LastLoopAt(loops, i);
            return Some(i);
          }
        }
        LastLoopAt(loops, -1);
        k := None;
      }
    }

    method RecordJump(k: nat, isBreak: bool)
      requires k < |loops|
      modifies `loops
      ensures View() == old(View()).(loops := Recorded(old(loops), k, isBreak)) && |loops| == |old(loops)|
    {
      loops := loops[k := if isBreak then loops[k].(breaks := loops[k].breaks + 1) else loops[k].(continues := loops[k].continues + 1)];
    }

    /** "break" and "continue". */
    method BuildJump(s: Stmt) returns (terminal: bool)
      requires Ready(View()) && (s.Break? || s.Continue?)
      modifies this
      ensures Built(old(View()), View(), terminal, [])
      ensures !errors ==> Sim(old(View()), View(), terminal, One(s))
      ensures Told(old(errors), old(loops), errors, loops, terminal, Judge(s, Around(old(loops)), rules))
    {
      hide Ready, Sound, Tidy, Grown, Contains, Dangling, LoopsGrow, Sim, Has, Linked, Built, Going, Appended, Inserted;
      ghost var a := View();
      ReadyFacts(a);
      terminal := true;
      var k := FetchLoopFrame(s.target);
      if k.None? || (s.Continue? && loops[k.value].cont.None?) {
        ReportError();
        AroundAim(a.loops, s.target);
        ErrorBuilt(a, true);
        return;
      }
      var f := loops[k.value];
      var to := if s.Break? then f.brk else f.cont.value;
      LoopDepth(a, k.value);
      RecordJump(k.value, s.Break?);
      ghost var b := View();
      CallDestructorsDown(f.size);
      Append([Br(to)]);
      AppendTwice(b, Emits(DestroyDown(a.frames, f.size)), [Br(to)]);
      JumpBuilt(a, View(), k.value, to, s);
      AroundAim(a.loops, s.target);
      ToldJump(errors, a.loops, loops, k.value, s.Break?);
    }

    method BuildReturn(result: Option<Expr>) returns (terminal: bool)
      requires Ready(View())
      modifies this
      ensures Built(old(View()), View(), terminal, [])
      ensures !errors ==> Sim(old(View()), View(), terminal, One(Return(result)))
      ensures Told(old(errors), old(loops), errors, loops, terminal, Judge(Return(result), Around(old(loops)), rules))
    {
      hide Ready, Sound, Tidy, Grown, Contains, Dangling, LoopsGrow, Sim, Has, Linked, Built, Going, Appended, Inserted;
      ghost var a := View();
      ReadyFacts(a);
      terminal := true;
      if result.None? != rules.returnsVoid {
        ReportError();
        ErrorBuilt(a, true);
        return;
      }
      if result.Some? {
        OpenFrame(result.value);
        ghost var b := View();
        CallDestructorsDown(0);
        PopFrame();
        ReturnFrames(a, b, View(), result.value);
      } else {
        CallDestructorsDown(0);
      }
      ReturnCodeIs(a, result);
      Append([Ret]);
      AppendTwice(a, ReturnCode(result, a.frames), [Ret]);
      ReturnBuilt(a, View(), result);
      ToldEnds(errors, loops);
    }

    /** A condition and its two-way branch; goes on in the block for "true". */
    method StartBranch(c: Expr) returns (yes: BlockId, no: BlockId)
      requires Ready(View())
      modifies `code, `next, `at, `frames
      ensures Branched(old(View()), View(), c) && yes == old(next) && no == old(next) + 1
    {
      hide Ready, Sound, Tidy, Grown, Contains, Dangling, LoopsGrow, Sim, Has, Linked, Built, Going, Appended, Inserted,
           Branched;
      ghost var a := View();
      ReadyFacts(a);
      yes := CreateBlock();
      no := CreateBlock();
      ghost var s0 := View();
      BuildCondition(c);
      Append([CondBr(yes, no)]);
      AppendTwice(s0, CondCode(c), [CondBr(yes, no)]);
      InsertBlock(yes);
      Branch(a, s0, View(), c);
    }

    method BuildIf(choice: IfOperator) returns (terminal: bool)
      requires Ready(View())
      modifies this
      ensures Built(old(View()), View(), terminal, [])
      ensures !errors ==> Sim(old(View()), View(), terminal, Choice(choice))
      ensures Told(old(errors), old(loops), errors, loops, terminal, JudgeIf(choice, Around(old(loops)), rules))
      decreases choice, 1
    {
      hide JudgeBlock, Ready, Sound, Tidy, Grown, Contains, Dangling, LoopsGrow, Sim, Has, Linked, Built, Going,
           Appended, Inserted, Branched, Alternated;
      ghost var a := View();
      ReadyFacts(a);
      var yes, no := StartBranch(choice.cond);
      ghost var p := View();
      BranchedReady(a, p, choice.cond);
      var t := BuildBlock(choice.body);
      ghost var q := View();
      BuiltLoops(p, q, t, []);
      if choice.alternative.NoElse? {
        if !t { Append([Br(no)]); }
        ghost var y := View();
        InsertBlock(no);
        IfBuilt(a, p, q, y, View(), t, choice);
        return false;
      }
      terminal := BuildElse(a, p, q, no, t, choice);
    }

    /** The alternative of an "if" whose block for "true" has been built. */
    method BuildElse(ghost a: State, ghost p: State, ghost q: State, no: BlockId, t: bool, choice: IfOperator)
      returns (terminal: bool)
      requires Ready(a) && Branched(a, p, choice.cond) && p.frames != [] && p.at in p.code && q == View()
      requires q.at in q.code && no == a.next + 1
      requires Built(p, q, t, []) && (!q.errors ==> Sim(p, q, t, Nested(choice.body))) && !choice.alternative.NoElse?
      requires Told(a.errors, a.loops, q.errors, q.loops, t, JudgeBlock(choice.body, Around(a.loops), rules))
      modifies this
      ensures a.frames != [] && a.at in a.code && Built(a, View(), terminal, [])
      ensures !errors ==> Sim(a, View(), terminal, Choice(choice))
      ensures Told(a.errors, a.loops, errors, loops, terminal, JudgeIf(choice, Around(a.loops), rules))
      decreases choice, 0
    {
      hide AlternativeReport, JudgeIf, Told, JudgeBlock, Ready, Sound, Tidy, Grown, Contains, Dangling, LoopsGrow, Sim,
           Has, Linked, Built, Going, Appended, Inserted, Branched, Alternated;
      ReadyFacts(a);
      var e := CreateBlock();
      if !t { Append([Br(e)]); }
      ghost var y := View();
      InsertBlock(no);
      ghost var p' := View();
      Alternate(a, p, q, y, p', t, choice.cond);
      AlternatedReady(a, p, q, p', t, e, choice.cond);
      var t' := BuildAlternative(choice.alternative);
      ghost var q' := View();
      BuiltLoops(p', q', t', []);
      if !t' { Append([Br(e)]); }
      ghost var y' := View();
      terminal := t && t';
      JudgeIfIs(choice, Around(a.loops), rules);
      if !terminal { InsertBlock(e); }
      ToldTwice(a.errors, a.loops, q.errors, q.loops, errors, loops, t, t', JudgeBlock(choice.body, Around(a.loops), rules),
                AlternativeReport(choice.alternative, Around(q.loops), rules),
                AlternativeReport(choice.alternative, Around(a.loops), rules), terminal);
      IfElseBuilt(a, p, q, p', q', y', View(), t, t', e, choice);
    }

    /** What follows an "else". */
    method BuildAlternative(alternative: Alternative) returns (terminal: bool)
      requires Ready(View()) && !alternative.NoElse?
      modifies this
      ensures Built(old(View()), View(), terminal, [])
      ensures !errors ==> Sim(old(View()), View(), terminal, AlternativeJob(alternative))
      ensures Told(old(errors), old(loops), errors, loops, terminal, AlternativeReport(alternative, Around(old(loops)), rules))
      decreases alternative, 0
    {
      hide Told, JudgeBlock, JudgeIf, Ready, Sound, Tidy, Grown, Contains, Dangling, LoopsGrow, Sim, Built;
      if alternative.Else? {
        terminal := BuildBlock(alternative.body);
      } else {
        terminal := BuildIf(alternative.choice);
      }
    }

    // ----- labelled blocks and "with" -----

    method BuildScopeBlock(name: Option<Label>, body: Block) returns (terminal: bool)
      requires Ready(View())
      modifies this
      ensures Built(old(View()), View(), terminal, [])
      ensures !errors ==> Sim(old(View()), View(), terminal, One(Scope(name, body)))
      ensures Told(old(errors), old(loops), errors, loops, terminal, Judge(Scope(name, body), Around(old(loops)), rules))
      decreases body, 3
    {
      hide Judge, Told, JudgeBlock, Pushed, Ready, Sound, Tidy, Grown, Contains, Dangling, LoopsGrow, Sim, Has, Linked,
           Built, Going, Appended, Inserted;
      ghost var a := View();
      ReadyFacts(a);
      if name.None? {
        terminal := BuildBlock(body);
        PlainJudged(name, body, Around(a.loops), rules);
        BuiltLoops(a, View(), terminal, []);
        if !errors { PlainBlockRule(a, View(), terminal, body); }
        return;
      }
      terminal := BuildLabelledBlock(name, body);
    }

    method StartLabelledBlock(name: Option<Label>) returns (e: BlockId)
      requires Ready(View()) && name.Some?
      modifies `next, `loops, `errors
      ensures e == old(next) && View() == WithLoop(old(View()).(next := old(next) + 1), e, None, name)
      ensures Ready(View()) && at in code && frames != [] && |loops| == |old(loops)| + 1
      ensures Pushed(old(errors), old(loops), errors, loops, name, false, rules)
    {
      hide WithLoop, Pushed, Ready, Sound;
      ghost var a := View();
      ReadyFacts(a);
      e := CreateBlock();
      AddLoopFrame(e, None, name);
      PushedSize(a.errors, a.loops, errors, loops, name, false, rules);
      LabelledStart(a, View(), name.value);
    }

    method BuildLabelledBlock(name: Option<Label>, body: Block) returns (terminal: bool)
      requires Ready(View()) && name.Some?
      modifies this
      ensures Built(old(View()), View(), terminal, [])
      ensures !errors ==> Sim(old(View()), View(), terminal, One(Scope(name, body)))
      ensures Told(old(errors), old(loops), errors, loops, terminal, Judge(Scope(name, body), Around(old(loops)), rules))
      decreases body, 2
    {
      hide WithLoop, Judge, Told, JudgeBlock, Pushed, Ready, Sound, Tidy, Grown, Contains, Dangling, LoopsGrow, Sim,
           Has, Linked, Built, Going, Appended, Inserted;
      ghost var a := View();
      ReadyFacts(a);
      var e := StartLabelledBlock(name);
      ghost var p := View();
      var t := BuildBlock(body);
      ghost var q := View();
      BuiltLoops(p, q, t, []);
      terminal := t && loops[|loops| - 1].breaks == 0;
      PopLoop();
      if !t { Append([Br(e)]); }
      ghost var y := View();
      if !terminal { InsertBlock(e); }
      LabelTold(name, body, a.errors, a.loops, p.errors, p.loops, errors, q.loops, loops, t, rules, terminal);
      LabelledBuilt(a, p, q, y, View(), t, terminal, name.value, body);
    }

    /** Passes over the innermost frame, each of which destroys what nothing refers to any more. */
    method DestroyUnusedTemporaryVariables(passes: seq<set<Var>>)
      requires at in code && frames != []
      modifies `code, `frames
      ensures at in code && frames != []
      ensures var n := |old(frames)| - 1;
              View() == Appended(old(View()), Emits(Drops(GoneAll(old(frames)[n], passes)))).(
                          frames := old(frames)[..n] + [KeepAll(old(frames)[n], passes)])
      ensures forall v: Var :: v in frames[|frames| - 1] <==> v in old(frames)[|old(frames)| - 1] && !InSome(passes, v)
    {
      hide Appended, Emits, InSome;
      ghost var a := View();
      ghost var before := frames[|frames| - 1];
      AllUnused(before, passes);
      if passes == [] {
        NoEmits();
        AppendNone(a);
        assert frames == frames[..|frames| - 1] + [frames[|frames| - 1]];
        return;
      }
      var n := |frames| - 1;
      var vs := frames[n];
      DestroyUnusedOnce(vs, passes[0]);
      ghost var b := View();
      DestroyUnusedTemporaryVariables(passes[1..]);
      ghost var c := Appended(a, Emits(Drops(Gone(vs, passes[0]))));
      AppendFrames(c, b.frames, Emits(Drops(GoneAll(Keep(vs, passes[0]), passes[1..]))));
      AppendTwice(a, Emits(Drops(Gone(vs, passes[0]))), Emits(Drops(GoneAll(Keep(vs, passes[0]), passes[1..]))));
      EmitsAppend(Drops(Gone(vs, passes[0])), Drops(GoneAll(Keep(vs, passes[0]), passes[1..])));
      DropsAppend(Gone(vs, passes[0]), GoneAll(Keep(vs, passes[0]), passes[1..]));
      assert b.frames[..n] == a.frames[..n];
      assert frames == a.frames[..n] + [KeepAll(before, passes)] && frames[|frames| - 1] == KeepAll(before, passes);
    }

    /** One pass: unused variables are destroyed and taken out, the others keep their order. */
    method DestroyUnusedOnce(vs: seq<Var>, dead: set<Var>)
      requires at in code && frames != [] && vs == frames[|frames| - 1]
      modifies `code, `frames
      ensures at in code
      ensures View() == Appended(old(View()), Emits(Drops(Gone(vs, dead)))).(
                          frames := old(frames)[..|old(frames)| - 1] + [Keep(vs, dead)])
    {
      hide Appended, Emits, Keep, Gone;
      ghost var a := View();
      var kept: seq<Var> := [];
      ghost var gone: seq<Var> := [];
      NoEmits();
      AppendNone(a);
      assert vs[0..] == vs;
      for i := 0 to |vs|
        invariant at in code && frames == a.frames && View() == Appended(a, Emits(Drops(gone)))
        invariant kept + Keep(vs[i..], dead) == Keep(vs, dead) && gone + Gone(vs[i..], dead) == Gone(vs, dead)
      {
        KeepNext(vs, i, dead);
        if vs[i] in dead {
          Append(Emits([Destroy(vs[i])]));
          DropNext(a, gone, vs[i]);
          gone := gone + [vs[i]];
        } else {
          kept := kept + [vs[i]];
        }
      }
      KeepEnd(vs, dead);
      assert kept == Keep(vs, dead) && gone == Gone(vs, dead);
      frames := frames[..|frames| - 1] + [kept];
    }

    /** The expression is evaluated, the variables are bound, and the temporaries that nothing uses are destroyed. */
    method OpenWith(s: Stmt)
      requires Ready(View()) && s.With?
      modifies `code, `frames
      ensures old(at in code) && at in code && Ready(View())
      ensures View() == Appended(old(View()), EnterCode(s.e) + Emits(Opened(s))).(frames := old(frames) + [Held(s)])
    {
      hide Ready, Appended, Emits, Inits, Opened, Held, EnterCode, Bound, Drops, GoneAll, KeepAll;
      ghost var a := View();
      ReadyFacts(a);
      var bound := Bound(s.bound);
      OpenFrame(s.e);
      ghost var b := View();
      Append(Emits(Inits(bound)));
      ghost var c := View();
      FrameSplit(a.frames, s.e.temps);
      DestroyUnusedTemporaryVariables(s.unused);
      ghost var d := View();
      Register(bound);
      WithFrames(a, b, c, d, View(), s);
      OpenedStraight(s);
      WithStart(a, View(), EnterCode(s.e) + Emits(Opened(s)), Held(s));
    }

    method BuildWith(s: Stmt) returns (terminal: bool)
      requires Ready(View()) && s.With?
      modifies this
      ensures Built(old(View()), View(), terminal, [])
      ensures !errors ==> Sim(old(View()), View(), terminal, One(s))
      ensures Told(old(errors), old(loops), errors, loops, terminal, Judge(s, Around(old(loops)), rules))
      decreases s.body, 2
    {
      hide Judge, Told, JudgeBlock, Ready, Sound, Tidy, Grown, Contains, Dangling, LoopsGrow, Sim, Has, Linked, Built,
           Going, Appended, Inserted, Emits, EnterCode, Opened, Held, DeclaredIn, Destroys;
      ghost var a := View();
      ReadyFacts(a);
      WithJudged(s, Around(loops), rules);
      OpenWith(s);
      ghost var p := View();
      terminal := BuildElements(s.body);
      ghost var q := View();
      BuiltLoops(p, q, terminal, DeclaredIn(s.body));
      ExtendScope(a.frames, Held(s), DeclaredIn(s.body));
      FrameSplit(a.frames, Held(s) + DeclaredIn(s.body));
      if !terminal { CallDestructors(frames[|frames| - 1]); }
      PopFrame();
      WithBuilt(a, p, q, View(), terminal, s);
    }

    // ----- loops -----

    /** The block that tests the condition of a "while". */
    method BuildWhileTest(cond: Expr) returns (test: BlockId, body: BlockId, after: BlockId)
      requires at in code && frames != []
      modifies `code, `next, `at, `frames
      ensures test == old(next) && body == old(next) + 1 && after == old(next) + 2 && frames == old(frames)
      ensures at in code
      ensures var s1 := Inserted(Appended(old(View()).(next := old(next) + 3), [Br(test)]), test);
              s1.at in s1.code && View() == Appended(s1, CondCode(cond) + [CondBr(body, after)])
    {
      hide Appended, Inserted, CondCode;
      test := CreateBlock();
      body := CreateBlock();
      after := CreateBlock();
      Append([Br(test)]);
      InsertBlock(test);
      ghost var s1 := View();
      BuildCondition(cond);
      Append([CondBr(body, after)]);
      AppendTwice(s1, CondCode(cond), [CondBr(body, after)]);
    }

    method StartWhile(s: Stmt) returns (test: BlockId, after: BlockId)
      requires Ready(View()) && s.While?
      modifies `code, `next, `at, `loops, `errors, `frames
      ensures WhileStarted(old(View()), View(), s) && test == old(next) && after == old(next) + 2
      ensures Pushed(old(errors), old(loops), errors, loops, s.name, true, rules)
    {
      hide Pushed, Ready, Sound, Appended, Inserted, WithLoop, WhileStarted, CondCode;
      ghost var a := View();
      ReadyFacts(a);
      var body;
      test, body, after := BuildWhileTest(s.cond);
      ghost var s0, s2 := a.(next := a.next + 3), View();
      AddLoopFrame(after, Some(test), s.name);
      InsertBlock(body);
      WhileStart(a, s0, Inserted(Appended(s0, [Br(test)]), test), s2, View(), s);
    }

    method BuildWhile(s: Stmt)
      requires Ready(View()) && s.While?
      modifies this
      ensures Built(old(View()), View(), false, [])
      ensures !errors ==> Sim(old(View()), View(), false, One(s))
      ensures Told(old(errors), old(loops), errors, loops, false, Judge(s, Around(old(loops)), rules))
      decreases s.body, 2
    {
      hide Told, JudgeBlock, Pushed, Ready, Sound, Tidy, Grown, Contains, Dangling, LoopsGrow, Sim, Has, Linked, Built,
           Going, Appended, Inserted, WhileStarted, BodyEnded, GoneRound;
      ghost var a := View();
      ReadyFacts(a);
      var test, after := StartWhile(s);
      ghost var w := View();
      WhileStartedReady(a, w, s);
      PushedAround(a.errors, a.loops, errors, loops, s.name, true, rules);
      var t := BuildBlock(s.body);
      ghost var x := View();
      BuiltLoops(w, x, t, []);
      GoRound(t, test);
      ghost var y := View();
      InsertBlock(after);
      PopLoop();
      ToldLoop(a.errors, a.loops, w.errors, w.loops, errors, x.loops, loops, s.name, rules, t,
               JudgeBlock(s.body, Around(w.loops), rules), false, false);
      WhileBuilt(a, w, x, y, View(), t, s);
    }

    method StartLoop(s: Stmt) returns (body: BlockId, after: BlockId)
      requires Ready(View()) && s.Loop?
      modifies `code, `next, `at, `loops, `errors
      ensures LoopStarted(old(View()), View(), s) && body == old(next) && after == old(next) + 1
      ensures Pushed(old(errors), old(loops), errors, loops, s.name, true, rules)
    {
      hide Pushed, Ready, Sound, Tidy, Grown, Contains, Dangling, LoopsGrow, Sim, Has, Linked, Built, Going, Appended,
           Inserted, LoopStarted, WithLoop;
      ghost var a := View();
      ReadyFacts(a);
      body := CreateBlock();
      after := CreateBlock();
      ghost var s0 := View();
      Append([Br(body)]);
      ghost var s1 := View();
      AddLoopFrame(after, Some(body), s.name);
      InsertBlock(body);
      LoopStart(a, s0, s1, View(), s);
    }

    method BuildLoop(s: Stmt) returns (terminal: bool)
      requires Ready(View()) && s.Loop?
      modifies this
      ensures Built(old(View()), View(), terminal, [])
      ensures !errors ==> Sim(old(View()), View(), terminal, One(s))
      ensures Told(old(errors), old(loops), errors, loops, terminal, Judge(s, Around(old(loops)), rules))
      decreases s.body, 2
    {
      hide Judge, Told, JudgeBlock, Pushed, Ready, Sound, Tidy, Grown, Contains, Dangling, LoopsGrow, Sim, Has, Linked,
           Built, Going, Appended, Inserted, LoopStarted, BodyEnded, GoneRound;
      ghost var a := View();
      ReadyFacts(a);
      var body, after := StartLoop(s);
      ghost var w := View();
      LoopStartedReady(a, w, s);
      PushedSize(a.errors, a.loops, errors, loops, s.name, true, rules);
      var t := BuildBlock(s.body);
      ghost var x := View();
      BuiltLoops(w, x, t, []);
      terminal := loops[|loops| - 1].breaks == 0;
      GoRound(t, body);
      ghost var y := View();
      PopLoop();
      assert loops == x.loops[..|a.loops|];
      if !terminal { InsertBlock(after); }
      EndlessTold(s, a.errors, a.loops, w.errors, w.loops, errors, x.loops, loops, t, rules, terminal);
      LoopBuilt(a, w, x, y, View(), t, terminal, s);
    }

    /** The scope and the variables of a C-style "for", up to the jump to its first block. */
    method DeclareForVariables(s: Stmt) returns (l: LoopBlocks)
      requires at in code && frames != [] && s.CStyleFor?
      modifies `code, `next, `frames
      ensures l == ForBlocks(old(View()))
      ensures View() == Appended(old(View()), DeclsCode(s.decls) + [Br(l.test)]).(frames := old(frames) + [Declared(s.decls)], next := old(next) + 4)
    {
      hide DeclsCode, Appended;
      ghost var a := View();
      PushFrame([]);
      ghost var b := View();
      BuildDeclarations(s.decls);
      ExtendScope(a.frames, [], Declared(s.decls));
      assert [] + Declared(s.decls) == Declared(s.decls);
      var test := CreateBlock();
      var body := CreateBlock();
      var iter := CreateBlock();
      var after := CreateBlock();
      Append([Br(test)]);
      ForPrologue(a, b, View(), s);
      l := LoopBlocks(test, body, iter, after);
    }

    method StartFor(s: Stmt) returns (l: LoopBlocks)
      requires Ready(View()) && s.CStyleFor?
      modifies `code, `next, `at, `loops, `errors, `frames
      ensures ForStarted(old(View()), View(), s) && l == ForBlocks(old(View()))
      ensures Pushed(old(errors), old(loops), errors, loops, s.name, true, rules)
    {
      hide Pushed, Ready, Sound, Tidy, Grown, Contains, Dangling, LoopsGrow, Sim, Has, Linked, Built, Going, Appended,
           Inserted, WithLoop, ForStarted;
      ghost var a := View();
      ReadyFacts(a);
      l := DeclareForVariables(s);
      ghost var s0 := View();
      InsertBlock(l.test);
      ghost var s1 := View();
      if s.test.Some? {
        BuildCondition(s.test.value);
        Append([CondBr(l.body, l.exit)]);
        AppendTwice(s1, CondCode(s.test.value), [CondBr(l.body, l.exit)]);
      } else {
        Append([Br(l.body)]);
      }
      ghost var s2 := View();
      AddLoopFrame(l.exit, Some(l.cont), s.name);
      InsertBlock(l.body);
      ForStart(a, s0, s1, s2, View(), s);
    }

    method BuildFor(s: Stmt)
      requires Ready(View()) && s.CStyleFor?
      modifies this
      ensures Built(old(View()), View(), false, [])
      ensures !errors ==> Sim(old(View()), View(), false, One(s))
      ensures Told(old(errors), old(loops), errors, loops, false, Judge(s, Around(old(loops)), rules))
      decreases s.body, 2
    {
      hide Told, JudgeBlock, Pushed, Ready, Sound, Tidy, Grown, Contains, Dangling, LoopsGrow, Sim, Has, Linked, Built,
           Going, Appended, Inserted, ForStarted, BodyEnded, GoneRound;
      ghost var a := View();
      ReadyFacts(a);
      var l := StartFor(s);
      ghost var w := View();
      ForStartedReady(a, w, s);
      PushedAround(a.errors, a.loops, errors, loops, s.name, true, rules);
      var t := BuildBlock(s.body);
      ghost var x := View();
      BuiltLoops(w, x, t, []);
      ExtendNone(w.frames);
      GoRound(t, l.cont);
      FinishFor(a, w, x, l, t, s);
      ToldLoop(a.errors, a.loops, w.errors, w.loops, errors, x.loops, loops, s.name, rules, t,
               JudgeBlock(s.body, Around(w.loops), rules), false, false);
    }

    method BuildStepBlock(l: LoopBlocks, step: seq<Expr>)
      requires frames != []
      modifies `code, `at, `frames
      ensures View() == Appended(Inserted(old(View()), l.cont), AfterAllCode(step) + [Br(l.test)])
      ensures frames == old(frames) && at in code
    {
      hide Appended, AfterAllCode;
      InsertBlock(l.cont);
      ghost var v := View();
      BuildSteps(step);
      Append([Br(l.test)]);
      AppendTwice(v, AfterAllCode(step), [Br(l.test)]);
    }

    /** The step block of a C-style "for", the block after it, and the end of its variables. */
    method FinishFor(ghost a: State, ghost w: State, ghost x: State, l: LoopBlocks, t: bool, s: Stmt)
      requires Ready(a) && s.CStyleFor? && ForStarted(a, w, s) && w.frames != [] && w.at in w.code && l == ForBlocks(a)
      requires Built(w, x, t, []) && (!x.errors ==> Sim(w, x, t, Nested(s.body))) && x.loops != [] && x.at in x.code
      requires View() == BodyEnded(x, t, l.cont) && loops != [] && frames == a.frames + [Declared(s.decls)]
      modifies this
      ensures a.frames != [] && a.at in a.code && Built(a, View(), false, [])
      ensures !errors ==> Sim(a, View(), false, One(s))
      ensures errors == old(errors) && loops == old(loops)[..|old(loops)| - 1]
    {
      hide Ready, Sound, Tidy, Grown, Contains, Dangling, LoopsGrow, Sim, Has, Linked, Built, Going, Appended, Inserted,
           ForStarted, BodyEnded, GoneRound, Emits, Destroys, Declared, AfterAllCode;
      ReadyFacts(a);
      ghost var y := View();
      PopLoop();
      BuildStepBlock(l, s.step);
      ghost var z := View();
      InsertBlock(l.exit);
      ghost var u := View();
      CallDestructors(frames[|frames| - 1]);
      PopFrame();
      assert frames == a.frames;
      ForBuilt(a, w, x, y, z, u, View(), t, s);
    }

    /** The element variable of a pass and the loop frame around its body. */
    method StartPass(vs: seq<Var>, finish: BlockId, nextBlock: BlockId, name: Option<Label>)
      requires at in code && frames != []
      modifies `code, `loops, `errors, `frames
      ensures View() == WithPass(old(View()), vs, finish, nextBlock, name)
      ensures Pushed(old(errors), old(loops), errors, loops, name, true, rules)
    {
      ghost var a := View();
      PushFrame([]);
      Append(Emits(Inits(vs)));
      Register(vs);
      ExtendScope(a.frames, [], vs);
      assert [] + vs == vs;
      AddLoopFrame(finish, Some(nextBlock), name);
      loops := loops[|loops| - 1 := loops[|loops| - 1].(size := |frames| - 1)];
      PassPrologue(a, View(), vs, finish, nextBlock, name);
    }

    /** The end of the element variable, if control falls out of the body, and of the loop frame. */
    method EndPass(vs: seq<Var>, body: Block, t: bool, nextBlock: BlockId, ghost outer: Frames)
      requires at in code && loops != [] && frames == outer + [vs + DeclaredIn(body)]
      modifies `code, `loops, `frames
      ensures View() == PassEnded(old(View()), t, vs, body, nextBlock, outer) && frames == outer
      ensures loops == old(loops)[..|old(loops)| - 1]
    {
      ghost var q := View();
      if !t {
        CallDestructors(frames[|frames| - 1]);
        Append([Br(nextBlock)]);
        AppendTwice(q, Emits(Destroys(vs + DeclaredIn(body))), [Br(nextBlock)]);
      }
      PopLoop();
      PopFrame();
      assert frames == outer;
    }

    /** The body once for each tuple element. */
    method BuildPasses(s: Stmt, elements: seq<Option<Var>>, finish: BlockId, broken: bool, ghost base: State)
      returns (terminal: bool)
      requires s.TupleFor? && elements != [] && AtPass(base, View(), broken, finish)
      modifies this
      ensures PassesBuilt(base, old(View()), View(), terminal, broken, finish)
      ensures old(frames) != [] && old(at in code)
      ensures !errors ==> PassesSim(old(View()), View().code, PassesOut(View(), terminal, finish, old(frames)), s.name, elements, s.body)
      ensures Told(old(errors), old(loops), errors, loops, terminal, JudgePasses(s.name, s.body, Around(old(loops)), rules, broken))
      decreases s.body, 2, |elements|
    {
      hide Told, Judge, JudgeBlock, JudgePasses, Pushed, Ready, Sound, Tidy, Grown, Contains, Dangling, LoopsGrow, Sim,
           Has, Linked, Built, Going, Appended, Inserted, WithLoop, WithPass, PassEnded, AtPass, PassStarted, PassesSim,
           PassesBuilt;
      ghost var a := View();
      AtPassReady(base, a, broken, finish);
      var vs := Bound(elements[0]);
      var nextBlock := finish;
      if |elements| > 1 { nextBlock := CreateBlock(); }
      ghost var a' := View();
      StartPass(vs, finish, nextBlock, s.name);
      ghost var p := View();
      PushedSize(a.errors, a.loops, errors, loops, s.name, true, rules);
      PushedAround(a.errors, a.loops, errors, loops, s.name, true, rules);
      AtPassFinish(base, a, broken, finish);
      PassStart(base, a, a', p, broken, vs, finish, nextBlock, s.name);
      PassStartedReady(base, a, p, broken, vs, finish, nextBlock, s.name);
      var t := BuildElements(s.body);
      ghost var q := View();
      BuiltLoops(p, q, t, DeclaredIn(s.body));
      ExtendScope(a.frames, vs, DeclaredIn(s.body));
      terminal := FinishPass(s, elements, finish, nextBlock, broken, t, base, a, p);
    }

    /** The passes after the current one, or the end of the loop. */
    method FinishPass(s: Stmt, elements: seq<Option<Var>>, finish: BlockId, nextBlock: BlockId, broken: bool, t: bool,
                      ghost base: State, ghost a: State, ghost p: State) returns (terminal: bool)
      requires s.TupleFor? && elements != [] && AtPass(base, a, broken, finish) && a.frames != [] && a.at in a.code
      requires Sound(a)
      requires PassStarted(base, a, p, broken, Bound(elements[0]), finish, nextBlock, s.name) && p.frames != []
      requires p.at in p.code
      requires Built(p, View(), t, DeclaredIn(s.body)) && loops != [] && at in code
      requires !errors ==> Sim(p, View(), t, List(s.body))
      requires frames == a.frames + [Bound(elements[0]) + DeclaredIn(s.body)]
      requires (nextBlock == finish <==> |elements| == 1)
      requires |loops| == |a.loops| + 1 && Pushed(a.errors, a.loops, p.errors, p.loops, s.name, true, rules)
      requires Told(p.errors, p.loops, errors, loops, t, JudgeBlock(s.body, Around(p.loops), rules))
      modifies this
      ensures PassesBuilt(base, a, View(), terminal, broken, finish)
      ensures !errors ==> PassesSim(a, View().code, PassesOut(View(), terminal, finish, a.frames), s.name, elements, s.body)
      ensures Told(a.errors, a.loops, errors, loops, terminal, JudgePasses(s.name, s.body, Around(a.loops), rules, broken))
      decreases s.body, 2, |elements|, 0
    {
      hide Told, Judge, JudgeBlock, JudgePasses, Pushed, Ready, Sound, Tidy, Grown, Contains, Dangling, LoopsGrow, Sim,
           Has, Linked, Built, Going, Appended, Inserted, WithLoop, WithPass, PassEnded, AtPass, PassStarted, PassesSim,
           PassesBuilt;
      var vs := Bound(elements[0]);
      ghost var q := View();
      AtPassFinish(base, a, broken, finish);
      var goesOn, breaks := !t || loops[|loops| - 1].continues > 0, loops[|loops| - 1].breaks > 0;
      EndPass(vs, s.body, t, nextBlock, a.frames);
      ghost var y := View();
      PassTold(a.errors, a.loops, p.errors, p.loops, q.errors, q.loops, loops, s.name, s.body, t, rules, broken, goesOn,
               breaks);
      if goesOn && |elements| > 1 {
        NextPass(base, a, p, q, y, broken, t, vs, s.body, finish, nextBlock, s.name);
        InsertBlock(nextBlock);
        ghost var p' := View();
        terminal := BuildPasses(s, elements[1..], finish, broken || breaks, base);
        ghost var report := JudgePasses(s.name, s.body, Around(a.loops), rules, broken);
        ToldAgain(a.errors, a.loops, y.errors, y.loops, errors, loops, false, terminal, report,
                  JudgePasses(s.name, s.body, Around(y.loops), rules, broken || breaks), report);
        MorePasses(base, a, p, q, y, p', View(), broken, t, terminal, s.name, elements, s.body, finish, nextBlock);
      } else {
        terminal := !goesOn && !broken && !breaks;
        if !terminal { InsertBlock(finish); }
        LastPass(base, a, p, q, y, View(), broken, t, terminal, s.name, elements, s.body, finish, nextBlock);
      }
    }

    method BuildTupleFor(s: Stmt) returns (terminal: bool)
      requires Ready(View()) && s.TupleFor?
      modifies this
      ensures Built(old(View()), View(), terminal, [])
      ensures !errors ==> Sim(old(View()), View(), terminal, One(s))
      ensures Told(old(errors), old(loops), errors, loops, terminal, Judge(s, Around(old(loops)), rules))
      decreases s.body, 3
    {
      hide Told, JudgeBlock, JudgePasses, Ready, Sound, Tidy, Grown, Contains, Dangling, LoopsGrow, Sim, Has, Linked,
           Built, Going, Appended, Inserted, AtPass, PassesSim, PassesBuilt;
      ghost var a := View();
      ReadyFacts(a);
      OpenFrame(s.e);
      ghost var p := View();
      WithStart(a, p, EnterCode(s.e), s.e.temps);
      terminal := false;
      ToldFalls(errors, loops);
      ghost var finish := p.next;
      if s.elements == [] {
        NoPasses(a, p, s);
      } else {
        var e := CreateBlock();
        ghost var p' := View();
        FirstPass(a, p, p');
        terminal := BuildPasses(s, s.elements, e, false, a);
        AllPasses(a, p, p', View(), terminal, s);
      }
      ghost var x := View();
      if !terminal { CallDestructors(frames[|frames| - 1]); }
      PopFrame();
      assert frames == a.frames;
      TupleForBuilt(a, p, x, View(), terminal, finish, s);
    }

    method AddLoopFrame(brk: BlockId, cont: Option<BlockId>, name: Option<Label>)
      modifies `loops, `errors
      ensures View() == WithLoop(old(View()), brk, cont, name) && loops != []
      ensures Pushed(old(errors), old(loops), errors, loops, name, cont.Some?, rules)
    {
      if RefusedLabel(rules.keywords, loops, name) { ReportError(); }
      loops := loops + [LoopFrame(name, brk, cont, |frames|, 0, 0)];
    }

    method PopLoop()
      requires loops != []
      modifies `loops
      ensures View() == old(View()).(loops := old(loops)[..|old(loops)| - 1])
    {
      loops := loops[..|loops| - 1];
    }

    /** Records that control goes round the innermost loop. */
    method RecordContinue()
      requires loops != []
      modifies `loops
      ensures View() == old(View()).(loops := GoneRound(old(loops))) && |loops| == |old(loops)|
    {
      var k := |loops| - 1;
      loops := loops[k := loops[k].(continues := loops[k].continues + 1)];
    }

    /** Control that falls out of the body of a loop goes on at the given block. */
    method GoRound(terminal: bool, cont: BlockId)
      requires at in code && loops != []
      modifies `code, `loops
      ensures View() == BodyEnded(old(View()), terminal, cont) && at in code
      ensures loops != [] && |loops| == |old(loops)| && loops[..|loops| - 1] == old(loops)[..|old(loops)| - 1]
    {
      hide Appended;
      if !terminal {
        Append([Br(cont)]);
        RecordContinue();
      }
    }

    // ----- switch -----

    /** Makes all branches to block n lead to block d, removes n, and goes on in d. */
    method ReplaceBlock(n: BlockId, d: BlockId)
      modifies `code, `at
      ensures View() == Rerouted(old(View()), n, d) && at in code
    {
      code := Redirected(code, n, d);
      InsertBlock(d);
    }

    /** The comparison of a case; goes on in the block for its body. */
    method StartCase(kind: IntType, rs: seq<Range>, ghost base: State, ghost aimed: bool, ghost after: BlockId)
      returns (nextCase: BlockId)
      requires AtCase(base, View(), aimed, after)
      modifies `code, `next, `at
      ensures CaseStarted(base, old(View()), View(), aimed, after, kind, rs) && nextCase == old(next) + 1
      ensures old(at in code)
      ensures View() == Inserted(Appended(old(View()).(next := old(next) + 2), CaseCode(old(View()), kind, rs)), old(next))
    {
      hide Ready, Sound, Tidy, Grown, Contains, Dangling, LoopsGrow, Sim, Has, Linked, Built, Going, Appended, Inserted,
           AtCase, CaseStarted;
      ghost var v := View();
      AtCaseReady(base, v, aimed, after);
      var handle := CreateBlock();
      nextCase := CreateBlock();
      ghost var s0 := View();
      Append([Compare(kind, rs)] + [CondBr(handle, nextCase)]);
      InsertBlock(handle);
      CaseStart(base, v, s0, View(), aimed, after, kind, rs);
    }

    /** The comparison and the body of one case; goes on in the block for the next one. */
    method BuildCase(kind: IntType, c: Case, after: BlockId, ghost base: State, ghost aimed: bool)
      returns (nextCase: BlockId, t: bool, ghost h: State, ghost q: State, ghost y: State)
      requires kind.Valid() && c.ranges.Some? && AtCase(base, View(), aimed, after)
      modifies this
      ensures old(at in code) && CaseStarted(base, old(View()), h, aimed, after, kind, c.ranges.value) && h.at in h.code
      ensures h.frames != []
      ensures Built(h, q, t, []) && q.at in q.code && (!q.errors ==> Sim(h, q, t, Nested(c.body)))
      ensures y == Joined(q, t, after) && View() == Inserted(y, old(next) + 1) && nextCase == at == old(next) + 1
      ensures AtCase(base, View(), aimed || !t, after) && NewSince(old(View()), View()) && at in code
      ensures frames == old(frames)
      ensures Told(old(errors), old(loops), errors, loops, t, JudgeBlock(c.body, Around(old(loops)), rules))
      decreases c, 0
    {
      hide Told, JudgeBlock, Ready, Sound, Tidy, Grown, Contains, Dangling, LoopsGrow, Sim, Has, Linked, Built, Going,
           Appended, Inserted, AtCase, CaseStarted, NewSince;
      ghost var v := View();
      AtCaseReady(base, v, aimed, after);
      nextCase := StartCase(kind, c.ranges.value, base, aimed, after);
      h := View();
      CaseStartedReady(base, v, h, aimed, after, kind, c.ranges.value);
      t := BuildBlock(c.body);
      q := View();
      BuiltLoops(h, q, t, []);
      ExtendNone(h.frames);
      if !t { Append([Br(after)]); }
      y := View();
      InsertBlock(nextCase);
      CaseEnds(base, v, h, q, y, View(), aimed, t, after, kind, c.ranges.value);
      AtCaseReady(base, View(), aimed || !t, after);
      CaseIsNew(v, h, q, y, View(), t, after, kind, c.ranges.value);
    }

    /** The comparisons and bodies of all cases but the default one. */
    method BuildCases(kind: IntType, cases: seq<Case>, after: BlockId, ghost base: State, ghost aimed: bool)
      returns (last: Option<BlockId>, terminal: bool)
      requires kind.Valid() && CasesValid(kind, cases) && AtCase(base, View(), aimed, after)
      modifies this
      ensures ChainBuilt(base, old(View()), View(), aimed, after, terminal, last)
      ensures last.None? ==> forall k :: 0 <= k < |cases| ==> cases[k].ranges.None?
      ensures old(frames) != [] && old(at in code)
      ensures !errors ==> ChainSim(old(View()), View().code, kind, cases, ChainOut(View(), terminal, after, old(frames)), at, |code[at]|)
      ensures Told(old(errors), old(loops), errors, loops, terminal, JudgeCases(cases, Around(old(loops)), rules))
      decreases cases, 0
    {
      hide Judge, JudgeCases, Both, Told, JudgeBlock, Ready, Sound, Tidy, Grown, Contains, Dangling, LoopsGrow, Sim,
           Has, Linked, Built, Going, Appended, Inserted, AtCase, CaseStarted, ChainSim, ChainBuilt, NewSince;
      ghost var v := View();
      AtCaseReady(base, v, aimed, after);
      CasesJudged(cases, Around(loops), rules);
      if cases == [] {
        ChainStart(base, v, aimed, after, kind);
        ToldEnds(errors, loops);
        return None, true;
      }
      if cases[0].ranges.None? {
        last, terminal := BuildCases(kind, cases[1..], after, base, aimed);
        ChainFacts(base, v, View(), aimed, after, terminal, last);
        if !errors { SkipDefaultRule(v, View().code, kind, cases, ChainOut(View(), terminal, after, v.frames), at, |code[at]|); }
        return;
      }
      var c := cases[0];
      assert c in cases && c.body < c;
      var nextCase, t, h, q, y := BuildCase(kind, c, after, base, aimed);
      ghost var v' := View();
      var rest;
      last, rest := BuildCases(kind, cases[1..], after, base, aimed || !t);
      ChainFacts(base, v', View(), aimed || !t, after, rest, last);
      ChainMore(base, v, h, q, y, v', View(), aimed, t, rest, after, last, kind, cases);
      terminal := t && rest;
      ToldTwice(v.errors, v.loops, v'.errors, v'.loops, errors, loops, t, rest, JudgeBlock(c.body, Around(v.loops), rules),
                JudgeCases(cases[1..], Around(v'.loops), rules), JudgeCases(cases[1..], Around(v.loops), rules), terminal);
      last := Some(if last.Some? then last.value else nextCase);
    }

    /** Reports the errors of a switch before any of its branches is built. */
    method CheckSwitch(kind: IntType, cases: seq<Case>) returns (ok: bool)
      ensures ok <==> SwitchOk(kind, cases)
    {
      ok := kind.Valid() && CasesValid(kind, cases) && SingleDefault(cases);
      if ok {
        AllRangesValid(kind, cases);
        ok := CheckRanges(kind, AllRanges(cases), DefaultCase(cases).Some?);
      }
    }

    method BuildSwitch(s: Stmt) returns (terminal: bool)
      requires Ready(View()) && s.Switch?
      modifies this
      ensures Built(old(View()), View(), terminal, [])
      ensures !errors ==> Sim(old(View()), View(), terminal, One(s))
      ensures Told(old(errors), old(loops), errors, loops, terminal, Judge(s, Around(old(loops)), rules))
      decreases s.cases, 2
    {
      hide Told, JudgeBlock, JudgeCases, Ready, Sound, Tidy, Grown, Contains, Dangling, LoopsGrow, Sim, Has, Linked,
           Built, Going, Appended, Inserted, AtCase, ChainSim, ChainBuilt, NewSince;
      ghost var a := View();
      ReadyFacts(a);
      terminal := false;
      var ok := CheckSwitch(s.kind, s.cases);
      if !ok {
        ReportError();
        ToldWrong(a.errors, loops, false);
        ErrorBuilt(a, false);
        return;
      }
      BuildInTemporaryFrame(s.e, [Read(s.e.id, s.kind)]);
      ghost var p := View();
      SwitchPrologue(a, p, s);
      var after := CreateBlock();
      var k := DefaultCase(s.cases);
      if k.Some? {
        terminal := BuildDefaultSwitch(s, after, k.value, a, p);
        return;
      }
      ghost var v := View();
      FirstCase(p, v, 1);
      var last;
      last, terminal := BuildCases(s.kind, s.cases, after, p, false);
      ghost var z := View();
      PartitionHasCase(s.kind, s.cases);
      ChainFacts(p, v, z, false, after, terminal, last);
      ReplaceBlock(last.value, after);
      ghost var u := View();
      if terminal { Append([Unreachable]); }
      SwitchEnds(a, p, v, z, u, View(), terminal, last.value, s);
    }

    /** A switch with a default case, which is built after all others. */
    method BuildDefaultSwitch(s: Stmt, after: BlockId, k: nat, ghost a: State, ghost p: State) returns (terminal: bool)
      requires s.Switch? && s.kind.Valid() && CasesValid(s.kind, s.cases) && DefaultCase(s.cases) == Some(k)
      requires Ready(a) && a.at in a.code && a.frames != [] && p == Appended(a, ReadCode(s.e, s.kind))
      requires View() == p.(next := p.next + 1) && after == p.next
      requires errors == a.errors && loops == a.loops
      modifies this
      ensures Built(a, View(), terminal, [])
      ensures !errors ==> Sim(a, View(), terminal, One(s))
      ensures Told(a.errors, a.loops, errors, loops, terminal,
                   Both(JudgeCases(s.cases, Around(a.loops), rules), JudgeBlock(s.cases[k].body, Around(a.loops), rules)))
      decreases s.cases, 1
    {
      hide Judge, Both, SwitchOk, Told, JudgeBlock, JudgeCases, Ready, Sound, Tidy, Grown, Contains, Dangling,
           LoopsGrow, Sim, Has, Linked, Built, Going, Appended, Inserted, AtCase, ChainSim, ChainBuilt, NewSince,
           DefaultEnded;
      SwitchPrologue(a, p, s);
      var def := CreateBlock();
      ghost var v := View();
      FirstCase(p, v, 2);
      var last, t := BuildCases(s.kind, s.cases, after, p, false);
      ghost var z := View();
      ChainFacts(p, v, z, false, after, t, last);
      DefaultIsNew(v, z, def);
      EnterDefault(last, def);
      ghost var d := View();
      DefaultStart(a, p, v, z, d, t, last, s);
      var c := s.cases[k];
      assert c in s.cases && c.body < c;
      var td, q, y := BuildDefaultBody(c.body, after, t, p);
      terminal := t && td;
      ToldTwice(a.errors, a.loops, z.errors, z.loops, errors, loops, t, td, JudgeCases(s.cases, Around(a.loops), rules),
                JudgeBlock(c.body, Around(d.loops), rules), JudgeBlock(c.body, Around(a.loops), rules), terminal);
      SwitchDefaultEnds(a, p, v, z, d, q, y, View(), t, td, last, k, s);
    }

    /** The last comparison leads to the default block, or the switch itself does. */
    method EnterDefault(last: Option<BlockId>, def: BlockId)
      requires at in code
      modifies `code, `at
      ensures View() == if last.None? then Inserted(Appended(old(View()), [Br(def)]), def) else Rerouted(old(View()), last.value, def)
    {
      if last.None? {
        Append([Br(def)]);
        InsertBlock(def);
      } else {
        ReplaceBlock(last.value, def);
      }
    }

    /** The body of the default case, and the block after the switch if anything leads there. */
    method BuildDefaultBody(body: Block, after: BlockId, t: bool, ghost p: State)
      returns (td: bool, ghost q: State, ghost y: State)
      requires Ready(View())
      modifies this
      ensures old(frames) != [] && old(at in code)
      ensures Built(old(View()), q, td, []) && q.at in q.code && (!q.errors ==> Sim(old(View()), q, td, Nested(body)))
      ensures DefaultEnded(p, q, y, View(), td, t && td, after) && errors == q.errors
      ensures Told(old(errors), old(loops), errors, loops, td, JudgeBlock(body, Around(old(loops)), rules))
      decreases body, 2
    {
      hide Told, JudgeBlock, Ready, Sound, Tidy, Grown, Contains, Dangling, LoopsGrow, Sim, Built, Appended, Inserted,
           DefaultEnded;
      ghost var d := View();
      ReadyFacts(d);
      td := BuildBlock(body);
      q := View();
      BuiltLoops(d, q, td, []);
      if !td { Append([Br(after)]); }
      y := View();
      if !(t && td) {
        InsertBlock(after);
      } else if after in AllTargets(code) {
        InsertBlock(after);
        Append([Unreachable]);
      }
      DefaultEnds(p, q, y, View(), td, t && td, after);
    }
  }
}
