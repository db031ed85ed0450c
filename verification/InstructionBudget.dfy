/**
 * The interpreter's execution loop.  What instructions do to the interpreted
 * program is arbitrary: loops, recursion and resumed coroutines of any kind.
 * One counter for all nested loops makes every program stop.
 */
module InstructionBudget {

  import opened Options

  datatype Callee<I> = Callee(incomplete: bool, entry: Option<I>)

  /** What an instruction does, besides changing the program's state. */
  datatype Outcome<W, I> =
    | Goes(world: W, next: Option<I>)
    | Calls(world: W, callee: Callee<I>, next: Option<I>)
    | Resumes(world: W, at: Option<I>, next: Option<I>)
    | Returns(world: W)
    | Fails(world: W)

  datatype Limits = Limits(maxInstructions: nat, maxDepth: nat)

  /** Instructions counted so far, nested calls, and the count at the first error. */
  datatype Vm<W> = Vm(world: W, executed: nat, depth: nat, fault: Option<nat>)

  function Fault<W>(s: Vm<W>): (r: Vm<W>)
    ensures r.fault.Some? && r.executed == s.executed && r.depth == s.depth
  {
    if s.fault.Some? then s else s.(fault := Some(s.executed))
  }

  /** The most that is ever counted. */
  function Limit(limits: Limits, executed: nat): nat {
    if executed + 1 < limits.maxInstructions then limits.maxInstructions else executed + 1
  }

  /** Nothing is counted any more after an error. */
  ghost predicate Stopped<W>(s: Vm<W>) {
    s.fault.Some? ==> s.executed == s.fault.value
  }

  /** The loop, from an instruction on. */
  function Loop<W, I>(sem: (W, I) -> Outcome<W, I>, limits: Limits, s: Vm<W>, at: Option<I>): (r: Vm<W>)
    requires Stopped(s)
    ensures Stopped(r) && r.depth == s.depth && (s.fault.Some? ==> r == s)
    ensures s.executed <= r.executed <= Limit(limits, s.executed)
    ensures r.executed >= limits.maxInstructions && r.executed > s.executed ==> r.fault.Some?
    decreases Limit(limits, s.executed) - s.executed, 1
  {
    if s.fault.Some? then s
    else if at.None? then Fault(s)
    else
      var s := s.(executed := s.executed + 1);
      if s.executed >= limits.maxInstructions then Fault(s)
      else
        match sem(s.world, at.value)
        case Goes(w, next) => Loop(sem, limits, s.(world := w), next)
        case Calls(w, f, next) =>
          var inner := Call(sem, limits, s.(world := w, depth := s.depth + 1), f);
          Loop(sem, limits, inner.(depth := inner.depth - 1), next)
        case Resumes(w, entry, next) =>
          var inner := Loop(sem, limits, s.(world := w, depth := s.depth + 1), entry);
          Loop(sem, limits, inner.(depth := inner.depth - 1), next)
        case Returns(w) => s.(world := w)
        case Fails(w) => Fault(s.(world := w))
  }

  /** A call: functions without a body, and calls nested too deeply, are errors. */
  function Call<W, I>(sem: (W, I) -> Outcome<W, I>, limits: Limits, s: Vm<W>, f: Callee<I>): (r: Vm<W>)
    requires Stopped(s)
    ensures Stopped(r) && r.depth == s.depth && (s.fault.Some? ==> r == s)
    ensures s.executed <= r.executed <= Limit(limits, s.executed)
    ensures r.executed >= limits.maxInstructions && r.executed > s.executed ==> r.fault.Some?
    decreases Limit(limits, s.executed) - s.executed, 2
  {
    if f.incomplete || f.entry.None? || s.depth >= limits.maxDepth then Fault(s)
    else Loop(sem, limits, s, f.entry)
  }

  function Left(limits: Limits, executed: nat): nat {
    Limit(limits, executed) - executed
  }

  lemma LimitNext(limits: Limits, executed: nat)
    ensures executed + 1 < limits.maxInstructions ==> Left(limits, executed + 1) < Left(limits, executed)
    ensures Left(limits, executed + 1) <= Left(limits, executed) || executed + 1 >= limits.maxInstructions
  {
  }

  /** The state in which an instruction that does not end the loop leaves it. */
  function Effect<W, I>(sem: (W, I) -> Outcome<W, I>, limits: Limits, s: Vm<W>, o: Outcome<W, I>): (r: Vm<W>)
    requires s.fault.None? && !o.Returns? && !o.Fails?
    ensures Stopped(r) && r.executed >= s.executed
  {
    match o
    case Goes(w, _) => s.(world := w)
    case Calls(w, f, _) =>
      var inner := Call(sem, limits, s.(world := w, depth := s.depth + 1), f);
      inner.(depth := inner.depth - 1)
    case Resumes(w, entry, _) =>
      var inner := Loop(sem, limits, s.(world := w, depth := s.depth + 1), entry);
      inner.(depth := inner.depth - 1)
  }

  lemma LoopUnfolds<W, I>(sem: (W, I) -> Outcome<W, I>, limits: Limits, s: Vm<W>, at: Option<I>)
    requires Stopped(s)
    ensures s.fault.Some? ==> Loop(sem, limits, s, at) == s
    ensures s.fault.None? && at.None? ==> Loop(sem, limits, s, at) == Fault(s)
    ensures s.fault.None? && at.Some? ==>
      var s1 := s.(executed := s.executed + 1);
      if s1.executed >= limits.maxInstructions then Loop(sem, limits, s, at) == Fault(s1)
      else
        var o := sem(s.world, at.value);
        Loop(sem, limits, s, at) ==
          if o.Returns? then s1.(world := o.world)
          else if o.Fails? then Fault(s1.(world := o.world))
          else Loop(sem, limits, Effect(sem, limits, s1, o), o.next)
  {
  }

  // ----- a machine with a stack of return points -----

  /** One instruction at a time; the stack holds where to go on after each return, innermost last. */
  datatype Machine<W, I> =
    | Running(world: W, executed: nat, at: Option<I>, stack: seq<Option<I>>)
    | Ended(world: W, executed: nat)
    | Failed(world: W, executed: nat)

  function Popped<W, I>(w: W, executed: nat, stack: seq<Option<I>>): Machine<W, I> {
    if stack == [] then Ended(w, executed) else Running(w, executed, stack[|stack| - 1], stack[..|stack| - 1])
  }

  /** One step; without limits it is the program alone that decides.  "outer" calls are around the whole run. */
  function Next<W, I>(sem: (W, I) -> Outcome<W, I>, limits: Option<Limits>, outer: nat, m: Machine<W, I>): Machine<W, I> {
    if !m.Running? then m
    else if m.at.None? then Failed(m.world, m.executed)
    else
      var n := m.executed + 1;
      if limits.Some? && n >= limits.value.maxInstructions then Failed(m.world, n)
      else
        match sem(m.world, m.at.value)
        case Goes(w, next) => Running(w, n, next, m.stack)
        case Calls(w, f, next) =>
          if f.incomplete || f.entry.None? || (limits.Some? && outer + |m.stack| + 1 >= limits.value.maxDepth) then Failed(w, n)
          else Running(w, n, f.entry, m.stack + [next])
        case Resumes(w, entry, next) => Running(w, n, entry, m.stack + [next])
        case Returns(w) => Popped(w, n, m.stack)
        case Fails(w) => Failed(w, n)
  }

  function Steps<W, I>(sem: (W, I) -> Outcome<W, I>, limits: Option<Limits>, outer: nat, n: nat, m: Machine<W, I>): Machine<W, I> {
    if n == 0 then m else Steps(sem, limits, outer, n - 1, Next(sem, limits, outer, m))
  }

  lemma {:induction false} StepsAdd<W, I>(sem: (W, I) -> Outcome<W, I>, limits: Option<Limits>, outer: nat, n: nat,
                                          k: nat, m: Machine<W, I>)
    ensures Steps(sem, limits, outer, n + k, m) == Steps(sem, limits, outer, k, Steps(sem, limits, outer, n, m))
  {
    if n > 0 { StepsAdd(sem, limits, outer, n - 1, k, Next(sem, limits, outer, m)); }
  }

  lemma {:induction false} StepsStay<W, I>(sem: (W, I) -> Outcome<W, I>, limits: Option<Limits>, outer: nat, n: nat,
                                           m: Machine<W, I>)
    requires !m.Running?
    ensures Steps(sem, limits, outer, n, m) == m
  {
    if n > 0 { StepsStay(sem, limits, outer, n - 1, m); }
  }

  /** How a nested run that started with this stack looks from outside. */
  function OutOf<W, I>(r: Vm<W>, stack: seq<Option<I>>): Machine<W, I> {
    if r.fault.Some? then Failed(r.world, r.executed) else Popped(r.world, r.executed, stack)
  }

  predicate Refused<I>(limits: Limits, depth: nat, f: Callee<I>) {
    f.incomplete || f.entry.None? || depth >= limits.maxDepth
  }

  /** The nested loop that an instruction leads to, if any. */
  lemma EffectIs<W, I>(sem: (W, I) -> Outcome<W, I>, limits: Limits, s: Vm<W>, o: Outcome<W, I>)
    requires s.fault.None? && !o.Returns? && !o.Fails?
    ensures o.Goes? ==> Effect(sem, limits, s, o) == s.(world := o.world)
    ensures o.Calls? && Refused(limits, s.depth + 1, o.callee) ==> Effect(sem, limits, s, o) == Fault(s.(world := o.world))
    ensures o.Resumes? || (o.Calls? && !Refused(limits, s.depth + 1, o.callee)) ==>
      var inner := Loop(sem, limits, s.(world := o.world, depth := s.depth + 1),
                        if o.Resumes? then o.at else o.callee.entry);
      Effect(sem, limits, s, o) == inner.(depth := inner.depth - 1)
  {
    hide Loop;
  }

  /** The recursive loop does what the machine does, step by step. */
  lemma {:induction false} LoopSteps<W, I>(sem: (W, I) -> Outcome<W, I>, limits: Limits, outer: nat, s: Vm<W>, at: Option<I>,
                                           stack: seq<Option<I>>) returns (n: nat)
    requires s.fault.None? && s.depth == outer + |stack|
    ensures Steps(sem, Some(limits), outer, n, Running(s.world, s.executed, at, stack)) == OutOf(Loop(sem, limits, s, at), stack)
    decreases Limit(limits, s.executed) - s.executed, 1
  {
    hide Loop, Call, Effect;
    LoopUnfolds(sem, limits, s, at);
    var m := Running(s.world, s.executed, at, stack);
    if at.None? || s.executed + 1 >= limits.maxInstructions { return 1; }
    var s1, o := s.(executed := s.executed + 1), sem(s.world, at.value);
    if o.Returns? || o.Fails? { return 1; }
    EffectIs(sem, limits, s1, o);
    if o.Goes? {
      n := LoopSteps(sem, limits, outer, s1.(world := o.world), o.next, stack);
      n := n + 1;
    } else if o.Resumes? {
      n := NestedSteps(sem, limits, outer, s1.(world := o.world), o.at, o.next, stack);
    } else if Refused(limits, s1.depth + 1, o.callee) {
      LoopUnfolds(sem, limits, Fault(s1.(world := o.world)), o.next);
      return 1;
    } else {
      n := NestedSteps(sem, limits, outer, s1.(world := o.world), o.callee.entry, o.next, stack);
    }
  }

  /** A call or resume, and what follows it; together with the instruction that led to it. */
  lemma {:induction false} NestedSteps<W, I>(sem: (W, I) -> Outcome<W, I>, limits: Limits, outer: nat, s: Vm<W>, entry: Option<I>,
                                             next: Option<I>, stack: seq<Option<I>>) returns (n: nat)
    requires s.fault.None? && s.depth == outer + |stack| && 0 < s.executed < limits.maxInstructions
    ensures n > 0
    ensures var inner := Loop(sem, limits, s.(depth := s.depth + 1), entry);
            Steps(sem, Some(limits), outer, n - 1, Running(s.world, s.executed, entry, stack + [next])) ==
            OutOf(Loop(sem, limits, inner.(depth := inner.depth - 1), next), stack)
    decreases Limit(limits, s.executed - 1) - (s.executed - 1), 0
  {
    hide Loop;
    var m, inner := Running(s.world, s.executed, entry, stack + [next]), Loop(sem, limits, s.(depth := s.depth + 1),
                            entry);
    var k := LoopSteps(sem, limits, outer, s.(depth := s.depth + 1), entry, stack + [next]);
    var back := inner.(depth := inner.depth - 1);
    if inner.fault.Some? {
      LoopUnfolds(sem, limits, back, next);
      n := k + 1;
    } else {
      assert (stack + [next])[..|stack|] == stack;
      var j := LoopSteps(sem, limits, outer, back, next, stack);
      StepsAdd(sem, Some(limits), outer, k, j, m);
      n := k + j + 1;
    }
  }

  /** The machine before the first instruction of a function. */
  function Start<W, I>(limits: Limits, world: W, executed: nat, outer: nat, f: Callee<I>): Machine<W, I> {
    if f.incomplete || f.entry.None? || outer >= limits.maxDepth then Failed(world, executed) else Running(world, executed, f.entry, [])
  }

  /** As long as the machine runs, every step is counted, and the limit is not reached. */
  lemma {:induction false} RunningCounts<W, I>(sem: (W, I) -> Outcome<W, I>, limits: Limits, outer: nat, n: nat,
                                               m: Machine<W, I>)
    ensures var r := Steps(sem, Some(limits), outer, n, m);
            r.Running? && n > 0 ==> m.Running? && r.executed == m.executed + n && r.executed < limits.maxInstructions
  {
    var m1 := Next(sem, Some(limits), outer, m);
    if n > 1 { RunningCounts(sem, limits, outer, n - 1, m1); }
    if n > 0 && !m1.Running? { StepsStay(sem, Some(limits), outer, n - 1, m1); }
  }

  /** The loop ends as the machine ends, which it has done after that many steps. */
  lemma LoopIsMachine<W, I>(sem: (W, I) -> Outcome<W, I>, limits: Limits, s: Vm<W>, at: Option<I>)
    requires s.fault.None?
    ensures Steps(sem, Some(limits), s.depth, limits.maxInstructions + 1, Running(s.world, s.executed, at, [])) ==
            OutOf(Loop(sem, limits, s, at), [])
  {
    hide Loop;
    var m, r := Running(s.world, s.executed, at, []), OutOf(Loop(sem, limits, s, at), []);
    var k := limits.maxInstructions + 1;
    var n := LoopSteps(sem, limits, s.depth, s, at, []);
    RunningCounts(sem, limits, s.depth, k, m);
    if n <= k {
      StepsAdd(sem, Some(limits), s.depth, n, k - n, m);
      StepsStay(sem, Some(limits), s.depth, k - n, r);
    } else {
      StepsAdd(sem, Some(limits), s.depth, k, n - k, m);
      StepsStay(sem, Some(limits), s.depth, n - k, Steps(sem, Some(limits), s.depth, k, m));
    }
  }

  lemma CallIsMachine<W, I>(sem: (W, I) -> Outcome<W, I>, limits: Limits, s: Vm<W>, f: Callee<I>)
    requires s.fault.None?
    ensures Steps(sem, Some(limits), s.depth, limits.maxInstructions + 1, Start(limits, s.world, s.executed, s.depth, f)) ==
            OutOf(Call(sem, limits, s, f), [])
  {
    hide Loop;
    var m := Start(limits, s.world, s.executed, s.depth, f);
    if m.Running? { LoopIsMachine(sem, limits, s, f.entry); } else { StepsStay(sem, Some(limits), s.depth, limits.maxInstructions + 1, m); }
  }

  /** Every program stops, with at most the configured number of instructions counted in all calls together. */
  lemma EveryProgramStops<W, I>(sem: (W, I) -> Outcome<W, I>, limits: Limits, world: W, f: Callee<I>)
    requires limits.maxInstructions > 0
    ensures var m := Steps(sem, Some(limits), 0, limits.maxInstructions + 1, Start(limits, world, 0, 0, f));
            && !m.Running? && m.executed <= limits.maxInstructions
            && (m.executed == limits.maxInstructions ==> m.Failed?)
            && OutOf(Call(sem, limits, Vm(world, 0, 0, None), f), []) == m
    ensures var r := Call(sem, limits, Vm(world, 0, 0, None), f); r.fault.Some? ==> r.fault == Some(r.executed)
  {
    CallIsMachine(sem, limits, Vm(world, 0, 0, None), f);
  }

  // ----- functions that never return -----

  /** While the machine with limits has not failed, it does what the machine without them does. */
  lemma {:induction false} LimitsOnlyFail<W, I>(sem: (W, I) -> Outcome<W, I>, limits: Limits, outer: nat, n: nat,
                                                m: Machine<W, I>)
    ensures var r := Steps(sem, Some(limits), outer, n, m); !r.Failed? ==> r == Steps(sem, None, outer, n, m)
  {
    if n > 0 {
      var m1 := Next(sem, Some(limits), outer, m);
      LimitsOnlyFail(sem, limits, outer, n - 1, m1);
      if m1.Failed? { StepsStay(sem, Some(limits), outer, n - 1, m1); }
    }
  }

  /** The same machine with more return points below its own, and more instructions counted before. */
  function Above<W, I>(m: Machine<W, I>, base: seq<Option<I>>, count: nat): Machine<W, I> {
    match m
    case Running(w, n, at, stack) => Running(w, n + count, at, base + stack)
    case Ended(w, n) => Popped(w, n + count, base)
    case Failed(w, n) => Failed(w, n + count)
  }

  /** A run that has not come to its own end does not look at what is below its stack. */
  lemma {:induction false} StepsAbove<W, I>(sem: (W, I) -> Outcome<W, I>, outer: nat, n: nat, m: Machine<W, I>, base: seq<Option<I>>,
                                            count: nat)
    requires forall k: nat :: k < n ==> !Steps(sem, None, outer, k, m).Ended?
    ensures Steps(sem, None, outer, n, Above(m, base, count)) == Above(Steps(sem, None, outer, n, m), base, count)
  {
    if n > 0 {
      assert !Steps(sem, None, outer, 0, m).Ended?;
      var m1 := Next(sem, None, outer, m);
      forall k: nat | k < n - 1 ensures !Steps(sem, None, outer, k, m1).Ended? { assert !Steps(sem, None, outer, k + 1, m).Ended?; }
      StepsAbove(sem, outer, n - 1, m1, base, count);
      NextAbove(sem, outer, m, base, count);
    }
  }

  lemma NextAbove<W, I>(sem: (W, I) -> Outcome<W, I>, outer: nat, m: Machine<W, I>, base: seq<Option<I>>, count: nat)
    requires !m.Ended?
    ensures Next(sem, None, outer, Above(m, base, count)) == Above(Next(sem, None, outer, m), base, count)
  {
    if m.Running? && m.at.Some? {
      match sem(m.world, m.at.value)
      case Calls(w, f, next) => assert base + (m.stack + [next]) == base + m.stack + [next];
      case Resumes(w, entry, next) => assert base + (m.stack + [next]) == base + m.stack + [next];
      case Returns(w) =>
        if m.stack == [] {
          assert base + m.stack == base;
        } else {
          assert (base + m.stack)[..|base + m.stack| - 1] == base + m.stack[..|m.stack| - 1];
        }
      case _ =>
    }
  }

  /** Run by itself, with nothing to stop it, the code never returns. */
  ghost predicate NeverReturns<W, I>(sem: (W, I) -> Outcome<W, I>, world: W, at: Option<I>) {
    forall n: nat :: !Steps(sem, None, 0, n, Running(world, 0, at, [])).Ended?
  }

  lemma {:induction false} OuterIsForLimits<W, I>(sem: (W, I) -> Outcome<W, I>, outer: nat, n: nat, m: Machine<W, I>)
    ensures Steps(sem, None, outer, n, m) == Steps(sem, None, 0, n, m)
  {
    if n > 0 { OuterIsForLimits(sem, outer, n - 1, Next(sem, None, outer, m)); }
  }

  /** Once a run, at whatever depth, has got into code that never returns, it ends in an error. */
  lemma NoReturnMeansError<W, I>(sem: (W, I) -> Outcome<W, I>, limits: Limits, s: Vm<W>, f: Callee<I>, j: nat)
    requires s.fault.None?
    requires var m := Steps(sem, Some(limits), s.depth, j, Start(limits, s.world, s.executed, s.depth, f));
             m.Running? && NeverReturns(sem, m.world, m.at)
    ensures Call(sem, limits, s, f).fault.Some?
  {
    var start, k := Start(limits, s.world, s.executed, s.depth, f), limits.maxInstructions + 1;
    var m := Steps(sem, Some(limits), s.depth, j, start);
    CallIsMachine(sem, limits, s, f);
    RunningCounts(sem, limits, s.depth, j, start);
    StepsAdd(sem, Some(limits), s.depth, j, k, start);
    StepsAdd(sem, Some(limits), s.depth, k, j, start);
    StepsStay(sem, Some(limits), s.depth, j, Steps(sem, Some(limits), s.depth, k, start));
    var alone := Running(m.world, 0, m.at, []);
    assert m == Above(alone, m.stack, m.executed);
    StepsAbove(sem, 0, k, alone, m.stack, m.executed);
    OuterIsForLimits(sem, s.depth, k, m);
    LimitsOnlyFail(sem, limits, s.depth, k, m);
    var last := Steps(sem, None, 0, k, alone);
    assert !last.Ended? && !Above(last, m.stack, m.executed).Ended?;
  }

  lemma {:induction false} SpinSteps<W, I>(sem: (W, I) -> Outcome<W, I>, i: I, n: nat, m: Machine<W, I>)
    requires m.Running? && m.at == Some(i) && forall w :: sem(w, i).Goes? && sem(w, i).next == Some(i)
    ensures Steps(sem, None, 0, n, m).Running?
  {
    if n > 0 { SpinSteps(sem, i, n - 1, Next(sem, None, 0, m)); }
  }

  /** A function that calls one which jumps to itself for ever, or resumes there, ends in an error. */
  lemma CallingASpinFails<W, I>(sem: (W, I) -> Outcome<W, I>, limits: Limits, s: Vm<W>, first: I, i: I)
    requires s.fault.None? && forall w :: sem(w, i).Goes? && sem(w, i).next == Some(i)
    requires var o := sem(s.world, first); (o.Calls? && o.callee == Callee(false, Some(i))) || (o.Resumes? && o.at == Some(i))
    ensures Call(sem, limits, s, Callee(false, Some(first))).fault.Some?
  {
    var f, o := Callee(false, Some(first)), sem(s.world, first);
    var start := Start(limits, s.world, s.executed, s.depth, f);
    var m := Next(sem, Some(limits), s.depth, start);
    CallIsMachine(sem, limits, s, f);
    if m.Running? {
      forall n: nat ensures !Steps(sem, None, 0, n, Running(m.world, 0, m.at, [])).Ended? {
        SpinSteps(sem, i, n, Running(m.world, 0, m.at, []));
      }
      assert Steps(sem, Some(limits), s.depth, 1, start) == m;
      NoReturnMeansError(sem, limits, s, f, 1);
    } else {
      StepsStay(sem, Some(limits), s.depth, limits.maxInstructions, m);
    }
  }

  /** A call that returns: the callee begins with the caller's state, and the caller goes on with the callee's. */
  lemma CallThenReturn<W, I>(sem: (W, I) -> Outcome<W, I>, limits: Limits, s: Vm<W>, a: I, b: I, c: I, w1: W, w2: W,
                             w3: W)
    requires s.fault.None? && s.executed + 3 < limits.maxInstructions && s.depth + 1 < limits.maxDepth
    requires sem(s.world, a) == Calls(w1, Callee(false, Some(b)), Some(c)) || sem(s.world, a) == Resumes(w1, Some(b), Some(c))
    requires sem(w1, b) == Returns(w2) && sem(w2, c) == Returns(w3)
    ensures Call(sem, limits, s, Callee(false, Some(a))) == s.(world := w3, executed := s.executed + 3)
  {
    hide Loop;
    var s1 := s.(world := w1, executed := s.executed + 1);
    LoopUnfolds(sem, limits, s, Some(a));
    LoopUnfolds(sem, limits, s1.(depth := s.depth + 1), Some(b));
    LoopUnfolds(sem, limits, s1.(world := w2, executed := s.executed + 2), Some(c));
  }

  // ----- the interpreter itself -----

  class Interpreter<W, I> {

    const sem: (W, I) -> Outcome<W, I>
    const limits: Limits
    var world: W
    var executed: nat
    var callDepth: nat
    var failed: bool
    ghost var fault: Option<nat>

    ghost function View(): Vm<W>
      reads this
    {
      Vm(world, executed, callDepth, fault)
    }

    ghost predicate Valid()
      reads this
    {
      Stopped(View()) && (failed <==> fault.Some?)
    }

    constructor (sem: (W, I) -> Outcome<W, I>, limits: Limits, world: W)
      ensures Valid() && View() == Vm(world, 0, 0, None) && this.sem == sem && this.limits == limits
    {
      this.sem, this.limits, this.world := sem, limits, world;
      executed, callDepth, failed, fault := 0, 0, false, None;
    }

    method ReportError()
      requires Valid()
      modifies this
      ensures Valid() && View() == Fault(old(View()))
    {
      if fault.None? { fault := Some(executed); }
      failed := true;
    }

    method CallFunction(f: Callee<I>)
      requires Valid()
      modifies this
      ensures Valid() && View() == Call(sem, limits, old(View()), f)
      ensures !old(failed) ==>
        OutOf(View(), []) ==
        Steps(sem, Some(limits), callDepth, limits.maxInstructions + 1, Start(limits, old(world), old(executed), callDepth, f))
      decreases Limit(limits, executed) - executed, 2
    {
      if !failed { CallIsMachine(sem, limits, View(), f); }
      if f.incomplete || f.entry.None? || callDepth >= limits.maxDepth {
        ReportError();
        return;
      }
      CallFunctionImpl(f.entry);
    }

    /** Runs instructions until the function returns or an error is recorded. */
    method CallFunctionImpl(start: Option<I>)
      requires Valid()
      modifies this
      ensures Valid() && View() == Loop(sem, limits, old(View()), start)
      ensures !old(failed) ==>
        OutOf(View(), []) ==
        Steps(sem, Some(limits), callDepth, limits.maxInstructions + 1, Running(old(world), old(executed), start, []))
      decreases Limit(limits, executed) - executed, 1
    {
      hide Loop, Call, Limit, Steps, Next, OutOf, Effect;
      if !failed { LoopIsMachine(sem, limits, View(), start); }
      ghost var r := Loop(sem, limits, View(), start);
      var at, returned := start, false;
      LoopUnfolds(sem, limits, View(), at);
      while !failed && !returned
        invariant Valid() && executed >= old(executed)
        invariant Left(limits, executed) <= Left(limits, old(executed))
        invariant if returned then View() == r else Loop(sem, limits, View(), at) == r
        decreases Left(limits, executed), if failed || returned then 0 else 1
      {
        LoopUnfolds(sem, limits, View(), at);
        if at.None? {
          ReportError();
          break;
        }
        LimitNext(limits, executed);
        executed := executed + 1;
        if executed >= limits.maxInstructions {
          ReportError();
          break;
        }
        at, returned := Execute(at.value);
      }
      LoopUnfolds(sem, limits, View(), at);
    }

    /** One instruction, with the calls and resumes it leads to. */
    method Execute(i: I) returns (next: Option<I>, returned: bool)
      requires Valid() && !failed
      modifies this
      ensures Valid() && executed >= old(executed) && Left(limits, executed) <= Left(limits, old(executed))
      ensures var s, o := old(View()), sem(old(world), i);
              if returned then
                (o.Returns? || o.Fails?) && View() == if o.Fails? then Fault(s.(world := o.world)) else s.(world := o.world)
              else !o.Returns? && !o.Fails? && next == o.next && View() == Effect(sem, limits, s, o)
      ensures var s, o := old(View()), sem(old(world), i);
              && (o.Goes? ==> View() == s.(world := o.world))
              && (o.Calls? ==> View() == Call(sem, limits, s.(world := o.world, depth := s.depth + 1), o.callee).(depth := s.depth))
              && (o.Resumes? ==> View() == Loop(sem, limits, s.(world := o.world, depth := s.depth + 1), o.at).(depth := s.depth))
      decreases Limit(limits, executed) - executed, 3
    {
      hide Loop, Call;
      returned := false;
      next := None;
      match sem(world, i) {
        case Goes(w, to) =>
          world := w;
          next := to;
        case Calls(w, f, to) =>
          world := w;
          callDepth := callDepth + 1;
          CallFunction(f);
          callDepth := callDepth - 1;
          next := to;
        case Resumes(w, entry, to) =>
          world := w;
          callDepth := callDepth + 1;
          CallFunctionImpl(entry);
          callDepth := callDepth - 1;
          next := to;
        case Returns(w) =>
          world := w;
          returned := true;
        case Fails(w) =>
          world := w;
          ReportError();
          returned := true;
      }
    }
  }
}
