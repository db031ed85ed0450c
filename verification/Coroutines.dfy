/**
 * Coroutines as basic blocks, and a machine in which an outside schedule resumes
 * and destroys one coroutine, which may itself create, resume and destroy another.
 *
 * What the machine shows to the outside is its trace: the effects of both
 * coroutines, and when the outer one is suspended, completed, released or halted.
 */
module Coroutines {

  import opened Options

  type Id = nat

  /** An effect, the call that creates the inner coroutine, and its destructor call. */
  datatype Op = Emit(id: nat) | Start | Drop

  datatype Exit =
    | Goto(to: Id)
    | Branch(test: nat, yes: Id, no: Id)
    | Fixed(value: bool, yes: Id, no: Id)          // a branch on a constant
    | IfDone(yes: Id, no: Id)                      // a branch on "the inner coroutine is done"
    | Resume(done: Id, notDone: Id)                // resume the inner coroutine, then branch on "done"
    | Switch(suspend: Id, normal: Id, destroy: Id) // a suspension point
    | Final(suspend: Id, cleanup: Id)              // the final suspension point
    | Return                                       // the end of the suspend block
    | Halt

  datatype Block = Block(ops: seq<Op>, exit: Exit)

  type Body = map<Id, Block>

  datatype Event = Did(id: nat) | Suspended | Completed | Released | Halted

  type Trace = seq<Event>

  datatype Env = Env(test: (nat, Trace) -> bool)

  /** A coroutine that runs, is suspended, completed, released, stopped the program, or went wrong. */
  datatype Act = Going(code: Block) | Parked(normal: Id, destroy: Id) | AtEnd(cleanup: Id) | Gone | Stopped | Bad

  datatype Action = ToResume | ToDestroy

  /** The trace, the number of outside actions used up, and both coroutines. */
  datatype Machine = Machine(tr: Trace, used: nat, caller: Act, callee: Option<Act>)

  datatype Program = Program(caller: Body, callee: Body, entry: Id)

  function Enter(b: Body, t: Id): Act {
    if t in b then Going(b[t]) else Bad
  }

  /** Suspension returns through a block that does nothing else. */
  predicate Returns(b: Body, t: Id) {
    t in b && b[t] == Block([], Return)
  }

  datatype Moved = Moved(tr: Trace, act: Act)

  function Told(tr: Trace, outer: bool, ev: Event): Trace {
    if outer then tr + [ev] else tr
  }

  /** One step of a coroutine by itself. */
  function Move(b: Body, env: Env, tr: Trace, code: Block, outer: bool): Moved {
    if code.ops != [] then
      if code.ops[0].Emit? then Moved(tr + [Did(code.ops[0].id)], Going(code.(ops := code.ops[1..])))
      else Moved(tr, Bad)
    else
      match code.exit
      case Goto(t) => Moved(tr, Enter(b, t))
      case Branch(id, yes, no) => Moved(tr, Enter(b, if env.test(id, tr) then yes else no))
      case Fixed(v, yes, no) => Moved(tr, Enter(b, if v then yes else no))
      case Switch(s, n, d) => if Returns(b, s) then Moved(Told(tr, outer, Suspended), Parked(n, d)) else Moved(tr, Bad)
      case Final(s, c) => if Returns(b, s) then Moved(Told(tr, outer, Completed), AtEnd(c)) else Moved(tr, Bad)
      case Return => Moved(Told(tr, outer, Released), Gone)
      case Halt => Moved(tr + [Halted], Stopped)
      case IfDone(_, _) => Moved(tr, Bad)
      case Resume(_, _) => Moved(tr, Bad)
  }

  predicate Running(s: Machine) {
    s.callee.Some? && s.callee.value.Going?
  }

  /** While the inner coroutine runs the outer one waits; otherwise the outer one runs, or the schedule acts on it. */
  function Step(p: Program, env: Env, plan: nat -> Action, s: Machine): Machine {
    if s.caller.Stopped? || s.caller.Bad? || s.caller.Gone? then s
    else if Running(s) then
      var m := Move(p.callee, env, s.tr, s.callee.value.code, false);
      if m.act.Stopped? || m.act.Bad? then s.(tr := m.tr, caller := m.act) else s.(tr := m.tr, callee := Some(m.act))
    else
      match s.caller
      case Going(code) => CallerStep(p, env, s)
      case Parked(n, d) => s.(used := s.used + 1, caller := Enter(p.caller, if plan(s.used).ToResume? then n else d))
      case AtEnd(c) => s.(used := s.used + 1, caller := if plan(s.used).ToResume? then Bad else Enter(p.caller, c))
  }

  function CallerStep(p: Program, env: Env, s: Machine): Machine
    requires s.caller.Going?
  {
    var code := s.caller.code;
    if code.ops != [] && code.ops[0].Start? then
      if s.callee.Some? && !s.callee.value.Gone? then s.(caller := Bad)
      else s.(caller := Going(code.(ops := code.ops[1..])), callee := Some(Enter(p.callee, p.entry)))
    else if code.ops != [] && code.ops[0].Drop? then
      if s.callee.Some? && s.callee.value.Parked? then
        s.(caller := Going(code.(ops := code.ops[1..])), callee := Some(Enter(p.callee, s.callee.value.destroy)))
      else if s.callee.Some? && s.callee.value.AtEnd? then
        s.(caller := Going(code.(ops := code.ops[1..])), callee := Some(Enter(p.callee, s.callee.value.cleanup)))
      else s.(caller := Bad)
    else if code.ops == [] && code.exit.IfDone? then
      if s.callee.None? then s.(caller := Bad)
      else s.(caller := Enter(p.caller, if s.callee.value.AtEnd? then code.exit.yes else code.exit.no))
    else if code.ops == [] && code.exit.Resume? then
      if s.callee.Some? && s.callee.value.Parked? then
        s.(caller := Going(Block([], IfDone(code.exit.done, code.exit.notDone))), callee := Some(Enter(p.callee, s.callee.value.normal)))
      else s.(caller := Bad)
    else
      var m := Move(p.caller, env, s.tr, code, true);
      s.(tr := m.tr, caller := m.act)
  }

  function Run(p: Program, env: Env, plan: nat -> Action, n: nat, s: Machine): Machine {
    if n == 0 then s else Run(p, env, plan, n - 1, Step(p, env, plan, s))
  }

  lemma {:induction false} RunAdd(p: Program, env: Env, plan: nat -> Action, n: nat, m: nat, s: Machine)
    ensures Run(p, env, plan, n + m, s) == Run(p, env, plan, m, Run(p, env, plan, n, s))
  {
    if n > 0 { RunAdd(p, env, plan, n - 1, m, Step(p, env, plan, s)); }
  }

  /** The call that creates the outer coroutine. */
  function Created(p: Program, entry: Id): Machine {
    Machine([], 0, Enter(p.caller, entry), None)
  }

  /** The machine will not do anything any more. */
  predicate Over(s: Machine) {
    s.caller.Stopped? || s.caller.Bad? || s.caller.Gone?
  }

  lemma {:induction false} RunOver(p: Program, env: Env, plan: nat -> Action, n: nat, s: Machine)
    requires Over(s)
    ensures Run(p, env, plan, n, s) == s
  {
    if n > 0 { RunOver(p, env, plan, n - 1, s); }
  }

  lemma StepGrows(p: Program, env: Env, plan: nat -> Action, s: Machine)
    ensures s.tr <= Step(p, env, plan, s).tr
  {
  }

  lemma {:induction false} RunGrows(p: Program, env: Env, plan: nat -> Action, n: nat, s: Machine)
    ensures s.tr <= Run(p, env, plan, n, s).tr
  {
    if n > 0 {
      StepGrows(p, env, plan, s);
      RunGrows(p, env, plan, n - 1, Step(p, env, plan, s));
    }
  }
}
