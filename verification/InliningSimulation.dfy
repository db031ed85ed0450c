/**
 * Inlining an awaited coroutine keeps what every outside schedule of resume and
 * destroy can observe.
 */
module InliningSimulation {

  import opened Options
  import opened Coroutines
  import opened AsyncInlining

  /** In the caller: no coroutine object, one that was never resumed, or one that is done. */
  datatype Mode = Absent | Fresh | Finished

  /** In the callee: before its initial suspension, after it, or on the way to its end when destroyed. */
  datatype Region = Early | Main | Ending

  datatype Labels = Labels(mode: map<Id, Mode>, region: map<Id, Region>)

  /** Which code of both coroutines runs, and what else is known then. */
  datatype Phase = InCaller(m: Mode) | ParkedIn(m: Mode) | EndIn(m: Mode) | Starting | Resuming | Killing | Waiting | Finis

  /** What operations make of the coroutine object. */
  function After(ops: seq<Op>, m: Mode): Option<Mode> {
    if ops == [] then Some(m)
    else
      match ops[0]
      case Emit(_) => After(ops[1..], m)
      case Start => if m.Absent? then After(ops[1..], Fresh) else None
      case Drop => if m.Finished? then After(ops[1..], Absent) else None
  }

  /** An inlining, the entry of the caller, and everything a run depends on. */
  datatype Inlining = Inlining(site: Site, begin: Id, l: Labels, env: Env, plan: nat -> Action)
  {
    ghost function Before(): Program {
      Program(site.f, site.c.blocks, site.c.entry)
    }

    ghost function New(): Body
      requires site.Shape()
    {
      site.Inlined()
    }

    ghost function Afterwards(): Program
      requires site.Shape()
    {
      Program(New(), map[], 0)
    }

    // ----- discipline of the caller -----

    predicate ToMode(t: Id, m: Mode) {
      t in site.f && t !in site.Removed() && t != site.point.destroy && t in l.mode && l.mode[t] == m
    }

    predicate ExitOk(e: Exit, m: Mode) {
      match e
      case Goto(t) => ToMode(t, m)
      case Branch(_, yes, no) => ToMode(yes, m) && ToMode(no, m)
      case Fixed(_, yes, no) => ToMode(yes, m) && ToMode(no, m)
      case IfDone(_, no) => m.Fresh? && no == site.w.loop
      case Resume(_, _) => false
      case Switch(s, n, d) => s == site.suspend && ToMode(n, m) && ToMode(d, m)
      case Final(s, c) => s == site.suspend && ToMode(c, m)
      case Return => true
      case Halt => true
    }

    predicate CodeOk(b: Block, m: Mode) {
      After(b.ops, m).Some? && ExitOk(b.exit, After(b.ops, m).value)
    }

    /** The block that destroys a suspended callee, after its destructor call. */
    function DestroyCode(): Block
      requires site.Shape()
    {
      var b := site.f[site.point.destroy];
      b.(ops := b.ops[1..])
    }

    ghost predicate CallerOk()
      requires site.Shape()
    {
      && (forall b :: b in site.f && b !in site.Removed() && b != site.point.destroy ==> b in l.mode && CodeOk(site.f[b], l.mode[b]))
      && CodeOk(DestroyCode(), Absent)
      && ToMode(site.loop.done, Finished)
      && (forall b, i :: b in site.f && 0 <= i < |site.f[b].ops| && site.f[b].ops[i].Start? ==> b == site.w.at && i == site.w.k)
    }

    // ----- discipline of the callee -----

    predicate ToRegion(t: Id, r: Region) {
      if t in site.c.blocks && t !in site.Special() && t in l.region && l.region[t] == r then true
      else
        match r
        case Early => t == site.c.prepare || t == site.c.initial
        case Main => t == site.c.final
        case Ending => t == site.c.cleanup
    }

    predicate CalleeExitOk(e: Exit, r: Region) {
      match e
      case Goto(t) => ToRegion(t, r)
      case Branch(_, yes, no) => ToRegion(yes, r) && ToRegion(no, r)
      case Fixed(_, yes, no) => ToRegion(yes, r) && ToRegion(no, r)
      case Switch(s, n, d) => r.Main? && s == site.c.suspend && ToRegion(n, Main) && ToRegion(d, Ending)
      case Halt => true
      case _ => false
    }

    predicate CalleeCodeOk(b: Block, r: Region) {
      (forall i :: 0 <= i < |b.ops| ==> b.ops[i].Emit?) && CalleeExitOk(b.exit, r)
    }

    ghost predicate CalleeOk()
      requires site.Shape()
    {
      && (forall b :: b in site.c.blocks && b !in site.Special() ==> b in l.region && CalleeCodeOk(site.c.blocks[b], l.region[b]))
      && ToRegion(site.c.entry, Early) && site.c.entry !in site.Special()
      && ToRegion(site.first.normal, Main) && site.first.normal !in site.Special()
    }

    /** Everything the inlining relies on. */
    ghost predicate Ok() {
      site.Shape() && CallerOk() && CalleeOk()
    }

    // ----- both machines side by side -----

    predicate Fits(callee: Option<Act>, m: Mode) {
      match m
      case Absent => callee.None? || callee == Some(Gone)
      case Fresh => callee == Some(Parked(site.first.normal, site.first.destroy))
      case Finished => callee == Some(AtEnd(site.c.cleanup))
    }

    /** Code with the call still ahead is an end of the block with the call. */
    predicate Rooted(b: Block)
      requires site.Shape()
    {
      Start in b.ops ==>
        var at := site.f[site.w.at];
        && |at.ops| - site.w.k <= |b.ops| <= |at.ops| && b.exit == at.exit
        && b.ops == at.ops[|at.ops| - |b.ops|..]
    }

    /** The same place in both programs, except that destructor calls of the object may come first. */
    ghost predicate Near(s: Machine, t: Machine, m: Mode)
      requires site.Shape()
    {
      && s.tr == t.tr && s.used == t.used && t.callee.None?
      && s.caller.Going? && CodeOk(s.caller.code, m) && Rooted(s.caller.code) && Fits(s.callee, m)
      && t.caller == Going(site.CallerCode(s.caller.code))
    }

    ghost predicate InStep(s: Machine, t: Machine, ph: Phase)
      requires site.Shape()
    {
      && s.tr == t.tr && s.used == t.used && t.callee.None?
      && match ph
         case InCaller(m) => Near(s, t, m) && !(s.caller.code.ops != [] && s.caller.code.ops[0].Drop?)
         case ParkedIn(m) =>
           s.caller.Parked? && ToMode(s.caller.normal, m) && ToMode(s.caller.destroy, m) && Fits(s.callee, m) && t.caller == s.caller
         case EndIn(m) => s.caller.AtEnd? && ToMode(s.caller.cleanup, m) && Fits(s.callee, m) && t.caller == s.caller
         case Starting => s.caller == Going(site.RestCode()) && InCallee(s, t, Early)
         case Resuming => s.caller == Going(Block([], IfDone(site.loop.done, site.loop.notDone))) && InCallee(s, t, Main)
         case Killing => s.caller == Going(DestroyCode()) && InCallee(s, t, Ending)
         case Waiting =>
           && s.caller == Parked(site.point.normal, site.point.destroy)
           && s.callee.Some? && s.callee.value.Parked?
           && ToRegion(s.callee.value.normal, Main) && ToRegion(s.callee.value.destroy, Ending)
           && t.caller == Parked(site.ToCallee(s.callee.value.normal), site.ToCallee(s.callee.value.destroy))
         case Finis => Over(s) && t.caller == s.caller
    }

    ghost predicate InCallee(s: Machine, t: Machine, r: Region) {
      && Running(s) && CalleeCodeOk(s.callee.value.code, r)
      && t.caller == Going(site.CalleeCode(s.callee.value.code))
    }

    ghost function Orig(n: nat, s: Machine): Machine {
      Run(Before(), env, plan, n, s)
    }

    // ----- blocks of the new body -----

    lemma CallerBlock(t: Id)
      requires site.Shape() && t in site.f && t !in site.Removed()
      ensures t in New() && New()[t] == site.CallerCode(site.f[t])
    {
    }

    lemma CalleeBlock(t: Id)
      requires site.Shape() && t in site.c.blocks && t !in site.Special()
      ensures t in New() && New()[t] == site.CalleeCode(site.c.blocks[t])
    {
    }

    lemma RestBlock()
      requires site.Shape()
      ensures site.rest in New() && New()[site.rest] == site.CallerCode(site.RestCode())
    {
    }

    /** Where jumps to the special blocks of the callee lead now. */
    lemma Redirections()
      requires site.Shape()
      ensures site.ToCallee(site.c.prepare) == site.ToCallee(site.c.initial) == site.rest
      ensures site.ToCallee(site.c.suspend) == site.suspend
      ensures site.ToCallee(site.c.final) == site.loop.done && site.ToCallee(site.c.cleanup) == site.point.destroy
      ensures forall t :: t !in site.Special() ==> site.ToCallee(t) == t
    {
    }

    lemma Ordinary(t: Id, r: Region)
      requires Ok() && ToRegion(t, r) && t != site.c.prepare && t != site.c.initial && t != site.c.final
      requires t != site.c.cleanup
      ensures t in site.c.blocks && CalleeCodeOk(site.c.blocks[t], r) && site.ToCallee(t) == t
      ensures t in New() && New()[t] == site.CalleeCode(site.c.blocks[t])
    {
      CalleeBlock(t);
    }

    lemma Apart()
      requires site.Shape()
      ensures site.c.prepare != site.c.final && site.c.prepare != site.c.cleanup && site.c.initial != site.c.final
      ensures site.c.initial != site.c.cleanup && site.c.final != site.c.cleanup
    {
    }

    lemma RegionBlocks(t: Id, r: Region)
      requires site.Shape() && ToRegion(t, r)
      ensures t in site.c.blocks
    {
    }

    lemma EntryFacts()
      requires Ok()
      ensures ToRegion(site.c.entry, Early) && site.c.entry in site.c.blocks
      ensures site.ToCallee(site.c.entry) == site.c.entry
      ensures ToRegion(site.first.normal, Main) && site.ToCallee(site.first.normal) == site.first.normal
    {
    }

    lemma DestroyFacts()
      requires Ok()
      ensures CodeOk(DestroyCode(), Absent) && site.point.destroy in site.f && site.point.destroy !in site.Removed()
      ensures ToMode(site.loop.done, Finished)
    {
    }

    // ----- silent steps of the original -----

    /** One step, then some more. */
    lemma Next(s: Machine, s': Machine, j: nat)
      requires Step(Before(), env, plan, s) == s'
      ensures Orig(j + 1, s) == Orig(j, s') && Orig(0, s') == s'
    {
    }

    lemma Stay(s: Machine)
      ensures Orig(0, s) == s
    {
    }

    lemma Then(s: Machine, i: nat, j: nat)
      ensures Orig(i + j, s) == Orig(j, Orig(i, s))
    {
      RunAdd(Before(), env, plan, i, j, s);
    }

    /** The end of a coroutine, from its cleanup block. */
    lemma CleanupRuns(s: Machine) returns (j: nat)
      requires site.Shape() && s.callee == Some(Going(site.c.blocks[site.c.cleanup])) && s.caller.Going?
      ensures Orig(j, s) == s.(callee := Some(Gone))
    {
      var c := site.c;
      var s2 := s.(callee := Some(Going(c.blocks[c.suspend])));
      Next(s2, s.(callee := Some(Gone)), 0);
      if env.test(c.blocks[c.cleanup].exit.test, s.tr) {
        var s1 := s.(callee := Some(Going(c.blocks[c.free])));
        Next(s1, s2, 1);
        Next(s, s1, 2);
        j := 3;
      } else {
        Next(s, s2, 1);
        j := 2;
      }
    }

    /** The initial suspension, from the initial suspension point. */
    lemma InitialParks(s: Machine)
      requires site.Shape() && s.callee == Some(Going(site.c.blocks[site.c.initial])) && s.caller.Going?
      ensures Orig(1, s) == s.(callee := Some(Parked(site.first.normal, site.first.destroy)))
    {
      Next(s, s.(callee := Some(Parked(site.first.normal, site.first.destroy))), 0);
    }

    lemma PrepareParks(s: Machine) returns (j: nat)
      requires site.Shape() && s.callee == Some(Going(site.c.blocks[site.c.prepare])) && s.caller.Going?
      ensures Orig(j, s) == s.(callee := Some(Parked(site.first.normal, site.first.destroy)))
    {
      var c := site.c;
      var s1 := s.(callee := Some(Going(c.blocks[c.begin])));
      var s2 := s.(callee := Some(Going(c.blocks[c.initial])));
      InitialParks(s2);
      Next(s1, s2, 1);
      if env.test(c.blocks[c.prepare].exit.test, s.tr) {
        var s0 := s.(callee := Some(Going(c.blocks[c.alloc])));
        Next(s0, s1, 2);
        Next(s, s0, 3);
        j := 4;
      } else {
        Next(s, s1, 2);
        j := 3;
      }
    }

    /** The final suspension, after which the await loop ends. */
    lemma FinalCompletes(s: Machine)
      requires site.Shape() && s.callee == Some(Going(site.c.blocks[site.c.final]))
      requires s.caller == Going(Block([], IfDone(site.loop.done, site.loop.notDone)))
      ensures Orig(2, s) == s.(caller := Enter(site.f, site.loop.done), callee := Some(AtEnd(site.c.cleanup)))
    {
      var s1 := s.(callee := Some(AtEnd(site.c.cleanup)));
      Next(s1, s1.(caller := Enter(site.f, site.loop.done)), 0);
      Next(s, s1, 1);
    }

    // ----- arriving somewhere -----

    /** Code without its first operation, which is not the call. */
    lemma ShorterCode(b: Block)
      requires b.ops != [] && !b.ops[0].Start?
      ensures var b' := b.(ops := b.ops[1..]);
              && (Start in b'.ops <==> Start in b.ops)
              && site.CallerCode(b').exit == site.CallerCode(b).exit
              && site.CallerCode(b).ops == (if b.ops[0].Drop? then [] else [b.ops[0]]) + site.CallerCode(b').ops
    {
      assert b.ops == [b.ops[0]] + b.ops[1..];
      assert Start in b.ops <==> Start in b.ops[1..];
    }

    lemma ShorterRooted(b: Block)
      requires site.Shape() && Rooted(b) && b.ops != [] && !b.ops[0].Start? && Start in b.ops
      ensures Rooted(b.(ops := b.ops[1..]))
    {
      hide Site.CallerCode;
      var at := site.f[site.w.at];
      assert b.ops[0] == at.ops[|at.ops| - |b.ops|];
      assert b.ops[1..] == at.ops[|at.ops| - |b.ops| + 1..];
    }

    lemma Shorter(b: Block)
      requires site.Shape() && Rooted(b) && b.ops != [] && !b.ops[0].Start?
      ensures var b' := b.(ops := b.ops[1..]);
              && Rooted(b')
              && site.CallerCode(b').exit == site.CallerCode(b).exit
              && site.CallerCode(b).ops == (if b.ops[0].Drop? then [] else [b.ops[0]]) + site.CallerCode(b').ops
    {
      hide Site.Shape, Site.CallerCode;
      ShorterCode(b);
      if Start in b.ops { ShorterRooted(b); }
    }

    /** The destructor call of a completed coroutine starts its end, and takes the object away. */
    lemma DropStep(s: Machine, m: Mode)
      requires site.Shape() && s.caller.Going? && CodeOk(s.caller.code, m) && Fits(s.callee, m)
      requires s.caller.code.ops != [] && s.caller.code.ops[0].Drop?
      ensures m == Finished && CodeOk(s.caller.code.(ops := s.caller.code.ops[1..]), Absent)
      ensures Step(Before(), env, plan, s) ==
        s.(caller := Going(s.caller.code.(ops := s.caller.code.ops[1..])), callee := Some(Going(site.c.blocks[site.c.cleanup])))
    {
      hide ExitOk;
    }

    /** With no object there is no destructor call. */
    lemma NoDrop(b: Block)
      requires CodeOk(b, Absent)
      ensures !(b.ops != [] && b.ops[0].Drop?)
    {
      hide ExitOk;
    }

    /** Destructor calls of a completed coroutine do nothing that can be seen. */
    lemma Settle(s: Machine, t: Machine, m: Mode) returns (j: nat, ph: Phase)
      requires Ok() && Near(s, t, m)
      ensures InStep(Orig(j, s), t, ph)
    {
      hide CallerOk, CalleeOk, Rooted, Run, Step, ExitOk, CodeOk, Site.Shape, Site.CallerCode;
      var code := s.caller.code;
      if code.ops != [] && code.ops[0].Drop? {
        DropStep(s, m);
        var s1 := Step(Before(), env, plan, s);
        var i := CleanupRuns(s1);
        Next(s, s1, i);
        j, ph := i + 1, InCaller(Absent);
        Shorter(code);
        NoDrop(code.(ops := code.ops[1..]));
        assert site.CallerCode(code.(ops := code.ops[1..])) == site.CallerCode(code);
      } else {
        Stay(s);
        j, ph := 0, InCaller(m);
      }
    }

    /** A jump of the caller. */
    lemma ArriveInCaller(s: Machine, t: Machine, to: Id, m: Mode) returns (j: nat, ph: Phase)
      requires Ok() && ToMode(to, m) && Fits(s.callee, m)
      requires s.tr == t.tr && s.used == t.used && t.callee.None?
      requires s.caller == Enter(site.f, to) && t.caller == Enter(New(), to)
      ensures InStep(Orig(j, s), t, ph)
    {
      CallerBlock(to);
      if Start in site.f[to].ops {
        var i :| 0 <= i < |site.f[to].ops| && site.f[to].ops[i].Start?;
        assert to == site.w.at;
        assert site.f[to].ops[0..] == site.f[to].ops;
      }
      assert Near(s, t, m);
      j, ph := Settle(s, t, m);
    }

    /** The callee reaches its initial suspension, and the caller goes on. */
    lemma Suspends(s: Machine, t: Machine, i: nat) returns (j: nat, ph: Phase)
      requires Ok() && s.tr == t.tr && s.used == t.used && t.callee.None?
      requires s.caller == Going(site.RestCode()) && t.caller == Enter(New(), site.rest)
      requires Orig(i, s) == s.(callee := Some(Parked(site.first.normal, site.first.destroy)))
      ensures InStep(Orig(j, s), t, ph)
    {
      RestBlock();
      RestOk();
      var s1 := Orig(i, s);
      assert Near(s1, t, Fresh);
      var k;
      k, ph := Settle(s1, t, Fresh);
      Then(s, i, k);
      j := i + k;
    }

    lemma {:induction false} AfterAppend(ops: seq<Op>, ops': seq<Op>, m: Mode)
      requires After(ops + ops', m).Some?
      ensures After(ops, m).Some? && After(ops', After(ops, m).value) == After(ops + ops', m)
    {
      if ops == [] {
        assert ops + ops' == ops';
      } else {
        assert (ops + ops')[0] == ops[0] && (ops + ops')[1..] == ops[1..] + ops';
        var m' := match ops[0] case Emit(_) => m case Start => Fresh case Drop => Absent;
        AfterAppend(ops[1..], ops', m');
      }
    }

    /** After the call the object is there. */
    lemma AfterStart(ops: seq<Op>, k: nat, m: Mode)
      requires k < |ops| && ops[k].Start? && After(ops, m).Some?
      ensures After(ops[k + 1..], Fresh) == After(ops, m)
    {
      assert ops == ops[..k] + ([Start] + ops[k + 1..]);
      AfterAppend(ops[..k], [Start] + ops[k + 1..], m);
      assert ([Start] + ops[k + 1..])[1..] == ops[k + 1..];
    }

    /** After the call, the object is there and was never resumed. */
    lemma RestOk()
      requires Ok()
      ensures CodeOk(site.RestCode(), Fresh) && Rooted(site.RestCode())
    {
      hide CalleeOk, ExitOk, After;
      var at, k := site.f[site.w.at], site.w.k;
      if site.w.at == site.point.destroy {
        assert DestroyCode().ops[k - 1] == at.ops[k] && DestroyCode().ops[k..] == at.ops[k + 1..];
        AfterStart(DestroyCode().ops, k - 1, Absent);
      } else {
        AfterStart(at.ops, k, l.mode[site.w.at]);
      }
      OneStart();
    }

    lemma OneStart()
      requires Ok()
      ensures Start !in site.RestCode().ops
    {
      hide CalleeOk, CodeOk;
      var at, k := site.f[site.w.at], site.w.k;
      forall i | k + 1 <= i < |at.ops| ensures !at.ops[i].Start? { }
    }

    /** A jump of the callee before its initial suspension. */
    lemma ArriveEarly(s: Machine, t: Machine, to: Id) returns (j: nat, ph: Phase)
      requires Ok() && ToRegion(to, Early) && s.tr == t.tr && s.used == t.used && t.callee.None?
      requires s.caller == Going(site.RestCode())
      requires s.callee == Some(Enter(site.c.blocks, to)) && t.caller == Enter(New(), site.ToCallee(to))
      ensures InStep(Orig(j, s), t, ph)
    {
      if to == site.c.prepare {
        var i := PrepareParks(s);
        j, ph := Suspends(s, t, i);
      } else if to == site.c.initial {
        InitialParks(s);
        j, ph := Suspends(s, t, 1);
      } else {
        Ordinary(to, Early);
        Stay(s);
        j, ph := 0, Starting;
      }
    }

    /** The callee completes, and the await loop ends. */
    lemma Completes(s: Machine, t: Machine) returns (j: nat, ph: Phase)
      requires Ok() && s.tr == t.tr && s.used == t.used && t.callee.None?
      requires s.caller == Going(Block([], IfDone(site.loop.done, site.loop.notDone)))
      requires s.callee == Some(Going(site.c.blocks[site.c.final])) && t.caller == Enter(New(), site.loop.done)
      ensures InStep(Orig(j, s), t, ph)
    {
      hide CallerOk, CalleeOk, Run, Step, InStep, Site.Shape, Enter;
      FinalCompletes(s);
      DestroyFacts();
      var s2 := Orig(2, s);
      var i;
      i, ph := ArriveInCaller(s2, t, site.loop.done, Finished);
      Then(s, 2, i);
      j := i + 2;
    }

    /** A jump of the callee while the caller's await loop waits for it. */
    lemma ArriveMain(s: Machine, t: Machine, to: Id) returns (j: nat, ph: Phase)
      requires Ok() && ToRegion(to, Main) && s.tr == t.tr && s.used == t.used && t.callee.None?
      requires s.caller == Going(Block([], IfDone(site.loop.done, site.loop.notDone)))
      requires s.callee == Some(Enter(site.c.blocks, to)) && t.caller == Enter(New(), site.ToCallee(to))
      ensures InStep(Orig(j, s), t, ph)
    {
      hide CallerOk, CalleeOk, Rooted, Run, Step, Site.ToCallee, CalleeCodeOk, Site.CalleeCode, Site.CallerCode;
      Redirections();
      DestroyFacts();
      Apart();
      if to == site.c.final {
        j, ph := Completes(s, t);
      } else {
        Ordinary(to, Main);
        Stay(s);
        j, ph := 0, Resuming;
      }
    }

    /** The callee is destroyed, and the caller goes on destroying. */
    lemma Destroyed(s: Machine, t: Machine) returns (j: nat, ph: Phase)
      requires Ok() && s.tr == t.tr && s.used == t.used && t.callee.None? && s.caller == Going(DestroyCode())
      requires s.callee == Some(Going(site.c.blocks[site.c.cleanup])) && t.caller == Enter(New(), site.point.destroy)
      ensures InStep(Orig(j, s), t, ph)
    {
      hide CallerOk, CalleeOk, Run, Step, Rooted, CodeOk, Site.Shape;
      DestroyFacts();
      var i := CleanupRuns(s);
      var s1 := Orig(i, s);
      CallerBlock(site.point.destroy);
      DestroyIsEnd();
      assert Near(s1, t, Absent);
      var k;
      k, ph := Settle(s1, t, Absent);
      Then(s, i, k);
      j := i + k;
    }

    /** A jump of the callee while it is being destroyed. */
    lemma ArriveEnding(s: Machine, t: Machine, to: Id) returns (j: nat, ph: Phase)
      requires Ok() && ToRegion(to, Ending) && s.tr == t.tr && s.used == t.used && t.callee.None?
      requires s.caller == Going(DestroyCode())
      requires s.callee == Some(Enter(site.c.blocks, to)) && t.caller == Enter(New(), site.ToCallee(to))
      ensures InStep(Orig(j, s), t, ph)
    {
      hide CallerOk, CalleeOk, Rooted, Run, Step, Site.ToCallee, CalleeCodeOk, Site.CalleeCode, Site.CallerCode;
      Redirections();
      DestroyFacts();
      Apart();
      if to == site.c.cleanup {
        j, ph := Destroyed(s, t);
      } else {
        Ordinary(to, Ending);
        Stay(s);
        j, ph := 0, Killing;
      }
    }

    lemma DestroyIsEnd()
      requires Ok()
      ensures Rooted(DestroyCode()) && site.CallerCode(DestroyCode()) == site.CallerCode(site.f[site.point.destroy])
    {
      var d := site.f[site.point.destroy];
      if Start in d.ops {
        var i :| 0 <= i < |d.ops| && d.ops[i].Start?;
        assert site.point.destroy == site.w.at;
        assert d.ops[0..] == d.ops;
      }
      Shorter(d);
    }

    // ----- one step of the new program -----

    ghost function Follow(t: Machine): Machine
      requires site.Shape()
    {
      Step(Afterwards(), env, plan, t)
    }

    /** The original takes one step, and then what it takes to be in step again. */
    lemma After1(s: Machine, s': Machine, t: Machine, i: nat, ph: Phase)
      requires site.Shape() && Step(Before(), env, plan, s) == s' && InStep(Orig(i, s'), t, ph)
      ensures InStep(Orig(i + 1, s), t, ph)
    {
      Next(s, s', i);
    }

    lemma CallerEmits(s: Machine, t: Machine, m: Mode) returns (j: nat, ph: Phase)
      requires Ok() && InStep(s, t, InCaller(m)) && s.caller.code.ops != [] && s.caller.code.ops[0].Emit?
      ensures j > 0 && InStep(Orig(j, s), Follow(t), ph)
    {
      hide CallerOk, CalleeOk, Run, Site.Shape, Site.CallerCode, Rooted, ExitOk;
      var code := s.caller.code;
      Shorter(code);
      var s1, t1 := Step(Before(), env, plan, s), Follow(t);
      assert s1.caller == Going(code.(ops := code.ops[1..])) && s1.tr == s.tr + [Did(code.ops[0].id)] && s1.callee == s.callee;
      assert site.CallerCode(code).ops[0] == code.ops[0] && site.CallerCode(code).ops[1..] == site.CallerCode(code.(ops := code.ops[1..])).ops;
      assert Near(s1, t1, m);
      var i;
      i, ph := Settle(s1, t1, m);
      After1(s, s1, t1, i, ph);
      j := i + 1;
    }

    lemma StartIs(b: Block)
      requires Ok() && Rooted(b) && b.ops != [] && b.ops[0].Start?
      ensures b.(ops := b.ops[1..]) == site.RestCode() && site.CallerCode(b) == Block([], Goto(site.c.entry))
    {
      var at := site.f[site.w.at];
      assert Start in b.ops;
      assert b.ops[0] == at.ops[|at.ops| - |b.ops|];
      assert |at.ops| - |b.ops| == site.w.k;
    }

    lemma CallerStarts(s: Machine, t: Machine, m: Mode) returns (j: nat, ph: Phase)
      requires Ok() && InStep(s, t, InCaller(m)) && s.caller.code.ops != [] && s.caller.code.ops[0].Start?
      ensures j > 0 && InStep(Orig(j, s), Follow(t), ph)
    {
      hide Run, ExitOk, Rooted, CallerOk, Site.CallerCode, CalleeOk, ToRegion, Site.ToCallee, Site.Shape, Site.Inlined;
      StartIs(s.caller.code);
      EntryFacts();
      var s1, t1 := Step(Before(), env, plan, s), Follow(t);
      var i;
      i, ph := ArriveEarly(s1, t1, site.c.entry);
      After1(s, s1, t1, i, ph);
      j := i + 1;
    }

    /** The await loop is entered: the original resumes the callee for the first time. */
    lemma CallerAwaits(s: Machine, t: Machine, m: Mode) returns (j: nat, ph: Phase)
      requires Ok() && InStep(s, t, InCaller(m)) && s.caller.code.ops == [] && s.caller.code.exit.IfDone?
      ensures j > 0 && InStep(Orig(j, s), Follow(t), ph)
    {
      hide Run, Rooted, CallerOk, CalleeOk, ToRegion, Site.ToCallee, Site.Shape, Site.Inlined;
      EntryFacts();
      LoopIs();
      var s1, t1 := Step(Before(), env, plan, s), Follow(t);
      assert s1 == s.(caller := Going(site.f[site.w.loop]));
      var i;
      i, ph := LoopResumes(s1, t1, site.first.normal);
      After1(s, s1, t1, i, ph);
      j := i + 1;
    }

    lemma LoopIs()
      requires site.Shape()
      ensures site.w.loop in site.f && site.f[site.w.loop] == Block([], Resume(site.loop.done, site.loop.notDone))
    {
    }

    lemma LoopResumes(s: Machine, t: Machine, n: Id) returns (j: nat, ph: Phase)
      requires Ok() && s.tr == t.tr && s.used == t.used && t.callee.None?
      requires s.caller == Going(site.f[site.w.loop]) && s.callee.Some? && s.callee.value.Parked?
      requires s.callee.value.normal == n
      requires ToRegion(n, Main) && t.caller == Enter(New(), site.ToCallee(n))
      ensures InStep(Orig(j, s), t, ph)
    {
      hide CallerOk, CalleeOk, Run, ToRegion, Site.ToCallee, Site.Shape, Site.Inlined, Enter;
      LoopIs();
      var s1 := Step(Before(), env, plan, s);
      var i;
      i, ph := ArriveMain(s1, t, n);
      After1(s, s1, t, i, ph);
      j := i + 1;
    }

    lemma SuspendReturns()
      requires site.Shape()
      ensures Returns(site.f, site.suspend) && Returns(New(), site.suspend)
      ensures site.ToCaller(site.suspend) == site.suspend
    {
      CallerBlock(site.suspend);
    }

    /** The block that a jump of the caller leads to. */
    function JumpTarget(e: Exit, tr: Trace): Id
      requires e.Goto? || e.Branch? || e.Fixed?
    {
      match e
      case Goto(to) => to
      case Branch(id, yes, no) => if env.test(id, tr) then yes else no
      case Fixed(v, yes, no) => if v then yes else no
    }

    lemma CallerJumps(s: Machine, t: Machine, m: Mode) returns (j: nat, ph: Phase)
      requires Ok() && InStep(s, t, InCaller(m)) && s.caller.code.ops == []
      requires s.caller.code.exit.Goto? || s.caller.code.exit.Branch? || s.caller.code.exit.Fixed?
      ensures j > 0 && InStep(Orig(j, s), Follow(t), ph)
    {
      hide CallerOk, CalleeOk, Run, Rooted, Site.Shape, Site.Inlined;
      var e := s.caller.code.exit;
      var s1, t1 := Step(Before(), env, plan, s), Follow(t);
      assert t.caller == Going(Block([], site.CallerExit(e)));
      var i;
      i, ph := ArriveInCaller(s1, t1, JumpTarget(e, s.tr), m);
      After1(s, s1, t1, i, ph);
      j := i + 1;
    }

    lemma CallerStops(s: Machine, t: Machine, m: Mode) returns (ph: Phase)
      requires Ok() && InStep(s, t, InCaller(m)) && s.caller.code.ops == []
      requires var e := s.caller.code.exit; e.Switch? || e.Final? || e.Return? || e.Halt?
      ensures InStep(Orig(1, s), Follow(t), ph)
    {
      hide CallerOk, CalleeOk, Run, Rooted, Site.Shape, Site.Inlined;
      var e := s.caller.code.exit;
      var s1, t1 := Step(Before(), env, plan, s), Follow(t);
      assert t.caller == Going(Block([], site.CallerExit(e)));
      SuspendReturns();
      ph := if e.Switch? then ParkedIn(m) else if e.Final? then EndIn(m) else Finis;
      Stay(s1);
      After1(s, s1, t1, 0, ph);
    }

    lemma CallerExits(s: Machine, t: Machine, m: Mode) returns (j: nat, ph: Phase)
      requires Ok() && InStep(s, t, InCaller(m)) && s.caller.code.ops == [] && !s.caller.code.exit.IfDone?
      ensures j > 0 && InStep(Orig(j, s), Follow(t), ph)
    {
      hide CallerOk, CalleeOk, Run, Rooted, Site.Shape, Site.Inlined, Step;
      var e := s.caller.code.exit;
      if e.Goto? || e.Branch? || e.Fixed? {
        j, ph := CallerJumps(s, t, m);
      } else {
        ph := CallerStops(s, t, m);
        j := 1;
      }
    }

    lemma CallerAdvances(s: Machine, t: Machine, m: Mode) returns (j: nat, ph: Phase)
      requires Ok() && InStep(s, t, InCaller(m))
      ensures j > 0 && InStep(Orig(j, s), Follow(t), ph)
    {
      hide CallerOk, CalleeOk, Run, Step, Rooted, CodeOk;
      var code := s.caller.code;
      if code.ops != [] && code.ops[0].Emit? {
        j, ph := CallerEmits(s, t, m);
      } else if code.ops != [] {
        j, ph := CallerStarts(s, t, m);
      } else if code.exit.IfDone? {
        j, ph := CallerAwaits(s, t, m);
      } else {
        j, ph := CallerExits(s, t, m);
      }
    }

    // ----- the schedule acts -----

    lemma ScheduleActs(s: Machine, t: Machine, ph0: Phase) returns (j: nat, ph: Phase)
      requires Ok() && (ph0.ParkedIn? || ph0.EndIn?) && InStep(s, t, ph0)
      ensures j > 0 && InStep(Orig(j, s), Follow(t), ph)
    {
      hide CallerOk, CalleeOk, Run, Site.Shape, Site.Inlined;
      var s1, t1 := Step(Before(), env, plan, s), Follow(t);
      var i := 0;
      Stay(s1);
      assert !Running(s);
      if ph0.EndIn? && plan(s.used).ToResume? {
        ph := Finis;
      } else {
        var to := if ph0.EndIn? then s.caller.cleanup else if plan(s.used).ToResume? then s.caller.normal else s.caller.destroy;
        i, ph := ArriveInCaller(s1, t1, to, ph0.m);
      }
      After1(s, s1, t1, i, ph);
      j := i + 1;
    }

    lemma AwaitBlocks()
      requires site.Shape()
      ensures site.point.normal in site.f && site.f[site.point.normal] == Block([], Goto(site.w.loop))
      ensures site.w.loop in site.f
      ensures site.point.destroy in site.f && site.f[site.point.destroy].ops != []
      ensures site.f[site.point.destroy].ops[0].Drop?
      ensures site.loop.notDone in site.f
      ensures site.f[site.loop.notDone] == Block([], Switch(site.suspend, site.point.normal, site.point.destroy))
    {
    }

    /** Resumed from outside, the await loop resumes the callee. */
    lemma ScheduleResumesCallee(s: Machine, t: Machine) returns (j: nat, ph: Phase)
      requires Ok() && InStep(s, t, Waiting) && plan(s.used).ToResume?
      ensures j > 0 && InStep(Orig(j, s), Follow(t), ph)
    {
      hide CallerOk, CalleeOk, Run, ToRegion, Site.ToCallee, Site.Shape, Site.Inlined;
      AwaitBlocks();
      var s1, t1 := Step(Before(), env, plan, s), Follow(t);
      assert s1 == s.(used := s.used + 1, caller := Going(site.f[site.point.normal]));
      var s2 := s1.(caller := Going(site.f[site.w.loop]));
      assert Step(Before(), env, plan, s1) == s2;
      var i;
      i, ph := LoopResumes(s2, t1, s.callee.value.normal);
      After1(s1, s2, t1, i, ph);
      After1(s, s1, t1, i + 1, ph);
      j := i + 2;
    }

    /** Destroyed from outside, the caller destroys the callee first. */
    lemma ScheduleDestroysCallee(s: Machine, t: Machine) returns (j: nat, ph: Phase)
      requires Ok() && InStep(s, t, Waiting) && plan(s.used).ToDestroy?
      ensures j > 0 && InStep(Orig(j, s), Follow(t), ph)
    {
      hide CallerOk, CalleeOk, Run, ToRegion, Site.ToCallee, Site.Shape, Site.Inlined;
      AwaitBlocks();
      var s1, t1 := Step(Before(), env, plan, s), Follow(t);
      assert s1 == s.(used := s.used + 1, caller := Going(site.f[site.point.destroy]));
      var s2 := s1.(caller := Going(DestroyCode()), callee := Some(Enter(site.c.blocks, s.callee.value.destroy)));
      assert Step(Before(), env, plan, s1) == s2;
      var i;
      i, ph := ArriveEnding(s2, t1, s.callee.value.destroy);
      After1(s1, s2, t1, i, ph);
      After1(s, s1, t1, i + 1, ph);
      j := i + 2;
    }

    lemma ScheduleActsOnCallee(s: Machine, t: Machine) returns (j: nat, ph: Phase)
      requires Ok() && InStep(s, t, Waiting)
      ensures j > 0 && InStep(Orig(j, s), Follow(t), ph)
    {
      hide CallerOk, CalleeOk, Run, Step, InStep, Site.Shape;
      if plan(s.used).ToResume? {
        j, ph := ScheduleResumesCallee(s, t);
      } else {
        j, ph := ScheduleDestroysCallee(s, t);
      }
    }

    // ----- the callee runs -----

    function PhaseOf(r: Region): Phase {
      match r
      case Early => Starting
      case Main => Resuming
      case Ending => Killing
    }

    /** Where the caller is while the callee runs. */
    function CallerIn(r: Region): Block
      requires site.Shape()
    {
      match r
      case Early => site.RestCode()
      case Main => Block([], IfDone(site.loop.done, site.loop.notDone))
      case Ending => DestroyCode()
    }

    lemma Arrive(s: Machine, t: Machine, to: Id, r: Region) returns (j: nat, ph: Phase)
      requires Ok() && ToRegion(to, r) && s.tr == t.tr && s.used == t.used && t.callee.None?
      requires s.caller == Going(CallerIn(r))
      requires s.callee == Some(Enter(site.c.blocks, to)) && t.caller == Enter(New(), site.ToCallee(to))
      ensures InStep(Orig(j, s), t, ph)
    {
      hide CallerOk, CalleeOk, Run, InStep, Enter, ToRegion;
      match r
      case Early => j, ph := ArriveEarly(s, t, to);
      case Main => j, ph := ArriveMain(s, t, to);
      case Ending => j, ph := ArriveEnding(s, t, to);
    }

    lemma CalleeEmits(s: Machine, t: Machine, r: Region)
      requires Ok() && InStep(s, t, PhaseOf(r)) && s.callee.value.code.ops != []
      ensures InStep(Orig(1, s), Follow(t), PhaseOf(r))
    {
      hide CallerOk, CalleeOk, Site.Shape, CalleeExitOk;
      var s1 := Step(Before(), env, plan, s);
      var code := s.callee.value.code;
      assert code.ops[0].Emit?;
      assert forall i :: 0 <= i < |code.ops[1..]| ==> code.ops[1..][i] == code.ops[i + 1];
      Stay(s1);
      After1(s, s1, Follow(t), 0, PhaseOf(r));
    }

    /** From the suspension of the callee to that of the caller. */
    lemma RoundOfAwait(s: Machine)
      requires site.Shape() && s.callee.Some? && s.callee.value.Parked?
      requires s.caller == Going(Block([], IfDone(site.loop.done, site.loop.notDone)))
      ensures Orig(2, s) == s.(tr := s.tr + [Suspended], caller := Parked(site.point.normal, site.point.destroy))
    {
      AwaitBlocks();
      SuspendReturns();
      hide Site.Shape, Site.Inlined;
      var s2 := s.(caller := Going(site.f[site.loop.notDone]));
      Next(s2, s.(tr := s.tr + [Suspended], caller := Parked(site.point.normal, site.point.destroy)), 0);
      Next(s, s2, 1);
    }

    lemma CalleeReturns()
      requires site.Shape()
      ensures Returns(site.c.blocks, site.c.suspend)
    {
    }

    /** The callee suspends: the original goes once round the await loop and suspends too. */
    lemma CalleeSuspends(s: Machine, t: Machine)
      requires Ok() && InStep(s, t, Resuming) && s.callee.value.code.ops == [] && s.callee.value.code.exit.Switch?
      ensures InStep(Orig(3, s), Follow(t), Waiting)
    {
      hide CallerOk, CalleeOk, Run, ToRegion, Site.ToCallee, Site.Shape, Site.Inlined;
      Redirections();
      SuspendReturns();
      CalleeReturns();
      var e := s.callee.value.code.exit;
      var s1 := s.(callee := Some(Parked(e.normal, e.destroy)));
      assert Step(Before(), env, plan, s) == s1;
      RoundOfAwait(s1);
      var t1 := Follow(t);
      assert t1 == t.(tr := t.tr + [Suspended], caller := Parked(site.ToCallee(e.normal), site.ToCallee(e.destroy)));
      After1(s, s1, t1, 2, Waiting);
    }

    lemma CalleeExits(s: Machine, t: Machine, r: Region) returns (j: nat, ph: Phase)
      requires Ok() && InStep(s, t, PhaseOf(r)) && s.callee.value.code.ops == [] && !s.callee.value.code.exit.Switch?
      ensures j > 0 && InStep(Orig(j, s), Follow(t), ph)
    {
      hide CallerOk, CalleeOk, Run, ToRegion, Site.ToCallee, Site.Shape, Site.Inlined;
      var s1, t1 := Step(Before(), env, plan, s), Follow(t);
      var i := 0;
      Stay(s1);
      match s.callee.value.code.exit {
        case Goto(to) =>
          RegionBlocks(to, r);
          i, ph := Arrive(s1, t1, to, r);
        case Branch(id, yes, no) =>
          var to := if env.test(id, s.tr) then yes else no;
          RegionBlocks(to, r);
          i, ph := Arrive(s1, t1, to, r);
        case Fixed(v, yes, no) =>
          var to := if v then yes else no;
          RegionBlocks(to, r);
          i, ph := Arrive(s1, t1, to, r);
        case Halt => ph := Finis;
      }
      After1(s, s1, t1, i, ph);
      j := i + 1;
    }

    lemma CalleeAdvances(s: Machine, t: Machine, r: Region) returns (j: nat, ph: Phase)
      requires Ok() && InStep(s, t, PhaseOf(r))
      ensures j > 0 && InStep(Orig(j, s), Follow(t), ph)
    {
      hide CallerOk, CalleeOk, Run, Step, ToRegion;
      var code := s.callee.value.code;
      if code.ops != [] {
        CalleeEmits(s, t, r);
        j, ph := 1, PhaseOf(r);
      } else if code.exit.Switch? {
        CalleeSuspends(s, t);
        j, ph := 3, Waiting;
      } else {
        j, ph := CalleeExits(s, t, r);
      }
    }

    /** Whatever the new program does in one step, the original does in one or more. */
    lemma Advance(s: Machine, t: Machine, ph0: Phase) returns (j: nat, ph: Phase)
      requires Ok() && InStep(s, t, ph0)
      ensures j > 0 && InStep(Orig(j, s), Follow(t), ph)
    {
      hide CallerOk, CalleeOk, Run, Near, InCallee, Site.Shape;
      match ph0
      case InCaller(m) => j, ph := CallerAdvances(s, t, m);
      case ParkedIn(_) => j, ph := ScheduleActs(s, t, ph0);
      case EndIn(_) => j, ph := ScheduleActs(s, t, ph0);
      case Starting => j, ph := CalleeAdvances(s, t, Early);
      case Resuming => j, ph := CalleeAdvances(s, t, Main);
      case Killing => j, ph := CalleeAdvances(s, t, Ending);
      case Waiting => j, ph := ScheduleActsOnCallee(s, t);
      case Finis =>
        Stay(s);
        After1(s, s, t, 0, Finis);
        j, ph := 1, Finis;
    }

    // ----- whole runs -----

    ghost function Later(n: nat, t: Machine): Machine
      requires site.Shape()
    {
      Run(Afterwards(), env, plan, n, t)
    }

    lemma LaterNext(n: nat, t: Machine)
      requires site.Shape()
      ensures if n == 0 then Later(n, t) == t else Later(n, t) == Later(n - 1, Follow(t))
    {
    }

    lemma {:induction false} Lockstep(s: Machine, t: Machine, ph0: Phase, n: nat) returns (m: nat, ph: Phase)
      requires Ok() && InStep(s, t, ph0)
      ensures m >= n && InStep(Orig(m, s), Later(n, t), ph)
      decreases n
    {
      hide CallerOk, CalleeOk, InStep, Step, Run, Site.Shape;
      LaterNext(n, t);
      Stay(s);
      if n == 0 {
        m, ph := 0, ph0;
      } else {
        var j, ph1 := Advance(s, t, ph0);
        var i;
        i, ph := Lockstep(Orig(j, s), Follow(t), ph1, n - 1);
        Then(s, j, i);
        m := j + i;
      }
    }

    /** The first step of both programs: the function that creates the caller is called. */
    ghost function First(): Machine {
      Created(Before(), begin)
    }

    ghost function NewFirst(): Machine
      requires site.Shape()
    {
      Created(Afterwards(), begin)
    }

    lemma Matching(n: nat) returns (m: nat, ph: Phase)
      requires Ok() && ToMode(begin, Absent)
      ensures m >= n && InStep(Orig(m, First()), Later(n, NewFirst()), ph)
    {
      hide CallerOk, CalleeOk, InStep, Run, Step, Site.Inlined;
      var i, ph0 := ArriveInCaller(First(), NewFirst(), begin, Absent);
      var k;
      k, ph := Lockstep(Orig(i, First()), NewFirst(), ph0, n);
      Then(First(), i, k);
      m := i + k;
    }

    /** The same traces can be seen: effects, suspensions, completion and destruction, in the same order. */
    lemma SameTraces(tr: Trace)
      requires Ok() && ToMode(begin, Absent)
      ensures (exists n: nat :: tr <= Orig(n, First()).tr) <==> (exists n: nat :: tr <= Later(n, NewFirst()).tr)
    {
      hide CallerOk, CalleeOk, Site.Shape, ToMode, Run, Step;
      if n: nat :| tr <= Orig(n, First()).tr {
        var m, ph := Matching(n);
        Then(First(), n, m - n);
        RunGrows(Before(), env, plan, m - n, Orig(n, First()));
        assert tr <= Later(n, NewFirst()).tr;
      }
      if n: nat :| tr <= Later(n, NewFirst()).tr {
        var m, ph := Matching(n);
        assert tr <= Orig(m, First()).tr;
      }
    }

    /** Both programs come to the same end, after the same actions, or neither comes to one. */
    lemma SameEnds(tr: Trace, used: nat, end: Act)
      requires Ok() && ToMode(begin, Absent) && !end.Going? && !end.Parked? && !end.AtEnd?
      ensures (exists n: nat :: Ends(Orig(n, First()), tr, used, end)) <==> (exists n: nat :: Ends(Later(n, NewFirst()), tr, used, end))
    {
      hide CallerOk, CalleeOk, Site.Shape, ToMode, Run, Step;
      if n: nat :| Ends(Orig(n, First()), tr, used, end) {
        var m, ph := Matching(n);
        Then(First(), n, m - n);
        RunOver(Before(), env, plan, m - n, Orig(n, First()));
        assert Ends(Later(n, NewFirst()), tr, used, end);
      }
      if n: nat :| Ends(Later(n, NewFirst()), tr, used, end) {
        var m, ph := Matching(n);
        assert Ends(Orig(m, First()), tr, used, end);
      }
    }
  }

  predicate Ends(s: Machine, tr: Trace, used: nat, end: Act) {
    s.tr == tr && s.used == used && s.caller == end
  }
}
