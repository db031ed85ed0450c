/**
 * Return value optimization: a local variable that is only copied to the result
 * is replaced by the result itself.
 */
module ReturnValue {

  import opened Options

  type Loc = nat
  type Value = nat

  /** Instructions on whole objects; "Begin" and "End" delimit the lifetime of a variable. */
  datatype Instr =
    | Assign(dst: Loc, id: nat, srcs: seq<Loc>)
    | Copy(dst: Loc, src: Loc)
    | Begin(loc: Loc)
    | End(loc: Loc)
    | Emit(id: nat, srcs: seq<Loc>)

  datatype Exit = Goto(to: nat) | Branch(id: nat, srcs: seq<Loc>, yes: nat, no: nat) | Ret | Trap

  datatype Block = Block(body: seq<Instr>, exit: Exit)

  /** The blocks, the location of the result, and the local variables. */
  datatype Function = Function(blocks: seq<Block>, result: Loc, locals: set<Loc>)

  type Memory = Loc -> Value

  datatype Event = Event(id: nat, values: seq<Value>)

  datatype Env = Env(compute: (nat, seq<Value>) -> Value, test: (nat, seq<Value>) -> bool, junk: Value)

  datatype Outcome = Returned(mem: Memory, tr: seq<Event>) | Trapped(tr: seq<Event>) | Running(tr: seq<Event>)

  // ----- running a function -----

  function Values(m: Memory, srcs: seq<Loc>): (vs: seq<Value>)
    ensures |vs| == |srcs| && forall i :: 0 <= i < |srcs| ==> vs[i] == m(srcs[i])
  {
    seq(|srcs|, i requires 0 <= i < |srcs| => m(srcs[i]))
  }

  function Set(m: Memory, l: Loc, v: Value): Memory {
    x => if x == l then v else m(x)
  }

  function Do(env: Env, i: Instr, m: Memory): Memory {
    match i
    case Assign(dst, id, srcs) => Set(m, dst, env.compute(id, Values(m, srcs)))
    case Copy(dst, src) => Set(m, dst, m(src))
    case Begin(l) => Set(m, l, env.junk)
    case End(l) => Set(m, l, env.junk)
    case Emit(_, _) => m
  }

  function Told(i: Instr, m: Memory): seq<Event> {
    if i.Emit? then [Event(i.id, Values(m, i.srcs))] else []
  }

  /** Runs the rest of a block and what follows; the fuel bounds the number of jumps. */
  function Run(f: Function, env: Env, code: seq<Instr>, exit: Exit, m: Memory, tr: seq<Event>, fuel: nat): Outcome
    decreases fuel, |code| + 1
  {
    if code != [] then Run(f, env, code[1..], exit, Do(env, code[0], m), tr + Told(code[0], m), fuel)
    else
      match exit
      case Goto(b) => Jump(f, env, b, m, tr, fuel)
      case Branch(id, srcs, yes, no) => Jump(f, env, if env.test(id, Values(m, srcs)) then yes else no, m, tr, fuel)
      case Ret => Returned(m, tr)
      case Trap => Trapped(tr)
  }

  function Jump(f: Function, env: Env, b: nat, m: Memory, tr: seq<Event>, fuel: nat): Outcome
    decreases fuel, 0
  {
    if fuel == 0 then Running(tr)
    else if b >= |f.blocks| then Trapped(tr)
    else Run(f, env, f.blocks[b].body, f.blocks[b].exit, m, tr, fuel - 1)
  }

  // ----- the transformation -----

  function Renamed(l: Loc, from: Loc, to: Loc): Loc {
    if l == from then to else l
  }

  function RenamedAll(ls: seq<Loc>, from: Loc, to: Loc): (r: seq<Loc>)
    ensures |r| == |ls| && forall i :: 0 <= i < |ls| ==> r[i] == Renamed(ls[i], from, to)
  {
    seq(|ls|, i requires 0 <= i < |ls| => Renamed(ls[i], from, to))
  }

  function RenamedInstr(i: Instr, from: Loc, to: Loc): Instr {
    match i
    case Assign(dst, id, srcs) => Assign(Renamed(dst, from, to), id, RenamedAll(srcs, from, to))
    case Copy(dst, src) => Copy(Renamed(dst, from, to), Renamed(src, from, to))
    case Begin(l) => Begin(Renamed(l, from, to))
    case End(l) => End(Renamed(l, from, to))
    case Emit(id, srcs) => Emit(id, RenamedAll(srcs, from, to))
  }

  /** Copies to the result and ends of the variable's lifetime go away; the variable becomes the result. */
  function NewCode(code: seq<Instr>, l: Loc, result: Loc): seq<Instr> {
    if code == [] then []
    else if code[0] == Copy(result, l) || code[0] == End(l) then NewCode(code[1..], l, result)
    else [RenamedInstr(code[0], l, result)] + NewCode(code[1..], l, result)
  }

  function NewExit(e: Exit, l: Loc, result: Loc): Exit {
    if e.Branch? then e.(srcs := RenamedAll(e.srcs, l, result)) else e
  }

  function NewBlock(b: Block, l: Loc, result: Loc): Block {
    Block(NewCode(b.body, l, result), NewExit(b.exit, l, result))
  }

  function NewFunction(f: Function, l: Loc): (r: Function)
    ensures |r.blocks| == |f.blocks|
    ensures forall i :: 0 <= i < |f.blocks| ==> r.blocks[i] == NewBlock(f.blocks[i], l, f.result)
  {
    f.(blocks := seq(|f.blocks|, i requires 0 <= i < |f.blocks| => NewBlock(f.blocks[i], l, f.result)))
  }

  // ----- uses of the result -----

  predicate Uses(i: Instr, l: Loc) {
    match i
    case Assign(dst, _, srcs) => dst == l || l in srcs
    case Copy(dst, src) => dst == l || src == l
    case Begin(x) => x == l
    case End(x) => x == l
    case Emit(_, srcs) => l in srcs
  }

  predicate BranchUses(e: Exit, l: Loc) {
    e.Branch? && l in e.srcs
  }

  /** A place where a location is used. */
  datatype User = ByInstr(i: Instr) | ByBranch

  function UsersIn(code: seq<Instr>, l: Loc): (us: seq<User>)
    ensures forall u :: u in us <==> u.ByInstr? && u.i in code && Uses(u.i, l)
  {
    if code == [] then []
    else (if Uses(code[0], l) then [ByInstr(code[0])] else []) + UsersIn(code[1..], l)
  }

  function Users(blocks: seq<Block>, l: Loc): seq<User> {
    if blocks == [] then []
    else
      UsersIn(blocks[0].body, l) + (if BranchUses(blocks[0].exit, l) then [ByBranch] else []) + Users(blocks[1..], l)
  }

  lemma {:induction false} UsersAll(blocks: seq<Block>, l: Loc, b: nat)
    requires b < |blocks|
    ensures forall i :: i in blocks[b].body && Uses(i, l) ==> ByInstr(i) in Users(blocks, l)
    ensures BranchUses(blocks[b].exit, l) ==> ByBranch in Users(blocks, l)
  {
    if b > 0 {
      UsersAll(blocks[1..], l, b - 1);
    } else {
      forall i | i in blocks[0].body && Uses(i, l) ensures ByInstr(i) in Users(blocks, l) {
        assert ByInstr(i) in UsersIn(blocks[0].body, l);
      }
    }
  }

  /** The result is used, but only as destination of copies from one local variable. */
  predicate Optimizable(f: Function, l: Loc) {
    && Users(f.blocks, f.result) != []
    && (forall u :: u in Users(f.blocks, f.result) ==> u == ByInstr(Copy(f.result, l)))
    && l in f.locals && l != f.result
  }

  predicate UsedIn(b: Block, u: User, l: Loc) {
    if u.ByInstr? then u.i in b.body && Uses(u.i, l) else BranchUses(b.exit, l)
  }

  lemma {:induction false} UsersOnly(blocks: seq<Block>, l: Loc, u: User)
    requires u in Users(blocks, l)
    ensures exists b :: 0 <= b < |blocks| && UsedIn(blocks[b], u, l)
  {
    var b := blocks[0];
    if u in UsersIn(b.body, l) || (u.ByBranch? && BranchUses(b.exit, l)) {
      assert blocks[0] == b;
    } else {
      UsersOnly(blocks[1..], l, u);
      var k :| 0 <= k < |blocks[1..]| && UsedIn(blocks[1..][k], u, l);
      assert blocks[k + 1] == blocks[1..][k];
    }
  }

  /** Block by block: copies from the variable, of which there is one, are the only uses of the result. */
  lemma OptimizableMeans(f: Function, l: Loc)
    ensures Optimizable(f, l) <==>
      && l in f.locals && l != f.result
      && (exists b :: 0 <= b < |f.blocks| && Copy(f.result, l) in f.blocks[b].body)
      && (forall b :: 0 <= b < |f.blocks| ==> !BranchUses(f.blocks[b].exit, f.result))
      && forall b, i :: 0 <= b < |f.blocks| && i in f.blocks[b].body && Uses(i, f.result) ==> i == Copy(f.result, l)
  {
    var us, copy := Users(f.blocks, f.result), Copy(f.result, l);
    forall b | 0 <= b < |f.blocks|
      ensures forall i :: i in f.blocks[b].body && Uses(i, f.result) ==> ByInstr(i) in us
      ensures BranchUses(f.blocks[b].exit, f.result) ==> ByBranch in us
    {
      UsersAll(f.blocks, f.result, b);
    }
    forall u | u in us
      ensures exists b :: 0 <= b < |f.blocks| && UsedIn(f.blocks[b], u, f.result)
    {
      UsersOnly(f.blocks, f.result, u);
    }
    if Optimizable(f, l) {
      assert us[0] in us && us[0] == ByInstr(copy);
    } else if b :| 0 <= b < |f.blocks| && copy in f.blocks[b].body {
      assert ByInstr(copy) in us;
    }
  }

  /** After the pass nothing uses the variable, and nothing is left but the other instructions, in their order. */
  lemma {:induction false} VariableIsGone(code: seq<Instr>, l: Loc, result: Loc)
    requires l != result
    ensures forall i :: i in NewCode(code, l, result) ==> !Uses(i, l)
    ensures |NewCode(code, l, result)| == |code| - multiset(code)[Copy(result, l)] - multiset(code)[End(l)]
  {
    if code != [] {
      VariableIsGone(code[1..], l, result);
      assert code == [code[0]] + code[1..];
      assert !Uses(RenamedInstr(code[0], l, result), l);
    }
  }

  /** Looks at every use of the result. */
  method FindVariable(f: Function) returns (r: Option<Loc>)
    requires f.result !in f.locals
    ensures r.Some? ==> Optimizable(f, r.value)
    ensures r.None? ==> forall l :: !Optimizable(f, l)
  {
    r := None;
    var us := Users(f.blocks, f.result);
    for k := 0 to |us|
      invariant r.None? <==> k == 0
      invariant r.Some? ==> r.value in f.locals && forall u :: u in us[..k] ==> u == ByInstr(Copy(f.result, r.value))
    {
      assert us[k] in us && us[..k + 1] == us[..k] + [us[k]];
      if us[k].ByBranch? { return None; }
      var i := us[k].i;
      if !i.Copy? { return None; }
      if i.dst != f.result { return None; }
      if i.src !in f.locals { return None; }
      if r.None? {
        r := Some(i.src);
      } else if i.src != r.value {
        assert us[0] in us && us[0] in us[..k];
        return None;
      }
    }
    assert us[..|us|] == us;
  }

  method TryToPerformReturnValueAllocationOptimization(f: Function) returns (r: Function)
    requires f.result !in f.locals
    ensures forall l :: Optimizable(f, l) ==> r == NewFunction(f, l)
    ensures (forall l :: !Optimizable(f, l)) ==> r == f
  {
    var l := FindVariable(f);
    if l.None? { return f; }
    OnlyOne(f, l.value);
    r := NewFunction(f, l.value);
  }

  lemma OnlyOne(f: Function, l: Loc)
    requires Optimizable(f, l)
    ensures forall x :: Optimizable(f, x) ==> x == l
  {
    var us := Users(f.blocks, f.result);
    assert us[0] in us;
  }

  // ----- following the variable through a run -----

  predicate Writes(i: Instr, l: Loc) {
    i == Begin(l) || ((i.Assign? || i.Copy?) && i.dst == l)
  }

  predicate Reads(i: Instr, l: Loc) {
    ((i.Assign? || i.Emit?) && l in i.srcs) || (i.Copy? && i.src == l)
  }

  /** Whether the variable is in its lifetime, its last value there, and whether it was copied since it was last written. */
  datatype Watch = Watch(alive: bool, last: Value, copied: bool)

  function Seen(env: Env, i: Instr, m: Memory, w: Watch, l: Loc, result: Loc): Watch {
    var alive := i != End(l) && (w.alive || Writes(i, l));
    Watch(alive, if alive then Do(env, i, m)(l) else w.last, i == Copy(result, l) || (w.copied && !Writes(i, l)))
  }

  /** The end of a run: no read of the variable was outside its lifetime, and what is known about the variable. */
  datatype Verdict = Verdict(fine: bool, w: Watch)

  function And(ok: bool, v: Verdict): Verdict {
    v.(fine := ok && v.fine)
  }

  /** Follows a run of the original function. */
  function Watched(f: Function, env: Env, code: seq<Instr>, exit: Exit, m: Memory, w: Watch, l: Loc, fuel: nat): Verdict
    decreases fuel, |code| + 1
  {
    if code != [] then
      And(Reads(code[0], l) ==> w.alive,
          Watched(f, env, code[1..], exit, Do(env, code[0], m), Seen(env, code[0], m, w, l, f.result), l, fuel))
    else
      match exit
      case Goto(b) => WatchedJump(f, env, b, m, w, l, fuel)
      case Branch(id, srcs, yes, no) =>
        And(l in srcs ==> w.alive, WatchedJump(f, env, if env.test(id, Values(m, srcs)) then yes else no, m, w, l, fuel))
      case Ret => Verdict(true, w)
      case Trap => Verdict(true, w)
  }

  function WatchedJump(f: Function, env: Env, b: nat, m: Memory, w: Watch, l: Loc, fuel: nat): Verdict
    decreases fuel, 0
  {
    if fuel == 0 || b >= |f.blocks| then Verdict(true, w)
    else Watched(f, env, f.blocks[b].body, f.blocks[b].exit, m, w, l, fuel - 1)
  }

  // ----- both memories -----

  /** The result of the new function always holds the last value of the variable. */
  ghost predicate Shadows(m: Memory, m': Memory, w: Watch, l: Loc, result: Loc) {
    && (forall x :: x != l && x != result ==> m'(x) == m(x))
    && m'(result) == w.last && (w.alive ==> w.last == m(l))
  }

  lemma SameValues(m: Memory, m': Memory, w: Watch, l: Loc, result: Loc, srcs: seq<Loc>)
    requires Shadows(m, m', w, l, result) && result !in srcs && (l in srcs ==> w.alive)
    ensures Values(m', RenamedAll(srcs, l, result)) == Values(m, srcs)
  {
    forall i | 0 <= i < |srcs| ensures m'(Renamed(srcs[i], l, result)) == m(srcs[i]) {
      assert srcs[i] in srcs;
    }
  }

  /** One instruction that stays. */
  lemma StepShadows(env: Env, i: Instr, m: Memory, m': Memory, w: Watch, l: Loc, result: Loc)
    requires l != result && Shadows(m, m', w, l, result) && !Uses(i, result) && i != End(l) && (Reads(i, l) ==> w.alive)
    ensures Shadows(Do(env, i, m), Do(env, RenamedInstr(i, l, result), m'), Seen(env, i, m, w, l, result), l, result)
    ensures Told(RenamedInstr(i, l, result), m') == Told(i, m)
  {
    match i
    case Assign(dst, id, srcs) => SameValues(m, m', w, l, result, srcs);
    case Emit(id, srcs) => SameValues(m, m', w, l, result, srcs);
    case _ =>
  }

  /** One instruction that goes away. */
  lemma ErasedShadows(env: Env, i: Instr, m: Memory, m': Memory, w: Watch, l: Loc, result: Loc)
    requires l != result && Shadows(m, m', w, l, result) && (i == Copy(result, l) || i == End(l))
    ensures Shadows(Do(env, i, m), m', Seen(env, i, m, w, l, result), l, result)
  {
  }

  // ----- whole runs -----

  /** The same way of ending and the same events; at a return the new result is the variable's last value. */
  ghost predicate Shadowed(a: Outcome, b: Outcome, last: Value, l: Loc, result: Loc) {
    match a
    case Returned(m, tr) =>
      b.Returned? && b.tr == tr && b.mem(result) == last && forall x :: x != l && x != result ==> b.mem(x) == m(x)
    case Trapped(tr) => b == Trapped(tr)
    case Running(tr) => b == Running(tr)
  }

  ghost predicate OnlyCopies(code: seq<Instr>, l: Loc, result: Loc) {
    forall i :: i in code && Uses(i, result) ==> i == Copy(result, l)
  }

  lemma {:induction false} RunsShadowed(f: Function, env: Env, code: seq<Instr>, exit: Exit, l: Loc, m: Memory, m': Memory, w: Watch,
                                        tr: seq<Event>, fuel: nat)
    requires Optimizable(f, l) && OnlyCopies(code, l, f.result) && !BranchUses(exit, f.result)
    requires Shadows(m, m', w, l, f.result) && Watched(f, env, code, exit, m, w, l, fuel).fine
    ensures Shadowed(Run(f, env, code, exit, m, tr, fuel),
                     Run(NewFunction(f, l), env, NewCode(code, l, f.result), NewExit(exit, l, f.result), m', tr, fuel),
                     Watched(f, env, code, exit, m, w, l, fuel).w.last, l, f.result)
    decreases fuel, |code| + 1
  {
    hide Optimizable, Shadows;
    var r := f.result;
    assert l != r by { NotResult(f, l); }
    if code != [] {
      var i, w' := code[0], Seen(env, code[0], m, w, l, r);
      assert i in code && forall j :: j in code[1..] ==> j in code;
      if i == Copy(r, l) || i == End(l) {
        assert tr + Told(i, m) == tr;
        ErasedShadows(env, i, m, m', w, l, r);
        RunsShadowed(f, env, code[1..], exit, l, Do(env, i, m), m', w', tr, fuel);
      } else {
        StepShadows(env, i, m, m', w, l, r);
        assert NewCode(code, l, r)[1..] == NewCode(code[1..], l, r);
        RunsShadowed(f, env, code[1..], exit, l, Do(env, i, m), Do(env, RenamedInstr(i, l, r), m'), w', tr + Told(i, m),
                     fuel);
      }
    } else {
      match exit
      case Goto(b) => JumpsShadowed(f, env, b, l, m, m', w, tr, fuel);
      case Branch(id, srcs, yes, no) =>
        SameValues(m, m', w, l, r, srcs);
        JumpsShadowed(f, env, if env.test(id, Values(m, srcs)) then yes else no, l, m, m', w, tr, fuel);
      case Ret => ReturnShadowed(m, m', w, tr, l, r);
      case Trap =>
    }
  }

  lemma NotResult(f: Function, l: Loc)
    requires Optimizable(f, l)
    ensures l != f.result
  {
  }

  lemma ReturnShadowed(m: Memory, m': Memory, w: Watch, tr: seq<Event>, l: Loc, result: Loc)
    requires Shadows(m, m', w, l, result)
    ensures Shadowed(Returned(m, tr), Returned(m', tr), w.last, l, result)
  {
  }

  lemma {:induction false} JumpsShadowed(f: Function, env: Env, b: nat, l: Loc, m: Memory, m': Memory, w: Watch,
                                         tr: seq<Event>, fuel: nat)
    requires Optimizable(f, l) && Shadows(m, m', w, l, f.result) && WatchedJump(f, env, b, m, w, l, fuel).fine
    ensures Shadowed(Jump(f, env, b, m, tr, fuel), Jump(NewFunction(f, l), env, b, m', tr, fuel),
                     WatchedJump(f, env, b, m, w, l, fuel).w.last, l, f.result)
    decreases fuel, 0
  {
    if fuel > 0 && b < |f.blocks| {
      UsersAll(f.blocks, f.result, b);
      RunsShadowed(f, env, f.blocks[b].body, f.blocks[b].exit, l, m, m', w, tr, fuel - 1);
    }
  }

  /** The same way of ending, the same events, and at a return the same result and other memory. */
  ghost predicate SameOutcome(a: Outcome, b: Outcome, l: Loc) {
    match a
    case Returned(m, tr) => b.Returned? && b.tr == tr && forall x :: x != l ==> b.mem(x) == m(x)
    case Trapped(tr) => b == Trapped(tr)
    case Running(tr) => b == Running(tr)
  }

  /** At the call both memories agree, except on the result, which no one has set; a live variable starts with the same junk. */
  ghost predicate AtCall(f: Function, l: Loc, m: Memory, m': Memory, alive: bool) {
    (forall x :: x != f.result ==> m'(x) == m(x)) && (alive ==> m'(f.result) == m(l))
  }

  /** The call, as far as the variable is concerned. */
  function WatchedCall(f: Function, env: Env, l: Loc, m: Memory, m': Memory, alive: bool, fuel: nat): Verdict {
    WatchedJump(f, env, 0, m, Watch(alive, m'(f.result), false), l, fuel)
  }

  /** A run does the same after the optimization exactly if, when it returns, the result holds the variable's last value. */
  lemma OptimizationIsExact(f: Function, env: Env, l: Loc, m: Memory, m': Memory, alive: bool, fuel: nat)
    requires Optimizable(f, l) && AtCall(f, l, m, m', alive) && WatchedCall(f, env, l, m, m', alive, fuel).fine
    ensures var a, b := Jump(f, env, 0, m, [], fuel), Jump(NewFunction(f, l), env, 0, m', [], fuel);
            SameOutcome(a, b, l) <==> (a.Returned? ==> a.mem(f.result) == WatchedCall(f, env, l, m, m', alive, fuel).w.last)
  {
    NotResult(f, l);
    JumpsShadowed(f, env, 0, l, m, m', Watch(alive, m'(f.result), false), [], fuel);
  }

  // ----- the last copy comes after the last write -----

  /** What was copied since it was last written is what the result holds. */
  ghost predicate Holds(m: Memory, w: Watch, result: Loc) {
    w.copied ==> m(result) == w.last
  }

  lemma StepHolds(env: Env, i: Instr, m: Memory, w: Watch, l: Loc, result: Loc)
    requires l != result && Holds(m, w, result) && (w.alive ==> w.last == m(l))
    requires (Uses(i, result) ==> i == Copy(result, l)) && (Reads(i, l) ==> w.alive)
    ensures var m', w' := Do(env, i, m), Seen(env, i, m, w, l, result); Holds(m', w', result) && (w'.alive ==> w'.last == m'(l))
  {
  }

  lemma {:induction false} RunHolds(f: Function, env: Env, code: seq<Instr>, exit: Exit, l: Loc, m: Memory, w: Watch,
                                    tr: seq<Event>, fuel: nat)
    requires Optimizable(f, l) && OnlyCopies(code, l, f.result)
    requires Holds(m, w, f.result) && (w.alive ==> w.last == m(l)) && Watched(f, env, code, exit, m, w, l, fuel).fine
    ensures var a := Run(f, env, code, exit, m, tr, fuel); a.Returned? ==> Holds(a.mem, Watched(f, env, code, exit, m, w, l, fuel).w, f.result)
    decreases fuel, |code| + 1
  {
    hide Optimizable, Holds;
    NotResult(f, l);
    if code != [] {
      var i := code[0];
      assert i in code && forall j :: j in code[1..] ==> j in code;
      StepHolds(env, i, m, w, l, f.result);
      RunHolds(f, env, code[1..], exit, l, Do(env, i, m), Seen(env, i, m, w, l, f.result), tr + Told(i, m), fuel);
    } else {
      match exit
      case Goto(b) => JumpHolds(f, env, b, l, m, w, tr, fuel);
      case Branch(id, srcs, yes, no) => JumpHolds(f, env, if env.test(id, Values(m, srcs)) then yes else no, l, m, w,
                  tr, fuel);
      case Ret =>
      case Trap =>
    }
  }

  lemma {:induction false} JumpHolds(f: Function, env: Env, b: nat, l: Loc, m: Memory, w: Watch, tr: seq<Event>,
                                     fuel: nat)
    requires Optimizable(f, l) && Holds(m, w, f.result) && (w.alive ==> w.last == m(l))
    requires WatchedJump(f, env, b, m, w, l, fuel).fine
    ensures var a := Jump(f, env, b, m, tr, fuel); a.Returned? ==> Holds(a.mem, WatchedJump(f, env, b, m, w, l, fuel).w, f.result)
    decreases fuel, 0
  {
    if fuel > 0 && b < |f.blocks| {
      UsersAll(f.blocks, f.result, b);
      RunHolds(f, env, f.blocks[b].body, f.blocks[b].exit, l, m, w, tr, fuel - 1);
    }
  }

  /** A run whose last copy, if it returns, comes after the last write to the variable does the same after the optimization. */
  lemma CopiedLastIsSound(f: Function, env: Env, l: Loc, m: Memory, m': Memory, alive: bool, fuel: nat)
    requires Optimizable(f, l) && AtCall(f, l, m, m', alive) && WatchedCall(f, env, l, m, m', alive, fuel).fine
    requires Jump(f, env, 0, m, [], fuel).Returned? ==> WatchedCall(f, env, l, m, m', alive, fuel).w.copied
    ensures SameOutcome(Jump(f, env, 0, m, [], fuel), Jump(NewFunction(f, l), env, 0, m', [], fuel), l)
  {
    OptimizationIsExact(f, env, l, m, m', alive, fuel);
    JumpHolds(f, env, 0, l, m, Watch(alive, m'(f.result), false), [], fuel);
  }

  // ----- the same for all runs, by the text of the function -----

  /** From here on, with the variable copied or not since it was last written, every return finds it copied. */
  predicate CodeCopies(f: Function, labels: seq<bool>, code: seq<Instr>, exit: Exit, copied: bool, l: Loc)
    requires |labels| == |f.blocks|
  {
    if code != [] then CodeCopies(f, labels, code[1..], exit, code[0] == Copy(f.result, l) || (copied && !Writes(code[0], l)), l)
    else
      match exit
      case Goto(b) => b < |labels| ==> (labels[b] ==> copied)
      case Branch(_, _, yes, no) => (yes < |labels| ==> (labels[yes] ==> copied)) && (no < |labels| ==> (labels[no] ==> copied))
      case Ret => copied
      case Trap => true
  }

  /** On every path a return comes after a copy with no write to the variable since; labels mark blocks entered only after such a copy. */
  ghost predicate CopiesLast(f: Function, labels: seq<bool>, l: Loc) {
    && |labels| == |f.blocks| && (labels != [] ==> !labels[0])
    && forall b :: 0 <= b < |f.blocks| ==> CodeCopies(f, labels, f.blocks[b].body, f.blocks[b].exit, labels[b], l)
  }

  lemma {:induction false} RunCopied(f: Function, labels: seq<bool>, env: Env, code: seq<Instr>, exit: Exit, l: Loc, copied: bool,
                                     m: Memory, w: Watch, tr: seq<Event>, fuel: nat)
    requires CopiesLast(f, labels, l) && CodeCopies(f, labels, code, exit, copied, l) && (copied ==> w.copied)
    ensures Run(f, env, code, exit, m, tr, fuel).Returned? ==> Watched(f, env, code, exit, m, w, l, fuel).w.copied
    decreases fuel, |code| + 1
  {
    hide CopiesLast;
    if code != [] {
      var i := code[0];
      RunCopied(f, labels, env, code[1..], exit, l, i == Copy(f.result, l) || (copied && !Writes(i, l)),
                Do(env, i, m), Seen(env, i, m, w, l, f.result), tr + Told(i, m), fuel);
    } else {
      match exit
      case Goto(b) => JumpCopied(f, labels, env, b, l, m, w, tr, fuel);
      case Branch(id, srcs, yes, no) => JumpCopied(f, labels, env, if env.test(id, Values(m, srcs)) then yes else no, l,
                  m, w, tr, fuel);
      case Ret =>
      case Trap =>
    }
  }

  lemma {:induction false} JumpCopied(f: Function, labels: seq<bool>, env: Env, b: nat, l: Loc, m: Memory, w: Watch,
                                      tr: seq<Event>, fuel: nat)
    requires CopiesLast(f, labels, l) && (b < |labels| && labels[b] ==> w.copied)
    ensures Jump(f, env, b, m, tr, fuel).Returned? ==> WatchedJump(f, env, b, m, w, l, fuel).w.copied
    decreases fuel, 0
  {
    if fuel > 0 && b < |f.blocks| {
      RunCopied(f, labels, env, f.blocks[b].body, f.blocks[b].exit, l, labels[b], m, w, tr, fuel - 1);
    }
  }

  /** No write to the variable after the last copy: every run that reads it only in its lifetime does the same. */
  lemma OptimizationIsSound(f: Function, labels: seq<bool>, env: Env, l: Loc, m: Memory, m': Memory, alive: bool,
                            fuel: nat)
    requires Optimizable(f, l) && CopiesLast(f, labels, l)
    requires AtCall(f, l, m, m', alive) && WatchedCall(f, env, l, m, m', alive, fuel).fine
    ensures SameOutcome(Jump(f, env, 0, m, [], fuel), Jump(NewFunction(f, l), env, 0, m', [], fuel), l)
  {
    JumpCopied(f, labels, env, 0, l, m, Watch(alive, m'(f.result), false), [], fuel);
    CopiedLastIsSound(f, env, l, m, m', alive, fuel);
  }

  // ----- without lifetime markers -----

  ghost predicate NoEnds(f: Function, l: Loc) {
    forall b :: 0 <= b < |f.blocks| ==> End(l) !in f.blocks[b].body
  }

  lemma {:induction false} RunAlive(f: Function, env: Env, code: seq<Instr>, exit: Exit, l: Loc, m: Memory, w: Watch,
                                    fuel: nat)
    requires NoEnds(f, l) && End(l) !in code && w.alive
    ensures Watched(f, env, code, exit, m, w, l, fuel).fine
    decreases fuel, |code| + 1
  {
    if code != [] {
      assert code[0] in code && forall i :: i in code[1..] ==> i in code;
      RunAlive(f, env, code[1..], exit, l, Do(env, code[0], m), Seen(env, code[0], m, w, l, f.result), fuel);
    } else {
      match exit
      case Goto(b) => JumpAlive(f, env, b, l, m, w, fuel);
      case Branch(id, srcs, yes, no) => JumpAlive(f, env, if env.test(id, Values(m, srcs)) then yes else no, l, m, w,
                  fuel);
      case Ret =>
      case Trap =>
    }
  }

  lemma {:induction false} JumpAlive(f: Function, env: Env, b: nat, l: Loc, m: Memory, w: Watch, fuel: nat)
    requires NoEnds(f, l) && w.alive
    ensures WatchedJump(f, env, b, m, w, l, fuel).fine
    decreases fuel, 0
  {
    if fuel > 0 && b < |f.blocks| { RunAlive(f, env, f.blocks[b].body, f.blocks[b].exit, l, m, w, fuel - 1); }
  }

  /** Without lifetime markers nothing but the order of writes and copies is asked of the function. */
  lemma SoundWithoutLifetimes(f: Function, labels: seq<bool>, env: Env, l: Loc, m: Memory, m': Memory, fuel: nat)
    requires Optimizable(f, l) && CopiesLast(f, labels, l) && NoEnds(f, l) && AtCall(f, l, m, m', true)
    ensures SameOutcome(Jump(f, env, 0, m, [], fuel), Jump(NewFunction(f, l), env, 0, m', [], fuel), l)
  {
    JumpAlive(f, env, 0, l, m, Watch(true, m'(f.result), false), fuel);
    OptimizationIsSound(f, labels, env, l, m, m', true, fuel);
  }

  // ----- a late write -----

  lemma RunsOne(f: Function, env: Env, c: Instr, m: Memory, fuel: nat)
    requires !c.Emit?
    ensures Run(f, env, [c], Ret, m, [], fuel) == Returned(Do(env, c, m), [])
  {
    hide Do;
    assert [c][1..] == [] && [] + Told(c, m) == [];
  }

  lemma RunsTwo(f: Function, env: Env, b: Instr, c: Instr, m: Memory, fuel: nat)
    requires !b.Emit? && !c.Emit?
    ensures Run(f, env, [b, c], Ret, m, [], fuel) == Returned(Do(env, c, Do(env, b, m)), [])
  {
    hide Do;
    RunsOne(f, env, c, Do(env, b, m), fuel);
    assert [b, c][1..] == [c] && [] + Told(b, m) == [];
  }

  /** A function that writes its variable after copying it. */
  function WritesLate(): Function {
    Function([Block([Copy(0, 1), Assign(1, 1, [])], Ret)], 0, {1})
  }

  lemma WritesLateIsOptimized()
    ensures Optimizable(WritesLate(), 1)
    ensures NewFunction(WritesLate(), 1).blocks[0] == Block([Assign(0, 1, [])], Ret)
  {
    var f, b, c := WritesLate(), Copy(0, 1), Assign(1, 1, []);
    assert [b, c][1..] == [c] && [c][1..] == [] && f.blocks[1..] == [];
    assert UsersIn([c], 0) == [] + UsersIn([c][1..], 0) == [];
    assert UsersIn([b, c], 0) == [ByInstr(b)] + UsersIn([b, c][1..], 0) == [ByInstr(b)];
    assert Users(f.blocks, 0) == [ByInstr(b)];
    assert RenamedAll([], 1, 0) == [];
    assert NewCode([c], 1, 0) == [Assign(0, 1, [])] == NewCode([b, c], 1, 0);
  }

  /** A write to the variable after the copy shows in the result, unless it writes what was there. */
  lemma WriteAfterCopyShows(env: Env, m: Memory, m': Memory, fuel: nat)
    requires AtCall(WritesLate(), 1, m, m', true) && fuel > 0
    ensures Optimizable(WritesLate(), 1)
    ensures SameOutcome(Jump(WritesLate(), env, 0, m, [], fuel), Jump(NewFunction(WritesLate(), 1), env, 0, m', [], fuel), 1)
       <==> env.compute(1, []) == m(1)
  {
    hide Run, Optimizable, NewFunction;
    WritesLateIsOptimized();
    var f, g, b, c, c' := WritesLate(), NewFunction(WritesLate(), 1), Copy(0, 1), Assign(1, 1, []), Assign(0, 1, []);
    RunsTwo(f, env, b, c, m, fuel - 1);
    RunsOne(g, env, c', m', fuel - 1);
    var before, after := Do(env, c, Do(env, b, m)), Do(env, c', m');
    assert Values(m', []) == [] && Values(Do(env, b, m), []) == [];
    assert before(0) == m(1) && after(0) == env.compute(1, []);
  }
}
