/**
 * The blocks of coroutines as lists of instructions, what such a list means, and
 * the walks that recognize an await loop and a suspension point.
 */
module CoroutineBlocks {

  import opened Options
  import opened Coroutines

  /** Functions of the coroutine machinery, and all others. */
  datatype Function = CoroResume | CoroDone | CoroSuspend(final: bool) | CoroEnd | HaltFunction | Other

  /** What a branch depends on. */
  datatype Condition = WhetherDone | Test(id: nat) | Always(value: bool)

  /** Calls have a known function or none; a conditional branch lists its targets for "false" and "true", in this order. */
  datatype Instruction =
    | Call(callee: Option<Function>)
    | Does(op: Op)
    | Br(to: Id)
    | CondBr(condition: Condition, onFalse: Id, onTrue: Id)
    | SwitchOn(default: Id, cases: seq<Id>)
    | Ret
    | Unreachable

  type Code = seq<Instruction>

  // ----- what the frontend lays down, and what it means -----

  /** The end of a block. */
  function ExitOf(code: Code): Option<Exit> {
    if |code| == 1 then
      match code[0]
      case Br(t) => Some(Goto(t))
      case CondBr(Test(id), no, yes) => Some(Branch(id, yes, no))
      case CondBr(Always(v), no, yes) => Some(Fixed(v, yes, no))
      case _ => None
    else if |code| == 2 then
      match (code[0], code[1])
      case (Call(Some(CoroDone)), CondBr(WhetherDone, no, yes)) => Some(IfDone(yes, no))
      case (Call(Some(CoroSuspend(final))), SwitchOn(s, cases)) =>
        if |cases| != 2 then None else if final then Some(Final(s, cases[1])) else Some(Switch(s, cases[0], cases[1]))
      case (Call(Some(CoroEnd)), Ret) => Some(Return)
      case (Call(Some(HaltFunction)), Unreachable) => Some(Halt)
      case _ => None
    else if |code| == 3 then
      match (code[0], code[1], code[2])
      case (Call(Some(CoroResume)), Call(Some(CoroDone)), CondBr(WhetherDone, no, yes)) => Some(Resume(yes, no))
      case _ => None
    else None
  }

  /** Effects, and then the end of the block. */
  function Meaning(code: Code): Option<Block> {
    if code != [] && code[0].Does? then
      match Meaning(code[1..])
      case Some(b) => Some(Block([code[0].op] + b.ops, b.exit))
      case None => None
    else
      match ExitOf(code)
      case Some(e) => Some(Block([], e))
      case None => None
  }

  /** How the frontend writes the end of a block; "dead" is the block for resuming after the final suspension. */
  function ExitText(e: Exit, dead: Id): Code {
    match e
    case Goto(t) => [Br(t)]
    case Branch(id, yes, no) => [CondBr(Test(id), no, yes)]
    case Fixed(v, yes, no) => [CondBr(Always(v), no, yes)]
    case IfDone(yes, no) => [Call(Some(CoroDone)), CondBr(WhetherDone, no, yes)]
    case Resume(done, notDone) => [Call(Some(CoroResume)), Call(Some(CoroDone)), CondBr(WhetherDone, notDone, done)]
    case Switch(s, n, d) => [Call(Some(CoroSuspend(false))), SwitchOn(s, [n, d])]
    case Final(s, c) => [Call(Some(CoroSuspend(true))), SwitchOn(s, [dead, c])]
    case Return => [Call(Some(CoroEnd)), Ret]
    case Halt => [Call(Some(HaltFunction)), Unreachable]
  }

  function Text(b: Block, dead: Id): Code
    decreases |b.ops|
  {
    if b.ops == [] then ExitText(b.exit, dead) else [Does(b.ops[0])] + Text(b.(ops := b.ops[1..]), dead)
  }

  /** Every block can be written, and is read as what it means. */
  lemma {:induction false} TextMeans(b: Block, dead: Id)
    ensures Meaning(Text(b, dead)) == Some(b)
    decreases |b.ops|
  {
    if b.ops != [] {
      var rest := b.(ops := b.ops[1..]);
      TextMeans(rest, dead);
      assert Text(b, dead)[1..] == Text(rest, dead);
      assert b.ops == [b.ops[0]] + rest.ops;
    }
  }

  /** A body whose blocks are written as these lists. */
  ghost predicate Written(b: Body, text: map<Id, Code>) {
    forall x :: x in b ==> x in text && Meaning(text[x]) == Some(b[x])
  }

  // ----- recognizing blocks -----

  datatype Loop = Loop(done: Id, notDone: Id)

  datatype Point = Point(suspend: Id, normal: Id, destroy: Id)

  /** A block that does nothing but resume, and go on by whether the coroutine is done. */
  predicate IsLoop(b: Block) {
    b.ops == [] && b.exit.Resume?
  }

  /** A block that does nothing but suspend, finally or not. */
  predicate IsPoint(b: Block) {
    b.ops == [] && (b.exit.Switch? || b.exit.Final?)
  }

  /** A walk over the block: a call of "resume", a call of "done", a conditional branch. */
  method ParseAwaitLoopBlock(code: Code) returns (r: Option<Loop>)
    ensures r.Some? <==>
      |code| >= 3 && code[0] == Call(Some(CoroResume)) && code[1] == Call(Some(CoroDone)) && code[2].CondBr?
    ensures Meaning(code).Some? ==> (r.Some? <==> IsLoop(Meaning(code).value))
    ensures Meaning(code).Some? && r.Some? ==> Meaning(code).value.exit == Resume(r.value.done, r.value.notDone)
  {
    var it := 0;
    if it == |code| { return None; }
    if !code[it].Call? { return None; }
    if code[it].callee.None? { return None; }
    if code[it].callee.value != CoroResume { return None; }
    it := it + 1;
    if it == |code| { return None; }
    if !code[it].Call? { return None; }
    if code[it].callee.None? { return None; }
    if code[it].callee.value != CoroDone { return None; }
    it := it + 1;
    if it == |code| { return None; }
    if !code[it].CondBr? { return None; }
    r := Some(Loop(code[it].onTrue, code[it].onFalse));
  }

  /** A walk over the block: a call of "suspend", a switch with two cases. */
  method ParseSuspendBlock(code: Code) returns (r: Option<Point>)
    ensures r.Some? <==>
      |code| >= 2 && code[0].Call? && code[0].callee.Some? && code[0].callee.value.CoroSuspend?
      && code[1].SwitchOn? && |code[1].cases| == 2
    ensures Meaning(code).Some? ==> (r.Some? <==> IsPoint(Meaning(code).value))
    ensures Meaning(code).Some? && r.Some? ==>
      var e := Meaning(code).value.exit;
      e == Switch(r.value.suspend, r.value.normal, r.value.destroy) || e == Final(r.value.suspend, r.value.destroy)
  {
    var it := 0;
    if it == |code| { return None; }
    if !code[it].Call? { return None; }
    if code[it].callee.None? { return None; }
    if !code[it].callee.value.CoroSuspend? { return None; }
    it := it + 1;
    if it == |code| { return None; }
    if !code[it].SwitchOn? { return None; }
    if |code[it].cases| != 2 { return None; }
    r := Some(Point(code[it].default, code[it].cases[0], code[it].cases[1]));
  }
}
