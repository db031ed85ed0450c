/**
 * Functions made of basic blocks, and the machine that runs them.
 *
 * A block is a plain list of instructions, terminators included, so that a block
 * with no terminator, or with one in the middle, can be written down.
 */
module BasicBlocks {

  import opened SwitchRanges
  import opened StructuredCode

  type BlockId = nat

  datatype Instr =
    | Emit(ev: Event)
    | Test(id: nat)
    | Read(id: nat, kind: IntType)
    | Compare(kind: IntType, ranges: seq<Range>)
    | CallHalt
    | Br(target: BlockId)
    | CondBr(yes: BlockId, no: BlockId)
    | Ret
    | Unreachable
  {
    predicate IsTerminator() {
      Br? || CondBr? || Ret? || Unreachable?
    }

    function Targets(): set<BlockId> {
      match this
      case Br(b) => {b}
      case CondBr(b, c) => {b, c}
      case _ => {}
    }
  }

  type Code = seq<Instr>
  type Cfg = map<BlockId, Code>

  /** A machine at an instruction, returned, stopped by "halt", or with nothing left to do. */
  datatype Conf =
    | At(b: BlockId, i: nat, tr: Trace, flag: bool, val: nat)
    | Done(tr: Trace)
    | Stopped(tr: Trace)
    | Stuck

  /** A comparison of the switch value: equality for a single value, two bounds for a range. */
  predicate InRange(kind: IntType, r: Range, v: nat) {
    if r.low == r.high then v == r.low else !kind.Less(v, r.low) && !kind.Less(r.high, v)
  }

  predicate InAny(kind: IntType, rs: seq<Range>, v: nat) {
    rs != [] && (InRange(kind, rs[0], v) || InAny(kind, rs[1..], v))
  }

  function Step(g: Cfg, env: Env, c: Conf): Conf {
    if !c.At? then c
    else if c.b !in g || c.i >= |g[c.b]| then Stuck
    else
      match g[c.b][c.i]
      case Emit(ev) => c.(i := c.i + 1, tr := c.tr + [ev])
      case Test(id) => c.(i := c.i + 1, flag := env.test(id, c.tr))
      case Read(id, kind) => c.(i := c.i + 1, val := kind.Clip(env.value(id, c.tr)))
      case Compare(kind, rs) => c.(i := c.i + 1, flag := InAny(kind, rs, c.val))
      case CallHalt => Stopped(c.tr)
      case Br(b) => c.(b := b, i := 0)
      case CondBr(b, b') => c.(b := if c.flag then b else b', i := 0)
      case Ret => Done(c.tr)
      case Unreachable => Stuck
  }

  function Run(g: Cfg, env: Env, n: nat, c: Conf): Conf {
    if n == 0 then c else Run(g, env, n - 1, Step(g, env, c))
  }

  lemma {:induction false} RunAdd(g: Cfg, env: Env, n: nat, m: nat, c: Conf)
    ensures Run(g, env, n + m, c) == Run(g, env, m, Run(g, env, n, c))
  {
    if n > 0 { RunAdd(g, env, n - 1, m, Step(g, env, c)); }
  }

  /** A machine that has ended stays as it is. */
  lemma {:induction false} RunEnded(g: Cfg, env: Env, n: nat, c: Conf)
    requires !c.At?
    ensures Run(g, env, n, c) == c
  {
    if n > 0 { RunEnded(g, env, n - 1, c); }
  }

  // ----- well-formed functions -----

  predicate Closed(code: Code) {
    && |code| > 0
    && code[|code| - 1].IsTerminator()
    && Open(code[..|code| - 1])
  }

  predicate Open(code: Code) {
    forall i :: 0 <= i < |code| ==> !code[i].IsTerminator()
  }

  /** Every block ends in its only terminator, and every branch leads to a block. */
  ghost predicate WellFormed(g: Cfg) {
    && (forall b :: b in g ==> Closed(g[b]))
    && (forall b, i :: b in g && 0 <= i < |g[b]| ==> g[b][i].Targets() <= g.Keys)
  }
}
