/**
 * What it means for basic blocks, built so far, to do what a statement does.
 *
 * Blocks are built piecemeal: later steps append instructions, add blocks, or make
 * every branch to one block lead to another.  "Linked" says that a finished
 * function contains the blocks built so far, up to such redirections, and a
 * statement is simulated if every finished function that contains its blocks
 * does what the statement does.
 */
module Simulation {

  import opened Options
  import opened StructuredCode
  import opened BasicBlocks

  /** An enclosing loop, or labelled block (which has nothing to continue with). */
  datatype LoopFrame = LoopFrame(name: Option<Label>, brk: BlockId, cont: Option<BlockId>, size: nat,
                                 breaks: nat, continues: nat)

  type Frames = seq<seq<Var>>
  type Link = BlockId -> BlockId

  // ----- targets of break and continue -----

  function FirstNamed(loops: seq<LoopFrame>, name: Option<Label>): (k: Option<nat>)
    ensures k.Some? ==> k.value < |loops| && loops[k.value].name == name
  {
    if loops == [] then None
    else if loops[0].name == name then Some(0)
    else
      match FirstNamed(loops[1..], name)
      case None => None
      case Some(k) => Some(k + 1)
  }

  function LastLoop(loops: seq<LoopFrame>): (k: Option<nat>)
    ensures k.Some? ==> k.value < |loops| && loops[k.value].cont.Some?
  {
    if loops == [] then None
    else if loops[|loops| - 1].cont.Some? then Some(|loops| - 1)
    else LastLoop(loops[..|loops| - 1])
  }

  /** The frame a break or continue refers to: the named one, or the innermost loop. */
  function Target(loops: seq<LoopFrame>, target: Option<Label>): (k: Option<nat>)
    ensures k.Some? ==> k.value < |loops|
  {
    if target.Some? then FirstNamed(loops, target) else LastLoop(loops)
  }

  /** A label that is a keyword, or that an enclosing frame has. */
  predicate RefusedLabel(keywords: set<Label>, loops: seq<LoopFrame>, name: Option<Label>) {
    name.Some? && (name.value in keywords || FirstNamed(loops, name).Some?)
  }

  /** The same frames, with at least as many jumps to each recorded. */
  ghost predicate LoopsGrow(l: seq<LoopFrame>, l': seq<LoopFrame>) {
    && |l| == |l'|
    && forall k :: 0 <= k < |l| ==> Same(l[k], l'[k])
  }

  ghost predicate Same(f: LoopFrame, f': LoopFrame) {
    && f.name == f'.name && f.brk == f'.brk && f.cont == f'.cont && f.size == f'.size
    && f.breaks <= f'.breaks && f.continues <= f'.continues
  }

  lemma {:induction false} TargetGrow(l: seq<LoopFrame>, l': seq<LoopFrame>, t: Option<Label>)
    requires LoopsGrow(l, l')
    ensures Target(l, t) == Target(l', t)
  {
    if t.Some? { NamedGrow(l, l', t); } else { LastGrow(l, l'); }
  }

  lemma {:induction false} NamedGrow(l: seq<LoopFrame>, l': seq<LoopFrame>, t: Option<Label>)
    requires LoopsGrow(l, l')
    ensures FirstNamed(l, t) == FirstNamed(l', t)
  {
    if l != [] {
      assert Same(l[0], l'[0]);
      assert forall k :: 0 <= k < |l[1..]| ==> l[1..][k] == l[k + 1] && l'[1..][k] == l'[k + 1];
      NamedGrow(l[1..], l'[1..], t);
    }
  }

  lemma {:induction false} LastGrow(l: seq<LoopFrame>, l': seq<LoopFrame>)
    requires LoopsGrow(l, l')
    ensures LastLoop(l) == LastLoop(l')
  {
    if l != [] {
      assert Same(l[|l| - 1], l'[|l| - 1]);
      assert forall k :: 0 <= k < |l| - 1 ==> Same(l[k], l'[k]);
      LastGrow(l[..|l| - 1], l'[..|l| - 1]);
    }
  }

  lemma {:induction false} NamedPush(l: seq<LoopFrame>, f: LoopFrame, t: Option<Label>)
    ensures FirstNamed(l + [f], t) == if FirstNamed(l, t).Some? then FirstNamed(l, t)
                                      else if f.name == t then Some(|l|) else None
  {
    if l == [] {
      assert l + [f] == [f];
    } else {
      assert (l + [f])[1..] == l[1..] + [f];
      NamedPush(l[1..], f, t);
    }
  }

  /** A jump refers to the innermost frame, or to what it would refer to without it. */
  lemma TargetPush(l: seq<LoopFrame>, f: LoopFrame, t: Option<Label>)
    requires f.name.Some? ==> FirstNamed(l, f.name).None?
    ensures Target(l + [f], t) == if (t.None? && f.cont.Some?) || (t.Some? && t == f.name) then Some(|l|) else Target(l, t)
  {
    if t.Some? { NamedPush(l, f, t); } else { assert (l + [f])[..|l|] == l; }
  }

  // ----- destruction frames -----

  /** The frames with some variables registered in the innermost one. */
  function Extend(f: Frames, vs: seq<Var>): Frames
    requires f != []
  {
    f[..|f| - 1] + [f[|f| - 1] + vs]
  }

  /** The destruction of all frames above the given depth, innermost first. */
  function DestroyDown(f: Frames, depth: nat): Trace {
    if |f| <= depth then [] else Destroys(f[|f| - 1]) + DestroyDown(f[..|f| - 1], depth)
  }

  lemma DestroyOne(f: Frames, depth: nat, k: nat)
    requires depth <= k < |f|
    ensures DestroyDown(f[..k + 1], depth) == Destroys(f[k]) + DestroyDown(f[..k], depth)
  {
    assert f[..k + 1][..k] == f[..k];
  }

  /** All variables of some frames, in the order of their creation. */
  function Flat(f: Frames): seq<Var> {
    if f == [] then [] else Flat(f[..|f| - 1]) + f[|f| - 1]
  }

  lemma NoDestroys()
    ensures Destroys([]) == []
  {
  }

  lemma DestroysAppend(vs: seq<Var>, ws: seq<Var>)
    ensures Destroys(vs + ws) == Destroys(ws) + Destroys(vs)
  {
  }

  /** Leaving frames destroys their variables in exactly the reverse order of creation, and no others. */
  lemma {:induction false} DestroyDownReverses(f: Frames, depth: nat)
    requires depth <= |f|
    ensures DestroyDown(f, depth) == Destroys(Flat(f[depth..]))
  {
    hide Destroys;
    if depth == |f| {
      assert f[depth..] == [];
      NoDestroys();
    } else {
      var n := |f| - 1;
      DestroyDownReverses(f[..n], depth);
      assert f[depth..][..n - depth] == f[..n][depth..] && f[depth..][n - depth] == f[n];
      DestroysAppend(Flat(f[..n][depth..]), f[n]);
    }
  }

  lemma DestroyNone(f: Frames, depth: nat)
    requires |f| <= depth
    ensures DestroyDown(f, depth) == []
  {
  }

  lemma DestroyScope(f: Frames, vs: seq<Var>, depth: nat)
    requires depth <= |f|
    ensures DestroyDown(f + [vs], depth) == Destroys(vs) + DestroyDown(f, depth)
  {
    assert (f + [vs])[..|f|] == f;
  }

  lemma ExtendScope(f: Frames, vs: seq<Var>, ws: seq<Var>)
    ensures Extend(f + [vs], ws) == f + [vs + ws]
  {
  }

  lemma ExtendNone(f: Frames)
    requires f != []
    ensures Extend(f, []) == f
  {
    assert f[|f| - 1] + [] == f[|f| - 1];
  }

  lemma ExtendTwice(f: Frames, vs: seq<Var>, ws: seq<Var>)
    requires f != []
    ensures Extend(Extend(f, vs), ws) == Extend(f, vs + ws)
  {
    var e := Extend(f, vs);
    assert e[..|e| - 1] == f[..|f| - 1];
    assert f[|f| - 1] + vs + ws == f[|f| - 1] + (vs + ws);
  }

  // ----- linking -----

  function Relink(rho: Link, i: Instr): Instr {
    match i
    case Br(b) => Br(rho(b))
    case CondBr(b, c) => CondBr(rho(b), rho(c))
    case _ => i
  }

  function RelinkAll(rho: Link, cs: Code): (r: Code)
    ensures |r| == |cs|
    ensures forall k :: 0 <= k < |cs| ==> r[k] == Relink(rho, cs[k])
  {
    seq(|cs|, k requires 0 <= k < |cs| => Relink(rho, cs[k]))
  }

  /** The finished function g contains the blocks, redirected by rho. */
  ghost predicate Linked(code: Cfg, g: Cfg, rho: Link) {
    forall b :: b in code && code[b] != [] ==> rho(b) in g && RelinkAll(rho, code[b]) <= g[rho(b)]
  }

  /** The code of block b has cs from index i on. */
  ghost predicate Has(code: Cfg, b: BlockId, i: nat, cs: Code) {
    && b in code
    && i + |cs| <= |code[b]|
    && code[b][i..i + |cs|] == cs
  }

  lemma LinkedHas(code: Cfg, g: Cfg, rho: Link, b: BlockId, i: nat, cs: Code)
    requires Linked(code, g, rho) && Has(code, b, i, cs) && cs != []
    ensures Has(g, rho(b), i, RelinkAll(rho, cs))
  {
    var r := RelinkAll(rho, code[b]);
    assert r <= g[rho(b)];
    forall k | 0 <= k < |cs| ensures g[rho(b)][i + k] == Relink(rho, cs[k]) {
      assert code[b][i + k] == code[b][i..i + |cs|][k];
      assert g[rho(b)][i + k] == r[i + k];
    }
    assert g[rho(b)][i..i + |cs|] == RelinkAll(rho, cs);
  }

  /** Every block of the first is a beginning of the same block of the second. */
  ghost predicate Contains(code: Cfg, code': Cfg) {
    forall b :: b in code ==> b in code' && code[b] <= code'[b]
  }

  lemma LinkedPart(code: Cfg, code': Cfg, g: Cfg, rho: Link)
    requires Contains(code, code') && Linked(code', g, rho)
    ensures Linked(code, g, rho)
  {
    forall b | b in code && code[b] != [] ensures rho(b) in g && RelinkAll(rho, code[b]) <= g[rho(b)] {
      assert code[b] <= code'[b];
      assert RelinkAll(rho, code[b]) <= RelinkAll(rho, code'[b]);
    }
  }

  lemma HasPart(code: Cfg, code': Cfg, b: BlockId, i: nat, cs: Code)
    requires Contains(code, code') && Has(code, b, i, cs)
    ensures Has(code', b, i, cs)
  {
    assert code[b] <= code'[b];
    assert code'[b][i..i + |cs|] == code[b][i..i + |cs|];
  }

  // ----- reaching configurations -----

  /** After at least k steps the machine is at instruction i of block b with events tr. */
  ghost predicate Lands(g: Cfg, env: Env, c: Conf, k: nat, b: BlockId, i: nat, tr: Trace) {
    exists n: nat :: n >= k && var d := Run(g, env, n, c); d.At? && d.b == b && d.i == i && d.tr == tr
  }

  /** After at least k steps the machine is still running, with events tr. */
  ghost predicate Spins(g: Cfg, env: Env, c: Conf, k: nat, tr: Trace) {
    exists n: nat :: n >= k && var d := Run(g, env, n, c); d.At? && d.tr == tr
  }

  ghost predicate Ends(g: Cfg, env: Env, c: Conf, d: Conf) {
    exists n: nat :: Run(g, env, n, c) == d
  }

  /** Where control is after the code of a statement, and what surrounds the statement. */
  datatype Out = Out(terminal: bool, b: BlockId, i: nat, loops: seq<LoopFrame>, frames: Frames)

  /** The machine started in c does what the result says. */
  ghost predicate Matches(g: Cfg, rho: Link, env: Env, c: Conf, r: Result, fuel: nat, out: Out)
    requires out.frames != []
  {
    match r.exit
    case Normal => !out.terminal && Lands(g, env, c, 0, rho(out.b), out.i, r.tr)
    case Broke(t) =>
      var k := Target(out.loops, t);
      && k.Some? && out.loops[k.value].breaks > 0
      && Lands(g, env, c, 1, rho(out.loops[k.value].brk), 0,
               r.tr + DestroyDown(Extend(out.frames, r.decls), out.loops[k.value].size))
    case Continued(t) =>
      var k := Target(out.loops, t);
      && k.Some? && out.loops[k.value].continues > 0 && out.loops[k.value].cont.Some?
      && Lands(g, env, c, 1, rho(out.loops[k.value].cont.value), 0,
               r.tr + DestroyDown(Extend(out.frames, r.decls), out.loops[k.value].size))
    case Returned => Ends(g, env, c, Done(r.tr + DestroyDown(Extend(out.frames, r.decls), 0)))
    case Halted => Ends(g, env, c, Stopped(r.tr))
    case OutOfFuel => Spins(g, env, c, fuel, r.tr)
  }

  lemma LandsAfter(g: Cfg, env: Env, c: Conf, n: nat, k: nat, b: BlockId, i: nat, tr: Trace)
    requires Lands(g, env, Run(g, env, n, c), k, b, i, tr)
    ensures Lands(g, env, c, n + k, b, i, tr)
  {
    var d := Run(g, env, n, c);
    var m: nat :| m >= k && var e := Run(g, env, m, d); e.At? && e.b == b && e.i == i && e.tr == tr;
    RunAdd(g, env, n, m, c);
    assert Run(g, env, n + m, c) == Run(g, env, m, d);
  }

  lemma EndsAfter(g: Cfg, env: Env, c: Conf, n: nat, d: Conf)
    requires Ends(g, env, Run(g, env, n, c), d)
    ensures Ends(g, env, c, d)
  {
    var m: nat :| Run(g, env, m, Run(g, env, n, c)) == d;
    RunAdd(g, env, n, m, c);
    assert Run(g, env, n + m, c) == d;
  }

  lemma SpinsAfter(g: Cfg, env: Env, c: Conf, n: nat, k: nat, tr: Trace)
    requires Spins(g, env, Run(g, env, n, c), k, tr)
    ensures Spins(g, env, c, n + k, tr)
  {
    var d := Run(g, env, n, c);
    var m: nat :| m >= k && var e := Run(g, env, m, d); e.At? && e.tr == tr;
    RunAdd(g, env, n, m, c);
    assert Run(g, env, n + m, c) == Run(g, env, m, d);
  }

  lemma LandsFewer(g: Cfg, env: Env, c: Conf, k: nat, k': nat, b: BlockId, i: nat, tr: Trace)
    requires Lands(g, env, c, k, b, i, tr) && k' <= k
    ensures Lands(g, env, c, k', b, i, tr)
  {
    var n: nat :| n >= k && var d := Run(g, env, n, c); d.At? && d.b == b && d.i == i && d.tr == tr;
    assert n >= k' && var d := Run(g, env, n, c); d.At? && d.b == b && d.i == i && d.tr == tr;
  }

  /** What follows some steps, seen from before them; steps pay for fuel. */
  lemma Prepend(g: Cfg, rho: Link, env: Env, c: Conf, n: nat, r: Result, fuel: nat, fuel': nat, out: Out)
    requires out.frames != [] && fuel' <= fuel + n
    requires Matches(g, rho, env, Run(g, env, n, c), r, fuel, out)
    ensures Matches(g, rho, env, c, r, fuel', out)
  {
    var d := Run(g, env, n, c);
    match r.exit
    case Normal =>
      LandsAfter(g, env, c, n, 0, rho(out.b), out.i, r.tr);
      LandsFewer(g, env, c, n, 0, rho(out.b), out.i, r.tr);
    case Broke(t) =>
      var f := out.loops[Target(out.loops, t).value];
      var tr := r.tr + DestroyDown(Extend(out.frames, r.decls), f.size);
      LandsAfter(g, env, c, n, 1, rho(f.brk), 0, tr);
      LandsFewer(g, env, c, n + 1, 1, rho(f.brk), 0, tr);
    case Continued(t) =>
      var f := out.loops[Target(out.loops, t).value];
      var tr := r.tr + DestroyDown(Extend(out.frames, r.decls), f.size);
      LandsAfter(g, env, c, n, 1, rho(f.cont.value), 0, tr);
      LandsFewer(g, env, c, n + 1, 1, rho(f.cont.value), 0, tr);
    case Returned => EndsAfter(g, env, c, n, Done(r.tr + DestroyDown(Extend(out.frames, r.decls), 0)));
    case Halted => EndsAfter(g, env, c, n, Stopped(r.tr));
    case OutOfFuel =>
      SpinsAfter(g, env, c, n, fuel, r.tr);
      var m: nat :| m >= n + fuel && var d := Run(g, env, m, c); d.At? && d.tr == r.tr;
      assert m >= fuel' && var d := Run(g, env, m, c); d.At? && d.tr == r.tr;
  }

  /** More recorded jumps, and a place to fall through to, only permit more. */
  lemma MatchesGrow(g: Cfg, rho: Link, env: Env, c: Conf, r: Result, fuel: nat, out: Out, out': Out)
    requires out.frames != [] && out'.frames == out.frames && LoopsGrow(out.loops, out'.loops)
    requires Matches(g, rho, env, c, r, fuel, out)
    requires r.exit.Normal? && !out.terminal ==> !out'.terminal && out'.b == out.b && out'.i == out.i
    ensures Matches(g, rho, env, c, r, fuel, out')
  {
    if r.exit.Broke? || r.exit.Continued? {
      TargetGrow(out.loops, out'.loops, r.exit.target);
      var k := Target(out.loops, r.exit.target);
      assert Same(out.loops[k.value], out'.loops[k.value]);
    }
  }
}
