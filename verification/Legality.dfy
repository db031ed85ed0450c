/**
 * Which statements can be lowered, by their syntax alone: jumps have targets,
 * labels are not reused, returns fit the function, the ranges of switches are
 * accepted, and nothing stands where control cannot get to.
 */
module Legality {

  import opened Options
  import opened SwitchRanges
  import opened StructuredCode
  import opened Simulation
  import opened CompoundRules

  /** A loop, or a labelled block, that a statement stands in. */
  datatype Place = Place(name: Option<Label>, loop: bool)

  type Context = seq<Place>

  /** What depends on the function and the language: whether a value is returned, and the words that name nothing. */
  datatype Rules = Rules(returnsVoid: bool, keywords: set<Label>)

  /** Whether a statement is legal, whether control cannot fall out of it, and the places it jumps to. */
  datatype Report = Report(ok: bool, ends: bool, breaks: set<nat>, continues: set<nat>)

  const FALLS := Report(true, false, {}, {})

  // ----- jump targets -----

  function Named(ctx: Context, name: Option<Label>): (k: Option<nat>)
    ensures k.Some? ==> k.value < |ctx|
  {
    if ctx == [] then None
    else if ctx[0].name == name then Some(0)
    else
      match Named(ctx[1..], name)
      case None => None
      case Some(k) => Some(k + 1)
  }

  function Innermost(ctx: Context): (k: Option<nat>)
    ensures k.Some? ==> k.value < |ctx|
  {
    if ctx == [] then None
    else if ctx[|ctx| - 1].loop then Some(|ctx| - 1)
    else Innermost(ctx[..|ctx| - 1])
  }

  function Aim(ctx: Context, target: Option<Label>): (k: Option<nat>)
    ensures k.Some? ==> k.value < |ctx|
  {
    if target.Some? then Named(ctx, target) else Innermost(ctx)
  }

  /** A label that is a keyword, or is in use. */
  predicate BadLabel(ctx: Context, name: Option<Label>, rules: Rules) {
    name.Some? && (name.value in rules.keywords || Named(ctx, name).Some?)
  }

  // ----- judging statements -----

  function Both(r: Report, r': Report): Report {
    Report(r.ok && r'.ok, r.ends && r'.ends, r.breaks + r'.breaks, r.continues + r'.continues)
  }

  /** The report on a body, seen from outside the place it stands in. */
  function Outside(r: Report, ctx: Context, name: Option<Label>, rules: Rules, ends: bool): Report {
    Report(r.ok && !BadLabel(ctx, name, rules), ends, r.breaks - {|ctx|}, r.continues - {|ctx|})
  }

  ghost function Judge(s: Stmt, ctx: Context, rules: Rules): Report
    decreases s, 0
  {
    match s
    case Simple(_) => FALLS
    case Declare(_) => FALLS
    case HaltIf(_) => FALLS
    case Halt => FALLS.(ends := true)
    case Return(result) => Report(result.None? == rules.returnsVoid, true, {}, {})
    case Break(target) =>
      var k := Aim(ctx, target);
      if k.None? then Report(false, true, {}, {}) else Report(true, true, {k.value}, {})
    case Continue(target) =>
      var k := Aim(ctx, target);
      if k.None? || !ctx[k.value].loop then Report(false, true, {}, {}) else Report(true, true, {}, {k.value})
    case Scope(name, body) =>
      if name.None? then JudgeBlock(body, ctx, rules)
      else
        var r := JudgeBlock(body, ctx + [Place(name, false)], rules);
        Outside(r, ctx, name, rules, r.ends && |ctx| !in r.breaks)
    case If(choice) => JudgeIf(choice, ctx, rules)
    case While(name, _, body) => Outside(JudgeBlock(body, ctx + [Place(name, true)], rules), ctx, name, rules, false)
    case Loop(name, body) =>
      var r := JudgeBlock(body, ctx + [Place(name, true)], rules);
      Outside(r, ctx, name, rules, |ctx| !in r.breaks)
    case CStyleFor(name, _, _, _, body) =>
      Outside(JudgeBlock(body, ctx + [Place(name, true)], rules), ctx, name, rules, false)
    case TupleFor(name, _, elements, body) =>
      if elements == [] then FALLS else JudgePasses(name, body, ctx, rules, false)
    case With(_, _, _, body) => JudgeBlock(body, ctx, rules)
    case Switch(_, kind, cases) =>
      if !SwitchOk(kind, cases) then Report(false, false, {}, {})
      else
        var k := DefaultCase(cases);
        if k.None? then JudgeCases(cases, ctx, rules)
        else
          var c := cases[k.value];
          assert c in cases && c.body < c;
          Both(JudgeCases(cases, ctx, rules), JudgeBlock(c.body, ctx, rules))
  }

  /** The body of a tuple-for; it cannot be fallen out of only if no pass goes on to the next and none breaks. */
  ghost function JudgePasses(name: Option<Label>, body: Block, ctx: Context, rules: Rules, broken: bool): Report
    decreases body, 2
  {
    var r := JudgeBlock(body, ctx + [Place(name, true)], rules);
    Outside(r, ctx, name, rules, r.ends && |ctx| !in r.continues && |ctx| !in r.breaks && !broken)
  }

  ghost predicate SwitchOk(kind: IntType, cases: seq<Case>) {
    && kind.Valid() && CasesValid(kind, cases) && SingleDefault(cases)
    && kind.Accepted(AllRanges(cases), DefaultCase(cases).Some?)
  }

  /** All cases but the default one. */
  ghost function JudgeCases(cases: seq<Case>, ctx: Context, rules: Rules): Report
    decreases cases, 0
  {
    if cases == [] then FALLS.(ends := true)
    else if cases[0].ranges.None? then JudgeCases(cases[1..], ctx, rules)
    else
      var c := cases[0];
      assert c in cases && c.body < c;
      Both(JudgeBlock(c.body, ctx, rules), JudgeCases(cases[1..], ctx, rules))
  }

  ghost function JudgeIf(choice: IfOperator, ctx: Context, rules: Rules): Report
    decreases choice, 0
  {
    var r := JudgeBlock(choice.body, ctx, rules);
    match choice.alternative
    case NoElse => r.(ends := false)
    case Else(body) => Both(r, JudgeBlock(body, ctx, rules))
    case ElseIf(choice') => Both(r, JudgeIf(choice', ctx, rules))
  }

  /** Statements in a row; after one that control cannot pass nothing may follow. */
  ghost function JudgeBlock(b: Block, ctx: Context, rules: Rules): Report
    decreases b, 1
  {
    match b
    case Empty => FALLS
    case Cons(s, rest) =>
      var r := Judge(s, ctx, rules);
      if rest.Empty? then r
      else
        var r' := JudgeBlock(rest, ctx, rules);
        Report(r.ok && !r.ends && r'.ok, r'.ends, r.breaks + r'.breaks, r.continues + r'.continues)
  }

  // ----- what the builder reports -----

  function Around(loops: seq<LoopFrame>): (ctx: Context)
    ensures |ctx| == |loops|
    ensures forall k :: 0 <= k < |loops| ==> ctx[k] == Place(loops[k].name, loops[k].cont.Some?)
  {
    seq(|loops|, k requires 0 <= k < |loops| => Place(loops[k].name, loops[k].cont.Some?))
  }

  lemma {:induction false} AroundNamed(loops: seq<LoopFrame>, name: Option<Label>)
    ensures Named(Around(loops), name) == FirstNamed(loops, name)
  {
    if loops != [] {
      assert Around(loops)[1..] == Around(loops[1..]);
      AroundNamed(loops[1..], name);
    }
  }

  lemma {:induction false} AroundInnermost(loops: seq<LoopFrame>)
    ensures Innermost(Around(loops)) == LastLoop(loops)
  {
    if loops != [] {
      assert Around(loops)[..|loops| - 1] == Around(loops[..|loops| - 1]);
      AroundInnermost(loops[..|loops| - 1]);
    }
  }

  lemma AroundAim(loops: seq<LoopFrame>, target: Option<Label>)
    ensures Aim(Around(loops), target) == Target(loops, target)
  {
    if target.Some? { AroundNamed(loops, target); } else { AroundInnermost(loops); }
  }

  /** The same frames; a jump to one is recorded if it was before, or if the report names it. */
  ghost predicate Marked(l: seq<LoopFrame>, l': seq<LoopFrame>, breaks: set<nat>, continues: set<nat>) {
    && |l| == |l'|
    && forall k :: 0 <= k < |l| ==> MarkedAt(l[k], l'[k], k in breaks, k in continues)
  }

  ghost predicate MarkedAt(f: LoopFrame, f': LoopFrame, brk: bool, cont: bool) {
    && f'.name == f.name && f'.cont == f.cont
    && (f'.breaks > 0 <==> f.breaks > 0 || brk) && (f'.continues > 0 <==> f.continues > 0 || cont)
  }

  /** Errors are reported exactly if there were some or the report says so; else the report tells what happened. */
  ghost predicate Told(e: bool, l: seq<LoopFrame>, e': bool, l': seq<LoopFrame>, terminal: bool, r: Report) {
    && (e' <==> e || !r.ok)
    && (!e' ==> terminal == r.ends && Marked(l, l', r.breaks, r.continues))
  }

  lemma ToldFalls(e: bool, l: seq<LoopFrame>)
    ensures Told(e, l, e, l, false, FALLS)
  {
  }

  lemma MarkedAround(l: seq<LoopFrame>, l': seq<LoopFrame>, breaks: set<nat>, continues: set<nat>)
    requires Marked(l, l', breaks, continues)
    ensures Around(l') == Around(l)
  {
    forall k | 0 <= k < |l| ensures Around(l')[k] == Around(l)[k] { assert MarkedAt(l[k], l'[k], k in breaks, k in continues); }
  }

  lemma MarkedTrans(l: seq<LoopFrame>, l': seq<LoopFrame>, l'': seq<LoopFrame>, b: set<nat>, c: set<nat>, b': set<nat>,
                    c': set<nat>)
    requires Marked(l, l', b, c) && Marked(l', l'', b', c')
    ensures Marked(l, l'', b + b', c + c')
  {
    forall k | 0 <= k < |l| ensures MarkedAt(l[k], l''[k], k in b + b', k in c + c') {
      assert MarkedAt(l[k], l'[k], k in b, k in c) && MarkedAt(l'[k], l''[k], k in b', k in c');
    }
  }

  /** Two parts, the second built where the first one left off. */
  lemma ToldTwice(e: bool, l: seq<LoopFrame>, e': bool, l': seq<LoopFrame>, e'': bool, l'': seq<LoopFrame>, t: bool, t': bool,
                  r: Report, found: Report, r': Report, terminal: bool)
    requires Told(e, l, e', l', t, r) && Told(e', l', e'', l'', t', found)
    requires !e' && Around(l') == Around(l) ==> found == r'
    requires !e'' ==> terminal == (t && t')
    ensures Told(e, l, e'', l'', terminal, Both(r, r'))
  {
    if !e' { MarkedAround(l, l', r.breaks, r.continues); }
    if !e'' { MarkedTrans(l, l', l'', r.breaks, r.continues, r'.breaks, r'.continues); }
  }

  /** A statement and those after it; "unreachable" is whether that was an error. */
  lemma ToldSequence(e: bool, l: seq<LoopFrame>, e': bool, l': seq<LoopFrame>, e'': bool, l'': seq<LoopFrame>, t: bool, t': bool,
                     r: Report, found: Report, r': Report)
    requires Told(e, l, e', l', t, r) && Told(e' || t, l', e'', l'', t', found)
    requires !e' && Around(l') == Around(l) ==> found == r'
    ensures Told(e, l, e'', l'', t || t', Report(r.ok && !r.ends && r'.ok, r'.ends, r.breaks + r'.breaks, r.continues + r'.continues))
  {
    if !e' { MarkedAround(l, l', r.breaks, r.continues); }
    if !e'' { MarkedTrans(l, l', l'', r.breaks, r.continues, r'.breaks, r'.continues); }
  }

  // ----- frames -----

  /** A new innermost frame; a reused label is an error. */
  ghost predicate Pushed(e: bool, l: seq<LoopFrame>, e': bool, l': seq<LoopFrame>, name: Option<Label>, loop: bool,
                         rules: Rules) {
    && (e' <==> e || RefusedLabel(rules.keywords, l, name))
    && |l'| == |l| + 1 && l'[..|l|] == l
    && l'[|l|].name == name && l'[|l|].cont.Some? == loop && l'[|l|].breaks == l'[|l|].continues == 0
  }

  lemma PushedSize(e: bool, l: seq<LoopFrame>, e': bool, l': seq<LoopFrame>, name: Option<Label>, loop: bool,
                   rules: Rules)
    requires Pushed(e, l, e', l', name, loop, rules)
    ensures |l'| == |l| + 1
  {
  }

  lemma PushedAround(e: bool, l: seq<LoopFrame>, e': bool, l': seq<LoopFrame>, name: Option<Label>, loop: bool,
                     rules: Rules)
    requires Pushed(e, l, e', l', name, loop, rules)
    ensures Around(l') == Around(l) + [Place(name, loop)]
  {
    forall k | 0 <= k < |l| ensures Around(l')[k] == Around(l)[k] { assert l'[k] == l'[..|l|][k]; }
  }

  /** A body built inside a new frame: what was recorded in the frame. */
  lemma InsideFrame(e: bool, l: seq<LoopFrame>, w: bool, lw: seq<LoopFrame>, e': bool, l': seq<LoopFrame>,
                    name: Option<Label>, loop: bool, rules: Rules, t: bool, r: Report)
    requires Pushed(e, l, w, lw, name, loop, rules) && Told(w, lw, e', l', t, r) && !e'
    ensures |l'| == |l| + 1
    ensures (l'[|l|].breaks > 0 <==> |l| in r.breaks) && (l'[|l|].continues > 0 <==> |l| in r.continues)
  {
    assert MarkedAt(lw[|l|], l'[|l|], |l| in r.breaks, |l| in r.continues);
  }

  /** A body built inside a new frame, seen after the frame is gone. */
  lemma ToldInside(e: bool, l: seq<LoopFrame>, w: bool, lw: seq<LoopFrame>, e': bool, l': seq<LoopFrame>, l'': seq<LoopFrame>,
                   name: Option<Label>, loop: bool, rules: Rules, t: bool, r: Report, ends: bool, terminal: bool)
    requires Pushed(e, l, w, lw, name, loop, rules) && Told(w, lw, e', l', t, r)
    requires !e' ==> |l'| == |l| + 1 && l'' == l'[..|l|] && terminal == ends
    ensures Told(e, l, e', l'', terminal, Outside(r, Around(l), name, rules, ends))
  {
    AroundNamed(l, name);
    if !e' {
      forall k | 0 <= k < |l| ensures MarkedAt(l[k], l''[k], k in r.breaks - {|l|}, k in r.continues - {|l|}) {
        assert lw[k] == lw[..|l|][k];
        assert MarkedAt(lw[k], l'[k], k in r.breaks, k in r.continues);
      }
    }
  }

  /** A pass of a tuple-for, and the passes after it, tell no more than one pass does. */
  lemma ToldAgain(e: bool, l: seq<LoopFrame>, e': bool, l': seq<LoopFrame>, e'': bool, l'': seq<LoopFrame>, t: bool, t': bool,
                  r: Report, found: Report, r': Report)
    requires Told(e, l, e', l', t, r) && Told(e', l', e'', l'', t', found)
    requires (!e' && Around(l') == Around(l) ==> found == r')
    requires r'.ok == r.ok && r'.breaks == r.breaks && r'.continues == r.continues
    ensures Told(e, l, e'', l'', t', r')
  {
    if !e' { MarkedAround(l, l', r.breaks, r.continues); }
    if !e'' {
      MarkedTrans(l, l', l'', r.breaks, r.continues, r'.breaks, r'.continues);
      assert r.breaks + r'.breaks == r'.breaks && r.continues + r'.continues == r'.continues;
    }
  }

  lemma ToldEnds(e: bool, l: seq<LoopFrame>)
    ensures Told(e, l, e, l, true, FALLS.(ends := true))
  {
  }

  lemma ToldWrong(e: bool, l: seq<LoopFrame>, ends: bool)
    ensures Told(e, l, true, l, ends, Report(false, ends, {}, {}))
  {
  }

  lemma ToldEnding(e: bool, l: seq<LoopFrame>, e': bool, l': seq<LoopFrame>, t: bool, r: Report)
    requires Told(e, l, e', l', t, r) && !e'
    ensures t == r.ends
  {
  }

  /** A jump recorded in its frame. */
  lemma ToldJump(e: bool, l: seq<LoopFrame>, l': seq<LoopFrame>, k: nat, isBreak: bool)
    requires k < |l|
    requires l' == l[k := if isBreak then l[k].(breaks := l[k].breaks + 1) else l[k].(continues := l[k].continues + 1)]
    ensures Told(e, l, e, l', true, Report(true, true, if isBreak then {k} else {}, if isBreak then {} else {k}))
  {
  }

  /** A loop whose body was built inside its frame. */
  lemma ToldLoop(e: bool, l: seq<LoopFrame>, w: bool, lw: seq<LoopFrame>, e': bool, l': seq<LoopFrame>, l'': seq<LoopFrame>,
                 name: Option<Label>, rules: Rules, t: bool, r: Report, ends: bool, terminal: bool)
    requires Pushed(e, l, w, lw, name, true, rules) && Told(w, lw, e', l', t, r)
    requires !e' ==> |l'| == |l| + 1 && l'' == l'[..|l|] && terminal == ends
    ensures Told(e, l, e', l'', terminal, Outside(r, Around(l), name, rules, ends))
  {
    ToldInside(e, l, w, lw, e', l', l'', name, true, rules, t, r, ends, terminal);
  }

  lemma CasesJudged(cases: seq<Case>, ctx: Context, rules: Rules)
    ensures JudgeCases(cases, ctx, rules) ==
      if cases == [] then FALLS.(ends := true)
      else if cases[0].ranges.None? then JudgeCases(cases[1..], ctx, rules)
      else Both(JudgeBlock(cases[0].body, ctx, rules), JudgeCases(cases[1..], ctx, rules))
  {
  }

  lemma WithJudged(s: Stmt, ctx: Context, rules: Rules)
    requires s.With?
    ensures Judge(s, ctx, rules) == JudgeBlock(s.body, ctx, rules)
  {
  }

  lemma PlainJudged(name: Option<Label>, body: Block, ctx: Context, rules: Rules)
    requires name.None?
    ensures Judge(Scope(name, body), ctx, rules) == JudgeBlock(body, ctx, rules)
  {
  }

  /** A labelled block, which a break to its label leaves. */
  lemma LabelTold(name: Option<Label>, body: Block, e: bool, l: seq<LoopFrame>, w: bool, lw: seq<LoopFrame>, e': bool, l': seq<LoopFrame>,
                  l'': seq<LoopFrame>, t: bool, rules: Rules, terminal: bool)
    requires name.Some? && Pushed(e, l, w, lw, name, false, rules)
    requires Told(w, lw, e', l', t, JudgeBlock(body, Around(lw), rules))
    requires |l'| == |l| + 1 && l'' == l'[..|l|] && terminal == (t && l'[|l|].breaks == 0)
    ensures Told(e, l, e', l'', terminal, Judge(Scope(name, body), Around(l), rules))
  {
    PushedAround(e, l, w, lw, name, false, rules);
    var r := JudgeBlock(body, Around(lw), rules);
    if !e' {
      InsideFrame(e, l, w, lw, e', l', name, false, rules, t, r);
      ToldEnding(w, lw, e', l', t, r);
    }
    ToldInside(e, l, w, lw, e', l', l'', name, false, rules, t, r, r.ends && |l| !in r.breaks, terminal);
  }

  /** An endless loop, which only a break leaves. */
  lemma EndlessTold(s: Stmt, e: bool, l: seq<LoopFrame>, w: bool, lw: seq<LoopFrame>, e': bool, l': seq<LoopFrame>, l'': seq<LoopFrame>,
                    t: bool, rules: Rules, terminal: bool)
    requires s.Loop? && Pushed(e, l, w, lw, s.name, true, rules)
    requires Told(w, lw, e', l', t, JudgeBlock(s.body, Around(lw), rules))
    requires |l'| == |l| + 1 && l'' == l'[..|l|] && terminal == (l'[|l|].breaks == 0)
    ensures Told(e, l, e', l'', terminal, Judge(s, Around(l), rules))
  {
    PushedAround(e, l, w, lw, s.name, true, rules);
    var r := JudgeBlock(s.body, Around(lw), rules);
    if !e' { InsideFrame(e, l, w, lw, e', l', s.name, true, rules, t, r); }
    ToldLoop(e, l, w, lw, e', l', l'', s.name, rules, t, r, |l| !in r.breaks, terminal);
  }

  ghost function AlternativeReport(alternative: Alternative, ctx: Context, rules: Rules): Report
    requires !alternative.NoElse?
  {
    if alternative.Else? then JudgeBlock(alternative.body, ctx, rules) else JudgeIf(alternative.choice, ctx, rules)
  }

  lemma JudgeIfIs(choice: IfOperator, ctx: Context, rules: Rules)
    requires !choice.alternative.NoElse?
    ensures JudgeIf(choice, ctx, rules) == Both(JudgeBlock(choice.body, ctx, rules), AlternativeReport(choice.alternative, ctx, rules))
  {
  }

  /** One pass of a tuple-for. */
  lemma PassTold(e: bool, l: seq<LoopFrame>, w: bool, lw: seq<LoopFrame>, e': bool, l': seq<LoopFrame>, l'': seq<LoopFrame>,
                 name: Option<Label>, body: Block, t: bool, rules: Rules, broken: bool, goesOn: bool, breaks: bool)
    requires Pushed(e, l, w, lw, name, true, rules) && Told(w, lw, e', l', t, JudgeBlock(body, Around(lw), rules))
    requires |l'| == |l| + 1 && l'' == l'[..|l|] && goesOn == (!t || l'[|l|].continues > 0)
    requires breaks == (l'[|l|].breaks > 0)
    ensures Told(e, l, e', l'', !goesOn && !broken && !breaks, JudgePasses(name, body, Around(l), rules, broken))
    ensures !e' && goesOn ==> JudgePasses(name, body, Around(l), rules, broken || breaks) == JudgePasses(name, body, Around(l), rules, broken)
  {
    PushedAround(e, l, w, lw, name, true, rules);
    var r := JudgeBlock(body, Around(lw), rules);
    if !e' { InsideFrame(e, l, w, lw, e', l', name, true, rules, t, r); }
    ToldInside(e, l, w, lw, e', l', l'', name, true, rules, t, r,
               JudgePasses(name, body, Around(l), rules, broken).ends, !goesOn && !broken && !breaks);
  }
}
