/**
 * The structured statements of a function body and what running them means.
 *
 * Expressions are opaque: evaluating one is an event, and the value it yields may
 * be any function of everything that happened before.  A statement is run directly
 * on its syntax tree; every scope destroys its own variables, in reverse order of
 * their creation, whenever control leaves it.
 */
module StructuredCode {

  import opened Options
  import opened SwitchRanges

  type Var = nat
  type Label = string

  datatype Event = Eval(id: nat) | Init(v: Var) | Destroy(v: Var)
  type Trace = seq<Event>

  /** What the opaque expressions evaluate to, given the events so far. */
  datatype Env = Env(test: (nat, Trace) -> bool, value: (nat, Trace) -> nat)

  /** An expression and the temporaries it leaves in the destruction frame it is built in. */
  datatype Expr = Expr(id: nat, temps: seq<Var>)

  datatype Decl = Decl(init: Expr, v: Var)

  /** A case of a switch: its ranges, or nothing for the default case. */
  datatype Case = Case(ranges: Option<seq<Range>>, body: Block)

  datatype IfOperator = IfOperator(cond: Expr, body: Block, alternative: Alternative)

  datatype Alternative = NoElse | Else(body: Block) | ElseIf(choice: IfOperator)

  datatype Block = Empty | Cons(head: Stmt, tail: Block)

  datatype Stmt =
    | Simple(e: Expr)
    | Declare(decls: seq<Decl>)
    | Scope(name: Option<Label>, body: Block)
    | If(choice: IfOperator)
    | While(name: Option<Label>, cond: Expr, body: Block)
    | Loop(name: Option<Label>, body: Block)
    | CStyleFor(name: Option<Label>, decls: seq<Decl>, test: Option<Expr>, step: seq<Expr>, body: Block)
    | TupleFor(name: Option<Label>, e: Expr, elements: seq<Option<Var>>, body: Block)
    | With(e: Expr, unused: seq<set<Var>>, bound: Option<Var>, body: Block)
    | Switch(e: Expr, kind: IntType, cases: seq<Case>)
    | Break(target: Option<Label>)
    | Continue(target: Option<Label>)
    | Return(result: Option<Expr>)
    | Halt
    | HaltIf(cond: Expr)

  datatype Exit =
    | Normal
    | Broke(target: Option<Label>)
    | Continued(target: Option<Label>)
    | Returned
    | Halted
    | OutOfFuel

  /** How a run ended, all events so far, and the variables it declared in the enclosing scope. */
  datatype Result = Result(exit: Exit, tr: Trace, decls: seq<Var>)

  // ----- events of expressions and declarations -----

  function Inits(vs: seq<Var>): Trace {
    seq(|vs|, i requires 0 <= i < |vs| => Init(vs[i]))
  }

  /** Destruction happens in reverse order of creation. */
  function Destroys(vs: seq<Var>): Trace {
    seq(|vs|, i requires 0 <= i < |vs| => Destroy(vs[|vs| - 1 - i]))
  }

  function Enter(e: Expr, tr: Trace): Trace {
    tr + [Eval(e.id)] + Inits(e.temps)
  }

  function After(e: Expr, tr: Trace): Trace {
    Enter(e, tr) + Destroys(e.temps)
  }

  function AfterAll(es: seq<Expr>, tr: Trace): Trace {
    if es == [] then tr else AfterAll(es[1..], After(es[0], tr))
  }

  /** The variable comes to life before the temporaries of its initializer die. */
  function AfterDecl(d: Decl, tr: Trace): Trace {
    Enter(d.init, tr) + [Init(d.v)] + Destroys(d.init.temps)
  }

  function AfterDecls(ds: seq<Decl>, tr: Trace): Trace {
    if ds == [] then tr else AfterDecls(ds[1..], AfterDecl(ds[0], tr))
  }

  function Declared(ds: seq<Decl>): seq<Var> {
    seq(|ds|, i requires 0 <= i < |ds| => ds[i].v)
  }

  function Bound(v: Option<Var>): seq<Var> {
    if v.Some? then [v.value] else []
  }

  // ----- temporaries that are not needed any more -----

  function Keep(vs: seq<Var>, dead: set<Var>): seq<Var> {
    if vs == [] then [] else (if vs[0] in dead then [] else [vs[0]]) + Keep(vs[1..], dead)
  }

  function Gone(vs: seq<Var>, dead: set<Var>): seq<Var> {
    if vs == [] then [] else (if vs[0] in dead then [vs[0]] else []) + Gone(vs[1..], dead)
  }

  /** What several passes leave, each of which takes out what nothing refers to any more. */
  function KeepAll(vs: seq<Var>, passes: seq<set<Var>>): seq<Var>
    decreases |passes|
  {
    if passes == [] then vs else KeepAll(Keep(vs, passes[0]), passes[1..])
  }

  function GoneAll(vs: seq<Var>, passes: seq<set<Var>>): seq<Var>
    decreases |passes|
  {
    if passes == [] then [] else Gone(vs, passes[0]) + GoneAll(Keep(vs, passes[0]), passes[1..])
  }

  /** Unused temporaries die in the order of their creation. */
  function Drops(vs: seq<Var>): Trace {
    seq(|vs|, i requires 0 <= i < |vs| => Destroy(vs[i]))
  }

  /** What happens between the expression of a "with" and its body. */
  function Opened(s: Stmt): Trace
    requires s.With?
  {
    Inits(Bound(s.bound)) + Drops(GoneAll(s.e.temps, s.unused))
  }

  /** The variables in the scope of a "with". */
  function Held(s: Stmt): seq<Var>
    requires s.With?
  {
    KeepAll(s.e.temps, s.unused) + Bound(s.bound)
  }

  /** A condition is decided before its temporaries are destroyed. */
  predicate Holds(env: Env, c: Expr, tr: Trace) {
    env.test(c.id, Enter(c, tr))
  }

  function Value(env: Env, e: Expr, kind: IntType, tr: Trace): nat {
    kind.Clip(env.value(e.id, Enter(e, tr)))
  }

  // ----- running statements -----

  predicate BreaksLoop(exit: Exit, name: Option<Label>) {
    exit.Broke? && (exit.target.None? || exit.target == name)
  }

  predicate ContinuesLoop(exit: Exit, name: Option<Label>) {
    exit.Normal? || (exit.Continued? && (exit.target.None? || exit.target == name))
  }

  function Ended(exit: Exit, tr: Trace): Result {
    Result(exit, tr, [])
  }

  /** Leaving a scope destroys its variables, unless the program never gets to leave it. */
  function Leave(r: Result, vars: seq<Var>): Result {
    if r.exit.Halted? || r.exit.OutOfFuel? then Ended(r.exit, r.tr)
    else Ended(r.exit, r.tr + Destroys(vars + r.decls))
  }

  /** The first case whose ranges contain the value, else the default one, else none. */
  function Selected(kind: IntType, cases: seq<Case>, v: nat): (k: Option<nat>)
    ensures k.Some? ==> k.value < |cases|
  {
    if cases == [] then None
    else if cases[0].ranges.Some? && kind.InSome(cases[0].ranges.value, v) then Some(0)
    else
      match Selected(kind, cases[1..], v)
      case Some(k) => Some(k + 1)
      case None => if cases[0].ranges.None? then Some(0) else None
  }

  /**
   * Runs one statement.  The fuel bounds how often loops may go round: a run that
   * uses it up stops with OutOfFuel and everything that happened up to there.
   */
  function Exec(env: Env, s: Stmt, tr: Trace, fuel: nat): (r: Result)
    ensures r.decls == DeclaredBy(s)
    decreases fuel, s, 0
  {
    match s
    case Simple(e) => Ended(Normal, After(e, tr))
    case Declare(ds) => Result(Normal, AfterDecls(ds, tr), Declared(ds))
    case Scope(name, body) =>
      var r := ExecScope(env, [], body, tr, fuel);
      if name.Some? && r.exit == Broke(name) then Ended(Normal, r.tr) else r
    case If(choice) => ExecIf(env, choice, tr, fuel)
    case While(name, c, body) => Iterate(env, name, Some(c), [], body, tr, fuel)
    case Loop(name, body) => Iterate(env, name, None, [], body, tr, fuel)
    case CStyleFor(name, ds, test, step, body) =>
      Leave(Iterate(env, name, test, step, body, AfterDecls(ds, tr), fuel), Declared(ds))
    case TupleFor(name, e, elements, body) =>
      Leave(ForEach(env, name, elements, body, Enter(e, tr), fuel), e.temps)
    case With(e, _, _, body) => ExecScope(env, Held(s), body, Enter(e, tr) + Opened(s), fuel)
    case Switch(e, kind, cases) =>
      var k := Selected(kind, cases, Value(env, e, kind, tr));
      if k.None? then Ended(Normal, After(e, tr))
      else
        assert cases[k.value] in cases;
        ExecScope(env, [], cases[k.value].body, After(e, tr), fuel)
    case Break(target) => Ended(Broke(target), tr)
    case Continue(target) => Ended(Continued(target), tr)
    case Return(result) => Ended(Returned, if result.None? then tr else After(result.value, tr))
    case Halt => Ended(Halted, tr)
    case HaltIf(c) => Ended(if Holds(env, c, tr) then Halted else Normal, After(c, tr))
  }

  function ExecIf(env: Env, choice: IfOperator, tr: Trace, fuel: nat): (r: Result)
    ensures r.decls == []
    decreases fuel, choice, 0
  {
    var tr' := After(choice.cond, tr);
    if Holds(env, choice.cond, tr) then ExecScope(env, [], choice.body, tr', fuel)
    else
      match choice.alternative
      case NoElse => Ended(Normal, tr')
      case Else(body) => ExecScope(env, [], body, tr', fuel)
      case ElseIf(choice') => ExecIf(env, choice', tr', fuel)
  }

  /** The variables a statement declares in the scope it stands in. */
  function DeclaredBy(s: Stmt): seq<Var> {
    if s.Declare? then Declared(s.decls) else []
  }

  function DeclaredIn(b: Block): seq<Var> {
    if b.Empty? then [] else DeclaredBy(b.head) + DeclaredIn(b.tail)
  }

  /** Runs statements one after the other in the same scope. */
  function ExecBlock(env: Env, b: Block, tr: Trace, fuel: nat): (r: Result)
    ensures r.exit.Normal? ==> r.decls == DeclaredIn(b)
    decreases fuel, b, 0
  {
    match b
    case Empty => Ended(Normal, tr)
    case Cons(s, rest) =>
      var r := Exec(env, s, tr, fuel);
      if r.exit.Normal? then
        var r' := ExecBlock(env, rest, r.tr, fuel);
        Result(r'.exit, r'.tr, r.decls + r'.decls)
      else r
  }

  /** Runs statements in a scope of their own that already holds some variables. */
  function ExecScope(env: Env, vars: seq<Var>, b: Block, tr: Trace, fuel: nat): (r: Result)
    ensures r.decls == []
    decreases fuel, b, 1
  {
    Leave(ExecBlock(env, b, tr, fuel), vars)
  }

  /** While the test holds: the body, then the step expressions. */
  function Iterate(env: Env, name: Option<Label>, test: Option<Expr>, step: seq<Expr>, body: Block,
                   tr: Trace, fuel: nat): (r: Result)
    ensures r.decls == []
    decreases fuel, body, 2
  {
    if fuel == 0 then Ended(OutOfFuel, tr)
    else if test.Some? && !Holds(env, test.value, tr) then Ended(Normal, After(test.value, tr))
    else
      var tr' := if test.Some? then After(test.value, tr) else tr;
      var r := ExecScope(env, [], body, tr', fuel);
      if BreaksLoop(r.exit, name) then Ended(Normal, r.tr)
      else if ContinuesLoop(r.exit, name) then Iterate(env, name, test, step, body, AfterAll(step, r.tr), fuel - 1)
      else r
  }

  /** The body once for each tuple element, in a scope that holds the element variable. */
  function ForEach(env: Env, name: Option<Label>, elements: seq<Option<Var>>, body: Block, tr: Trace, fuel: nat): (r: Result)
    ensures r.decls == []
    decreases fuel, body, 2, |elements|
  {
    if elements == [] then Ended(Normal, tr)
    else
      var vars := Bound(elements[0]);
      var r := ExecScope(env, vars, body, tr + Inits(vars), fuel);
      if BreaksLoop(r.exit, name) then Ended(Normal, r.tr)
      else if ContinuesLoop(r.exit, name) then ForEach(env, name, elements[1..], body, r.tr, fuel)
      else r
  }

  /** Runs a function on initialized parameters; falling off the end returns. */
  function ExecFunction(env: Env, params: seq<Var>, body: Block, fuel: nat): Result {
    var r := Leave(ExecScope(env, [], body, Inits(params), fuel), params);
    if r.exit.Normal? then Ended(Returned, r.tr) else r
  }
}
