/**
 * The order in which async calls are inlined: the graph is peeled from both
 * sides, functions without callees first, and what cannot be peeled is handled
 * in between.
 */
module InliningOrder {

  import opened AsyncCallGraph

  datatype Element = Element(f: Fn, calls: seq<Call>)

  function NamesOf(es: seq<Element>): set<Fn> {
    set e | e in es :: e.f
  }

  lemma NamesNext(es: seq<Element>, e: Element)
    ensures NamesOf(es + [e]) == NamesOf(es) + {e.f}
  {
    assert e in es + [e];
    assert forall d :: d in es + [e] <==> d in es || d == e;
  }

  // ----- removal by moving the last element into the gap -----

  function SwapPop<T>(s: seq<T>, i: nat): (r: seq<T>)
    requires i < |s|
    ensures |r| == |s| - 1
  {
    s[i := s[|s| - 1]][..|s| - 1]
  }

  lemma SwapPopParts<T>(s: seq<T>, i: nat)
    requires i < |s|
    ensures SwapPop(s, i)[..i] == s[..i]
    ensures i < |s| - 1 ==> var p, q := s[..i], s[i + 1..|s| - 1];
                            s == p + [s[i]] + q + [s[|s| - 1]] && SwapPop(s, i) == p + [s[|s| - 1]] + q
    ensures i == |s| - 1 ==> s == SwapPop(s, i) + [s[i]]
  {
  }

  lemma CountParts<T>(p: seq<T>, x: T, q: seq<T>, y: T)
    ensures multiset(p + [x] + q + [y]) == multiset(p + [y] + q) + multiset{x}
  {
  }

  lemma SwapPopKeeps<T>(s: seq<T>, i: nat)
    requires i < |s|
    ensures multiset(s) == multiset(SwapPop(s, i)) + multiset{s[i]}
    ensures SwapPop(s, i)[..i] == s[..i]
  {
    hide SwapPop;
    SwapPopParts(s, i);
    if i < |s| - 1 { CountParts(s[..i], s[i], s[i + 1..|s| - 1], s[|s| - 1]); }
  }

  /** Removes every occurrence of a function from a list, in place. */
  method RemoveLinks(s: seq<Fn>, f: Fn) returns (r: seq<Fn>)
    ensures multiset(r) == multiset(s)[f := 0]
    ensures forall x :: x in r <==> x in s && x != f
  {
    r := s;
    var i := 0;
    while i < |r|
      invariant i <= |r|
      invariant f !in r[..i]
      invariant multiset(r)[f := 0] == multiset(s)[f := 0]
      decreases |r| - i
    {
      if r[i] == f {
        SwapPopKeeps(r, i);
        r := SwapPop(r, i);
      } else {
        assert r[..i + 1] == r[..i] + [r[i]];
        i := i + 1;
      }
    }
    assert r[..i] == r;
    assert multiset(r)[f] == 0;
    assert multiset(r) == multiset(r)[f := 0];
    forall x ensures x in r <==> x in s && x != f {
      assert x in r <==> x in multiset(r);
      assert x in s <==> x in multiset(s);
    }
  }

  // ----- functions without callees -----

  /** Every node still lists its calls and callers, and those of its callees that are left. */
  ghost predicate LiveNodes(rs: seq<Call>, g: Graph) {
    forall f :: f in g ==> g[f].calls == From(rs, f) && LiveOuts(rs, g, f) && LiveIns(rs, g, f)
  }

  ghost predicate LiveOuts(rs: seq<Call>, g: Graph, f: Fn)
    requires f in g
  {
    forall b :: b in g[f].outs <==> Edge(rs, f, b) && b in g
  }

  ghost predicate LiveIns(rs: seq<Call>, g: Graph, f: Fn)
    requires f in g
  {
    forall a :: a in g[f].ins <==> Edge(rs, a, f) && a in g
  }

  /** Peeled functions come after everything they call. */
  ghost predicate CalleesFirst(rs: seq<Call>, es: seq<Element>) {
    forall i, b :: 0 <= i < |es| && Edge(rs, es[i].f, b) ==> b in NamesOf(es[..i])
  }

  /** Each element once, with all its calls. */
  ghost predicate Listed(rs: seq<Call>, es: seq<Element>) {
    && (forall i :: 0 <= i < |es| ==> es[i].calls == From(rs, es[i].f))
    && (forall i :: 0 <= i < |es| ==> es[i].f !in NamesOf(es[..i]))
  }

  ghost predicate Peeling(rs: seq<Call>, g: Graph, head: seq<Element>) {
    && LiveNodes(rs, g)
    && NamesOf(head) + g.Keys == Names(rs) && NamesOf(head) !! g.Keys
    && Listed(rs, head) && CalleesFirst(rs, head)
    && HasCycles(rs, g.Keys)
  }

  ghost predicate HasCycles(rs: seq<Call>, all: set<Fn>) {
    forall f :: f in Names(rs) && ReachesCycle(rs, f) ==> f in all
  }

  /** Drops a function from the lists of callees of its callers. */
  method DropFromCallers(g: Graph, f: Fn) returns (g': Graph)
    requires f in g && f !in g[f].ins && (forall a :: a in g[f].ins ==> a in g)
    ensures g'.Keys == g.Keys
    ensures forall a :: a in g ==> g'[a].calls == g[a].calls && g'[a].ins == g[a].ins
    ensures forall a, b :: a in g ==> (b in g'[a].outs <==> b in g[a].outs && !(b == f && a in g[f].ins))
  {
    g' := g;
    var ins := g[f].ins;
    for k := 0 to |ins|
      invariant g'.Keys == g.Keys
      invariant forall a :: a in g ==> g'[a].calls == g[a].calls && g'[a].ins == g[a].ins
      invariant forall a, b :: a in g ==> (b in g'[a].outs <==> b in g[a].outs && !(b == f && a in ins[..k]))
    {
      var a := ins[k];
      assert a in g';
      var outs := RemoveLinks(g'[a].outs, f);
      g' := g'[a := g'[a].(outs := outs)];
      assert ins[..k + 1] == ins[..k] + [a];
    }
    assert ins[..|ins|] == ins;
  }

  method DropFromCallees(g: Graph, f: Fn) returns (g': Graph)
    requires f in g && f !in g[f].outs && (forall b :: b in g[f].outs ==> b in g)
    ensures g'.Keys == g.Keys
    ensures forall a :: a in g ==> g'[a].calls == g[a].calls && g'[a].outs == g[a].outs
    ensures forall a, b :: a in g ==> (b in g'[a].ins <==> b in g[a].ins && !(b == f && a in g[f].outs))
  {
    g' := g;
    var outs := g[f].outs;
    for k := 0 to |outs|
      invariant g'.Keys == g.Keys
      invariant forall a :: a in g ==> g'[a].calls == g[a].calls && g'[a].outs == g[a].outs
      invariant forall a, b :: a in g ==> (b in g'[a].ins <==> b in g[a].ins && !(b == f && a in outs[..k]))
    {
      var a := outs[k];
      assert a in g';
      var ins := RemoveLinks(g'[a].ins, f);
      g' := g'[a := g'[a].(ins := ins)];
      assert outs[..k + 1] == outs[..k] + [a];
    }
    assert outs[..|outs|] == outs;
  }

  lemma EdgeNames(rs: seq<Call>, a: Fn, b: Fn)
    requires Edge(rs, a, b)
    ensures a in Names(rs) && b in Names(rs)
  {
  }

  lemma CalleeDropped(rs: seq<Call>, g: Graph, g': Graph, f: Fn)
    requires LiveNodes(rs, g) && f in g && g[f].outs == []
    requires g'.Keys == g.Keys - {f}
    requires forall a :: a in g' ==> g'[a].calls == g[a].calls && g'[a].ins == g[a].ins
    requires forall a, b :: a in g' ==> (b in g'[a].outs <==> b in g[a].outs && !(b == f && a in g[f].ins))
    ensures LiveNodes(rs, g')
  {
    hide Edge;
    assert LiveOuts(rs, g, f) && LiveIns(rs, g, f);
    forall a | a in g' ensures LiveOuts(rs, g', a) && LiveIns(rs, g', a) {
      assert LiveOuts(rs, g, a) && LiveIns(rs, g, a);
    }
  }

  lemma CallerDropped(rs: seq<Call>, g: Graph, g': Graph, f: Fn)
    requires LiveNodes(rs, g) && f in g && g[f].ins == []
    requires g'.Keys == g.Keys - {f}
    requires forall a :: a in g' ==> g'[a].calls == g[a].calls && g'[a].outs == g[a].outs
    requires forall a, b :: a in g' ==> (b in g'[a].ins <==> b in g[a].ins && !(b == f && a in g[f].outs))
    ensures LiveNodes(rs, g')
  {
    hide Edge;
    assert LiveOuts(rs, g, f) && LiveIns(rs, g, f);
    forall a | a in g' ensures LiveOuts(rs, g', a) && LiveIns(rs, g', a) {
      assert LiveOuts(rs, g, a) && LiveIns(rs, g, a);
    }
  }

  lemma ListedNext(rs: seq<Call>, es: seq<Element>, f: Fn)
    requires Listed(rs, es) && f !in NamesOf(es)
    ensures Listed(rs, es + [Element(f, From(rs, f))])
  {
    var es' := es + [Element(f, From(rs, f))];
    assert es'[..|es|] == es;
    assert forall i :: 0 <= i < |es| ==> es'[i] == es[i] && es'[..i] == es[..i];
  }

  lemma CalleesFirstNext(rs: seq<Call>, es: seq<Element>, e: Element)
    requires CalleesFirst(rs, es) && forall b :: Edge(rs, e.f, b) ==> b in NamesOf(es)
    ensures CalleesFirst(rs, es + [e])
  {
    var es' := es + [e];
    assert es'[..|es|] == es;
    assert forall i :: 0 <= i < |es| ==> es'[i] == es[i] && es'[..i] == es[..i];
    forall i, b | 0 <= i < |es'| && Edge(rs, es'[i].f, b) ensures b in NamesOf(es'[..i]) {
      if i < |es| { assert Edge(rs, es[i].f, b); }
    }
  }

  /** Takes out a function without callees. */
  method TakeCallee(g: Graph, head: seq<Element>, f: Fn, ghost rs: seq<Call>) returns (g': Graph, head': seq<Element>)
    requires Peeling(rs, g, head) && f in g && g[f].outs == []
    ensures Peeling(rs, g', head') && g'.Keys == g.Keys - {f}
  {
    hide Listed, CalleesFirst, NamesOf, Edge, Names;
    assert LiveOuts(rs, g, f) && LiveIns(rs, g, f);
    var dropped := DropFromCallers(g, f);
    head' := head + [Element(f, g[f].calls)];
    g' := dropped - {f};
    CalleeDropped(rs, g, g', f);
    ListedNext(rs, head, f);
    NamesNext(head, Element(f, g[f].calls));
    forall b | Edge(rs, f, b) ensures b in NamesOf(head) { EdgeNames(rs, f, b); }
    CalleesFirstNext(rs, head, Element(f, g[f].calls));
    if ReachesCycle(rs, f) {
      ghost var b := NextTowardsCycle(rs, f);
      EdgeNames(rs, f, b);
    }
  }

  lemma PeelStart(rs: seq<Call>, g: Graph)
    requires GraphOf(g, rs)
    ensures Peeling(rs, g, [])
  {
    forall f | f in g ensures LiveOuts(rs, g, f) && LiveIns(rs, g, f) {
      forall b ensures b in g[f].outs <==> Edge(rs, f, b) && b in g { GraphEdges(g, rs, f, b); }
      forall a ensures a in g[f].ins <==> Edge(rs, a, f) && a in g { GraphEdges(g, rs, a, f); }
    }
  }

  /** Takes out functions without callees until there are none. */
  method PeelCallees(g0: Graph, ghost rs: seq<Call>) returns (g: Graph, head: seq<Element>)
    requires GraphOf(g0, rs)
    ensures Peeling(rs, g, head) && forall f :: f in g ==> g[f].outs != []
  {
    hide Peeling, GraphOf;
    PeelStart(rs, g0);
    g, head := g0, [];
    while true
      invariant Peeling(rs, g, head)
      decreases |g.Keys|
    {
      var removed := 0;
      var todo := g.Keys;
      ghost var g1 := g;
      while todo != {}
        invariant Peeling(rs, g, head) && todo <= g.Keys <= g1.Keys
        invariant removed == 0 ==> g == g1 && forall f :: f in g && f !in todo ==> g[f].outs != []
        invariant removed > 0 ==> |g.Keys| < |g1.Keys|
        decreases |todo|
      {
        var f :| f in todo;
        todo := todo - {f};
        if g[f].outs == [] {
          SetSize(g.Keys, g1.Keys);
          g, head := TakeCallee(g, head, f, rs);
          removed := removed + 1;
        }
      }
      if removed == 0 { break; }
    }
  }

  // ----- functions without callers -----

  /** Peeled functions come after everything, of what was there, that calls them. */
  ghost predicate CallersFirst(rs: seq<Call>, all: set<Fn>, es: seq<Element>) {
    forall i, a :: 0 <= i < |es| && a in all && Edge(rs, a, es[i].f) ==> a in NamesOf(es[..i])
  }

  ghost predicate BackPeeling(rs: seq<Call>, all: set<Fn>, g: Graph, tail: seq<Element>) {
    && LiveNodes(rs, g)
    && NamesOf(tail) + g.Keys == all && NamesOf(tail) !! g.Keys
    && Listed(rs, tail) && CallersFirst(rs, all, tail)
    && (forall f :: f in all && ReachesCycle(rs, f) && ReachedFromCycle(rs, f) ==> f in g)
    && (forall f :: f in g ==> g[f].outs != [])
  }

  lemma CallersFirstNext(rs: seq<Call>, all: set<Fn>, es: seq<Element>, e: Element)
    requires CallersFirst(rs, all, es) && forall a :: a in all && Edge(rs, a, e.f) ==> a in NamesOf(es)
    ensures CallersFirst(rs, all, es + [e])
  {
    var es' := es + [e];
    assert es'[..|es|] == es;
    assert forall i :: 0 <= i < |es| ==> es'[i] == es[i] && es'[..i] == es[..i];
    forall i, a | 0 <= i < |es'| && a in all && Edge(rs, a, es'[i].f) ensures a in NamesOf(es'[..i]) {
      if i < |es| { assert Edge(rs, a, es[i].f); }
    }
  }

  /** Takes out a function without callers. */
  method TakeCaller(g: Graph, tail: seq<Element>, f: Fn, ghost rs: seq<Call>, ghost all: set<Fn>)
    returns (g': Graph, tail': seq<Element>)
    requires BackPeeling(rs, all, g, tail) && f in g && g[f].ins == []
    requires HasCycles(rs, all)
    ensures BackPeeling(rs, all, g', tail') && g'.Keys == g.Keys - {f}
  {
    hide Listed, CallersFirst, NamesOf, Edge, Names;
    assert LiveOuts(rs, g, f) && LiveIns(rs, g, f);
    var dropped := DropFromCallees(g, f);
    tail' := tail + [Element(f, g[f].calls)];
    g' := dropped - {f};
    CallerDropped(rs, g, g', f);
    ListedNext(rs, tail, f);
    NamesNext(tail, Element(f, g[f].calls));
    CallersFirstNext(rs, all, tail, Element(f, g[f].calls));
    if ReachesCycle(rs, f) && ReachedFromCycle(rs, f) {
      ghost var a := PreviousFromCycle(rs, f);
      EdgeNames(rs, a, f);
    }
  }

  lemma BackPeelStart(rs: seq<Call>, g: Graph, head: seq<Element>)
    requires Peeling(rs, g, head) && forall f :: f in g ==> g[f].outs != []
    ensures BackPeeling(rs, g.Keys, g, []) && HasCycles(rs, g.Keys)
  {
  }

  /** Takes out functions without callers until there are none. */
  method PeelCallers(g0: Graph, ghost rs: seq<Call>, ghost head: seq<Element>) returns (g: Graph, tail: seq<Element>)
    requires Peeling(rs, g0, head) && forall f :: f in g0 ==> g0[f].outs != []
    ensures BackPeeling(rs, g0.Keys, g, tail) && forall f :: f in g ==> g[f].ins != []
  {
    hide Peeling, BackPeeling, HasCycles;
    g, tail := g0, [];
    ghost var all := g0.Keys;
    BackPeelStart(rs, g0, head);
    while true
      invariant BackPeeling(rs, all, g, tail)
      decreases |g.Keys|
    {
      var removed := 0;
      var todo := g.Keys;
      ghost var g1 := g;
      while todo != {}
        invariant BackPeeling(rs, all, g, tail) && todo <= g.Keys <= g1.Keys
        invariant removed == 0 ==> g == g1 && forall f :: f in g && f !in todo ==> g[f].ins != []
        invariant removed > 0 ==> |g.Keys| < |g1.Keys|
        decreases |todo|
      {
        var f :| f in todo;
        todo := todo - {f};
        if g[f].ins == [] {
          SetSize(g.Keys, g1.Keys);
          g, tail := TakeCaller(g, tail, f, rs, all);
          removed := removed + 1;
        }
      }
      if removed == 0 { break; }
    }
  }

  // ----- which calls were tried -----

  function Only(rs: seq<Call>, p: Call -> bool): seq<Call> {
    if rs == [] then []
    else Only(rs[..|rs| - 1], p) + if p(rs[|rs| - 1]) then [rs[|rs| - 1]] else []
  }

  lemma {:induction false} OnlyMembers(rs: seq<Call>, p: Call -> bool, c: Call)
    ensures c in Only(rs, p) <==> c in rs && p(c)
  {
    if rs != [] {
      assert rs == rs[..|rs| - 1] + [rs[|rs| - 1]];
      OnlyMembers(rs[..|rs| - 1], p, c);
    }
  }

  /** Calls chosen by one of two conditions that exclude each other. */
  lemma {:induction false} OnlySplit(rs: seq<Call>, p: Call -> bool, q: Call -> bool, r: Call -> bool)
    requires forall c :: c in rs ==> (p(c) <==> q(c) || r(c)) && !(q(c) && r(c))
    ensures multiset(Only(rs, p)) == multiset(Only(rs, q)) + multiset(Only(rs, r))
  {
    if rs != [] {
      var c := rs[|rs| - 1];
      assert c in rs && forall d :: d in rs[..|rs| - 1] ==> d in rs;
      OnlySplit(rs[..|rs| - 1], p, q, r);
    }
  }

  lemma {:induction false} OnlyAll(rs: seq<Call>, p: Call -> bool)
    requires forall c :: c in rs ==> p(c)
    ensures Only(rs, p) == rs
  {
    if rs != [] {
      assert rs == rs[..|rs| - 1] + [rs[|rs| - 1]];
      assert forall d :: d in rs[..|rs| - 1] ==> d in rs;
      OnlyAll(rs[..|rs| - 1], p);
    }
  }

  lemma {:induction false} OnlyFrom(rs: seq<Call>, f: Fn, p: Call -> bool, q: Call -> bool)
    requires forall c :: q(c) <==> c.caller == f && p(c)
    ensures Only(From(rs, f), p) == Only(rs, q)
  {
    if rs != [] {
      var n := |rs| - 1;
      OnlyFrom(rs[..n], f, p, q);
      if rs[n].caller == f {
        var b := From(rs[..n], f);
        assert (b + [rs[n]])[..|b|] == b;
      } else {
        assert From(rs, f) == From(rs[..n], f);
      }
    }
  }

  /** Exactly the calls that meet the condition were tried, each as often as it was recorded. */
  ghost predicate Tried(rs: seq<Call>, ts: seq<Call>, p: Call -> bool) {
    multiset(ts) == multiset(Only(rs, p))
  }

  lemma TriedMember(rs: seq<Call>, ts: seq<Call>, p: Call -> bool, c: Call)
    requires Tried(rs, ts, p) && c in ts
    ensures c in rs && p(c)
  {
    assert c in multiset(Only(rs, p));
    OnlyMembers(rs, p, c);
  }

  lemma TriedMore(rs: seq<Call>, ts: seq<Call>, cs: seq<Call>, f: Fn, p: Call -> bool, q: Call -> bool, p': Call -> bool)
    requires Tried(rs, ts, p) && multiset(cs) == multiset(Only(From(rs, f), q))
    requires forall c :: c in rs ==> (p'(c) <==> p(c) || (c.caller == f && q(c)))
    requires forall c :: c in rs && p(c) && q(c) ==> c.caller != f
    ensures Tried(rs, ts + cs, p')
  {
    var q' := (c: Call) => c.caller == f && q(c);
    OnlyFrom(rs, f, q, q');
    OnlySplit(rs, p', p, q');
  }

  // ----- the order of tries -----

  /** A call is tried after all calls of its callee, unless both functions are left over. */
  ghost predicate Ordered(ts: seq<Call>, left: set<Fn>) {
    forall i, j :: 0 <= i < |ts| && 0 <= j < |ts| && ts[i].caller == ts[j].callee && !(ts[j].caller in left && ts[j].callee in left) ==> i < j
  }

  lemma OrderedMore(ts: seq<Call>, cs: seq<Call>, f: Fn, left: set<Fn>)
    requires Ordered(ts, left) && forall c :: c in cs ==> c.caller == f
    requires forall d :: d in ts + cs && d.callee == f ==> d.caller in left && f in left
    ensures Ordered(ts + cs, left)
  {
    var ts' := ts + cs;
    forall i | |ts| <= i < |ts'| ensures ts'[i].caller == f { assert ts'[i] in cs; }
    forall j | 0 <= j < |ts'| && ts'[j].callee == f ensures ts'[j].caller in left && f in left { assert ts'[j] in ts'; }
  }

  function By(s: set<Fn>): Call -> bool {
    (c: Call) => c.caller in s
  }

  lemma CalleesInHead(rs: seq<Call>, head: seq<Element>, c: Call, k: nat)
    requires CalleesFirst(rs, head) && k <= |head| && c in rs && c.caller in NamesOf(head[..k])
    ensures c.callee in NamesOf(head[..k])
  {
    var e :| e in head[..k] && e.f == c.caller;
    var i :| 0 <= i < k && head[i] == e;
    assert Edge(rs, head[i].f, c.callee);
    var d :| d in head[..i] && d.f == c.callee;
    assert d in head[..k];
  }

  lemma NamesOfFirst(es: seq<Element>, i: nat)
    requires i < |es|
    ensures NamesOf(es[..i + 1]) == NamesOf(es[..i]) + {es[i].f} && NamesOf(es[..i + 1]) <= NamesOf(es)
  {
    assert es[..i + 1] == es[..i] + [es[i]];
    NamesNext(es[..i], es[i]);
  }

  // ----- the order of the calls of one function -----

  lemma {:induction false} FromAppend(ts: seq<Call>, cs: seq<Call>, x: Fn)
    ensures From(ts + cs, x) == From(ts, x) + From(cs, x)
  {
    if cs == [] {
      assert ts + cs == ts;
    } else {
      FromAppend(ts, cs[..|cs| - 1], x);
      assert (ts + cs)[..|ts + cs| - 1] == ts + cs[..|cs| - 1];
    }
  }

  lemma {:induction false} FromOthers(cs: seq<Call>, x: Fn)
    requires forall c :: c in cs ==> c.caller != x
    ensures From(cs, x) == []
  {
    if cs != [] {
      assert cs[|cs| - 1] in cs && forall c :: c in cs[..|cs| - 1] ==> c in cs;
      FromOthers(cs[..|cs| - 1], x);
    }
  }

  lemma {:induction false} FromOwn(cs: seq<Call>, x: Fn)
    requires forall c :: c in cs ==> c.caller == x
    ensures From(cs, x) == cs
  {
    if cs != [] {
      assert cs[|cs| - 1] in cs && forall c :: c in cs[..|cs| - 1] ==> c in cs;
      FromOwn(cs[..|cs| - 1], x);
      assert cs == cs[..|cs| - 1] + [cs[|cs| - 1]];
    }
  }

  /** The calls of these functions are tried in the order in which they are recorded. */
  ghost predicate InOrder(rs: seq<Call>, ts: seq<Call>, done: set<Fn>) {
    forall x :: x in done ==> From(ts, x) == From(rs, x)
  }

  /** All calls of one more function, none of which was tried before. */
  lemma InOrderMore(rs: seq<Call>, ts: seq<Call>, cs: seq<Call>, f: Fn, done: set<Fn>)
    requires InOrder(rs, ts, done) && cs == From(rs, f) && f !in done && forall c :: c in ts ==> c.caller != f
    ensures InOrder(rs, ts + cs, done + {f})
  {
    forall c | c in cs ensures c.caller == f { FromMembers(rs, f, c); }
    forall x | x in done + {f} ensures From(ts + cs, x) == From(rs, x) {
      hide From;
      FromMore(ts, cs, f, x);
    }
  }

  lemma FromMore(ts: seq<Call>, cs: seq<Call>, f: Fn, x: Fn)
    requires (forall c :: c in ts ==> c.caller != f) && (forall c :: c in cs ==> c.caller == f)
    ensures From(ts + cs, x) == if x == f then cs else From(ts, x)
  {
    hide From;
    FromAppend(ts, cs, x);
    if x == f {
      FromOthers(ts, f);
      FromOwn(cs, f);
    } else {
      FromOthers(cs, x);
    }
  }

  /** Calls of other functions change nothing. */
  lemma InOrderSame(rs: seq<Call>, ts: seq<Call>, cs: seq<Call>, done: set<Fn>)
    requires InOrder(rs, ts, done) && forall c :: c in cs ==> c.caller !in done
    ensures InOrder(rs, ts + cs, done)
  {
    forall x | x in done ensures From(ts + cs, x) == From(rs, x) {
      FromAppend(ts, cs, x);
      FromOthers(cs, x);
    }
  }

  /** One more function of the head. */
  lemma HeadStep(rs: seq<Call>, head: seq<Element>, left: set<Fn>, ts: seq<Call>, i: nat)
    requires Listed(rs, head) && CalleesFirst(rs, head) && i < |head|
    requires Tried(rs, ts, By(NamesOf(head[..i]))) && Ordered(ts, left)
    requires InOrder(rs, ts, NamesOf(head[..i]))
    ensures Tried(rs, ts + head[i].calls, By(NamesOf(head[..i + 1]))) && Ordered(ts + head[i].calls, left)
    ensures InOrder(rs, ts + head[i].calls, NamesOf(head[..i + 1]))
  {
    var f, cs, s := head[i].f, head[i].calls, NamesOf(head[..i]);
    NamesOfFirst(head, i);
    var any := (c: Call) => true;
    OnlyAll(cs, any);
    TriedMore(rs, ts, cs, f, By(s), any, By(NamesOf(head[..i + 1])));
    forall c | c in cs ensures c in rs && c.caller == f { FromMembers(rs, f, c); }
    forall d | d in ts + cs ensures d.callee != f {
      if d in ts {
        TriedMember(rs, ts, By(s), d);
        CalleesInHead(rs, head, d, i);
      } else {
        assert Edge(rs, head[i].f, d.callee);
      }
    }
    OrderedMore(ts, cs, f, left);
    forall c | c in ts ensures c.caller != f { TriedMember(rs, ts, By(s), c); }
    InOrderMore(rs, ts, cs, f, s);
  }

  method TryHead(head: seq<Element>, ghost rs: seq<Call>, ghost left: set<Fn>) returns (ts: seq<Call>)
    requires Listed(rs, head) && CalleesFirst(rs, head)
    ensures Tried(rs, ts, By(NamesOf(head))) && Ordered(ts, left) && InOrder(rs, ts, NamesOf(head))
  {
    ts := [];
    TriedNone(rs, By(NamesOf(head[..0])));
    for i := 0 to |head|
      invariant Tried(rs, ts, By(NamesOf(head[..i]))) && Ordered(ts, left) && InOrder(rs, ts, NamesOf(head[..i]))
    {
      HeadStep(rs, head, left, ts, i);
      ts := ts + head[i].calls;
    }
    assert head[..|head|] == head;
  }

  lemma {:induction false} TriedNone(rs: seq<Call>, p: Call -> bool)
    requires forall c :: c in rs ==> !p(c)
    ensures Tried(rs, [], p)
  {
    if rs != [] {
      assert rs[|rs| - 1] in rs && forall d :: d in rs[..|rs| - 1] ==> d in rs;
      TriedNone(rs[..|rs| - 1], p);
    }
  }

  // ----- what is left over -----

  function Outward(left: set<Fn>): Call -> bool {
    (c: Call) => c.callee !in left
  }

  function Inward(left: set<Fn>): Call -> bool {
    (c: Call) => c.callee in left
  }

  /** Calls of the head, calls out of the rest by some functions, and calls inside it by some. */
  function Stage(head: set<Fn>, left: set<Fn>, outer: set<Fn>, inner: set<Fn>): Call -> bool {
    (c: Call) => c.caller in head || (c.caller in outer && c.callee !in left) || (c.caller in inner && c.callee in left)
  }

  /** Takes the calls that lead out of the remaining graph, moving later calls into the gaps. */
  method SplitCalls(all: seq<Call>, left: set<Fn>) returns (tried: seq<Call>, calls: seq<Call>)
    ensures multiset(tried) == multiset(Only(all, Outward(left)))
    ensures multiset(calls) == multiset(Only(all, Inward(left)))
  {
    tried, calls := [], all;
    var i := 0;
    while i < |calls|
      invariant i <= |calls| && multiset(tried) + multiset(calls) == multiset(all)
      invariant forall c :: c in tried ==> c.callee !in left
      invariant forall c :: c in calls[..i] ==> c.callee in left
      decreases |calls| - i
    {
      if calls[i].callee !in left {
        tried := tried + [calls[i]];
        SwapPopKeeps(calls, i);
        calls := SwapPop(calls, i);
      } else {
        assert calls[..i + 1] == calls[..i] + [calls[i]];
        i := i + 1;
      }
    }
    assert calls[..i] == calls;
    SplitIs(all, tried, calls, left);
  }

  /** Two lists that make up a third one, told apart by a condition, are its two parts. */
  lemma SplitIs(all: seq<Call>, tried: seq<Call>, calls: seq<Call>, left: set<Fn>)
    requires multiset(tried) + multiset(calls) == multiset(all)
    requires (forall c :: c in tried ==> c.callee !in left) && (forall c :: c in calls ==> c.callee in left)
    ensures multiset(tried) == multiset(Only(all, Outward(left)))
    ensures multiset(calls) == multiset(Only(all, Inward(left)))
  {
    var p, q := Outward(left), Inward(left);
    var any := (c: Call) => true;
    OnlyAll(all, any);
    OnlySplit(all, any, p, q);
    assert multiset(tried) + multiset(calls) == multiset(Only(all, p)) + multiset(Only(all, q));
    forall c | c in multiset(Only(all, p)) ensures c.callee !in left { OnlyMembers(all, p, c); }
    forall c | c in multiset(Only(all, q)) ensures c.callee in left { OnlyMembers(all, q, c); }
    SplitUnique(multiset(tried), multiset(calls), multiset(Only(all, p)), multiset(Only(all, q)), left);
  }

  lemma SplitUnique(a: multiset<Call>, b: multiset<Call>, a': multiset<Call>, b': multiset<Call>, left: set<Fn>)
    requires a + b == a' + b'
    requires forall c :: (c in a || c in a') ==> c.callee !in left
    requires forall c :: (c in b || c in b') ==> c.callee in left
    ensures a == a' && b == b'
  {
    forall c ensures a[c] == a'[c] && b[c] == b'[c] {
      assert a[c] + b[c] == (a + b)[c] == (a' + b')[c] == a'[c] + b'[c];
      assert c.callee in left ==> a[c] == 0 && a'[c] == 0;
      assert c.callee !in left ==> b[c] == 0 && b'[c] == 0;
    }
  }

  /** Calls tried so far that lead to a function left over come from such functions. */
  lemma CallersOfLeft(rs: seq<Call>, head: seq<Element>, left: set<Fn>, outer: set<Fn>, inner: set<Fn>, ts: seq<Call>,
                      f: Fn, cs: seq<Call>)
    requires CalleesFirst(rs, head) && f in left && NamesOf(head) !! left && outer <= left && inner <= left
    requires Tried(rs, ts, Stage(NamesOf(head), left, outer, inner)) && Ordered(ts, left)
    requires forall c :: c in cs ==> c.caller == f
    ensures Ordered(ts + cs, left)
  {
    forall d | d in ts + cs && d.callee == f ensures d.caller in left {
      if d in ts {
        TriedMember(rs, ts, Stage(NamesOf(head), left, outer, inner), d);
        assert head[..|head|] == head;
        if d.caller in NamesOf(head) { CalleesInHead(rs, head, d, |head|); }
      }
    }
    OrderedMore(ts, cs, f, left);
  }

  lemma OnlyCaller(rs: seq<Call>, f: Fn, p: Call -> bool, cs: seq<Call>)
    requires multiset(cs) == multiset(Only(From(rs, f), p))
    ensures forall c :: c in cs ==> c in rs && c.caller == f && p(c)
  {
    forall c | c in cs ensures c in rs && c.caller == f && p(c) {
      assert c in multiset(Only(From(rs, f), p));
      OnlyMembers(From(rs, f), p, c);
      FromMembers(rs, f, c);
    }
  }

  /** The calls of a function that stay inside what is left over. */
  ghost predicate OnlyInward(rs: seq<Call>, cs: seq<Call>, f: Fn, left: set<Fn>) {
    multiset(cs) == multiset(Only(From(rs, f), Inward(left)))
  }

  lemma OutwardStep(rs: seq<Call>, head: seq<Element>, left: set<Fn>, done: set<Fn>, f: Fn, ts: seq<Call>, cs: seq<Call>)
    requires CalleesFirst(rs, head) && NamesOf(head) !! left && done <= left && f in left - done
    requires Tried(rs, ts, Stage(NamesOf(head), left, done, {})) && Ordered(ts, left)
    requires multiset(cs) == multiset(Only(From(rs, f), Outward(left)))
    requires InOrder(rs, ts, NamesOf(head))
    ensures Tried(rs, ts + cs, Stage(NamesOf(head), left, done + {f}, {})) && Ordered(ts + cs, left)
    ensures InOrder(rs, ts + cs, NamesOf(head))
  {
    hide Ordered, CalleesFirst, Tried, NamesOf, InOrder;
    OnlyCaller(rs, f, Outward(left), cs);
    CallersOfLeft(rs, head, left, done, {}, ts, f, cs);
    TriedMore(rs, ts, cs, f, Stage(NamesOf(head), left, done, {}), Outward(left),
              Stage(NamesOf(head), left, done + {f}, {}));
    InOrderSame(rs, ts, cs, NamesOf(head));
  }

  lemma InwardStep(rs: seq<Call>, head: seq<Element>, left: set<Fn>, done: set<Fn>, f: Fn, ts: seq<Call>, cs: seq<Call>)
    requires CalleesFirst(rs, head) && NamesOf(head) !! left && done <= left && f in left - done
    requires Tried(rs, ts, Stage(NamesOf(head), left, left, done)) && Ordered(ts, left)
    requires OnlyInward(rs, cs, f, left) && InOrder(rs, ts, NamesOf(head))
    ensures Tried(rs, ts + cs, Stage(NamesOf(head), left, left, done + {f})) && Ordered(ts + cs, left)
    ensures InOrder(rs, ts + cs, NamesOf(head))
    ensures forall i :: 0 <= i < |cs| ==> cs[i].caller in left && cs[i].callee in left
  {
    hide Ordered, CalleesFirst, Tried, NamesOf, InOrder;
    OnlyCaller(rs, f, Inward(left), cs);
    CallersOfLeft(rs, head, left, left, done, ts, f, cs);
    TriedMore(rs, ts, cs, f, Stage(NamesOf(head), left, left, done), Inward(left),
              Stage(NamesOf(head), left, left, done + {f}));
    InOrderSame(rs, ts, cs, NamesOf(head));
    assert forall i :: 0 <= i < |cs| ==> cs[i] in cs;
  }

  lemma StageStart(rs: seq<Call>, ts: seq<Call>, head: set<Fn>, left: set<Fn>)
    requires Tried(rs, ts, By(head))
    ensures Tried(rs, ts, Stage(head, left, {}, {}))
  {
    TriedSame(rs, ts, By(head), Stage(head, left, {}, {}));
  }

  method TryOutwardFrom(f: Fn, all: seq<Call>, left: set<Fn>, ts: seq<Call>, ghost rs: seq<Call>,
                        ghost head: seq<Element>, ghost done: set<Fn>)
    returns (ts': seq<Call>, calls: seq<Call>)
    requires CalleesFirst(rs, head) && NamesOf(head) !! left && done <= left && f in left - done && all == From(rs, f)
    requires Tried(rs, ts, Stage(NamesOf(head), left, done, {})) && Ordered(ts, left) && InOrder(rs, ts, NamesOf(head))
    ensures Tried(rs, ts', Stage(NamesOf(head), left, done + {f}, {})) && Ordered(ts', left)
    ensures InOrder(rs, ts', NamesOf(head))
    ensures OnlyInward(rs, calls, f, left)
  {
    hide Ordered, CalleesFirst, Tried, InOrder, NamesOf, Stage, Only, From, Inward, Outward;
    var tried;
    tried, calls := SplitCalls(all, left);
    OutwardStep(rs, head, left, done, f, ts, tried);
    ts' := ts + tried;
  }

  /** The functions done so far have only their inward calls left, the others all their calls. */
  ghost predicate Halfway(g: Graph, rs: seq<Call>, left: set<Fn>, done: set<Fn>) {
    forall f :: f in g ==> if f in done then OnlyInward(rs, g[f].calls, f, left) else g[f].calls == From(rs, f)
  }

  lemma HalfwayStart(g: Graph, rs: seq<Call>)
    requires forall f :: f in g ==> g[f].calls == From(rs, f)
    ensures Halfway(g, rs, g.Keys, {})
  {
  }

  lemma HalfwayUntouched(g: Graph, rs: seq<Call>, left: set<Fn>, done: set<Fn>, f: Fn)
    requires Halfway(g, rs, left, done) && f in g && f !in done
    ensures g[f].calls == From(rs, f)
  {
  }

  lemma HalfwayStep(g: Graph, rs: seq<Call>, left: set<Fn>, done: set<Fn>, f: Fn, calls: seq<Call>)
    requires Halfway(g, rs, left, done) && f in g && OnlyInward(rs, calls, f, left)
    ensures Halfway(g[f := g[f].(calls := calls)], rs, left, done + {f})
  {
    hide OnlyInward, From;
  }

  lemma HalfwayEnd(g: Graph, rs: seq<Call>, left: set<Fn>)
    requires Halfway(g, rs, left, left) && g.Keys == left
    ensures forall f :: f in g ==> OnlyInward(rs, g[f].calls, f, left)
  {
  }

  /** The calls that lead out of what is left over. */
  method TryOutward(g0: Graph, ts0: seq<Call>, ghost rs: seq<Call>, ghost head: seq<Element>)
    returns (g: Graph, ts: seq<Call>)
    requires CalleesFirst(rs, head) && NamesOf(head) !! g0.Keys
    requires forall f :: f in g0 ==> g0[f].calls == From(rs, f)
    requires Tried(rs, ts0, By(NamesOf(head))) && Ordered(ts0, g0.Keys) && InOrder(rs, ts0, NamesOf(head))
    ensures g.Keys == g0.Keys && forall f :: f in g ==> OnlyInward(rs, g[f].calls, f, g0.Keys)
    ensures Tried(rs, ts, Stage(NamesOf(head), g0.Keys, g0.Keys, {})) && Ordered(ts, g0.Keys)
    ensures InOrder(rs, ts, NamesOf(head))
  {
    hide Ordered, CalleesFirst, Tried, InOrder, NamesOf, Stage, Only, From, Inward, Outward, OnlyInward, Halfway;
    var left := g0.Keys;
    StageStart(rs, ts0, NamesOf(head), left);
    g, ts := g0, ts0;
    var todo := left;
    ghost var done: set<Fn> := {};
    HalfwayStart(g, rs);
    while todo != {}
      invariant todo + done == left && todo !! done && g.Keys == left && Halfway(g, rs, left, done)
      invariant Tried(rs, ts, Stage(NamesOf(head), left, done, {})) && Ordered(ts, left)
      invariant InOrder(rs, ts, NamesOf(head))
      decreases |todo|
    {
      var f :| f in todo;
      HalfwayUntouched(g, rs, left, done, f);
      var calls;
      ts, calls := TryOutwardFrom(f, g[f].calls, left, ts, rs, head, done);
      HalfwayStep(g, rs, left, done, f, calls);
      g := g[f := g[f].(calls := calls)];
      todo, done := todo - {f}, done + {f};
    }
    assert done == left;
    HalfwayEnd(g, rs, left);
  }

  lemma {:induction false} OnlySame(rs: seq<Call>, p: Call -> bool, q: Call -> bool)
    requires forall c :: c in rs ==> p(c) == q(c)
    ensures Only(rs, p) == Only(rs, q)
  {
    if rs != [] {
      assert rs[|rs| - 1] in rs && forall d :: d in rs[..|rs| - 1] ==> d in rs;
      OnlySame(rs[..|rs| - 1], p, q);
    }
  }

  lemma TriedSame(rs: seq<Call>, ts: seq<Call>, p: Call -> bool, q: Call -> bool)
    requires Tried(rs, ts, p) && forall c :: c in rs ==> p(c) == q(c)
    ensures Tried(rs, ts, q)
  {
    OnlySame(rs, p, q);
  }

  ghost predicate AllInside(cs: seq<Call>, left: set<Fn>) {
    forall c :: c in cs ==> c.caller in left && c.callee in left
  }

  lemma InsideAtFirst(ts: seq<Call>, left: set<Fn>)
    ensures AllInside(ts[|ts|..], left)
  {
  }

  lemma InsideMore(ts0: seq<Call>, ts: seq<Call>, cs: seq<Call>, left: set<Fn>)
    requires ts0 <= ts && AllInside(ts[|ts0|..], left)
    requires forall i :: 0 <= i < |cs| ==> cs[i].caller in left && cs[i].callee in left
    ensures ts0 <= ts + cs && AllInside((ts + cs)[|ts0|..], left)
  {
    assert (ts + cs)[|ts0|..] == ts[|ts0|..] + cs;
  }

  lemma InsideAfter(ts0: seq<Call>, ts: seq<Call>, left: set<Fn>)
    requires ts0 <= ts && AllInside(ts[|ts0|..], left)
    ensures forall i :: |ts0| <= i < |ts| ==> ts[i].caller in left && ts[i].callee in left
  {
    forall i | |ts0| <= i < |ts| ensures ts[i].caller in left && ts[i].callee in left { assert ts[i] == ts[|ts0|..][i - |ts0|]; }
  }

  /** The calls inside what is left over. */
  method TryInward(g: Graph, ts0: seq<Call>, ghost rs: seq<Call>, ghost head: seq<Element>) returns (ts: seq<Call>)
    requires CalleesFirst(rs, head) && NamesOf(head) !! g.Keys
    requires forall f :: f in g ==> OnlyInward(rs, g[f].calls, f, g.Keys)
    requires Tried(rs, ts0, Stage(NamesOf(head), g.Keys, g.Keys, {})) && Ordered(ts0, g.Keys)
    requires InOrder(rs, ts0, NamesOf(head))
    ensures Tried(rs, ts, Stage(NamesOf(head), g.Keys, g.Keys, g.Keys)) && Ordered(ts, g.Keys)
    ensures InOrder(rs, ts, NamesOf(head))
    ensures ts0 <= ts && forall i :: |ts0| <= i < |ts| ==> ts[i].caller in g && ts[i].callee in g
  {
    hide Ordered, CalleesFirst, Tried, InOrder, NamesOf, Stage, Only, From, Inward, Outward, OnlyInward, AllInside;
    ts := ts0;
    ghost var left, done: set<Fn> := g.Keys, {};
    assert AllInside(ts[|ts0|..], left) by { InsideAtFirst(ts0, left); }
    var todo := g.Keys;
    while todo != {}
      invariant todo + done == left && todo !! done
      invariant Tried(rs, ts, Stage(NamesOf(head), left, left, done)) && Ordered(ts, left)
      invariant InOrder(rs, ts, NamesOf(head))
      invariant ts0 <= ts && AllInside(ts[|ts0|..], left)
      decreases |todo|
    {
      var f :| f in todo;
      InwardStep(rs, head, left, done, f, ts, g[f].calls);
      InsideMore(ts0, ts, g[f].calls, left);
      ts := ts + g[f].calls;
      todo, done := todo - {f}, done + {f};
    }
    assert done == left;
    InsideAfter(ts0, ts, left);
  }

  // ----- functions taken from the other side, last one first -----

  lemma NamesOfRest(es: seq<Element>, i: nat)
    requires i < |es|
    ensures NamesOf(es[i..]) == NamesOf(es[i + 1..]) + {es[i].f} && NamesOf(es[i..]) <= NamesOf(es)
    ensures NamesOf(es[..i]) + NamesOf(es[i..]) == NamesOf(es)
  {
    assert es == es[..i] + es[i..];
    assert es[i..] == [es[i]] + es[i + 1..];
    assert forall e :: e in es[i..] <==> e == es[i] || e in es[i + 1..];
    assert forall e :: e in es <==> e in es[..i] || e in es[i..];
  }

  lemma {:induction false} ListedApart(rs: seq<Call>, es: seq<Element>, i: nat)
    requires Listed(rs, es) && i <= |es|
    ensures NamesOf(es[..i]) !! NamesOf(es[i..])
  {
    forall x | x in NamesOf(es[i..]) ensures x !in NamesOf(es[..i]) {
      var e :| e in es[i..] && e.f == x;
      var j :| 0 <= j < |es[i..]| && es[i..][j] == e;
      assert es[i + j].f !in NamesOf(es[..i + j]);
      assert forall d :: d in es[..i] ==> d in es[..i + j];
    }
  }

  /** Callers of a function of the tail are not tried before it. */
  lemma NoCallerBefore(rs: seq<Call>, head: seq<Element>, left: set<Fn>, tail: seq<Element>, i: nat, d: Call)
    requires Listed(rs, tail) && CalleesFirst(rs, head) && CallersFirst(rs, NamesOf(tail) + left, tail) && i < |tail|
    requires NamesOf(head) !! NamesOf(tail) && left !! NamesOf(tail)
    requires d in rs && d.caller in NamesOf(head) + left + NamesOf(tail[i..])
    ensures d.callee != tail[i].f
  {
    hide Listed, NamesOf;
    NamesOfRest(tail, i);
    ListedApart(rs, tail, i);
    assert head[..|head|] == head;
    if d.caller in NamesOf(head) { CalleesInHead(rs, head, d, |head|); }
    assert Edge(rs, d.caller, d.callee);
  }

  lemma TailStep(rs: seq<Call>, head: seq<Element>, left: set<Fn>, tail: seq<Element>, ts: seq<Call>, i: nat)
    requires Listed(rs, tail) && CalleesFirst(rs, head) && CallersFirst(rs, NamesOf(tail) + left, tail) && i < |tail|
    requires NamesOf(head) !! NamesOf(tail) && left !! NamesOf(tail)
    requires Tried(rs, ts, By(NamesOf(head) + left + NamesOf(tail[i + 1..]))) && Ordered(ts, left)
    requires InOrder(rs, ts, NamesOf(head) + NamesOf(tail[i + 1..]))
    ensures Tried(rs, ts + tail[i].calls, By(NamesOf(head) + left + NamesOf(tail[i..])))
    ensures Ordered(ts + tail[i].calls, left) && InOrder(rs, ts + tail[i].calls, NamesOf(head) + NamesOf(tail[i..]))
  {
    hide CalleesFirst, CallersFirst, NamesOf, Edge, Ordered, InOrder;
    var f, cs, s := tail[i].f, tail[i].calls, NamesOf(head) + left + NamesOf(tail[i + 1..]);
    NamesOfRest(tail, i);
    ListedApart(rs, tail, i + 1);
    assert f in NamesOf(tail[..i + 1]) by { NamesOfFirst(tail, i); }
    var any := (c: Call) => true;
    OnlyAll(cs, any);
    TriedMore(rs, ts, cs, f, By(s), any, By(NamesOf(head) + left + NamesOf(tail[i..])));
    forall c | c in cs ensures c in rs && c.caller == f { FromMembers(rs, f, c); }
    forall d | d in ts + cs ensures d.callee != f {
      if d in ts { TriedMember(rs, ts, By(s), d); }
      NoCallerBefore(rs, head, left, tail, i, d);
    }
    OrderedMore(ts, cs, f, left);
    forall c | c in ts ensures c.caller != f { TriedMember(rs, ts, By(s), c); }
    InOrderMore(rs, ts, cs, f, NamesOf(head) + NamesOf(tail[i + 1..]));
    assert NamesOf(head) + NamesOf(tail[i + 1..]) + {f} == NamesOf(head) + NamesOf(tail[i..]);
  }

  lemma TailCallers(rs: seq<Call>, tail: seq<Element>, i: nat)
    requires Listed(rs, tail) && i < |tail|
    ensures forall k :: 0 <= k < |tail[i].calls| ==> tail[i].calls[k].caller in NamesOf(tail)
  {
    forall k | 0 <= k < |tail[i].calls| ensures tail[i].calls[k].caller in NamesOf(tail) {
      FromMembers(rs, tail[i].f, tail[i].calls[k]);
      assert tail[i] in tail;
    }
  }

  method TryTail(tail: seq<Element>, ts0: seq<Call>, ghost rs: seq<Call>, ghost head: seq<Element>, ghost left: set<Fn>)
    returns (ts: seq<Call>)
    requires Listed(rs, tail) && CalleesFirst(rs, head) && CallersFirst(rs, NamesOf(tail) + left, tail)
    requires NamesOf(head) !! NamesOf(tail) && left !! NamesOf(tail)
    requires Tried(rs, ts0, By(NamesOf(head) + left)) && Ordered(ts0, left) && InOrder(rs, ts0, NamesOf(head))
    ensures Tried(rs, ts, By(NamesOf(head) + left + NamesOf(tail))) && Ordered(ts, left)
    ensures InOrder(rs, ts, NamesOf(head) + NamesOf(tail))
    ensures ts0 <= ts && forall i :: |ts0| <= i < |ts| ==> ts[i].caller in NamesOf(tail)
  {
    assert NamesOf(head) + left + NamesOf(tail[|tail|..]) == NamesOf(head) + left;
    assert NamesOf(head) + NamesOf(tail[|tail|..]) == NamesOf(head);
    hide Listed, CalleesFirst, CallersFirst, Tried, Ordered, InOrder, NamesOf, By;
    ts := ts0;
    var i := |tail|;
    while i > 0
      invariant 0 <= i <= |tail|
      invariant Tried(rs, ts, By(NamesOf(head) + left + NamesOf(tail[i..]))) && Ordered(ts, left)
      invariant InOrder(rs, ts, NamesOf(head) + NamesOf(tail[i..]))
      invariant ts0 <= ts && forall k :: |ts0| <= k < |ts| ==> ts[k].caller in NamesOf(tail)
    {
      i := i - 1;
      TailStep(rs, head, left, tail, ts, i);
      TailCallers(rs, tail, i);
      ts := ts + tail[i].calls;
    }
    assert tail[0..] == tail;
  }

  // ----- the whole schedule -----

  ghost predicate IsLeftover(rs: seq<Call>, f: Fn) {
    f in Names(rs) && ReachesCycle(rs, f) && ReachedFromCycle(rs, f)
  }

  predicate LeadsOut(c: Call, left: set<Fn>) {
    c.caller in left && c.callee !in left
  }

  predicate Inside(c: Call, left: set<Fn>) {
    c.caller in left && c.callee in left
  }

  /** Calls out of the functions left over are tried before the calls between them. */
  ghost predicate OutwardFirst(ts: seq<Call>, left: set<Fn>) {
    forall i, j :: 0 <= i < |ts| && 0 <= j < |ts| && LeadsOut(ts[i], left) && Inside(ts[j], left) ==> i < j
  }

  lemma NodeLinked(rs: seq<Call>, g: Graph, a: Fn)
    requires a in g && LiveOuts(rs, g, a) && LiveIns(rs, g, a) && g[a].ins != [] && g[a].outs != []
    ensures CallsOne(rs, g.Keys, a) && CalledByOne(rs, g.Keys, a)
  {
    hide Edge;
    assert g[a].outs[0] in g[a].outs && g[a].ins[0] in g[a].ins;
  }

  lemma LeftoverClosed(rs: seq<Call>, g: Graph)
    requires LiveNodes(rs, g) && (forall x :: x in g ==> g[x].ins != []) && (forall x :: x in g ==> g[x].outs != [])
    ensures EachCallsOne(rs, g.Keys) && EachCalledByOne(rs, g.Keys)
  {
    hide CallsOne, CalledByOne, LiveOuts, LiveIns;
    forall a | a in g.Keys ensures CallsOne(rs, g.Keys, a) && CalledByOne(rs, g.Keys, a) { NodeLinked(rs, g, a); }
  }

  /** Where both peelings stop, exactly the functions between two cycles are left. */
  lemma LeftoverIs(rs: seq<Call>, g1: Graph, head: seq<Element>, g: Graph, tail: seq<Element>, f: Fn)
    requires Peeling(rs, g1, head) && BackPeeling(rs, g1.Keys, g, tail) && forall x :: x in g ==> g[x].ins != []
    ensures f in g <==> IsLeftover(rs, f)
  {
    hide EachCallsOne, EachCalledByOne, LiveNodes, Listed, CalleesFirst, CallersFirst, ReachesCycle, ReachedFromCycle,
         NamesOf, Names;
    if f in g {
      LeftoverClosed(rs, g);
      assert IsWalk(rs, g.Keys, [f]);
      WalkForward(rs, g.Keys, [f]);
      WalkBackward(rs, g.Keys, [f]);
    }
  }

  /** Tries to inline every recorded call, in an order that the graph of calls determines. */
  method InlineAsyncCalls(fs: seq<Function>) returns (ts: seq<Call>, left: set<Fn>)
    ensures multiset(ts) == multiset(Recorded(fs))
    ensures forall c :: multiset(ts)[c] == |Sites(fs, c)|
    ensures forall f :: f in left <==> IsLeftover(Recorded(fs), f)
    ensures Ordered(ts, left) && OutwardFirst(ts, left)
    ensures forall f :: f !in left ==> Lists(fs, f, From(ts, f))
  {
    var g0 := BuildAsyncCallsGraph(fs);
    ghost var rs := Recorded(fs);
    var g1, head := PeelCallees(g0, rs);
    var g, tail := PeelCallers(g1, rs, head);
    left := g.Keys;
    forall f ensures f in left <==> IsLeftover(rs, f) { LeftoverIs(rs, g1, head, g, tail, f); }
    ts := TryAll(head, g, tail, rs, g1.Keys);
    forall c ensures multiset(ts)[c] == |Sites(fs, c)| { RecordedCounts(fs, c); }
    forall f | f !in left ensures Lists(fs, f, From(ts, f)) {
      RecordedLists(fs, f);
      if f !in Names(rs) { NoCallsOf(rs, ts, f); }
    }
  }

  lemma NoCallsOf(rs: seq<Call>, ts: seq<Call>, f: Fn)
    requires multiset(ts) == multiset(rs) && f !in Names(rs)
    ensures From(ts, f) == From(rs, f)
  {
    forall c | c in ts ensures c.caller != f { assert c in multiset(rs); }
    FromOthers(ts, f);
    NotNamed(rs, f);
  }

  method TryAll(head: seq<Element>, g: Graph, tail: seq<Element>, ghost rs: seq<Call>, ghost all: set<Fn>)
    returns (ts: seq<Call>)
    requires Listed(rs, head) && CalleesFirst(rs, head) && NamesOf(head) + all == Names(rs) && NamesOf(head) !! all
    requires BackPeeling(rs, all, g, tail)
    ensures multiset(ts) == multiset(rs)
    ensures Ordered(ts, g.Keys) && OutwardFirst(ts, g.Keys) && InOrder(rs, ts, Names(rs) - g.Keys)
  {
    hide Listed, CalleesFirst, CallersFirst, Ordered, InOrder, NamesOf, LiveOuts, LiveIns, Edge, ReachesCycle,
         ReachedFromCycle;
    var left := g.Keys;
    ts := TryHead(head, rs, left);
    var g', ts1 := TryOutward(g, ts, rs, head);
    var ts2 := TryInward(g', ts1, rs, head);
    TriedSame(rs, ts2, Stage(NamesOf(head), left, left, left), By(NamesOf(head) + left));
    ts := TryTail(tail, ts2, rs, head, left);
    forall c | c in rs ensures By(NamesOf(head) + left + NamesOf(tail))(c) { assert c.caller in Names(rs); }
    OnlyAll(rs, By(NamesOf(head) + left + NamesOf(tail)));
    assert Names(rs) - left == NamesOf(head) + NamesOf(tail);
    assert OutwardFirst(ts, left) by {
      forall j | 0 <= j < |ts1| ensures !(ts[j].caller in left && ts[j].callee in left) {
        assert ts[j] == ts1[j];
        TriedMember(rs, ts1, Stage(NamesOf(head), left, left, {}), ts1[j]);
      }
      forall i | |ts1| <= i < |ts| && ts[i].caller in left ensures ts[i].callee in left {
        if i < |ts2| { assert ts[i] == ts2[i]; }
      }
    }
  }

  /** Without cycles nothing is left over, so every call comes after all calls of its callee. */
  lemma AcyclicNothingLeft(rs: seq<Call>, ts: seq<Call>, left: set<Fn>)
    requires (forall f :: !OnCycle(rs, f)) && (forall f :: f in left <==> IsLeftover(rs, f)) && Ordered(ts, left)
    ensures left == {} && forall i, j :: 0 <= i < |ts| && 0 <= j < |ts| && ts[i].caller == ts[j].callee ==> i < j
  {
    assert forall f :: !ReachesCycle(rs, f);
  }
}
