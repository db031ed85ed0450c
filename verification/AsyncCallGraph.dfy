/**
 * The graph of awaited calls between async functions, and its cycles.
 */
module AsyncCallGraph {

  import opened Options

  type Fn = nat

  /** A call instruction inside a function; the callee may be unknown. */
  datatype CallSite = CallSite(id: nat, callee: Option<Fn>, singleAwait: bool)

  datatype Function = Function(name: Fn, coroutine: bool, sites: seq<CallSite>)

  /** A call that may be inlined. */
  datatype Call = Call(caller: Fn, site: nat, callee: Fn)

  /** Lists, with one entry for each call: calls made, their callees, and the callers of the function. */
  datatype Node = Node(calls: seq<Call>, outs: seq<Fn>, ins: seq<Fn>)

  type Graph = map<Fn, Node>

  // ----- the calls that count -----

  function CallsOf(f: Function, sites: seq<CallSite>): seq<Call> {
    if sites == [] then []
    else
      var c := sites[|sites| - 1];
      CallsOf(f, sites[..|sites| - 1]) +
      if c.singleAwait && c.callee.Some? then [Call(f.name, c.id, c.callee.value)] else []
  }

  /** All awaited calls of known functions in coroutines, in program order. */
  function Recorded(fs: seq<Function>): seq<Call> {
    if fs == [] then []
    else
      var f := fs[|fs| - 1];
      Recorded(fs[..|fs| - 1]) + if f.coroutine then CallsOf(f, f.sites) else []
  }

  function From(rs: seq<Call>, f: Fn): seq<Call> {
    if rs == [] then []
    else From(rs[..|rs| - 1], f) + if rs[|rs| - 1].caller == f then [rs[|rs| - 1]] else []
  }

  function CallersTo(rs: seq<Call>, f: Fn): seq<Fn> {
    if rs == [] then []
    else CallersTo(rs[..|rs| - 1], f) + if rs[|rs| - 1].callee == f then [rs[|rs| - 1].caller] else []
  }

  function Callees(cs: seq<Call>): (fs: seq<Fn>)
    ensures |fs| == |cs|
    ensures forall k :: 0 <= k < |cs| ==> fs[k] == cs[k].callee
  {
    seq(|cs|, k requires 0 <= k < |cs| => cs[k].callee)
  }

  function Names(rs: seq<Call>): set<Fn> {
    (set c | c in rs :: c.caller) + (set c | c in rs :: c.callee)
  }

  /** The graph has a node for every function named in the calls, listing them in order. */
  ghost predicate GraphOf(g: Graph, rs: seq<Call>) {
    && g.Keys == Names(rs)
    && forall f :: f in g ==> g[f] == NodeOf(rs, f)
  }

  function NodeOf(rs: seq<Call>, f: Fn): Node {
    Node(From(rs, f), Callees(From(rs, f)), CallersTo(rs, f))
  }

  lemma FromNext(rs: seq<Call>, c: Call, f: Fn)
    ensures From(rs + [c], f) == From(rs, f) + (if c.caller == f then [c] else [])
    ensures CallersTo(rs + [c], f) == CallersTo(rs, f) + (if c.callee == f then [c.caller] else [])
  {
    assert (rs + [c])[..|rs|] == rs;
  }

  lemma {:induction false} NotNamed(rs: seq<Call>, f: Fn)
    requires f !in Names(rs)
    ensures From(rs, f) == [] && CallersTo(rs, f) == []
  {
    if rs != [] {
      assert rs[|rs| - 1] in rs;
      assert forall c :: c in rs[..|rs| - 1] ==> c in rs;
      NotNamed(rs[..|rs| - 1], f);
    }
  }

  // ----- building the graph -----

  function NodeAt(g: Graph, f: Fn): Node {
    if f in g then g[f] else Node([], [], [])
  }

  lemma NodeAtIs(g: Graph, rs: seq<Call>, f: Fn)
    requires GraphOf(g, rs)
    ensures NodeAt(g, f) == NodeOf(rs, f)
  {
    if f !in g { NotNamed(rs, f); }
  }

  lemma NodeNext(rs: seq<Call>, c: Call, f: Fn)
    ensures NodeOf(rs + [c], f).calls == NodeOf(rs, f).calls + (if c.caller == f then [c] else [])
    ensures NodeOf(rs + [c], f).outs == NodeOf(rs, f).outs + (if c.caller == f then [c.callee] else [])
    ensures NodeOf(rs + [c], f).ins == NodeOf(rs, f).ins + (if c.callee == f then [c.caller] else [])
  {
    hide From, CallersTo;
    FromNext(rs, c, f);
  }

  lemma NamesNext(rs: seq<Call>, c: Call)
    ensures Names(rs + [c]) == Names(rs) + {c.caller, c.callee}
  {
    assert c in rs + [c];
    assert forall d :: d in rs + [c] <==> d in rs || d == c;
  }

  method Record(g: Graph, c: Call, ghost rs: seq<Call>) returns (g': Graph)
    requires GraphOf(g, rs)
    ensures GraphOf(g', rs + [c])
  {
    var n := NodeAt(g, c.caller);
    g' := g[c.caller := n.(calls := n.calls + [c], outs := n.outs + [c.callee])];
    var m := NodeAt(g', c.callee);
    g' := g'[c.callee := m.(ins := m.ins + [c.caller])];
    NamesNext(rs, c);
    forall f | f in g' ensures g'[f] == NodeOf(rs + [c], f) {
      hide GraphOf, NodeOf;
      NodeNext(rs, c, f);
      NodeAtIs(g, rs, f);
    }
  }

  // ----- which calls those are -----

  /** Where a call stands: the function, and the call inside it. */
  datatype Site = Site(f: nat, k: nat)

  predicate Before(p: Site, q: Site) {
    p.f < q.f || (p.f == q.f && p.k < q.k)
  }

  lemma BeforeNext(p: Site)
    ensures forall q :: Before(q, p.(k := p.k + 1)) <==> Before(q, p) || q == p
  {
    forall q: Site ensures Before(q, p.(k := p.k + 1)) <==> Before(q, p) || q == p {
      assert q == Site(q.f, q.k) && p == Site(p.f, p.k);
    }
  }

  predicate IsSite(fs: seq<Function>, p: Site) {
    p.f < |fs| && p.k < |fs[p.f].sites|
  }

  /** A coroutine awaits the result of a known function, once. */
  predicate Awaits(fs: seq<Function>, p: Site) {
    && IsSite(fs, p) && fs[p.f].coroutine
    && fs[p.f].sites[p.k].singleAwait && fs[p.f].sites[p.k].callee.Some?
  }

  /** The site stands for this call. */
  predicate Makes(fs: seq<Function>, p: Site, c: Call) {
    && Awaits(fs, p)
    && fs[p.f].name == c.caller && fs[p.f].sites[p.k].id == c.site && fs[p.f].sites[p.k].callee == Some(c.callee)
  }

  /** The sites before this one that stand for a call. */
  ghost function SitesBefore(fs: seq<Function>, end: Site, c: Call): set<Site> {
    set i: nat, k: nat | i < |fs| && k < |fs[i].sites| && Before(Site(i, k), end) && Makes(fs, Site(i, k), c) :: Site(i, k)
  }

  ghost function Sites(fs: seq<Function>, c: Call): set<Site> {
    set i: nat, k: nat | i < |fs| && k < |fs[i].sites| && Makes(fs, Site(i, k), c) :: Site(i, k)
  }

  /** The calls recorded when the walk has got to a site. */
  ghost function RecordedBefore(fs: seq<Function>, end: Site): seq<Call>
    requires end.f <= |fs| && (end.f < |fs| ==> end.k <= |fs[end.f].sites|)
  {
    Recorded(fs[..end.f]) +
    if end.f < |fs| && fs[end.f].coroutine then CallsOf(fs[end.f], fs[end.f].sites[..end.k]) else []
  }

  lemma RecordedAtSite(fs: seq<Function>, p: Site)
    requires IsSite(fs, p)
    ensures var f, c := fs[p.f], fs[p.f].sites[p.k];
            RecordedBefore(fs, p.(k := p.k + 1)) ==
            RecordedBefore(fs, p) + if Awaits(fs, p) then [Call(f.name, c.id, c.callee.value)] else []
  {
    var sites := fs[p.f].sites;
    assert sites[..p.k + 1][..p.k] == sites[..p.k];
  }

  lemma RecordedAtFunction(fs: seq<Function>, f: nat)
    requires f < |fs|
    ensures RecordedBefore(fs, Site(f + 1, 0)) == RecordedBefore(fs, Site(f, |fs[f].sites|))
  {
    assert fs[..f + 1][..f] == fs[..f] && fs[f].sites[..|fs[f].sites|] == fs[f].sites;
    if f + 1 < |fs| { assert fs[f + 1].sites[..0] == []; }
  }

  lemma SitesNext(fs: seq<Function>, p: Site, c: Call)
    requires IsSite(fs, p)
    ensures SitesBefore(fs, p.(k := p.k + 1), c) == SitesBefore(fs, p, c) + if Makes(fs, p, c) then {p} else {}
    ensures p !in SitesBefore(fs, p, c)
  {
    hide Makes;
    var end := p.(k := p.k + 1);
    BeforeNext(p);
    forall q ensures q in SitesBefore(fs, end, c) <==> q in SitesBefore(fs, p, c) || (q == p && Makes(fs, p, c)) {
      assert q == Site(q.f, q.k);
    }
  }

  lemma SitesOfFunction(fs: seq<Function>, f: nat, c: Call)
    requires f < |fs|
    ensures SitesBefore(fs, Site(f + 1, 0), c) == SitesBefore(fs, Site(f, |fs[f].sites|), c)
  {
    hide Makes;
    forall q ensures q in SitesBefore(fs, Site(f + 1, 0), c) <==> q in SitesBefore(fs, Site(f, |fs[f].sites|), c) {
      assert q == Site(q.f, q.k);
    }
  }

  lemma NothingBefore(fs: seq<Function>, c: Call)
    ensures RecordedBefore(fs, Site(0, 0)) == [] && SitesBefore(fs, Site(0, 0), c) == {}
  {
    if fs != [] { assert fs[0].sites[..0] == []; }
  }

  /** A call is recorded as often as there are sites that stand for it. */
  lemma {:induction false} CountsBefore(fs: seq<Function>, end: Site, c: Call)
    requires end.f <= |fs| && (end.f < |fs| ==> end.k <= |fs[end.f].sites|) && (end.f == |fs| ==> end.k == 0)
    ensures multiset(RecordedBefore(fs, end))[c] == |SitesBefore(fs, end, c)|
    decreases end.f, end.k
  {
    hide SitesBefore, RecordedBefore, Recorded;
    if end.k > 0 {
      var p := end.(k := end.k - 1);
      CountsBefore(fs, p, c);
      RecordedAtSite(fs, p);
      SitesNext(fs, p, c);
    } else if end.f > 0 {
      var p := Site(end.f - 1, |fs[end.f - 1].sites|);
      CountsBefore(fs, p, c);
      RecordedAtFunction(fs, end.f - 1);
      SitesOfFunction(fs, end.f - 1, c);
    } else {
      NothingBefore(fs, c);
    }
  }

  lemma RecordedCounts(fs: seq<Function>, c: Call)
    ensures multiset(Recorded(fs))[c] == |Sites(fs, c)|
  {
    var end := Site(|fs|, 0);
    CountsBefore(fs, end, c);
    assert fs[..|fs|] == fs && RecordedBefore(fs, end) == Recorded(fs);
    assert SitesBefore(fs, end, c) == Sites(fs, c);
  }

  /** These are the sites, in order, that the calls of one function stand at. */
  ghost predicate ListedAt(fs: seq<Function>, f: Fn, cs: seq<Call>, ps: seq<Site>, end: Site) {
    && |ps| == |cs|
    && (forall i :: 0 <= i < |ps| ==> Makes(fs, ps[i], cs[i]) && cs[i].caller == f && Before(ps[i], end))
    && (forall i, j :: 0 <= i < j < |ps| ==> Before(ps[i], ps[j]))
    && (forall p :: Awaits(fs, p) && fs[p.f].name == f && Before(p, end) ==> p in ps)
  }

  /** All awaited calls of one function, in the order of their sites, and nothing else. */
  ghost predicate Lists(fs: seq<Function>, f: Fn, cs: seq<Call>) {
    exists ps :: ListedAt(fs, f, cs, ps, Site(|fs|, 0))
  }

  lemma {:induction false} ListBefore(fs: seq<Function>, end: Site, f: Fn) returns (ps: seq<Site>)
    requires end.f <= |fs| && (end.f < |fs| ==> end.k <= |fs[end.f].sites|) && (end.f == |fs| ==> end.k == 0)
    ensures ListedAt(fs, f, From(RecordedBefore(fs, end), f), ps, end)
    decreases end.f, end.k
  {
    if end.k > 0 {
      var p := end.(k := end.k - 1);
      ps := ListBefore(fs, p, f);
      RecordedAtSite(fs, p);
      ps := ListStep(fs, p, f, RecordedBefore(fs, p), RecordedBefore(fs, end), ps);
    } else if end.f > 0 {
      var p := Site(end.f - 1, |fs[end.f - 1].sites|);
      ps := ListBefore(fs, p, f);
      RecordedAtFunction(fs, end.f - 1);
      assert forall q :: IsSite(fs, q) ==> (Before(q, p) <==> Before(q, end));
    } else {
      ps := [];
      assert RecordedBefore(fs, end) == [];
    }
  }

  lemma ListStep(fs: seq<Function>, p: Site, f: Fn, rs: seq<Call>, rs': seq<Call>, ps: seq<Site>)
    returns (ps': seq<Site>)
    requires IsSite(fs, p) && ListedAt(fs, f, From(rs, f), ps, p)
    requires rs' == rs + if Awaits(fs, p) then [Call(fs[p.f].name, fs[p.f].sites[p.k].id, fs[p.f].sites[p.k].callee.value)] else []
    ensures ListedAt(fs, f, From(rs', f), ps', p.(k := p.k + 1))
  {
    ps' := ps;
    if Awaits(fs, p) {
      var c := Call(fs[p.f].name, fs[p.f].sites[p.k].id, fs[p.f].sites[p.k].callee.value);
      FromNext(rs, c, f);
      if c.caller == f { ps' := ps + [p]; }
    } else {
      assert rs' == rs;
    }
    BeforeNext(p);
    assert forall q :: q in ps' ==> q in ps || q == p;
    assert forall q :: q in ps ==> q in ps';
  }

  lemma RecordedLists(fs: seq<Function>, f: Fn)
    ensures Lists(fs, f, From(Recorded(fs), f))
  {
    var end := Site(|fs|, 0);
    var ps := ListBefore(fs, end, f);
    assert fs[..|fs|] == fs && RecordedBefore(fs, end) == Recorded(fs);
  }

  lemma {:induction false} FromCounts(rs: seq<Call>, f: Fn, c: Call)
    ensures multiset(From(rs, f))[c] == if c.caller == f then multiset(rs)[c] else 0
  {
    if rs != [] {
      FromCounts(rs[..|rs| - 1], f, c);
      assert rs == rs[..|rs| - 1] + [rs[|rs| - 1]];
    }
  }

  lemma GraphSays(fs: seq<Function>, g: Graph)
    requires GraphOf(g, Recorded(fs))
    ensures forall f :: f in g ==> Lists(fs, f, g[f].calls)
    ensures forall f, c: Call :: f in g && c.caller == f ==> multiset(g[f].calls)[c] == |Sites(fs, c)|
  {
    hide Lists, Sites, From, Recorded;
    forall f | f in g ensures Lists(fs, f, g[f].calls) { RecordedLists(fs, f); }
    forall f, c: Call | f in g && c.caller == f ensures multiset(g[f].calls)[c] == |Sites(fs, c)| {
      FromCounts(Recorded(fs), f, c);
      RecordedCounts(fs, c);
    }
  }

  /** Goes over all functions and their calls. */
  method BuildAsyncCallsGraph(fs: seq<Function>) returns (g: Graph)
    ensures GraphOf(g, Recorded(fs))
    ensures forall f :: f in g ==> Lists(fs, f, g[f].calls)
    ensures forall f, c: Call :: f in g && c.caller == f ==> multiset(g[f].calls)[c] == |Sites(fs, c)|
  {
    g := map[];
    for i := 0 to |fs|
      invariant GraphOf(g, Recorded(fs[..i]))
    {
      assert fs[..i + 1][..i] == fs[..i];
      assert fs[i].coroutine || Recorded(fs[..i + 1]) == Recorded(fs[..i]);
      if !fs[i].coroutine { continue; }
      ghost var before := Recorded(fs[..i]);
      var f, sites := fs[i], fs[i].sites;
      assert before + CallsOf(f, sites[..0]) == before;
      for k := 0 to |sites|
        invariant GraphOf(g, before + CallsOf(f, sites[..k]))
      {
        assert sites[..k + 1][..k] == sites[..k];
        var c := sites[k];
        assert (c.singleAwait && c.callee.Some?) || CallsOf(f, sites[..k + 1]) == CallsOf(f, sites[..k]);
        if !c.singleAwait { continue; }
        if c.callee.Some? {
          ghost var rs := before + CallsOf(f, sites[..k]);
          g := Record(g, Call(f.name, c.id, c.callee.value), rs);
          assert rs + [Call(f.name, c.id, c.callee.value)] == before + CallsOf(f, sites[..k + 1]);
        }
      }
      assert sites[..|sites|] == sites;
    }
    assert fs[..|fs|] == fs;
    GraphSays(fs, g);
  }

  // ----- edges of a built graph -----

  lemma {:induction false} FromMembers(rs: seq<Call>, f: Fn, c: Call)
    ensures c in From(rs, f) <==> c in rs && c.caller == f
  {
    if rs != [] {
      assert rs == rs[..|rs| - 1] + [rs[|rs| - 1]];
      FromMembers(rs[..|rs| - 1], f, c);
    }
  }

  lemma {:induction false} CallersToMembers(rs: seq<Call>, f: Fn, a: Fn)
    ensures a in CallersTo(rs, f) <==> exists c :: c in rs && c.caller == a && c.callee == f
  {
    if rs != [] {
      assert rs == rs[..|rs| - 1] + [rs[|rs| - 1]];
      CallersToMembers(rs[..|rs| - 1], f, a);
      if c :| c in rs && c.caller == a && c.callee == f { assert c in rs[..|rs| - 1] || c == rs[|rs| - 1]; }
      if c :| c in rs[..|rs| - 1] && c.caller == a && c.callee == f { assert c in rs; }
    }
  }

  /** Some call leads from a to b. */
  ghost predicate Edge(rs: seq<Call>, a: Fn, b: Fn) {
    exists c :: c in rs && c.caller == a && c.callee == b
  }

  lemma GraphEdges(g: Graph, rs: seq<Call>, a: Fn, b: Fn)
    requires GraphOf(g, rs)
    ensures a in g ==> (b in g[a].outs <==> Edge(rs, a, b))
    ensures b in g ==> (a in g[b].ins <==> Edge(rs, a, b))
    ensures Edge(rs, a, b) ==> a in g && b in g
  {
    if a in g {
      var cs := From(rs, a);
      if b in g[a].outs {
        var k :| 0 <= k < |cs| && Callees(cs)[k] == b;
        FromMembers(rs, a, cs[k]);
      }
      if Edge(rs, a, b) {
        var c :| c in rs && c.caller == a && c.callee == b;
        FromMembers(rs, a, c);
        var k :| 0 <= k < |cs| && cs[k] == c;
        assert Callees(cs)[k] == b;
      }
    }
    CallersToMembers(rs, b, a);
  }

  // ----- paths and cycles -----

  ghost predicate IsPath(rs: seq<Call>, p: seq<Fn>) {
    p != [] && forall i :: 0 <= i < |p| - 1 ==> Edge(rs, p[i], p[i + 1])
  }

  ghost predicate Reaches(rs: seq<Call>, a: Fn, b: Fn) {
    exists p :: IsPath(rs, p) && p[0] == a && p[|p| - 1] == b
  }

  /** Some non-empty path leads back to where it started. */
  ghost predicate OnCycle(rs: seq<Call>, a: Fn) {
    exists b :: Edge(rs, a, b) && Reaches(rs, b, a)
  }

  ghost predicate ReachesCycle(rs: seq<Call>, a: Fn) {
    exists c :: Reaches(rs, a, c) && OnCycle(rs, c)
  }

  ghost predicate ReachedFromCycle(rs: seq<Call>, a: Fn) {
    exists c :: Reaches(rs, c, a) && OnCycle(rs, c)
  }

  lemma ReachesTrans(rs: seq<Call>, a: Fn, b: Fn, c: Fn)
    requires Reaches(rs, a, b) && Reaches(rs, b, c)
    ensures Reaches(rs, a, c)
  {
    var p :| IsPath(rs, p) && p[0] == a && p[|p| - 1] == b;
    var q :| IsPath(rs, q) && q[0] == b && q[|q| - 1] == c;
    var r := p + q[1..];
    forall i | 0 <= i < |r| - 1 ensures Edge(rs, r[i], r[i + 1]) {
      if i < |p| - 1 {
        assert r[i] == p[i] && r[i + 1] == p[i + 1];
      } else {
        assert r[i] == q[i - (|p| - 1)] && r[i + 1] == q[i - (|p| - 1) + 1];
      }
    }
    assert IsPath(rs, r) && r[0] == a && r[|r| - 1] == c;
  }

  lemma EdgeReaches(rs: seq<Call>, a: Fn, b: Fn)
    requires Edge(rs, a, b)
    ensures Reaches(rs, a, b)
  {
    assert IsPath(rs, [a, b]);
  }

  lemma ReachesFirst(rs: seq<Call>, a: Fn, b: Fn) returns (x: Fn)
    requires Reaches(rs, a, b) && a != b
    ensures Edge(rs, a, x) && Reaches(rs, x, b)
  {
    var p :| IsPath(rs, p) && p[0] == a && p[|p| - 1] == b;
    x := p[1];
    assert IsPath(rs, p[1..]) && p[1..][0] == x && p[1..][|p| - 2] == b;
  }

  lemma ReachesLast(rs: seq<Call>, a: Fn, b: Fn) returns (x: Fn)
    requires Reaches(rs, a, b) && a != b
    ensures Reaches(rs, a, x) && Edge(rs, x, b)
  {
    var p :| IsPath(rs, p) && p[0] == a && p[|p| - 1] == b;
    var n := |p| - 1;
    x := p[n - 1];
    assert IsPath(rs, p[..n]) && p[..n][0] == a && p[..n][n - 1] == x;
  }

  /** A function that reaches a cycle calls one that does. */
  lemma NextTowardsCycle(rs: seq<Call>, a: Fn) returns (b: Fn)
    requires ReachesCycle(rs, a)
    ensures Edge(rs, a, b) && ReachesCycle(rs, b)
  {
    var c :| Reaches(rs, a, c) && OnCycle(rs, c);
    if a == c {
      b :| Edge(rs, a, b) && Reaches(rs, b, a);
    } else {
      b := ReachesFirst(rs, a, c);
    }
  }

  /** A function reached from a cycle that reaches one is called by one that does both. */
  lemma PreviousFromCycle(rs: seq<Call>, a: Fn) returns (b: Fn)
    requires ReachedFromCycle(rs, a) && ReachesCycle(rs, a)
    ensures Edge(rs, b, a) && ReachedFromCycle(rs, b) && ReachesCycle(rs, b)
  {
    var c :| Reaches(rs, c, a) && OnCycle(rs, c);
    if a == c {
      var x :| Edge(rs, a, x) && Reaches(rs, x, a);
      if x == a {
        b := a;
      } else {
        b := ReachesLast(rs, x, a);
        EdgeReaches(rs, a, x);
        ReachesTrans(rs, a, x, b);
      }
    } else {
      b := ReachesLast(rs, c, a);
    }
    var d :| Reaches(rs, a, d) && OnCycle(rs, d);
    EdgeReaches(rs, b, a);
    ReachesTrans(rs, b, a, d);
  }

  // ----- sets closed under having a next or a previous function -----

  ghost predicate CallsOne(rs: seq<Call>, s: set<Fn>, a: Fn) {
    exists b :: b in s && Edge(rs, a, b)
  }

  ghost predicate CalledByOne(rs: seq<Call>, s: set<Fn>, a: Fn) {
    exists b :: b in s && Edge(rs, b, a)
  }

  ghost predicate EachCallsOne(rs: seq<Call>, s: set<Fn>) {
    forall a {:trigger CallsOne(rs, s, a)} :: a in s ==> CallsOne(rs, s, a)
  }

  ghost predicate EachCalledByOne(rs: seq<Call>, s: set<Fn>) {
    forall a {:trigger CalledByOne(rs, s, a)} :: a in s ==> CalledByOne(rs, s, a)
  }

  function Elements(p: seq<Fn>): set<Fn> {
    set x | x in p
  }

  ghost predicate Distinct(p: seq<Fn>) {
    forall i, j :: 0 <= i < j < |p| ==> p[i] != p[j]
  }

  lemma {:induction false} DistinctSize(p: seq<Fn>)
    requires Distinct(p)
    ensures |Elements(p)| == |p|
  {
    if p != [] {
      var n := |p| - 1;
      DistinctSize(p[..n]);
      assert Elements(p) == Elements(p[..n]) + {p[n]};
      assert p[n] !in Elements(p[..n]);
    }
  }

  lemma SetSize(s: set<Fn>, t: set<Fn>)
    requires s <= t
    ensures |s| <= |t|
  {
    assert s + (t - s) == t;
  }

  /** A path through functions of a set that visits none twice. */
  ghost predicate IsWalk(rs: seq<Call>, s: set<Fn>, p: seq<Fn>) {
    IsPath(rs, p) && Elements(p) <= s && Distinct(p)
  }

  lemma WalkFits(rs: seq<Call>, s: set<Fn>, p: seq<Fn>)
    requires IsWalk(rs, s, p)
    ensures |p| <= |s| && p != [] && p[0] in s && p[|p| - 1] in s
  {
    DistinctSize(p);
    SetSize(Elements(p), s);
    assert p[0] in Elements(p) && p[|p| - 1] in Elements(p);
  }

  lemma SubPath(rs: seq<Call>, p: seq<Fn>, i: nat, j: nat)
    requires IsPath(rs, p) && i <= j < |p|
    ensures Reaches(rs, p[i], p[j])
  {
    var q := p[i..j + 1];
    assert IsPath(rs, q) && q[0] == p[i] && q[|q| - 1] == p[j];
  }

  lemma LongerWalk(rs: seq<Call>, s: set<Fn>, p: seq<Fn>, b: Fn)
    requires IsWalk(rs, s, p) && b in s && b !in p
    ensures Edge(rs, p[|p| - 1], b) ==> IsWalk(rs, s, p + [b])
    ensures Edge(rs, b, p[0]) ==> IsWalk(rs, s, [b] + p)
  {
    if Edge(rs, p[|p| - 1], b) {
      var q := p + [b];
      forall i | 0 <= i < |q| - 1 ensures Edge(rs, q[i], q[i + 1]) { assert q[i] == p[i]; }
      assert Elements(q) == Elements(p) + {b};
    }
    if Edge(rs, b, p[0]) {
      var q := [b] + p;
      forall i | 0 <= i < |q| - 1 ensures Edge(rs, q[i], q[i + 1]) { assert q[i + 1] == p[i]; }
      assert Elements(q) == Elements(p) + {b};
    }
  }

  /** Walking on inside a finite set comes back to where one has been. */
  lemma {:induction false} WalkForward(rs: seq<Call>, s: set<Fn>, p: seq<Fn>)
    requires EachCallsOne(rs, s) && IsWalk(rs, s, p)
    ensures ReachesCycle(rs, p[0])
    decreases |s| - |p|
  {
    hide Edge, Reaches, IsPath, Distinct;
    WalkFits(rs, s, p);
    var n := |p| - 1;
    assert CallsOne(rs, s, p[n]);
    var b :| b in s && Edge(rs, p[n], b);
    if b in p {
      var i :| 0 <= i < |p| && p[i] == b;
      SubPath(rs, p, 0, n);
      SubPath(rs, p, i, n);
      assert OnCycle(rs, p[n]);
    } else {
      LongerWalk(rs, s, p, b);
      WalkFits(rs, s, p + [b]);
      WalkForward(rs, s, p + [b]);
    }
  }

  lemma {:induction false} WalkBackward(rs: seq<Call>, s: set<Fn>, p: seq<Fn>)
    requires EachCalledByOne(rs, s) && IsWalk(rs, s, p)
    ensures ReachedFromCycle(rs, p[|p| - 1])
    decreases |s| - |p|
  {
    hide Edge, Reaches, IsPath, Distinct;
    WalkFits(rs, s, p);
    assert CalledByOne(rs, s, p[0]);
    var b :| b in s && Edge(rs, b, p[0]);
    if b in p {
      var i :| 0 <= i < |p| && p[i] == b;
      SubPath(rs, p, 0, i);
      SubPath(rs, p, i, |p| - 1);
      assert OnCycle(rs, b);
    } else {
      LongerWalk(rs, s, p, b);
      WalkFits(rs, s, [b] + p);
      WalkBackward(rs, s, [b] + p);
    }
  }
}
