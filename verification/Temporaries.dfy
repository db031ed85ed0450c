/**
 * Which temporaries of a "with" die before its body: those that some pass over them
 * finds unused, pass by pass, and no others.
 */
module Temporaries {

  import opened Options
  import opened StructuredCode
  import opened StatementRuns

  ghost predicate InSome(passes: seq<set<Var>>, v: Var) {
    exists k :: 0 <= k < |passes| && v in passes[k]
  }

  /** The first pass that finds a variable unused; the number of passes if none does. */
  function PassOf(passes: seq<set<Var>>, v: Var): nat {
    if passes == [] || v in passes[0] then 0 else 1 + PassOf(passes[1..], v)
  }

  lemma {:induction false} PassOfIs(passes: seq<set<Var>>, v: Var)
    ensures var k := PassOf(passes, v);
            && k <= |passes| && (k < |passes| ==> v in passes[k]) && (k < |passes| <==> InSome(passes, v))
            && forall j :: 0 <= j < k ==> v !in passes[j]
  {
    if passes != [] && v !in passes[0] {
      PassOfIs(passes[1..], v);
      if k :| 0 <= k < |passes| && v in passes[k] { assert v in passes[1..][k - 1]; }
      if k :| 0 <= k < |passes[1..]| && v in passes[1..][k] { assert v in passes[k + 1]; }
      forall j | 0 <= j < PassOf(passes, v) ensures v !in passes[j] { assert j > 0 ==> passes[j] == passes[1..][j - 1]; }
    }
  }

  /** The variables that pass k is the first to find unused, in the order of their creation. */
  function Where(vs: seq<Var>, passes: seq<set<Var>>, k: nat): seq<Var> {
    if vs == [] then [] else (if PassOf(passes, vs[0]) == k then [vs[0]] else []) + Where(vs[1..], passes, k)
  }

  /** Those of the first n passes, one pass after the other. */
  function InPasses(vs: seq<Var>, passes: seq<set<Var>>, n: nat): seq<Var> {
    if n == 0 then [] else InPasses(vs, passes, n - 1) + Where(vs, passes, n - 1)
  }

  lemma {:induction false} WhereNext(vs: seq<Var>, passes: seq<set<Var>>, k: nat)
    requires passes != [] && k > 0
    ensures Where(Keep(vs, passes[0]), passes[1..], k - 1) == Where(vs, passes, k)
  {
    if vs != [] {
      WhereNext(vs[1..], passes, k);
      var rest := Keep(vs[1..], passes[0]);
      if vs[0] in passes[0] {
        assert Keep(vs, passes[0]) == rest;
      } else {
        assert Keep(vs, passes[0]) == [vs[0]] + rest && ([vs[0]] + rest)[1..] == rest;
      }
    }
  }

  lemma {:induction false} WhereFirst(vs: seq<Var>, passes: seq<set<Var>>)
    requires passes != []
    ensures Gone(vs, passes[0]) == Where(vs, passes, 0)
  {
    if vs != [] { WhereFirst(vs[1..], passes); }
  }

  lemma {:induction false} WhereNone(vs: seq<Var>)
    ensures Where(vs, [], 0) == vs
  {
    if vs != [] { WhereNone(vs[1..]); }
  }

  lemma {:induction false} InPassesNext(vs: seq<Var>, passes: seq<set<Var>>, n: nat)
    requires passes != []
    ensures InPasses(vs, passes, n + 1) == Gone(vs, passes[0]) + InPasses(Keep(vs, passes[0]), passes[1..], n)
  {
    hide Where, Keep, Gone;
    var kept, gone, rest := Keep(vs, passes[0]), Gone(vs, passes[0]), passes[1..];
    assert InPasses(vs, passes, n + 1) == InPasses(vs, passes, n) + Where(vs, passes, n);
    if n == 0 {
      WhereFirst(vs, passes);
      assert InPasses(vs, passes, 0) == [] == InPasses(kept, rest, 0);
    } else {
      InPassesNext(vs, passes, n - 1);
      WhereNext(vs, passes, n);
      assert InPasses(kept, rest, n) == InPasses(kept, rest, n - 1) + Where(kept, rest, n - 1);
    }
  }

  /** Kept are the variables that no pass finds unused; gone are the others, pass by pass, in the order of creation. */
  lemma {:induction false} UnusedGo(vs: seq<Var>, passes: seq<set<Var>>)
    ensures KeepAll(vs, passes) == Where(vs, passes, |passes|)
    ensures GoneAll(vs, passes) == InPasses(vs, passes, |passes|)
    decreases |passes|
  {
    if passes == [] {
      WhereNone(vs);
    } else {
      UnusedGo(Keep(vs, passes[0]), passes[1..]);
      WhereNext(vs, passes, |passes|);
      InPassesNext(vs, passes, |passes| - 1);
    }
  }

  lemma {:induction false} WhereMembers(vs: seq<Var>, passes: seq<set<Var>>, k: nat, v: Var)
    ensures v in Where(vs, passes, k) <==> v in vs && PassOf(passes, v) == k
  {
    if vs != [] {
      WhereMembers(vs[1..], passes, k, v);
      assert vs == [vs[0]] + vs[1..];
    }
  }

  lemma {:induction false} InPassesMembers(vs: seq<Var>, passes: seq<set<Var>>, n: nat, v: Var)
    ensures v in InPasses(vs, passes, n) <==> v in vs && PassOf(passes, v) < n
  {
    if n > 0 {
      InPassesMembers(vs, passes, n - 1, v);
      WhereMembers(vs, passes, n - 1, v);
    }
  }

  /** A temporary goes early exactly if some pass finds it unused, and is kept exactly if none does. */
  lemma UnusedOnly(vs: seq<Var>, passes: seq<set<Var>>, v: Var)
    ensures v in GoneAll(vs, passes) <==> v in vs && InSome(passes, v)
    ensures v in KeepAll(vs, passes) <==> v in vs && !InSome(passes, v)
  {
    UnusedGo(vs, passes);
    PassOfIs(passes, v);
    WhereMembers(vs, passes, |passes|, v);
    InPassesMembers(vs, passes, |passes|, v);
  }

  lemma AllUnused(vs: seq<Var>, passes: seq<set<Var>>)
    ensures forall v: Var :: v in KeepAll(vs, passes) <==> v in vs && !InSome(passes, v)
  {
    forall v: Var ensures v in KeepAll(vs, passes) <==> v in vs && !InSome(passes, v) { UnusedOnly(vs, passes, v); }
  }

  /** The first list is the second one with elements left out. */
  ghost predicate Subsequence(ws: seq<Var>, vs: seq<Var>) {
    if ws == [] then true
    else if vs == [] then false
    else if ws[0] == vs[0] && Subsequence(ws[1..], vs[1..]) then true
    else Subsequence(ws, vs[1..])
  }

  lemma {:induction false} WhereInOrder(vs: seq<Var>, passes: seq<set<Var>>, k: nat)
    ensures Subsequence(Where(vs, passes, k), vs)
  {
    if vs != [] {
      WhereInOrder(vs[1..], passes, k);
      var rest := Where(vs[1..], passes, k);
      if PassOf(passes, vs[0]) == k { assert ([vs[0]] + rest)[1..] == rest; } else { assert Where(vs, passes, k) == rest; }
    }
  }

  lemma KeptInOrder(vs: seq<Var>, passes: seq<set<Var>>)
    ensures Subsequence(KeepAll(vs, passes), vs)
  {
    UnusedGo(vs, passes);
    WhereInOrder(vs, passes, |passes|);
  }

  /** A variable that must be destroyed between the expression of a "with" and its body. */
  ghost predicate Early(s: Stmt, v: Var)
    requires s.With?
  {
    v in s.e.temps && InSome(s.unused, v)
  }

  /**
   * Between the expression of a "with" and its body the bound variable comes to life, and then
   * exactly the temporaries die that nothing uses; the body runs after that.
   */
  lemma WithRun(env: Env, s: Stmt, tr: Trace, fuel: nat) returns (between: Trace)
    requires s.With?
    ensures Enter(s.e, tr) + between <= ExecBlock(env, s.body, Enter(s.e, tr) + between, fuel).tr <= Exec(env, s, tr, fuel).tr
    ensures forall v: Var :: Destroy(v) in between <==> Early(s, v)
    ensures forall v: Var :: Init(v) in between <==> s.bound == Some(v)
    ensures forall i, j :: 0 <= i < |between| && 0 <= j < |between| && between[i].Init? && between[j].Destroy? ==> i < j
  {
    between := Opened(s);
    var inits, gone := Inits(Bound(s.bound)), GoneAll(s.e.temps, s.unused);
    BlockExtends(env, s.body, Enter(s.e, tr) + between, fuel);
    forall v: Var ensures Destroy(v) in between <==> Early(s, v) {
      UnusedOnly(s.e.temps, s.unused, v);
      DropsMembers(gone, v);
      assert Destroy(v) !in inits;
    }
    forall v: Var ensures Init(v) in between <==> s.bound == Some(v) {
      assert Init(v) !in Drops(gone);
      if s.bound.Some? { assert inits == [Init(s.bound.value)]; }
    }
  }

  lemma DropsMembers(vs: seq<Var>, v: Var)
    ensures Destroy(v) in Drops(vs) <==> v in vs
  {
    if v in vs {
      var i :| 0 <= i < |vs| && vs[i] == v;
      assert Drops(vs)[i] == Destroy(v);
    }
  }
}
