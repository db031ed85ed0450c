/**
 * Inlining of an awaited coroutine: its blocks move into the caller, its
 * suspension becomes the caller's, and the await loop disappears.
 */
module AsyncInlining {

  import opened Options
  import opened Coroutines
  import opened CoroutineBlocks

  /** A coroutine and the blocks that every coroutine has. */
  datatype Coroutine = Coroutine(
    blocks: Body,
    entry: Id,
    before: Id,   // leads to the blocks that set up the coroutine
    prepare: Id,
    alloc: Id,
    begin: Id,
    initial: Id,  // the initial suspension point
    cleanup: Id,
    free: Id,
    suspend: Id,
    final: Id)

  /** The call of a coroutine, at an index of a block, and the loop that awaits it. */
  datatype Await = Await(at: Id, k: nat, loop: Id)

  /** Everything the inlining refers to. */
  datatype Site = Site(f: Body, suspend: Id, c: Coroutine, w: Await, loop: Loop, point: Point, first: Point, rest: Id)
  {
    /** What the frontend lays down for a coroutine and for an await. */
    predicate Shape() {
      && suspend in f && f[suspend] == Block([], Return)
      && w.at in f && w.k < |f[w.at].ops| && f[w.at].ops[w.k].Start?
      && w.loop in f && f[w.loop] == Block([], Resume(loop.done, loop.notDone))
      && loop.notDone in f && f[loop.notDone] == Block([], Switch(point.suspend, point.normal, point.destroy))
      && point.normal in f && f[point.normal] == Block([], Goto(w.loop)) && point.suspend == suspend
      && point.destroy in f && f[point.destroy].ops != [] && f[point.destroy].ops[0].Drop?
      && loop.done in f
      && c.entry in c.blocks
      && c.before in c.blocks && c.blocks[c.before].exit == Goto(c.prepare)
      && c.prepare in c.blocks && c.blocks[c.prepare].ops == [] && c.blocks[c.prepare].exit.Branch?
      && c.blocks[c.prepare].exit.yes == c.alloc && c.blocks[c.prepare].exit.no == c.begin
      && c.alloc in c.blocks && c.blocks[c.alloc] == Block([], Goto(c.begin))
      && c.begin in c.blocks && c.blocks[c.begin] == Block([], Goto(c.initial))
      && c.initial in c.blocks && c.blocks[c.initial] == Block([], Switch(first.suspend, first.normal, first.destroy))
      && first.suspend == c.suspend && first.destroy in c.blocks
      && c.cleanup in c.blocks && c.blocks[c.cleanup].ops == [] && c.blocks[c.cleanup].exit.Branch?
      && c.blocks[c.cleanup].exit.yes == c.free && c.blocks[c.cleanup].exit.no == c.suspend
      && c.free in c.blocks && c.blocks[c.free] == Block([], Goto(c.suspend))
      && c.suspend in c.blocks && c.blocks[c.suspend] == Block([], Return)
      && c.final in c.blocks && c.blocks[c.final] == Block([], Final(c.suspend, c.cleanup))
      && f.Keys !! c.blocks.Keys && rest !in f && rest !in c.blocks
    }

    /** Branches stay inside their function, and one block leads to the blocks that set up the callee. */
    ghost predicate Closed() {
      && (forall b :: b in f ==> Targets(f[b].exit) <= f.Keys)
      && (forall b :: b in c.blocks ==> Targets(c.blocks[b].exit) <= c.blocks.Keys)
      && (forall b :: b in c.blocks && c.prepare in Targets(c.blocks[b].exit) ==> b == c.before)
      && (forall b, i :: b in f && 0 <= i < |f[b].ops| && f[b].ops[i].Start? ==> b == w.at && i == w.k)
      && loop.done != w.loop && c.entry !in Special() && c.before !in Special()
    }

    /** Blocks of the caller that go away. */
    function Removed(): set<Id> {
      {w.loop, loop.notDone, point.normal}
    }

    /** Blocks of the callee that go away. */
    function Special(): set<Id> {
      {c.prepare, c.alloc, c.begin, c.initial, first.destroy, c.cleanup, c.free, c.suspend, c.final}
    }

    // ----- the new code -----

    function ToCaller(t: Id): Id {
      if t == w.loop then first.normal else t
    }

    function ToCallee(t: Id): Id {
      if t == c.prepare || t == c.initial then rest
      else if t == c.suspend then suspend
      else if t == c.final then loop.done
      else if t == c.cleanup then point.destroy
      else t
    }

    function CallerExit(e: Exit): Exit {
      match e
      case IfDone(yes, no) => Fixed(false, ToCaller(yes), ToCaller(no))
      case _ => Redirected(e, t => ToCaller(t))
    }

    function CalleeExit(e: Exit): Exit {
      Redirected(e, t => ToCallee(t))
    }

    /** Caller code: cut off at the call, and without destructor calls. */
    function CallerCode(b: Block): Block {
      if Start in b.ops then Block(Cut(b.ops), Goto(c.entry)) else Block(Cut(b.ops), CallerExit(b.exit))
    }

    function CalleeCode(b: Block): Block {
      Block(b.ops, CalleeExit(b.exit))
    }

    /** The caller's code after the call. */
    function RestCode(): Block
      requires w.at in f && w.k < |f[w.at].ops|
    {
      f[w.at].(ops := f[w.at].ops[w.k + 1..])
    }

    ghost function Inlined(): Body
      requires w.at in f && w.k < |f[w.at].ops|
    {
      map b | b in f.Keys + c.blocks.Keys + {rest} && b !in Removed() && b !in Special() ::
        if b == rest then CallerCode(RestCode())
        else if b in f then CallerCode(f[b])
        else CalleeCode(c.blocks[b])
    }
  }

  function Redirected(e: Exit, rho: Id -> Id): Exit {
    match e
    case Goto(t) => Goto(rho(t))
    case Branch(id, yes, no) => Branch(id, rho(yes), rho(no))
    case Fixed(v, yes, no) => Fixed(v, rho(yes), rho(no))
    case IfDone(yes, no) => IfDone(rho(yes), rho(no))
    case Resume(done, notDone) => Resume(rho(done), rho(notDone))
    case Switch(s, n, d) => Switch(rho(s), rho(n), rho(d))
    case Final(s, d) => Final(rho(s), rho(d))
    case _ => e
  }

  /** The operations up to the call, without destructor calls. */
  function Cut(ops: seq<Op>): seq<Op> {
    if ops == [] || ops[0].Start? then []
    else if ops[0].Drop? then Cut(ops[1..])
    else [ops[0]] + Cut(ops[1..])
  }

  function Targets(e: Exit): set<Id> {
    match e
    case Goto(t) => {t}
    case Branch(_, yes, no) => {yes, no}
    case Fixed(_, yes, no) => {yes, no}
    case IfDone(yes, no) => {yes, no}
    case Resume(done, notDone) => {done, notDone}
    case Switch(s, n, d) => {s, n, d}
    case Final(s, d) => {s, d}
    case _ => {}
  }

  // ----- changing a function in place -----

  function Change(t: Id, from: Id, to: Id): Id {
    if t == from then to else t
  }

  function Swap(from: Id, to: Id): Id -> Id {
    t => Change(t, from, to)
  }

  /** Makes every branch to one block lead to another. */
  function ReplaceUses(b: Body, from: Id, to: Id): (r: Body)
    ensures r.Keys == b.Keys
  {
    map x | x in b :: b[x].(exit := Redirected(b[x].exit, Swap(from, to)))
  }

  lemma RedirectTwice(e: Exit, f: Id -> Id, g: Id -> Id, h: Id -> Id)
    requires forall t :: t in Targets(e) ==> h(t) == g(f(t))
    ensures Redirected(Redirected(e, f), g) == Redirected(e, h)
  {
  }

  /** The inner coroutine is never done when its await begins. */
  function WithoutDone(e: Exit): Exit {
    if e.IfDone? then Fixed(false, e.yes, e.no) else e
  }

  function WithoutDrops(ops: seq<Op>): seq<Op> {
    if ops == [] then []
    else if ops[0].Drop? then WithoutDrops(ops[1..])
    else [ops[0]] + WithoutDrops(ops[1..])
  }

  /** All five redirections, one after the other. */
  function Linked(s: Site, b: Body): (r: Body)
    ensures r.Keys == b.Keys
  {
    ReplaceUses(ReplaceUses(ReplaceUses(ReplaceUses(ReplaceUses(b,
      s.c.initial, s.rest), s.c.suspend, s.suspend), s.c.final, s.loop.done), s.c.cleanup, s.point.destroy), s.w.loop, s.first.normal)
  }

  function Link(s: Site): Id -> Id {
    t => Change(Change(Change(Change(Change(t,
           s.c.initial, s.rest), s.c.suspend, s.suspend), s.c.final, s.loop.done), s.c.cleanup, s.point.destroy), s.w.loop, s.first.normal)
  }

  lemma LinkedBlock(s: Site, b: Body, x: Id)
    requires x in b
    ensures Linked(s, b)[x] == b[x].(exit := Redirected(b[x].exit, Link(s)))
  {
    var e := b[x].exit;
    var f1, f2, f3, f4 := Swap(s.c.initial, s.rest), Swap(s.c.suspend, s.suspend), Swap(s.c.final,
                               s.loop.done), Swap(s.c.cleanup, s.point.destroy);
    var g2: Id -> Id := t => f2(f1(t));
    var g3: Id -> Id := t => f3(g2(t));
    var g4: Id -> Id := t => f4(g3(t));
    RedirectTwice(e, f1, f2, g2);
    RedirectTwice(e, g2, f3, g3);
    RedirectTwice(e, g3, f4, g4);
    RedirectTwice(e, g4, Swap(s.w.loop, s.first.normal), Link(s));
  }

  lemma RedirectSame(e: Exit, f: Id -> Id, g: Id -> Id)
    requires forall t :: t in Targets(e) ==> f(t) == g(t)
    ensures Redirected(e, f) == Redirected(e, g)
  {
  }

  lemma LinkIs(s: Site, t: Id)
    ensures Link(s)(t) == Change(Change(Change(Change(Change(t,
      s.c.initial, s.rest), s.c.suspend, s.suspend), s.c.final, s.loop.done), s.c.cleanup, s.point.destroy), s.w.loop, s.first.normal)
  {
  }

  lemma IdsApart(s: Site)
    requires s.Shape() && s.Closed()
    ensures s.suspend !in s.c.blocks && s.rest !in s.c.blocks && s.loop.done !in s.c.blocks
    ensures s.point.destroy !in s.c.blocks
    ensures s.suspend != s.w.loop && s.rest != s.w.loop && s.loop.done != s.w.loop && s.point.destroy != s.w.loop
    ensures s.c.initial in s.c.blocks && s.c.suspend in s.c.blocks && s.c.final in s.c.blocks
    ensures s.c.cleanup in s.c.blocks
    ensures s.w.loop !in s.c.blocks && s.rest !in s.f && s.f.Keys !! s.c.blocks.Keys && s.c.prepare != s.c.initial
  {
  }

  lemma LinkAt(s: Site, t: Id)
    requires s.Shape() && s.Closed()
    ensures t in s.f ==> Link(s)(t) == s.ToCaller(t)
    ensures t in s.c.blocks && t != s.c.prepare ==> Link(s)(t) == s.ToCallee(t)
  {
    hide Site.Shape, Site.Closed, Link;
    LinkIs(s, t);
    IdsApart(s);
  }

  lemma LinkCaller(s: Site, e: Exit)
    requires s.Shape() && s.Closed() && Targets(e) <= s.f.Keys
    ensures Redirected(WithoutDone(e), Link(s)) == s.CallerExit(e)
  {
    hide Site.Shape, Site.Closed, Link, Targets, Redirected, WithoutDone, Site.ToCaller, Site.CallerExit;
    forall t | t in Targets(e) ensures Link(s)(t) == s.ToCaller(t) { LinkAt(s, t); }
    RedirectCaller(s, e, Link(s));
  }

  lemma RedirectCaller(s: Site, e: Exit, f: Id -> Id)
    requires forall t :: t in Targets(e) ==> f(t) == s.ToCaller(t)
    ensures Redirected(WithoutDone(e), f) == s.CallerExit(e)
  {
    hide Site.ToCaller;
  }

  lemma LinkCallee(s: Site, e: Exit)
    requires s.Shape() && s.Closed() && Targets(e) <= s.c.blocks.Keys && s.c.prepare !in Targets(e)
    ensures Redirected(e, Link(s)) == s.CalleeExit(e)
  {
    forall t | t in Targets(e) ensures Link(s)(t) == s.ToCallee(t) { LinkAt(s, t); }
    RedirectSame(e, Link(s), t => s.ToCallee(t));
  }

  lemma {:induction false} CutIs(ops: seq<Op>)
    requires Start !in ops
    ensures WithoutDrops(ops) == Cut(ops)
  {
    if ops != [] {
      assert ops[0] in ops && forall o :: o in ops[1..] ==> o in ops;
      CutIs(ops[1..]);
    }
  }

  lemma {:induction false} CutAt(ops: seq<Op>, k: nat)
    requires k < |ops| && ops[k].Start? && forall i :: 0 <= i < k ==> !ops[i].Start?
    ensures Cut(ops) == WithoutDrops(ops[..k])
  {
    if k > 0 {
      assert ops[1..][..k - 1] == ops[..k][1..];
      CutAt(ops[1..], k - 1);
    }
  }

  /** All blocks of both functions, with the call cut out, before branches are redirected. */
  function Merged(s: Site): Body
    requires s.w.at in s.f && s.w.k < |s.f[s.w.at].ops| && s.c.before in s.c.blocks && s.w.at !in s.c.blocks
  {
    var b: Body := map x | x in s.f :: s.f[x].(exit := WithoutDone(s.f[x].exit));
    var m := b + s.c.blocks[s.c.before := s.c.blocks[s.c.before].(exit := Goto(s.c.initial))];
    var at := m[s.w.at];
    m[s.rest := at.(ops := at.ops[s.w.k + 1..])][s.w.at := Block(at.ops[..s.w.k], Goto(s.c.entry))]
  }

  function Cleaned(s: Site, b: Body): Body {
    map x | x in b && x !in s.Removed() && x !in s.Special() ::
      if x in s.c.blocks then b[x] else b[x].(ops := WithoutDrops(b[x].ops))
  }

  lemma CallerBlockIs(s: Site, x: Id)
    requires s.Shape() && s.Closed() && x in s.f && x !in s.Removed() && x != s.w.at
    ensures Redirected(Merged(s)[x].exit, Link(s)) == s.CallerCode(s.f[x]).exit
    ensures WithoutDrops(Merged(s)[x].ops) == s.CallerCode(s.f[x]).ops
  {
    LinkCaller(s, s.f[x].exit);
    assert Start !in s.f[x].ops;
    CutIs(s.f[x].ops);
  }

  lemma SplitBlocksAre(s: Site)
    requires s.Shape() && s.Closed()
    ensures var m := Merged(s);
      && Redirected(m[s.w.at].exit, Link(s)) == s.CallerCode(s.f[s.w.at]).exit
      && WithoutDrops(m[s.w.at].ops) == s.CallerCode(s.f[s.w.at]).ops
      && Redirected(m[s.rest].exit, Link(s)) == s.CallerCode(s.RestCode()).exit
      && WithoutDrops(m[s.rest].ops) == s.CallerCode(s.RestCode()).ops
  {
    var at := s.f[s.w.at];
    LinkCaller(s, at.exit);
    LinkAt(s, s.c.entry);
    assert at.ops[s.w.k] in at.ops;
    CutAt(at.ops, s.w.k);
    assert Start !in at.ops[s.w.k + 1..] by {
      forall i | s.w.k + 1 <= i < |at.ops| ensures !at.ops[i].Start? { }
    }
    CutIs(at.ops[s.w.k + 1..]);
  }

  lemma CalleeBlockIs(s: Site, x: Id)
    requires s.Shape() && s.Closed() && x in s.c.blocks && x !in s.Special()
    ensures Merged(s)[x].(exit := Redirected(Merged(s)[x].exit, Link(s))) == s.CalleeCode(s.c.blocks[x])
  {
    LinkAt(s, s.c.initial);
    if x != s.c.before { LinkCallee(s, s.c.blocks[x].exit); }
  }

  /** The steps of the transformation give the new body. */
  lemma InlinedIs(s: Site)
    requires s.Shape() && s.Closed()
    ensures Cleaned(s, Linked(s, Merged(s))) == s.Inlined()
  {
    hide Site.Shape, Site.Closed, Site.CallerCode, Site.CalleeCode, Merged, Linked, Link, Redirected, WithoutDrops;
    KeysOf(s);
    var m := Merged(s);
    var b := Linked(s, m);
    SplitBlocksAre(s);
    forall x | x in s.Inlined() ensures x in Cleaned(s, b) && Cleaned(s, b)[x] == s.Inlined()[x] {
      LinkedBlock(s, m, x);
      if x in s.c.blocks {
        CalleeBlockIs(s, x);
      } else if x in s.f && x != s.w.at {
        CallerBlockIs(s, x);
      }
    }
    assert Cleaned(s, b).Keys == s.Inlined().Keys;
  }

  lemma KeysOf(s: Site)
    requires s.Shape()
    ensures s.w.at in s.f && s.w.k < |s.f[s.w.at].ops| && s.c.before in s.c.blocks && s.w.at !in s.c.blocks
    ensures Merged(s).Keys == s.f.Keys + s.c.blocks.Keys + {s.rest} && s.rest !in s.f && s.rest !in s.c.blocks
    ensures s.f.Keys !! s.c.blocks.Keys
  {
  }

  /** Inlines an awaited call, if the await has the expected form. */
  method TryToInlineAsyncCall(f: Body, text: map<Id, Code>, suspend: Id, c: Coroutine, calleeText: map<Id, Code>, w: Await, rest: Id,
                              ghost site: Site) returns (r: Option<Body>)
    requires Written(f, text) && Written(c.blocks, calleeText)
    requires w.at in f && w.loop in f && w.k < |f[w.at].ops|
    requires f[w.loop].exit.Resume? ==> f[w.loop].exit.notDone in f
    requires c.initial in c.blocks && IsPoint(c.blocks[c.initial])
    requires c.before in c.blocks && f.Keys !! c.blocks.Keys && rest !in f && rest !in c.blocks
    requires site.f == f && site.suspend == suspend && site.c == c && site.w == w && site.rest == rest
    ensures r.Some? <==> IsLoop(f[w.loop]) && IsPoint(f[f[w.loop].exit.notDone])
    ensures site.Shape() ==> r.Some?
    ensures site.Shape() && site.Closed() ==> r.value == site.Inlined()
  {
    hide Site.Closed, Site.Inlined, Redirected, WithoutDrops, Merged, ReplaceUses, Meaning, Linked, Cleaned;
    var loopBlock := ParseAwaitLoopBlock(text[w.loop]);
    if loopBlock.None? { return None; }
    var loop := loopBlock.value;
    var pointBlock := ParseSuspendBlock(text[loop.notDone]);
    if pointBlock.None? { return None; }
    var firstBlock := ParseSuspendBlock(calleeText[c.initial]);
    var b := InlineBlocks(f, suspend, c, w, rest, loop, pointBlock.value, firstBlock.value);
    r := Some(b);
    assert site.Shape() ==> site == Site(f, suspend, c, w, loop, pointBlock.value, firstBlock.value, rest);
  }

  /** The inlining itself, once its parts are found. */
  method InlineBlocks(f: Body, suspend: Id, c: Coroutine, w: Await, rest: Id, loop: Loop, point: Point, first: Point)
    returns (b: Body)
    requires w.at in f && w.k < |f[w.at].ops| && c.before in c.blocks && f.Keys !! c.blocks.Keys && rest !in f
    requires rest !in c.blocks
    ensures var site := Site(f, suspend, c, w, loop, point, first, rest); site.Shape() && site.Closed() ==> b == site.Inlined()
  {
    hide Site.Shape, Site.Closed, Site.Inlined, Redirected, WithoutDrops, Merged, ReplaceUses;
    ghost var site := Site(f, suspend, c, w, loop, point, first, rest);
    b := MoveBlocks(f, c, w, rest, site);
    // The callee's initial suspension leads to the caller's code after the call, and so on.
    b := ReplaceUses(b, c.initial, rest);
    b := ReplaceUses(b, c.suspend, suspend);
    b := ReplaceUses(b, c.final, loop.done);
    b := ReplaceUses(b, c.cleanup, point.destroy);
    b := ReplaceUses(b, w.loop, first.normal);
    ghost var linked := b;
    assert linked == Linked(site, Merged(site));
    // What cannot be reached any more goes away.
    b := b - {w.loop, loop.notDone, point.normal};
    b := b - {c.prepare, c.alloc, c.begin, c.initial, first.destroy, c.cleanup, c.free, c.suspend, c.final};
    // The coroutine object has no users any more.
    b := map x | x in b :: if x in c.blocks then b[x] else b[x].(ops := WithoutDrops(b[x].ops));
    assert b == Cleaned(site, linked);
    if site.Shape() && site.Closed() { InlinedIs(site); }
  }

  /** Moves the callee's blocks into the caller and cuts the call out. */
  method MoveBlocks(f: Body, c: Coroutine, w: Await, rest: Id, ghost s: Site) returns (b: Body)
    requires w.at in f && w.k < |f[w.at].ops| && c.before in c.blocks && w.at !in c.blocks
    requires s.f == f && s.c == c && s.w == w && s.rest == rest
    ensures b == Merged(s)
  {
    hide WithoutDone;
    // The caller no longer asks whether the callee is done.
    b := map x | x in f :: f[x].(exit := WithoutDone(f[x].exit));
    // The callee no longer sets itself up.
    b := b + c.blocks[c.before := c.blocks[c.before].(exit := Goto(c.initial))];
    // The block with the call is split, and leads into the callee.
    var at := b[w.at];
    b := b[rest := at.(ops := at.ops[w.k + 1..])][w.at := Block(at.ops[..w.k], Goto(c.entry))];
  }
}
