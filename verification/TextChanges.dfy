/**
 * Edits of a text, and how positions before and after a sequence of edits
 * correspond to each other.
 */
module TextChanges {

  import opened Options

  type Text = string

  /** What is remembered of an edit: the replaced range and the length of the new text. */
  datatype TextChange = TextChange(start: nat, end: nat, count: nat)

  /** A whole edit. */
  datatype Edit = Edit(start: nat, end: nat, text: Text)
  {
    function Summary(): TextChange {
      TextChange(start, end, |text|)
    }
  }

  function Summaries(es: seq<Edit>): (cs: seq<TextChange>)
    ensures |cs| == |es| && forall i :: 0 <= i < |es| ==> cs[i] == es[i].Summary()
  {
    seq(|es|, i requires 0 <= i < |es| => es[i].Summary())
  }

  // ----- replaying edits -----

  function Replaced<T>(s: seq<T>, start: nat, end: nat, t: seq<T>): (r: seq<T>)
    requires start <= end <= |s|
    ensures |r| == |s| - (end - start) + |t|
  {
    s[..start] + t + s[end..]
  }

  /** The edits fit texts of length n, one after the other. */
  predicate Fit(es: seq<Edit>, n: nat) {
    es != [] ==> es[0].start <= es[0].end <= n && Fit(es[1..], n - (es[0].end - es[0].start) + |es[0].text|)
  }

  function Replay(es: seq<Edit>, s: Text): Text
    requires Fit(es, |s|)
  {
    if es == [] then s else Replay(es[1..], Replaced(s, es[0].start, es[0].end, es[0].text))
  }

  // ----- where each byte comes from -----

  type Origins = seq<Option<nat>>

  /** Each byte of a text is its own origin. */
  function Own(n: nat): Origins {
    seq(n, i requires 0 <= i < n => Some(i))
  }

  function New(n: nat): Origins {
    seq(n, i => None)
  }

  /** The position each byte had before the edits; inserted bytes had none. */
  function Trail(es: seq<Edit>, o: Origins): Origins
    requires Fit(es, |o|)
  {
    if es == [] then o else Trail(es[1..], Replaced(o, es[0].start, es[0].end, New(|es[0].text|)))
  }

  /** Bytes that stayed are still the same. */
  lemma {:induction false} TrailKeepsBytes(es: seq<Edit>, o: Origins, s: Text, s0: Text)
    requires |o| == |s| && Fit(es, |s|)
    requires forall i :: 0 <= i < |o| && o[i].Some? ==> o[i].value < |s0| && s[i] == s0[o[i].value]
    ensures var r, t := Replay(es, s), Trail(es, o);
            && |r| == |t|
            && forall i :: 0 <= i < |t| && t[i].Some? ==> t[i].value < |s0| && r[i] == s0[t[i].value]
  {
    if es != [] {
      var e := es[0];
      TrailKeepsBytes(es[1..], Replaced(o, e.start, e.end, New(|e.text|)), Replaced(s, e.start, e.end, e.text), s0);
    }
  }

  // ----- mapping positions -----

  /** One change, from the text before it to the text after it. */
  function Forward(c: TextChange, p: nat): Option<nat> {
    if p < c.start then Some(p)
    else if p >= c.end then Some(p - c.end + (c.start + c.count))
    else None
  }

  /** One change, from the text after it to the text before it. */
  function Backward(c: TextChange, p: nat): Option<nat> {
    if p < c.start then Some(p)
    else if p >= c.start + c.count then Some(p - (c.start + c.count) + c.end)
    else None
  }

  predicate Proper(cs: seq<TextChange>) {
    forall i :: 0 <= i < |cs| ==> cs[i].start <= cs[i].end
  }

  function ToNew(cs: seq<TextChange>, p: nat): Option<nat> {
    if cs == [] then Some(p)
    else
      match Forward(cs[0], p)
      case None => None
      case Some(q) => ToNew(cs[1..], q)
  }

  function ToOld(cs: seq<TextChange>, p: nat): Option<nat> {
    if cs == [] then Some(p)
    else
      match Backward(cs[|cs| - 1], p)
      case None => None
      case Some(q) => ToOld(cs[..|cs| - 1], q)
  }

  method MapOldPositionToNewPosition(changes: seq<TextChange>, position: nat) returns (r: Option<nat>)
    requires Proper(changes)
    ensures r == ToNew(changes, position)
  {
    var current: nat := position;
    for i := 0 to |changes|
      invariant ToNew(changes, position) == ToNew(changes[i..], current)
    {
      var c := changes[i];
      assert changes[i..][0] == c && changes[i..][1..] == changes[i + 1..];
      if current < c.start {
        // The change was made after this position.
      } else if current >= c.end {
        var afterChange := current - c.end;
        var newEnd := c.start + c.count;
        current := afterChange + newEnd;
      } else {
        return None;
      }
    }
    r := Some(current);
  }

  method MapNewPositionToOldPosition(changes: seq<TextChange>, position: nat) returns (r: Option<nat>)
    ensures r == ToOld(changes, position)
  {
    var current: nat := position;
    var i := |changes|;
    assert changes[..i] == changes;
    while i > 0
      invariant 0 <= i <= |changes|
      invariant ToOld(changes, position) == ToOld(changes[..i], current)
    {
      i := i - 1;
      var c := changes[i];
      assert changes[..i + 1][i] == c && changes[..i + 1][..i] == changes[..i];
      if current < c.start { continue; }
      var newEnd := c.start + c.count;
      if current >= newEnd {
        current := current - newEnd + c.end;
      } else {
        return None;
      }
    }
    r := Some(current);
  }

  // ----- the two maps are inverse to each other -----

  lemma {:induction false} ToOldFirst(cs: seq<TextChange>, q: nat)
    requires cs != []
    ensures ToOld(cs, q) == match ToOld(cs[1..], q) case None => None case Some(x) => Backward(cs[0], x)
  {
    var n := |cs| - 1;
    if n > 0 {
      assert cs[1..][|cs[1..]| - 1] == cs[n] && cs[1..][..n - 1] == cs[..n][1..];
      match Backward(cs[n], q)
      case None =>
      case Some(x) => ToOldFirst(cs[..n], x);
    }
  }

  lemma OneInverse(c: TextChange, p: nat, q: nat)
    requires c.start <= c.end
    ensures Forward(c, p) == Some(q) <==> Backward(c, q) == Some(p)
  {
  }

  lemma {:induction false} MapsAreInverse(cs: seq<TextChange>, p: nat, q: nat)
    requires Proper(cs)
    ensures ToNew(cs, p) == Some(q) <==> ToOld(cs, q) == Some(p)
  {
    if cs != [] {
      ToOldFirst(cs, q);
      match Forward(cs[0], p)
      case Some(x) =>
        MapsAreInverse(cs[1..], x, q);
        OneInverse(cs[0], p, x);
        if ToOld(cs[1..], q).Some? { OneInverse(cs[0], p, ToOld(cs[1..], q).value); }
      case None =>
        if ToOld(cs[1..], q).Some? { OneInverse(cs[0], p, ToOld(cs[1..], q).value); }
    }
  }

  lemma {:induction false} MapIsIncreasing(cs: seq<TextChange>, p: nat, p': nat)
    requires Proper(cs) && ToNew(cs, p).Some? && ToNew(cs, p').Some?
    ensures p < p' <==> ToNew(cs, p).value < ToNew(cs, p').value
  {
    if cs != [] { MapIsIncreasing(cs[1..], Forward(cs[0], p).value, Forward(cs[0], p').value); }
  }

  lemma InverseIsIncreasing(cs: seq<TextChange>, q: nat, q': nat)
    requires Proper(cs) && ToOld(cs, q).Some? && ToOld(cs, q').Some?
    ensures q < q' <==> ToOld(cs, q).value < ToOld(cs, q').value
  {
    MapsAreInverse(cs, ToOld(cs, q).value, q);
    MapsAreInverse(cs, ToOld(cs, q').value, q');
    MapIsIncreasing(cs, ToOld(cs, q).value, ToOld(cs, q').value);
  }

  // ----- and they follow the bytes -----

  lemma {:induction false} FitProper(es: seq<Edit>, n: nat)
    requires Fit(es, n)
    ensures Proper(Summaries(es))
  {
    if es != [] {
      FitProper(es[1..], n - (es[0].end - es[0].start) + |es[0].text|);
      var cs, ds := Summaries(es), Summaries(es[1..]);
      assert forall i :: 1 <= i < |cs| ==> cs[i] == ds[i - 1];
    }
  }

  lemma SummariesRest(es: seq<Edit>)
    requires es != []
    ensures Summaries(es)[1..] == Summaries(es[1..]) && Summaries(es)[0] == es[0].Summary()
  {
  }

  lemma {:induction false} TrailLength(es: seq<Edit>, o: Origins)
    requires Fit(es, |o|)
    ensures ToOld(Summaries(es), |Trail(es, o)|) == Some(|o|)
  {
    if es != [] {
      var e := es[0];
      var o' := Replaced(o, e.start, e.end, New(|e.text|));
      TrailLength(es[1..], o');
      SummariesRest(es);
      ToOldFirst(Summaries(es), |Trail(es, o)|);
    }
  }

  /** The byte at a position comes from where the map to old positions leads, or from nowhere. */
  lemma {:induction false} TrailIsToOld(es: seq<Edit>, o: Origins, q: nat)
    requires Fit(es, |o|) && q < |Trail(es, o)|
    ensures var x := ToOld(Summaries(es), q);
            && (x.Some? ==> x.value < |o|)
            && Trail(es, o)[q] == if x.Some? then o[x.value] else None
  {
    if es != [] {
      var e := es[0];
      var o' := Replaced(o, e.start, e.end, New(|e.text|));
      TrailIsToOld(es[1..], o', q);
      SummariesRest(es);
      ToOldFirst(Summaries(es), q);
    }
  }

  /** An old position survives exactly if its byte is still somewhere, and the maps say where. */
  lemma {:induction false} MapsFollowBytes(es: seq<Edit>, n: nat, p: nat, q: nat)
    requires Fit(es, n) && p < n
    ensures var t := Trail(es, Own(n));
            ToNew(Summaries(es), p) == Some(q) <==> q < |t| && t[q] == Some(p)
  {
    var cs, t := Summaries(es), Trail(es, Own(n));
    FitProper(es, n);
    MapsAreInverse(cs, p, q);
    hide Fit, Proper, Summaries, Trail, ToNew, ToOld;
    if q < |t| {
      UndefinedOnInserted(es, n, q);
    } else if ToOld(cs, q).Some? {
      TrailLength(es, Own(n));
      InverseIsIncreasing(cs, |t|, q);
    }
  }

  /** A new position has no old one exactly if its byte was inserted. */
  lemma UndefinedOnInserted(es: seq<Edit>, n: nat, q: nat)
    requires Fit(es, n) && q < |Trail(es, Own(n))|
    ensures ToOld(Summaries(es), q) == Trail(es, Own(n))[q]
  {
    TrailIsToOld(es, Own(n), q);
  }

  /** An old position has no new one exactly if its byte is nowhere any more. */
  lemma UndefinedOnReplaced(es: seq<Edit>, n: nat, p: nat)
    requires Fit(es, n) && p < n
    ensures ToNew(Summaries(es), p).None? <==> Some(p) !in Trail(es, Own(n))
  {
    var t := Trail(es, Own(n));
    if ToNew(Summaries(es), p).Some? {
      MapsFollowBytes(es, n, p, ToNew(Summaries(es), p).value);
    }
    if Some(p) in t {
      var q :| 0 <= q < |t| && t[q] == Some(p);
      MapsFollowBytes(es, n, p, q);
    }
  }

  /** Mapped positions hold the same byte. */
  lemma SameBytes(es: seq<Edit>, s: Text, p: nat, q: nat)
    requires Fit(es, |s|) && p < |s| && ToNew(Summaries(es), p) == Some(q)
    ensures q < |Replay(es, s)| && Replay(es, s)[q] == s[p]
  {
    MapsFollowBytes(es, |s|, p, q);
    TrailKeepsBytes(es, Own(|s|), s, s);
  }
}
