/**
 * The check that the case ranges of a switch are disjoint, complete when there is
 * no default case, and incomplete when there is one.
 *
 * Constants are fixed-width bit patterns, as in the compiler; differences of
 * patterns wrap around.
 */
module SwitchRanges {

  import opened Numbers

  datatype Range = Range(low: nat, high: nat)

  /** The type of a switch value.  Enum values are numbered from zero. */
  datatype IntType = Signed(bits: nat) | Unsigned(bits: nat) | Enum(bits: nat, count: nat) {

    predicate Valid() {
      && bits > 0
      && (Enum? ==> 0 < count <= Modulus())
    }

    function Modulus(): nat {
      Pow2(bits)
    }

    /** The sign bit alone. */
    function SignBit(): nat {
      if bits == 0 then 0 else Pow2(bits - 1)
    }

    /** The number a bit pattern stands for. */
    function AsInt(p: nat): int {
      if Signed? && p >= SignBit() then p - Modulus() else p
    }

    function Low(): nat {
      if Signed? then SignBit() else 0
    }

    function High(): nat
      requires Valid()
    {
      match this
      case Signed(_) => SignBit() - 1
      case Unsigned(_) => Modulus() - 1
      case Enum(_, n) => n - 1
    }

    predicate Pattern(p: nat)
      requires Valid()
    {
      p < Modulus() && (Enum? ==> p < count)
    }

    /** Subtraction of patterns, dropping the borrow. */
    function Minus(p: nat, q: nat): nat
      requires p < Modulus() && q < Modulus()
    {
      if p >= q then p - q else p - q + Modulus()
    }

    predicate Less(p: nat, q: nat) {
      AsInt(p) < AsInt(q)
    }

    predicate Contains(r: Range, p: nat) {
      !Less(p, r.low) && !Less(r.high, p)
    }

    predicate InSome(rs: seq<Range>, p: nat) {
      exists i :: 0 <= i < |rs| && Contains(rs[i], p)
    }

    predicate ValidRange(r: Range)
      requires Valid()
    {
      Pattern(r.low) && Pattern(r.high) && !Less(r.high, r.low)
    }

    predicate ValidRanges(rs: seq<Range>)
      requires Valid()
    {
      forall i :: 0 <= i < |rs| ==> ValidRange(rs[i])
    }

    /** Any number made into a value of the type. */
    function Clip(n: nat): nat {
      if Enum? && count > 0 then n % count else n % Modulus()
    }

    /** How many of the ranges contain the number x. */
    function Count(rs: seq<Range>, x: int): nat {
      if rs == [] then 0
      else (if AsInt(rs[0].low) <= x <= AsInt(rs[0].high) then 1 else 0) + Count(rs[1..], x)
    }

    ghost predicate InType(x: int)
      requires Valid()
    {
      AsInt(Low()) <= x <= AsInt(High())
    }

    /** Every value of the type lies in exactly one of the ranges. */
    ghost predicate Partition(rs: seq<Range>)
      requires Valid()
    {
      forall x :: InType(x) ==> Count(rs, x) == 1
    }

    /** No value of the type lies in two of the ranges. */
    ghost predicate Disjoint(rs: seq<Range>)
      requires Valid()
    {
      forall x :: InType(x) ==> Count(rs, x) <= 1
    }

    ghost predicate LeavesGap(rs: seq<Range>)
      requires Valid()
    {
      exists x :: InType(x) && Count(rs, x) == 0
    }

    /** What the check accepts. */
    ghost predicate Accepted(rs: seq<Range>, hasDefault: bool)
      requires Valid()
    {
      if hasDefault then Disjoint(rs) && LeavesGap(rs) else Partition(rs)
    }

    // ----- patterns and numbers -----

    lemma HalfModulus()
      requires bits > 0
      ensures Modulus() == 2 * SignBit() && SignBit() >= 1
    {
    }

    /** Patterns of the type stand for exactly the numbers between its bounds. */
    lemma PatternBounds(p: nat)
      requires Valid() && Pattern(p)
      ensures InType(AsInt(p))
      ensures AsInt(High()) - AsInt(Low()) < Modulus()
    {
      HalfModulus();
    }

    /** A wrapped difference is zero, respectively one, exactly when the true one is. */
    lemma MinusIsDifference(p: nat, q: nat)
      requires Valid() && Pattern(p) && Pattern(q) && AsInt(q) <= AsInt(p)
      ensures Minus(p, q) == AsInt(p) - AsInt(q)
    {
      HalfModulus();
    }

    lemma ClipInType(n: nat)
      requires Valid()
      ensures Pattern(Clip(n)) && InType(AsInt(Clip(n)))
    {
      PatternBounds(Clip(n));
    }

    // ----- sorting -----

    function InsertByLow(r: Range, rs: seq<Range>): seq<Range> {
      if rs == [] || !Less(rs[0].low, r.low) then [r] + rs
      else [rs[0]] + InsertByLow(r, rs[1..])
    }

    function SortByLow(rs: seq<Range>): seq<Range> {
      if rs == [] then [] else InsertByLow(rs[0], SortByLow(rs[1..]))
    }

    ghost predicate SortedByLow(rs: seq<Range>) {
      forall i, j :: 0 <= i < j < |rs| ==> AsInt(rs[i].low) <= AsInt(rs[j].low)
    }

    lemma {:induction false} InsertMembers(r: Range, rs: seq<Range>)
      ensures var s := InsertByLow(r, rs);
              |s| == |rs| + 1 && forall k :: 0 <= k < |s| ==> s[k] == r || s[k] in rs
    {
      if rs != [] && Less(rs[0].low, r.low) { InsertMembers(r, rs[1..]); }
    }

    lemma {:induction false} InsertCount(r: Range, rs: seq<Range>, x: int)
      ensures Count(InsertByLow(r, rs), x) == Count([r] + rs, x)
    {
      assert ([r] + rs)[1..] == rs;
      if rs != [] && Less(rs[0].low, r.low) {
        InsertCount(r, rs[1..], x);
        assert ([r] + rs[1..])[1..] == rs[1..];
        assert InsertByLow(r, rs)[1..] == InsertByLow(r, rs[1..]);
      }
    }

    ghost predicate NoneBelow(rs: seq<Range>, x: int) {
      forall k :: 0 <= k < |rs| ==> x <= AsInt(rs[k].low)
    }

    lemma {:induction false} InsertNoneBelow(r: Range, rs: seq<Range>, x: int)
      requires NoneBelow(rs, x) && x <= AsInt(r.low)
      ensures NoneBelow(InsertByLow(r, rs), x)
    {
      if rs != [] && Less(rs[0].low, r.low) { InsertNoneBelow(r, rs[1..], x); }
    }

    lemma SortedCons(r: Range, rs: seq<Range>)
      requires SortedByLow(rs) && NoneBelow(rs, AsInt(r.low))
      ensures SortedByLow([r] + rs)
    {
    }

    lemma SortedRest(rs: seq<Range>)
      requires SortedByLow(rs) && rs != []
      ensures SortedByLow(rs[1..]) && NoneBelow(rs, AsInt(rs[0].low)) && NoneBelow(rs[1..], AsInt(rs[0].low))
    {
    }

    lemma {:induction false} InsertSorted(r: Range, rs: seq<Range>)
      requires Valid() && ValidRange(r) && ValidRanges(rs) && SortedByLow(rs)
      ensures SortedByLow(InsertByLow(r, rs))
    {
      if rs == [] {
        SortedCons(r, rs);
      } else {
        SortedRest(rs);
        assert ValidRange(rs[0]);
        if Less(rs[0].low, r.low) {
          InsertSorted(r, rs[1..]);
          InsertNoneBelow(r, rs[1..], AsInt(rs[0].low));
          SortedCons(rs[0], InsertByLow(r, rs[1..]));
        } else {
          SortedCons(r, rs);
        }
      }
    }

    lemma InsertKeeps(r: Range, rs: seq<Range>, x: int)
      requires Valid() && ValidRange(r) && ValidRanges(rs) && SortedByLow(rs)
      ensures var s := InsertByLow(r, rs);
              && ValidRanges(s) && SortedByLow(s) && |s| == |rs| + 1
              && Count(s, x) == Count([r] + rs, x)
              && (forall k :: 0 <= k < |s| ==> s[k] == r || s[k] in rs)
    {
      InsertMembers(r, rs);
      InsertSorted(r, rs);
      InsertCount(r, rs, x);
    }

    /** Sorting changes no count, so it changes neither overlaps nor gaps. */
    lemma {:induction false} SortKeeps(rs: seq<Range>, x: int)
      requires Valid() && ValidRanges(rs)
      ensures var s := SortByLow(rs);
              ValidRanges(s) && SortedByLow(s) && |s| == |rs| && Count(s, x) == Count(rs, x)
    {
      if rs != [] {
        SortKeeps(rs[1..], x);
        InsertKeeps(rs[0], SortByLow(rs[1..]), x);
        var t := [rs[0]] + SortByLow(rs[1..]);
        assert t[1..] == SortByLow(rs[1..]);
      }
    }

    // ----- counts over a sorted sequence -----

    ghost predicate ApartAt(s: seq<Range>, i: int)
      requires 0 <= i < |s| - 1
    {
      AsInt(s[i].high) < AsInt(s[i + 1].low)
    }

    ghost predicate TouchAt(s: seq<Range>, i: int)
      requires 0 <= i < |s| - 1
    {
      AsInt(s[i].high) + 1 == AsInt(s[i + 1].low)
    }

    ghost predicate Separated(s: seq<Range>) {
      forall i :: 0 <= i < |s| - 1 ==> ApartAt(s, i)
    }

    ghost predicate Tight(s: seq<Range>) {
      forall i :: 0 <= i < |s| - 1 ==> TouchAt(s, i)
    }

    lemma {:induction false} CountZero(s: seq<Range>, x: int)
      requires forall i :: 0 <= i < |s| ==> !(AsInt(s[i].low) <= x <= AsInt(s[i].high))
      ensures Count(s, x) == 0
    {
      if s != [] { CountZero(s[1..], x); }
    }

    lemma {:induction false} CountPositive(s: seq<Range>, x: int, k: nat)
      requires k < |s| && AsInt(s[k].low) <= x <= AsInt(s[k].high)
      ensures Count(s, x) >= 1
    {
      if k > 0 { CountPositive(s[1..], x, k - 1); }
    }

    lemma {:induction false} CountHit(s: seq<Range>, x: int) returns (k: nat)
      requires Count(s, x) >= 1
      ensures k < |s| && AsInt(s[k].low) <= x <= AsInt(s[k].high)
    {
      if AsInt(s[0].low) <= x <= AsInt(s[0].high) {
        k := 0;
      } else {
        k := CountHit(s[1..], x);
        k := k + 1;
      }
    }

    lemma {:induction false} CountTwo(s: seq<Range>, x: int, k: nat)
      requires k + 1 < |s|
      requires AsInt(s[k].low) <= x <= AsInt(s[k].high)
      requires AsInt(s[k + 1].low) <= x <= AsInt(s[k + 1].high)
      ensures Count(s, x) >= 2
    {
      if k == 0 {
        CountPositive(s[1..], x, 0);
      } else {
        CountTwo(s[1..], x, k - 1);
      }
    }

    lemma {:induction false} SeparatedCounts(s: seq<Range>, x: int)
      requires Valid() && ValidRanges(s) && SortedByLow(s) && Separated(s)
      ensures Count(s, x) <= 1
    {
      if s != [] {
        assert forall i :: 0 <= i < |s| - 2 ==> ApartAt(s, i + 1) ==> ApartAt(s[1..], i);
        SeparatedCounts(s[1..], x);
        if AsInt(s[0].low) <= x <= AsInt(s[0].high) {
          assert |s| > 1 ==> ApartAt(s, 0);
          CountZero(s[1..], x);
        }
      }
    }

    lemma {:induction false} TightCovers(s: seq<Range>, x: int)
      requires Valid() && ValidRanges(s) && Tight(s)
      requires s != [] && AsInt(s[0].low) <= x <= AsInt(s[|s| - 1].high)
      ensures Count(s, x) >= 1
    {
      if x > AsInt(s[0].high) {
        assert TouchAt(s, 0);
        assert forall i :: 0 <= i < |s| - 2 ==> TouchAt(s, i + 1) ==> TouchAt(s[1..], i);
        TightCovers(s[1..], x);
      }
    }

    /** A value just above a range that no later range starts at is in no range. */
    lemma GapAfter(s: seq<Range>, k: nat)
      requires Valid() && ValidRanges(s) && SortedByLow(s) && Separated(s)
      requires k < |s| && (k + 1 < |s| ==> AsInt(s[k].high) + 1 != AsInt(s[k + 1].low))
      ensures Count(s, AsInt(s[k].high) + 1) == 0
    {
      var x := AsInt(s[k].high) + 1;
      forall i | 0 <= i < |s| ensures !(AsInt(s[i].low) <= x <= AsInt(s[i].high)) {
        if i < k {
          assert ApartAt(s, i) && AsInt(s[i + 1].low) <= AsInt(s[k].low);
        } else if i == k + 1 {
          assert ApartAt(s, k);
        } else if i > k {
          assert ApartAt(s, k) && AsInt(s[k + 1].low) <= AsInt(s[i].low);
        }
      }
      CountZero(s, x);
    }

    /** The conditions the check computes decide disjointness and completeness. */
    lemma SortedDecides(s: seq<Range>)
      requires Valid() && ValidRanges(s) && SortedByLow(s)
      ensures Separated(s) <==> Disjoint(s)
      ensures Separated(s) ==>
                ((s != [] && Tight(s) && s[0].low == Low() && s[|s| - 1].high == High()) <==> !LeavesGap(s))
    {
      HalfModulus();
      if Separated(s) {
        forall x ensures Count(s, x) <= 1 { SeparatedCounts(s, x); }
        if s == [] {
          assert InType(AsInt(Low())) && Count(s, AsInt(Low())) == 0;
        } else if s[0].low != Low() {
          PatternBounds(s[0].low);
          CountZero(s, AsInt(Low()));
          assert InType(AsInt(Low()));
        } else if s[|s| - 1].high != High() {
          PatternBounds(s[|s| - 1].high);
          GapAfter(s, |s| - 1);
          assert InType(AsInt(s[|s| - 1].high) + 1);
        } else if !Tight(s) {
          var i :| 0 <= i < |s| - 1 && !TouchAt(s, i);
          assert ApartAt(s, i);
          PatternBounds(s[i].high);
          PatternBounds(s[i + 1].low);
          GapAfter(s, i);
          assert InType(AsInt(s[i].high) + 1);
        } else {
          forall x | InType(x) ensures Count(s, x) >= 1 { TightCovers(s, x); }
        }
      } else {
        var i :| 0 <= i < |s| - 1 && !ApartAt(s, i);
        var x := AsInt(s[i + 1].low);
        assert ValidRange(s[i + 1]) && AsInt(s[i].low) <= x;
        PatternBounds(s[i + 1].low);
        CountTwo(s, x, i);
        assert InType(x);
      }
    }

    /** The check answers the same for the sorted ranges and the given ones. */
    lemma SortDecides(rs: seq<Range>)
      requires Valid() && ValidRanges(rs)
      ensures var s := SortByLow(rs);
              && ValidRanges(s) && SortedByLow(s)
              && (Disjoint(s) <==> Disjoint(rs)) && (LeavesGap(s) <==> LeavesGap(rs)) && (Partition(s) <==> Partition(rs))
    {
      forall x ensures Count(SortByLow(rs), x) == Count(rs, x) { SortKeeps(rs, x); }
      SortKeeps(rs, 0);
    }
  }

  /** Looks for overlaps and gaps between neighbours of the sorted ranges. */
  method ScanNeighbours(kind: IntType, all: seq<Range>) returns (overlap: bool, gaps: bool)
    requires kind.Valid() && kind.ValidRanges(all)
    ensures overlap <==> !kind.Separated(all)
    ensures !overlap ==> (gaps <==> !kind.Tight(all))
  {
    overlap, gaps := false, false;
    var i := 0;
    while i + 1 < |all|
      invariant 0 <= i && if all == [] then i == 0 else i < |all|
      invariant overlap <==> !forall k :: 0 <= k < i ==> kind.ApartAt(all, k)
      invariant !overlap ==> (gaps <==> !forall k :: 0 <= k < i ==> kind.TouchAt(all, k))
    {
      var current, next := all[i], all[i + 1];
      assert kind.ValidRange(current) && kind.ValidRange(next);
      assert kind.ApartAt(all, i) <==> kind.Less(current.high, next.low);
      if kind.Less(current.high, next.low) {
        kind.MinusIsDifference(next.low, current.high);
        if kind.Minus(next.low, current.high) - 1 != 0 {
          assert !kind.TouchAt(all, i);
          gaps := true;
        }
      } else {
        overlap := true;
      }
      i := i + 1;
    }
  }

  /** True if the ranges are accepted without an error. */
  method CheckRanges(kind: IntType, ranges: seq<Range>, hasDefault: bool) returns (ok: bool)
    requires kind.Valid() && kind.ValidRanges(ranges)
    ensures ok <==> kind.Accepted(ranges, hasDefault)
  {
    kind.SortDecides(ranges);
    var all := kind.SortByLow(ranges);
    kind.SortedDecides(all);
    var overlap, gaps := ScanNeighbours(kind, all);
    if all != [] {
      var first, last := all[0], all[|all| - 1];
      assert kind.ValidRange(first) && kind.ValidRange(last);
      kind.HalfModulus();
      if kind.Minus(first.low, kind.Low()) != 0 { gaps := true; }
      if kind.Minus(kind.High(), last.high) != 0 { gaps := true; }
    } else {
      gaps := true;
    }
    ok := !overlap && gaps == hasDefault;
  }
}
