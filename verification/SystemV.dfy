/**
 * Classification of composite types for the System V calling convention on
 * x86-64 (section 3.2.3 of the System V Application Binary Interface, AMD64
 * Architecture Processor Supplement).
 */
module SystemV {

  import opened Options
  import opened Numbers
  import opened TypedMemory

  datatype Class = NoClass | SSE | Integer

  /** Scalars are aligned to their own size, but to 8 bytes at most. */
  predicate Natural(t: Type) {
    match t
    case Int(bits, align) => (bits == 1 || bits == 8 || bits == 16 || bits == 32 || bits == 64 || bits == 128) && align == Least(StoreSize(bits), 8)
    case Float => true
    case Double => true
    case Pointer(bytes) => bytes == 8
    case Struct(fields) => forall f :: f in fields ==> Natural(f)
    case Array(element, _) => Natural(element)
  }

  function Least(a: nat, b: nat): nat {
    if a < b then a else b
  }

  predicate Power(a: nat) {
    a == 1 || a == 2 || a == 4 || a == 8
  }

  // ----- classes form a chain -----

  function Merge(dst: Class, src: Class): Class {
    if dst == src then dst
    else if src == NoClass then dst
    else if dst == NoClass then src
    else if src == Integer then Integer
    else if dst == Integer then dst
    else SSE
  }

  function Rank(c: Class): nat {
    match c
    case NoClass => 0
    case SSE => 1
    case Integer => 2
  }

  /** Merging takes the larger class, so the order of merging does not matter. */
  lemma MergeIsJoin(a: Class, b: Class, c: Class)
    ensures Rank(Merge(a, b)) == Max(Rank(a), Rank(b))
    ensures Merge(a, b) == Merge(b, a) && Merge(Merge(a, b), c) == Merge(a, Merge(b, c)) && Merge(a, a) == a
  {
  }

  // ----- scalars of a type, by the layout -----

  datatype Scalar = Scalar(offset: nat, bytes: nat, sse: bool)

  /** The type, at an offset, has this scalar in it. */
  ghost predicate Has(t: Type, o: nat, s: Scalar)
    decreases t, 1
  {
    match t
    case Int(bits, _) => s == Scalar(o, StoreSize(bits), false)
    case Pointer(bytes) => s == Scalar(o, bytes, false)
    case Float => s == Scalar(o, 4, true)
    case Double => s == Scalar(o, 8, true)
    case _ => exists i: nat :: PartHas(t, o, i, s)
  }

  /** The i-th field or element has it. */
  ghost predicate PartHas(t: Type, o: nat, i: nat, s: Scalar)
    decreases t, 0
  {
    match t
    case Struct(fields) => i < |fields| && Has(fields[i], o + Offset(fields, i), s)
    case Array(element, count) => i < count && Has(element, o + i * Size(element), s)
    case _ => false
  }

  /** Some byte of the scalar is in the eightbyte. */
  predicate Touches(s: Scalar, q: nat) {
    s.offset < 8 * q + 8 && 8 * q < s.offset + s.bytes
  }

  ghost predicate AnyIn(t: Type, o: nat, q: nat) {
    exists s :: Has(t, o, s) && Touches(s, q)
  }

  ghost predicate IntegerIn(t: Type, o: nat, q: nat) {
    exists s :: Has(t, o, s) && Touches(s, q) && !s.sse
  }

  function Pick(integer: bool, any: bool): Class {
    if integer then Integer else if any then SSE else NoClass
  }

  /** The largest class of all scalars in an eightbyte. */
  ghost function ClassOf(t: Type, o: nat, q: nat): Class {
    Pick(IntegerIn(t, o, q), AnyIn(t, o, q))
  }

  // ----- alignment -----

  predicate Aligned(n: nat, a: nat)
  {
    a > 0 && n % a == 0
  }

  lemma AlignUpIs(n: nat, a: nat)
    requires Power(a)
    ensures Aligned(AlignUp(n, a), a) && AlignUp(n, a) < n + a
  {
    var r := n % a;
    if r == 0 {
      DivUnique(a - r, 1, 0, a);
    } else {
      SmallMod(a - r, a);
      assert n + (a - r) == a * (n / a + 1);
      DivUnique(n + (a - r), n / a + 1, 0, a);
    }
  }

  lemma AlignUpLeast(n: nat, a: nat, k: nat)
    requires Power(a) && n <= k && Aligned(k, a)
    ensures AlignUp(n, a) <= k
  {
    hide AlignUp;
    AlignUpIsLeast(n, a, k);
  }

  lemma {:induction false} NaturalAlign(t: Type)
    requires Natural(t)
    ensures Power(Align(t))
    decreases t, 0
  {
    match t
    case Struct(fields) => FieldsNatural(fields);
    case Array(element, _) => NaturalAlign(element);
    case _ =>
  }

  lemma {:induction false} FieldsNatural(ts: seq<Type>)
    requires forall f :: f in ts ==> Natural(f)
    ensures Power(FieldsAlign(ts)) && forall i :: 0 <= i < |ts| ==> Align(ts[i]) <= FieldsAlign(ts)
    decreases ts, 1
  {
    if ts != [] {
      assert ts[0] in ts;
      NaturalAlign(ts[0]);
      assert forall f :: f in ts[1..] ==> f in ts;
      FieldsNatural(ts[1..]);
      assert forall i :: 1 <= i < |ts| ==> ts[i] == ts[1..][i - 1];
    }
  }

  lemma Multiples(a: nat, b: nat, n: nat)
    requires Power(a) && Power(b) && a <= b && Aligned(n, b)
    ensures Aligned(n, a)
  {
  }

  lemma SumAligned(x: nat, y: nat, a: nat)
    requires Power(a) && Aligned(x, a) && Aligned(y, a)
    ensures Aligned(x + y, a) && (y <= x ==> Aligned(x - y, a))
  {
    var i, j := x / a, y / a;
    assert x == a * i && y == a * j;
    MultipleAligned(i + j, a);
    assert x + y == a * (i + j);
    if y <= x {
      assert x - y == a * (i - j);
      MultipleAligned(i - j, a);
    }
  }

  lemma MultipleAligned(i: int, a: nat)
    requires Power(a)
    ensures (a * i) % a == 0
  {
    if a == 1 {
    } else if a == 2 {
      assert (2 * i) % 2 == 0;
    } else if a == 4 {
      assert (4 * i) % 4 == 0;
    } else {
      assert (8 * i) % 8 == 0;
    }
  }

  lemma ZeroAligned(a: nat)
    requires Power(a)
    ensures Aligned(0, a)
  {
  }

  lemma {:induction false} ProductAligned(i: nat, s: nat, a: nat)
    requires Power(a) && Aligned(s, a)
    ensures Aligned(i * s, a)
  {
    hide Aligned;
    if i == 0 {
      ZeroAligned(a);
      assert i * s == 0;
    } else {
      ProductAligned(i - 1, s, a);
      assert i * s == (i - 1) * s + s;
      SumAligned((i - 1) * s, s, a);
    }
  }

  lemma {:induction false} SizeAligned(t: Type)
    requires Natural(t)
    ensures Power(Align(t)) && Aligned(Size(t), Align(t))
  {
    hide Aligned, AlignUp;
    NaturalAlign(t);
    match t
    case Struct(fields) => AlignUpIs(FieldsEnd(fields), FieldsAlign(fields));
    case Array(element, count) =>
      SizeAligned(element);
      ProductAligned(count, Size(element), Align(element));
    case _ => ScalarAligned(t);
  }

  lemma ScalarAligned(t: Type)
    requires Natural(t) && !t.Struct? && !t.Array?
    ensures Aligned(Size(t), Align(t))
  {
    if t.Int? {
      var n := Size(t);
      assert n == 1 || n == 2 || n == 4 || n == 8 || n == 16;
      assert Align(t) == Least(n, 8);
    }
  }

  /** A field of an aligned struct is aligned. */
  lemma FieldAligned(t: Type, o: nat, i: nat)
    requires t.Struct? && Natural(t) && Aligned(o, Align(t)) && i < |t.fields|
    ensures Natural(t.fields[i]) && Power(Align(t.fields[i])) && Align(t.fields[i]) <= Align(t)
    ensures Aligned(o + Offset(t.fields, i), Align(t.fields[i]))
  {
    hide Aligned, AlignUp, FieldsEnd;
    var fs := t.fields;
    assert fs[i] in fs;
    FieldsNatural(fs);
    NaturalAlign(fs[i]);
    AlignUpIs(FieldsEnd(fs[..i]), Align(fs[i]));
    Multiples(Align(fs[i]), FieldsAlign(fs), o);
    SumAligned(o, Offset(fs, i), Align(fs[i]));
  }

  lemma ElementAligned(t: Type, o: nat, i: nat)
    requires t.Array? && Natural(t) && Aligned(o, Align(t))
    ensures Natural(t.element) && Aligned(o + i * Size(t.element), Align(t.element))
  {
    hide Aligned, Size;
    SizeAligned(t.element);
    ProductAligned(i, Size(t.element), Align(t.element));
    SumAligned(o, i * Size(t.element), Align(t.element));
  }

  // ----- where scalars are -----

  predicate ScalarSize(n: nat) {
    n == 1 || n == 2 || n == 4 || n == 8 || n == 16
  }

  /** Scalars lie inside the type, and are aligned. */
  lemma {:induction false} ScalarInside(t: Type, o: nat, s: Scalar)
    requires Natural(t) && Aligned(o, Align(t)) && Has(t, o, s)
    ensures o <= s.offset && s.offset + s.bytes <= o + Size(t) && ScalarSize(s.bytes)
    ensures s.offset % Least(s.bytes, 8) == 0 && (s.sse ==> s.bytes == 4 || s.bytes == 8)
    decreases t, 1
  {
    if t.Struct? {
      ScalarInField(t, o, s);
    } else if t.Array? {
      ScalarInElement(t, o, s);
    }
  }

  lemma {:induction false} ScalarInField(t: Type, o: nat, s: Scalar)
    requires t.Struct? && Natural(t) && Aligned(o, Align(t)) && Has(t, o, s)
    ensures o <= s.offset && s.offset + s.bytes <= o + Size(t) && ScalarSize(s.bytes)
    ensures s.offset % Least(s.bytes, 8) == 0 && (s.sse ==> s.bytes == 4 || s.bytes == 8)
    decreases t, 0
  {
    hide Aligned, AlignUp, FieldsEnd, Natural, Offset;
    var i: nat :| PartHas(t, o, i, s);
    FieldAligned(t, o, i);
    FieldsInside(t.fields, i);
    ScalarInside(t.fields[i], o + Offset(t.fields, i), s);
  }

  lemma {:induction false} ScalarInElement(t: Type, o: nat, s: Scalar)
    requires t.Array? && Natural(t) && Aligned(o, Align(t)) && Has(t, o, s)
    ensures o <= s.offset && s.offset + s.bytes <= o + Size(t) && ScalarSize(s.bytes)
    ensures s.offset % Least(s.bytes, 8) == 0 && (s.sse ==> s.bytes == 4 || s.bytes == 8)
    decreases t, 0
  {
    hide Aligned, Natural, Size;
    var i: nat :| PartHas(t, o, i, s);
    ElementAligned(t, o, i);
    ElementInside(t, i);
    ScalarInside(t.element, o + i * Size(t.element), s);
  }

  /** The field that covers a position. */
  lemma {:induction false} FieldAt(ts: seq<Type>, k: nat) returns (i: nat)
    requires k < FieldsEnd(ts)
    ensures i < |ts| && FieldsEnd(ts[..i]) <= k < Offset(ts, i) + Size(ts[i])
  {
    var n := |ts| - 1;
    if k < FieldsEnd(ts[..n]) {
      i := FieldAt(ts[..n], k);
      assert ts[..n][..i] == ts[..i];
    } else {
      i := n;
    }
  }

  predicate Meets(s: Scalar, from: nat, to: nat) {
    s.offset < to && from < s.offset + s.bytes
  }

  /** Every aligned piece of a type, as long as its alignment, has a scalar in it. */
  lemma {:induction false} Covered(t: Type, o: nat, k: nat) returns (s: Scalar)
    requires Natural(t) && Aligned(o, Align(t)) && Aligned(k, Align(t)) && o <= k < o + Size(t)
    ensures Has(t, o, s) && Meets(s, k, k + Align(t))
    decreases t, 1
  {
    NaturalAlign(t);
    match t
    case Struct(fields) => s := CoveredField(t, o, k);
    case Array(element, count) => s := CoveredElement(t, o, k);
    case Int(bits, _) => s := Scalar(o, StoreSize(bits), false);
    case Pointer(bytes) => s := Scalar(o, bytes, false);
    case Float => s := Scalar(o, 4, true);
    case Double => s := Scalar(o, 8, true);
  }

  lemma {:induction false} CoveredField(t: Type, o: nat, k: nat) returns (s: Scalar)
    requires t.Struct? && Natural(t) && Aligned(o, Align(t)) && Aligned(k, Align(t)) && o <= k < o + Size(t)
    ensures Has(t, o, s) && Meets(s, k, k + Align(t))
    decreases t, 0
  {
    var fs, a := t.fields, Align(t);
    NaturalAlign(t);
    hide Aligned, AlignUp, FieldsEnd, Natural;
    SumAligned(k, o, a);
    AlignUpIs(FieldsEnd(fs), a);
    if FieldsEnd(fs) <= k - o { AlignUpLeast(FieldsEnd(fs), a, k - o); }
    var i := FieldAt(fs, k - o);
    FieldAligned(t, o, i);
    Multiples(Align(fs[i]), a, k - o);
    Multiples(Align(fs[i]), a, k);
    AlignUpLeast(FieldsEnd(fs[..i]), Align(fs[i]), k - o);
    s := Covered(fs[i], o + Offset(fs, i), k);
    assert PartHas(t, o, i, s);
  }

  lemma {:induction false} CoveredElement(t: Type, o: nat, k: nat) returns (s: Scalar)
    requires t.Array? && Natural(t) && Aligned(o, Align(t)) && Aligned(k, Align(t)) && o <= k < o + Size(t)
    ensures Has(t, o, s) && Meets(s, k, k + Align(t))
    decreases t, 0
  {
    hide Aligned, Natural;
    var n := Size(t.element);
    var i := IndexOf(k - o, n, t.count);
    ElementAligned(t, o, i);
    s := Covered(t.element, o + i * n, k);
    assert PartHas(t, o, i, s);
  }

  lemma IndexOf(k: nat, n: nat, count: nat) returns (i: nat)
    requires k < count * n
    ensures i < count && i * n <= k < i * n + n
  {
    i := k / n;
    assert i * n <= k < i * n + n;
    assert i >= count ==> i * n >= count * n;
  }

  // ----- classification -----

  function Count(t: Type): nat {
    if t.Struct? then |t.fields| else if t.Array? then t.count else 0
  }

  /** The i-th field or element, and where it is. */
  function Piece(t: Type, i: nat): Type
    requires i < Count(t)
  {
    if t.Struct? then t.fields[i] else t.element
  }

  function PieceAt(t: Type, o: nat, i: nat): nat
    requires i < Count(t)
  {
    if t.Struct? then o + Offset(t.fields, i) else o + i * Size(t.element)
  }

  /** A type at a place where it may be classified. */
  predicate Placed(t: Type, o: nat) {
    Natural(t) && Aligned(o, Align(t)) && o + Size(t) <= 16
  }

  lemma PiecePlaced(t: Type, o: nat, i: nat)
    requires Placed(t, o) && i < Count(t)
    ensures Placed(Piece(t, i), PieceAt(t, o, i))
  {
    if t.Struct? {
      FieldAligned(t, o, i);
      FieldsInside(t.fields, i);
    } else {
      ElementAligned(t, o, i);
      ElementInside(t, i);
    }
  }

  /** A scalar at a place where it may be classified is inside its eightbyte, or fills both. */
  lemma ScalarPlaced(t: Type, o: nat)
    requires Placed(t, o) && !t.Struct? && !t.Array?
    ensures o / 8 < 2 && (t.Int? && t.bits > 64 ==> o == 0)
    ensures forall q: nat :: q < 2 ==> (AnyIn(t, o, q) <==> o / 8 == q || (t.Int? && t.bits > 64))
  {
    var s := if t.Int? then Scalar(o, StoreSize(t.bits), false) else if t.Pointer? then Scalar(o, t.bytes, false)
             else Scalar(o, if t.Float? then 4 else 8, true);
    assert Has(t, o, s);
    forall q: nat | q < 2 ensures AnyIn(t, o, q) <==> Touches(s, q) { }
  }

  function Classified(t: Type, cs: seq<Class>, o: nat): (r: seq<Class>)
    requires Placed(t, o) && |cs| == 2
    ensures |r| == 2
    decreases t, 1
  {
    if t.Struct? || t.Array? then PiecesClassified(t, cs, o, Count(t))
    else
      ScalarPlaced(t, o);
      var c := if t.Float? || t.Double? then SSE else Integer;
      var r := cs[o / 8 := Merge(cs[o / 8], c)];
      if t.Int? && t.bits > 64 then r[(o + 8) / 8 := Merge(r[(o + 8) / 8], Integer)] else r
  }

  function PiecesClassified(t: Type, cs: seq<Class>, o: nat, n: nat): (r: seq<Class>)
    requires Placed(t, o) && |cs| == 2 && n <= Count(t)
    ensures |r| == 2
    decreases t, 0, n
  {
    if n == 0 then cs
    else
      PiecePlaced(t, o, n - 1);
      Classified(Piece(t, n - 1), PiecesClassified(t, cs, o, n - 1), PieceAt(t, o, n - 1))
  }

  ghost predicate AnyFirst(t: Type, o: nat, q: nat, n: nat) {
    exists i: nat, s :: i < n && PartHas(t, o, i, s) && Touches(s, q)
  }

  ghost predicate IntegerFirst(t: Type, o: nat, q: nat, n: nat) {
    exists i: nat, s :: i < n && PartHas(t, o, i, s) && Touches(s, q) && !s.sse
  }

  lemma FirstNext(t: Type, o: nat, q: nat, n: nat)
    requires n < Count(t)
    ensures AnyFirst(t, o, q, n + 1) <==> AnyFirst(t, o, q, n) || AnyIn(Piece(t, n), PieceAt(t, o, n), q)
    ensures IntegerFirst(t, o, q, n + 1) <==> IntegerFirst(t, o, q, n) || IntegerIn(Piece(t, n), PieceAt(t, o, n), q)
  {
    forall s ensures PartHas(t, o, n, s) <==> Has(Piece(t, n), PieceAt(t, o, n), s) { }
    if i: nat, s :| i < n + 1 && PartHas(t, o, i, s) && Touches(s, q) { if i == n { assert Has(Piece(t, n), PieceAt(t, o, n), s); } }
    if i: nat, s :| i < n + 1 && PartHas(t, o, i, s) && Touches(s, q) && !s.sse { if i == n { assert Has(Piece(t, n), PieceAt(t, o, n), s); } }
    if s :| Has(Piece(t, n), PieceAt(t, o, n), s) && Touches(s, q) { assert PartHas(t, o, n, s); }
    if s :| Has(Piece(t, n), PieceAt(t, o, n), s) && Touches(s, q) && !s.sse { assert PartHas(t, o, n, s); }
  }

  lemma PartWith(t: Type, o: nat, s: Scalar) returns (i: nat)
    requires (t.Struct? || t.Array?) && Has(t, o, s)
    ensures i < Count(t) && PartHas(t, o, i, s)
  {
    if t.Struct? {
      i :| PartHas(t, o, i, s);
    } else {
      i :| PartHas(t, o, i, s);
    }
  }

  lemma FirstAll(t: Type, o: nat, q: nat)
    requires t.Struct? || t.Array?
    ensures AnyFirst(t, o, q, Count(t)) <==> AnyIn(t, o, q)
    ensures IntegerFirst(t, o, q, Count(t)) <==> IntegerIn(t, o, q)
  {
    if s :| Has(t, o, s) && Touches(s, q) { var i := PartWith(t, o, s); }
    if s :| Has(t, o, s) && Touches(s, q) && !s.sse { var i := PartWith(t, o, s); }
  }

  /** Each eightbyte gets the largest class of all scalars in it. */
  lemma {:induction false} ClassifiedIsJoin(t: Type, cs: seq<Class>, o: nat, q: nat)
    requires Placed(t, o) && |cs| == 2 && q < 2
    ensures Classified(t, cs, o)[q] == Merge(cs[q], ClassOf(t, o, q))
    decreases t, 1
  {
    if t.Struct? || t.Array? {
      PiecesAreJoin(t, cs, o, q, Count(t));
      FirstAll(t, o, q);
    } else {
      ScalarIsJoin(t, cs, o, q);
    }
  }

  lemma ScalarIsJoin(t: Type, cs: seq<Class>, o: nat, q: nat)
    requires Placed(t, o) && |cs| == 2 && q < 2 && !t.Struct? && !t.Array?
    ensures Classified(t, cs, o)[q] == Merge(cs[q], ClassOf(t, o, q))
  {
    ScalarPlaced(t, o);
    assert IntegerIn(t, o, q) <==> AnyIn(t, o, q) && (t.Int? || t.Pointer?);
  }

  lemma {:induction false} PiecesAreJoin(t: Type, cs: seq<Class>, o: nat, q: nat, n: nat)
    requires Placed(t, o) && |cs| == 2 && q < 2 && n <= Count(t)
    ensures PiecesClassified(t, cs, o, n)[q] == Merge(cs[q], Pick(IntegerFirst(t, o, q, n), AnyFirst(t, o, q, n)))
    decreases t, 0, n
  {
    if n > 0 {
      PiecePlaced(t, o, n - 1);
      PiecesAreJoin(t, cs, o, q, n - 1);
      ClassifiedIsJoin(Piece(t, n - 1), PiecesClassified(t, cs, o, n - 1), PieceAt(t, o, n - 1), q);
      FirstNext(t, o, q, n - 1);
    }
  }

  method MergeArgumentClasses(classes: array<Class>, q: nat, src: Class)
    requires q < classes.Length
    modifies classes
    ensures classes[..] == old(classes[..])[q := Merge(old(classes[q]), src)]
  {
    var dst := classes[q];
    if dst == src {
    } else if src == NoClass {
    } else if dst == NoClass {
      classes[q] := src;
    } else if src == Integer {
      classes[q] := Integer;
    } else if dst == Integer {
    } else {
      classes[q] := SSE;
    }
  }

  /** Classifies a type in place; both slots of the array are enough. */
  method ClassifyType(t: Type, classes: array<Class>, o: nat)
    requires Placed(t, o) && classes.Length == 2
    modifies classes
    ensures classes[..] == Classified(t, old(classes[..]), o)
    decreases t, 1
  {
    if t.Struct? || t.Array? {
      ClassifyPieces(t, classes, o);
    } else {
      ScalarPlaced(t, o);
      if t.Pointer? {
        MergeArgumentClasses(classes, o / 8, Integer);
      } else if t.Int? {
        MergeArgumentClasses(classes, o / 8, Integer);
        if t.bits > 64 { MergeArgumentClasses(classes, (o + 8) / 8, Integer); }
      } else {
        MergeArgumentClasses(classes, o / 8, SSE);
      }
    }
  }

  method ClassifyPieces(t: Type, classes: array<Class>, o: nat)
    requires (t.Struct? || t.Array?) && Placed(t, o) && classes.Length == 2
    modifies classes
    ensures classes[..] == Classified(t, old(classes[..]), o)
    decreases t, 0
  {
    hide Placed, Size, Offset;
    for i := 0 to Count(t)
      invariant classes[..] == PiecesClassified(t, old(classes[..]), o, i)
    {
      PiecePlaced(t, o, i);
      ClassifyType(Piece(t, i), classes, PieceAt(t, o, i));
    }
  }

  // ----- registers for composite types of 1 to 16 bytes -----

  datatype Register = IntegerBits(bits: nat) | FloatRegister | DoubleRegister
  {
    /** How many bytes of memory go into the register. */
    function Bytes(): nat {
      match this
      case IntegerBits(bits) => bits / 8
      case FloatRegister => 4
      case DoubleRegister => 8
    }
  }

  /** The register for one part; a part without a class has none. */
  function RegisterFor(c: Class, bytes: nat): Option<Register> {
    match c
    case Integer => Some(IntegerBits(bytes * 8))
    case SSE => Some(if bytes <= 4 then FloatRegister else DoubleRegister)
    case NoClass => None
  }

  function PartBytes(size: nat, q: nat): nat
    requires 8 * q < size
  {
    Least(8, size - 8 * q)
  }

  /** No part of a type is without a class. */
  lemma EveryPartHasClass(t: Type, q: nat)
    requires Placed(t, 0) && 8 * q < Size(t)
    ensures ClassOf(t, 0, q) != NoClass
  {
    NaturalAlign(t);
    Multiples8(Align(t), 8 * q);
    var s := Covered(t, 0, 8 * q);
    assert Has(t, 0, s) && Touches(s, q);
  }

  lemma Multiples8(a: nat, n: nat)
    requires Power(a) && n % 8 == 0
    ensures Aligned(n, a)
  {
    Multiples(a, 8, n);
  }

  /** A part of class SSE is made of floats, so it is 4 or 8 bytes long. */
  lemma SSEPartSize(t: Type, q: nat)
    requires Placed(t, 0) && 8 * q < Size(t) && ClassOf(t, 0, q) == SSE
    ensures PartBytes(Size(t), q) == 4 || PartBytes(Size(t), q) == 8
  {
    var s :| Has(t, 0, s) && Touches(s, q);
    assert s.sse;
    ScalarInside(t, 0, s);
    AlignOfScalar(t, 0, s);
    SizeAligned(t);
    Multiples(4, Align(t), Size(t));
  }

  /** A type is aligned at least as strictly as each of its scalars. */
  lemma {:induction false} AlignOfScalar(t: Type, o: nat, s: Scalar)
    requires Natural(t) && Has(t, o, s)
    ensures Power(Align(t)) && Align(t) >= Least(s.bytes, 8)
    decreases t
  {
    NaturalAlign(t);
    if t.Struct? || t.Array? {
      var i := PartWith(t, o, s);
      if t.Struct? {
        assert t.fields[i] in t.fields;
        FieldsNatural(t.fields);
        AlignOfScalar(t.fields[i], o + Offset(t.fields, i), s);
      } else {
        AlignOfScalar(t.element, o + i * Size(t.element), s);
      }
    }
  }

  /** Registers for all parts, or nothing if some part has no class. */
  function Registers(t: Type): Option<seq<Register>>
    requires Placed(t, 0) && Size(t) > 0
  {
    var cs := Classified(t, [NoClass, NoClass], 0);
    var r0 := RegisterFor(cs[0], PartBytes(Size(t), 0));
    if Size(t) <= 8 then
      if r0.None? then None else Some([r0.value])
    else
      var r1 := RegisterFor(cs[1], PartBytes(Size(t), 1));
      if r0.None? || r1.None? then None else Some([r0.value, r1.value])
  }

  /** The registers take exactly the bytes of the type, eight by eight, each in the kind its scalars call for. */
  lemma RegistersTile(t: Type)
    requires Placed(t, 0) && Size(t) > 0
    ensures Registers(t).Some?
    ensures var rs := Registers(t).value;
            && |rs| == (if Size(t) <= 8 then 1 else 2)
            && forall q :: 0 <= q < |rs| ==>
                 8 * q < Size(t) && rs[q].Bytes() == PartBytes(Size(t), q) && (rs[q].IntegerBits? <==> IntegerIn(t, 0, q))
  {
    PartTiles(t, 0);
    if Size(t) > 8 { PartTiles(t, 1); }
  }

  lemma PartTiles(t: Type, q: nat)
    requires Placed(t, 0) && 8 * q < Size(t) && q < 2
    ensures var r := RegisterFor(Classified(t, [NoClass, NoClass], 0)[q], PartBytes(Size(t), q));
            r.Some? && r.value.Bytes() == PartBytes(Size(t), q) && (r.value.IntegerBits? <==> IntegerIn(t, 0, q))
  {
    EveryPartHasClass(t, q);
    ClassifiedIsJoin(t, [NoClass, NoClass], 0, q);
    if ClassOf(t, 0, q) == SSE { SSEPartSize(t, q); }
  }

  // ----- counting registers of a call -----

  /** Characters, bytes and booleans are unsigned integers. */
  datatype Param =
    | Reference
    | VoidParam
    | IntegerParam(signed: bool, bits: nat)
    | EnumParam(bits: nat)
    | FloatParam(double: bool)
    | PointerParam
    | Composite(t: Type)

  function IntegerType(bits: nat): Type {
    Int(bits, Least(StoreSize(bits), 8))
  }

  /** What is passed, as a type in memory. */
  function TypeOf(p: Param): Option<Type> {
    match p
    case Reference => Some(Pointer(8))
    case VoidParam => None
    case IntegerParam(_, bits) => Some(IntegerType(bits))
    case EnumParam(bits) => Some(IntegerType(bits))
    case FloatParam(double) => Some(if double then Double else Float)
    case PointerParam => Some(Pointer(8))
    case Composite(t) => Some(t)
  }

  /** How a value that is narrower than its register is widened. */
  datatype Extension = NotExtended | SignExtended | ZeroExtended

  datatype Passing = Direct(ext: Extension) | InRegisters(rs: seq<Register>, ext: Extension) | InStack

  datatype Use = Use(ints: nat, floats: nat)

  predicate ParamOk(p: Param) {
    TypeOf(p).Some? ==> Natural(TypeOf(p).value)
  }

  predicate InParts(p: Param) {
    p.Composite? && 0 < Size(p.t) <= 16
  }

  lemma PartsPlaced(p: Param)
    requires ParamOk(p) && InParts(p)
    ensures Placed(p.t, 0) && Registers(p.t).Some?
  {
    NaturalAlign(p.t);
    ZeroAligned(Align(p.t));
    RegistersTile(p.t);
  }

  lemma FirstRegister(t: Type)
    requires Placed(t, 0) && Size(t) > 0
    ensures Registers(t).Some? && Registers(t).value != []
    ensures (Registers(t).value[0].IntegerBits? <==> IntegerIn(t, 0, 0))
  {
    RegistersTile(t);
  }

  function CountIntegers(rs: seq<Register>): nat {
    if rs == [] then 0 else (if rs[0].IntegerBits? then 1 else 0) + CountIntegers(rs[1..])
  }

  /** The registers an argument takes if it is passed in registers, as the source counts them. */
  function Need(p: Param): Use
    requires ParamOk(p)
  {
    match p
    case Reference => Use(1, 0)
    case VoidParam => Use(0, 0)
    case IntegerParam(_, bits) => Use(if bits > 64 then 2 else 1, 0)
    case EnumParam(bits) => Use(if bits > 64 then 2 else 1, 0)
    case FloatParam(_) => Use(0, 1)
    case PointerParam => Use(1, 0)
    case Composite(t) =>
      if InParts(p) then
        PartsPlaced(p);
        var rs := Registers(t).value;
        assert CountIntegers(rs) <= |rs| by { CountBound(rs); }
        Use(CountIntegers(rs), |rs| - CountIntegers(rs))
      else Use(0, 0)
  }

  // ----- the same by the scalars of the type -----

  /** Eightbytes of the type with an integer or a pointer in them. */
  ghost function IntegerEightbytes(t: Type): set<nat> {
    set q: nat | q < 2 && IntegerIn(t, 0, q)
  }

  /** Eightbytes with nothing but floating-point scalars in them. */
  ghost function FloatEightbytes(t: Type): set<nat> {
    set q: nat | q < 2 && AnyIn(t, 0, q) && !IntegerIn(t, 0, q)
  }

  /** A register for each eightbyte of what is passed, of the kind its scalars call for. */
  ghost function Takes(p: Param): Use {
    var t := TypeOf(p);
    if t.None? || Size(t.value) > 16 then Use(0, 0) else Use(|IntegerEightbytes(t.value)|, |FloatEightbytes(t.value)|)
  }

  lemma NothingBehind(t: Type, q: nat)
    requires Natural(t) && 8 * q >= Size(t)
    ensures !AnyIn(t, 0, q) && !IntegerIn(t, 0, q)
  {
    NaturalAlign(t);
    ZeroAligned(Align(t));
    forall s | Has(t, 0, s) ensures !Touches(s, q) { ScalarInside(t, 0, s); }
  }

  /** Which of the two eightbytes are of a kind. */
  lemma CountTwo(s: set<nat>)
    requires forall q :: q in s ==> q < 2
    ensures |s| == (if 0 in s then 1 else 0) + (if 1 in s then 1 else 0)
  {
    var t := (if 0 in s then {0} else {}) + (if 1 in s then {1} else {});
    assert s == t;
  }

  lemma ScalarHas(p: Param, s: Scalar)
    requires ParamOk(p) && !p.Composite? && !p.VoidParam?
    ensures Has(TypeOf(p).value, 0, s) <==> s == Scalar(0, Size(TypeOf(p).value), p.FloatParam?)
  {
    if p.IntegerParam? || p.EnumParam? { IntegerSize(p.bits); }
  }

  lemma IntegerSize(bits: nat)
    requires Natural(IntegerType(bits))
    ensures Size(IntegerType(bits)) == StoreSize(bits)
  {
    var n := StoreSize(bits);
    assert n == 1 || n == 2 || n == 4 || n == 8 || n == 16;
  }

  lemma ScalarTakes(p: Param)
    requires ParamOk(p) && !p.Composite? && !p.VoidParam?
    ensures Need(p) == Takes(p)
  {
    var t := TypeOf(p).value;
    var s := Scalar(0, Size(t), p.FloatParam?);
    ScalarHas(p, s);
    forall q: nat ensures AnyIn(t, 0, q) <==> 8 * q < Size(t)
      ensures IntegerIn(t, 0, q) <==> 8 * q < Size(t) && !p.FloatParam?
    {
      forall s' | Has(t, 0, s') ensures s' == s { ScalarHas(p, s'); }
      assert Has(t, 0, s) && (Touches(s, q) <==> 8 * q < Size(t));
    }
    hide Has, AnyIn, IntegerIn, IntegerEightbytes, FloatEightbytes;
    CountKinds(t);
  }

  lemma CountRegisters(rs: seq<Register>)
    ensures |rs| == 1 ==> CountIntegers(rs) == if rs[0].IntegerBits? then 1 else 0
    ensures |rs| == 2 ==> CountIntegers(rs) == (if rs[0].IntegerBits? then 1 else 0) + (if rs[1].IntegerBits? then 1 else 0)
  {
    if |rs| == 1 { assert rs[1..] == []; }
    if |rs| == 2 { assert rs[1..] == [rs[1]] && rs[1..][1..] == []; }
  }

  /** How many of the two eightbytes are of each kind. */
  lemma CountKinds(t: Type)
    ensures |IntegerEightbytes(t)| == (if IntegerIn(t, 0, 0) then 1 else 0) + (if IntegerIn(t, 0, 1) then 1 else 0)
    ensures |FloatEightbytes(t)| ==
            (if AnyIn(t, 0, 0) && !IntegerIn(t, 0, 0) then 1 else 0) + (if AnyIn(t, 0, 1) && !IntegerIn(t, 0, 1) then 1 else 0)
  {
    hide IntegerIn, AnyIn;
    CountTwo(IntegerEightbytes(t));
    CountTwo(FloatEightbytes(t));
  }

  lemma CompositeTakes(p: Param)
    requires ParamOk(p) && p.Composite?
    ensures Need(p) == Takes(p)
  {
    hide IntegerIn, AnyIn, Registers, Natural, IntegerEightbytes, FloatEightbytes, CountIntegers, Size;
    var t := p.t;
    CountKinds(t);
    if Size(t) == 0 { NothingBehind(t, 0); }
    if Size(t) <= 8 { NothingBehind(t, 1); }
    if InParts(p) {
      PartsPlaced(p);
      RegistersTile(t);
      CountRegisters(Registers(t).value);
      PartHasAny(t, 0);
      if Size(t) > 8 { PartHasAny(t, 1); }
    }
  }

  lemma PartHasAny(t: Type, q: nat)
    requires Placed(t, 0) && 8 * q < Size(t)
    ensures AnyIn(t, 0, q)
  {
    EveryPartHasClass(t, q);
  }

  /** The source's count of registers is the count of eightbytes, for scalars and composites alike. */
  lemma NeedIsTakes(p: Param)
    requires ParamOk(p)
    ensures Need(p) == Takes(p)
  {
    if p.Composite? { CompositeTakes(p); } else if !p.VoidParam? { ScalarTakes(p); }
  }

  lemma {:induction false} CountBound(rs: seq<Register>)
    ensures CountIntegers(rs) <= |rs|
  {
    if rs != [] { CountBound(rs[1..]); }
  }

  function Sum(us: seq<Use>): Use {
    if us == [] then Use(0, 0)
    else
      var rest := Sum(us[..|us| - 1]);
      Use(rest.ints + us[|us| - 1].ints, rest.floats + us[|us| - 1].floats)
  }

  /** After these arguments there is still room for one more. */
  predicate Fits(byPointer: bool, before: seq<Use>, need: Use) {
    var used := Sum(before);
    (if byPointer then 1 else 0) + used.ints + need.ints <= 6 && used.floats + need.floats <= 8
  }

  /** Each argument takes all the registers it needs if there are enough, and none otherwise. */
  ghost predicate AllOrNothing(byPointer: bool, params: seq<Param>, uses: seq<Use>)
    requires |uses| <= |params|
  {
    forall i :: 0 <= i < |uses| ==>
      uses[i] == if Fits(byPointer, uses[..i], Takes(params[i])) then Takes(params[i]) else Use(0, 0)
  }

  /** Composites that fit one register are passed as that register; those of two parts only if both get one. */
  ghost predicate PassedRight(byPointer: bool, p: Param, before: seq<Use>, passing: Passing)
    requires ParamOk(p)
  {
    if p.Composite? && Size(p.t) > 16 then passing == InStack
    else if !InParts(p) then passing == Direct(ScalarExtension(p))
    else
      PartsPlaced(p);
      if Size(p.t) <= 8 || Fits(byPointer, before, Takes(p)) then
        passing == InRegisters(Registers(p.t).value, if Size(p.t) <= 8 && IntegerIn(p.t, 0, 0) then ZeroExtended else NotExtended)
      else passing == InStack
  }

  /** Integers keep their value in a wider register; enums are unsigned. */
  function ScalarExtension(p: Param): Extension {
    match p
    case IntegerParam(signed, _) => if signed then SignExtended else ZeroExtended
    case EnumParam(_) => ZeroExtended
    case _ => NotExtended
  }

  // ----- widening keeps the value -----

  /** Bits read as a signed number. */
  function Signed(v: nat, bits: nat): int
    requires bits > 0
  {
    if v >= Pow2(bits - 1) then v - Pow2(bits) else v
  }

  /** A register of 64 bits may hold this after a narrower value was put into it. */
  ghost predicate Widens(ext: Extension, v: nat, bits: nat, x: nat)
    requires 0 < bits
  {
    match ext
    case NotExtended => x < Pow2(64) && x % Pow2(bits) == v
    case ZeroExtended => x == v
    case SignExtended => x == if v >= Pow2(bits - 1) then v + Pow2(64) - Pow2(bits) else v
  }

  /** The whole register, read as signed or unsigned, is what was passed. */
  ghost predicate ReadsBack(ext: Extension, signed: bool, bits: nat)
    requires 0 < bits
  {
    forall v: nat, x: nat :: v < Pow2(bits) && Widens(ext, v, bits, x) ==> if signed then Signed(x, 64) == Signed(v, bits) else x == v
  }

  /** A narrow integer is extended in the only way that keeps its value. */
  lemma ExtensionKeepsValue(p: Param, ext: Extension)
    requires ParamOk(p) && (p.IntegerParam? || p.EnumParam?) && p.bits < 64
    ensures ReadsBack(ext, p.IntegerParam? && p.signed, p.bits) <==> ext == ScalarExtension(p)
  {
    hide ReadsBack;
    var signed, bits := p.IntegerParam? && p.signed, p.bits;
    Widths(bits);
    match ext
    case NotExtended => JunkShows(signed, bits);
    case ZeroExtended => if signed { ZerosShow(bits); } else { ZerosKeep(bits); }
    case SignExtended => if signed { SignsKeep(bits); } else { SignsShow(bits); }
  }

  lemma Widths(bits: nat)
    requires 0 < bits <= 32
    ensures Pow2(bits) == 2 * Pow2(bits - 1) && Pow2(64) == 2 * Pow2(63) && 2 * Pow2(bits) <= Pow2(63)
  {
    hide Pow2;
    Pow2Next(bits - 1);
    Pow2Next(32);
    Pow2Next(63);
    Pow2Grows(bits, 32);
    Pow2Grows(33, 63);
  }

  lemma JunkShows(signed: bool, bits: nat)
    requires 0 < bits && Pow2(bits) == 2 * Pow2(bits - 1) && Pow2(64) == 2 * Pow2(63) && 2 * Pow2(bits) <= Pow2(63)
    ensures !ReadsBack(NotExtended, signed, bits)
  {
    hide Pow2;
    var full := Pow2(bits);
    ModAdd(1, 0, full);
    assert full * 1 + 0 == full && 0 % full == 0;
    assert Widens(NotExtended, 0, bits, full) && Signed(0, bits) == 0 && Signed(full, 64) == full;
  }

  lemma ZerosKeep(bits: nat)
    requires 0 < bits
    ensures ReadsBack(ZeroExtended, false, bits)
  {
  }

  lemma ZerosShow(bits: nat)
    requires 0 < bits && Pow2(bits) == 2 * Pow2(bits - 1) && Pow2(64) == 2 * Pow2(63) && 2 * Pow2(bits) <= Pow2(63)
    ensures !ReadsBack(ZeroExtended, true, bits)
  {
    hide Pow2;
    var half := Pow2(bits - 1);
    assert Widens(ZeroExtended, half, bits, half) && Signed(half, 64) == half && Signed(half, bits) < 0;
  }

  lemma SignsKeep(bits: nat)
    requires 0 < bits && Pow2(bits) == 2 * Pow2(bits - 1) && Pow2(64) == 2 * Pow2(63) && 2 * Pow2(bits) <= Pow2(63)
    ensures ReadsBack(SignExtended, true, bits)
  {
    hide Pow2;
  }

  lemma SignsShow(bits: nat)
    requires 0 < bits && Pow2(bits) == 2 * Pow2(bits - 1) && Pow2(64) == 2 * Pow2(63) && 2 * Pow2(bits) <= Pow2(63)
    ensures !ReadsBack(SignExtended, false, bits)
  {
    hide Pow2;
    var half, x := Pow2(bits - 1), Pow2(bits - 1) + Pow2(64) - Pow2(bits);
    assert Widens(SignExtended, half, bits, x) && x != half;
  }

  // ----- the whole call -----

  /** Floating-point arguments leave the integer registers alone, integers and pointers the others. */
  lemma KindsAreApart(byPointer: bool, params: seq<Param>, uses: seq<Use>, i: nat)
    requires |uses| == |params| && AllOrNothing(byPointer, params, uses) && i < |params|
    ensures params[i].FloatParam? ==> uses[i].ints == 0
    ensures params[i].IntegerParam? || params[i].EnumParam? || params[i].PointerParam? || params[i].Reference? ==> uses[i].floats == 0
    ensures uses[i].ints > 0 ==> TypeOf(params[i]).Some? && exists q :: IntegerIn(TypeOf(params[i]).value, 0, q)
    ensures uses[i].floats > 0 ==>
      TypeOf(params[i]).Some? && exists q :: AnyIn(TypeOf(params[i]).value, 0, q) && !IntegerIn(TypeOf(params[i]).value, 0, q)
  {
    var p := params[i];
    if TypeOf(p).Some? {
      var t := TypeOf(p).value;
      if uses[i].ints > 0 {
        var q :| q in IntegerEightbytes(t);
        assert IntegerIn(t, 0, q);
      }
      if uses[i].floats > 0 {
        var q :| q in FloatEightbytes(t);
        assert AnyIn(t, 0, q) && !IntegerIn(t, 0, q);
      }
    }
  }

  lemma SumNext(us: seq<Use>, u: Use)
    ensures Sum(us + [u]) == Use(Sum(us).ints + u.ints, Sum(us).floats + u.floats)
  {
    assert (us + [u])[..|us|] == us;
  }

  method CalculateFunctionCallInfo(byPointer: bool, params: seq<Param>) returns (passings: seq<Passing>, uses: seq<Use>)
    requires forall p :: p in params ==> ParamOk(p)
    ensures |passings| == |uses| == |params|
    ensures AllOrNothing(byPointer, params, uses)
    ensures (if byPointer then 1 else 0) + Sum(uses).ints <= 6 && Sum(uses).floats <= 8
    ensures forall i :: 0 <= i < |params| ==> PassedRight(byPointer, params[i], uses[..i], passings[i])
  {
    var intsLeft, floatsLeft := if byPointer then 5 else 6, 8;
    passings, uses := [], [];
    for i := 0 to |params|
      invariant |passings| == |uses| == i && 0 <= intsLeft && 0 <= floatsLeft
      invariant intsLeft == 6 - (if byPointer then 1 else 0) - Sum(uses).ints && floatsLeft == 8 - Sum(uses).floats
      invariant AllOrNothing(byPointer, params, uses)
      invariant forall k :: 0 <= k < i ==> PassedRight(byPointer, params[k], uses[..k], passings[k])
    {
      var p := params[i];
      assert p in params;
      var passing, newInts, newFloats := PassArgument(p, intsLeft, floatsLeft, byPointer, uses);
      var use := Use(intsLeft - newInts, floatsLeft - newFloats);
      SumNext(uses, use);
      assert forall k :: 0 <= k < i ==> (uses + [use])[..k] == uses[..k];
      assert (uses + [use])[..i] == uses;
      intsLeft, floatsLeft := newInts, newFloats;
      passings, uses := passings + [passing], uses + [use];
    }
  }

  method PassArgument(p: Param, intsLeft: nat, floatsLeft: nat, ghost byPointer: bool, ghost uses: seq<Use>)
    returns (passing: Passing, ints: nat, floats: nat)
    requires ParamOk(p)
    requires intsLeft == 6 - (if byPointer then 1 else 0) - Sum(uses).ints && floatsLeft == 8 - Sum(uses).floats
    ensures ints <= intsLeft && floats <= floatsLeft
    ensures Use(intsLeft - ints, floatsLeft - floats) == if Fits(byPointer, uses, Takes(p)) then Takes(p) else Use(0, 0)
    ensures PassedRight(byPointer, p, uses, passing)
  {
    NeedIsTakes(p);
    hide Registers, Natural, Size, Takes;
    passing, ints, floats := Direct(NotExtended), intsLeft, floatsLeft;
    match p
    case VoidParam =>
    case Reference => if ints > 0 { ints := ints - 1; }
    case IntegerParam(signed, bits) =>
      passing := Direct(if signed then SignExtended else ZeroExtended);
      if bits > 64 {
        if ints >= 2 { ints := ints - 2; }
      } else if ints > 0 {
        ints := ints - 1;
      }
    case EnumParam(bits) =>
      passing := Direct(ZeroExtended);
      if bits > 64 {
        if ints >= 2 { ints := ints - 2; }
      } else if ints > 0 {
        ints := ints - 1;
      }
    case PointerParam => if ints > 0 { ints := ints - 1; }
    case FloatParam(_) => if floats > 0 { floats := floats - 1; }
    case Composite(t) =>
      if Size(t) > 16 {
        passing := InStack;
      } else if Size(t) > 0 {
        PartsPlaced(p);
        var rs := Registers(t).value;
        CountBound(rs);
        var needInts := CountIntegers(rs);
        var needFloats := |rs| - needInts;
        var enough := needInts <= ints && needFloats <= floats;
        FirstRegister(t);
        if Size(t) <= 8 {
          passing := InRegisters(rs, if rs[0].IntegerBits? then ZeroExtended else NotExtended);
        } else if enough {
          passing := InRegisters(rs, NotExtended);
        } else {
          passing := InStack;
        }
        if enough { ints, floats := ints - needInts, floats - needFloats; }
      }
  }
}
