/**
 * Typed loads and stores of the interpreter over a flat sequence of bytes.
 */
module TypedMemory {

  import opened Numbers

  type Byte = x: int | 0 <= x < 256

  /** First-class types, with the alignment that the data layout gives to scalars. */
  datatype Type =
    | Int(bits: nat, align: nat)
    | Float
    | Double
    | Pointer(bytes: nat)
    | Struct(fields: seq<Type>)
    | Array(element: Type, count: nat)
  {
    /** Integers the interpreter can store, and alignments that make sense. */
    predicate Valid() {
      match this
      case Int(bits, align) => bits > 0 && align > 0 && (bits <= 64 || (bits % 64 == 0 && bits <= 256))
      case Pointer(bytes) => 0 < bytes <= 8
      case Struct(fields) => forall f :: f in fields ==> f.Valid()
      case Array(element, _) => element.Valid()
      case _ => true
    }
  }

  datatype Value = IntVal(n: nat) | Payload(bytes: seq<Byte>) | Aggregate(parts: seq<Value>)

  // ----- layout -----

  function AlignUp(n: nat, a: nat): (r: nat)
    ensures r >= n
  {
    if a == 0 then n else n + (a - n % a) % a
  }

  function Max(a: nat, b: nat): nat {
    if a < b then b else a
  }

  function Align(t: Type): (a: nat)
    ensures a > 0
  {
    match t
    case Int(_, align) => Max(align, 1)
    case Float => 4
    case Double => 8
    case Pointer(bytes) => Max(bytes, 1)
    case Struct(fields) => FieldsAlign(fields)
    case Array(element, _) => Align(element)
  }

  function FieldsAlign(ts: seq<Type>): (a: nat)
    ensures a > 0
  {
    if ts == [] then 1 else Max(Align(ts[0]), FieldsAlign(ts[1..]))
  }

  /** The bytes that an integer occupies in memory. */
  function StoreSize(bits: nat): nat {
    (bits + 7) / 8
  }

  /** The distance between two elements of an array of this type. */
  function Size(t: Type): nat {
    match t
    case Int(bits, align) => AlignUp(StoreSize(bits), Max(align, 1))
    case Float => 4
    case Double => 8
    case Pointer(bytes) => bytes
    case Struct(fields) => AlignUp(FieldsEnd(fields), FieldsAlign(fields))
    case Array(element, count) => count * Size(element)
  }

  /** The end of the last field. */
  function FieldsEnd(ts: seq<Type>): nat {
    if ts == [] then 0
    else
      var n := |ts| - 1;
      AlignUp(FieldsEnd(ts[..n]), Align(ts[n])) + Size(ts[n])
  }

  function Offset(ts: seq<Type>, i: nat): nat
    requires i < |ts|
  {
    AlignUp(FieldsEnd(ts[..i]), Align(ts[i]))
  }

  /** Rounding up gives the least multiple that is not smaller. */
  lemma AlignUpIsLeast(n: nat, a: nat, k: nat)
    requires a > 0
    ensures AlignUp(n, a) % a == 0 && AlignUp(n, a) >= n && (k >= n && k % a == 0 ==> AlignUp(n, a) <= k)
  {
    var q, r := n / a, n % a;
    assert n == a * q + r;
    if r == 0 {
      ModAdd(1, 0, a);
      SmallMod(0, a);
      assert (a - r) % a == 0;
      assert AlignUp(n, a) == n;
    } else {
      SmallMod(a - r, a);
      assert AlignUp(n, a) == n + (a - r) == a * (q + 1);
      ModAdd(q + 1, 0, a);
      SmallMod(0, a);
      if k >= n && k % a == 0 {
        var j := k / a;
        assert k == a * j;
        if j <= q {
          MulGrows(j, q, a);
          assert false;
        } else {
          MulGrows(q + 1, j, a);
        }
      }
    }
  }

  /** A field begins at the first place after the field before it that its alignment allows. */
  lemma FieldsAreTight(ts: seq<Type>, i: nat, k: nat)
    requires i < |ts|
    ensures Offset(ts, i) % Align(ts[i]) == 0
    ensures Offset(ts, i) >= if i == 0 then 0 else Offset(ts, i - 1) + Size(ts[i - 1])
    ensures (k >= if i == 0 then 0 else Offset(ts, i - 1) + Size(ts[i - 1])) && k % Align(ts[i]) == 0 ==> Offset(ts, i) <= k
  {
    hide AlignUp, Align, Size;
    AlignUpIsLeast(FieldsEnd(ts[..i]), Align(ts[i]), k);
    if i > 0 { assert ts[..i][..i - 1] == ts[..i - 1] && ts[..i][i - 1] == ts[i - 1]; }
  }

  /** A struct ends at the first place after its last field at which another one could begin. */
  lemma StructsAreTight(t: Type, k: nat)
    requires t.Struct? && t.fields != []
    ensures var n := |t.fields| - 1;
            && Size(t) % Align(t) == 0 && Size(t) >= Offset(t.fields, n) + Size(t.fields[n])
            && (k >= Offset(t.fields, n) + Size(t.fields[n]) && k % Align(t) == 0 ==> Size(t) <= k)
  {
    hide AlignUp;
    AlignUpIsLeast(FieldsEnd(t.fields), FieldsAlign(t.fields), k);
  }

  /** A struct is aligned as strictly as the strictest of its fields. */
  lemma {:induction false} StrictestField(ts: seq<Type>)
    ensures forall i :: 0 <= i < |ts| ==> Align(ts[i]) <= FieldsAlign(ts)
    ensures ts != [] ==> exists i :: 0 <= i < |ts| && Align(ts[i]) == FieldsAlign(ts)
  {
    hide Align;
    if ts != [] {
      StrictestField(ts[1..]);
      assert forall i :: 1 <= i < |ts| ==> ts[i] == ts[1..][i - 1];
      if Align(ts[0]) < FieldsAlign(ts[1..]) {
        assert ts[1..] != [];
        var i :| 0 <= i < |ts[1..]| && Align(ts[1..][i]) == FieldsAlign(ts[1..]);
        assert Align(ts[i + 1]) == FieldsAlign(ts);
      } else {
        assert Align(ts[0]) == FieldsAlign(ts);
      }
    }
  }

  /** Fields do not overlap: each ends before the next begins, and the last one inside the struct. */
  lemma {:induction false} FieldsInside(ts: seq<Type>, i: nat)
    requires i < |ts|
    ensures Offset(ts, i) + Size(ts[i]) <= FieldsEnd(ts)
    ensures FieldsEnd(ts[..i]) <= Offset(ts, i)
  {
    var n := |ts| - 1;
    if i < n {
      FieldsInside(ts[..n], i);
      assert ts[..n][..i] == ts[..i];
    } else {
      assert ts[..n] == ts[..i];
    }
  }

  lemma FieldsApart(ts: seq<Type>, i: nat, j: nat)
    requires i < j < |ts|
    ensures Offset(ts, i) + Size(ts[i]) <= Offset(ts, j)
  {
    FieldsInside(ts[..j], i);
    assert ts[..j][..i] == ts[..i];
    FieldsInside(ts, j);
  }

  // ----- integers as bytes, lowest first -----

  function ToBytes(v: nat, n: nat): (bs: seq<Byte>)
    ensures |bs| == n
  {
    if n == 0 then [] else [v % 256] + ToBytes(v / 256, n - 1)
  }

  function FromBytes(bs: seq<Byte>): nat {
    if bs == [] then 0 else bs[0] + 256 * FromBytes(bs[1..])
  }

  lemma {:induction false} BytesRoundTrip(v: nat, n: nat)
    requires v < Pow2(8 * n)
    ensures FromBytes(ToBytes(v, n)) == v
  {
    if n > 0 {
      assert Pow2(8 * n) == 256 * Pow2(8 * (n - 1)) by { Pow2Bytes(8 * (n - 1)); }
      BytesRoundTrip(v / 256, n - 1);
      assert ToBytes(v, n)[1..] == ToBytes(v / 256, n - 1);
    }
  }

  lemma {:induction false} BytesBelow(bs: seq<Byte>)
    ensures FromBytes(bs) < Pow2(8 * |bs|)
  {
    if bs != [] {
      BytesBelow(bs[1..]);
      Pow2Bytes(8 * (|bs| - 1));
    }
  }

  lemma {:induction false} BytesBack(bs: seq<Byte>)
    ensures ToBytes(FromBytes(bs), |bs|) == bs
  {
    if bs != [] {
      BytesBack(bs[1..]);
      var n := FromBytes(bs[1..]);
      assert FromBytes(bs) == bs[0] + 256 * n;
      assert FromBytes(bs) % 256 == bs[0] && FromBytes(bs) / 256 == n;
    }
  }

  /** Byte i is the i-th digit of the number in base 256. */
  lemma {:induction false} ByteIsDigit(v: nat, n: nat, i: nat)
    requires i < n
    ensures ToBytes(v, n)[i] == v / Pow2(8 * i) % 256
  {
    if i == 0 {
      assert Pow2(0) == 1;
    } else {
      ByteIsDigit(v / 256, n - 1, i - 1);
      Pow2Bytes(8 * (i - 1));
      DivTwice(v, 256, Pow2(8 * (i - 1)));
    }
  }

  // ----- loading -----

  function ElementEnd(element: Type, count: nat, i: nat): (r: nat)
    requires i < count
    ensures r == i * Size(element) + Size(element) <= count * Size(element)
  {
    MulGrows(i + 1, count, Size(element));
    (i + 1) * Size(element)
  }

  lemma ElementInside(t: Type, i: nat)
    requires t.Array? && i < t.count
    ensures i * Size(t.element) + Size(t.element) <= Size(t)
  {
    var e := ElementEnd(t.element, t.count, i);
  }

  lemma ElementsApart(t: Type, i: nat, j: nat)
    requires t.Array? && i < j
    ensures i * Size(t.element) + Size(t.element) <= j * Size(t.element)
  {
    var e := ElementEnd(t.element, j, i);
  }

  function Load(m: seq<Byte>, a: nat, t: Type): Value
    requires a + Size(t) <= |m|
    decreases t
  {
    match t
    case Int(bits, _) => IntVal(FromBytes(m[a..a + StoreSize(bits)]) % Pow2(bits))
    case Float => Payload(m[a..a + 4])
    case Double => Payload(m[a..a + 8])
    case Pointer(bytes) => IntVal(FromBytes(m[a..a + bytes]))
    case Struct(fields) =>
      Aggregate(seq(|fields|, i requires 0 <= i < |fields| => FieldsInside(fields, i); Load(m, a + Offset(fields, i), fields[i])))
    case Array(element, count) =>
      Aggregate(seq(count, i requires 0 <= i < count =>
        var e := ElementEnd(element, count, i); Load(m, a + i * Size(element), element)))
  }

  ghost predicate Agree(m: seq<Byte>, m': seq<Byte>, from: nat, to: nat) {
    to <= |m| && to <= |m'| && forall k :: from <= k < to ==> m[k] == m'[k]
  }

  lemma AgreeSlice(m: seq<Byte>, m': seq<Byte>, from: nat, to: nat, a: nat, b: nat)
    requires Agree(m, m', from, to) && from <= a <= b <= to
    ensures to <= |m| && to <= |m'| && m[a..b] == m'[a..b] && Agree(m, m', a, b)
  {
  }

  lemma ScalarLocal(m: seq<Byte>, m': seq<Byte>, a: nat, t: Type)
    requires Agree(m, m', a, a + Size(t)) && !t.Struct? && !t.Array?
    ensures Load(m, a, t) == Load(m', a, t)
  {
    var n := if t.Int? then StoreSize(t.bits) else Size(t);
    AgreeSlice(m, m', a, a + Size(t), a, a + n);
  }

  lemma LoadField(m: seq<Byte>, a: nat, t: Type, j: nat)
    requires t.Struct? && j < |t.fields| && a + Size(t) <= |m|
    ensures a + Offset(t.fields, j) + Size(t.fields[j]) <= |m|
    ensures Load(m, a, t).Aggregate? && |Load(m, a, t).parts| == |t.fields|
    ensures Load(m, a, t).parts[j] == Load(m, a + Offset(t.fields, j), t.fields[j])
  {
    FieldsInside(t.fields, j);
  }

  lemma LoadElement(m: seq<Byte>, a: nat, t: Type, j: nat)
    requires t.Array? && j < t.count && a + Size(t) <= |m|
    ensures a + j * Size(t.element) + Size(t.element) <= |m|
    ensures Load(m, a, t).Aggregate? && |Load(m, a, t).parts| == t.count
    ensures Load(m, a, t).parts[j] == Load(m, a + j * Size(t.element), t.element)
  {
    var e := ElementEnd(t.element, t.count, j);
  }

  lemma {:induction false} StructLocal(m: seq<Byte>, m': seq<Byte>, a: nat, t: Type, i: nat)
    requires t.Struct? && i < |t.fields| && Agree(m, m', a, a + Size(t))
    ensures Load(m, a, t).parts[i] == Load(m', a, t).parts[i]
    decreases t, 0
  {
    hide Load, Agree, AlignUp;
    var fs := t.fields;
    FieldsInside(fs, i);
    AgreeSlice(m, m', a, a + Size(t), a + Offset(fs, i), a + Offset(fs, i) + Size(fs[i]));
    LoadField(m, a, t, i);
    LoadField(m', a, t, i);
    LoadLocal(m, m', a + Offset(fs, i), fs[i]);
  }

  lemma {:induction false} ArrayLocal(m: seq<Byte>, m': seq<Byte>, a: nat, t: Type, i: nat)
    requires t.Array? && i < t.count && Agree(m, m', a, a + Size(t))
    ensures Load(m, a, t).parts[i] == Load(m', a, t).parts[i]
    decreases t, 0
  {
    hide Load, Agree;
    var e := t.element;
    var n := ElementEnd(e, t.count, i);
    AgreeSlice(m, m', a, a + Size(t), a + i * Size(e), a + i * Size(e) + Size(e));
    LoadElement(m, a, t, i);
    LoadElement(m', a, t, i);
    LoadLocal(m, m', a + i * Size(e), e);
  }

  /** A load depends only on the bytes of the value. */
  lemma {:induction false} LoadLocal(m: seq<Byte>, m': seq<Byte>, a: nat, t: Type)
    requires Agree(m, m', a, a + Size(t))
    ensures Load(m, a, t) == Load(m', a, t)
    decreases t, 1
  {
    match t
    case Struct(fields) =>
      forall i | 0 <= i < |fields| ensures Load(m, a, t).parts[i] == Load(m', a, t).parts[i] { StructLocal(m, m', a, t, i); }
      assert Load(m, a, t).parts == Load(m', a, t).parts;
    case Array(element, count) =>
      forall i | 0 <= i < count ensures Load(m, a, t).parts[i] == Load(m', a, t).parts[i] { ArrayLocal(m, m', a, t, i); }
      assert Load(m, a, t).parts == Load(m', a, t).parts;
    case _ => ScalarLocal(m, m', a, t);
  }

  // ----- storing -----

  predicate HasType(v: Value, t: Type)
    decreases t
  {
    match t
    case Int(bits, _) => v.IntVal? && v.n < Pow2(bits)
    case Float => v.Payload? && |v.bytes| == 4
    case Double => v.Payload? && |v.bytes| == 8
    case Pointer(bytes) => v.IntVal? && v.n < Pow2(8 * bytes)
    case Struct(fields) => v.Aggregate? && |v.parts| == |fields| && forall i :: 0 <= i < |fields| ==> HasType(v.parts[i], fields[i])
    case Array(element, count) => v.Aggregate? && |v.parts| == count && forall i :: 0 <= i < count ==> HasType(v.parts[i], element)
  }

  function Put(m: seq<Byte>, a: nat, bs: seq<Byte>): (r: seq<Byte>)
    requires a + |bs| <= |m|
    ensures |r| == |m|
    ensures forall k :: 0 <= k < |m| ==> r[k] == if a <= k < a + |bs| then bs[k - a] else m[k]
  {
    m[..a] + bs + m[a + |bs|..]
  }

  /** The bytes of a scalar. */
  function ScalarBytes(v: Value, t: Type): (bs: seq<Byte>)
    requires HasType(v, t) && !t.Struct? && !t.Array?
    ensures |bs| <= Size(t)
  {
    match t
    case Int(bits, _) => ToBytes(v.n, StoreSize(bits))
    case Pointer(bytes) => ToBytes(v.n, bytes)
    case Float => v.bytes
    case Double => v.bytes
  }

  function Store(m: seq<Byte>, a: nat, v: Value, t: Type): (r: seq<Byte>)
    requires a + Size(t) <= |m| && HasType(v, t)
    ensures |r| == |m|
    decreases t, 1
  {
    match t
    case Struct(fields) => StoreFields(m, a, v.parts, t, |fields|)
    case Array(element, count) => StoreElements(m, a, v.parts, t, count)
    case _ => Put(m, a, ScalarBytes(v, t))
  }

  /** The first n fields of a struct. */
  function StoreFields(m: seq<Byte>, a: nat, vs: seq<Value>, t: Type, n: nat): (r: seq<Byte>)
    requires t.Struct? && n <= |t.fields| && a + Size(t) <= |m| && HasType(Aggregate(vs), t)
    ensures |r| == |m|
    decreases t, 0, n
  {
    if n == 0 then m
    else
      FieldsInside(t.fields, n - 1);
      Store(StoreFields(m, a, vs, t, n - 1), a + Offset(t.fields, n - 1), vs[n - 1], t.fields[n - 1])
  }

  /** The first n elements of an array. */
  function StoreElements(m: seq<Byte>, a: nat, vs: seq<Value>, t: Type, n: nat): (r: seq<Byte>)
    requires t.Array? && n <= t.count && a + Size(t) <= |m| && HasType(Aggregate(vs), t)
    ensures |r| == |m|
    decreases t, 0, n
  {
    if n == 0 then m
    else
      ElementInside(t, n - 1);
      ElementTyped(vs, t, n - 1);
      Store(StoreElements(m, a, vs, t, n - 1), a + (n - 1) * Size(t.element), vs[n - 1], t.element)
  }

  /** Bytes outside the range are the same. */
  ghost predicate SameOutside(m: seq<Byte>, m': seq<Byte>, from: nat, to: nat) {
    |m| == |m'| && forall k :: 0 <= k < |m| && !(from <= k < to) ==> m'[k] == m[k]
  }

  lemma ScalarFrame(m: seq<Byte>, a: nat, v: Value, t: Type)
    requires a + Size(t) <= |m| && HasType(v, t) && !t.Struct? && !t.Array?
    ensures SameOutside(m, Store(m, a, v, t), a, a + Size(t))
  {
    hide Size, HasType;
  }

  /** A store changes no byte outside the value. */
  lemma {:induction false} StoreFrame(m: seq<Byte>, a: nat, v: Value, t: Type)
    requires a + Size(t) <= |m| && HasType(v, t)
    ensures SameOutside(m, Store(m, a, v, t), a, a + Size(t))
    decreases t, 1
  {
    hide Store, Size, HasType, SameOutside;
    if t.Struct? {
      FieldsBegin(m, a, v, t);
      FieldsFrame(m, a, v.parts, t, |t.fields|);
    } else if t.Array? {
      ElementsBegin(m, a, v, t);
      ElementsFrame(m, a, v.parts, t, t.count);
    } else {
      ScalarFrame(m, a, v, t);
    }
  }

  lemma {:induction false} FieldsFrame(m: seq<Byte>, a: nat, vs: seq<Value>, t: Type, n: nat)
    requires t.Struct? && n <= |t.fields| && a + Size(t) <= |m| && HasType(Aggregate(vs), t)
    ensures SameOutside(m, StoreFields(m, a, vs, t, n), a, a + Size(t))
    decreases t, 0, n
  {
    hide Size, HasType, Store, Offset;
    if n > 0 {
      FieldInside(t, n - 1);
      FieldTyped(vs, t, n - 1);
      FieldsFrame(m, a, vs, t, n - 1);
      StoreFrame(StoreFields(m, a, vs, t, n - 1), a + Offset(t.fields, n - 1), vs[n - 1], t.fields[n - 1]);
    }
  }

  lemma FieldInside(t: Type, i: nat)
    requires t.Struct? && i < |t.fields|
    ensures Offset(t.fields, i) + Size(t.fields[i]) <= Size(t)
  {
    FieldsInside(t.fields, i);
  }

  lemma FieldTyped(vs: seq<Value>, t: Type, i: nat)
    requires t.Struct? && i < |t.fields| && HasType(Aggregate(vs), t)
    ensures |vs| == |t.fields| && HasType(vs[i], t.fields[i])
  {
  }

  lemma ElementTyped(vs: seq<Value>, t: Type, i: nat)
    requires t.Array? && i < t.count && HasType(Aggregate(vs), t)
    ensures |vs| == t.count && HasType(vs[i], t.element)
  {
  }

  lemma {:induction false} ElementsFrame(m: seq<Byte>, a: nat, vs: seq<Value>, t: Type, n: nat)
    requires t.Array? && n <= t.count && a + Size(t) <= |m| && HasType(Aggregate(vs), t)
    ensures SameOutside(m, StoreElements(m, a, vs, t, n), a, a + Size(t))
    decreases t, 0, n
  {
    hide Size, HasType, Store;
    if n > 0 {
      ElementInside(t, n - 1);
      ElementTyped(vs, t, n - 1);
      ElementsFrame(m, a, vs, t, n - 1);
      StoreFrame(StoreElements(m, a, vs, t, n - 1), a + (n - 1) * Size(t.element), vs[n - 1], t.element);
    }
  }

  /** A value elsewhere is not touched. */
  lemma LoadElsewhere(m: seq<Byte>, a: nat, v: Value, t: Type, b: nat, u: Type)
    requires a + Size(t) <= |m| && HasType(v, t) && b + Size(u) <= |m|
    requires b + Size(u) <= a || a + Size(t) <= b
    ensures Load(Store(m, a, v, t), b, u) == Load(m, b, u)
  {
    StoreFrame(m, a, v, t);
    var m' := Store(m, a, v, t);
    LoadLocal(m, m', b, u);
  }

  // ----- loading what was stored -----

  lemma IntRoundTrip(n: nat, bits: nat)
    requires n < Pow2(bits)
    ensures FromBytes(ToBytes(n, StoreSize(bits))) % Pow2(bits) == n
  {
    hide Pow2, ToBytes, FromBytes;
    Pow2Grows(bits, 8 * StoreSize(bits));
    BytesRoundTrip(n, StoreSize(bits));
    SmallMod(n, Pow2(bits));
  }

  lemma ScalarRoundTrip(m: seq<Byte>, a: nat, v: Value, t: Type)
    requires a + Size(t) <= |m| && HasType(v, t) && !t.Struct? && !t.Array?
    ensures Load(Store(m, a, v, t), a, t) == v
  {
    hide ToBytes, FromBytes, Pow2;
    var bs := ScalarBytes(v, t);
    assert Put(m, a, bs)[a..a + |bs|] == bs;
    match t
    case Int(bits, _) => IntRoundTrip(v.n, bits);
    case Pointer(bytes) => BytesRoundTrip(v.n, bytes);
    case _ =>
  }

  /** Integers lie in memory with their lowest digit first, and are read as that. */
  lemma LowestFirst(m: seq<Byte>, a: nat, v: Value, t: Type, i: nat)
    requires a + Size(t) <= |m| && HasType(v, t) && ((t.Int? && i < StoreSize(t.bits)) || (t.Pointer? && i < t.bytes))
    ensures a + i < |m| && Store(m, a, v, t)[a + i] == v.n / Pow2(8 * i) % 256
  {
    hide ToBytes, Pow2;
    ByteIsDigit(v.n, if t.Int? then StoreSize(t.bits) else t.bytes, i);
  }

  lemma LoadReadsDigits(m: seq<Byte>, a: nat, t: Type, i: nat)
    requires a + Size(t) <= |m| && t.Int? && t.bits == 8 * StoreSize(t.bits) && i < StoreSize(t.bits)
    ensures Load(m, a, t).IntVal? && Load(m, a, t).n / Pow2(8 * i) % 256 == m[a + i]
  {
    hide ToBytes, Pow2;
    var bs := m[a..a + StoreSize(t.bits)];
    BytesBack(bs);
    ByteIsDigit(FromBytes(bs), |bs|, i);
    BytesBelow(bs);
    SmallMod(FromBytes(bs), Pow2(t.bits));
  }

  /** Loading a type after storing a value of it gives the value back. */
  lemma {:induction false} LoadAfterStore(m: seq<Byte>, a: nat, v: Value, t: Type)
    requires a + Size(t) <= |m| && HasType(v, t)
    ensures Load(Store(m, a, v, t), a, t) == v
    decreases t, 1
  {
    if t.Struct? {
      StructStored(m, a, v, t);
    } else if t.Array? {
      ArrayStored(m, a, v, t);
    } else {
      ScalarRoundTrip(m, a, v, t);
    }
  }

  lemma {:induction false} StructStored(m: seq<Byte>, a: nat, v: Value, t: Type)
    requires t.Struct? && a + Size(t) <= |m| && HasType(v, t)
    ensures Load(Store(m, a, v, t), a, t) == v
    decreases t, 0, |t.fields| + 1
  {
    var m' := Store(m, a, v, t);
    var r := Load(m', a, t);
    assert r.Aggregate? && |r.parts| == |v.parts| == |t.fields| && m' == StoreFields(m, a, v.parts, t, |t.fields|);
    hide Load, Store, HasType, Size;
    forall i | 0 <= i < |t.fields| ensures r.parts[i] == v.parts[i] {
      FieldStored(m, a, v.parts, t, |t.fields|, i);
      LoadField(m', a, t, i);
    }
    assert r.parts == v.parts;
  }

  lemma {:induction false} ArrayStored(m: seq<Byte>, a: nat, v: Value, t: Type)
    requires t.Array? && a + Size(t) <= |m| && HasType(v, t)
    ensures Load(Store(m, a, v, t), a, t) == v
    decreases t, 0, t.count + 1
  {
    var m' := Store(m, a, v, t);
    var r := Load(m', a, t);
    assert r.Aggregate? && |r.parts| == |v.parts| == t.count && m' == StoreElements(m, a, v.parts, t, t.count);
    hide Load, Store, HasType, Size;
    forall i | 0 <= i < t.count ensures r.parts[i] == v.parts[i] {
      ElementStored(m, a, v.parts, t, t.count, i);
      LoadElement(m', a, t, i);
    }
    assert r.parts == v.parts;
  }

  lemma {:induction false} FieldStored(m: seq<Byte>, a: nat, vs: seq<Value>, t: Type, n: nat, i: nat)
    requires t.Struct? && i < n <= |t.fields| && a + Size(t) <= |m| && HasType(Aggregate(vs), t)
    ensures a + Offset(t.fields, i) + Size(t.fields[i]) <= |m|
    ensures Load(StoreFields(m, a, vs, t, n), a + Offset(t.fields, i), t.fields[i]) == vs[i]
    decreases t, 0, n
  {
    hide Load, Store, AlignUp, Offset, FieldsEnd;
    var m', k := StoreFields(m, a, vs, t, n - 1), n - 1;
    FieldsInside(t.fields, i);
    FieldsInside(t.fields, k);
    if i == k {
      LoadAfterStore(m', a + Offset(t.fields, k), vs[k], t.fields[k]);
    } else {
      FieldsApart(t.fields, i, k);
      FieldStored(m, a, vs, t, k, i);
      LoadElsewhere(m', a + Offset(t.fields, k), vs[k], t.fields[k], a + Offset(t.fields, i), t.fields[i]);
    }
  }

  lemma {:induction false} ElementStored(m: seq<Byte>, a: nat, vs: seq<Value>, t: Type, n: nat, i: nat)
    requires t.Array? && i < n <= t.count && a + Size(t) <= |m| && HasType(Aggregate(vs), t)
    ensures a + i * Size(t.element) + Size(t.element) <= |m|
    ensures Load(StoreElements(m, a, vs, t, n), a + i * Size(t.element), t.element) == vs[i]
    decreases t, 0, n
  {
    hide Load, Store, Size, HasType;
    var m', k := StoreElements(m, a, vs, t, n - 1), n - 1;
    ElementTyped(vs, t, k);
    ElementTyped(vs, t, i);
    ElementInside(t, i);
    ElementInside(t, k);
    if i == k {
      LoadAfterStore(m', a + k * Size(t.element), vs[k], t.element);
    } else {
      ElementStored(m, a, vs, t, k, i);
      ElementsApart(t, i, k);
      LoadElsewhere(m', a + k * Size(t.element), vs[k], t.element, a + i * Size(t.element), t.element);
    }
  }

  // ----- the interpreter's store, in place -----

  method PutBytes(mem: array<Byte>, a: nat, bs: seq<Byte>)
    requires a + |bs| <= mem.Length
    modifies mem
    ensures mem[..] == Put(old(mem[..]), a, bs)
  {
    for i := 0 to |bs|
      invariant forall k :: 0 <= k < mem.Length ==> mem[k] == if a <= k < a + i then bs[k - a] else old(mem[k])
    {
      mem[a + i] := bs[i];
    }
  }

  method DoStore(mem: array<Byte>, a: nat, v: Value, t: Type)
    requires t.Valid() && a + Size(t) <= mem.Length && HasType(v, t)
    modifies mem
    ensures mem[..] == Store(old(mem[..]), a, v, t)
    decreases t, 1
  {
    if t.Struct? {
      DoStoreStruct(mem, a, v, t);
    } else if t.Array? {
      DoStoreArray(mem, a, v, t);
    } else {
      PutBytes(mem, a, ScalarBytes(v, t));
    }
  }

  lemma FieldsBegin(m: seq<Byte>, a: nat, v: Value, t: Type)
    requires t.Struct? && a + Size(t) <= |m| && HasType(v, t)
    ensures v.Aggregate? && HasType(Aggregate(v.parts), t) && StoreFields(m, a, v.parts, t, 0) == m
    ensures StoreFields(m, a, v.parts, t, |t.fields|) == Store(m, a, v, t)
  {
  }

  lemma FieldsNext(m: seq<Byte>, a: nat, vs: seq<Value>, t: Type, i: nat)
    requires t.Struct? && t.Valid() && i < |t.fields| && a + Size(t) <= |m| && HasType(Aggregate(vs), t)
    ensures t.fields[i].Valid() && |vs| == |t.fields| && HasType(vs[i], t.fields[i])
    ensures a + Offset(t.fields, i) + Size(t.fields[i]) <= |m|
    ensures StoreFields(m, a, vs, t, i + 1) == Store(StoreFields(m, a, vs, t, i), a + Offset(t.fields, i), vs[i], t.fields[i])
  {
    hide Store, Offset, AlignUp, FieldsEnd;
    assert t.fields[i] in t.fields;
    FieldsInside(t.fields, i);
  }

  lemma ElementsBegin(m: seq<Byte>, a: nat, v: Value, t: Type)
    requires t.Array? && a + Size(t) <= |m| && HasType(v, t)
    ensures v.Aggregate? && HasType(Aggregate(v.parts), t) && StoreElements(m, a, v.parts, t, 0) == m
    ensures StoreElements(m, a, v.parts, t, t.count) == Store(m, a, v, t)
  {
  }

  lemma ElementsNext(m: seq<Byte>, a: nat, vs: seq<Value>, t: Type, i: nat, at: nat)
    requires t.Array? && t.Valid() && i < t.count && a + Size(t) <= |m| && HasType(Aggregate(vs), t)
    requires at == a + i * Size(t.element)
    ensures t.element.Valid() && |vs| == t.count && HasType(vs[i], t.element)
    ensures at + Size(t.element) <= |m|
    ensures StoreElements(m, a, vs, t, i + 1) == Store(StoreElements(m, a, vs, t, i), at, vs[i], t.element)
  {
    hide Store;
    ElementInside(t, i);
  }

  method DoStoreStruct(mem: array<Byte>, a: nat, v: Value, t: Type)
    requires t.Struct? && t.Valid() && a + Size(t) <= mem.Length && HasType(v, t)
    modifies mem
    ensures mem[..] == Store(old(mem[..]), a, v, t)
    decreases t, 0
  {
    hide Store, StoreFields, Size, HasType, Offset, Type.Valid;
    var fields := t.fields;
    FieldsBegin(mem[..], a, v, t);
    for i := 0 to |fields|
      invariant mem[..] == StoreFields(old(mem[..]), a, v.parts, t, i)
    {
      FieldsNext(old(mem[..]), a, v.parts, t, i);
      DoStore(mem, a + Offset(fields, i), v.parts[i], fields[i]);
    }
  }

  method DoStoreArray(mem: array<Byte>, a: nat, v: Value, t: Type)
    requires t.Array? && t.Valid() && a + Size(t) <= mem.Length && HasType(v, t)
    modifies mem
    ensures mem[..] == Store(old(mem[..]), a, v, t)
    decreases t, 0
  {
    hide Store, StoreElements, Size, HasType, Type.Valid;
    ElementsBegin(mem[..], a, v, t);
    for i := 0 to t.count
      invariant mem[..] == StoreElements(old(mem[..]), a, v.parts, t, i)
    {
      var at := a + i * Size(t.element);
      ElementsNext(old(mem[..]), a, v.parts, t, i, at);
      DoStore(mem, at, v.parts[i], t.element);
    }
  }

  // ----- element addresses -----

  /** The indices lead to a part of the type. */
  predicate InType(t: Type, path: seq<nat>)
    decreases path
  {
    if path == [] then true
    else
      match t
      case Struct(fields) => path[0] < |fields| && InType(fields[path[0]], path[1..])
      case Array(element, count) => path[0] < count && InType(element, path[1..])
      case _ => false
  }

  function PartType(t: Type, path: seq<nat>): Type
    requires InType(t, path)
    decreases path
  {
    if path == [] then t
    else PartType(if t.Struct? then t.fields[path[0]] else t.element, path[1..])
  }

  /** The distance of the part from the beginning of the whole. */
  function PartOffset(t: Type, path: seq<nat>): nat
    requires InType(t, path)
    decreases path
  {
    if path == [] then 0
    else if t.Struct? then Offset(t.fields, path[0]) + PartOffset(t.fields[path[0]], path[1..])
    else path[0] * Size(t.element) + PartOffset(t.element, path[1..])
  }

  /** A part lies inside the whole. */
  lemma {:induction false} PartInside(t: Type, path: seq<nat>)
    requires InType(t, path)
    ensures PartOffset(t, path) + Size(PartType(t, path)) <= Size(t)
    decreases path
  {
    if path != [] {
      if t.Struct? {
        FieldsInside(t.fields, path[0]);
        PartInside(t.fields[path[0]], path[1..]);
      } else {
        var e := ElementEnd(t.element, t.count, path[0]);
        PartInside(t.element, path[1..]);
      }
    }
  }

  predicate InValue(v: Value, path: seq<nat>) {
    path != [] ==> v.Aggregate? && path[0] < |v.parts| && InValue(v.parts[path[0]], path[1..])
  }

  function Part(v: Value, path: seq<nat>): Value
    requires InValue(v, path)
  {
    if path == [] then v else Part(v.parts[path[0]], path[1..])
  }

  function WithPart(v: Value, path: seq<nat>, u: Value): Value
    requires InValue(v, path)
  {
    if path == [] then u else Aggregate(v.parts[path[0] := WithPart(v.parts[path[0]], path[1..], u)])
  }

  /** Loading a part at its own address gives that part of the whole. */
  lemma {:induction false} LoadPart(m: seq<Byte>, a: nat, t: Type, path: seq<nat>)
    requires InType(t, path) && a + Size(t) <= |m|
    ensures a + PartOffset(t, path) + Size(PartType(t, path)) <= |m|
    ensures InValue(Load(m, a, t), path)
    ensures Load(m, a + PartOffset(t, path), PartType(t, path)) == Part(Load(m, a, t), path)
    decreases path
  {
    hide Load, AlignUp, FieldsEnd, Size, Offset;
    PartInside(t, path);
    if path != [] {
      var i := path[0];
      if t.Struct? {
        LoadField(m, a, t, i);
        LoadPart(m, a + Offset(t.fields, i), t.fields[i], path[1..]);
      } else {
        LoadElement(m, a, t, i);
        LoadPart(m, a + i * Size(t.element), t.element, path[1..]);
      }
    }
  }

  /** Storing a part at its own address changes that part of the whole and nothing else of it. */
  lemma {:induction false} StorePart(m: seq<Byte>, a: nat, t: Type, path: seq<nat>, u: Value)
    requires InType(t, path) && a + Size(t) <= |m| && HasType(u, PartType(t, path))
    ensures a + PartOffset(t, path) + Size(PartType(t, path)) <= |m|
    ensures InValue(Load(m, a, t), path)
    ensures Load(Store(m, a + PartOffset(t, path), u, PartType(t, path)), a, t) == WithPart(Load(m, a, t), path, u)
    decreases path
  {
    PartInside(t, path);
    LoadPart(m, a, t, path);
    if path == [] {
      LoadAfterStore(m, a, u, t);
    } else if t.Struct? {
      StoreFieldPart(m, a, t, path, u);
    } else {
      StoreElementPart(m, a, t, path, u);
    }
  }

  /** Other fields stay as they are. */
  lemma OtherField(m: seq<Byte>, a: nat, t: Type, i: nat, j: nat, b: nat, u: Value, part: Type)
    requires t.Struct? && i < |t.fields| && j < |t.fields| && i != j && a + Size(t) <= |m| && HasType(u, part)
    requires a + Offset(t.fields, i) <= b && b + Size(part) <= a + Offset(t.fields, i) + Size(t.fields[i])
    ensures b + Size(part) <= |m| && Load(Store(m, b, u, part), a, t).parts[j] == Load(m, a, t).parts[j]
  {
    hide Load, Store, AlignUp, FieldsEnd;
    var fs := t.fields;
    LoadField(m, a, t, i);
    LoadField(m, a, t, j);
    LoadField(Store(m, b, u, part), a, t, j);
    if j < i { FieldsApart(fs, j, i); } else { FieldsApart(fs, i, j); }
    LoadElsewhere(m, b, u, part, a + Offset(fs, j), fs[j]);
  }

  lemma OtherElement(m: seq<Byte>, a: nat, t: Type, i: nat, j: nat, b: nat, u: Value, part: Type)
    requires t.Array? && i < t.count && j < t.count && i != j && a + Size(t) <= |m| && HasType(u, part)
    requires a + i * Size(t.element) <= b && b + Size(part) <= a + i * Size(t.element) + Size(t.element)
    ensures b + Size(part) <= |m| && Load(Store(m, b, u, part), a, t).parts[j] == Load(m, a, t).parts[j]
  {
    hide Load, Store, Size, HasType;
    var e := t.element;
    LoadElement(m, a, t, i);
    LoadElement(m, a, t, j);
    LoadElement(Store(m, b, u, part), a, t, j);
    if j < i { ElementsApart(t, j, i); } else { ElementsApart(t, i, j); }
    LoadElsewhere(m, b, u, part, a + j * Size(e), e);
  }

  lemma {:induction false} StoreFieldPart(m: seq<Byte>, a: nat, t: Type, path: seq<nat>, u: Value)
    requires path != [] && t.Struct? && InType(t, path) && a + Size(t) <= |m| && HasType(u, PartType(t, path))
    requires a + PartOffset(t, path) + Size(PartType(t, path)) <= |m| && InValue(Load(m, a, t), path)
    ensures Load(Store(m, a + PartOffset(t, path), u, PartType(t, path)), a, t) == WithPart(Load(m, a, t), path, u)
    decreases path, 0
  {
    hide Store, AlignUp, FieldsEnd, Offset, HasType;
    var i, fs := path[0], t.fields;
    var b, part := a + PartOffset(t, path), PartType(t, path);
    var m' := Store(m, b, u, part);
    FieldsInside(fs, i);
    PartInside(fs[i], path[1..]);
    StorePart(m, a + Offset(fs, i), fs[i], path[1..], u);
    LoadField(m, a, t, i);
    LoadField(m', a, t, i);
    var x, y := Load(m', a, t).parts, WithPart(Load(m, a, t), path, u).parts;
    assert |x| == |y| == |fs|;
    forall j | 0 <= j < |fs| ensures x[j] == y[j] {
      if j != i { OtherField(m, a, t, i, j, b, u, part); }
    }
    assert x == y;
  }

  lemma {:induction false} StoreElementPart(m: seq<Byte>, a: nat, t: Type, path: seq<nat>, u: Value)
    requires path != [] && t.Array? && InType(t, path) && a + Size(t) <= |m| && HasType(u, PartType(t, path))
    requires a + PartOffset(t, path) + Size(PartType(t, path)) <= |m| && InValue(Load(m, a, t), path)
    ensures Load(Store(m, a + PartOffset(t, path), u, PartType(t, path)), a, t) == WithPart(Load(m, a, t), path, u)
    decreases path, 0
  {
    hide Store, HasType, Load, Size;
    var i, e := path[0], t.element;
    var b, part := a + PartOffset(t, path), PartType(t, path);
    var m' := Store(m, b, u, part);
    PartInside(e, path[1..]);
    LoadElement(m, a, t, i);
    LoadElement(m', a, t, i);
    StorePart(m, a + i * Size(e), e, path[1..], u);
    var x, y := Load(m', a, t).parts, WithPart(Load(m, a, t), path, u).parts;
    assert y == Load(m, a, t).parts[i := WithPart(Load(m, a, t).parts[i], path[1..], u)];
    forall j | 0 <= j < t.count ensures x[j] == y[j] {
      if j != i { OtherElement(m, a, t, i, j, b, u, part); }
    }
    assert x == y;
  }

  /** The address of an element: offsets add up in 64 bits, addresses in the width of a pointer. */
  function ElementAddress(ptr: nat, bits: nat, first: nat, t: Type, path: seq<nat>): nat
    requires InType(t, path)
  {
    Wrap(ptr + Wrap(first * Size(t) + PartOffset(t, path), 64), bits)
  }

  /** One index: how far it leads, and to what. */
  function IndexOffset(t: Type, i: nat): nat
    requires InType(t, [i])
  {
    if t.Struct? then Offset(t.fields, i) else i * Size(t.element)
  }

  function IndexType(t: Type, i: nat): Type
    requires InType(t, [i])
  {
    if t.Struct? then t.fields[i] else t.element
  }

  lemma FirstIndex(t: Type, path: seq<nat>)
    requires InType(t, path) && path != []
    ensures InType(t, [path[0]]) && InType(IndexType(t, path[0]), path[1..])
    ensures PartOffset(t, path) == IndexOffset(t, path[0]) + PartOffset(IndexType(t, path[0]), path[1..])
  {
    assert [path[0]][1..] == [];
  }

  method BuildGEP(ptr: nat, bits: nat, first: nat, t: Type, path: seq<nat>) returns (r: nat)
    requires InType(t, path)
    ensures r == ElementAddress(ptr, bits, first, t, path)
  {
    hide Wrap, Size, InType, PartOffset, IndexOffset, IndexType;
    var start: nat := first * Size(t);
    var offset := Wrap(start, 64);
    var current := t;
    ghost var total: nat := start;
    for i := 0 to |path|
      invariant InType(current, path[i..])
      invariant total + PartOffset(current, path[i..]) == start + PartOffset(t, path)
      invariant offset == Wrap(total, 64)
    {
      assert path[i..][0] == path[i] && path[i..][1..] == path[i + 1..];
      FirstIndex(current, path[i..]);
      var more := IndexOffset(current, path[i]);
      current := IndexType(current, path[i]);
      WrapAdd(total, more, 64);
      offset := Wrap(offset + Wrap(more, 64), 64);
      total := total + more;
    }
    NoIndex(current);
    r := Wrap(ptr + offset, bits);
  }

  lemma NoIndex(t: Type)
    ensures InType(t, []) && PartOffset(t, []) == 0
  {
  }

  /** Inside a memory that can be addressed nothing wraps round. */
  lemma AddressIs(memory: nat, ptr: nat, bits: nat, first: nat, t: Type, path: seq<nat>, whole: nat)
    requires InType(t, path) && bits <= 64 && memory < Pow2(bits) && whole == ptr + first * Size(t)
    requires whole + Size(t) <= memory
    ensures ElementAddress(ptr, bits, first, t, path) == whole + PartOffset(t, path)
  {
    hide Pow2, Wrap, Size, PartOffset;
    PartInside(t, path);
    NoWrap(ptr, first * Size(t) + PartOffset(t, path), bits, 64);
  }

  /** Loading at an element's address gives that part of the aggregate that the first index selects. */
  lemma LoadAtElementAddress(m: seq<Byte>, ptr: nat, bits: nat, first: nat, t: Type, path: seq<nat>, whole: nat)
    requires InType(t, path) && bits <= 64 && |m| < Pow2(bits) && whole == ptr + first * Size(t)
    requires whole + Size(t) <= |m|
    ensures ElementAddress(ptr, bits, first, t, path) + Size(PartType(t, path)) <= |m|
    ensures InValue(Load(m, whole, t), path)
    ensures Load(m, ElementAddress(ptr, bits, first, t, path), PartType(t, path)) == Part(Load(m, whole, t), path)
  {
    hide Pow2, Size, PartOffset, ElementAddress, Load;
    AddressIs(|m|, ptr, bits, first, t, path, whole);
    LoadPart(m, whole, t, path);
  }

  /** Storing there changes that part of the aggregate and nothing else of it. */
  lemma StoreAtElementAddress(m: seq<Byte>, ptr: nat, bits: nat, first: nat, t: Type, path: seq<nat>, whole: nat,
                              u: Value)
    requires InType(t, path) && bits <= 64 && |m| < Pow2(bits) && whole == ptr + first * Size(t)
    requires whole + Size(t) <= |m|
    requires HasType(u, PartType(t, path))
    ensures ElementAddress(ptr, bits, first, t, path) + Size(PartType(t, path)) <= |m|
    ensures InValue(Load(m, whole, t), path)
    ensures Load(Store(m, ElementAddress(ptr, bits, first, t, path), u, PartType(t, path)), whole, t) == WithPart(Load(m, whole, t), path, u)
  {
    hide Pow2, Size, PartOffset, ElementAddress, Load, Store, HasType;
    AddressIs(|m|, ptr, bits, first, t, path, whole);
    StorePart(m, whole, t, path, u);
  }
}
