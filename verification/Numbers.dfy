/** Powers of two, and arithmetic that wraps round. */
module Numbers {

  function Pow2(n: nat): (r: nat)
    ensures r > 0
  {
    if n == 0 then 1 else 2 * Pow2(n - 1)
  }

  lemma Pow2Next(n: nat)
    ensures Pow2(n + 1) == 2 * Pow2(n)
  {
  }

  lemma Pow2Bytes(n: nat)
    ensures Pow2(n + 8) == 256 * Pow2(n)
  {
    assert Pow2(n + 8) == 2 * Pow2(n + 7) == 4 * Pow2(n + 6) == 8 * Pow2(n + 5) == 16 * Pow2(n + 4);
    assert Pow2(n + 4) == 2 * Pow2(n + 3) == 4 * Pow2(n + 2) == 8 * Pow2(n + 1) == 16 * Pow2(n);
  }

  lemma {:induction false} Pow2Grows(n: nat, m: nat)
    requires n <= m
    ensures Pow2(n) <= Pow2(m)
  {
    if n < m { Pow2Grows(n, m - 1); }
  }

  lemma SmallMod(n: nat, p: nat)
    requires n < p
    ensures n % p == n
  {
  }

  lemma AddWraps(a: nat, b: nat, p: nat)
    requires p > 0
    ensures (a % p + b % p) % p == (a + b) % p
  {
    var q := a / p + b / p;
    assert a + b == p * q + (a % p + b % p);
    ModAdd(q, a % p + b % p, p);
  }

  lemma {:induction false} ModAdd(q: nat, r: nat, p: nat)
    requires p > 0
    ensures (p * q + r) % p == r % p
    decreases q
  {
    if q > 0 {
      ModAdd(q - 1, r, p);
      var x := p * (q - 1) + r;
      assert p * q + r == x + p;
      assert (x + p) % p == x % p by { assert x + p == p * (x / p + 1) + x % p; DivUnique(x + p, x / p + 1, x % p, p); }
    }
  }

  lemma DivUnique(n: nat, q: nat, r: nat, p: nat)
    requires p > 0 && n == p * q + r && r < p
    ensures n % p == r
  {
    var d := n / p - q;
    assert p * d == r - n % p;
    assert d <= 0 || p * d >= p;
    assert d >= 0 || p * d + p <= 0;
  }

  lemma Quotient(n: nat, q: nat, r: nat, p: nat)
    requires p > 0 && n == p * q + r && r < p
    ensures n / p == q
  {
    DivUnique(n, q, r, p);
    var d: int := n / p - q;
    assert p * d == 0;
    assert d <= 0 || p * d >= p;
    assert d >= 0 || p * d + p <= 0;
  }

  /** Dividing twice is dividing by the product. */
  lemma DivTwice(n: nat, a: nat, b: nat)
    requires a > 0 && b > 0
    ensures a * b > 0 && n / a / b == n / (a * b)
  {
    var q, r := n / a, n % a;
    var p, s := q / b, q % b;
    Regroup(n, a, b, q, r, p, s);
    Quotient(n, p, a * s + r, a * b);
  }

  lemma Regroup(n: nat, a: nat, b: nat, q: nat, r: nat, p: nat, s: nat)
    requires n == a * q + r && q == b * p + s && s < b && r < a
    ensures a * b > 0 && n == (a * b) * p + (a * s + r) && a * s + r < a * b
  {
    assert a * q == a * (b * p) + a * s;
    assert a * (b * p) == (a * b) * p;
    MulGrows(s + 1, b, a);
    assert (s + 1) * a == a * s + a && b * a == a * b;
  }

  lemma MulGrows(a: nat, b: nat, c: nat)
    requires a <= b
    ensures a * c <= b * c
  {
    assert b * c == a * c + (b - a) * c;
  }

  /** A number cut to a width in bits. */
  function Wrap(n: nat, bits: nat): nat {
    n % Pow2(bits)
  }

  lemma WrapAdd(a: nat, b: nat, bits: nat)
    ensures Wrap(Wrap(a, bits) + Wrap(b, bits), bits) == Wrap(a + b, bits)
  {
    AddWraps(a, b, Pow2(bits));
  }

  lemma WrapSmall(n: nat, bits: nat)
    requires n < Pow2(bits)
    ensures Wrap(n, bits) == n
  {
    SmallMod(n, Pow2(bits));
  }

  /** A sum that fits the narrower width is not cut at all. */
  lemma NoWrap(a: nat, b: nat, bits: nat, wide: nat)
    requires bits <= wide && a + b < Pow2(bits)
    ensures Wrap(a + Wrap(b, wide), bits) == a + b
  {
    hide Pow2, Wrap;
    Pow2Grows(bits, wide);
    WrapSmall(b, wide);
    WrapSmall(a + b, bits);
  }
}
