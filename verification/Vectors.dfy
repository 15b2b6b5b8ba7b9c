/** Embedding vectors: their stored bytes and their cosine similarity. */
module Vectors {
  import opened Wrappers
  import opened CacheLibrary

  // ── stored vectors ───────────────────────────────────────────────

  /** Least significant byte first. */
  function WordBytes(w: Word): (b: seq<Byte>)
    ensures |b| == 4
  {
    [w % 0x100, w / 0x100 % 0x100, w / 0x100 / 0x100 % 0x100, w / 0x100 / 0x100 / 0x100]
  }

  function WordOf(b: seq<Byte>): Word
    requires |b| == 4
  {
    var b0: int, b1: int, b2: int, b3: int := b[0], b[1], b[2], b[3];
    b0 + 0x100 * (b1 + 0x100 * (b2 + 0x100 * b3))
  }

  /** Little-endian float32 words. */
  function Pack(vector: seq<Word>): seq<Byte> {
    if vector == [] then [] else WordBytes(vector[0]) + Pack(vector[1..])
  }

  /** `struct.unpack` refuses a blob that is not a whole number of words. */
  function Unpack(blob: seq<Byte>): Option<seq<Word>> {
    if blob == [] then Some([])
    else if |blob| < 4 then None
    else
      match Unpack(blob[4..])
      case None => None
      case Some(rest) => Some([WordOf(blob[..4])] + rest)
  }

  lemma {:induction false} WordRoundTrip(w: Word)
    ensures WordOf(WordBytes(w)) == w
  {
  }

  lemma {:induction false} ShiftByte(low: int, high: int)
    requires 0 <= low < 0x100
    ensures (low + 0x100 * high) / 0x100 == high && (low + 0x100 * high) % 0x100 == low
  {
  }

  lemma {:induction false} BytesRoundTrip(b: seq<Byte>)
    requires |b| == 4
    ensures WordBytes(WordOf(b)) == b
  {
    var b0: int, b1: int, b2: int, b3: int := b[0], b[1], b[2], b[3];
    ShiftByte(b0, b1 + 0x100 * (b2 + 0x100 * b3));
    ShiftByte(b1, b2 + 0x100 * b3);
    ShiftByte(b2, b3);
  }

  /** Packing loses nothing and takes four bytes a word. */
  lemma {:induction false} UnpackPack(vector: seq<Word>)
    ensures Unpack(Pack(vector)) == Some(vector) && |Pack(vector)| == 4 * |vector|
    decreases |vector|
  {
    if vector != [] {
      var blob := Pack(vector);
      UnpackPack(vector[1..]);
      WordRoundTrip(vector[0]);
      assert blob[..4] == WordBytes(vector[0]) && blob[4..] == Pack(vector[1..]);
      assert [vector[0]] + vector[1..] == vector;
    }
  }

  /** Unpacking answers exactly the blobs that packing makes. */
  lemma {:induction false} PackUnpack(blob: seq<Byte>)
    ensures Unpack(blob).Some? <==> |blob| % 4 == 0
    ensures Unpack(blob).Some? ==> Pack(Unpack(blob).value) == blob
    decreases |blob|
  {
    if |blob| >= 4 {
      PackUnpack(blob[4..]);
      if Unpack(blob[4..]).Some? {
        var v := Unpack(blob).value;
        BytesRoundTrip(blob[..4]);
        assert v[1..] == Unpack(blob[4..]).value;
        assert blob == blob[..4] + blob[4..];
      }
    }
  }

  // ── similarity ───────────────────────────────────────────────────

  function Dot(a: seq<real>, b: seq<real>): real
    requires |a| == |b|
  {
    if a == [] then 0.0 else Dot(a[..|a| - 1], b[..|b| - 1]) + a[|a| - 1] * b[|b| - 1]
  }

  /** 0.0 when either vector has no direction. */
  function Ratio(dot: real, na: real, nb: real): real {
    if na == 0.0 || nb == 0.0 then 0.0 else dot / (na * nb)
  }

  function Cosine(lib: Library, a: seq<real>, b: seq<real>): real {
    if |a| != |b| then 0.0 else Ratio(Dot(a, b), lib.sqrt(Dot(a, a)), lib.sqrt(Dot(b, b)))
  }

  lemma {:induction false} DotSelfNonNegative(a: seq<real>)
    ensures Dot(a, a) >= 0.0
  {
    if a != [] {
      DotSelfNonNegative(a[..|a| - 1]);
    }
  }

  lemma {:induction false} DotCommutes(a: seq<real>, b: seq<real>)
    requires |a| == |b|
    ensures Dot(a, b) == Dot(b, a)
  {
    if a != [] {
      DotCommutes(a[..|a| - 1], b[..|b| - 1]);
    }
  }

  lemma {:induction false} SquareGrows(p: real, q: real)
    requires 0.0 <= p < q
    ensures p * p < q * q
  {
    var d := q - p;
    assert d * d > 0.0 && p * d >= 0.0;
    assert q * q == p * p + 2.0 * (p * d) + d * d;
  }

  lemma {:induction false} SquaresOrder(p: real, q: real)
    requires p >= 0.0 && q * q <= p * p
    ensures -p <= q <= p
  {
    if q > p {
      SquareGrows(p, q);
    } else if -q > p {
      SquareGrows(p, -q);
    }
  }

  lemma {:induction false} MeansOrder(u: real, v: real)
    ensures (u + v) * (u + v) >= 4.0 * (u * v)
  {
    assert (u - v) * (u - v) >= 0.0;
  }

  lemma {:induction false} SquareOfProduct(d: real, t: real)
    ensures (d * t) * (d * t) == (d * d) * (t * t)
  {
  }

  lemma {:induction false} ProductsRegroup(na: real, nb: real, x: real, y: real)
    ensures (na * (y * y)) * (nb * (x * x)) == (na * nb) * ((x * y) * (x * y))
  {
    SquareOfProduct(x, y);
    assert (na * (y * y)) * (nb * (x * x)) == (na * nb) * ((x * x) * (y * y));
  }

  lemma {:induction false} ProductsOrder(d: real, n: real, m: real)
    requires d <= n && m >= 0.0
    ensures d * m <= n * m
  {
  }

  lemma {:induction false} CauchyStep(d: real, na: real, nb: real, x: real, y: real)
    requires na >= 0.0 && nb >= 0.0 && d * d <= na * nb
    ensures (d + x * y) * (d + x * y) <= (na + x * x) * (nb + y * y)
  {
    var t := x * y;
    var u, v := na * (y * y), nb * (x * x);
    assert t * t >= 0.0 && u >= 0.0 && v >= 0.0;
    ProductsRegroup(na, nb, x, y);
    ProductsOrder(d * d, na * nb, t * t);
    SquareOfProduct(d, t);
    MeansOrder(u, v);
    SquareOfProduct(2.0, d * t);
    SquaresOrder(u + v, 2.0 * (d * t));
    SquareOfProduct(x, y);
    CauchyExpanded(d, na, nb, x, y);
  }

  lemma {:induction false} CauchyExpanded(d: real, na: real, nb: real, x: real, y: real)
    ensures (d + x * y) * (d + x * y) == d * d + 2.0 * (d * (x * y)) + (x * y) * (x * y)
    ensures (na + x * x) * (nb + y * y) == na * nb + (na * (y * y) + nb * (x * x)) + (x * x) * (y * y)
  {
  }

  /** Cauchy-Schwarz. */
  lemma {:induction false} CauchySchwarz(a: seq<real>, b: seq<real>)
    requires |a| == |b|
    ensures Dot(a, b) * Dot(a, b) <= Dot(a, a) * Dot(b, b)
  {
    if a != [] {
      var n := |a| - 1;
      CauchySchwarz(a[..n], b[..n]);
      DotSelfNonNegative(a[..n]);
      DotSelfNonNegative(b[..n]);
      DotLast(a, b);
      DotLast(a, a);
      DotLast(b, b);
      hide Dot;
      CauchyStep(Dot(a[..n], b[..n]), Dot(a[..n], a[..n]), Dot(b[..n], b[..n]), a[n], b[n]);
    }
  }

  lemma {:induction false} ProductPositive(x: real, y: real)
    requires x > 0.0 && y > 0.0
    ensures x * y > 0.0
  {
  }

  lemma {:induction false} QuotientBounds(d: real, n: real)
    requires n > 0.0 && -n <= d <= n
    ensures -1.0 <= d / n <= 1.0
  {
    var q := d / n;
    assert q * n == d;
    if q > 1.0 {
      ProductPositive(q - 1.0, n);
    } else if q < -1.0 {
      ProductPositive(-1.0 - q, n);
    }
  }

  lemma {:induction false} RatioBounds(d: real, na: real, nb: real)
    requires na >= 0.0 && nb >= 0.0 && d * d <= (na * na) * (nb * nb)
    ensures -1.0 <= Ratio(d, na, nb) <= 1.0
  {
    if na != 0.0 && nb != 0.0 {
      var n := na * nb;
      ProductPositive(na, nb);
      assert n * n == (na * na) * (nb * nb);
      SquaresOrder(n, d);
      QuotientBounds(d, n);
    }
  }

  lemma {:induction false} RatioCommutes(d: real, na: real, nb: real)
    ensures Ratio(d, na, nb) == Ratio(d, nb, na)
  {
    assert na * nb == nb * na;
  }

  /** The similarity of any two vectors is in [-1, 1] and does not depend on their order. */
  lemma {:induction false} CosineIsBoundedAndSymmetric(lib: Library, a: seq<real>, b: seq<real>)
    requires Roots(lib)
    ensures -1.0 <= Cosine(lib, a, b) <= 1.0
    ensures Cosine(lib, a, b) == Cosine(lib, b, a)
  {
    if |a| == |b| {
      DotCommutes(a, b);
      CauchySchwarz(a, b);
      Norm(lib, a);
      Norm(lib, b);
      hide Dot, Ratio, Roots;
      RatioBounds(Dot(a, b), lib.sqrt(Dot(a, a)), lib.sqrt(Dot(b, b)));
      RatioCommutes(Dot(a, b), lib.sqrt(Dot(a, a)), lib.sqrt(Dot(b, b)));
    }
  }

  function Scale(c: real, a: seq<real>): (r: seq<real>)
    ensures |r| == |a|
  {
    if a == [] then [] else Scale(c, a[..|a| - 1]) + [c * a[|a| - 1]]
  }

  function Mul(x: real, y: real): real { x * y }

  lemma {:induction false} ScaleTerm(c: real, cd: real, d: real, cx: real, x: real, y: real)
    requires cd == Mul(c, d) && cx == Mul(c, x)
    ensures cd + Mul(cx, y) == Mul(c, d + Mul(x, y))
  {
  }

  lemma {:induction false} ScaleLast(c: real, a: seq<real>)
    requires a != []
    ensures Scale(c, a)[..|a| - 1] == Scale(c, a[..|a| - 1]) && Scale(c, a)[|a| - 1] == Mul(c, a[|a| - 1])
  {
    var front := Scale(c, a[..|a| - 1]);
    assert Scale(c, a) == front + [c * a[|a| - 1]];
  }

  lemma {:induction false} DotLast(a: seq<real>, b: seq<real>)
    requires |a| == |b| > 0
    ensures Dot(a, b) == Dot(a[..|a| - 1], b[..|b| - 1]) + Mul(a[|a| - 1], b[|b| - 1])
  {
  }

  lemma {:induction false} DotScaled(c: real, a: seq<real>, b: seq<real>)
    requires |a| == |b|
    ensures Dot(Scale(c, a), b) == Mul(c, Dot(a, b))
  {
    if a != [] {
      hide Scale, Dot, Mul;
      var n, ca := |a| - 1, Scale(c, a);
      ScaleLast(c, a);
      DotScaled(c, a[..n], b[..n]);
      DotLast(a, b);
      DotLast(ca, b);
      ScaleTerm(c, Dot(ca[..n], b[..n]), Dot(a[..n], b[..n]), ca[n], a[n], b[n]);
    }
  }

  lemma {:induction false} DotScale(c: real, a: seq<real>, b: seq<real>)
    requires |a| == |b|
    ensures Dot(Scale(c, a), b) == c * Dot(a, b)
  {
    hide Scale, Dot;
    DotScaled(c, a, b);
  }

  lemma {:induction false} RootUnique(x: real, y: real)
    requires x >= 0.0 && y >= 0.0 && x * x == y * y
    ensures x == y
  {
    SquaresOrder(x, y);
    SquaresOrder(y, x);
  }

  lemma {:induction false} RatioScales(c: real, d: real, na: real, nb: real)
    requires c > 0.0 && na >= 0.0 && nb >= 0.0
    ensures Ratio(c * d, c * na, nb) == Ratio(d, na, nb)
  {
    if na != 0.0 && nb != 0.0 {
      var n := na * nb;
      ProductPositive(na, nb);
      ProductPositive(c, n);
      ProductPositive(c, na);
      assert c * na * nb == c * n;
      var q := d / n;
      assert q * n == d;
      assert q * (c * n) == c * d;
      assert (c * d) / (c * n) == q;
    }
  }

  lemma {:induction false} QuotientSelf(m: real)
    requires m > 0.0
    ensures m / m == 1.0
  {
  }

  lemma {:induction false} RatioSelf(d: real, n: real)
    requires n >= 0.0 && n * n == d
    ensures Ratio(d, n, n) == if n == 0.0 then 0.0 else 1.0
  {
    if n != 0.0 {
      SquareGrows(0.0, n);
      var square := n * n;
      QuotientSelf(square);
      assert Ratio(d, n, n) == square / square;
    }
  }

  lemma {:induction false} ScaledRoot(c: real, n: real, m: real, dd: real, d: real, f: real)
    requires c > 0.0 && n >= 0.0 && n * n == f && m >= 0.0 && m * m == dd && dd == c * d && d == c * f
    ensures m == c * n
  {
    assert (c * n) * (c * n) == c * (c * (n * n));
    RootUnique(m, c * n);
  }

  lemma {:induction false} ScaledNorm(lib: Library, c: real, a: seq<real>)
    requires Roots(lib) && c > 0.0
    ensures lib.sqrt(Dot(Scale(c, a), Scale(c, a))) == c * lib.sqrt(Dot(a, a))
  {
    hide Dot, Scale, Roots;
    var ca := Scale(c, a);
    DotScale(c, a, ca);
    DotScale(c, a, a);
    DotCommutes(a, ca);
    Norm(lib, a);
    Norm(lib, ca);
    ScaledRoot(c, lib.sqrt(Dot(a, a)), lib.sqrt(Dot(ca, ca)), Dot(ca, ca), Dot(a, ca), Dot(a, a));
  }

  lemma {:induction false} Norm(lib: Library, a: seq<real>)
    requires Roots(lib)
    ensures var n := lib.sqrt(Dot(a, a)); n >= 0.0 && n * n == Dot(a, a)
  {
    DotSelfNonNegative(a);
  }

  /** Only direction matters: a positive factor on either vector changes nothing. */
  lemma {:induction false} CosineIgnoresLength(lib: Library, c: real, a: seq<real>, b: seq<real>)
    requires Roots(lib) && c > 0.0
    ensures Cosine(lib, Scale(c, a), b) == Cosine(lib, a, b) == Cosine(lib, a, Scale(c, b))
  {
    ScaleLeft(lib, c, a, b);
    ScaleLeft(lib, c, b, a);
    CosineIsBoundedAndSymmetric(lib, a, b);
    CosineIsBoundedAndSymmetric(lib, Scale(c, b), a);
  }

  lemma {:induction false} ScaleLeft(lib: Library, c: real, a: seq<real>, b: seq<real>)
    requires Roots(lib) && c > 0.0
    ensures Cosine(lib, Scale(c, a), b) == Cosine(lib, a, b)
  {
    if |a| == |b| {
      Norm(lib, a);
      Norm(lib, b);
      ScaledNorm(lib, c, a);
      DotScale(c, a, b);
      hide Dot, Scale, Ratio, Roots;
      var ca := Scale(c, a);
      RatioOfScaled(c, Dot(a, b), lib.sqrt(Dot(a, a)), lib.sqrt(Dot(b, b)), Dot(ca, b), lib.sqrt(Dot(ca, ca)));
    }
  }

  lemma {:induction false} RatioOfScaled(c: real, d: real, na: real, nb: real, cd: real, cna: real)
    requires c > 0.0 && na >= 0.0 && nb >= 0.0 && cd == c * d && cna == c * na
    ensures Ratio(cd, cna, nb) == Ratio(d, na, nb)
  {
    hide Ratio;
    RatioScales(c, d, na, nb);
  }

  /** A vector with a direction has similarity 1 with itself. */
  lemma {:induction false} CosineOfSelf(lib: Library, a: seq<real>)
    requires Roots(lib)
    ensures Cosine(lib, a, a) == if lib.sqrt(Dot(a, a)) == 0.0 then 0.0 else 1.0
  {
    Norm(lib, a);
    hide Dot, Ratio, Roots;
    RatioSelf(Dot(a, a), lib.sqrt(Dot(a, a)));
  }
}
