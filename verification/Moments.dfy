/**
 * Sums, inner products and centred inner products of real vectors.
 *
 * Most lemmas take the sums they speak of as named parameters, tied to the
 * vectors by their requires: the algebra then stays over plain variables.
 */
module Moments {
  function Sum(x: seq<real>): real {
    if x == [] then 0.0 else Sum(x[..|x| - 1]) + x[|x| - 1]
  }

  /** The inner product of two vectors of one length. */
  function Dot(x: seq<real>, y: seq<real>): real
    requires |x| == |y|
  {
    if x == [] then 0.0 else Dot(x[..|x| - 1], y[..|y| - 1]) + x[|x| - 1] * y[|y| - 1]
  }

  function Shift(x: seq<real>, o: real): (r: seq<real>)
    ensures |r| == |x|
  {
    seq(|x|, i requires 0 <= i < |x| => x[i] - o)
  }

  function Minus(x: seq<real>, y: seq<real>): (r: seq<real>)
    requires |x| == |y|
    ensures |r| == |x|
  {
    seq(|x|, i requires 0 <= i < |x| => x[i] - y[i])
  }

  function Mean(x: seq<real>): real
    requires x != []
  {
    Sum(x) / |x| as real
  }

  /** The two-pass centred product: the sum of (x - mean x)(y - mean y). */
  function Centred(x: seq<real>, y: seq<real>): real
    requires |x| == |y| > 0
  {
    Dot(Shift(x, Mean(x)), Shift(y, Mean(y)))
  }

  lemma {:induction false} SumAppend(x: seq<real>, y: seq<real>)
    ensures Sum(x + y) == Sum(x) + Sum(y)
  {
    if y == [] {
      assert x + y == x;
    } else {
      assert (x + y)[..|x + y| - 1] == x + y[..|y| - 1];
      SumAppend(x, y[..|y| - 1]);
    }
  }

  lemma {:induction false} DotAppend(x: seq<real>, y: seq<real>, u: seq<real>, v: seq<real>)
    requires |x| == |y| && |u| == |v|
    ensures Dot(x + u, y + v) == Dot(x, y) + Dot(u, v)
  {
    if u == [] {
      assert x + u == x && y + v == y;
    } else {
      var n := |u| - 1;
      assert (x + u)[..|x + u| - 1] == x + u[..n] && (y + v)[..|y + v| - 1] == y + v[..n];
      DotAppend(x, y, u[..n], v[..n]);
    }
  }

  lemma {:induction false} DotSwap(x: seq<real>, y: seq<real>)
    requires |x| == |y|
    ensures Dot(x, y) == Dot(y, x)
  {
    if x != [] {
      DotSwap(x[..|x| - 1], y[..|y| - 1]);
    }
  }

  // ---- Shifting the origin ----

  lemma {:induction false} SumShift(x: seq<real>, o: real, n: real, s: real, r: real)
    requires n == |x| as real && s == Sum(x) && r == Sum(Shift(x, o))
    ensures r == s - n * o
  {
    if x != [] {
      var k := |x| - 1;
      assert Shift(x, o)[..k] == Shift(x[..k], o);
      SumShift(x[..k], o, n - 1.0, Sum(x[..k]), Sum(Shift(x[..k], o)));
    }
  }

  lemma {:induction false} DotMinus(x: seq<real>, z: seq<real>, y: seq<real>)
    requires |x| == |z| == |y|
    ensures Dot(Minus(x, z), y) == Dot(x, y) - Dot(z, y)
  {
    if x != [] {
      var k := |x| - 1;
      assert Minus(x, z)[..k] == Minus(x[..k], z[..k]);
      DotMinus(x[..k], z[..k], y[..k]);
      assert (x[k] - z[k]) * y[k] == x[k] * y[k] - z[k] * y[k];
    }
  }

  lemma {:induction false} DotConstant(z: seq<real>, y: seq<real>, u: real, s: real, d: real)
    requires |z| == |y| && (forall i :: 0 <= i < |z| ==> z[i] == u) && s == Sum(y) && d == Dot(z, y)
    ensures d == u * s
  {
    if y != [] {
      var k := |y| - 1;
      DotConstant(z[..k], y[..k], u, Sum(y[..k]), Dot(z[..k], y[..k]));
    }
  }

  lemma DotShiftLeft(x: seq<real>, y: seq<real>, u: real, s: real, d: real, c: real)
    requires |x| == |y| && s == Sum(y) && d == Dot(x, y) && c == Dot(Shift(x, u), y)
    ensures c == d - u * s
  {
    var z := seq(|x|, _ => u);
    assert Shift(x, u) == Minus(x, z);
    DotMinus(x, z, y);
    DotConstant(z, y, u, s, Dot(z, y));
  }

  lemma DotShiftRight(x: seq<real>, y: seq<real>, v: real, s: real, d: real, c: real)
    requires |x| == |y| && s == Sum(x) && d == Dot(x, y) && c == Dot(x, Shift(y, v))
    ensures c == d - v * s
  {
    DotSwap(x, y);
    DotSwap(x, Shift(y, v));
    DotShiftLeft(y, x, v, s, d, c);
  }

  lemma DotShift(x: seq<real>, y: seq<real>, u: real, v: real, n: real, sx: real, sy: real, d: real, c: real)
    requires |x| == |y| && n == |x| as real && sx == Sum(x) && sy == Sum(y) && d == Dot(x, y)
    requires c == Dot(Shift(x, u), Shift(y, v))
    ensures c == d - v * sx - u * sy + n * (u * v)
  {
    var w := Shift(y, v);
    var e, s := Dot(x, w), Sum(w);
    DotShiftLeft(x, w, u, s, e, c);
    DotShiftRight(x, y, v, sx, d, e);
    SumShift(y, v, n, sy, s);
    ShiftAlgebra(u, v, n, sx, sy, d, c, e, s);
  }

  lemma ShiftAlgebra(u: real, v: real, n: real, sx: real, sy: real, d: real, c: real, e: real, s: real)
    requires c == e - u * s && s == sy - n * v && e == d - v * sx
    ensures c == d - v * sx - u * sy + n * (u * v)
  {
  }

  lemma MeanTimes(x: seq<real>, n: real, m: real, s: real)
    requires x != [] && n == |x| as real && m == Mean(x) && s == Sum(x)
    ensures n * m == s
  {
  }

  /** Centred products from the raw ones: scaled by the count there is no division. */
  lemma CentredRaw(x: seq<real>, y: seq<real>, n: real, sx: real, sy: real, d: real, c: real)
    requires |x| == |y| > 0 && n == |x| as real && sx == Sum(x) && sy == Sum(y)
    requires d == Dot(x, y) && c == Centred(x, y)
    ensures n * c == n * d - sx * sy
  {
    var u, v := Mean(x), Mean(y);
    MeanTimes(x, n, u, sx);
    MeanTimes(y, n, v, sy);
    DotShift(x, y, u, v, n, sx, sy, d, c);
    RawAlgebra(n, u, v, sx, sy, d, c);
  }

  lemma RawAlgebra(n: real, u: real, v: real, sx: real, sy: real, d: real, c: real)
    requires n * u == sx && n * v == sy && c == d - v * sx - u * sy + n * (u * v)
    ensures n * c == n * d - sx * sy
  {
    assert n * c == n * d - (n * v) * sx - (n * u) * sy + (n * u) * (n * v);
  }

  // ---- Merging two parts ----

  /** The merged mean, scaled by the count. */
  lemma MeanAlgebra(n: real, m: real, a: real, b: real, r: real)
    requires n > 0.0 && m > 0.0 && r == a + (b - a) * m / (n + m)
    ensures (n + m) * r == n * a + m * b
  {
    var q := (b - a) * m / (n + m);
    assert (n + m) * q == (b - a) * m;
    assert (n + m) * r == (n + m) * a + (n + m) * q;
  }

  /** The merge rule for centred products, both parts and the whole scaled by their counts. */
  lemma MergeAlgebra(n: real, m: real, x: real, y: real, u: real, v: real, w: real, p: real, q: real, c: real, d: real,
                     sx: real, sy: real, su: real, sv: real, f: real, g: real, r: real,
                     k: real, s: real, t: real, e: real)
    requires n > 0.0 && m > 0.0 && w * (n + m) == n * m
    requires n * x == sx && n * y == sy && m * u == su && m * v == sv
    requires n * c == n * p - sx * sy && m * d == m * q - su * sv
    requires f == u - x && g == v - y && r == c + (d + f * g * w)
    requires k == n + m && s == sx + su && t == sy + sv && e == p + q
    ensures k * r == k * e - s * t
  {
    PartAlgebra(n, x, y, sx, sy, p, c);
    PartAlgebra(m, u, v, su, sv, q, d);
    WeightAlgebra(n, m, x, y, u, v, e, w);
    assert r == e - n * (x * y) - m * (u * v) + (u - x) * (v - y) * w;
    assert k * r == (n + m) * r && k * e == (n + m) * e;
    assert s * t == (n * x + m * u) * (n * y + m * v);
  }

  lemma PartAlgebra(n: real, x: real, y: real, sx: real, sy: real, p: real, c: real)
    requires n > 0.0 && n * x == sx && n * y == sy && n * c == n * p - sx * sy
    ensures c == p - n * (x * y)
  {
    assert sx * sy == n * (n * (x * y));
    Cancel(n, c, p - n * (x * y));
  }

  lemma WeightAlgebra(n: real, m: real, x: real, y: real, u: real, v: real, t: real, w: real)
    requires w * (n + m) == n * m
    ensures (n + m) * (t - n * (x * y) - m * (u * v) + (u - x) * (v - y) * w)
         == (n + m) * t - (n * x + m * u) * (n * y + m * v)
  {
    var k := (u - x) * (v - y);
    assert (n + m) * (k * w) == k * (n * m);
    assert k == u * v - u * y - x * v + x * y;
    Expansion(n, m, x, y, u, v);
  }

  lemma Expansion(n: real, m: real, x: real, y: real, u: real, v: real)
    ensures (n + m) * (n * (x * y) + m * (u * v)) - (u * v - u * y - x * v + x * y) * (n * m)
         == (n * x + m * u) * (n * y + m * v)
  {
    var xy, uv, uy, xv := x * y, u * v, u * y, x * v;
    assert (n * x + m * u) * (n * y + m * v) == n * n * xy + n * m * xv + m * n * uy + m * m * uv;
    assert (n + m) * (n * xy + m * uv) == n * n * xy + n * m * uv + m * n * xy + m * m * uv;
    assert (uv - uy - xv + xy) * (n * m) == n * m * uv - n * m * uy - n * m * xv + n * m * xy;
  }

  lemma Cancel(k: real, a: real, b: real)
    requires k != 0.0 && k * a == k * b
    ensures a == b
  {
    assert k * (a - b) == 0.0;
  }

  // ---- Cauchy-Schwarz ----

  lemma {:induction false} DotSelf(x: seq<real>)
    ensures Dot(x, x) >= 0.0
  {
    if x != [] {
      DotSelf(x[..|x| - 1]);
      Square(x[|x| - 1]);
    }
  }

  lemma Square(a: real)
    ensures a * a >= 0.0
  {
  }

  lemma {:induction false} CauchySchwarz(x: seq<real>, y: seq<real>, s: real, a: real, b: real)
    requires |x| == |y| && s == Dot(x, y) && a == Dot(x, x) && b == Dot(y, y)
    ensures s * s <= a * b
  {
    if x != [] {
      var n := |x| - 1;
      var s', a', b' := Dot(x[..n], y[..n]), Dot(x[..n], x[..n]), Dot(y[..n], y[..n]);
      CauchySchwarz(x[..n], y[..n], s', a', b');
      DotSelf(x[..n]);
      DotSelf(y[..n]);
      CauchyStep(s', a', b', x[n], y[n]);
    }
  }

  lemma CauchyStep(s: real, a: real, b: real, x: real, y: real)
    requires s * s <= a * b && a >= 0.0 && b >= 0.0
    ensures (s + x * y) * (s + x * y) <= (a + x * x) * (b + y * y)
  {
    Middle(s, a, b, x, y);
    var xy := x * y;
    assert (s + xy) * (s + xy) == s * s + 2.0 * (s * xy) + xy * xy;
    assert (a + x * x) * (b + y * y) == a * b + a * (y * y) + b * (x * x) + (x * x) * (y * y);
    assert (x * x) * (y * y) == xy * xy;
  }

  /** 2 s x y <= a y^2 + b x^2, by squaring both sides. */
  lemma Middle(s: real, a: real, b: real, x: real, y: real)
    requires s * s <= a * b && a >= 0.0 && b >= 0.0
    ensures 2.0 * (s * (x * y)) <= a * (y * y) + b * (x * x)
  {
    Square(x);
    Square(y);
    var p, q := a * (y * y), b * (x * x);
    var t := x * y;
    Scale(0.0, a, y * y);
    Scale(0.0, b, x * x);
    Square(t);
    Square(p - q);
    assert (p + q) * (p + q) == (p - q) * (p - q) + 4.0 * (p * q);
    assert p * q == (a * b) * (t * t);
    Scale(s * s, a * b, t * t);
    assert (2.0 * (s * t)) * (2.0 * (s * t)) == 4.0 * ((s * s) * (t * t));
    Root(2.0 * (s * t), p + q);
  }

  lemma Scale(a: real, b: real, k: real)
    requires a <= b && k >= 0.0
    ensures a * k <= b * k
  {
  }

  /** Squares are ordered like magnitudes. */
  lemma Root(q: real, p: real)
    requires q * q <= p * p && p >= 0.0
    ensures -p <= q <= p
  {
    if q > p {
      Bigger(q, p);
    }
    if -q > p {
      Bigger(-q, p);
    }
  }

  lemma Bigger(q: real, p: real)
    requires q > p >= 0.0
    ensures q * q > p * p
  {
    assert q * (q - p) > 0.0;
    assert p * (q - p) >= 0.0;
    assert q * q - p * p == q * (q - p) + p * (q - p);
  }
}
