/**
 * Running means and centred products: what a value merged chunk by chunk has
 * to be, and that the update rule of the GGUF parity script keeps it so
 * (scripts/gguf_source_parity.py, `Metrics.add`).
 */
module RunningMoments {
  import opened Moments

  // The defining equations are kept under quantifiers over named counts and
  // sums, so that a proof instantiates them only at the sums it names; and the
  // names are tied to the vectors by recursive predicates, which the algebra
  // never has to unfold.

  /** x has n entries with sum s. */
  ghost predicate Sized(x: seq<real>, n: real, s: real) {
    if x == [] then n == 0.0 && s == 0.0 else Sized(x[..|x| - 1], n - 1.0, s - x[|x| - 1])
  }

  function Times(a: real, b: real): real {
    a * b
  }

  /** x and y have n entries, sums s and t, and inner product d. */
  ghost predicate Paired(x: seq<real>, y: seq<real>, n: real, s: real, t: real, d: real)
    requires |x| == |y|
  {
    if x == [] then n == 0.0 && s == 0.0 && t == 0.0 && d == 0.0
    else
      var k := |x| - 1;
      Paired(x[..k], y[..k], n - 1.0, s - x[k], t - y[k], d - Times(x[k], y[k]))
  }

  lemma {:induction false} SizedIs(x: seq<real>, n: real, s: real)
    ensures Sized(x, n, s) <==> n == |x| as real && s == Sum(x)
  {
    if x != [] {
      SizedIs(x[..|x| - 1], n - 1.0, s - x[|x| - 1]);
    }
  }

  lemma {:induction false} PairedIs(x: seq<real>, y: seq<real>, n: real, s: real, t: real, d: real)
    requires |x| == |y|
    ensures Paired(x, y, n, s, t, d) <==> n == |x| as real && s == Sum(x) && t == Sum(y) && d == Dot(x, y)
  {
    if x != [] {
      var k := |x| - 1;
      PairedIs(x[..k], y[..k], n - 1.0, s - x[k], t - y[k], d - Times(x[k], y[k]));
    }
  }

  lemma Names(x: seq<real>, y: seq<real>) returns (n: real, s: real, t: real, d: real)
    requires |x| == |y|
    ensures Paired(x, y, n, s, t, d) && Sized(x, n, s) && Sized(y, n, t) && n == |x| as real
  {
    n, s, t, d := |x| as real, Sum(x), Sum(y), Dot(x, y);
    PairedIs(x, y, n, s, t, d);
    SizedIs(x, n, s);
    SizedIs(y, n, t);
  }

  /** d is the inner product of x and y. */
  ghost predicate DotOf(x: seq<real>, y: seq<real>, d: real)
    requires |x| == |y|
  {
    if x == [] then d == 0.0
    else
      var k := |x| - 1;
      DotOf(x[..k], y[..k], d - Times(x[k], y[k]))
  }

  lemma {:induction false} DotOfIs(x: seq<real>, y: seq<real>, d: real)
    requires |x| == |y|
    ensures DotOf(x, y, d) <==> d == Dot(x, y)
  {
    if x != [] {
      var k := |x| - 1;
      DotOfIs(x[..k], y[..k], d - Times(x[k], y[k]));
    }
  }

  lemma DotOfAppend(x: seq<real>, y: seq<real>, c: real, u: seq<real>, v: seq<real>, d: real)
    requires |x| == |y| && |u| == |v| && DotOf(x, y, c) && d == Dot(u, v)
    ensures DotOf(x + u, y + v, c + d)
  {
    DotAppend(x, y, u, v);
    DotOfIs(x, y, c);
    DotOfIs(x + u, y + v, c + d);
  }

  /** a is the mean of x relative to the origin o. */
  ghost predicate MeanOf(x: seq<real>, o: real, a: real) {
    if x == [] then a == 0.0 else forall n, s :: Sized(x, n, s) ==> n * (a + o) == s
  }

  /** c is the centred product of x and y. */
  ghost predicate CentreOf(x: seq<real>, y: seq<real>, c: real)
    requires |x| == |y|
  {
    && (x == [] ==> c == 0.0)
    && forall n, s, t, d :: Paired(x, y, n, s, t, d) ==> n * c == n * d - s * t
  }

  /** The equations have one solution: the two-pass mean. */
  lemma MeanOfIs(x: seq<real>, o: real, a: real)
    requires x != [] && MeanOf(x, o, a)
    ensures a == Mean(x) - o
  {
    var n, s, m := |x| as real, Sum(x), Mean(x);
    SizedIs(x, n, s);
    MeanTimes(x, n, m, s);
    Cancel(n, a + o, m);
  }

  /** The equations have one solution: the two-pass centred product. */
  lemma CentreOfIs(x: seq<real>, y: seq<real>, c: real)
    requires |x| == |y| > 0 && CentreOf(x, y, c)
    ensures c == Centred(x, y)
  {
    CentredSolves(x, y, Centred(x, y));
    CentreUnique(x, y, c, Centred(x, y));
  }

  lemma CentredSolves(x: seq<real>, y: seq<real>, e: real)
    requires |x| == |y| > 0 && e == Centred(x, y)
    ensures CentreOf(x, y, e)
  {
    forall n, s, t, d | Paired(x, y, n, s, t, d) ensures n * e == n * d - s * t {
      PairedIs(x, y, n, s, t, d);
      CentredRaw(x, y, n, s, t, d, e);
    }
  }

  lemma CentreUnique(x: seq<real>, y: seq<real>, c: real, e: real)
    requires |x| == |y| > 0 && CentreOf(x, y, c) && CentreOf(x, y, e)
    ensures c == e
  {
    var n, s, t, d := Names(x, y);
    Cancel(n, c, e);
  }

  /** The chunk's own mean around the origin satisfies the equations. */
  lemma ChunkMean(u: seq<real>, o: real, a: real)
    requires u != [] && a == Mean(Shift(u, o))
    ensures MeanOf(u, o, a)
  {
    forall n, s | Sized(u, n, s) ensures n * (a + o) == s {
      SizedIs(u, n, s);
      var t := Sum(Shift(u, o));
      SumShift(u, o, n, s, t);
      MeanTimes(Shift(u, o), n, a, t);
    }
  }

  /** So do the products of the chunk's centred entries. */
  lemma ChunkCentre(u: seq<real>, v: seq<real>, o: real, p: real, a: real, b: real, c: real)
    requires |u| == |v| > 0 && MeanOf(u, o, a) && MeanOf(v, p, b)
    requires c == Dot(Shift(Shift(u, o), a), Shift(Shift(v, p), b))
    ensures CentreOf(u, v, c)
  {
    assert Shift(Shift(u, o), a) == Shift(u, a + o) && Shift(Shift(v, p), b) == Shift(v, b + p);
    MeanAbsolute(u, o, a);
    MeanAbsolute(v, p, b);
    forall n, s, t, d | Paired(u, v, n, s, t, d) ensures n * c == n * d - s * t {
      ChunkAt(u, v, a + o, b + p, n, s, t, d, c);
    }
  }

  lemma ChunkAt(u: seq<real>, v: seq<real>, a: real, b: real, n: real, s: real, t: real, d: real, c: real)
    requires |u| == |v| > 0 && Paired(u, v, n, s, t, d) && MeanOf(u, 0.0, a) && MeanOf(v, 0.0, b)
    requires c == Dot(Shift(u, a), Shift(v, b))
    ensures n * c == n * d - s * t
  {
    PairedSized(u, v, n, s, t, d);
    assert n * (a + 0.0) == s && n * (b + 0.0) == t;
    ChunkAlgebra(u, v, a, b, n, s, t, d, c);
  }

  lemma PairedSized(u: seq<real>, v: seq<real>, n: real, s: real, t: real, d: real)
    requires |u| == |v| && Paired(u, v, n, s, t, d)
    ensures Sized(u, n, s) && Sized(v, n, t)
  {
    PairedIs(u, v, n, s, t, d);
    SizedIs(u, n, s);
    SizedIs(v, n, t);
  }

  lemma ChunkAlgebra(u: seq<real>, v: seq<real>, a: real, b: real, n: real, s: real, t: real, d: real, c: real)
    requires |u| == |v| && Paired(u, v, n, s, t, d) && n * a == s && n * b == t
    requires c == Dot(Shift(u, a), Shift(v, b))
    ensures n * c == n * d - s * t
  {
    PairedIs(u, v, n, s, t, d);
    DotShift(u, v, a, b, n, s, t, d, c);
    RawAlgebra(n, a, b, s, t, d, c);
  }

  /** The merged mean, as the script updates it. */
  lemma MergedMean(x: seq<real>, u: seq<real>, o: real, a: real, b: real, n: real, m: real, r: real)
    requires u != [] && MeanOf(x, o, a) && MeanOf(u, o, b) && n == |x| as real && m == |u| as real
    requires r == a + (b - a) * m / (n + m)
    ensures MeanOf(x + u, o, r)
  {
    if x == [] {
      assert x + u == u;
      assert r == b;
    } else {
      forall k, s | Sized(x + u, k, s) ensures k * (r + o) == s {
        var _, sx, _, d1 := Names(x, x);
        var _, su, _, d2 := Names(u, u);
        SizedTotal(x, u, n, sx, m, su, k, s);
        MeanAlgebra(n, m, a, b, r);
        assert (n + m) * (r + o) == n * (a + o) + m * (b + o);
      }
    }
  }

  lemma MeanAbsolute(x: seq<real>, o: real, a: real)
    requires x != [] && MeanOf(x, o, a)
    ensures MeanOf(x, 0.0, a + o)
  {
    forall n, s | Sized(x, n, s) ensures n * (a + o + 0.0) == s {
      assert a + o + 0.0 == a + o;
    }
  }

  lemma SizedTotal(x: seq<real>, u: seq<real>, n: real, sx: real, m: real, su: real, k: real, s: real)
    requires Sized(x, n, sx) && Sized(u, m, su) && Sized(x + u, k, s)
    ensures k == n + m && s == sx + su
  {
    SumAppend(x, u);
    SizedIs(x, n, sx);
    SizedIs(u, m, su);
    SizedIs(x + u, k, s);
  }

  /** The merged centred product, as the script updates it. */
  lemma MergedCentre(x: seq<real>, y: seq<real>, u: seq<real>, v: seq<real>, o: real, p: real, a: real, b: real,
                     c: real, a': real, b': real, c': real, n: real, m: real, w: real, f: real, g: real, r: real)
    requires |x| == |y| && |u| == |v| > 0 && n == |x| as real && m == |u| as real
    requires MeanOf(x, o, a) && MeanOf(y, p, b) && CentreOf(x, y, c)
    requires MeanOf(u, o, a') && MeanOf(v, p, b') && CentreOf(u, v, c')
    requires w * (n + m) == n * m && f == a' - a && g == b' - b && r == c + (c' + f * g * w)
    ensures CentreOf(x + u, y + v, r)
  {
    if x == [] {
      assert x + u == u && y + v == v;
      NothingYet(m, w, f, g, c', r);
    } else {
      forall k, s, t, d | Paired(x + u, y + v, k, s, t, d) ensures k * r == k * d - s * t {
        MergedAt(x, y, u, v, a + o, b + p, c, a' + o, b' + p, c', n, m, w, f, g, r, k, s, t, d) by {
          MeanAbsolute(x, o, a);
          MeanAbsolute(y, p, b);
          MeanAbsolute(u, o, a');
          MeanAbsolute(v, p, b');
        }
      }
    }
  }

  lemma MergedAt(x: seq<real>, y: seq<real>, u: seq<real>, v: seq<real>, x0: real, y0: real, c: real, u0: real,
                 v0: real,
                 c': real, n: real, m: real, w: real, f: real, g: real, r: real, k: real, s: real, t: real, d: real)
    requires |x| == |y| > 0 && |u| == |v| > 0 && n == |x| as real && m == |u| as real
    requires MeanOf(x, 0.0, x0) && MeanOf(y, 0.0, y0) && CentreOf(x, y, c)
    requires MeanOf(u, 0.0, u0) && MeanOf(v, 0.0, v0) && CentreOf(u, v, c')
    requires w * (n + m) == n * m && f == u0 - x0 && g == v0 - y0 && r == c + (c' + f * g * w)
    requires Paired(x + u, y + v, k, s, t, d)
    ensures k * r == k * d - s * t
  {
    var _, sx, sy, d1 := Names(x, y);
    var _, su, sv, d2 := Names(u, v);
    PairedTotal(x, y, u, v, n, sx, sy, d1, m, su, sv, d2, k, s, t, d);
    MergeAlgebra(n, m, x0, y0, u0, v0, w, d1, d2, c, c', sx, sy, su, sv, f, g, r, k, s, t, d);
  }

  lemma NothingYet(m: real, w: real, f: real, g: real, c: real, r: real)
    requires m > 0.0 && w * (0.0 + m) == 0.0 * m && r == 0.0 + (c + f * g * w)
    ensures r == c
  {
    Cancel(m, w, 0.0);
  }

  lemma PairedTotal(x: seq<real>, y: seq<real>, u: seq<real>, v: seq<real>, n: real, sx: real, sy: real, d1: real,
                    m: real, su: real, sv: real, d2: real, k: real, s: real, t: real, d: real)
    requires |x| == |y| && |u| == |v| && Paired(x, y, n, sx, sy, d1) && Paired(u, v, m, su, sv, d2)
    requires Paired(x + u, y + v, k, s, t, d)
    ensures k == n + m && s == sx + su && t == sy + sv && d == d1 + d2
  {
    SumAppend(x, u);
    SumAppend(y, v);
    DotAppend(x, y, u, v);
    PairedIs(x, y, n, sx, sy, d1);
    PairedIs(u, v, m, su, sv, d2);
    PairedIs(x + u, y + v, k, s, t, d);
  }

  lemma Divided(a: real, b: real, q: real)
    requires b != 0.0 && q == a / b
    ensures q * b == a
  {
  }
}
