/**
 * The streamed comparison statistics of the GGUF parity script
 * (scripts/gguf_source_parity.py), over exact reals: pairs arrive in chunks,
 * each chunk is reduced around a shifted origin and merged into running
 * moments.  Whatever the cut and the origin, the running values are the
 * two-pass values of all finite pairs seen.
 */
module Metrics {
  import opened Wrappers
  import opened Moments
  import opened RunningMoments

  /** A floating-point value: finite, or an infinity or NaN. */
  datatype Num = Finite(value: real) | NonFinite

  // ---- The pairs that count ----

  predicate BothFinite(a: Num, b: Num) {
    a.Finite? && b.Finite?
  }

  /** The first values of the pairs that are finite on both sides. */
  function Kept(a: seq<Num>, b: seq<Num>): (r: seq<real>)
    requires |a| == |b|
    ensures |r| <= |a|
  {
    if a == [] then []
    else
      var n := |a| - 1;
      Kept(a[..n], b[..n]) + (if BothFinite(a[n], b[n]) then [a[n].value] else [])
  }

  lemma {:induction false} KeptAlign(a: seq<Num>, b: seq<Num>)
    requires |a| == |b|
    ensures |Kept(a, b)| == |Kept(b, a)|
  {
    if a != [] {
      KeptAlign(a[..|a| - 1], b[..|b| - 1]);
    }
  }

  lemma {:induction false} KeptAppend(a: seq<Num>, b: seq<Num>, c: seq<Num>, d: seq<Num>)
    requires |a| == |b| && |c| == |d|
    ensures Kept(a + c, b + d) == Kept(a, b) + Kept(c, d)
  {
    if c == [] {
      assert a + c == a && b + d == b;
    } else {
      var n := |c| - 1;
      assert (a + c)[..|a + c| - 1] == a + c[..n] && (b + d)[..|b + d| - 1] == b + d[..n];
      KeptAppend(a, b, c[..n], d[..n]);
    }
  }

  // ---- The largest difference ----

  function Abs(r: real): real {
    if r < 0.0 then -r else r
  }

  function Max(a: real, b: real): real {
    if a < b then b else a
  }

  function MaxAbs(d: seq<real>): (r: real)
    ensures r >= 0.0
  {
    if d == [] then 0.0 else Max(MaxAbs(d[..|d| - 1]), Abs(d[|d| - 1]))
  }

  lemma {:induction false} MaxAbsAppend(d: seq<real>, e: seq<real>)
    ensures MaxAbs(d + e) == Max(MaxAbs(d), MaxAbs(e))
  {
    if e == [] {
      assert d + e == d;
    } else {
      assert (d + e)[..|d + e| - 1] == d + e[..|e| - 1];
      MaxAbsAppend(d, e[..|e| - 1]);
    }
  }

  /** The recorded maximum bounds every difference and is attained. */
  lemma {:induction false} MaxAbsIsMax(d: seq<real>)
    ensures forall i :: 0 <= i < |d| ==> Abs(d[i]) <= MaxAbs(d)
    ensures d != [] ==> exists i :: 0 <= i < |d| && Abs(d[i]) == MaxAbs(d)
  {
    if d != [] {
      var n := |d| - 1;
      MaxAbsIsMax(d[..n]);
      if n == 0 {
        assert d[..n] == [];
        assert Abs(d[0]) == MaxAbs(d);
      } else if MaxAbs(d) == Abs(d[n]) {
        assert Abs(d[n]) == MaxAbs(d);
      } else {
        var i :| 0 <= i < n && Abs(d[..n][i]) == MaxAbs(d[..n]);
        assert Abs(d[i]) == MaxAbs(d);
      }
    }
  }

  /** The squared error is at most that of a constant difference of the maximum. */
  lemma {:induction false} SquaresBound(d: seq<real>, n: real, m: real, mm: real, s: real)
    requires n == |d| as real && MaxAbs(d) <= m && mm == m * m && s == Dot(d, d)
    ensures s <= n * mm
  {
    if d != [] {
      var k := |d| - 1;
      var s' := Dot(d[..k], d[..k]);
      SquaresBound(d[..k], n - 1.0, m, mm, s');
      SquareBound(d[k], m);
      assert n * mm == (n - 1.0) * mm + mm;
    }
  }

  lemma SquareBound(a: real, m: real)
    requires Abs(a) <= m
    ensures a * a <= m * m
  {
    var b := Abs(a);
    assert a * a == b * b;
    Scale(b, m, b);
    Scale(b, m, m);
  }

  // ---- The accumulator ----

  datatype Summary = Summary(finitePairs: nat, nonfinitePairs: nat, rmse: Option<real>, maxAbs: Option<real>,
                             relativeL2: Option<real>, cosine: Option<real>, pearson: Option<real>)

  function Ratio(numerator: real, denominator: real): Option<real> {
    if denominator > 0.0 then Some(numerator / denominator) else None
  }

  ghost predicate IsRoot(sqrt: real -> real) {
    forall z :: z >= 0.0 ==> sqrt(z) >= 0.0 && sqrt(z) * sqrt(z) == z
  }

  /** The ratio of s to the root of a b exists exactly when that is positive, and lies in [-1, 1]. */
  ghost predicate IsCosine(r: Option<real>, sqrt: real -> real, s: real, a: real, b: real) {
    && (r.Some? <==> a * b > 0.0)
    && (r.Some? ==> -1.0 <= r.value <= 1.0 && r.value * sqrt(a * b) == s)
  }

  ghost predicate IsRelative(r: Option<real>, a: real, b: real) {
    && (r.Some? <==> b > 0.0)
    && (r.Some? ==> r.value >= 0.0 && r.value * r.value * b == a)
  }

  ghost predicate IsRmse(r: Option<real>, n: real, m: real, e: real) {
    && (r.Some? <==> n > 0.0)
    && (r.Some? ==> 0.0 <= r.value <= m && r.value * r.value * n == e)
  }

  method Rmse(sqrt: real -> real, ghost d: seq<real>, count: nat, m: real, e: real) returns (r: Option<real>)
    requires IsRoot(sqrt) && |d| == count && m == MaxAbs(d) && DotOf(d, d, e)
    ensures IsRmse(r, count as real, m, e)
  {
    if count == 0 {
      return None;
    }
    var q := e / count as real;
    r := Some(sqrt(q));
    DotOfIs(d, d, e);
    RmseBound(d, count as real, m, e, q, sqrt(q));
  }

  method Cosine(sqrt: real -> real, s: real, a: real, b: real) returns (r: Option<real>)
    requires IsRoot(sqrt) && a >= 0.0 && b >= 0.0 && s * s <= a * b
    ensures r == Ratio(s, sqrt(a * b)) && IsCosine(r, sqrt, s, a, b)
  {
    Scale(0.0, a, b);
    var t := sqrt(a * b);
    Root(s, t);
    r := Ratio(s, t);
    Positive(t, a * b);
    if t > 0.0 {
      Quotient(s, t, s / t);
    }
  }

  method Relative(sqrt: real -> real, ghost d: seq<real>, a: real, b: real) returns (r: Option<real>)
    requires IsRoot(sqrt) && DotOf(d, d, a) && b >= 0.0
    ensures r == Ratio(sqrt(a), sqrt(b)) && IsRelative(r, a, b)
  {
    DotOfIs(d, d, a);
    DotSelf(d);
    var s, t := sqrt(a), sqrt(b);
    Positive(t, b);
    r := Ratio(s, t);
    if t > 0.0 {
      SquaredQuotient(s, t, s / t, a, b);
    }
  }

  lemma Positive(t: real, z: real)
    requires t >= 0.0 && t * t == z
    ensures t > 0.0 <==> z > 0.0
  {
    if t > 0.0 {
      Bigger(t, 0.0);
    } else {
      assert t == 0.0;
    }
  }

  lemma Quotient(s: real, r: real, q: real)
    requires r > 0.0 && -r <= s <= r && q == s / r
    ensures -1.0 <= q <= 1.0
  {
    Divided(s, r, q);
  }

  lemma SquaredQuotient(s: real, t: real, q: real, a: real, b: real)
    requires t > 0.0 && q == s / t && s * s == a && t * t == b
    ensures q * q * b == a
  {
    Divided(s, t, q);
    assert q * q * (t * t) == (q * t) * (q * t);
  }

  lemma RmseBound(d: seq<real>, n: real, m: real, e: real, q: real, r: real)
    requires d != [] && n == |d| as real && m == MaxAbs(d) && e == Dot(d, d) && q == e / n
    requires q >= 0.0 ==> r >= 0.0 && r * r == q
    ensures IsRmse(Some(r), n, m, e)
  {
    DotSelf(d);
    var mm := m * m;
    SquaresBound(d, n, m, mm, e);
    RmseAlgebra(r, n, m, mm, e, q);
  }

  lemma RmseAlgebra(r: real, n: real, m: real, mm: real, e: real, q: real)
    requires n > 0.0 && m >= 0.0 && mm == m * m && 0.0 <= e <= n * mm && q == e / n
    requires q >= 0.0 ==> r >= 0.0 && r * r == q
    ensures IsRmse(Some(r), n, m, e)
  {
    QuotientBound(e, n, mm, q);
    Root(r, m);
  }

  lemma QuotientBound(e: real, n: real, b: real, q: real)
    requires n > 0.0 && 0.0 <= e <= n * b && q == e / n
    ensures 0.0 <= q <= b && q * n == e
  {
    Divided(e, n, q);
  }

  lemma CentreBound(x: seq<real>, y: seq<real>, c: real, a: real, b: real)
    requires |x| == |y| && CentreOf(x, y, c) && CentreOf(x, x, a) && CentreOf(y, y, b)
    ensures c * c <= a * b && a >= 0.0 && b >= 0.0
  {
    if x != [] {
      CentreOfIs(x, y, c);
      CentreOfIs(x, x, a);
      CentreOfIs(y, y, b);
      DotBound(Shift(x, Mean(x)), Shift(y, Mean(y)), c, a, b);
    }
  }

  lemma DotOfBound(x: seq<real>, y: seq<real>, c: real, a: real, b: real)
    requires |x| == |y| && DotOf(x, y, c) && DotOf(x, x, a) && DotOf(y, y, b)
    ensures c * c <= a * b && a >= 0.0 && b >= 0.0
  {
    DotOfIs(x, y, c);
    DotOfIs(x, x, a);
    DotOfIs(y, y, b);
    DotBound(x, y, c, a, b);
  }

  lemma DotBound(u: seq<real>, v: seq<real>, c: real, a: real, b: real)
    requires |u| == |v| && c == Dot(u, v) && a == Dot(u, u) && b == Dot(v, v)
    ensures c * c <= a * b && a >= 0.0 && b >= 0.0
  {
    CauchySchwarz(u, v, c, a, b);
    DotSelf(u);
    DotSelf(v);
  }

  /** The new running product: the chunk's own plus the weighted product of the mean shifts. */
  method MergeProduct(ghost x: seq<real>, ghost y: seq<real>, u: seq<real>, v: seq<real>, o: real, p: real,
                      a: real, b: real, c: real, am: real, bm: real, count: nat) returns (r: real)
    requires |x| == |y| == count && |u| == |v| > 0
    requires MeanOf(x, o, a) && MeanOf(y, p, b) && CentreOf(x, y, c) && MeanOf(u, o, am) && MeanOf(v, p, bm)
    ensures CentreOf(x + u, y + v, r)
  {
    var n, m := count as real, |u| as real;
    var weight := n * m / (n + m);
    var f, g := am - a, bm - b;
    var d := Dot(Shift(Shift(u, o), am), Shift(Shift(v, p), bm));
    r := c + (d + f * g * weight);
    ChunkCentre(u, v, o, p, am, bm, d);
    Divided(n * m, n + m, weight);
    MergedCentre(x, y, u, v, o, p, a, b, c, am, bm, d, n, m, weight, f, g, r);
  }

  method MergeMean(ghost x: seq<real>, u: seq<real>, ghost o: real, a: real, am: real, count: nat) returns (r: real)
    requires |x| == count && u != [] && MeanOf(x, o, a) && MeanOf(u, o, am)
    ensures MeanOf(x + u, o, r)
  {
    r := a + (am - a) * |u| as real / (count as real + |u| as real);
    MergedMean(x, u, o, a, am, count as real, |u| as real, r);
  }

  method MergeDot(ghost x: seq<real>, ghost y: seq<real>, u: seq<real>, v: seq<real>, c: real) returns (r: real)
    requires |x| == |y| && |u| == |v| && DotOf(x, y, c)
    ensures DotOf(x + u, y + v, r)
  {
    r := c + Dot(u, v);
    DotOfAppend(x, y, c, u, v, Dot(u, v));
  }

  class Metrics {
    var count: nat
    var nonfinite: nat
    var error2: real
    var reference2: real
    var actual2: real
    var dot: real
    var maxAbs: real
    var actualOrigin: real
    var referenceOrigin: real
    var actualMean: real
    var referenceMean: real
    var actualVariance: real
    var referenceVariance: real
    var covariance: real

    /** All finite pairs seen, in order. */
    ghost var xs: seq<real>
    ghost var ys: seq<real>

    ghost predicate Energies()
      reads this
    {
      && |xs| == |ys| == count
      && DotOf(Minus(xs, ys), Minus(xs, ys), error2)
      && DotOf(ys, ys, reference2)
      && DotOf(xs, xs, actual2)
      && DotOf(xs, ys, dot)
      && maxAbs == MaxAbs(Minus(xs, ys))
    }

    ghost predicate Centres()
      reads this
    {
      && |xs| == |ys| == count
      && MeanOf(xs, actualOrigin, actualMean)
      && MeanOf(ys, referenceOrigin, referenceMean)
      && CentreOf(xs, xs, actualVariance)
      && CentreOf(ys, ys, referenceVariance)
      && CentreOf(xs, ys, covariance)
    }

    ghost predicate Valid()
      reads this
    {
      Energies() && Centres()
    }

    constructor ()
      ensures Valid() && xs == ys == [] && nonfinite == 0
    {
      count, nonfinite := 0, 0;
      error2, reference2, actual2, dot, maxAbs := 0.0, 0.0, 0.0, 0.0, 0.0;
      actualOrigin, referenceOrigin, actualMean, referenceMean := 0.0, 0.0, 0.0, 0.0;
      actualVariance, referenceVariance, covariance := 0.0, 0.0, 0.0;
      xs, ys := [], [];
      new;
      NoPairs();
    }

    lemma NoPairs()
      requires xs == ys == [] && actualVariance == referenceVariance == covariance == 0.0
      ensures CentreOf(xs, xs, actualVariance) && CentreOf(ys, ys, referenceVariance) && CentreOf(xs, ys, covariance)
    {
      forall n, s, t, d | Paired([], [], n, s, t, d) ensures n * 0.0 == n * d - s * t {
      }
    }

    /** What the running moments are once u and v have been merged in. */
    ghost predicate CentresWith(u: seq<real>, v: seq<real>)
      requires |xs| == |ys| && |u| == |v|
      reads this
    {
      && MeanOf(xs + u, actualOrigin, actualMean)
      && MeanOf(ys + v, referenceOrigin, referenceMean)
      && CentreOf(xs + u, xs + u, actualVariance)
      && CentreOf(ys + v, ys + v, referenceVariance)
      && CentreOf(xs + u, ys + v, covariance)
    }

    /** One chunk: its finite pairs are merged, the others only counted. */
    method Add(actual: seq<Num>, reference: seq<Num>)
      requires Valid() && |actual| == |reference|
      modifies this
      ensures Valid()
      ensures xs == old(xs) + Kept(actual, reference) && ys == old(ys) + Kept(reference, actual)
      ensures nonfinite == old(nonfinite) + (|actual| - |Kept(actual, reference)|)
    {
      var u, v := Kept(actual, reference), Kept(reference, actual);
      KeptAlign(actual, reference);
      nonfinite := nonfinite + (|actual| - |u|);
      if u == [] {
        return;
      }
      if count == 0 {
        actualOrigin, referenceOrigin := u[0], v[0];
      }
      MergeCentres(u, v);
      MergeEnergies(u, v);
    }

    method MergeCentres(u: seq<real>, v: seq<real>)
      requires Centres() && |u| == |v| > 0
      modifies this`actualMean, this`referenceMean, this`actualVariance, this`referenceVariance, this`covariance
      ensures CentresWith(u, v)
    {
      var am := Mean(Shift(u, actualOrigin));
      var rm := Mean(Shift(v, referenceOrigin));
      ChunkMean(u, actualOrigin, am);
      ChunkMean(v, referenceOrigin, rm);
      var av := MergeProduct(xs, xs, u, u, actualOrigin, actualOrigin, actualMean, actualMean, actualVariance, am, am,
                             count);
      var rv := MergeProduct(ys, ys, v, v, referenceOrigin, referenceOrigin, referenceMean, referenceMean,
                             referenceVariance, rm, rm, count);
      var cv := MergeProduct(xs, ys, u, v, actualOrigin, referenceOrigin, actualMean, referenceMean, covariance, am,
                             rm, count);
      actualMean := MergeMean(xs, u, actualOrigin, actualMean, am, count);
      referenceMean := MergeMean(ys, v, referenceOrigin, referenceMean, rm, count);
      actualVariance, referenceVariance, covariance := av, rv, cv;
    }

    /** The raw sums are the sums over all finite pairs. */
    lemma OnePass()
      requires Valid()
      ensures error2 == Dot(Minus(xs, ys), Minus(xs, ys)) && dot == Dot(xs, ys)
      ensures actual2 == Dot(xs, xs) && reference2 == Dot(ys, ys)
    {
      DotOfIs(Minus(xs, ys), Minus(xs, ys), error2);
      DotOfIs(xs, ys, dot);
      DotOfIs(xs, xs, actual2);
      DotOfIs(ys, ys, reference2);
    }

    /** The streamed values are the two-pass values of all finite pairs, whatever the cut and the origins. */
    lemma TwoPass()
      requires Valid() && count > 0
      ensures actualOrigin + actualMean == Mean(xs) && referenceOrigin + referenceMean == Mean(ys)
      ensures actualVariance == Centred(xs, xs) && referenceVariance == Centred(ys, ys) && covariance == Centred(xs, ys)
    {
      MeanOfIs(xs, actualOrigin, actualMean);
      MeanOfIs(ys, referenceOrigin, referenceMean);
      CentreOfIs(xs, xs, actualVariance);
      CentreOfIs(ys, ys, referenceVariance);
      CentreOfIs(xs, ys, covariance);
    }

    /** Cauchy-Schwarz for the raw sums. */
    lemma EnergiesBound()
      requires Energies()
      ensures dot * dot <= actual2 * reference2 && actual2 >= 0.0 && reference2 >= 0.0
    {
      DotOfBound(xs, ys, dot, actual2, reference2);
    }

    /** Cauchy-Schwarz for the centred sums. */
    lemma CentresBound()
      requires Centres()
      ensures covariance * covariance <= actualVariance * referenceVariance
      ensures actualVariance >= 0.0 && referenceVariance >= 0.0
    {
      CentreBound(xs, ys, covariance, actualVariance, referenceVariance);
    }

    /** The report: the ratios exist exactly when their denominators do not vanish, and lie in [-1, 1]. */
    method Summarise(sqrt: real -> real) returns (r: Summary)
      requires Valid() && IsRoot(sqrt)
      ensures r.finitePairs == count && r.nonfinitePairs == nonfinite
      ensures count == 0 ==> r.maxAbs.None?
      ensures count > 0 ==> r.maxAbs == Some(MaxAbs(Minus(xs, ys)))
      ensures IsRmse(r.rmse, count as real, maxAbs, error2)
      ensures IsCosine(r.cosine, sqrt, dot, actual2, reference2)
      ensures IsCosine(r.pearson, sqrt, covariance, actualVariance, referenceVariance)
      ensures IsRelative(r.relativeL2, error2, reference2)
    {
      EnergiesBound();
      CentresBound();
      var rmse := Rmse(sqrt, Minus(xs, ys), count, maxAbs, error2);
      var relative := Relative(sqrt, Minus(xs, ys), error2, reference2);
      var cosine := Cosine(sqrt, dot, actual2, reference2);
      var pearson := Cosine(sqrt, covariance, actualVariance, referenceVariance);
      r := Summary(count, nonfinite, rmse, if count > 0 then Some(maxAbs) else None, relative, cosine, pearson);
    }

    method MergeEnergies(u: seq<real>, v: seq<real>)
      requires Energies() && |u| == |v|
      modifies this`count, this`error2, this`reference2, this`actual2, this`dot, this`maxAbs, this`xs, this`ys
      ensures Energies() && xs == old(xs) + u && ys == old(ys) + v
    {
      var difference := Minus(u, v);
      ghost var before := Minus(xs, ys);
      assert Minus(xs + u, ys + v) == before + difference;
      error2 := MergeDot(before, before, difference, difference, error2);
      reference2 := MergeDot(ys, ys, v, v, reference2);
      actual2 := MergeDot(xs, xs, u, u, actual2);
      dot := MergeDot(xs, ys, u, v, dot);
      MaxAbsAppend(before, difference);
      maxAbs := Max(maxAbs, MaxAbs(difference));
      count := count + |u|;
      xs, ys := xs + u, ys + v;
    }
  }
}
