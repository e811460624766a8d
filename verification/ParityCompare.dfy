/**
 * The chunk loop of the GGUF parity script (scripts/gguf_source_parity.py,
 * `compare`): the selected rows are compared chunk by chunk, once as they are
 * and once with adjacent reference columns swapped.
 */
module ParityCompare {
  import opened Moments
  import opened Sequences
  import opened RunningMoments
  import opened Metrics

  type Row = seq<Num>

  datatype Outcome<T> = Ok(value: T) | Err(message: string)

  ghost predicate Shaped(rows: seq<Row>, cols: nat) {
    forall i :: 0 <= i < |rows| ==> |rows[i]| == cols
  }

  /** Adjacent columns exchanged, as by reshaping to pairs and reversing each. */
  function Swapped<T>(s: seq<T>): (r: seq<T>)
    requires |s| % 2 == 0
    ensures |r| == |s|
  {
    seq(|s|, i requires 0 <= i < |s| => if i % 2 == 0 then s[i + 1] else s[i - 1])
  }

  function SwappedRows(rows: seq<Row>, cols: nat): (r: seq<Row>)
    requires Shaped(rows, cols) && cols % 2 == 0
    ensures |r| == |rows| && Shaped(r, cols)
  {
    seq(|rows|, i requires 0 <= i < |rows| => Swapped(rows[i]))
  }

  lemma {:induction false} FlatLength(rows: seq<Row>, cols: nat)
    requires Shaped(rows, cols)
    ensures |Flatten(rows)| == |rows| * cols
  {
    if rows != [] {
      var n := |rows| - 1;
      FlatLength(rows[..n], cols);
      assert |rows| * cols == n * cols + cols;
    }
  }

  lemma {:induction false} FlatEven(rows: seq<Row>, cols: nat)
    requires Shaped(rows, cols) && cols % 2 == 0
    ensures |Flatten(rows)| % 2 == 0
  {
    if rows != [] {
      FlatEven(rows[..|rows| - 1], cols);
    }
  }

  lemma SwappedAppend<T>(a: seq<T>, b: seq<T>)
    requires |a| % 2 == 0 && |b| % 2 == 0
    ensures Swapped(a + b) == Swapped(a) + Swapped(b)
  {
  }

  /** The swap takes the columns two by two and turns each pair around. */
  lemma SwapsPairs<T>(a: seq<T>, x: T, y: T)
    requires |a| % 2 == 0
    ensures Swapped<T>([]) == [] && Swapped(a + [x, y]) == Swapped(a) + [y, x]
  {
    SwappedAppend(a, [x, y]);
    assert Swapped([x, y]) == [y, x];
  }

  /** Swapping row by row is swapping the flat list. */
  lemma {:induction false} SwappedFlat(rows: seq<Row>, cols: nat)
    requires Shaped(rows, cols) && cols % 2 == 0 && |Flatten(rows)| % 2 == 0
    ensures Flatten(SwappedRows(rows, cols)) == Swapped(Flatten(rows))
  {
    if rows != [] {
      var n := |rows| - 1;
      FlatEven(rows[..n], cols);
      SwappedFlat(rows[..n], cols);
      assert SwappedRows(rows, cols)[..n] == SwappedRows(rows[..n], cols);
      SwappedAppend(Flatten(rows[..n]), rows[n]);
    }
  }

  // ---- What the swap keeps ----

  ghost predicate AllFinite(s: Row) {
    forall i :: 0 <= i < |s| ==> s[i].Finite?
  }

  function Values(s: Row): (r: seq<real>)
    requires AllFinite(s)
    ensures |r| == |s|
  {
    seq(|s|, i requires 0 <= i < |s| => s[i].value)
  }

  lemma {:induction false} KeptAll(a: Row, b: Row)
    requires |a| == |b| && AllFinite(a) && AllFinite(b)
    ensures Kept(a, b) == Values(a)
  {
    if a != [] {
      KeptAll(a[..|a| - 1], b[..|b| - 1]);
    }
  }

  lemma SwappedSums(x: seq<real>)
    requires |x| % 2 == 0
    ensures Sum(Swapped(x)) == Sum(x)
    ensures Dot(Swapped(x), Swapped(x)) == Dot(x, x)
  {
    SwappedSum(x);
    SwappedDot(x);
  }

  lemma {:induction false} SwappedSum(x: seq<real>)
    requires |x| % 2 == 0
    ensures Sum(Swapped(x)) == Sum(x)
  {
    if x != [] {
      var n := |x| - 2;
      var y := Swapped(x);
      SwappedSum(x[..n]);
      assert y[..n] == Swapped(x[..n]);
      assert x[..n + 1][..n] == x[..n] && y[..n + 1][..n] == y[..n];
      assert Sum(x) == Sum(x[..n]) + x[n] + x[n + 1];
      assert Sum(y) == Sum(y[..n]) + y[n] + y[n + 1];
    }
  }

  lemma {:induction false} SwappedDot(x: seq<real>)
    requires |x| % 2 == 0
    ensures Dot(Swapped(x), Swapped(x)) == Dot(x, x)
  {
    if x != [] {
      var n := |x| - 2;
      var y := Swapped(x);
      SwappedDot(x[..n]);
      assert y[..n] == Swapped(x[..n]);
      TwoLast(x, n);
      TwoLast(y, n);
    }
  }

  lemma TwoLast(x: seq<real>, n: nat)
    requires |x| == n + 2
    ensures Dot(x, x) == Dot(x[..n], x[..n]) + x[n] * x[n] + x[n + 1] * x[n + 1]
  {
    var z := x[..n + 1];
    assert z[..n] == x[..n];
    assert Dot(z, z) == Dot(z[..n], z[..n]) + z[n] * z[n];
  }

  /** The accumulator has seen exactly these rows. */
  ghost predicate Seen(m: Metrics, a: seq<Row>, b: seq<Row>)
    reads m
  {
    && m.Valid()
    && |Flatten(a)| == |Flatten(b)|
    && m.xs == Kept(Flatten(a), Flatten(b))
    && m.ys == Kept(Flatten(b), Flatten(a))
    && m.nonfinite == |Flatten(a)| - |Kept(Flatten(a), Flatten(b))|
  }

  /**
   * With every selected value finite, the swapped accumulator has the same
   * count and the same reference sums; only the products with the actual
   * values can differ.
   */
  lemma SwapKeepsReference(direct: Metrics, swapped: Metrics, a: seq<Row>, b: seq<Row>, cols: nat)
    requires Shaped(b, cols) && cols % 2 == 0 && AllFinite(Flatten(a)) && AllFinite(Flatten(b))
    requires Seen(direct, a, b) && Seen(swapped, a, SwappedRows(b, cols))
    ensures swapped.count == direct.count == |Flatten(a)|
    ensures swapped.reference2 == direct.reference2 && swapped.actual2 == direct.actual2
    ensures swapped.referenceVariance == direct.referenceVariance && swapped.actualVariance == direct.actualVariance
    ensures Flatten(a) != [] ==>
              swapped.referenceOrigin + swapped.referenceMean == direct.referenceOrigin + direct.referenceMean
  {
    FlatEven(b, cols);
    SwappedFlat(b, cols);
    SwappedValues(Flatten(a), Flatten(b));
    SameReference(direct, swapped, Values(Flatten(b)));
  }

  lemma SwappedValues(a: Row, b: Row)
    requires |a| == |b| && |b| % 2 == 0 && AllFinite(a) && AllFinite(b)
    ensures Kept(a, b) == Kept(a, Swapped(b)) == Values(a)
    ensures Kept(b, a) == Values(b) && Kept(Swapped(b), a) == Swapped(Values(b))
  {
    SwappedFinite(b);
    KeptAll(a, b);
    KeptAll(b, a);
    KeptAll(a, Swapped(b));
    KeptAll(Swapped(b), a);
  }

  lemma SwappedFinite(b: Row)
    requires |b| % 2 == 0 && AllFinite(b)
    ensures AllFinite(Swapped(b)) && Values(Swapped(b)) == Swapped(Values(b))
  {
  }

  lemma SameReference(direct: Metrics, swapped: Metrics, y: seq<real>)
    requires direct.Valid() && swapped.Valid() && direct.xs == swapped.xs
    requires |y| % 2 == 0 && direct.ys == y && swapped.ys == Swapped(y)
    ensures swapped.reference2 == direct.reference2 && swapped.actual2 == direct.actual2
    ensures swapped.referenceVariance == direct.referenceVariance && swapped.actualVariance == direct.actualVariance
    ensures y != [] ==> swapped.referenceOrigin + swapped.referenceMean == direct.referenceOrigin + direct.referenceMean
  {
    direct.OnePass();
    swapped.OnePass();
    SwappedSums(y);
    if y != [] {
      CentreUnique(direct.xs, direct.xs, direct.actualVariance, swapped.actualVariance);
      SwappedCentre(y, direct.referenceVariance, swapped.referenceVariance);
      MeanOfIs(y, direct.referenceOrigin, direct.referenceMean);
      MeanOfIs(Swapped(y), swapped.referenceOrigin, swapped.referenceMean);
    }
  }

  lemma SwappedCentre(y: seq<real>, c: real, e: real)
    requires |y| % 2 == 0 && y != [] && CentreOf(y, y, c) && CentreOf(Swapped(y), Swapped(y), e)
    ensures c == e
  {
    var n, s, t, d := Names(y, y);
    SwappedPaired(y, n, s, t, d);
    SameCentre(n, s, t, d, c, e);
  }

  lemma SameCentre(n: real, s: real, t: real, d: real, c: real, e: real)
    requires n > 0.0 && n * c == n * d - s * t && n * e == n * d - s * t
    ensures c == e
  {
    Cancel(n, c, e);
  }

  lemma SwappedPaired(y: seq<real>, n: real, s: real, t: real, d: real)
    requires |y| % 2 == 0 && Paired(y, y, n, s, t, d)
    ensures Paired(Swapped(y), Swapped(y), n, s, t, d)
  {
    SwappedSums(y);
    PairedIs(y, y, n, s, t, d);
    PairedIs(Swapped(y), Swapped(y), n, s, t, d);
  }

  // ---- The loop ----

  /** The selection is checked, then compared; the swapped accumulator matters for even widths only. */
  method Compare(actual: seq<Row>, reference: seq<Row>, cols: nat, referenceCols: nat, rowStart: int, rows: int,
                 chunkRows: nat, maxElements: nat)
    returns (r: Outcome<(Metrics, Metrics)>)
    requires Shaped(actual, cols) && Shaped(reference, referenceCols)
    ensures r.Ok? <==> |reference| == |actual| && referenceCols == cols && 0 <= rowStart < rowStart + rows <= |actual|
                       && 0 < cols <= maxElements && chunkRows > 0
    ensures r.Ok? ==> Seen(r.value.0, actual[rowStart..rowStart + rows], reference[rowStart..rowStart + rows])
    ensures r.Ok? && cols % 2 == 0 ==>
              Seen(r.value.1, actual[rowStart..rowStart + rows],
                   SwappedRows(reference[rowStart..rowStart + rows], cols))
  {
    if |reference| != |actual| || referenceCols != cols {
      return Err("shape mismatch");
    }
    if !(0 <= rowStart < rowStart + rows <= |actual|) {
      return Err("row selection");
    }
    if cols == 0 {
      return Err("division by zero");
    }
    WidthFits(maxElements, cols);
    var chunk := if chunkRows < maxElements / cols then chunkRows else maxElements / cols;
    if chunk < 1 {
      return Err("row width");
    }
    var direct, swapped := Stream(actual[rowStart..rowStart + rows], reference[rowStart..rowStart + rows], cols, chunk);
    r := Ok((direct, swapped));
  }

  lemma WidthFits(m: nat, cols: nat)
    requires cols > 0
    ensures m / cols >= 1 <==> cols <= m
  {
    if cols <= m {
      assert m / cols >= 1;
    } else {
      assert m / cols == 0;
    }
  }

  /** The chunk loop: whatever the chunk size, the accumulators have seen every row once. */
  method Stream(actual: seq<Row>, reference: seq<Row>, cols: nat, chunk: nat)
    returns (direct: Metrics, swapped: Metrics)
    requires Shaped(actual, cols) && Shaped(reference, cols) && |actual| == |reference| && chunk > 0
    ensures Seen(direct, actual, reference)
    ensures cols % 2 == 0 ==> Seen(swapped, actual, SwappedRows(reference, cols))
  {
    direct := new Metrics();
    swapped := new Metrics();
    var start := 0;
    while start < |actual|
      invariant 0 <= start <= |actual|
      invariant fresh(direct) && fresh(swapped) && direct != swapped
      invariant Seen(direct, actual[..start], reference[..start])
      invariant cols % 2 == 0 ==> Seen(swapped, actual[..start], SwappedRows(reference[..start], cols))
    {
      var next := start + if chunk < |actual| - start then chunk else |actual| - start;
      Extend(actual, start, next);
      Extend(reference, start, next);
      AddRows(direct, actual[..start], reference[..start], actual[start..next], reference[start..next], cols);
      if cols % 2 == 0 {
        SwappedRowsAppend(reference[..start], reference[start..next], cols);
        AddRows(swapped, actual[..start], SwappedRows(reference[..start], cols), actual[start..next],
                SwappedRows(reference[start..next], cols), cols);
      }
      start := next;
    }
    assert actual[..start] == actual && reference[..start] == reference;
  }

  method AddRows(m: Metrics, ghost a0: seq<Row>, ghost b0: seq<Row>, a: seq<Row>, b: seq<Row>, ghost cols: nat)
    requires Seen(m, a0, b0) && Shaped(a, cols) && Shaped(b, cols) && |a| == |b|
    modifies m
    ensures Seen(m, a0 + a, b0 + b)
  {
    FlatLength(a, cols);
    FlatLength(b, cols);
    FlattenAppend(a0, a);
    FlattenAppend(b0, b);
    KeptAppend(Flatten(a0), Flatten(b0), Flatten(a), Flatten(b));
    KeptAppend(Flatten(b0), Flatten(a0), Flatten(b), Flatten(a));
    m.Add(Flatten(a), Flatten(b));
  }

  lemma Extend<T>(s: seq<T>, j: nat, k: nat)
    requires j <= k <= |s|
    ensures s[..j] + s[j..k] == s[..k]
  {
  }

  lemma SwappedRowsAppend(a: seq<Row>, b: seq<Row>, cols: nat)
    requires Shaped(a, cols) && Shaped(b, cols) && cols % 2 == 0
    ensures Shaped(a + b, cols) && SwappedRows(a + b, cols) == SwappedRows(a, cols) + SwappedRows(b, cols)
  {
  }
}
