/**
 * Depthwise causal conv1d (src/conv1d.rs): shape checks, the strided gather,
 * the reference loop and streaming.
 * The arithmetic is uninterpreted, so equal results mean the same operations
 * in the same order.
 */
module Conv1d {
  import opened Wrappers
  import opened Indices
  import Moments

  datatype Arith<!T> = Arith(zero: T, add: (T, T) -> T, mul: (T, T) -> T, silu: T -> T)

  datatype Conv = Conv(dConv: nat, silu: bool, bias: bool)

  // ---- Shapes ----

  /** (rows, T, C) when the shapes fit the operator. */
  function Check(op: Conv, x: seq<nat>, biasLen: Option<nat>, w: seq<nat>): (r: Result<(nat, nat, nat)>)
    ensures r.Ok? <==> op.dConv > 0 && |x| == 2 && x[0] + 1 >= op.dConv && w == [op.dConv, x[1]]
                       && biasLen == if op.bias then Some(x[1]) else None
    ensures r.Ok? ==> r.value.0 == x[0] == r.value.1 + op.dConv - 1 && r.value.2 == x[1]
  {
    if op.dConv == 0 || |x| != 2 || |w| != 2 then Err
    else if x[0] + 1 < op.dConv then Err
    else if w[0] != op.dConv || w[1] != x[1] then Err
    else if op.bias && biasLen.None? then Err
    else if !op.bias && biasLen.Some? then Err
    else if biasLen.Some? && biasLen.value != x[1] then Err
    else Ok((x[0], x[0] + 1 - op.dConv, x[1]))
  }

  // ---- One output ----

  /** The first k taps of channel ci for output row ti, accumulated from zero. */
  function Taps<T>(m: Arith<T>, x: seq<T>, w: seq<T>, c: nat, ti: nat, ci: nat, k: nat): T
    requires ci < c && |x| >= (ti + k) * c && |w| >= k * c
  {
    if k == 0 then m.zero
    else
      TapInRange(x, w, c, ti, ci, k);
      m.add(Taps(m, x, w, c, ti, ci, k - 1), m.mul(x[(ti + k - 1) * c + ci], w[(k - 1) * c + ci]))
  }

  lemma TapInRange<T>(x: seq<T>, w: seq<T>, c: nat, ti: nat, ci: nat, k: nat)
    requires ci < c && k > 0 && |x| >= (ti + k) * c && |w| >= k * c
    ensures (ti + k - 1) * c + ci < |x| && (k - 1) * c + ci < |w|
    ensures |x| >= (ti + (k - 1)) * c && |w| >= (k - 1) * c
  {
    Below(ti + k - 1, ti + k, c, ci);
    Below(k - 1, k, c, ci);
  }

  /** Taps, then the bias, then silu. */
  function Output<T>(m: Arith<T>, op: Conv, x: seq<T>, w: seq<T>, bias: Option<seq<T>>, c: nat, ti: nat, ci: nat): T
    requires ci < c && |x| >= (ti + op.dConv) * c && |w| >= op.dConv * c
    requires bias.Some? ==> |bias.value| >= c
  {
    var sum := Taps(m, x, w, c, ti, ci, op.dConv);
    var biased := if bias.Some? then m.add(sum, bias.value[ci]) else sum;
    if op.silu then m.silu(biased) else biased
  }

  /** The inputs of a pass of t output rows. */
  ghost predicate Ready<T>(op: Conv, x: seq<T>, w: seq<T>, bias: Option<seq<T>>, t: nat, c: nat) {
    op.dConv > 0 && |x| == (t + op.dConv - 1) * c && |w| == op.dConv * c && (bias.Some? ==> |bias.value| == c)
  }

  lemma InWindow(dc: nat, t: nat, c: nat, ti: nat, len: nat)
    requires dc > 0 && ti < t && len == (t + dc - 1) * c
    ensures (ti + dc) * c <= len
  {
    Before(ti + dc, t + dc - 1, c);
  }

  lemma OutDigits(i: nat, t: nat, c: nat)
    requires i < t * c
    ensures c > 0 && i / c < t && i % c < c && i == i / c * c + i % c
  {
    NonZero(t, c, i);
    QuotientBelow(i, t, c);
  }

  /** Output element i of a pass, by the index split the kernels use. */
  function Element<T>(m: Arith<T>, op: Conv, x: seq<T>, w: seq<T>, bias: Option<seq<T>>, t: nat, c: nat, i: nat): T
    requires Ready(op, x, w, bias, t, c) && i < t * c
  {
    OutDigits(i, t, c);
    InWindow(op.dConv, t, c, i / c, |x|);
    Output(m, op, x, w, bias, c, i / c, i - i / c * c)
  }

  /** A whole pass. */
  function Pass<T>(m: Arith<T>, op: Conv, x: seq<T>, w: seq<T>, bias: Option<seq<T>>, t: nat, c: nat): (y: seq<T>)
    requires Ready(op, x, w, bias, t, c)
    ensures |y| == t * c
  {
    seq(t * c, i requires 0 <= i < t * c => Element(m, op, x, w, bias, t, c, i))
  }

  // ---- The reference loop ----

  method Reference<T>(m: Arith<T>, op: Conv, x: seq<T>, w: seq<T>, bias: Option<seq<T>>, t: nat, c: nat)
    returns (y: array<T>)
    requires Ready(op, x, w, bias, t, c)
    ensures fresh(y) && y[..] == Pass(m, op, x, w, bias, t, c)
  {
    y := new T[t * c](_ => m.zero);
    var ti := 0;
    while ti < t
      invariant 0 <= ti <= t && ti * c <= t * c && y.Length == t * c && fresh(y)
      invariant forall i :: 0 <= i < ti * c ==> y[i] == Element(m, op, x, w, bias, t, c, i)
    {
      Below0(ti, t, c);
      ReferenceRow(m, op, x, w, bias, t, c, y, ti, ti * c);
      ti := ti + 1;
    }
  }

  lemma Below0(ti: nat, t: nat, c: nat)
    requires ti < t
    ensures ti * c + c == (ti + 1) * c <= t * c
  {
    Spread(ti, 1, c);
    Before(ti + 1, t, c);
  }

  method ReferenceRow<T>(m: Arith<T>, op: Conv, x: seq<T>, w: seq<T>, bias: Option<seq<T>>, t: nat, c: nat,
                         y: array<T>, ti: nat, start: nat)
    requires Ready(op, x, w, bias, t, c) && ti < t && y.Length == t * c && start == ti * c && start + c <= t * c
    modifies y
    ensures forall i :: 0 <= i < start ==> y[i] == old(y[i])
    ensures forall i :: start <= i < start + c ==> y[i] == Element(m, op, x, w, bias, t, c, i)
  {
    var ci := 0;
    while ci < c
      invariant 0 <= ci <= c
      invariant forall i :: 0 <= i < start ==> y[i] == old(y[i])
      invariant forall i :: start <= i < start + ci ==> y[i] == Element(m, op, x, w, bias, t, c, i)
    {
      var o := ReferenceAt(m, op, x, w, bias, t, c, ti, ci, start + ci);
      y[start + ci] := o;
      ci := ci + 1;
    }
  }

  method ReferenceAt<T>(m: Arith<T>, op: Conv, x: seq<T>, w: seq<T>, bias: Option<seq<T>>, ghost t: nat, c: nat,
                        ti: nat, ci: nat, ghost i: nat)
    returns (o: T)
    requires Ready(op, x, w, bias, t, c) && ti < t && ci < c && i == ti * c + ci && i < t * c
    ensures o == Element(m, op, x, w, bias, t, c, i)
  {
    InWindow(op.dConv, t, c, ti, |x|);
    ElementIs(m, op, x, w, bias, t, c, ti, ci);
    o := ReferenceElement(m, op, x, w, bias, c, ti, ci);
  }

  lemma ElementIs<T>(m: Arith<T>, op: Conv, x: seq<T>, w: seq<T>, bias: Option<seq<T>>, t: nat, c: nat, ti: nat,
                     ci: nat)
    requires Ready(op, x, w, bias, t, c) && ti < t && ci < c && (ti + op.dConv) * c <= |x|
    ensures ti * c + ci < t * c
    ensures Element(m, op, x, w, bias, t, c, ti * c + ci) == Output(m, op, x, w, bias, c, ti, ci)
  {
    Below(ti, t, c, ci);
    Digit(ti, c, ci);
  }

  method ReferenceElement<T>(m: Arith<T>, op: Conv, x: seq<T>, w: seq<T>, bias: Option<seq<T>>, c: nat, ti: nat,
                             ci: nat)
    returns (o: T)
    requires ci < c && |x| >= (ti + op.dConv) * c && |w| >= op.dConv * c
    requires bias.Some? ==> |bias.value| >= c
    ensures o == Output(m, op, x, w, bias, c, ti, ci)
  {
    var sum := m.zero;
    var k := 0;
    while k < op.dConv
      invariant 0 <= k <= op.dConv && |x| >= (ti + k) * c && |w| >= k * c
      invariant sum == Taps(m, x, w, c, ti, ci, k)
    {
      Before(ti + k + 1, ti + op.dConv, c);
      Before(k + 1, op.dConv, c);
      TapInRange(x, w, c, ti, ci, k + 1);
      Spread(ti, k, c);
      sum := m.add(sum, m.mul(x[ti * c + (k * c + ci)], w[k * c + ci]));
      k := k + 1;
    }
    if bias.Some? {
      sum := m.add(sum, bias.value[ci]);
    }
    o := if op.silu then m.silu(sum) else sum;
  }

  // ---- Streaming ----

  /** A window that starts `skip` rows later in the longer input computes the same taps. */
  lemma {:induction false} TapsShift<T>(m: Arith<T>, x: seq<T>, z: seq<T>, w: seq<T>, c: nat, skip: nat, off: nat,
                                        ti: nat, ci: nat, k: nat)
    requires ci < c && off == skip * c && |z| + off <= |x| && z == x[off..off + |z|]
    requires |x| >= (skip + ti + k) * c && |z| >= (ti + k) * c && |w| >= k * c
    ensures Taps(m, x, w, c, skip + ti, ci, k) == Taps(m, z, w, c, ti, ci, k)
  {
    if k > 0 {
      TapInRange(x, w, c, skip + ti, ci, k);
      TapInRange(z, w, c, ti, ci, k);
      TapsShift(m, x, z, w, c, skip, off, ti, ci, k - 1);
      Spread(skip, ti + k - 1, c);
    }
  }

  /** An output of the longer input against the same output of a window of it. */
  lemma ElementShift<T>(m: Arith<T>, op: Conv, x: seq<T>, z: seq<T>, w: seq<T>, bias: Option<seq<T>>, t: nat, s: nat,
                        c: nat,
                        skip: nat, off: nat, i: nat)
    requires Ready(op, x, w, bias, t, c) && Ready(op, z, w, bias, s, c) && i < s * c && skip + s <= t
    requires off == skip * c && off + |z| <= |x| && z == x[off..off + |z|]
    ensures off + i < t * c && Element(m, op, x, w, bias, t, c, off + i) == Element(m, op, z, w, bias, s, c, i)
  {
    OutDigits(i, s, c);
    ShiftSizes(op.dConv, t, s, c, skip, i / c, i % c, |x|, |z|);
    ElementIs(m, op, x, w, bias, t, c, skip + i / c, i % c);
    ElementIs(m, op, z, w, bias, s, c, i / c, i % c);
    TapsShift(m, x, z, w, c, skip, off, i / c, i % c, op.dConv);
  }

  lemma ShiftSizes(dc: nat, t: nat, s: nat, c: nat, skip: nat, ti: nat, ci: nat, lx: nat, lz: nat)
    requires dc > 0 && ti < s && ci < c && skip + s <= t && lx == (t + dc - 1) * c && lz == (s + dc - 1) * c
    ensures (skip + ti + dc) * c <= lx && (ti + dc) * c <= lz
    ensures (skip + ti) * c + ci == skip * c + (ti * c + ci) < t * c
  {
    InWindow(dc, t, c, skip + ti, lx);
    InWindow(dc, s, c, ti, lz);
    Spread(skip, ti, c);
    Below(skip + ti, t, c, ci);
  }

  /** The rows a later pass still needs: the last d_conv - 1 of an input of t output rows. */
  function Tail<T>(x: seq<T>, t: nat, c: nat): seq<T>
    requires t * c <= |x|
  {
    x[t * c..]
  }

  lemma SplitSizes(dc: nat, t1: nat, t2: nat, c: nat, off: nat, mid: nat)
    requires dc > 0 && off == t1 * c && mid == (t1 + dc - 1) * c
    ensures off <= mid <= (t1 + t2 + dc - 1) * c && (t1 + t2 + dc - 1) * c - off == (t2 + dc - 1) * c
    ensures (t1 + t2) * c == off + t2 * c
  {
    Spread(t1, dc - 1, c);
    Spread(t1, t2 + dc - 1, c);
    Spread(t1, t2, c);
    Spread(t1 + dc - 1, t2, c);
  }

  /**
   * Streaming: one pass over all the rows is the pass over a first part
   * followed by the pass over that part's last d_conv - 1 rows and the rest,
   * for every split point.
   */
  lemma SplitPass<T>(m: Arith<T>, op: Conv, x: seq<T>, w: seq<T>, bias: Option<seq<T>>, t1: nat, t2: nat, c: nat,
                     off: nat, mid: nat)
    requires Ready(op, x, w, bias, t1 + t2, c) && off == t1 * c && mid == (t1 + op.dConv - 1) * c
    ensures off <= mid <= |x| && Ready(op, x[..mid], w, bias, t1, c)
    ensures Tail(x[..mid], t1, c) + x[mid..] == x[off..] && Ready(op, x[off..], w, bias, t2, c)
    ensures Pass(m, op, x, w, bias, t1 + t2, c)
         == Pass(m, op, x[..mid], w, bias, t1, c) + Pass(m, op, x[off..], w, bias, t2, c)
  {
    SplitSizes(op.dConv, t1, t2, c, off, mid);
    assert Tail(x[..mid], t1, c) + x[mid..] == x[off..];
    var whole, a, b := Pass(m, op, x, w, bias, t1 + t2, c), Pass(m, op, x[..mid], w, bias, t1, c),
        Pass(m, op, x[off..], w, bias, t2, c);
    forall i | 0 <= i < |whole| ensures whole[i] == (a + b)[i] {
      if i < off {
        ElementShift(m, op, x, x[..mid], w, bias, t1 + t2, t1, c, 0, 0, i);
      } else {
        ElementShift(m, op, x, x[off..], w, bias, t1 + t2, t2, c, t1, off, i - off);
      }
    }
  }

  /** Some rows of a stream. */
  datatype Piece<T> = Piece(t: nat, rows: seq<T>)

  ghost predicate Pieces<T>(pieces: seq<Piece<T>>, c: nat) {
    forall i :: 0 <= i < |pieces| ==> |pieces[i].rows| == pieces[i].t * c
  }

  /** The number of rows, and the rows, of the first n pieces. */
  ghost function RowCount<T>(pieces: seq<Piece<T>>, n: nat): nat
    requires n <= |pieces|
  {
    if n == 0 then 0 else RowCount(pieces, n - 1) + pieces[n - 1].t
  }

  ghost function AllRows<T>(pieces: seq<Piece<T>>, n: nat): seq<T>
    requires n <= |pieces|
  {
    if n == 0 then [] else AllRows(pieces, n - 1) + pieces[n - 1].rows
  }

  lemma {:induction false} AllRowsLength<T>(pieces: seq<Piece<T>>, c: nat, n: nat)
    requires Pieces(pieces, c) && n <= |pieces|
    ensures |AllRows(pieces, n)| == RowCount(pieces, n) * c
  {
    if n > 0 {
      AllRowsLength(pieces, c, n - 1);
      Spread(RowCount(pieces, n - 1), pieces[n - 1].t, c);
    }
  }

  /** The input of one pass over the state and the first n pieces. */
  lemma StreamReady<T>(op: Conv, state: seq<T>, pieces: seq<Piece<T>>, w: seq<T>, bias: Option<seq<T>>, c: nat, n: nat)
    requires op.dConv > 0 && |state| == (op.dConv - 1) * c && |w| == op.dConv * c && (bias.Some? ==> |bias.value| == c)
    requires Pieces(pieces, c) && n <= |pieces|
    ensures Ready(op, state + AllRows(pieces, n), w, bias, RowCount(pieces, n), c)
  {
    AllRowsLength(pieces, c, n);
    Spread(RowCount(pieces, n), op.dConv - 1, c);
  }

  /** The pass over x is done: its outputs are y, and `last` are the rows the next one needs. */
  ghost predicate Done<T>(m: Arith<T>, op: Conv, x: seq<T>, w: seq<T>, bias: Option<seq<T>>, t: nat, c: nat,
                          y: seq<T>, last: seq<T>) {
    && Ready(op, x, w, bias, t, c)
    && y == Pass(m, op, x, w, bias, t, c)
    && t * c <= |x| && last == x[t * c..]
  }

  /**
   * Piecewise streaming: every piece is convolved behind the last d_conv - 1
   * rows before it, and the outputs end to end are one pass over everything.
   */
  method Stream<T>(m: Arith<T>, op: Conv, state: seq<T>, pieces: seq<Piece<T>>, w: seq<T>, bias: Option<seq<T>>, c: nat)
    returns (y: seq<T>, last: seq<T>)
    requires op.dConv > 0 && |state| == (op.dConv - 1) * c && |w| == op.dConv * c && (bias.Some? ==> |bias.value| == c)
    requires Pieces(pieces, c)
    ensures Done(m, op, state + AllRows(pieces, |pieces|), w, bias, RowCount(pieces, |pieces|), c, y, last)
  {
    y, last := [], state;
    StreamReady(op, state, pieces, w, bias, c, 0);
    assert state + AllRows(pieces, 0) == state;
    var n := 0;
    while n < |pieces|
      invariant 0 <= n <= |pieces|
      invariant Done(m, op, state + AllRows(pieces, n), w, bias, RowCount(pieces, n), c, y, last)
    {
      var piece := pieces[n];
      StreamReady(op, state, pieces, w, bias, c, n + 1);
      assert state + AllRows(pieces, n + 1) == (state + AllRows(pieces, n)) + piece.rows;
      y, last := StreamPiece(m, op, state + AllRows(pieces, n), piece, w, bias, RowCount(pieces, n), c, y, last);
      n := n + 1;
    }
  }

  method StreamPiece<T>(m: Arith<T>, op: Conv, ghost x: seq<T>, piece: Piece<T>, w: seq<T>, bias: Option<seq<T>>,
                        ghost t: nat, c: nat,
                        y: seq<T>, last: seq<T>)
    returns (y': seq<T>, last': seq<T>)
    requires Done(m, op, x, w, bias, t, c, y, last) && |piece.rows| == piece.t * c
    requires Ready(op, x + piece.rows, w, bias, t + piece.t, c)
    ensures Done(m, op, x + piece.rows, w, bias, t + piece.t, c, y', last')
  {
    StreamStep(m, op, x, piece, w, bias, t, c, last);
    y' := y + Pass(m, op, last + piece.rows, w, bias, piece.t, c);
    last' := (last + piece.rows)[piece.t * c..];
  }

  lemma StreamStep<T>(m: Arith<T>, op: Conv, x: seq<T>, piece: Piece<T>, w: seq<T>, bias: Option<seq<T>>, t: nat,
                      c: nat, last: seq<T>)
    requires Ready(op, x, w, bias, t, c) && |piece.rows| == piece.t * c && t * c <= |x| && last == x[t * c..]
    requires Ready(op, x + piece.rows, w, bias, t + piece.t, c)
    ensures Ready(op, last + piece.rows, w, bias, piece.t, c) && piece.t * c <= |last + piece.rows|
    ensures Pass(m, op, x + piece.rows, w, bias, t + piece.t, c)
         == Pass(m, op, x, w, bias, t, c) + Pass(m, op, last + piece.rows, w, bias, piece.t, c)
    ensures (t + piece.t) * c <= |x + piece.rows|
    ensures (last + piece.rows)[piece.t * c..] == (x + piece.rows)[(t + piece.t) * c..]
  {
    var all := x + piece.rows;
    SplitPass(m, op, all, w, bias, t, piece.t, c, t * c, |x|);
    assert all[..|x|] == x;
    assert all[t * c..] == last + piece.rows;
    Spread(t, piece.t, c);
    Before(0, op.dConv - 1, c);
    Spread(piece.t, op.dConv - 1, c);
  }

  // ---- The strided gather ----

  /** Element (r, k) of a view with start `base` and strides s0, s1. */
  function Strided(base: nat, s0: nat, s1: nat, r: nat, k: nat): nat {
    base + r * s0 + k * s1
  }

  ghost predicate ViewFits(size: nat, base: nat, s0: nat, s1: nat, rows: nat, cols: nat) {
    forall r: nat, k: nat :: r < rows && k < cols ==> Strided(base, s0, s1, r, k) < size
  }

  /** Where element i of the row-major copy comes from. */
  function ViewAt(base: nat, s0: nat, s1: nat, cols: nat, i: nat): nat
    requires cols > 0
  {
    Strided(base, s0, s1, i / cols, i % cols)
  }

  ghost predicate IsView<T>(data: seq<T>, base: nat, s0: nat, s1: nat, cols: nat, x: seq<T>) {
    forall i :: 0 <= i < |x| ==>
                  cols > 0 && ViewAt(base, s0, s1, cols, i) < |data| && x[i] == data[ViewAt(base, s0, s1, cols, i)]
  }

  /** The contiguous row-major copy of the view, whichever arm each row takes. */
  method Gather<T>(data: seq<T>, base: nat, s0: nat, s1: nat, rows: nat, cols: nat) returns (x: seq<T>)
    requires ViewFits(|data|, base, s0, s1, rows, cols)
    ensures |x| == rows * cols && IsView(data, base, s0, s1, cols, x)
  {
    x := [];
    var r := 0;
    while r < rows
      invariant 0 <= r <= rows && |x| == r * cols
      invariant IsView(data, base, s0, s1, cols, x)
    {
      var row := GatherRow(data, base, s0, s1, rows, cols, r);
      ViewGrows(data, base, s0, s1, cols, x, r, row);
      x := x + row;
      r := r + 1;
    }
  }

  lemma ViewGrows<T>(data: seq<T>, base: nat, s0: nat, s1: nat, cols: nat, x: seq<T>, r: nat, row: seq<T>)
    requires IsView(data, base, s0, s1, cols, x) && |x| == r * cols && RowGathered(data, base, s0, s1, r, cols, row)
    ensures IsView(data, base, s0, s1, cols, x + row) && |x + row| == (r + 1) * cols
  {
    Spread(r, 1, cols);
    forall i | |x| <= i < |x + row|
      ensures cols > 0 && ViewAt(base, s0, s1, cols, i) == Strided(base, s0, s1, r, i - |x|)
    {
      Digit(r, cols, i - |x|);
    }
  }

  ghost predicate RowGathered<T>(data: seq<T>, base: nat, s0: nat, s1: nat, r: nat, cols: nat, row: seq<T>) {
    && |row| == cols
    && forall k: nat :: k < cols ==> Strided(base, s0, s1, r, k) < |data| && row[k] == data[Strided(base, s0, s1, r, k)]
  }

  method GatherRow<T>(data: seq<T>, base: nat, s0: nat, s1: nat, ghost rows: nat, cols: nat, r: nat)
    returns (row: seq<T>)
    requires ViewFits(|data|, base, s0, s1, rows, cols) && r < rows
    ensures RowGathered(data, base, s0, s1, r, cols, row)
  {
    var start := base + r * s0;
    if s1 == 1 && cols > 0 {
      assert Strided(base, s0, s1, r, cols - 1) < |data|;
      forall k: nat | k < cols ensures Strided(base, s0, s1, r, k) == start + k {
      }
      return data[start..start + cols];
    }
    row := [];
    var k := 0;
    while k < cols
      invariant 0 <= k <= cols && |row| == k
      invariant forall i: nat :: i < k ==>
                                   Strided(base, s0, s1, r, i) < |data| && row[i] == data[Strided(base, s0, s1, r, i)]
    {
      assert Strided(base, s0, s1, r, k) < |data|;
      row := row + [data[start + k * s1]];
      k := k + 1;
    }
  }

  // ---- What an output is, over the reals ----

  function Reals(silu: real -> real): Arith<real> {
    Arith(0.0, (a, b) => a + b, (a, b) => a * b, silu)
  }

  /** Channel ci of the k rows from row ti on. */
  function Channel(x: seq<real>, c: nat, ti: nat, ci: nat, k: nat): (r: seq<real>)
    requires ci < c && |x| >= (ti + k) * c
    ensures |r| == k
  {
    seq(k, j requires 0 <= j < k =>
      Below(ti + j, ti + k, c, ci);
      x[(ti + j) * c + ci])
  }

  lemma {:induction false} TapsAreDot(silu: real -> real, x: seq<real>, w: seq<real>, c: nat, ti: nat, ci: nat, k: nat)
    requires ci < c && |x| >= (ti + k) * c && |w| >= (0 + k) * c
    ensures Taps(Reals(silu), x, w, c, ti, ci, k) == Moments.Dot(Channel(x, c, ti, ci, k), Channel(w, c, 0, ci, k))
  {
    if k > 0 {
      var a, b := TapsSnoc(silu, x, w, c, ti, ci, k);
      TapsAreDot(silu, x, w, c, ti, ci, k - 1);
      DotSnoc(Channel(x, c, ti, ci, k), Channel(w, c, 0, ci, k), Channel(x, c, ti, ci, k - 1),
              Channel(w, c, 0, ci, k - 1), a, b, Taps(Reals(silu), x, w, c, ti, ci, k - 1));
    }
  }

  lemma TapsSnoc(silu: real -> real, x: seq<real>, w: seq<real>, c: nat, ti: nat, ci: nat, k: nat)
    returns (a: real, b: real)
    requires ci < c && k > 0 && |x| >= (ti + k) * c && |w| >= (0 + k) * c
    ensures |x| >= (ti + (k - 1)) * c && |w| >= (0 + (k - 1)) * c
    ensures Taps(Reals(silu), x, w, c, ti, ci, k) == Taps(Reals(silu), x, w, c, ti, ci, k - 1) + a * b
    ensures Channel(x, c, ti, ci, k) == Channel(x, c, ti, ci, k - 1) + [a]
    ensures Channel(w, c, 0, ci, k) == Channel(w, c, 0, ci, k - 1) + [b]
  {
    TapInRange(x, w, c, ti, ci, k);
    ChannelSnoc(x, c, ti, ci, k);
    ChannelSnoc(w, c, 0, ci, k);
    a, b := x[(ti + k - 1) * c + ci], w[(k - 1) * c + ci];
  }

  lemma ChannelSnoc(x: seq<real>, c: nat, ti: nat, ci: nat, k: nat)
    requires ci < c && k > 0 && |x| >= (ti + k) * c
    ensures |x| >= (ti + (k - 1)) * c && (ti + k - 1) * c + ci < |x|
    ensures Channel(x, c, ti, ci, k) == Channel(x, c, ti, ci, k - 1) + [x[(ti + k - 1) * c + ci]]
  {
    Below(ti + k - 1, ti + k, c, ci);
  }

  lemma DotSnoc(u: seq<real>, v: seq<real>, a: seq<real>, b: seq<real>, x: real, y: real, d: real)
    requires |a| == |b| && u == a + [x] && v == b + [y] && d == Moments.Dot(a, b)
    ensures Moments.Dot(u, v) == d + x * y
  {
    assert u[..|u| - 1] == a && v[..|v| - 1] == b;
    assert Moments.Dot(u, v) == Moments.Dot(u[..|u| - 1], v[..|v| - 1]) + u[|u| - 1] * v[|v| - 1];
  }

  /**
    Over the reals, row ti and channel ci of a pass is the inner product of the channel's window
    with its kernel, plus its bias if there is one, through silu if the operator applies it.
  */
  lemma PassIsConvolution(silu: real -> real, op: Conv, x: seq<real>, w: seq<real>, bias: Option<seq<real>>, t: nat,
                          c: nat, ti: nat, ci: nat)
    requires Ready(op, x, w, bias, t, c) && ti < t && ci < c
    ensures ti * c + ci < t * c && (ti + op.dConv) * c <= |x|
    ensures var sum := Moments.Dot(Channel(x, c, ti, ci, op.dConv), Channel(w, c, 0, ci, op.dConv))
                       + if bias.Some? then bias.value[ci] else 0.0;
      Pass(Reals(silu), op, x, w, bias, t, c)[ti * c + ci] == if op.silu then silu(sum) else sum
  {
    InWindow(op.dConv, t, c, ti, |x|);
    ElementIs(Reals(silu), op, x, w, bias, t, c, ti, ci);
    TapsAreDot(silu, x, w, c, ti, ci, op.dConv);
  }
}
