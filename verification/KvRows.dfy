/**
 * Head-strided row buffers (src/attention.rs): a `[heads, pitch, d]` buffer
 * stored flat, in which row i of head h starts at element (h * pitch + i) * d,
 * and the block copy that moves one contiguous run per head.
 */
module KvRows {
  import opened Indices

  type Row = seq<real>

  /** Where row i of head h starts. */
  function Off(h: nat, pitch: nat, i: nat, d: nat): nat {
    (h * pitch + i) * d
  }

  /** A run of n rows of head h, from row i, stays inside its own head's stretch and inside the buffer. */
  lemma InHead(h: nat, heads: nat, pitch: nat, i: nat, n: nat, d: nat)
    requires h < heads && i + n <= pitch
    ensures Off(h, pitch, 0, d) <= Off(h, pitch, i, d)
    ensures Off(h, pitch, i, d) + n * d <= Off(h + 1, pitch, 0, d) <= heads * pitch * d
  {
    Spread(h, 1, pitch);
    Before(h + 1, heads, pitch);
    Before((h + 1) * pitch, heads * pitch, d);
    Before(h * pitch, h * pitch + i, d);
    Spread(h * pitch + i, n, d);
    Before(h * pitch + i + n, (h + 1) * pitch, d);
  }

  /** Different heads' stretches do not overlap. */
  lemma HeadsApart(h: nat, g: nat, pitch: nat, d: nat)
    requires h < g
    ensures Off(h + 1, pitch, 0, d) <= Off(g, pitch, 0, d)
  {
    Before(h + 1, g, pitch);
    Before((h + 1) * pitch, g * pitch, d);
  }

  /** Inside one head, rows are d apart. */
  lemma RowStep(h: nat, pitch: nat, i: nat, k: nat, d: nat)
    ensures Off(h, pitch, i + k, d) == Off(h, pitch, i, d) + k * d
  {
    Spread(h * pitch + i, k, d);
  }

  // ---- One run ----

  /** n elements of src from `from` written over dst at `to`. */
  function Splice(dst: seq<real>, to: nat, src: seq<real>, from: nat, n: nat): (r: seq<real>)
    requires to + n <= |dst| && from + n <= |src|
    ensures |r| == |dst|
  {
    dst[..to] + src[from..from + n] + dst[to + n..]
  }

  /** A stretch outside the run is old, one inside it is the source's. */
  lemma SpliceStretch(dst: seq<real>, to: nat, src: seq<real>, from: nat, n: nat, x: nat, d: nat)
    requires to + n <= |dst| && from + n <= |src| && x + d <= |dst|
    ensures x + d <= to || to + n <= x ==> Splice(dst, to, src, from, n)[x..x + d] == dst[x..x + d]
    ensures to <= x && x + d <= to + n ==>
              Splice(dst, to, src, from, n)[x..x + d] == src[from + (x - to)..from + (x - to) + d]
  {
    var r := Splice(dst, to, src, from, n);
    forall j | 0 <= j < |dst|
      ensures r[j] == if to <= j < to + n then src[from + (j - to)] else dst[j]
    {
    }
    if to <= x && x + d <= to + n {
      assert r[x..x + d] == src[from + (x - to)..from + (x - to) + d];
    } else if x + d <= to || to + n <= x {
      assert r[x..x + d] == dst[x..x + d];
    }
  }

  /** Row i of head h against the run written to head g from row `row`. */
  lemma RunCase(h: nat, g: nat, dp: nat, sp: nat, row: nat, n: nat, d: nat, i: nat, x: nat, to: nat, from: nat,
                len: nat)
    requires i < dp && row + n <= dp && n <= sp
    requires x == Off(h, dp, i, d) && to == Off(g, dp, row, d) && from == Off(g, sp, 0, d) && len == n * d
    ensures h == g && row <= i < row + n ==>
              to <= x && x + d <= to + len && from + (x - to) == Off(h, sp, i - row, d)
    ensures !(h == g && row <= i < row + n) ==> x + d <= to || to + len <= x
  {
    if h < g {
      InHead(h, g, dp, i, 1, d);
      HeadsApart(h, g, dp, d);
      InHead(g, g + 1, dp, row, n, d);
    } else if g < h {
      InHead(g, h, dp, row, n, d);
      HeadsApart(g, h, dp, d);
      InHead(h, h + 1, dp, i, 1, d);
    } else {
      SameHead(h, dp, sp, row, n, d, i, x, to, from, len);
    }
  }

  lemma SameHead(h: nat, dp: nat, sp: nat, row: nat, n: nat, d: nat, i: nat, x: nat, to: nat, from: nat, len: nat)
    requires x == Off(h, dp, i, d) && to == Off(h, dp, row, d) && from == Off(h, sp, 0, d) && len == n * d
    ensures row <= i < row + n ==> to <= x && x + d <= to + len && from + (x - to) == Off(h, sp, i - row, d)
    ensures !(row <= i < row + n) ==> x + d <= to || to + len <= x
  {
    if i < row {
      RowStep(h, dp, i, row - i, d);
      Before(1, row - i, d);
    } else {
      RowStep(h, dp, row, i - row, d);
      RowStep(h, sp, 0, i - row, d);
      if i < row + n {
        Before(i - row + 1, n, d);
        Spread(i - row, 1, d);
      } else {
        Before(n, i - row, d);
      }
    }
  }

  // ---- One run per head ----

  ghost predicate Fits(dst: seq<real>, dp: nat, row: nat, src: seq<real>, sp: nat, heads: nat, n: nat, d: nat) {
    n <= sp && row + n <= dp && |src| == heads * sp * d && |dst| == heads * dp * d
  }

  /**
    The block copy of the first k heads: the first n rows of each head of src, to row `row` on of the same
    head of dst.
  */
  ghost function Copied(dst: seq<real>, dp: nat, row: nat, src: seq<real>, sp: nat, heads: nat, n: nat, d: nat,
                        k: nat): (r: seq<real>)
    requires Fits(dst, dp, row, src, sp, heads, n, d) && k <= heads
    ensures |r| == |dst|
    decreases k
  {
    if k == 0 then dst
    else
      InHead(k - 1, heads, sp, 0, n, d);
      InHead(k - 1, heads, dp, row, n, d);
      Splice(Copied(dst, dp, row, src, sp, heads, n, d, k - 1), Off(k - 1, dp, row, d), src, Off(k - 1, sp, 0, d),
             n * d)
  }

  /** Row by row: inside the run the source's row, elsewhere the old one. */
  lemma {:induction false} CopiedRow(dst: seq<real>, dp: nat, row: nat, src: seq<real>, sp: nat, heads: nat, n: nat,
                                     d: nat,
                                     k: nat, h: nat, i: nat, x: nat, y: nat)
    requires Fits(dst, dp, row, src, sp, heads, n, d) && k <= heads && i < dp
    requires x == Off(h, dp, i, d) && x + d <= |dst|
    requires row <= i < row + n ==> y == Off(h, sp, i - row, d) && y + d <= |src|
    ensures Copied(dst, dp, row, src, sp, heads, n, d, k)[x..x + d]
         == if h < k && row <= i < row + n then src[y..y + d] else dst[x..x + d]
    decreases k
  {
    if k > 0 {
      var g := k - 1;
      CopiedRow(dst, dp, row, src, sp, heads, n, d, g, h, i, x, y);
      var to, from, len := CopiedStep(dst, dp, row, src, sp, heads, n, d, g);
      SpliceRow(Copied(dst, dp, row, src, sp, heads, n, d, g), dp, row, src, sp, n, d, g, h, i, x, y, to, from, len);
    }
  }

  lemma CopiedStep(dst: seq<real>, dp: nat, row: nat, src: seq<real>, sp: nat, heads: nat, n: nat, d: nat, g: nat)
    returns (to: nat, from: nat, len: nat)
    requires Fits(dst, dp, row, src, sp, heads, n, d) && g < heads
    ensures to == Off(g, dp, row, d) && from == Off(g, sp, 0, d) && len == n * d
    ensures to + len <= |dst| && from + len <= |src|
    ensures Copied(dst, dp, row, src, sp, heads, n, d, g + 1)
         == Splice(Copied(dst, dp, row, src, sp, heads, n, d, g), to, src, from, len)
  {
    to, from, len := Off(g, dp, row, d), Off(g, sp, 0, d), n * d;
    InHead(g, heads, sp, 0, n, d);
    InHead(g, heads, dp, row, n, d);
  }

  lemma SpliceRow(dst: seq<real>, dp: nat, row: nat, src: seq<real>, sp: nat, n: nat, d: nat,
                  g: nat, h: nat, i: nat, x: nat, y: nat, to: nat, from: nat, len: nat)
    requires n <= sp && row + n <= dp && i < dp
    requires to == Off(g, dp, row, d) && from == Off(g, sp, 0, d) && len == n * d
    requires to + len <= |dst| && from + len <= |src| && x == Off(h, dp, i, d) && x + d <= |dst|
    requires row <= i < row + n ==> y == Off(h, sp, i - row, d) && y + d <= |src|
    ensures Splice(dst, to, src, from, len)[x..x + d]
         == if h == g && row <= i < row + n then src[y..y + d] else dst[x..x + d]
  {
    RunCase(h, g, dp, sp, row, n, d, i, x, to, from, len);
    SpliceStretch(dst, to, src, from, len, x, d);
  }

  // ---- The rows of a head ----

  /** The first `len` rows of head h. */
  function Rows(a: seq<real>, heads: nat, pitch: nat, d: nat, h: nat, len: nat): (r: seq<Row>)
    requires |a| == heads * pitch * d && h < heads && len <= pitch
    ensures |r| == len
  {
    seq(len, i requires 0 <= i < len =>
      InHead(h, heads, pitch, i, 1, d);
      a[Off(h, pitch, i, d)..Off(h, pitch, i, d) + d])
  }

  /** A block copy at the end of the kept rows appends the block's rows to every head. */
  lemma CopiedAppends(dst: seq<real>, dp: nat, row: nat, src: seq<real>, sp: nat, heads: nat, n: nat, d: nat, h: nat)
    requires Fits(dst, dp, row, src, sp, heads, n, d) && h < heads
    ensures Rows(Copied(dst, dp, row, src, sp, heads, n, d, heads), heads, dp, d, h, row + n)
         == Rows(dst, heads, dp, d, h, row) + Rows(src, heads, sp, d, h, n)
  {
    var out := Copied(dst, dp, row, src, sp, heads, n, d, heads);
    forall i | 0 <= i < row + n
      ensures Rows(out, heads, dp, d, h, row + n)[i]
           == (Rows(dst, heads, dp, d, h, row) + Rows(src, heads, sp, d, h, n))[i]
    {
      InHead(h, heads, dp, i, 1, d);
      if i < row {
        CopiedRow(dst, dp, row, src, sp, heads, n, d, heads, h, i, Off(h, dp, i, d), 0);
      } else {
        InHead(h, heads, sp, i - row, 1, d);
        CopiedRow(dst, dp, row, src, sp, heads, n, d, heads, h, i, Off(h, dp, i, d), Off(h, sp, i - row, d));
      }
    }
  }

  // ---- The copy itself ----

  lemma SpliceMore(dst: seq<real>, to: nat, src: seq<real>, from: nat, i: nat)
    requires to + i < |dst| && from + i < |src|
    ensures Splice(dst, to, src, from, i + 1) == Splice(dst, to, src, from, i)[to + i := src[from + i]]
  {
  }

  method CopyRun(src: seq<real>, from: nat, dst: array<real>, to: nat, n: nat)
    requires from + n <= |src| && to + n <= dst.Length
    modifies dst
    ensures dst[..] == Splice(old(dst[..]), to, src, from, n)
  {
    ghost var before := dst[..];
    var i := 0;
    while i < n
      invariant 0 <= i <= n
      invariant dst[..] == Splice(before, to, src, from, i)
    {
      ghost var now := dst[..];
      dst[to + i] := src[from + i];
      assert dst[..] == now[to + i := src[from + i]];
      SpliceMore(before, to, src, from, i);
      i := i + 1;
    }
  }

  lemma Offsets(h: nat, sp: nat, dp: nat, row: nat, d: nat, from: nat, to: nat)
    requires from == h * sp * d && to == h * dp * d + row * d
    ensures from == Off(h, sp, 0, d) && to == Off(h, dp, row, d)
  {
    Spread(h * dp, row, d);
  }

  /** One contiguous run per head, at the offsets the source computes. */
  method CopyRows(src: seq<real>, sp: nat, dst: array<real>, dp: nat, row: nat, heads: nat, n: nat, d: nat)
    requires Fits(dst[..], dp, row, src, sp, heads, n, d)
    modifies dst
    ensures dst[..] == Copied(old(dst[..]), dp, row, src, sp, heads, n, d, heads)
  {
    ghost var before := dst[..];
    var h := 0;
    while h < heads
      invariant 0 <= h <= heads
      invariant dst[..] == Copied(before, dp, row, src, sp, heads, n, d, h)
    {
      var from, to, run := h * sp * d, h * dp * d + row * d, n * d;
      ghost var t, f, len := CopiedStep(before, dp, row, src, sp, heads, n, d, h);
      Offsets(h, sp, dp, row, d, from, to);
      CopyRun(src, from, dst, to, run);
      h := h + 1;
    }
  }
}
