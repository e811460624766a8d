/**
 * The launch of the Vulkan conv1d kernel (src/conv1d.rs, `vulkan_groups` and
 * the shader of `vulkan_source`), in the 32-bit arithmetic both sides use.
 */
module ConvGrid {
  import opened Indices

  const U32: int := 0x1_0000_0000
  const HALF: int := 0x8000_0000

  /** A number cut to 32 bits and read as signed. */
  function Signed(a: int): int {
    if a % U32 < HALF then a % U32 else a % U32 - U32
  }

  // ---- The grid ----

  function CeilDiv(n: nat, d: nat): nat
    requires d > 0
  {
    (n + d - 1) / d
  }

  function Max(a: nat, b: nat): nat {
    if a < b then b else a
  }

  function Min(a: nat, b: nat): nat {
    if a < b then a else b
  }

  function GroupCount(n: nat, wg: nat): nat {
    Max(CeilDiv(n, Max(wg, 1)), 1)
  }

  function GridX(n: nat, wg: nat, maxX: nat): nat {
    Max(Min(GroupCount(n, wg), Max(maxX, 1)), 1)
  }

  function GridY(n: nat, wg: nat, maxX: nat): nat {
    CeilDiv(GroupCount(n, wg), GridX(n, wg, maxX))
  }

  /** The lanes of the grid, before its counts are cut to 32 bits. */
  function Lanes(n: nat, wg: nat, maxX: nat): nat {
    GridX(n, wg, maxX) * wg * GridY(n, wg, maxX)
  }

  /** The grid as launched. */
  function VulkanGroups(n: nat, wg: nat, maxX: nat): (nat, nat) {
    (GridX(n, wg, maxX) % U32, GridY(n, wg, maxX) % U32)
  }

  lemma CeilDivIs(n: nat, d: nat, q: nat)
    requires d > 0 && q == CeilDiv(n, d)
    ensures n <= q * d && (q > 0 ==> (q - 1) * d < n)
  {
    var m := n + d - 1;
    assert m == q * d + m % d;
    if q > 0 {
      Spread(q - 1, 1, d);
    }
  }

  lemma GroupCountIs(n: nat, wg: nat, g: nat)
    requires wg > 0 && g == GroupCount(n, wg)
    ensures 0 < g <= Max(n, 1) && n <= g * wg && (if n > 0 then (g - 1) * wg < n else g == 1)
  {
    var q := CeilDiv(n, wg);
    CeilDivIs(n, wg, q);
    if n > 0 {
      CeilDivBelow(n, wg, q);
    }
  }

  lemma CeilDivBelow(n: nat, d: nat, q: nat)
    requires d > 0 && n > 0 && n <= q * d && (q > 0 ==> (q - 1) * d < n)
    ensures 0 < q <= n
  {
    if q > 0 {
      AtLeast(q - 1, d);
    }
  }

  lemma AtLeast(a: nat, d: nat)
    requires d > 0
    ensures a <= a * d
  {
  }

  lemma RowCountIs(g: nat, gx: nat, gy: nat)
    requires 0 < gx <= g && gy == CeilDiv(g, gx)
    ensures 0 < gy <= g && g <= gy * gx && (gy - 1) * gx < g
  {
    CeilDivIs(g, gx, gy);
    CeilDivBelow(g, gx, gy);
  }

  /** The grid has a lane for every index, one row fewer would not, and it has at most as many groups as outputs. */
  lemma GridCovers(n: nat, wg: nat, maxX: nat)
    requires wg > 0
    ensures n <= Lanes(n, wg, maxX)
    ensures 0 < GridX(n, wg, maxX) <= Max(n, 1) && 0 < GridY(n, wg, maxX) <= Max(n, 1)
    ensures n > 0 ==> GridX(n, wg, maxX) * wg * (GridY(n, wg, maxX) - 1) < n
  {
    var g, gx, gy := GroupCount(n, wg), GridX(n, wg, maxX), GridY(n, wg, maxX);
    GroupCountIs(n, wg, g);
    RowCountIs(g, gx, gy);
    GridAlgebra(n, wg, g, gx, gy);
  }

  lemma GridAlgebra(n: nat, wg: nat, g: nat, gx: nat, gy: nat)
    requires wg > 0 && g > 0 && n <= g * wg && (n > 0 ==> (g - 1) * wg < n)
    requires g <= gy * gx && gy > 0 && (gy - 1) * gx < g
    ensures n <= gx * wg * gy && (n > 0 ==> gx * wg * (gy - 1) < n)
  {
    Before(g, gy * gx, wg);
    assert gy * gx * wg == gx * wg * gy;
    Before((gy - 1) * gx, g - 1, wg);
    assert (gy - 1) * gx * wg == gx * wg * (gy - 1);
  }

  // ---- The kernel ----

  // `row` is the number of lanes in a row of groups, and `rows` the number of rows.

  ghost predicate Launched(row: nat, rows: nat, x: nat, y: nat) {
    x < row && y < rows
  }

  /** The output index of the invocation at (x, y). */
  function Index(row: nat, x: nat, y: nat): int {
    Signed(x + y * row)
  }

  /** The bound an invocation compares with: the product of the two counts as they were pushed. */
  function Limit(t: nat, c: nat): int {
    Signed(Signed(t) * Signed(c))
  }

  /** The invocation is launched and does not return at the bound. */
  ghost predicate Writes(row: nat, rows: nat, limit: int, x: nat, y: nat) {
    Launched(row, rows, x, y) && Index(row, x, y) < limit
  }

  /** Exactly one invocation writes output i. */
  ghost predicate WrittenOnce(row: nat, rows: nat, limit: int, i: int) {
    && (exists x: nat, y: nat :: Writes(row, rows, limit, x, y) && Index(row, x, y) == i)
    && (forall x: nat, y: nat, u: nat, v: nat ::
          Writes(row, rows, limit, x, y) && Writes(row, rows, limit, u, v) && Index(row, x, y) == i == Index(row, u, v)
          ==> x == u && y == v)
  }

  /** Every one of n outputs is written exactly once, and nothing outside them is written. */
  ghost predicate Exact(row: nat, rows: nat, limit: int, n: nat) {
    && (forall i: nat :: i < n ==> WrittenOnce(row, rows, limit, i))
    && (forall x: nat, y: nat :: Writes(row, rows, limit, x, y) ==> 0 <= Index(row, x, y) < n)
  }

  lemma SignedSmall(a: nat)
    requires a < HALF
    ensures Signed(a) == a
  {
  }

  lemma SignedRange(a: int)
    ensures -HALF <= Signed(a) < HALF
  {
  }

  /** The bound is the output count, cut to 32 bits. */
  lemma LimitIs(t: nat, c: nat, n: nat)
    requires n == t * c
    ensures Limit(t, c) == Signed(n)
  {
    var p, q := (t - Signed(t)) / U32, (c - Signed(c)) / U32;
    assert t == Signed(t) + p * U32 && c == Signed(c) + q * U32;
    SameResidue(t, c, Signed(t), Signed(c), p, q);
  }

  lemma SameResidue(t: int, c: int, a: int, b: int, p: int, q: int)
    requires t == a + p * U32 && c == b + q * U32
    ensures (a * b) % U32 == (t * c) % U32
  {
    var k := a * q + p * b + p * q * U32;
    assert t * c == a * b + k * U32;
    Residue(a * b, k);
  }

  lemma Residue(a: int, k: int)
    ensures (a + k * U32) % U32 == a % U32
  {
  }

  /** Every index below the number of lanes is the flat index of a lane. */
  lemma LaneOf(row: nat, rows: nat, i: nat) returns (x: nat, y: nat)
    requires i < row * rows
    ensures Launched(row, rows, x, y) && x + y * row == i
  {
    NonZero(rows, row, i);
    QuotientBelow(i, rows, row);
    x, y := i % row, i / row;
  }

  /** Within 31 bits of lanes an invocation's index is its flat index. */
  lemma FlatIndex(row: nat, rows: nat, x: nat, y: nat)
    requires Launched(row, rows, x, y) && row * rows <= HALF
    ensures Index(row, x, y) == x + y * row
  {
    Below(y, rows, row, x);
    SignedSmall(x + y * row);
  }

  /** With the outputs and the lanes within 31 bits, the launch is exact. */
  lemma ExactWithin(row: nat, rows: nat, n: nat)
    requires n <= row * rows <= HALF
    ensures Exact(row, rows, n, n)
  {
    forall i: nat | i < n ensures WrittenOnce(row, rows, n, i) {
      OnceWithin(row, rows, n, i);
    }
    forall x: nat, y: nat | Writes(row, rows, n, x, y) ensures 0 <= Index(row, x, y) < n {
      FlatIndex(row, rows, x, y);
    }
  }

  lemma OnceWithin(row: nat, rows: nat, n: nat, i: nat)
    requires i < n <= row * rows <= HALF
    ensures WrittenOnce(row, rows, n, i)
  {
    var x0, y0 := LaneOf(row, rows, i);
    FlatIndex(row, rows, x0, y0);
    assert Writes(row, rows, n, x0, y0) && Index(row, x0, y0) == i;
    forall x: nat, y: nat, u: nat, v: nat |
      Writes(row, rows, n, x, y) && Writes(row, rows, n, u, v) && Index(row, x, y) == i == Index(row, u, v)
      ensures x == u && y == v
    {
      FlatIndex(row, rows, x, y);
      FlatIndex(row, rows, u, v);
      SameQuotient(y, x, v, u, row);
    }
  }

  /** Past 31 bits of outputs the last one is never written, whatever the grid. */
  lemma LastUnwritten(row: nat, rows: nat, limit: int, n: nat)
    requires n >= HALF && limit < HALF
    ensures !Exact(row, rows, limit, n)
  {
    assert forall x: nat, y: nat :: Writes(row, rows, limit, x, y) ==> Index(row, x, y) != n - 1;
    assert !WrittenOnce(row, rows, limit, n - 1);
  }

  /** Past 31 bits of lanes one of them writes below the outputs. */
  lemma WritesBelow(row: nat, rows: nat, n: nat)
    requires HALF < row * rows
    ensures !Exact(row, rows, n, n)
  {
    var x, y := LaneOf(row, rows, HALF);
    assert Index(row, x, y) == -HALF;
    assert Writes(row, rows, n, x, y);
  }

  /**
   * Launch coverage: every output is written exactly once and nothing else is,
   * if and only if the outputs and the lanes of the grid fit 31 bits.
   */
  lemma LaunchExact(t: nat, c: nat, n: nat, wg: nat, maxX: nat)
    requires wg > 0 && n == t * c
    ensures var grid := VulkanGroups(n, wg, maxX);
            Exact(grid.0 * wg, grid.1, Limit(t, c), n) <==> n < HALF && Lanes(n, wg, maxX) <= HALF
  {
    GridCovers(n, wg, maxX);
    LimitIs(t, c, n);
    SignedRange(n);
    if n >= HALF {
      var grid := VulkanGroups(n, wg, maxX);
      LastUnwritten(grid.0 * wg, grid.1, Limit(t, c), n);
    } else {
      SignedSmall(n);
      Uncut(n, wg, maxX);
      if Lanes(n, wg, maxX) <= HALF {
        ExactWithin(GridX(n, wg, maxX) * wg, GridY(n, wg, maxX), n);
      } else {
        WritesBelow(GridX(n, wg, maxX) * wg, GridY(n, wg, maxX), n);
      }
    }
  }

  lemma Uncut(n: nat, wg: nat, maxX: nat)
    requires n < HALF && GridX(n, wg, maxX) <= Max(n, 1) && GridY(n, wg, maxX) <= Max(n, 1)
    ensures VulkanGroups(n, wg, maxX) == (GridX(n, wg, maxX), GridY(n, wg, maxX))
  {
    Fits(GridX(n, wg, maxX));
    Fits(GridY(n, wg, maxX));
  }

  lemma Fits(a: nat)
    requires a < U32
    ensures a % U32 == a
  {
  }

  /** At 2^31 outputs the bound is the least number and no invocation writes at all. */
  lemma NothingWritten(t: nat, c: nat, row: nat, rows: nat, x: nat, y: nat)
    requires t * c == HALF
    ensures !Writes(row, rows, Limit(t, c), x, y)
  {
    LimitIs(t, c, HALF);
    SignedRange(x + y * row);
  }

  // ---- The launch the operator makes ----

  const VULKAN_WG: nat := 64
  const MAX_GROUPS_X: nat := 65535

  /** 512 full rows of groups, a little under 2^31 outputs. */
  const MOST: nat := 65535 * 64 * 512

  lemma OperatorLanes(n: nat)
    ensures Lanes(n, VULKAN_WG, MAX_GROUPS_X) <= HALF <==> n <= MOST
  {
    var g, gx, gy := GroupCount(n, 64), GridX(n, 64, 65535), GridY(n, 64, 65535);
    GroupCountIs(n, 64, g);
    RowCountIs(g, gx, gy);
    if g <= 65535 {
      assert gx == g;
      OneRow(g);
    } else {
      assert gx == 65535;
      WideLanes(n, g, gy);
    }
  }

  lemma OneRow(g: nat)
    requires g > 0
    ensures CeilDiv(g, g) == 1
  {
    Digit(1, g, g - 1);
  }

  lemma WideLanes(n: nat, g: nat, gy: nat)
    requires g > 65535 && n <= g * 64 && (g - 1) * 64 < n && g <= gy * 65535 && gy > 0 && (gy - 1) * 65535 < g
    ensures 65535 * 64 * gy <= HALF <==> n <= MOST
  {
  }

  /** With the operator's own constants the launch is exact for at most 512 full rows of groups, and for no more. */
  lemma OperatorLaunch(t: nat, c: nat, n: nat)
    requires n == t * c
    ensures var grid := VulkanGroups(n, VULKAN_WG, MAX_GROUPS_X);
            Exact(grid.0 * VULKAN_WG, grid.1, Limit(t, c), n) <==> n <= MOST
  {
    OperatorLanes(n);
    LaunchExact(t, c, n, VULKAN_WG, MAX_GROUPS_X);
  }
}
