/**
 * Grouped-query attention over cached rows (src/attention.rs): the query heads
 * of one KV head are folded into its row dimension, and the context comes out
 * through one of two reshape/permute forms.  Tensors are flat and contiguous,
 * so a reshape is the identity and a permute is an index map.
 */
module AttentionLayout {
  import opened Wrappers
  import opened Indices
  import opened KvRows
  import opened AttentionRow

  // ---- The causal mask ----

  /** The additive mask for `rows` new positions after `past` cached ones; its width is rows + past. */
  datatype Mask = Mask(rows: nat, past: nat)

  predicate Blocked(m: Mask, i: nat, j: nat) {
    j > i + m.past
  }

  /** The mask the attention uses: the caller's when its width fits, else one rebuilt from the cache. */
  function MaskFor(mask: Option<Mask>, s: nat, t: nat): Option<Mask> {
    match mask
    case None => None
    case Some(m) =>
      if m.rows == s && m.rows + m.past == t then mask
      else Some(Mask(s, if s < t then t - s else 0))
  }

  /** How many positions row i sees. */
  function Seen(mask: Option<Mask>, s: nat, t: nat, i: nat): nat {
    match MaskFor(mask, s, t)
    case None => t
    case Some(m) => if i + m.past + 1 < t then i + m.past + 1 else t
  }

  /**
   * Whatever offset the caller built the mask for, row i of the chunk sees
   * exactly the positions up to its own; so does a single unmasked row.
   */
  lemma SeesItsPast(mask: Option<Mask>, s: nat, t: nat, i: nat)
    requires i < s <= t && (mask.Some? || s == 1)
    ensures Seen(mask, s, t, i) == t - s + i + 1
    ensures mask.Some? ==>
              forall j: nat :: j < t ==> (Blocked(MaskFor(mask, s, t).value, i, j) <==> j >= Seen(mask, s, t, i))
  {
  }

  // ---- Flat indices ----

  /** Row r of group bg among groups of rep * s rows, seen as position i of member p. */
  lemma FoldedRow(bg: nat, rep: nat, s: nat, p: nat, i: nat)
    requires p < rep && i < s
    ensures p * s + i < rep * s
    ensures (bg * rep + p) * s + i == bg * (rep * s) + (p * s + i)
    ensures ((bg * rep + p) * s + i) / (rep * s) == bg && ((bg * rep + p) * s + i) % s == i
  {
    Below(p, rep, s, i);
    Spread(bg * rep, p, s);
    assert bg * rep * s == bg * (rep * s);
    Digit(bg, rep * s, p * s + i);
    Digit(bg * rep + p, s, i);
  }

  // ---- One call ----

  datatype Problem = Problem(b: nat, nKv: nat, rep: nat, s: nat, t: nat, dk: nat, dv: nat, q: seq<real>,
                             keys: seq<seq<Row>>, values: seq<seq<Row>>, mask: Option<Mask>, scale: real)
  {
    ghost predicate Valid() {
      && 0 < nKv && 0 < rep && 0 < s && 0 < t
      && |q| == b * nKv * rep * s * dk
      && Listed(keys, b * nKv, t, dk) && Listed(values, b * nKv, t, dv)
    }
  }

  /** Lists of t rows of width d for every head. */
  ghost predicate Listed(lists: seq<seq<Row>>, heads: nat, t: nat, d: nat) {
    |lists| == heads && forall h :: 0 <= h < heads ==> |lists[h]| == t && Wide(lists[h], d)
  }

  lemma RowBounds(p: Problem, y: nat)
    requires p.Valid() && y < p.b * p.nKv * p.rep * p.s
    ensures y * p.dk + p.dk <= |p.q| && p.rep * p.s > 0 && y / (p.rep * p.s) < p.b * p.nKv
  {
    Spread(y, 1, p.dk);
    Before(y + 1, p.b * p.nKv * p.rep * p.s, p.dk);
    assert p.rep * p.s > 0;
    assert p.b * p.nKv * p.rep * p.s == p.b * p.nKv * (p.rep * p.s);
    QuotientBelow(y, p.b * p.nKv, p.rep * p.s);
  }

  /**
   * Column c of row y of the folded product: row y of the folded queries, the
   * scores masked by the position y % s it has in the [heads, s] view, against
   * the KV head y / (rep * s).
   */
  function Folded(p: Problem, exp: real -> real, y: nat, c: nat): real
    requires p.Valid() && Positive(exp) && y < p.b * p.nKv * p.rep * p.s && c < p.dv
  {
    RowBounds(p, y);
    RowContext(p, exp, y * p.dk, y / (p.rep * p.s), y % p.s, c)
  }

  /** Column c of the query row that starts at `from`, as position i, against KV head g. */
  function RowContext(p: Problem, exp: real -> real, from: nat, g: nat, i: nat, c: nat): real
    requires p.Valid() && Positive(exp) && from + p.dk <= |p.q| && g < |p.keys| && i < p.s && c < p.dv
  {
    Context(p.q[from..from + p.dk], p.keys[g], p.values[g], Seen(p.mask, p.s, p.t, i), p.scale, exp, c)
  }

  // ---- The two output forms ----

  /** Coordinates of a flat index in shape [b, s, nKv, rep, dv]. */
  datatype Coord = Coord(bi: nat, i: nat, g: nat, p: nat, c: nat)

  function Decode(p: Problem, z: nat): (r: Coord)
    requires 0 < p.s && 0 < p.nKv && 0 < p.rep && 0 < p.dv
  {
    Digits(z, p.s, p.nKv, p.rep, p.dv)
  }

  function Digits(z: nat, s: nat, n: nat, rep: nat, d: nat): (r: Coord)
    requires 0 < s && 0 < n && 0 < rep && 0 < d
  {
    var w := Quotient(z, d);
    var v := Quotient(w, rep);
    var u := Quotient(v, n);
    Coord(Quotient(u, s), u % s, v % n, w % rep, z % d)
  }

  function Quotient(x: nat, n: nat): nat
    requires 0 < n
  {
    x / n
  }

  /** Where head h = g * rep + p of position i puts column c in the [b, s, heads * dv] result. */
  function OutIndex(p: Problem, x: Coord): nat {
    (x.bi * p.s + x.i) * (p.nKv * p.rep * p.dv) + (x.g * p.rep + x.p) * p.dv + x.c
  }

  ghost predicate InShape(p: Problem, x: Coord) {
    x.bi < p.b && x.i < p.s && x.g < p.nKv && x.p < p.rep && x.c < p.dv
  }

  lemma DecodeOut(p: Problem, x: Coord)
    requires p.Valid() && InShape(p, x)
    ensures Decode(p, OutIndex(p, x)) == x
    ensures OutIndex(p, x) < p.b * p.s * p.nKv * p.rep * p.dv
  {
    var u := x.bi * p.s + x.i;
    var v := u * p.nKv + x.g;
    var w := v * p.rep + x.p;
    OutIndexNested(u, p.nKv, p.rep, p.dv, x.g, x.p, x.c);
    Digit(w, p.dv, x.c);
    Digit(v, p.rep, x.p);
    Digit(u, p.nKv, x.g);
    Digit(x.bi, p.s, x.i);
    Below(x.bi, p.b, p.s, x.i);
    Below(u, p.b * p.s, p.nKv, x.g);
    Below(v, p.b * p.s * p.nKv, p.rep, x.p);
    Below(w, p.b * p.s * p.nKv * p.rep, p.dv, x.c);
  }

  lemma OutIndexNested(u: nat, n: nat, rep: nat, d: nat, g: nat, p: nat, c: nat)
    ensures u * (n * rep * d) + (g * rep + p) * d + c == ((u * n + g) * rep + p) * d + c
  {
    Spread(u * n, g, rep);
    Spread((u * n) * rep, g * rep + p, d);
    assert (u * n) * rep * d == u * (n * rep * d);
  }

  /** Every flat index has coordinates in the shape. */
  lemma DecodeInShape(p: Problem, z: nat)
    requires p.Valid() && z < p.b * p.s * p.nKv * p.rep * p.dv
    ensures 0 < p.dv && InShape(p, Decode(p, z))
  {
    DigitsBelow(z, p.b, p.s, p.nKv, p.rep, p.dv, p.b * p.s, p.b * p.s * p.nKv, p.b * p.s * p.nKv * p.rep);
  }

  lemma DigitsBelow(z: nat, b: nat, s: nat, n: nat, rep: nat, d: nat, b1: nat, b2: nat, b3: nat)
    requires 0 < s && 0 < n && 0 < rep && b1 == b * s && b2 == b1 * n && b3 == b2 * rep && z < b3 * d
    ensures 0 < d && Digits(z, s, n, rep, d).bi < b
  {
    NonZero(b3, d, z);
    QuotientBelow(z, b3, d);
    QuotientBelow(z / d, b2, rep);
    QuotientBelow(z / d / rep, b1, n);
    QuotientBelow(z / d / rep / n, b, s);
  }

  /** The flat row of a coordinate in the folded [b, nKv, rep * s] view, read as [b, nKv, rep, s]. */
  function FoldedIndex(p: Problem, x: Coord): nat {
    ((x.bi * p.nKv + x.g) * p.rep + x.p) * p.s + x.i
  }

  lemma FoldedInRange(p: Problem, x: Coord)
    requires p.Valid() && InShape(p, x)
    ensures FoldedIndex(p, x) < p.b * p.nKv * p.rep * p.s
  {
    Below(x.bi, p.b, p.nKv, x.g);
    Below(x.bi * p.nKv + x.g, p.b * p.nKv, p.rep, x.p);
    Below((x.bi * p.nKv + x.g) * p.rep + x.p, p.b * p.nKv * p.rep, p.s, x.i);
  }

  /**
   * The CPU form: probabilities times values, [b, nKv, rep * s, dv], read as
   * [b, nKv, rep, s, dv] and permuted by (0, 3, 1, 2, 4).
   */
  function CpuOut(p: Problem, exp: real -> real, z: nat): real
    requires p.Valid() && Positive(exp) && z < p.b * p.s * p.nKv * p.rep * p.dv
  {
    DecodeInShape(p, z);
    var x := Decode(p, z);
    FoldedInRange(p, x);
    Folded(p, exp, FoldedIndex(p, x), x.c)
  }

  /** Row and column of a flat index in shape [groups, d, r], with the row counted in [groups, r]. */
  function RowOf(u: nat, r: nat, d: nat): nat
    requires 0 < r && 0 < d
  {
    Before(0, u / r / d, r);
    Quotient(Quotient(u, r), d) * r + u % r
  }

  function ColumnOf(u: nat, r: nat, d: nat): nat
    requires 0 < r && 0 < d
  {
    u / r % d
  }

  /**
   * The accelerator's product, transposed values times transposed
   * probabilities: a flat index of shape [b, nKv, dv, rep * s].
   */
  function Transposed(p: Problem, exp: real -> real, u: nat): real
    requires p.Valid() && Positive(exp) && u < p.b * p.nKv * p.dv * (p.rep * p.s)
  {
    TransposedInRange(p, u);
    Folded(p, exp, RowOf(u, p.rep * p.s, p.dv), ColumnOf(u, p.rep * p.s, p.dv))
  }

  lemma TransposedInRange(p: Problem, u: nat)
    requires p.Valid() && u < p.b * p.nKv * p.dv * (p.rep * p.s)
    ensures 0 < p.rep * p.s && 0 < p.dv
    ensures RowOf(u, p.rep * p.s, p.dv) < p.b * p.nKv * p.rep * p.s && ColumnOf(u, p.rep * p.s, p.dv) < p.dv
  {
    NonZero(p.b * p.nKv * p.dv, p.rep * p.s, u);
    RowOfBelow(u, p.b * p.nKv, p.dv, p.rep * p.s, p.b * p.nKv * p.dv);
    assert p.b * p.nKv * (p.rep * p.s) == p.b * p.nKv * p.rep * p.s;
  }

  lemma RowOfBelow(u: nat, g: nat, d: nat, r: nat, gd: nat)
    requires 0 < r && gd == g * d && u < gd * r
    ensures 0 < d && RowOf(u, r, d) < g * r && ColumnOf(u, r, d) < d
  {
    QuotientBelow(u, gd, r);
    NonZero(g, d, u / r);
    QuotientBelow(u / r, g, d);
    Below(u / r / d, g, r, u % r);
  }

  /** The flat index of a coordinate read as [b, nKv, dv, rep, s]. */
  function TransposedIndex(p: Problem, x: Coord): nat {
    (((x.bi * p.nKv + x.g) * p.dv + x.c) * p.rep + x.p) * p.s + x.i
  }

  lemma TransposedAt(p: Problem, x: Coord)
    requires p.Valid() && InShape(p, x)
    ensures p.rep * p.s > 0
    ensures TransposedIndex(p, x) < p.b * p.nKv * p.dv * (p.rep * p.s)
    ensures var u, r := TransposedIndex(p, x), p.rep * p.s;
            RowOf(u, r, p.dv) == FoldedIndex(p, x) && ColumnOf(u, r, p.dv) == x.c
  {
    Below(x.bi, p.b, p.nKv, x.g);
    assert p.rep * p.s > 0;
    TransposedScalars(x.bi * p.nKv + x.g, p.b * p.nKv, p.dv, p.rep, p.s, x.c, x.p, x.i, p.rep * p.s, p.b * p.nKv * p.dv,
                      TransposedIndex(p, x));
  }

  lemma TransposedScalars(bg: nat, groups: nat, d: nat, rep: nat, s: nat, c: nat, p: nat, i: nat, r: nat, gd: nat,
                          u: nat)
    requires bg < groups && c < d && p < rep && i < s && 0 < r && r == rep * s && gd == groups * d
    requires u == ((bg * d + c) * rep + p) * s + i
    ensures u < gd * r && RowOf(u, r, d) == (bg * rep + p) * s + i && ColumnOf(u, r, d) == c
  {
    FoldedRow(bg * d + c, rep, s, p, i);
    FoldedRow(bg, rep, s, p, i);
    Digits2(bg, d, c, r, p * s + i);
    Below(bg, groups, d, c);
    Below(bg * d + c, gd, r, p * s + i);
  }

  lemma Digits2(a: nat, d: nat, c: nat, r: nat, m: nat)
    requires c < d && m < r
    ensures RowOf((a * d + c) * r + m, r, d) == a * r + m && ColumnOf((a * d + c) * r + m, r, d) == c
  {
    Digit(a * d + c, r, m);
    Digit(a, d, c);
  }

  /** The accelerator form: read as [b, nKv, dv, rep, s] and permuted by (0, 4, 1, 3, 2). */
  function AcceleratorOut(p: Problem, exp: real -> real, z: nat): real
    requires p.Valid() && Positive(exp) && z < p.b * p.s * p.nKv * p.rep * p.dv
  {
    DecodeInShape(p, z);
    var x := Decode(p, z);
    TransposedAt(p, x);
    Transposed(p, exp, TransposedIndex(p, x))
  }

  /** Both forms give the same flat result, for every shape. */
  lemma LayoutsAgree(p: Problem, exp: real -> real, z: nat)
    requires p.Valid() && Positive(exp) && z < p.b * p.s * p.nKv * p.rep * p.dv
    ensures AcceleratorOut(p, exp, z) == CpuOut(p, exp, z)
  {
    DecodeInShape(p, z);
    TransposedAt(p, Decode(p, z));
    FoldedInRange(p, Decode(p, z));
  }

  // ---- Against repeated KV heads ----

  /** KV heads repeated rep times along the head axis. */
  function RepeatKv<T>(lists: seq<T>, rep: nat): (r: seq<T>)
    requires rep > 0
    ensures |r| == |lists| * rep
  {
    if rep == 1 then lists
    else seq(|lists| * rep, x requires 0 <= x < |lists| * rep => QuotientBelow(x, |lists|, rep); lists[x / rep])
  }

  lemma RepeatedAt<T>(lists: seq<T>, rep: nat, g: nat, p: nat, h: nat)
    requires g < |lists| && p < rep && h == g * rep + p
    ensures h < |RepeatKv(lists, rep)| && RepeatKv(lists, rep)[h] == lists[g]
  {
    Below(g, |lists|, rep, p);
    Digit(g, rep, p);
  }

  /**
   * Both forms compute plain attention with repeated KV heads: at batch bi,
   * position i, head g * rep + p and column c stands the query row of that
   * head and position against that repeated head.
   */
  lemma FoldIsRepeat(p: Problem, exp: real -> real, x: Coord, z: nat, h: nat, from: nat)
    requires p.Valid() && Positive(exp) && InShape(p, x)
    requires z == OutIndex(p, x) && h == (x.bi * p.nKv + x.g) * p.rep + x.p && from == (h * p.s + x.i) * p.dk
    ensures z < p.b * p.s * p.nKv * p.rep * p.dv && from + p.dk <= |p.q|
    ensures h < |RepeatKv(p.keys, p.rep)| == |RepeatKv(p.values, p.rep)|
    ensures Wide(RepeatKv(p.keys, p.rep)[h], p.dk)
    ensures |RepeatKv(p.keys, p.rep)[h]| == |RepeatKv(p.values, p.rep)[h]| == p.t
    ensures Wide(RepeatKv(p.values, p.rep)[h], p.dv)
    ensures CpuOut(p, exp, z) == AcceleratorOut(p, exp, z)
         == Context(p.q[from..from + p.dk], RepeatKv(p.keys, p.rep)[h], RepeatKv(p.values, p.rep)[h],
                    Seen(p.mask, p.s, p.t, x.i), p.scale, exp, x.c)
  {
    var g := x.bi * p.nKv + x.g;
    DecodeOut(p, x);
    LayoutsAgree(p, exp, z);
    FoldedInRange(p, x);
    RowBounds(p, FoldedIndex(p, x));
    FoldedRow(g, p.rep, p.s, x.p, x.i);
    Below(x.bi, p.b, p.nKv, x.g);
    RepeatedAt(p.keys, p.rep, g, x.p, h);
    RepeatedAt(p.values, p.rep, g, x.p, h);
  }
}
