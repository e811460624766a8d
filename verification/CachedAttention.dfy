/**
 * Attention through the KV cache (src/attention.rs, `cached_attention`), and
 * its independence from how a sequence is cut into calls.
 */
module CachedAttention {
  import opened Wrappers
  import opened Indices
  import opened KvRows
  import opened KvCache
  import opened AttentionRow
  import opened AttentionLayout
  import Moments

  // ---- One call ----

  /** The shapes the folded products need. */
  predicate Foldable(q: Block, b: nat, nKv: nat, dk: nat) {
    q.b == b && q.d == dk && nKv > 0 && q.heads == nKv * (q.heads / nKv)
  }

  /** Queries, if there are any, have some position to attend to. */
  predicate Attendable(q: Block, t: nat) {
    q.heads == 0 || q.seqLen == 0 || t > 0
  }

  function ProblemOf(q: Block, nKv: nat, dv: nat, t: nat, keys: seq<seq<Row>>, values: seq<seq<Row>>,
                     mask: Option<Mask>, scale: real): Problem
    requires nKv > 0
  {
    Problem(q.b, nKv, q.heads / nKv, q.seqLen, t, q.d, dv, q.data, keys, values, mask, scale)
  }

  function Size(p: Problem): nat {
    p.b * p.s * p.nKv * p.rep * p.dv
  }

  /** The flat result of one call, in the CPU's form. */
  function Outputs(p: Problem, exp: real -> real): (r: seq<real>)
    requires p.Valid() && Positive(exp)
    ensures |r| == Size(p)
  {
    seq(Size(p), z requires 0 <= z < Size(p) => CpuOut(p, exp, z))
  }

  /** Empty lists for every head: the cache before its first block. */
  function NoRows(heads: nat): (r: seq<seq<Row>>)
    ensures |r| == heads
  {
    seq(heads, h => [])
  }

  lemma ProblemValid(p: Problem, q: Block)
    requires q.Valid() && p.b == q.b && p.s == q.seqLen && p.dk == q.d && p.q == q.data && q.heads == p.nKv * p.rep
    requires 0 < p.nKv && 0 < p.rep && 0 < p.s && 0 < p.t
    requires Listed(p.keys, p.b * p.nKv, p.t, p.dk) && Listed(p.values, p.b * p.nKv, p.t, p.dv)
    ensures p.Valid()
  {
    assert q.b * (p.nKv * p.rep) == q.b * p.nKv * p.rep;
  }

  lemma HeadListsListed(a: seq<real>, heads: nat, pitch: nat, d: nat, len: nat)
    requires |a| == heads * pitch * d && len <= pitch
    ensures Listed(HeadLists(a, heads, pitch, d, len), heads, len, d)
  {
    forall h | 0 <= h < heads ensures Wide(Rows(a, heads, pitch, d, h, len), d) {
      RowsWide(a, heads, pitch, d, h, len);
    }
  }

  lemma RowsWide(a: seq<real>, heads: nat, pitch: nat, d: nat, h: nat, len: nat)
    requires |a| == heads * pitch * d && h < heads && len <= pitch
    ensures Wide(Rows(a, heads, pitch, d, h, len), d)
  {
    forall i | 0 <= i < len ensures |Rows(a, heads, pitch, d, h, len)[i]| == d {
      InHead(h, heads, pitch, i, 1, d);
    }
  }

  lemma BlockListed(block: Block)
    requires block.Valid()
    ensures Listed(block.Lists(), block.b * block.heads, block.seqLen, block.d)
  {
    HeadListsListed(block.data, block.b * block.heads, block.seqLen, block.d, block.seqLen);
  }

  lemma NothingCached(a: seq<real>, heads: nat, pitch: nat, d: nat)
    requires |a| == heads * pitch * d
    ensures HeadLists(a, heads, pitch, d, 0) == NoRows(heads)
  {
  }

  /** The cache for this call: the layer's, or a new empty one. */
  method Opened(cache: SeqKvCache?, kNew: Block, vNew: Block) returns (c: SeqKvCache)
    requires cache != null ==> cache.Valid()
    ensures c.Valid() && (cache != null ==> c == cache)
    ensures cache == null ==>
              && fresh(c) && fresh(c.k) && fresh(c.v)
              && (c.b, c.nKv, c.dk, c.dv) == (kNew.b, kNew.heads, kNew.d, vNew.d)
              && c.len == 0 && c.Keys() == NoRows(c.b * c.nKv) && c.Values() == NoRows(c.b * c.nKv)
  {
    if cache != null {
      return cache;
    }
    c := new SeqKvCache(kNew, vNew);
    NothingCached(c.k[..], c.b * c.nKv, c.cap, c.dk);
    NothingCached(c.v[..], c.b * c.nKv, c.cap, c.dv);
  }

  /** The attention over what the cache holds, in the form the device uses. */
  method Computed(c: SeqKvCache, q: Block, mask: Option<Mask>, scale: real, exp: real -> real, cpu: bool)
    returns (r: seq<real>)
    requires c.Valid() && q.Valid() && Positive(exp) && Foldable(q, c.b, c.nKv, c.dk) && Attendable(q, c.len)
    ensures Answers(c, q, mask, scale, exp, r)
  {
    if q.heads == 0 || q.seqLen == 0 {
      return [];
    }
    var p := ProblemOf(q, c.nKv, c.dv, c.len, c.Keys(), c.Values(), mask, scale);
    HeadListsListed(c.k[..], c.b * c.nKv, c.cap, c.dk, c.len);
    HeadListsListed(c.v[..], c.b * c.nKv, c.cap, c.dv, c.len);
    ProblemValid(p, q);
    if cpu {
      return Outputs(p, exp);
    }
    r := seq(Size(p), z requires 0 <= z < Size(p) => AcceleratorOut(p, exp, z));
    forall z | 0 <= z < Size(p) ensures r[z] == Outputs(p, exp)[z] {
      LayoutsAgree(p, exp, z);
    }
  }

  /** The lists after a block went in behind them. */
  ghost predicate Grown(after: seq<seq<Row>>, before: seq<seq<Row>>, block: Block) {
    block.Valid() && |before| == |block.Lists()| && after == Joined(before, block.Lists())
  }

  /** The result is the attention of q over everything the cache holds. */
  ghost predicate Answers(c: SeqKvCache, q: Block, mask: Option<Mask>, scale: real, exp: real -> real, out: seq<real>)
    reads c, c.k, c.v
  {
    && c.Valid() && c.nKv > 0 && Positive(exp)
    && var p := ProblemOf(q, c.nKv, c.dv, c.len, c.Keys(), c.Values(), mask, scale);
       if q.heads == 0 || q.seqLen == 0 then out == [] else p.Valid() && out == Outputs(p, exp)
  }

  predicate Usable(q: Block, kNew: Block, vNew: Block) {
    && kNew.heads > 0 && Foldable(q, kNew.b, kNew.heads, kNew.d)
    && (vNew.b, vNew.heads, vNew.seqLen) == (kNew.b, kNew.heads, kNew.seqLen)
  }

  /** The call on a cache that exists. */
  method AttendOn(c: SeqKvCache, q: Block, kNew: Block, vNew: Block, mask: Option<Mask>, scale: real,
                  exp: real -> real, cpu: bool) returns (r: Result<seq<real>>)
    requires q.Valid() && kNew.Valid() && vNew.Valid() && Positive(exp)
    requires c.Valid() && kNew.heads > 0
    modifies c, c.k, c.v
    ensures c.Valid() && (c.k == old(c.k) || fresh(c.k)) && (c.v == old(c.v) || fresh(c.v))
    ensures (c.b, c.nKv, c.dk, c.dv) == old((c.b, c.nKv, c.dk, c.dv))
    ensures r.Ok? <==> old(c.Fitting(kNew, vNew)) && Foldable(q, kNew.b, kNew.heads, kNew.d)
                       && Attendable(q, old(c.len) + kNew.seqLen)
    ensures old(c.Fitting(kNew, vNew)) ==>
              && Grown(c.Keys(), old(c.Keys()), kNew) && Grown(c.Values(), old(c.Values()), vNew)
              && c.len == old(c.len) + kNew.seqLen
    ensures !old(c.Fitting(kNew, vNew)) ==> c.Keys() == old(c.Keys()) && c.Values() == old(c.Values())
    ensures r.Ok? ==> Answers(c, q, mask, scale, exp, r.value)
  {
    var ok := c.Append(kNew, vNew);
    if !ok || !Foldable(q, kNew.b, kNew.heads, kNew.d) || !Attendable(q, c.len) {
      return Err;
    }
    var out := Computed(c, q, mask, scale, exp, cpu);
    r := Ok(out);
  }

  /**
   * Appends the new rows, then attends over everything cached; both backends'
   * forms give the same result.  A block that does not fit the cache leaves
   * its rows as they were.
   */
  method Attend(cache: SeqKvCache?, q: Block, kNew: Block, vNew: Block, mask: Option<Mask>, scale: real,
                exp: real -> real, cpu: bool) returns (r: Result<seq<real>>, c: SeqKvCache?)
    requires q.Valid() && kNew.Valid() && vNew.Valid() && Positive(exp)
    requires cache != null ==> cache.Valid()
    modifies if cache == null then {} else {cache, cache.k, cache.v}
    ensures cache != null ==> c == cache && (c.k == old(cache.k) || fresh(c.k)) && (c.v == old(cache.v) || fresh(c.v))
    ensures cache == null && c != null ==> fresh(c) && fresh(c.k) && fresh(c.v)
    ensures c != null ==> c.Valid()
    ensures r.Ok? <==> Usable(q, kNew, vNew) && (cache != null ==> old(cache.Fitting(kNew, vNew)))
                       && Attendable(q, (if cache == null then 0 else old(cache.len)) + kNew.seqLen)
    ensures r.Ok? ==> c != null && (c.b, c.nKv, c.dk, c.dv) == (kNew.b, kNew.heads, kNew.d, vNew.d)
    ensures r.Ok? && cache == null ==>
              && Grown(c.Keys(), NoRows(c.b * c.nKv), kNew) && Grown(c.Values(), NoRows(c.b * c.nKv), vNew)
              && c.len == kNew.seqLen
    ensures r.Ok? && cache != null ==>
              && Grown(c.Keys(), old(cache.Keys()), kNew) && Grown(c.Values(), old(cache.Values()), vNew)
              && c.len == old(cache.len) + kNew.seqLen
    ensures r.Ok? ==> Answers(c, q, mask, scale, exp, r.value)
    ensures r.Err? && cache != null && !old(cache.Fitting(kNew, vNew)) ==>
              c.Keys() == old(cache.Keys()) && c.Values() == old(cache.Values())
  {
    if kNew.heads == 0 {
      return Err, cache;
    }
    c := Opened(cache, kNew, vNew);
    r := AttendOn(c, q, kNew, vNew, mask, scale, exp, cpu);
  }

  // ---- A whole sequence, cut into calls ----

  /** One call's projections of its tokens, and the mask its caller built. */
  datatype Chunk = Chunk(q: Block, k: Block, v: Block, mask: Option<Mask>)

  /** The geometry all the calls share. */
  datatype Heads = Heads(b: nat, nKv: nat, rep: nat, dk: nat, dv: nat)

  ghost predicate Suits(c: Chunk, g: Heads) {
    && c.q.Valid() && c.k.Valid() && c.v.Valid()
    && 0 < g.nKv && 0 < g.rep && 0 < c.q.seqLen
    && c.q.seqLen == c.k.seqLen == c.v.seqLen
    && c.q.b == c.k.b == c.v.b == g.b
    && c.k.heads == c.v.heads == g.nKv && c.q.heads == g.nKv * g.rep
    && c.q.d == c.k.d == g.dk && c.v.d == g.dv
    && (c.mask.Some? || c.q.seqLen == 1)
  }

  ghost predicate AllSuit(chunks: seq<Chunk>, g: Heads) {
    forall j :: 0 <= j < |chunks| ==> Suits(chunks[j], g)
  }

  /** The position of the first token after the first n calls. */
  ghost function Start(chunks: seq<Chunk>, n: nat): nat
    requires n <= |chunks|
  {
    if n == 0 then 0 else Start(chunks, n - 1) + chunks[n - 1].k.seqLen
  }

  ghost function AllKeys(chunks: seq<Chunk>, g: Heads, n: nat): (r: seq<seq<Row>>)
    requires AllSuit(chunks, g) && n <= |chunks|
    ensures |r| == g.b * g.nKv
  {
    if n == 0 then NoRows(g.b * g.nKv) else Joined(AllKeys(chunks, g, n - 1), chunks[n - 1].k.Lists())
  }

  ghost function AllValues(chunks: seq<Chunk>, g: Heads, n: nat): (r: seq<seq<Row>>)
    requires AllSuit(chunks, g) && n <= |chunks|
    ensures |r| == g.b * g.nKv
  {
    if n == 0 then NoRows(g.b * g.nKv) else Joined(AllValues(chunks, g, n - 1), chunks[n - 1].v.Lists())
  }

  lemma JoinedListed(a: seq<seq<Row>>, b: seq<seq<Row>>, heads: nat, s: nat, t: nat, d: nat)
    requires Listed(a, heads, s, d) && Listed(b, heads, t, d)
    ensures Listed(Joined(a, b), heads, s + t, d)
  {
  }

  lemma {:induction false} AllListed(chunks: seq<Chunk>, g: Heads, n: nat)
    requires AllSuit(chunks, g) && n <= |chunks|
    ensures Listed(AllKeys(chunks, g, n), g.b * g.nKv, Start(chunks, n), g.dk)
    ensures Listed(AllValues(chunks, g, n), g.b * g.nKv, Start(chunks, n), g.dv)
  {
    if n > 0 {
      AllListed(chunks, g, n - 1);
      var c := chunks[n - 1];
      BlockListed(c.k);
      BlockListed(c.v);
      JoinedListed(AllKeys(chunks, g, n - 1), c.k.Lists(), g.b * g.nKv, Start(chunks, n - 1), c.k.seqLen, g.dk);
      JoinedListed(AllValues(chunks, g, n - 1), c.v.Lists(), g.b * g.nKv, Start(chunks, n - 1), c.k.seqLen, g.dv);
    }
  }

  /** Later calls only add rows behind the earlier ones. */
  lemma {:induction false} EarlierRowsStay(chunks: seq<Chunk>, g: Heads, j: nat, n: nat, h: nat)
    requires AllSuit(chunks, g) && j <= n <= |chunks| && h < g.b * g.nKv
    ensures AllKeys(chunks, g, j)[h] <= AllKeys(chunks, g, n)[h]
    ensures AllValues(chunks, g, j)[h] <= AllValues(chunks, g, n)[h]
    decreases n
  {
    if j < n {
      EarlierRowsStay(chunks, g, j, n - 1, h);
    }
  }

  /** What call j computes: attention over the rows of the first j + 1 calls. */
  ghost function CallProblem(chunks: seq<Chunk>, g: Heads, j: nat, scale: real): Problem
    requires AllSuit(chunks, g) && j < |chunks|
  {
    var c := chunks[j];
    Problem(g.b, g.nKv, g.rep, c.q.seqLen, Start(chunks, j + 1), g.dk, g.dv, c.q.data,
            AllKeys(chunks, g, j + 1), AllValues(chunks, g, j + 1), c.mask, scale)
  }

  lemma CallValid(chunks: seq<Chunk>, g: Heads, j: nat, scale: real)
    requires AllSuit(chunks, g) && j < |chunks|
    ensures CallProblem(chunks, g, j, scale).Valid()
  {
    AllListed(chunks, g, j + 1);
    ProblemValid(CallProblem(chunks, g, j, scale), chunks[j].q);
  }

  /** Runs the calls one after the other on one layer's cache. */
  method RunCalls(chunks: seq<Chunk>, ghost g: Heads, scale: real, exp: real -> real, cpu: bool)
    returns (outs: seq<seq<real>>, cache: SeqKvCache?)
    requires AllSuit(chunks, g) && Positive(exp)
    ensures |outs| == |chunks|
    ensures forall j :: 0 <= j < |chunks| ==>
                          && CallProblem(chunks, g, j, scale).Valid()
                          && outs[j] == Outputs(CallProblem(chunks, g, j, scale), exp)
  {
    outs, cache := [], null;
    var n := 0;
    while n < |chunks|
      invariant 0 <= n <= |chunks| && |outs| == n
      invariant (cache == null) == (n == 0)
      invariant cache != null ==> fresh(cache) && fresh(cache.k) && fresh(cache.v) && cache.Valid()
      invariant cache != null ==> Holds(cache, chunks, g, n)
      invariant forall j :: 0 <= j < n ==>
                              && CallProblem(chunks, g, j, scale).Valid()
                              && outs[j] == Outputs(CallProblem(chunks, g, j, scale), exp)
    {
      var out;
      out, cache := OneCall(cache, chunks, g, n, scale, exp, cpu);
      outs := outs + [out];
      n := n + 1;
    }
  }

  /** The cache holds exactly the rows of the first n calls. */
  ghost predicate Holds(c: SeqKvCache, chunks: seq<Chunk>, g: Heads, n: nat)
    requires AllSuit(chunks, g) && n <= |chunks| && c.Valid()
    reads c, c.k, c.v
  {
    && (c.b, c.nKv, c.dk, c.dv) == (g.b, g.nKv, g.dk, g.dv)
    && c.len == Start(chunks, n)
    && c.Keys() == AllKeys(chunks, g, n) && c.Values() == AllValues(chunks, g, n)
  }

  method OneCall(cache: SeqKvCache?, chunks: seq<Chunk>, ghost g: Heads, n: nat, scale: real, exp: real -> real,
                 cpu: bool)
    returns (out: seq<real>, c: SeqKvCache)
    requires AllSuit(chunks, g) && Positive(exp) && n < |chunks|
    requires cache == null ==> n == 0
    requires cache != null ==> cache.Valid() && Holds(cache, chunks, g, n)
    modifies if cache == null then {} else {cache, cache.k, cache.v}
    ensures c.Valid() && Holds(c, chunks, g, n + 1)
    ensures cache != null ==> c == cache && (c.k == old(cache.k) || fresh(c.k)) && (c.v == old(cache.v) || fresh(c.v))
    ensures cache == null ==> fresh(c) && fresh(c.k) && fresh(c.v)
    ensures CallProblem(chunks, g, n, scale).Valid() && out == Outputs(CallProblem(chunks, g, n, scale), exp)
  {
    var chunk := chunks[n];
    assert Suits(chunk, g);
    Multiple(g.nKv, g.rep);
    var r;
    r, c := Attend(cache, chunk.q, chunk.k, chunk.v, chunk.mask, scale, exp, cpu);
    assert r.Ok?;
    CallValid(chunks, g, n, scale);
    out := r.value;
  }

  lemma Multiple(n: nat, rep: nat)
    requires n > 0 && rep > 0
    ensures n * rep / n == rep && n * rep > 0
  {
    Digit(rep, n, 0);
    assert n * rep == rep * n + 0;
  }

  /**
   * Independence from the cut.  However the sequence is cut into causally
   * masked calls and unmasked single-token calls, and whatever offsets the
   * callers built their masks for, what call j puts at batch bi, position i,
   * head g * rep + p and column c is causal attention over the whole sequence
   * with repeated KV heads: the query of that token against its head's rows,
   * seeing exactly the positions up to its own.
   */
  lemma ChunkIndependent(chunks: seq<Chunk>, g: Heads, j: nat, scale: real, exp: real -> real, x: Coord, p: Problem,
                         kv: nat, h: nat, from: nat, q: Row, keys: seq<Row>, values: seq<Row>)
    requires AllSuit(chunks, g) && Positive(exp) && j < |chunks| && p == CallProblem(chunks, g, j, scale)
    requires InShape(p, x) && kv == x.bi * g.nKv + x.g && h == kv * g.rep + x.p && from == (h * p.s + x.i) * g.dk
    requires from + g.dk <= |p.q| ==> q == p.q[from..from + g.dk]
    requires h < g.b * g.nKv * g.rep && keys == RepeatKv(AllKeys(chunks, g, |chunks|), g.rep)[h]
    requires values == RepeatKv(AllValues(chunks, g, |chunks|), g.rep)[h]
    ensures p.Valid() && OutIndex(p, x) < Size(p) && from + g.dk <= |p.q|
    ensures Causal(q, keys, values, g.dv, Start(chunks, j) + x.i, scale, exp, x.c, Outputs(p, exp)[OutIndex(p, x)])
  {
    Below(x.bi, g.b, g.nKv, x.g);
    RepeatedAt(AllKeys(chunks, g, |chunks|), g.rep, kv, x.p, h);
    RepeatedAt(AllValues(chunks, g, |chunks|), g.rep, kv, x.p, h);
    CallIsCausal(chunks, g, j, scale, exp, x, p, kv, h, from, q, Start(chunks, j) + x.i);
  }

  lemma CallIsCausal(chunks: seq<Chunk>, g: Heads, j: nat, scale: real, exp: real -> real, x: Coord, p: Problem,
                     kv: nat, h: nat, from: nat, q: Row, position: nat)
    requires AllSuit(chunks, g) && Positive(exp) && j < |chunks| && p == CallProblem(chunks, g, j, scale)
    requires InShape(p, x) && kv == x.bi * g.nKv + x.g && h == kv * g.rep + x.p && from == (h * p.s + x.i) * g.dk
    requires from + g.dk <= |p.q| ==> q == p.q[from..from + g.dk]
    requires position == Start(chunks, j) + x.i && kv < g.b * g.nKv
    ensures p.Valid() && OutIndex(p, x) < Size(p) && from + g.dk <= |p.q|
    ensures Causal(q, AllKeys(chunks, g, |chunks|)[kv], AllValues(chunks, g, |chunks|)[kv], g.dv, position, scale,
                   exp, x.c, Outputs(p, exp)[OutIndex(p, x)])
  {
    CallSees(chunks, g, j, scale, exp, x, p, kv, h, from, q, position);
    WholeHead(chunks, g, j, kv);
    LaterRowsUnseen(q, p.keys[kv], p.values[kv], AllKeys(chunks, g, |chunks|)[kv], AllValues(chunks, g, |chunks|)[kv],
                    g.dv, position, scale, exp, x.c, Outputs(p, exp)[OutIndex(p, x)]);
  }

  /** r is column c of the attention of the token at `position` over the rows up to its own. */
  ghost predicate Causal(q: Row, keys: seq<Row>, values: seq<Row>, dv: nat, position: nat, scale: real,
                         exp: real -> real, c: nat, r: real)
  {
    && Positive(exp) && c < dv && position < |keys| == |values|
    && Wide(keys, |q|) && Wide(values, dv)
    && r == Context(q, keys, values, position + 1, scale, exp, c)
  }

  /** So it is the average of the value rows up to its own, under the softmax of its scaled scores with their keys. */
  lemma CausalIsAverage(q: Row, keys: seq<Row>, values: seq<Row>, dv: nat, position: nat, scale: real,
                        exp: real -> real, c: nat, r: real)
    returns (s: seq<Score>, p: seq<real>, top: real, total: real)
    requires Causal(q, keys, values, dv, position, scale, exp, c, r)
    ensures AreScores(s, q, keys, position + 1, scale) && IsSoftmax(p, s, exp, top, total)
    ensures r == Moments.Dot(p, Column(values, c))
    ensures forall t :: position < t < |p| ==> p[t] == 0.0
  {
    s, p, top, total := ContextIsAverage(q, keys, values, position + 1, scale, exp, c);
    forall t | position < t < |p| ensures p[t] == 0.0 {
      assert IsShare(p[t], s[t], exp, top, total);
    }
  }

  lemma CallSees(chunks: seq<Chunk>, g: Heads, j: nat, scale: real, exp: real -> real, x: Coord, p: Problem,
                 kv: nat, h: nat, from: nat, q: Row, position: nat)
    requires AllSuit(chunks, g) && Positive(exp) && j < |chunks| && p == CallProblem(chunks, g, j, scale)
    requires InShape(p, x) && kv == x.bi * g.nKv + x.g && h == kv * g.rep + x.p && from == (h * p.s + x.i) * g.dk
    requires from + g.dk <= |p.q| ==> q == p.q[from..from + g.dk]
    requires position == Start(chunks, j) + x.i
    ensures p.Valid() && OutIndex(p, x) < Size(p) && from + g.dk <= |p.q| && |q| == g.dk
    ensures kv < g.b * g.nKv
    ensures Causal(q, p.keys[kv], p.values[kv], g.dv, position, scale, exp, x.c, Outputs(p, exp)[OutIndex(p, x)])
  {
    CallValid(chunks, g, j, scale);
    CallContext(p, exp, x, kv, h, from, position);
  }

  /** One call against its own cached rows. */
  lemma CallContext(p: Problem, exp: real -> real, x: Coord, kv: nat, h: nat, from: nat, position: nat)
    requires p.Valid() && Positive(exp) && InShape(p, x) && (p.mask.Some? || p.s == 1)
    requires p.s <= p.t && position == p.t - p.s + x.i
    requires kv == x.bi * p.nKv + x.g && h == kv * p.rep + x.p && from == (h * p.s + x.i) * p.dk
    ensures OutIndex(p, x) < Size(p) && from + p.dk <= |p.q| && kv < p.b * p.nKv
    ensures Outputs(p, exp)[OutIndex(p, x)]
         == Context(p.q[from..from + p.dk], p.keys[kv], p.values[kv], position + 1, p.scale, exp, x.c)
  {
    Below(x.bi, p.b, p.nKv, x.g);
    FoldIsRepeat(p, exp, x, OutIndex(p, x), h, from);
    SeesItsPast(p.mask, p.s, p.t, x.i);
    RepeatedAt(p.keys, p.rep, kv, x.p, h);
    RepeatedAt(p.values, p.rep, kv, x.p, h);
  }

  /** A head of the whole sequence begins with the rows it had at call j. */
  lemma WholeHead(chunks: seq<Chunk>, g: Heads, j: nat, kv: nat)
    requires AllSuit(chunks, g) && j < |chunks| && kv < g.b * g.nKv
    ensures var keys, values := AllKeys(chunks, g, |chunks|)[kv], AllValues(chunks, g, |chunks|)[kv];
            && AllKeys(chunks, g, j + 1)[kv] <= keys && AllValues(chunks, g, j + 1)[kv] <= values
            && |keys| == |values| == Start(chunks, |chunks|) && Wide(keys, g.dk) && Wide(values, g.dv)
  {
    EarlierRowsStay(chunks, g, j + 1, |chunks|, kv);
    AllListed(chunks, g, |chunks|);
  }

  /** Rows behind the ones a call saw do not change what it computed. */
  lemma LaterRowsUnseen(q: Row, k1: seq<Row>, v1: seq<Row>, k2: seq<Row>, v2: seq<Row>, dv: nat, position: nat,
                        scale: real, exp: real -> real, c: nat, r: real)
    requires Causal(q, k1, v1, dv, position, scale, exp, c, r)
    requires k1 <= k2 && v1 <= v2 && |k2| == |v2| && Wide(k2, |q|) && Wide(v2, dv)
    ensures Causal(q, k2, v2, dv, position, scale, exp, c, r)
  {
    assert k1[..position + 1] == k2[..position + 1] && v1[..position + 1] == v2[..position + 1];
    SameContext(q, k1, v1, k2, v2, position + 1, scale, exp, c);
  }
}
