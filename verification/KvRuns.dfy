/**
 * Whole runs of a KV cache and of a fork of it (src/attention.rs): appends and
 * truncations to either, in any order.
 */
module KvRuns {
  import opened KvRows
  import opened KvCache

  /** What a cache holds: its shape, and the rows of every head. */
  datatype Contents = Contents(b: nat, nKv: nat, dk: nat, dv: nat, keys: seq<seq<Row>>, values: seq<seq<Row>>)
  {
    ghost predicate Valid() {
      |keys| == |values| == b * nKv
    }
  }

  ghost function View(c: SeqKvCache): (r: Contents)
    requires c.Valid()
    reads c, c.k, c.v
    ensures r.Valid()
  {
    Contents(c.b, c.nKv, c.dk, c.dv, c.Keys(), c.Values())
  }

  datatype Op = Append(k: Block, v: Block) | Truncate(keep: nat)
  {
    ghost predicate Valid() {
      Append? ==> k.Valid() && v.Valid()
    }
  }

  ghost predicate Fits(c: Contents, k: Block, v: Block) {
    && (v.b, v.heads, v.seqLen) == (k.b, k.heads, k.seqLen)
    && (c.b, c.nKv) == (k.b, k.heads) && c.dk == k.d && c.dv == v.d
  }

  /** One operation on the lists: a block that does not fit changes nothing. */
  ghost function After(c: Contents, op: Op): (r: Contents)
    requires c.Valid() && op.Valid()
    ensures r.Valid()
  {
    match op
    case Append(k, v) =>
      if Fits(c, k, v) then c.(keys := Joined(c.keys, k.Lists()), values := Joined(c.values, v.Lists())) else c
    case Truncate(keep) => c.(keys := Prefixes(c.keys, keep), values := Prefixes(c.values, keep))
  }

  ghost predicate AllValid(ops: seq<Op>) {
    forall i :: 0 <= i < |ops| ==> ops[i].Valid()
  }

  ghost function AfterAll(c: Contents, ops: seq<Op>): (r: Contents)
    requires c.Valid() && AllValid(ops)
    ensures r.Valid()
  {
    if ops == [] then c else After(AfterAll(c, ops[..|ops| - 1]), ops[|ops| - 1])
  }

  lemma AfterSnoc(c: Contents, ops: seq<Op>, op: Op)
    requires c.Valid() && AllValid(ops) && op.Valid()
    ensures AllValid(ops + [op]) && AfterAll(c, ops + [op]) == After(AfterAll(c, ops), op)
  {
    assert (ops + [op])[..|ops|] == ops;
  }

  /** An operation on the buffers is the operation on the lists. */
  method Perform(c: SeqKvCache, op: Op)
    requires c.Valid() && op.Valid()
    modifies c, c.k, c.v
    ensures c.Valid() && View(c) == After(old(View(c)), op)
    ensures (c.k == old(c.k) || fresh(c.k)) && (c.v == old(c.v) || fresh(c.v))
  {
    match op
    case Append(k, v) =>
      var _ := c.Append(k, v);
    case Truncate(keep) =>
      c.Truncate(keep);
  }

  /** An operation on the fork, or on the original. */
  datatype SideOp = SideOp(onCopy: bool, op: Op)

  ghost predicate AllSidesValid(ops: seq<SideOp>) {
    forall i :: 0 <= i < |ops| ==> ops[i].op.Valid()
  }

  /** The operations of one side, in order. */
  ghost function Of(ops: seq<SideOp>, onCopy: bool): (r: seq<Op>)
    requires AllSidesValid(ops)
    ensures AllValid(r)
  {
    if ops == [] then []
    else
      var n := |ops| - 1;
      Of(ops[..n], onCopy) + if ops[n].onCopy == onCopy then [ops[n].op] else []
  }

  ghost function Forked(c: Contents, keep: nat): (r: Contents)
    requires c.Valid()
    ensures r.Valid()
  {
    c.(keys := Prefixes(c.keys, keep), values := Prefixes(c.values, keep))
  }

  /** The two caches share nothing. */
  ghost predicate Apart(a: SeqKvCache, b: SeqKvCache)
    reads a, b
  {
    {a, a.k, a.v} !! {b, b.k, b.v}
  }

  /** What `side` holds after its part of the first n operations. */
  ghost function SideAfter(c: Contents, ops: seq<SideOp>, n: nat, onCopy: bool): Contents
    requires c.Valid() && AllSidesValid(ops) && n <= |ops|
  {
    AfterAll(c, Of(ops[..n], onCopy))
  }

  lemma SideStep(c: Contents, ops: seq<SideOp>, n: nat, onCopy: bool)
    requires c.Valid() && AllSidesValid(ops) && n < |ops|
    ensures SideAfter(c, ops, n, onCopy).Valid()
    ensures SideAfter(c, ops, n + 1, onCopy)
         == if ops[n].onCopy == onCopy then After(SideAfter(c, ops, n, onCopy), ops[n].op)
             else SideAfter(c, ops, n, onCopy)
  {
    var done := Of(ops[..n], onCopy);
    assert ops[..n + 1][..n] == ops[..n];
    if ops[n].onCopy == onCopy {
      AfterSnoc(c, done, ops[n].op);
    } else {
      assert Of(ops[..n + 1], onCopy) == done + [] == done;
    }
  }

  /**
   * A fork and its original are isolated: after any appends and truncations to
   * either, in any order, each holds what its own operations alone leave it.
   */
  method ForkedRun(cache: SeqKvCache, keep: nat, ops: seq<SideOp>) returns (copy: SeqKvCache)
    requires cache.Valid() && AllSidesValid(ops)
    modifies cache, cache.k, cache.v
    ensures cache.Valid() && copy.Valid() && fresh(copy) && Apart(cache, copy)
    ensures View(cache) == AfterAll(old(View(cache)), Of(ops, false))
    ensures View(copy) == AfterAll(Forked(old(View(cache)), keep), Of(ops, true))
  {
    ghost var origin := View(cache);
    copy := cache.Fork(keep);
    assert View(copy) == Forked(origin, keep);
    for n := 0 to |ops|
      invariant cache.Valid() && copy.Valid() && Apart(cache, copy)
      invariant fresh(copy) && fresh(copy.k) && fresh(copy.v)
      invariant (cache.k == old(cache.k) || fresh(cache.k)) && (cache.v == old(cache.v) || fresh(cache.v))
      invariant View(cache) == SideAfter(origin, ops, n, false)
      invariant View(copy) == SideAfter(Forked(origin, keep), ops, n, true)
    {
      SideStep(origin, ops, n, false);
      SideStep(Forked(origin, keep), ops, n, true);
      if ops[n].onCopy {
        Perform(copy, ops[n].op);
      } else {
        Perform(cache, ops[n].op);
      }
    }
    assert ops[..|ops|] == ops;
  }
}
