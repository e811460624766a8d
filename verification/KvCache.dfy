/**
 * One layer's KV cache (src/attention.rs): preallocated key and value buffers
 * that are appended to in place, grow geometrically, and are truncated without
 * copying.  They refine a plain list of rows per (batch, head).
 */
module KvCache {
  import opened KvRows

  const KV_CACHE_MIN_CAP: nat := 16

  function Max(a: nat, b: nat): nat {
    if a < b then b else a
  }

  /** A contiguous `[b, heads, seqLen, d]` tensor. */
  datatype Block = Block(b: nat, heads: nat, seqLen: nat, d: nat, data: seq<real>)
  {
    ghost predicate Valid() {
      |data| == b * heads * seqLen * d
    }

    /** The block's rows, head by head. */
    ghost function Lists(): (r: seq<seq<Row>>)
      requires Valid()
    {
      HeadLists(data, b * heads, seqLen, d, seqLen)
    }
  }

  /** The first `len` rows of every head. */
  function HeadLists(a: seq<real>, heads: nat, pitch: nat, d: nat, len: nat): (r: seq<seq<Row>>)
    requires |a| == heads * pitch * d && len <= pitch
    ensures |r| == heads
  {
    seq(heads, h requires 0 <= h < heads => Rows(a, heads, pitch, d, h, len))
  }

  /** The lists of two blocks, end to end in every head. */
  ghost function Joined(a: seq<seq<Row>>, b: seq<seq<Row>>): (r: seq<seq<Row>>)
    requires |a| == |b|
    ensures |r| == |a|
  {
    seq(|a|, h requires 0 <= h < |a| => a[h] + b[h])
  }

  /** The first `keep` rows of every head. */
  ghost function Prefixes(a: seq<seq<Row>>, keep: nat): (r: seq<seq<Row>>)
    ensures |r| == |a|
  {
    seq(|a|, h requires 0 <= h < |a| => if keep <= |a[h]| then a[h][..keep] else a[h])
  }

  lemma HeadListsAppend(dst: seq<real>, dp: nat, row: nat, src: seq<real>, sp: nat, heads: nat, n: nat, d: nat)
    requires Fits(dst, dp, row, src, sp, heads, n, d)
    ensures HeadLists(Copied(dst, dp, row, src, sp, heads, n, d, heads), heads, dp, d, row + n)
         == Joined(HeadLists(dst, heads, dp, d, row), HeadLists(src, heads, sp, d, n))
  {
    forall h | 0 <= h < heads
      ensures Rows(Copied(dst, dp, row, src, sp, heads, n, d, heads), heads, dp, d, h, row + n)
           == Rows(dst, heads, dp, d, h, row) + Rows(src, heads, sp, d, h, n)
    {
      CopiedAppends(dst, dp, row, src, sp, heads, n, d, h);
    }
  }

  lemma HeadListsPrefix(a: seq<real>, heads: nat, pitch: nat, d: nat, len: nat, keep: nat)
    requires |a| == heads * pitch * d && keep <= len <= pitch
    ensures HeadLists(a, heads, pitch, d, keep) == Prefixes(HeadLists(a, heads, pitch, d, len), keep)
  {
    forall h | 0 <= h < heads
      ensures Rows(a, heads, pitch, d, h, keep) == Rows(a, heads, pitch, d, h, len)[..keep]
    {
    }
  }

  /** A fresh buffer of `cap` rows a head holding the first `len` rows of the old one. */
  method Carried(old_: array<real>, heads: nat, oldCap: nat, cap: nat, d: nat, len: nat) returns (r: array<real>)
    requires old_.Length == heads * oldCap * d && len <= oldCap && len <= cap
    ensures fresh(r) && r.Length == heads * cap * d
    ensures HeadLists(r[..], heads, cap, d, len) == HeadLists(old_[..], heads, oldCap, d, len)
  {
    r := new real[heads * cap * d](_ => 0.0);
    CarriedLists(r[..], cap, old_[..], oldCap, heads, len, d);
    CopyRows(old_[..], oldCap, r, cap, 0, heads, len, d);
  }

  lemma CarriedLists(dst: seq<real>, dp: nat, src: seq<real>, sp: nat, heads: nat, n: nat, d: nat)
    requires Fits(dst, dp, 0, src, sp, heads, n, d)
    ensures HeadLists(Copied(dst, dp, 0, src, sp, heads, n, d, heads), heads, dp, d, n)
        == HeadLists(src, heads, sp, d, n)
  {
    HeadListsAppend(dst, dp, 0, src, sp, heads, n, d);
    JoinedEmpty(HeadLists(dst, heads, dp, d, 0), HeadLists(src, heads, sp, d, n));
  }

  lemma JoinedEmpty(a: seq<seq<Row>>, b: seq<seq<Row>>)
    requires |a| == |b| && forall h :: 0 <= h < |a| ==> a[h] == []
    ensures Joined(a, b) == b
  {
    forall h | 0 <= h < |a| ensures Joined(a, b)[h] == b[h] {
      assert [] + b[h] == b[h];
    }
  }

  /** The block written after the first `row` rows of every head. */
  method Written(buf: array<real>, heads: nat, cap: nat, row: nat, block: Block)
    requires block.Valid() && block.b * block.heads == heads
    requires buf.Length == heads * cap * block.d && row + block.seqLen <= cap
    modifies buf
    ensures HeadLists(buf[..], heads, cap, block.d, row + block.seqLen)
         == Joined(HeadLists(old(buf[..]), heads, cap, block.d, row), block.Lists())
  {
    HeadListsAppend(buf[..], cap, row, block.data, block.seqLen, heads, block.seqLen, block.d);
    CopyRows(block.data, block.seqLen, buf, cap, row, heads, block.seqLen, block.d);
  }

  class SeqKvCache {
    var k: array<real>
    var v: array<real>
    var b: nat
    var nKv: nat
    var cap: nat
    var dk: nat
    var dv: nat
    var len: nat

    /** The block length the cache was made for, the greatest length reached, the rows a head copied by growth. */
    ghost var first: nat
    ghost var reached: nat
    ghost var copied: nat

    ghost predicate Shape()
      reads this
    {
      k != v && k.Length == b * nKv * cap * dk && v.Length == b * nKv * cap * dv && len <= cap
    }

    /** Amortised growth: the doubling copies are paid for by the longest context. */
    ghost predicate Budget()
      reads this
    {
      && len <= reached
      && copied <= cap
      && copied <= 2 * reached
      && cap <= Max(KV_CACHE_MIN_CAP, 2 * Max(first, reached))
    }

    ghost predicate Valid()
      reads this
    {
      Shape() && Budget()
    }

    function Keys(): (r: seq<seq<Row>>)
      requires Shape()
      reads this, k
    {
      HeadLists(k[..], b * nKv, cap, dk, len)
    }

    function Values(): (r: seq<seq<Row>>)
      requires Shape()
      reads this, v
    {
      HeadLists(v[..], b * nKv, cap, dv, len)
    }

    /** An empty cache with room for twice the first block, and at least the floor. */
    constructor (kNew: Block, vNew: Block)
      ensures Valid() && fresh(k) && fresh(v) && len == 0 && first == kNew.seqLen && copied == 0
      ensures b == kNew.b && nKv == kNew.heads && dk == kNew.d && dv == vNew.d
      ensures cap == Max(2 * kNew.seqLen, KV_CACHE_MIN_CAP)
    {
      var room := Max(kNew.seqLen * 2, KV_CACHE_MIN_CAP);
      b, nKv, dk, dv, cap, len := kNew.b, kNew.heads, kNew.d, vNew.d, room, 0;
      k := new real[kNew.b * kNew.heads * room * kNew.d](_ => 0.0);
      v := new real[kNew.b * kNew.heads * room * vNew.d](_ => 0.0);
      first, reached, copied := kNew.seqLen, 0, 0;
    }

    /** Buffers the caller made, holding `len` rows exactly. */
    constructor Holding(kBuf: array<real>, vBuf: array<real>, b_: nat, nKv_: nat, dk_: nat, dv_: nat, rows: nat)
      requires kBuf != vBuf && kBuf.Length == b_ * nKv_ * rows * dk_ && vBuf.Length == b_ * nKv_ * rows * dv_
      ensures Valid() && k == kBuf && v == vBuf && b == b_ && nKv == nKv_ && dk == dk_ && dv == dv_
      ensures len == cap == first == rows && copied == 0
    {
      k, v, b, nKv, dk, dv, cap, len := kBuf, vBuf, b_, nKv_, dk_, dv_, rows, rows;
      first, reached, copied := rows, rows, 0;
    }

    /** Reallocates with room for `needed` rows, carrying the cached rows over. */
    method Grow(needed: nat)
      requires Shape() && needed > cap
      modifies this`k, this`v, this`cap, this`copied
      ensures Shape() && fresh(k) && fresh(v) && cap == Max(needed, 2 * old(cap)) && copied == old(copied) + len
      ensures Keys() == old(Keys()) && Values() == old(Values())
    {
      var room := Max(needed, cap * 2);
      var nk := Carried(k, b * nKv, cap, room, dk, len);
      var nv := Carried(v, b * nKv, cap, room, dv, len);
      k, v, cap, copied := nk, nv, room, copied + len;
    }

    predicate Fitting(kNew: Block, vNew: Block)
      reads this
    {
      && (vNew.b, vNew.heads, vNew.seqLen) == (kNew.b, kNew.heads, kNew.seqLen)
      && (b, nKv) == (kNew.b, kNew.heads)
      && dk == kNew.d && dv == vNew.d
    }

    /** Every head's list gets the block's rows; a block of another shape changes nothing. */
    method Append(kNew: Block, vNew: Block) returns (ok: bool)
      requires Valid() && kNew.Valid() && vNew.Valid()
      modifies this, k, v
      ensures Valid() && ok == old(Fitting(kNew, vNew))
      ensures !ok ==> unchanged(this) && unchanged(old(k)) && unchanged(old(v))
      ensures (k == old(k) || fresh(k)) && (v == old(v) || fresh(v))
      ensures b == old(b) && nKv == old(nKv) && dk == old(dk) && dv == old(dv) && first == old(first)
      ensures ok ==> len == old(len) + kNew.seqLen && reached == Max(old(reached), len)
      ensures first <= reached ==> cap <= Max(KV_CACHE_MIN_CAP, 2 * reached)
      ensures ok && len <= old(cap) ==> cap == old(cap) && copied == old(copied)
      ensures ok && len > old(cap) ==> cap == Max(len, 2 * old(cap)) && copied == old(copied) + old(len)
      ensures ok ==> Keys() == Joined(old(Keys()), kNew.Lists()) && Values() == Joined(old(Values()), vNew.Lists())
    {
      if !Fitting(kNew, vNew) {
        return false;
      }
      if len + kNew.seqLen > cap {
        Grow(len + kNew.seqLen);
      }
      Put(kNew, vNew);
      reached := Max(reached, len);
      ok := true;
    }

    /** Writes a fitting block for which there is room. */
    method Put(kNew: Block, vNew: Block)
      requires Shape() && kNew.Valid() && vNew.Valid() && Fitting(kNew, vNew) && len + kNew.seqLen <= cap
      modifies this`len, k, v
      ensures Shape() && len == old(len) + kNew.seqLen
      ensures Keys() == Joined(old(Keys()), kNew.Lists()) && Values() == Joined(old(Values()), vNew.Lists())
    {
      Written(k, b * nKv, cap, len, kNew);
      Written(v, b * nKv, cap, len, vNew);
      len := len + kNew.seqLen;
    }

    /** A private copy of the first `keep` rows, in buffers of exactly that many. */
    method Fork(keep: nat) returns (c: SeqKvCache)
      requires Valid()
      ensures fresh(c) && fresh(c.k) && fresh(c.v) && c.Valid()
      ensures c.b == b && c.nKv == nKv && c.dk == dk && c.dv == dv && c.len == c.cap && c.copied == 0
      ensures c.len == if keep < len then keep else len
      ensures c.Keys() == Prefixes(Keys(), keep) && c.Values() == Prefixes(Values(), keep)
    {
      var rows := if keep < len then keep else len;
      var nk := Carried(k, b * nKv, cap, rows, dk, rows);
      var nv := Carried(v, b * nKv, cap, rows, dv, rows);
      HeadListsPrefix(k[..], b * nKv, cap, dk, len, rows);
      HeadListsPrefix(v[..], b * nKv, cap, dv, len, rows);
      c := new SeqKvCache.Holding(nk, nv, b, nKv, dk, dv, rows);
    }

    /** Drops the rows from `keep` on; nothing is copied. */
    method Truncate(keep: nat)
      requires Valid()
      modifies this`len
      ensures Valid() && len == (if keep < old(len) then keep else old(len))
      ensures Keys() == Prefixes(old(Keys()), keep) && Values() == Prefixes(old(Values()), keep)
    {
      var rows := if len < keep then len else keep;
      HeadListsPrefix(k[..], b * nKv, cap, dk, len, rows);
      HeadListsPrefix(v[..], b * nKv, cap, dv, len, rows);
      len := rows;
    }
  }

  // ---- The layer's optional cache ----

  /** Keeps the first `keep` positions; keeping none drops the cache. */
  method TruncateKv(cache: SeqKvCache?, keep: nat) returns (r: SeqKvCache?)
    requires cache != null ==> cache.Valid()
    modifies if cache == null then {} else {cache}
    ensures r == if keep == 0 then null else cache
    ensures r != null ==>
              && r.Valid()
              && r.Keys() == Prefixes(old(cache.Keys()), keep) && r.Values() == Prefixes(old(cache.Values()), keep)
    ensures r != null ==> r.copied == old(cache.copied) && r.reached == old(cache.reached) && r.cap == old(cache.cap)
  {
    if cache == null || keep == 0 {
      return null;
    }
    cache.Truncate(keep);
    r := cache;
  }

  /** A detached copy of the first `keep` positions, none when there are none to keep. */
  method ForkKv(cache: SeqKvCache?, keep: nat) returns (r: SeqKvCache?)
    requires cache != null ==> cache.Valid()
    ensures r == null <==> cache == null || keep == 0
    ensures r != null ==>
              && fresh(r) && fresh(r.k) && fresh(r.v) && r.Valid()
              && r.Keys() == Prefixes(cache.Keys(), keep) && r.Values() == Prefixes(cache.Values(), keep)
  {
    if cache == null || keep == 0 {
      return null;
    }
    r := cache.Fork(keep);
  }
}
