/**
  Draft sessions: a KV cache kept in step with the tokens it holds (src/draft_model.rs).
  The model is a function from the tokens evaluated to logits; what may fail is an input, and a
  failing call leaves the cache in whatever state the input says.
*/
module Drafting {
  import opened Wrappers
  import opened Sequences

  /** How a call into the model goes: well, or badly, leaving the cache holding `junk`. */
  datatype Luck = Well | Badly(junk: seq<nat>)

  const MAX_IDLE_SESSIONS := 4
  const CATCH_UP_CHUNK := 512

  /** Length of the longest common prefix. */
  function CommonPrefix(a: seq<nat>, b: seq<nat>): (n: nat)
    ensures n <= |a| && n <= |b| && a[..n] == b[..n]
    ensures n == |a| || n == |b| || a[n] != b[n]
  {
    if a == [] || b == [] || a[0] != b[0] then 0 else
      var n := CommonPrefix(a[1..], b[1..]);
      assert a[..n + 1] == [a[0]] + a[1..][..n] && b[..n + 1] == [b[0]] + b[1..][..n];
      n + 1
  }

  class DraftSession<L> {
    /** The model: the logits after evaluating these tokens from scratch. */
    const logits: seq<nat> -> L
    /** The tokens whose rows the KV cache holds. */
    var held: seq<nat>
    /** The tokens the session believes it holds. */
    var tokens: seq<nat>

    ghost predicate Sound()
      reads this
    {
      tokens == held
    }

    constructor (logits: seq<nat> -> L)
      ensures Sound() && tokens == [] && this.logits == logits
    {
      this.logits := logits;
      held, tokens := [], [];
    }

    /** One forward pass: rows are appended to the cache, so it must start at the cache's length. */
    method Forward(chunk: seq<nat>, pos: nat, luck: Luck) returns (r: Result<L>)
      requires 0 < |chunk| <= CATCH_UP_CHUNK
      requires pos == |held|
      modifies this`held
      ensures luck.Well? ==> held == old(held) + chunk && r == Ok(logits(held))
      ensures luck.Badly? ==> r == Err
    {
      match luck
      case Well =>
        held := held + chunk;
        r := Ok(logits(held));
      case Badly(junk) =>
        held := junk;
        r := Err;
    }

    /** Cut back to `keep` tokens, or start over from an empty cache. */
    method Truncate(keep: nat, luck: Luck) returns (cut: bool)
      requires Sound() && keep <= |tokens|
      modifies this
      ensures Sound() && cut == luck.Well?
      ensures tokens == if cut then old(tokens)[..keep] else []
    {
      match luck
      case Well =>
        held := held[..keep];
        tokens := tokens[..keep];
        cut := true;
      case Badly(junk) =>
        held := junk;
        held := [];
        tokens := [];
        cut := false;
    }

    /**
      Bring the cache to hold exactly `context` and return the logits after its last token, however
      the session got where it was.  With a working truncation only the tokens past the common
      prefix are fed (the last one always is).
    */
    method Sync(context: seq<nat>, cutting: Luck, feeding: nat -> Luck) returns (r: Result<L>, fed: nat)
      requires Sound()
      modifies this
      ensures context == [] ==> r == Err && tokens == old(tokens) && held == old(held)
      ensures r.Ok? ==> Sound() && tokens == context && r.value == logits(context)
      ensures context != [] && (forall i :: feeding(i).Well?) ==> r.Ok?
      ensures r.Ok? ==>
        var common := CommonPrefix(old(tokens), context);
        var kept := if common < |context| then common else |context| - 1;
        fed == if kept == |old(tokens)| || cutting.Well? then |context| - kept else |context|
    {
      if context == [] {
        return Err, 0;
      }
      var common := CommonPrefix(tokens, context);
      var keep := if common < |context| - 1 then common else |context| - 1;
      assert tokens[..keep] == tokens[..common][..keep] == context[..keep];
      if keep < |tokens| {
        var cut := Truncate(keep, cutting);
        if !cut {
          keep := 0;
        }
      } else {
        assert tokens == tokens[..keep];
      }
      fed := 0;
      var start, pass := keep, 0;
      r := Err;
      while keep < |context|
        invariant start <= keep <= |context| && start < |context|
        invariant Sound() && tokens == context[..keep] && fed == keep - start
        invariant keep > start ==> r == Ok(logits(context[..keep]))
      {
        var end := if keep + CATCH_UP_CHUNK < |context| then keep + CATCH_UP_CHUNK else |context|;
        var chunk := context[keep..end];
        r := Forward(chunk, keep, feeding(pass));
        if r.Err? {
          return;
        }
        tokens := tokens + chunk;
        assert context[..keep] + chunk == context[..end];
        fed := fed + |chunk|;
        keep := end;
        pass := pass + 1;
      }
      assert context[..|context|] == context;
    }

    /** Feed one drafted token after the synced context. */
    method Push(token: nat, luck: Luck) returns (r: Result<L>)
      requires Sound()
      modifies this
      ensures luck.Well? ==> Sound() && tokens == old(tokens) + [token] && r == Ok(logits(tokens))
      ensures luck.Badly? ==> r == Err && tokens == old(tokens)
    {
      r := Forward([token], |tokens|, luck);
      if r.Ok? {
        tokens := tokens + [token];
      }
    }
  }

  /** The pool of idle sessions.  It takes whatever is released; users drop a session whose call failed. */
  class DraftModel<L> {
    const logits: seq<nat> -> L
    var idle: seq<DraftSession<L>>

    ghost predicate Valid()
      reads this, idle
    {
      && |idle| <= MAX_IDLE_SESSIONS && NoDup(idle)
      && forall s :: s in idle ==> s.logits == logits
    }

    /** Every idle session's cache holds its recorded tokens. */
    ghost predicate AllSound()
      reads this, idle
    {
      forall s :: s in idle ==> s.Sound()
    }

    constructor (logits: seq<nat> -> L)
      ensures Valid() && AllSound() && idle == [] && this.logits == logits
    {
      this.logits := logits;
      idle := [];
    }

    /** The idle session sharing the longest prefix with `context`, else a fresh one. */
    method Acquire(context: seq<nat>) returns (s: DraftSession<L>)
      requires Valid()
      modifies this
      ensures Valid() && s !in idle && s.logits == logits
      ensures old(AllSound()) ==> AllSound() && s.Sound()
      ensures old(idle) == [] ==> fresh(s) && idle == [] && s.tokens == []
      ensures old(idle) != [] ==> s in old(idle) && |idle| == |old(idle)| - 1
      ensures forall o :: o in old(idle) ==>
        (o in idle || o == s) && CommonPrefix(o.tokens, context) <= CommonPrefix(s.tokens, context)
      ensures forall o :: o in idle ==> o in old(idle)
    {
      if idle == [] {
        s := new DraftSession(logits);
        return;
      }
      var best := 0;
      for i := 1 to |idle|
        invariant best < i
        invariant forall j :: 0 <= j < i ==>
                    CommonPrefix(idle[j].tokens, context) <= CommonPrefix(idle[best].tokens, context)
      {
        if CommonPrefix(idle[i].tokens, context) >= CommonPrefix(idle[best].tokens, context) {
          best := i;
        }
      }
      s := idle[best];
      var last := |idle| - 1;
      SwapRemoved(idle, best);
      idle := idle[best := idle[last]][..last];
    }

    /** Return a session; the oldest idle one is dropped when there are too many. */
    method Release(s: DraftSession<L>)
      requires Valid() && s !in idle && s.logits == logits
      modifies this
      ensures Valid() && s in idle
      ensures old(AllSound()) && s.Sound() ==> AllSound()
      ensures idle == if |old(idle)| < MAX_IDLE_SESSIONS then old(idle) + [s] else old(idle)[1..] + [s]
    {
      idle := idle + [s];
      if |idle| > MAX_IDLE_SESSIONS {
        idle := idle[1..];
      }
      assert idle[|idle| - 1] == s;
    }
  }

  /** Moving the last element into the gap removes just the one. */
  lemma SwapRemoved<T>(s: seq<T>, i: nat)
    requires i < |s| && NoDup(s)
    ensures var r := s[i := s[|s| - 1]][..|s| - 1];
      NoDup(r) && s[i] !in r && (forall x :: x in s ==> x in r || x == s[i]) && forall x :: x in r ==> x in s
  {
    var r := s[i := s[|s| - 1]][..|s| - 1];
    forall x | x in s ensures x in r || x == s[i] {
      var j :| 0 <= j < |s| && s[j] == x;
      if j == |s| - 1 && i < j {
        assert r[i] == x;
      } else if j != i {
        assert r[j] == x;
      }
    }
  }

  /** Pool reuse and drafting end to end: whatever the pool held, the session answers for `context`. */
  method DraftFrom<L>(pool: DraftModel<L>, context: seq<nat>, drafted: seq<nat>, cutting: Luck) returns (r: Result<L>)
    requires pool.Valid() && pool.AllSound() && context != []
    modifies pool, pool.idle
    ensures pool.Valid() && pool.AllSound()
    ensures r == Ok(pool.logits(context + drafted))
  {
    var s := pool.Acquire(context);
    var fed;
    r, fed := s.Sync(context, cutting, i => Well);
    for i := 0 to |drafted|
      invariant s.Sound() && s.tokens == context + drafted[..i] && r == Ok(pool.logits(s.tokens))
      invariant pool.Valid() && pool.AllSound() && s !in pool.idle && s.logits == pool.logits
      invariant forall o :: o in pool.idle ==> o in old(pool.idle)
    {
      assert context + drafted[..i + 1] == context + drafted[..i] + [drafted[i]];
      r := s.Push(drafted[i], Well);
    }
    assert drafted[..|drafted|] == drafted;
    pool.Release(s);
  }
}
