/** The routing-frequency hot set: counters, refresh clock and selection (src/cache_sim.rs, `HotSet`). */
module HotSets {
  import opened Sequences
  import opened CacheTrace

  /** Decode steps between refreshes (src/hot_experts.rs). */
  const REFRESH_STEPS := 64

  datatype Counters = Counters(budget: nat, hits: map<Key, nat>, lastUsed: map<Key, nat>, step: nat)

  function NewCounters(budget: nat): Counters {
    Counters(budget, map[], map[], 0)
  }

  function Hits(c: Counters, k: Key): nat {
    if k in c.hits then c.hits[k] else 0
  }

  function LastUsed(c: Counters, k: Key): nat {
    if k in c.lastUsed then c.lastUsed[k] else 0
  }

  function Observe(c: Counters, k: Key): Counters {
    c.(hits := c.hits[k := Hits(c, k) + 1], lastUsed := c.lastUsed[k := c.step])
  }

  function ObserveAll(c: Counters, keys: seq<Key>): Counters {
    if keys == [] then c else Observe(ObserveAll(c, keys[..|keys| - 1]), keys[|keys| - 1])
  }

  /** A key's hit counter is the number of times it was recorded; its stamp is the step of the last. */
  lemma {:induction false} ObserveAllCounts(c: Counters, keys: seq<Key>, k: Key)
    ensures Hits(ObserveAll(c, keys), k) == Hits(c, k) + multiset(keys)[k]
    ensures LastUsed(ObserveAll(c, keys), k) == if k in keys then c.step else LastUsed(c, k)
    ensures ObserveAll(c, keys).step == c.step && ObserveAll(c, keys).budget == c.budget
    ensures ObserveAll(c, keys).hits.Keys == c.hits.Keys + Elements(keys)
  {
    if keys != [] {
      var init := keys[..|keys| - 1];
      assert keys == init + [keys[|keys| - 1]];
      ObserveAllCounts(c, init, k);
      assert Elements(keys) == Elements(init) + {keys[|keys| - 1]};
    }
  }

  function NextDecode(c: Counters): Counters {
    c.(step := c.step + 1)
  }

  predicate RefreshDue(c: Counters) {
    c.budget > 0 && c.step % REFRESH_STEPS == 0
  }

  /** The sort order: frequency, then recency, then key. */
  predicate Outranks(c: Counters, a: Key, b: Key) {
    || Hits(c, a) > Hits(c, b)
    || (Hits(c, a) == Hits(c, b)
        && (LastUsed(c, a) > LastUsed(c, b) || (LastUsed(c, a) == LastUsed(c, b) && KeyLess(a, b))))
  }

  predicate IsBest(c: Counters, keys: set<Key>, k: Key) {
    k in keys && forall x :: x in keys && x != k ==> Outranks(c, k, x)
  }

  /** The sort order is total and transitive. */
  lemma OutranksOrder(c: Counters, x: Key, y: Key, z: Key)
    ensures x == y || Outranks(c, x, y) || Outranks(c, y, x)
    ensures Outranks(c, x, y) && Outranks(c, y, z) ==> Outranks(c, x, z)
  {
  }

  lemma {:induction false} HasBest(c: Counters, keys: set<Key>)
    requires keys != {}
    ensures exists k :: IsBest(c, keys, k)
    decreases |keys|
  {
    var k :| k in keys;
    if keys == {k} {
      assert IsBest(c, keys, k);
    } else {
      var rest := keys - {k};
      HasBest(c, rest);
      var best :| IsBest(c, rest, best);
      var top := if Outranks(c, k, best) then k else best;
      forall x | x in keys && x != top ensures Outranks(c, top, x) {
        if x in rest && x != best {
          OutranksOrder(c, k, best, x);
        }
      }
      assert IsBest(c, keys, top);
    }
  }

  /** The keys sorted best first. */
  ghost function Ranked(c: Counters, keys: set<Key>): (r: seq<Key>) {
    if keys == {} then [] else
      HasBest(c, keys);
      var best :| IsBest(c, keys, best);
      [best] + Ranked(c, keys - {best})
  }

  lemma {:induction false} RankedElements(c: Counters, keys: set<Key>)
    ensures Elements(Ranked(c, keys)) == keys && |Ranked(c, keys)| == |keys|
    decreases |keys|
  {
    if keys != {} {
      var r := Ranked(c, keys);
      RankedElements(c, keys - {r[0]});
      assert r == [r[0]] + r[1..];
      assert Elements(r) == {r[0]} + Elements(r[1..]);
    }
  }

  lemma {:induction false} RankedSorted(c: Counters, keys: set<Key>, i: nat, j: nat)
    requires i < j < |Ranked(c, keys)|
    ensures Outranks(c, Ranked(c, keys)[i], Ranked(c, keys)[j])
    decreases |keys|
  {
    var r := Ranked(c, keys);
    var rest := keys - {r[0]};
    assert IsBest(c, keys, r[0]) && r[j] == Ranked(c, rest)[j - 1];
    if i > 0 {
      RankedSorted(c, rest, i - 1, j - 1);
    } else {
      RankedElements(c, rest);
      assert r[j] in Elements(Ranked(c, rest));
    }
  }

  /** The hot set in priority order, at most `budget` keys. */
  ghost function Select(c: Counters): (r: seq<Key>) {
    var all := Ranked(c, c.hits.Keys);
    if c.budget < |all| then all[..c.budget] else all
  }

  /**
    The selection is `budget` distinct recorded keys (all of them when there are fewer),
    best first, and no key left out outranks a key chosen.
  */
  lemma SelectIsTop(c: Counters)
    ensures var s := Select(c);
      && |s| == (if c.budget < |c.hits| then c.budget else |c.hits|)
      && NoDup(s) && Elements(s) <= c.hits.Keys
      && (forall i, j :: 0 <= i < j < |s| ==> Outranks(c, s[i], s[j]))
      && (forall i, k :: 0 <= i < |s| && k in c.hits && k !in s ==> Outranks(c, s[i], k))
  {
    var all, s := Ranked(c, c.hits.Keys), Select(c);
    RankedElements(c, c.hits.Keys);
    forall i, j | 0 <= i < j < |all| ensures Outranks(c, all[i], all[j]) {
      RankedSorted(c, c.hits.Keys, i, j);
    }
    forall i, k | 0 <= i < |s| && k in c.hits && k !in s ensures Outranks(c, s[i], k) {
      assert k in Elements(all);
      var j :| 0 <= j < |all| && all[j] == k;
      assert forall x :: 0 <= x < |s| ==> all[x] == s[x] && s[x] in s;
    }
    forall i, j | 0 <= i < j < |s| ensures Outranks(c, s[i], s[j]) && s[i] != s[j] {
      assert s[i] == all[i] && s[j] == all[j];
    }
    assert forall k :: k in s ==> k in Elements(all);
  }

  class HotSet {
    var budget: nat
    var hits: map<Key, nat>
    var lastUsed: map<Key, nat>
    var step: nat

    function View(): Counters
      reads this
    {
      Counters(budget, hits, lastUsed, step)
    }

    constructor (budget: nat)
      ensures View() == NewCounters(budget)
    {
      this.budget := budget;
      hits, lastUsed, step := map[], map[], 0;
    }

    method Record(keys: seq<Key>)
      modifies this
      ensures View() == ObserveAll(old(View()), keys)
    {
      for i := 0 to |keys|
        invariant View() == ObserveAll(old(View()), keys[..i])
      {
        assert keys[..i + 1][..i] == keys[..i];
        hits := hits[keys[i] := Hits(View(), keys[i]) + 1];
        lastUsed := lastUsed[keys[i] := step];
      }
      assert keys[..|keys|] == keys;
    }

    method BeginDecode() returns (due: bool)
      modifies this
      ensures View() == NextDecode(old(View())) && due == RefreshDue(View())
    {
      step := step + 1;
      due := budget > 0 && step % REFRESH_STEPS == 0;
    }

    /** Take the best key left until the budget is spent. */
    method Choose() returns (r: seq<Key>)
      ensures r == Select(View())
    {
      var c := View();
      var left := hits.Keys;
      r := [];
      while left != {} && |r| < c.budget
        invariant |r| <= c.budget
        invariant Ranked(c, c.hits.Keys) == r + Ranked(c, left)
        decreases left
      {
        var best := PickBest(c, left);
        assert r + ([best] + Ranked(c, left - {best})) == (r + [best]) + Ranked(c, left - {best});
        r := r + [best];
        left := left - {best};
      }
    }
  }

  method PickBest(c: Counters, keys: set<Key>) returns (best: Key)
    requires keys != {}
    ensures IsBest(c, keys, best)
    ensures Ranked(c, keys) == [best] + Ranked(c, keys - {best})
  {
    HasBest(c, keys);
    best :| best in keys && IsBest(c, keys, best);
    BestIsFirst(c, keys, best);
  }

  lemma BestIsFirst(c: Counters, keys: set<Key>, best: Key)
    requires IsBest(c, keys, best)
    ensures Ranked(c, keys) == [best] + Ranked(c, keys - {best})
  {
    var first := Ranked(c, keys)[0];
    assert IsBest(c, keys, first);
    assert first == best;
  }
}
