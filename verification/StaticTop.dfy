/**
  The static placement bound (src/cache_sim.rs, `simulate_static`): the most visited keys of the
  whole trace, fixed in advance.  No other fixed set of that size gets more decode hits.
*/
module StaticTop {
  import opened Sequences
  import opened CacheTrace
  import opened HotSets
  import opened LruReplay

  /** The lookups of the calls of one phase, in order. */
  function PhaseKeys(trace: seq<Call>, phase: Phase): seq<Key> {
    if trace == [] then [] else
      var call := trace[|trace| - 1];
      var before := PhaseKeys(trace[..|trace| - 1], phase);
      if call.phase == phase then before + Flatten(Lookups(call)) else before
  }

  /** How many of the lookups a fixed resident set answers. */
  function FixedHits(keys: seq<Key>, resident: set<Key>): nat {
    if keys == [] then 0 else
      FixedHits(keys[..|keys| - 1], resident) + if keys[|keys| - 1] in resident then 1 else 0
  }

  /** The decode lookups counted: all at step 0, so keys rank by count and then by key. */
  ghost function Tally(trace: seq<Call>, slots: nat): Counters {
    ObserveAll(NewCounters(slots), PhaseKeys(trace, Decode))
  }

  ghost function TopKeys(trace: seq<Call>, slots: nat): set<Key> {
    Elements(Select(Tally(trace, slots)))
  }

  method CountHits(keys: seq<Key>, resident: set<Key>) returns (hits: nat)
    ensures hits == FixedHits(keys, resident)
  {
    hits := 0;
    for i := 0 to |keys|
      invariant hits == FixedHits(keys[..i], resident)
    {
      assert keys[..i + 1][..i] == keys[..i];
      hits := hits + if keys[i] in resident then 1 else 0;
    }
    assert keys[..|keys|] == keys;
  }

  function StaticCounts(trace: seq<Call>, resident: set<Key>): Counts {
    var d, p := PhaseKeys(trace, Decode), PhaseKeys(trace, Prefill);
    Counts(|d|, FixedHits(d, resident), |p|, FixedHits(p, resident))
  }

  lemma OneMoreCall(trace: seq<Call>, i: nat, resident: set<Key>)
    requires i < |trace|
    ensures var c, keys := StaticCounts(trace[..i], resident), Flatten(Lookups(trace[i]));
      var hits := FixedHits(keys, resident);
      StaticCounts(trace[..i + 1], resident) == match trace[i].phase
        case Decode => c.(decodeVisits := c.decodeVisits + |keys|, decodeHits := c.decodeHits + hits)
        case Prefill => c.(prefillVisits := c.prefillVisits + |keys|, prefillHits := c.prefillHits + hits)
  {
    assert trace[..i + 1][..i] == trace[..i];
    FixedHitsAppend(PhaseKeys(trace[..i], trace[i].phase), Flatten(Lookups(trace[i])), resident);
  }

  method SimulateStatic(trace: seq<Call>, slots: nat) returns (rep: Report)
    ensures var top := TopKeys(trace, slots);
      rep == Report(slots, DecodeSteps(trace), StaticCounts(trace, top), |top|, 0, 0)
  {
    var tally := new HotSet(slots);
    tally.Record(PhaseKeys(trace, Decode));
    var chosen := tally.Choose();
    var resident := set k | k in chosen;
    var steps, counts := 0, Counts(0, 0, 0, 0);
    for i := 0 to |trace|
      invariant steps == DecodeSteps(trace[..i]) && counts == StaticCounts(trace[..i], resident)
    {
      assert trace[..i + 1][..i] == trace[..i];
      OneMoreCall(trace, i, resident);
      var keys := Flatten(Lookups(trace[i]));
      var hits := CountHits(keys, resident);
      if trace[i].phase == Decode {
        steps := steps + 1;
        counts := counts.(decodeVisits := counts.decodeVisits + |keys|, decodeHits := counts.decodeHits + hits);
      } else {
        counts := counts.(prefillVisits := counts.prefillVisits + |keys|, prefillHits := counts.prefillHits + hits);
      }
    }
    assert trace[..|trace|] == trace;
    rep := Report(slots, steps, counts, |resident|, 0, 0);
  }

  lemma {:induction false} FixedHitsAppend(a: seq<Key>, b: seq<Key>, resident: set<Key>)
    ensures FixedHits(a + b, resident) == FixedHits(a, resident) + FixedHits(b, resident)
  {
    if b == [] {
      assert a + b == a;
    } else {
      assert (a + b)[..|a + b| - 1] == a + b[..|b| - 1];
      FixedHitsAppend(a, b[..|b| - 1], resident);
    }
  }

  lemma {:induction false} FixedHitsSplit(keys: seq<Key>, a: set<Key>, b: set<Key>)
    requires a !! b
    ensures FixedHits(keys, a + b) == FixedHits(keys, a) + FixedHits(keys, b)
  {
    if keys != [] {
      FixedHitsSplit(keys[..|keys| - 1], a, b);
    }
  }

  lemma {:induction false} FixedHitsOne(keys: seq<Key>, k: Key)
    ensures FixedHits(keys, {k}) == multiset(keys)[k]
  {
    if keys != [] {
      assert keys == keys[..|keys| - 1] + [keys[|keys| - 1]];
      FixedHitsOne(keys[..|keys| - 1], k);
    }
  }

  /** A smaller set of less visited keys answers fewer lookups. */
  lemma {:induction false} LessVisited(keys: seq<Key>, a: set<Key>, b: set<Key>)
    requires |a| <= |b|
    requires forall x, y :: x in a && y in b ==> multiset(keys)[x] <= multiset(keys)[y]
    ensures FixedHits(keys, a) <= FixedHits(keys, b)
    decreases |a|
  {
    if a == {} {
      NoHits(keys);
    } else {
      var x :| x in a;
      assert b != {};
      var y :| y in b;
      LessVisited(keys, a - {x}, b - {y});
      FixedHitsSplit(keys, a - {x}, {x});
      FixedHitsSplit(keys, b - {y}, {y});
      FixedHitsOne(keys, x);
      FixedHitsOne(keys, y);
      assert a == (a - {x}) + {x} && b == (b - {y}) + {y};
    }
  }

  lemma NoHits(keys: seq<Key>)
    ensures FixedHits(keys, {}) == 0
  {
  }

  /** No fixed set of at most `slots` keys answers more decode lookups than the chosen one. */
  lemma StaticTopIsBest(trace: seq<Call>, slots: nat, other: set<Key>)
    requires |other| <= slots
    ensures FixedHits(PhaseKeys(trace, Decode), other) <= FixedHits(PhaseKeys(trace, Decode), TopKeys(trace, slots))
    ensures |TopKeys(trace, slots)| <= slots
  {
    var keys, c, top := PhaseKeys(trace, Decode), Tally(trace, slots), TopKeys(trace, slots);
    SelectIsTop(c);
    NoDupLength(Select(c));
    ObserveAllCounts(NewCounters(slots), keys, Key(0, 0));
    forall x, y | x in top && y !in top ensures multiset(keys)[y] <= multiset(keys)[x] {
      ObserveAllCounts(NewCounters(slots), keys, x);
      ObserveAllCounts(NewCounters(slots), keys, y);
      if y in c.hits {
        var i :| 0 <= i < |Select(c)| && Select(c)[i] == x;
        assert Outranks(c, Select(c)[i], y);
      }
    }
    if |top| < slots {
      SubsetLength(top, c.hits.Keys);
      assert top == Elements(keys);
    }
    TopBeats(keys, slots, top, other);
  }

  lemma TopBeats(keys: seq<Key>, slots: nat, top: set<Key>, other: set<Key>)
    requires |other| <= slots && |top| <= slots
    requires forall x, y :: x in top && y !in top ==> multiset(keys)[y] <= multiset(keys)[x]
    requires |top| < slots ==> forall y :: y !in top ==> multiset(keys)[y] == 0
    ensures FixedHits(keys, other) <= FixedHits(keys, top)
  {
    var both, more, less := other * top, other - top, top - other;
    FixedHitsSplit(keys, both, more);
    FixedHitsSplit(keys, both, less);
    assert other == both + more && top == both + less;
    if |top| == slots {
      LessVisited(keys, more, less);
    } else {
      Unvisited(keys, more);
    }
  }

  lemma {:induction false} Unvisited(keys: seq<Key>, s: set<Key>)
    requires forall k :: k in s ==> multiset(keys)[k] == 0
    ensures FixedHits(keys, s) == 0
  {
    if keys != [] {
      var n := |keys| - 1;
      assert keys == keys[..n] + [keys[n]];
      assert multiset(keys)[keys[n]] > 0;
      Unvisited(keys[..n], s);
    }
  }
}
