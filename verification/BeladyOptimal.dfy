/**
  Belady's replay is optimal.  When every event is a lookup that inserts on a miss, no schedule
  of at most `slots` keys that inserts what it misses gets more hits.  The proof keeps one
  invariant: of the keys due before any time t, the schedule holds at most as many as Belady
  does plus Belady's lead in hits.
*/
module BeladyOptimal {
  import HotSets
  import opened Sequences
  import opened CacheTrace
  import opened LruTier
  import opened LruReplay
  import LruTheorems
  import opened Belady

  /** Every event looks its key up and inserts it on a miss. */
  predicate AllInsert(ev: seq<Op>) {
    forall i :: 0 <= i < |ev| ==> ev[i].Lookup? && ev[i].inserts
  }

  /** A demand move: the looked-up key is cached afterwards, nothing else is added, and it fits. */
  ghost predicate Move(a: set<Key>, b: set<Key>, k: Key, slots: nat) {
    b <= a + {k} && |b| <= slots && (slots > 0 ==> k in b)
  }

  /** `caches[i]` is what the schedule holds before event `i`; it evicts as it likes. */
  ghost predicate Schedule(ev: seq<Op>, slots: nat, caches: seq<set<Key>>) {
    && AllInsert(ev) && |caches| == |ev| + 1 && caches[0] == {}
    && forall i :: 0 <= i < |ev| ==> MoveAt(ev, slots, caches, i)
  }

  ghost predicate MoveAt(ev: seq<Op>, slots: nat, caches: seq<set<Key>>, i: nat)
    requires AllInsert(ev) && |caches| == |ev| + 1 && i < |ev|
  {
    Move(caches[i], caches[i + 1], ev[i].key, slots)
  }

  ghost function ScheduleHits(ev: seq<Op>, caches: seq<set<Key>>, n: nat): nat
    requires AllInsert(ev) && n <= |ev| && |caches| == |ev| + 1
  {
    if n == 0 then 0 else
      ScheduleHits(ev, caches, n - 1) + if ev[n - 1].key in caches[n - 1] then 1 else 0
  }

  /** The cached keys whose next visit from `i` on is before `t`. */
  ghost function Due(ev: seq<Op>, i: nat, cache: set<Key>, t: nat): set<Key>
    requires i <= |ev|
  {
    set k | k in cache && NextVisit(ev, i, k) < t
  }

  /** Past event `i` only its own key's next visit changes. */
  lemma DueNext(ev: seq<Op>, i: nat, cache: set<Key>, t: nat)
    requires AllInsert(ev) && i < t <= |ev|
    ensures var k := ev[i].key; var others := Due(ev, i, cache - {k}, t);
      && k !in others
      && Due(ev, i, cache, t) == others + (if k in cache then {k} else {})
      && Due(ev, i + 1, cache, t) == others + (if k in cache && NextVisit(ev, i + 1, k) < t then {k} else {})
  {
    var k := ev[i].key;
    assert NextVisit(ev, i, k) == i;
    forall x | x in cache && x != k ensures NextVisit(ev, i, x) == NextVisit(ev, i + 1, x) {
      NextVisitStays(ev, i, x);
    }
  }

  lemma DueMonotone(ev: seq<Op>, i: nat, a: set<Key>, b: set<Key>, t: nat)
    requires i <= |ev| && a <= b
    ensures |Due(ev, i, a, t)| <= |Due(ev, i, b, t)| && |Due(ev, i, a, t)| <= |a|
  {
    SubsetLength(Due(ev, i, a, t), Due(ev, i, b, t));
    SubsetLength(Due(ev, i, a, t), a);
  }

  /** The invariant: at every horizon the schedule holds at most `lead` more due keys. */
  ghost predicate Ahead(ev: seq<Op>, i: nat, a: set<Key>, b: set<Key>, lead: int)
    requires i <= |ev|
  {
    forall t {:trigger Due(ev, i, a, t)} :: i <= t <= |ev| ==> |Due(ev, i, a, t)| <= |Due(ev, i, b, t)| + lead
  }

  /** Nothing is due before now, so the lead is never negative. */
  lemma LeadNotNegative(ev: seq<Op>, i: nat, a: set<Key>, b: set<Key>, lead: int)
    requires i <= |ev| && Ahead(ev, i, a, b, lead)
    ensures lead >= 0
  {
    assert Due(ev, i, a, i) == {} && Due(ev, i, b, i) == {};
  }

  /** Without the key due last, either all the rest is due or nothing due is lost. */
  lemma EvictedLast(ev: seq<Op>, i: nat, resident: set<Key>, v: Key, t: nat)
    requires i <= |ev| && v in resident && forall x :: x in resident ==> NextVisit(ev, i, x) <= NextVisit(ev, i, v)
    ensures var rest := |Due(ev, i, resident - {v}, t)|;
      rest == |Due(ev, i, resident, t)| || rest == |resident| - 1
  {
    var rest := resident - {v};
    if NextVisit(ev, i, v) < t {
      assert Due(ev, i, rest, t) == rest;
    } else {
      assert Due(ev, i, rest, t) == Due(ev, i, resident, t);
    }
  }

  /** How many due keys Belady keeps, its event's own key apart, across event `i`. */
  lemma BeladyKeeps(ev: seq<Op>, i: nat, slots: nat, s: Cache, t: nat)
    requires AllInsert(ev) && i < t <= |ev| && |s.resident| <= slots
    ensures var k, s' := ev[i].key, OptimalStep(ev, i, slots, s);
      var b, b' := Due(ev, i, s.resident - {k}, t), Due(ev, i, s'.resident - {k}, t);
      && |s'.resident| <= slots
      && (k in s'.resident <==> k in s.resident || (slots > 0 && NextVisit(ev, i + 1, k) < |ev|))
      && (|b'| == |b| || (k !in s.resident && slots > 0 && |b'| == slots - 1))
  {
    var k, s' := ev[i].key, OptimalStep(ev, i, slots, s);
    if k !in s.resident && slots > 0 && NextVisit(ev, i + 1, k) < |ev| && |s.resident| == slots {
      var v := Farthest(ev, i, s.resident);
      assert s'.resident - {k} == s.resident - {v} && s.resident - {k} == s.resident;
      EvictedLast(ev, i, s.resident, v, t);
    } else {
      assert s'.resident - {k} == s.resident - {k};
    }
  }

  ghost function One(b: bool): nat {
    if b then 1 else 0
  }

  /** The invariant at one horizon survives one event. */
  lemma AheadAt(ev: seq<Op>, i: nat, slots: nat, a: set<Key>, a': set<Key>, s: Cache, lead: int, t: nat)
    requires AllInsert(ev) && i < t <= |ev| && slots > 0
    requires Move(a, a', ev[i].key, slots) && |s.resident| <= slots && Ahead(ev, i, a, s.resident, lead)
    ensures |Due(ev, i + 1, a', t)|
         <= |Due(ev, i + 1, OptimalStep(ev, i, slots, s).resident, t)|
            + lead + One(ev[i].key in s.resident) - One(ev[i].key in a)
  {
    var k, b, b' := ev[i].key, s.resident, OptimalStep(ev, i, slots, s).resident;
    DueNext(ev, i, a, t);
    DueNext(ev, i, b, t);
    DueNext(ev, i, a', t);
    DueNext(ev, i, b', t);
    BeladyKeeps(ev, i, slots, s, t);
    DueMonotone(ev, i, a' - {k}, a - {k}, t);
    // At the next instant only `k` can be due.
    DueNow(ev, i, a);
    DueNow(ev, i, b);
    assert |Due(ev, i, a, i + 1)| <= |Due(ev, i, b, i + 1)| + lead;
    assert |Due(ev, i, a, t)| <= |Due(ev, i, b, t)| + lead;
    assert |a' - {k}| == |a'| - 1;
  }

  lemma DueNow(ev: seq<Op>, i: nat, cache: set<Key>)
    requires AllInsert(ev) && i < |ev|
    ensures |Due(ev, i, cache, i + 1)| == One(ev[i].key in cache)
  {
    var k := ev[i].key;
    forall x | x in cache && x != k ensures NextVisit(ev, i, x) > i {
      NextVisitStays(ev, i, x);
    }
    assert NextVisit(ev, i, k) == i;
    assert Due(ev, i, cache, i + 1) == if k in cache then {k} else {};
  }

  lemma AheadStep(ev: seq<Op>, i: nat, slots: nat, a: set<Key>, a': set<Key>, s: Cache, lead: int)
    requires AllInsert(ev) && i < |ev| && |a| <= slots && |s.resident| <= slots
    requires Move(a, a', ev[i].key, slots) && Ahead(ev, i, a, s.resident, lead)
    ensures Ahead(ev, i + 1, a', OptimalStep(ev, i, slots, s).resident,
                  lead + One(ev[i].key in s.resident) - One(ev[i].key in a))
    ensures |OptimalStep(ev, i, slots, s).resident| <= slots
  {
    var b', lead' := OptimalStep(ev, i, slots, s).resident, lead + One(ev[i].key in s.resident) - One(ev[i].key in a);
    BeladyKeeps(ev, i, slots, s, i + 1);
    if slots == 0 {
      assert a == {} && a' == {};
      LeadNotNegative(ev, i, a, s.resident, lead);
    }
    var j := i + 1;
    forall t | j <= t <= |ev| ensures |Due(ev, j, a', t)| <= |Due(ev, j, b', t)| + lead' {
      if slots > 0 {
        AheadAt(ev, i, slots, a, a', s, lead, t);
      } else {
        assert Due(ev, j, a', t) == {};
      }
    }
  }

  ghost function Lead(ev: seq<Op>, slots: nat, caches: seq<set<Key>>, n: nat): int
    requires AllInsert(ev) && n <= |ev| && |caches| == |ev| + 1
  {
    Hits(Optimal(ev, n, slots).counts) - ScheduleHits(ev, caches, n)
  }

  lemma LeadStep(ev: seq<Op>, slots: nat, caches: seq<set<Key>>, n: nat)
    requires AllInsert(ev) && n < |ev| && |caches| == |ev| + 1
    ensures Lead(ev, slots, caches, n + 1)
         == Lead(ev, slots, caches, n) + One(ev[n].key in Optimal(ev, n, slots).resident) - One(ev[n].key in caches[n])
  {
  }

  lemma {:induction false} AheadRun(ev: seq<Op>, slots: nat, caches: seq<set<Key>>, n: nat)
    requires Schedule(ev, slots, caches) && n <= |ev|
    ensures |Optimal(ev, n, slots).resident| <= slots && |caches[n]| <= slots
    ensures Ahead(ev, n, caches[n], Optimal(ev, n, slots).resident,
                  Lead(ev, slots, caches, n))
  {
    if n == 0 {
      assert forall t {:trigger Due(ev, 0, {}, t)} :: Due(ev, 0, {}, t) == {};
    } else {
      var i := n - 1;
      AheadRun(ev, slots, caches, i);
      LeadStep(ev, slots, caches, i);
      assert MoveAt(ev, slots, caches, i);
      AheadStep(ev, i, slots, caches[i], caches[n], Optimal(ev, i, slots), Lead(ev, slots, caches, i));
    }
  }

  /** Belady's replay gets at least as many hits as any demand schedule, after every event. */
  lemma BeladyIsOptimal(ev: seq<Op>, slots: nat, caches: seq<set<Key>>, n: nat)
    requires Schedule(ev, slots, caches) && n <= |ev|
    ensures ScheduleHits(ev, caches, n) <= Hits(Optimal(ev, n, slots).counts)
  {
    AheadRun(ev, slots, caches, n);
    LeadNotNegative(ev, n, caches[n], Optimal(ev, n, slots).resident,
                    Lead(ev, slots, caches, n));
  }

  /** Belady's uploads are its evictions plus its residents, which fit. */
  lemma {:induction false} BeladyBalanced(ev: seq<Op>, slots: nat, n: nat)
    requires Keyed(ev) && n <= |ev|
    ensures var s := Optimal(ev, n, slots); |s.resident| <= slots && s.uploads == s.evictions + |s.resident|
  {
    if n > 0 {
      BeladyBalanced(ev, slots, n - 1);
    }
  }

  // ---- Which traces the theorem covers ----

  /** The events all insert when every call decodes, or when prefills insert too. */
  lemma {:induction false} EventsAllInsert(trace: seq<Call>, prefillInserts: bool)
    requires prefillInserts || forall i :: 0 <= i < |trace| ==> trace[i].phase == Decode
    ensures AllInsert(Events(trace, prefillInserts))
  {
    if trace != [] {
      EventsAllInsert(trace[..|trace| - 1], prefillInserts);
    }
  }

  // ---- Plain LRU is one of the schedules ----

  lemma {:induction false} PlainEvents(trace: seq<Call>, prefillInserts: bool)
    ensures TraceOps(trace, 0, prefillInserts) == Events(trace, prefillInserts)
  {
    if trace != [] {
      var n := |trace| - 1;
      PlainEvents(trace[..n], prefillInserts);
      LruTheorems.CountersBudget(trace[..n], 0);
      PlainCall(trace[n], CountersAfter(trace[..n], 0), prefillInserts);
    }
  }

  lemma PlainCall(call: Call, c: HotSets.Counters, prefillInserts: bool)
    requires c.budget == 0
    ensures CallOps(call, c, prefillInserts) == DemandOps(call, prefillInserts)
  {
    assert RefreshOps(call, c) == [];
  }

  ghost function LruCache(ev: seq<Op>, slots: nat, i: nat): set<Key>
    requires i <= |ev|
  {
    Elements(LruReplay.Run(Start(slots), ev[..i]).tier.order)
  }

  lemma LruMoves(ev: seq<Op>, slots: nat, i: nat)
    requires AllInsert(ev) && i < |ev|
    ensures Move(LruCache(ev, slots, i), LruCache(ev, slots, i + 1), ev[i].key, slots)
  {
    var s := LruReplay.Run(Start(slots), ev[..i]);
    assert ev[..i + 1][..i] == ev[..i];
    LruTheorems.LruInclusion(slots, slots, ev[..i]);
    LruTheorems.RunBalanced(slots, ev[..i]);
    LruTheorems.RunBalanced(slots, ev[..i + 1]);
    TouchKeeps(s.tier, ev[i].key);
    InsertKeeps(s.tier, ev[i].key);
    LruTheorems.InsertStacked(s.tier, s.tier, ev[i].key);
    NoDupLength(LruReplay.Run(Start(slots), ev[..i + 1]).tier.order);
  }

  lemma LruHitsStep(ev: seq<Op>, slots: nat, n: nat)
    requires AllInsert(ev) && n < |ev|
    ensures Hits(LruReplay.Run(Start(slots), ev[..n + 1]).counts)
         == Hits(LruReplay.Run(Start(slots), ev[..n]).counts) + One(ev[n].key in LruCache(ev, slots, n))
  {
    assert ev[..n + 1][..n] == ev[..n] && ev[..n + 1][n] == ev[n];
  }

  /** Running hit totals that grow with the schedule's hits are the schedule's hits. */
  lemma {:induction false} ScheduleHitsAre(ev: seq<Op>, caches: seq<set<Key>>, totals: seq<nat>, n: nat)
    requires AllInsert(ev) && n <= |ev| && |caches| == |totals| == |ev| + 1 && totals[0] == 0
    requires forall i :: 0 <= i < |ev| ==> GrowsAt(ev, caches, totals, i)
    ensures ScheduleHits(ev, caches, n) == totals[n]
  {
    if n > 0 {
      ScheduleHitsAre(ev, caches, totals, n - 1);
      assert GrowsAt(ev, caches, totals, n - 1);
    }
  }

  ghost predicate GrowsAt(ev: seq<Op>, caches: seq<set<Key>>, totals: seq<nat>, i: nat)
    requires AllInsert(ev) && i < |ev| && |caches| == |totals| == |ev| + 1
  {
    totals[i + 1] == totals[i] + One(ev[i].key in caches[i])
  }

  /** Plain LRU's residents form a demand schedule with LRU's hits. */
  lemma LruIsSchedule(ev: seq<Op>, slots: nat) returns (caches: seq<set<Key>>)
    requires AllInsert(ev)
    ensures Schedule(ev, slots, caches)
    ensures ScheduleHits(ev, caches, |ev|) == Hits(LruReplay.Run(Start(slots), ev).counts)
  {
    caches := seq(|ev| + 1, i requires 0 <= i <= |ev| => LruCache(ev, slots, i));
    var totals := seq(|ev| + 1, i requires 0 <= i <= |ev| => Hits(LruReplay.Run(Start(slots), ev[..i]).counts));
    forall i | 0 <= i < |ev| ensures MoveAt(ev, slots, caches, i) && GrowsAt(ev, caches, totals, i) {
      LruMoves(ev, slots, i);
      LruHitsStep(ev, slots, i);
    }
    assert ev[..0] == [] && ev[..|ev|] == ev;
    ScheduleHitsAre(ev, caches, totals, |ev|);
  }

  /** On a trace whose lookups all insert, no plain LRU replay beats Belady's at the same slot count. */
  lemma LruNeverBeatsBelady(trace: seq<Call>, slots: nat, prefillInserts: bool)
    requires AllInsert(Events(trace, prefillInserts))
    ensures var ev := Events(trace, prefillInserts);
      Hits(LruReplay.Run(Start(slots), TraceOps(trace, 0, prefillInserts)).counts)
        <= Hits(Optimal(ev, |ev|, slots).counts)
  {
    var ev := Events(trace, prefillInserts);
    PlainEvents(trace, prefillInserts);
    var caches := LruIsSchedule(ev, slots);
    BeladyIsOptimal(ev, slots, caches, |ev|);
  }
}
