/**
  Belady's replay against schedules that may leave a missed key out (src/cache_sim.rs,
  `simulate_belady`).  The replay inserts every missed key that is visited again, and so is not a
  bound for them.  One more comparison makes it one: skip a key due no sooner than any resident.
  For schedules with a slot less the replay is a bound as it is.
*/
module BeladySkipping {
  import opened CacheTrace
  import opened LruReplay
  import opened Belady
  import opened BeladyOptimal

  /** A move that may leave the looked-up key out. */
  ghost predicate Skip(a: set<Key>, b: set<Key>, k: Key, slots: nat) {
    b <= a + {k} && |b| <= slots
  }

  ghost predicate SkipAt(ev: seq<Op>, slots: nat, caches: seq<set<Key>>, i: nat)
    requires AllInsert(ev) && |caches| == |ev| + 1 && i < |ev|
  {
    Skip(caches[i], caches[i + 1], ev[i].key, slots)
  }

  ghost predicate Skipping(ev: seq<Op>, slots: nat, caches: seq<set<Key>>) {
    && AllInsert(ev) && |caches| == |ev| + 1 && caches[0] == {}
    && forall i :: 0 <= i < |ev| ==> SkipAt(ev, slots, caches, i)
  }

  // ---- The replay with one more comparison ----

  /** A full cache misses a key that is due no sooner than any resident. */
  ghost predicate DueLast(ev: seq<Op>, i: nat, slots: nat, resident: set<Key>)
    requires AllInsert(ev) && i < |ev|
  {
    && ev[i].key !in resident && |resident| >= slots > 0 && NextVisit(ev, i + 1, ev[i].key) < |ev|
    && NextVisit(ev, i, Farthest(ev, i, resident)) <= NextVisit(ev, i + 1, ev[i].key)
  }

  /** The replay's step, except that such a key is left out. */
  ghost function PatientStep(ev: seq<Op>, i: nat, slots: nat, s: Cache): Cache
    requires AllInsert(ev) && i < |ev|
  {
    if DueLast(ev, i, slots, s.resident) then s.(counts := Count(ev[i], s.counts, false))
    else OptimalStep(ev, i, slots, s)
  }

  ghost function Patient(ev: seq<Op>, n: nat, slots: nat): Cache
    requires AllInsert(ev) && n <= |ev|
  {
    if n == 0 then Cache({}, Counts(0, 0, 0, 0), 0, 0) else PatientStep(ev, n - 1, slots, Patient(ev, n - 1, slots))
  }

  /** A cache all of whose keys are due holds as many due keys as it holds keys. */
  lemma AllDue(ev: seq<Op>, i: nat, cache: set<Key>, v: Key, t: nat)
    requires i <= |ev| && NextVisit(ev, i, v) < t
    requires forall x :: x in cache ==> NextVisit(ev, i, x) <= NextVisit(ev, i, v)
    ensures Due(ev, i, cache, t) == cache
  {
  }

  /** The due keys the patient replay keeps across event `i`, its event's own key apart. */
  lemma PatientKeeps(ev: seq<Op>, i: nat, slots: nat, s: Cache, t: nat)
    requires AllInsert(ev) && i < t <= |ev| && |s.resident| <= slots
    ensures var k, s' := ev[i].key, PatientStep(ev, i, slots, s);
      var b, b' := Due(ev, i, s.resident - {k}, t), Due(ev, i, s'.resident - {k}, t);
      var now := k in s'.resident && NextVisit(ev, i + 1, k) < t;
      && |s'.resident| <= slots && (k in s.resident ==> k in s'.resident)
      && (slots == 0
          || (|b'| == |b| && (now || NextVisit(ev, i + 1, k) >= t))
          || (k !in s.resident && |b'| + One(now) == slots))
  {
    var k, s' := ev[i].key, PatientStep(ev, i, slots, s);
    if DueLast(ev, i, slots, s.resident) {
      assert s'.resident - {k} == s.resident == s.resident - {k};
      if NextVisit(ev, i + 1, k) < t {
        AllDue(ev, i, s.resident, Farthest(ev, i, s.resident), t);
      }
    } else {
      OptimalKeeps(ev, i, slots, s, t);
    }
  }

  lemma OptimalKeeps(ev: seq<Op>, i: nat, slots: nat, s: Cache, t: nat)
    requires AllInsert(ev) && i < t <= |ev| && |s.resident| <= slots && !DueLast(ev, i, slots, s.resident)
    ensures var k, s' := ev[i].key, OptimalStep(ev, i, slots, s);
      var b, b' := Due(ev, i, s.resident - {k}, t), Due(ev, i, s'.resident - {k}, t);
      var now := k in s'.resident && NextVisit(ev, i + 1, k) < t;
      && |s'.resident| <= slots && (k in s.resident ==> k in s'.resident)
      && (slots == 0
          || (|b'| == |b| && (now || NextVisit(ev, i + 1, k) >= t))
          || (k !in s.resident && |b'| + One(now) == slots))
  {
    var k, s' := ev[i].key, OptimalStep(ev, i, slots, s);
    if k !in s.resident && slots > 0 && NextVisit(ev, i + 1, k) < |ev| && |s.resident| == slots {
      var v := Farthest(ev, i, s.resident);
      var rest := s.resident - {v};
      assert s'.resident - {k} == rest && s.resident - {k} == s.resident;
      if NextVisit(ev, i, v) < t {
        AllDue(ev, i, rest, v, t);
      } else {
        assert Due(ev, i, rest, t) == Due(ev, i, s.resident, t);
      }
    } else {
      assert s'.resident - {k} == s.resident - {k};
    }
  }

  /** The invariant at one horizon survives one event. */
  lemma PatientAt(ev: seq<Op>, i: nat, slots: nat, a: set<Key>, a': set<Key>, s: Cache, lead: int, t: nat)
    requires AllInsert(ev) && i < t <= |ev|
    requires Skip(a, a', ev[i].key, slots) && |s.resident| <= slots && Ahead(ev, i, a, s.resident, lead)
    ensures |Due(ev, i + 1, a', t)|
         <= |Due(ev, i + 1, PatientStep(ev, i, slots, s).resident, t)|
            + lead + One(ev[i].key in s.resident) - One(ev[i].key in a)
  {
    var k, b, b' := ev[i].key, s.resident, PatientStep(ev, i, slots, s).resident;
    DueNext(ev, i, a, t);
    DueNext(ev, i, b, t);
    DueNext(ev, i, a', t);
    DueNext(ev, i, b', t);
    PatientKeeps(ev, i, slots, s, t);
    DueMonotone(ev, i, a' - {k}, a - {k}, t);
    DueMonotone(ev, i + 1, a', a', t);
    DueNow(ev, i, a);
    DueNow(ev, i, b);
    assert |Due(ev, i, a, i + 1)| <= |Due(ev, i, b, i + 1)| + lead;
    assert |Due(ev, i, a, t)| <= |Due(ev, i, b, t)| + lead;
  }

  ghost function PatientLead(ev: seq<Op>, slots: nat, caches: seq<set<Key>>, n: nat): int
    requires AllInsert(ev) && n <= |ev| && |caches| == |ev| + 1
  {
    Hits(Patient(ev, n, slots).counts) - ScheduleHits(ev, caches, n)
  }

  lemma PatientLeadStep(ev: seq<Op>, slots: nat, caches: seq<set<Key>>, n: nat)
    requires AllInsert(ev) && n < |ev| && |caches| == |ev| + 1
    ensures PatientLead(ev, slots, caches, n + 1)
         == PatientLead(ev, slots, caches, n)
            + One(ev[n].key in Patient(ev, n, slots).resident) - One(ev[n].key in caches[n])
  {
  }

  lemma {:induction false} PatientAhead(ev: seq<Op>, slots: nat, caches: seq<set<Key>>, n: nat)
    requires Skipping(ev, slots, caches) && n <= |ev|
    ensures |Patient(ev, n, slots).resident| <= slots
    ensures Ahead(ev, n, caches[n], Patient(ev, n, slots).resident, PatientLead(ev, slots, caches, n))
  {
    if n == 0 {
      assert forall t {:trigger Due(ev, 0, {}, t)} :: Due(ev, 0, {}, t) == {};
    } else {
      var i := n - 1;
      PatientAhead(ev, slots, caches, i);
      PatientLeadStep(ev, slots, caches, i);
      assert SkipAt(ev, slots, caches, i);
      PatientMoves(ev, i, slots, caches[i], caches[n], Patient(ev, i, slots), PatientLead(ev, slots, caches, i));
    }
  }

  /** The invariant survives one event. */
  lemma PatientMoves(ev: seq<Op>, i: nat, slots: nat, a: set<Key>, a': set<Key>, s: Cache, lead: int)
    requires AllInsert(ev) && i < |ev|
    requires Skip(a, a', ev[i].key, slots) && |s.resident| <= slots && Ahead(ev, i, a, s.resident, lead)
    ensures |PatientStep(ev, i, slots, s).resident| <= slots
    ensures Ahead(ev, i + 1, a', PatientStep(ev, i, slots, s).resident,
                  lead + One(ev[i].key in s.resident) - One(ev[i].key in a))
  {
    PatientKeeps(ev, i, slots, s, i + 1);
    var b', lead' := PatientStep(ev, i, slots, s).resident,
        lead + One(ev[i].key in s.resident) - One(ev[i].key in a);
    var n := i + 1;
    AheadFrom(ev, n, a', b', lead') by {
      forall t | n <= t <= |ev| ensures AtMost(ev, n, a', b', lead', t) {
        PatientAt(ev, i, slots, a, a', s, lead, t);
      }
    }
  }

  ghost predicate AtMost(ev: seq<Op>, n: nat, a: set<Key>, b: set<Key>, lead: int, t: nat)
    requires n <= |ev|
  {
    |Due(ev, n, a, t)| <= |Due(ev, n, b, t)| + lead
  }

  lemma AheadFrom(ev: seq<Op>, n: nat, a: set<Key>, b: set<Key>, lead: int)
    requires n <= |ev| && forall t :: n <= t <= |ev| ==> AtMost(ev, n, a, b, lead, t)
    ensures Ahead(ev, n, a, b, lead)
  {
    forall t | n <= t <= |ev| ensures |Due(ev, n, a, t)| <= |Due(ev, n, b, t)| + lead {
      assert AtMost(ev, n, a, b, lead, t);
    }
  }

  /** No schedule of at most `slots` keys, skipping or not, gets more hits than the patient replay. */
  lemma PatientIsOptimal(ev: seq<Op>, slots: nat, caches: seq<set<Key>>, n: nat)
    requires Skipping(ev, slots, caches) && n <= |ev|
    ensures ScheduleHits(ev, caches, n) <= Hits(Patient(ev, n, slots).counts)
  {
    PatientAhead(ev, slots, caches, n);
    LeadNotNegative(ev, n, caches[n], Patient(ev, n, slots).resident, PatientLead(ev, slots, caches, n));
  }

  // ---- One slot more is always enough ----

  /** The caches with the key visited last kept as well. */
  ghost function WithLast(ev: seq<Op>, caches: seq<set<Key>>): seq<set<Key>>
    requires AllInsert(ev) && |caches| == |ev| + 1
  {
    seq(|caches|, i requires 0 <= i < |caches| => if i == 0 then caches[0] else caches[i] + {ev[i - 1].key})
  }

  lemma WithLastIsSchedule(ev: seq<Op>, slots: nat, caches: seq<set<Key>>)
    requires Skipping(ev, slots, caches)
    ensures Schedule(ev, slots + 1, WithLast(ev, caches))
  {
    var more, room := WithLast(ev, caches), slots + 1;
    forall i | 0 <= i < |ev| ensures MoveAt(ev, room, more, i) {
      assert SkipAt(ev, slots, caches, i);
      assert more[i + 1] == caches[i + 1] + {ev[i].key} && caches[i] <= more[i];
    }
  }

  lemma {:induction false} WithLastHits(ev: seq<Op>, caches: seq<set<Key>>, n: nat)
    requires AllInsert(ev) && |caches| == |ev| + 1 && n <= |ev|
    ensures ScheduleHits(ev, caches, n) <= ScheduleHits(ev, WithLast(ev, caches), n)
  {
    if n > 0 {
      WithLastHits(ev, caches, n - 1);
      assert caches[n - 1] <= WithLast(ev, caches)[n - 1];
    }
  }

  /** Every schedule of at most `slots` keys is bounded by the replay with one slot more. */
  lemma OneMoreSlotBounds(ev: seq<Op>, slots: nat, caches: seq<set<Key>>, n: nat)
    requires Skipping(ev, slots, caches) && n <= |ev|
    ensures ScheduleHits(ev, caches, n) <= Hits(Optimal(ev, n, slots + 1).counts)
  {
    WithLastIsSchedule(ev, slots, caches);
    WithLastHits(ev, caches, n);
    BeladyIsOptimal(ev, slots + 1, WithLast(ev, caches), n);
  }
}
