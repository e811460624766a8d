/**
  When Belady's replay bounds the schedules that may leave a missed key out (src/cache_sim.rs,
  `simulate_belady`): exactly when skipping a key due no sooner than any resident would gain it no
  hit, and so whenever it never meets such a key.
*/
module BeladyBounds {
  import opened CacheTrace
  import opened LruReplay
  import opened Belady
  import opened BeladyOptimal
  import opened BeladySkipping

  // ---- Both replays are such schedules ----

  ghost function ReplayAt(ev: seq<Op>, slots: nat, patient: bool, n: nat): Cache
    requires AllInsert(ev) && n <= |ev|
  {
    if patient then Patient(ev, n, slots) else Optimal(ev, n, slots)
  }

  /** What one event does to the residents and the hits, in either replay. */
  lemma ReplayStep(ev: seq<Op>, slots: nat, patient: bool, i: nat)
    requires AllInsert(ev) && i < |ev|
    ensures var s, t, k := ReplayAt(ev, slots, patient, i), ReplayAt(ev, slots, patient, i + 1), ev[i].key;
      && t.resident <= s.resident + {k}
      && (|s.resident| <= slots ==> |t.resident| <= slots)
      && Hits(t.counts) == Hits(s.counts) + One(k in s.resident)
  {
    var s := ReplayAt(ev, slots, patient, i);
    OneStep(ev, i, slots, s);
    assert ReplayAt(ev, slots, patient, i + 1)
        == if patient then PatientStep(ev, i, slots, s) else OptimalStep(ev, i, slots, s);
  }

  lemma OneStep(ev: seq<Op>, i: nat, slots: nat, s: Cache)
    requires AllInsert(ev) && i < |ev|
    ensures var t, k := OptimalStep(ev, i, slots, s), ev[i].key;
      && t.resident <= s.resident + {k}
      && (|s.resident| <= slots ==> |t.resident| <= slots)
      && Hits(t.counts) == Hits(s.counts) + One(k in s.resident)
  {
  }

  lemma {:induction false} ResidentsFit(ev: seq<Op>, slots: nat, patient: bool, i: nat)
    requires AllInsert(ev) && i <= |ev|
    ensures |ReplayAt(ev, slots, patient, i).resident| <= slots
  {
    if i > 0 {
      ResidentsFit(ev, slots, patient, i - 1);
      ReplayStep(ev, slots, patient, i - 1);
    }
  }

  ghost function Held(ev: seq<Op>, slots: nat, patient: bool, i: nat): set<Key>
    requires AllInsert(ev) && i <= |ev|
  {
    ReplayAt(ev, slots, patient, i).resident
  }

  ghost function HitsBy(ev: seq<Op>, slots: nat, patient: bool, i: nat): nat
    requires AllInsert(ev) && i <= |ev|
  {
    Hits(ReplayAt(ev, slots, patient, i).counts)
  }

  lemma HeldMoves(ev: seq<Op>, slots: nat, patient: bool, i: nat)
    requires AllInsert(ev) && i < |ev|
    ensures Skip(Held(ev, slots, patient, i), Held(ev, slots, patient, i + 1), ev[i].key, slots)
    ensures HitsBy(ev, slots, patient, i + 1)
         == HitsBy(ev, slots, patient, i) + One(ev[i].key in Held(ev, slots, patient, i))
  {
    ResidentsFit(ev, slots, patient, i + 1);
    ReplayStep(ev, slots, patient, i);
  }

  /** Residents and running hits that step as a skipping schedule does, from nothing. */
  ghost predicate Stepwise(ev: seq<Op>, slots: nat, held: nat -> set<Key>, total: nat -> nat, i: nat)
    requires AllInsert(ev) && i < |ev|
  {
    Skip(held(i), held(i + 1), ev[i].key, slots) && total(i + 1) == total(i) + One(ev[i].key in held(i))
  }

  lemma StepwiseSchedule(ev: seq<Op>, slots: nat, held: nat -> set<Key>, total: nat -> nat)
    returns (caches: seq<set<Key>>)
    requires AllInsert(ev) && held(0) == {} && total(0) == 0
    requires forall i :: 0 <= i < |ev| ==> Stepwise(ev, slots, held, total, i)
    ensures Skipping(ev, slots, caches) && ScheduleHits(ev, caches, |ev|) == total(|ev|)
  {
    caches := seq(|ev| + 1, i requires 0 <= i <= |ev| => held(i));
    var totals := seq(|ev| + 1, i requires 0 <= i <= |ev| => total(i));
    forall i | 0 <= i < |ev| ensures SkipAt(ev, slots, caches, i) && GrowsAt(ev, caches, totals, i) {
      assert Stepwise(ev, slots, held, total, i);
    }
    ScheduleHitsAre(ev, caches, totals, |ev|);
  }

  ghost function HeldBy(ev: seq<Op>, slots: nat, patient: bool): nat -> set<Key>
    requires AllInsert(ev)
  {
    (i: nat) => if i <= |ev| then Held(ev, slots, patient, i) else {}
  }

  ghost function TotalBy(ev: seq<Op>, slots: nat, patient: bool): nat -> nat
    requires AllInsert(ev)
  {
    (i: nat) => if i <= |ev| then HitsBy(ev, slots, patient, i) else 0
  }

  lemma ReplayStepwise(ev: seq<Op>, slots: nat, patient: bool, i: nat)
    requires AllInsert(ev) && i < |ev|
    ensures Stepwise(ev, slots, HeldBy(ev, slots, patient), TotalBy(ev, slots, patient), i)
  {
    HeldMoves(ev, slots, patient, i);
  }

  lemma ReplayFromNothing(ev: seq<Op>, slots: nat, patient: bool)
    requires AllInsert(ev)
    ensures HeldBy(ev, slots, patient)(0) == {} && TotalBy(ev, slots, patient)(0) == 0
    ensures TotalBy(ev, slots, patient)(|ev|) == HitsBy(ev, slots, patient, |ev|)
  {
  }

  /** The residents of either replay form a skipping schedule with its hits. */
  lemma ReplayIsSkipping(ev: seq<Op>, slots: nat, patient: bool) returns (caches: seq<set<Key>>)
    requires AllInsert(ev)
    ensures Skipping(ev, slots, caches)
    ensures ScheduleHits(ev, caches, |ev|) == HitsBy(ev, slots, patient, |ev|)
  {
    ReplayFromNothing(ev, slots, patient);
    var held, total := HeldBy(ev, slots, patient), TotalBy(ev, slots, patient);
    forall i | 0 <= i < |ev| ensures Stepwise(ev, slots, held, total, i) {
      ReplayStepwise(ev, slots, patient, i);
    }
    caches := StepwiseSchedule(ev, slots, held, total);
  }

  // ---- When the replay is a bound ----

  ghost predicate BoundsSkipping(ev: seq<Op>, slots: nat)
    requires AllInsert(ev)
  {
    forall caches :: Skipping(ev, slots, caches) ==>
                       ScheduleHits(ev, caches, |ev|) <= Hits(Optimal(ev, |ev|, slots).counts)
  }

  /**
    The exact condition: the replay bounds every schedule of at most `slots` keys, skipping or
    not, if and only if the comparison it leaves out would not gain it a hit.
  */
  lemma BoundsSkippingIff(ev: seq<Op>, slots: nat)
    requires AllInsert(ev)
    ensures BoundsSkipping(ev, slots)
       <==> Hits(Patient(ev, |ev|, slots).counts) == Hits(Optimal(ev, |ev|, slots).counts)
  {
    var n := |ev|;
    var held := ReplayIsSkipping(ev, slots, false);
    PatientIsOptimal(ev, slots, held, n);
    var patient := ReplayIsSkipping(ev, slots, true);
    forall caches | Skipping(ev, slots, caches)
      ensures ScheduleHits(ev, caches, n) <= Hits(Patient(ev, n, slots).counts)
    {
      PatientIsOptimal(ev, slots, caches, n);
    }
  }

  lemma {:induction false} NeverFired(ev: seq<Op>, slots: nat, n: nat)
    requires AllInsert(ev) && n <= |ev|
    requires forall i :: 0 <= i < n ==> !DueLast(ev, i, slots, Optimal(ev, i, slots).resident)
    ensures Patient(ev, n, slots) == Optimal(ev, n, slots)
  {
    if n > 0 {
      NeverFired(ev, slots, n - 1);
    }
  }

  /** It is a bound whenever no full miss of the replay brings in a key due no sooner than every resident. */
  lemma BoundsUnlessDueLast(ev: seq<Op>, slots: nat)
    requires AllInsert(ev)
    requires forall i :: 0 <= i < |ev| ==> !DueLast(ev, i, slots, Optimal(ev, i, slots).resident)
    ensures BoundsSkipping(ev, slots)
  {
    NeverFired(ev, slots, |ev|);
    BoundsSkippingIff(ev, slots);
  }
}
