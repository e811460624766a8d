/** A decode trace on which a schedule that skips an insert beats Belady's replay. */
module BeladySweep {
  import opened Sequences
  import opened CacheTrace
  import opened LruReplay
  import opened Belady
  import opened BeladyOptimal
  import opened BeladySkipping

  /** Visits a, b, a, a, b. */
  function Sweep(a: Key, b: Key): (ev: seq<Op>)
    ensures AllInsert(ev)
  {
    [Lookup(a, true, true), Lookup(b, true, true), Lookup(a, true, true), Lookup(a, true, true), Lookup(b, true, true)]
  }

  lemma SweepVisits(a: Key, b: Key)
    requires a != b
    ensures var ev := Sweep(a, b);
      && NextVisit(ev, 1, a) == 2 && NextVisit(ev, 3, a) == 3 && NextVisit(ev, 4, a) == 5
      && NextVisit(ev, 2, b) == 4 && NextVisit(ev, 5, b) == 5
  {
    var ev := Sweep(a, b);
    assert NextVisit(ev, 4, a) == NextVisit(ev, 5, a) == 5;
    assert NextVisit(ev, 2, b) == NextVisit(ev, 3, b) == NextVisit(ev, 4, b) == 4;
    assert NextVisit(ev, 1, a) == NextVisit(ev, 2, a) == 2;
  }

  lemma SweepReplay(a: Key, b: Key)
    requires a != b
    ensures Optimal(Sweep(a, b), 3, 1) == Cache({a}, Counts(3, 0, 0, 0), 3, 2)
  {
    var ev := Sweep(a, b);
    SweepVisits(a, b);
    assert Optimal(ev, 0, 1) == Cache({}, Counts(0, 0, 0, 0), 0, 0);
    assert Optimal(ev, 1, 1) == OptimalStep(ev, 0, 1, Optimal(ev, 0, 1)) == Cache({a}, Counts(1, 0, 0, 0), 1, 0);
    assert Optimal(ev, 2, 1) == OptimalStep(ev, 1, 1, Optimal(ev, 1, 1)) == Cache({b}, Counts(2, 0, 0, 0), 2, 1);
    assert Optimal(ev, 3, 1) == OptimalStep(ev, 2, 1, Optimal(ev, 2, 1));
  }

  /**
    A schedule that may leave a missed key out can do better than the replay, which inserts any
    key visited again: with one slot, keeping a hits twice over the sweep, the replay only once.
  */
  lemma BypassBeatsBelady(a: Key, b: Key)
    requires a != b
    ensures Hits(Optimal(Sweep(a, b), 5, 1).counts) == 1
    ensures Skipping(Sweep(a, b), 1, [{}, {a}, {a}, {a}, {a}, {a}])
    ensures ScheduleHits(Sweep(a, b), [{}, {a}, {a}, {a}, {a}, {a}], 5) == 2
  {
    var ev, caches := Sweep(a, b), [{}, {a}, {a}, {a}, {a}, {a}];
    SweepVisits(a, b);
    SweepReplay(a, b);
    assert Optimal(ev, 4, 1) == OptimalStep(ev, 3, 1, Optimal(ev, 3, 1)) == Cache({a}, Counts(4, 1, 0, 0), 3, 2);
    assert ScheduleHits(ev, caches, 1) == 0;
    assert ScheduleHits(ev, caches, 3) == 1;
  }

  /** A decode step that routes to one expert of the first layer. */
  function Step1(e: nat): Call {
    Call(Decode, [[Visit(0, 0, e)]])
  }

  lemma OneSeen(e: nat)
    ensures FirstSeen([Visit(0, 0, e)], 0, 0) == [Key(0, e)]
  {
    var visits := [Visit(0, 0, e)];
    assert visits[..0] == [];
    assert FirstSeen([], 0, 0) == [];
  }

  lemma OneChunk(e: nat)
    ensures Chunks([Visit(0, 0, e)]) == [0]
  {
    var visits := [Visit(0, 0, e)];
    var all := seq(|visits|, i requires 0 <= i < |visits| => visits[i].chunk);
    assert all == [0] && [0][..0] == [];
    assert SortedDistinct([]) == [];
    assert SortedDistinct([0]) == InsertSorted([], 0);
  }

  lemma Step1Looks(e: nat)
    ensures DemandOps(Step1(e), false) == [Lookup(Key(0, e), true, true)]
  {
    OneChunk(e);
    OneSeen(e);
    var group := [Key(0, e)];
    assert LayerLookups([Visit(0, 0, e)], 0) == [group];
    assert Lookups(Step1(e)) == Flatten([[group]]);
    FlattenOne([group]);
    FlattenOne(group);
  }

  lemma FlattenOne<T>(s: seq<T>)
    ensures Flatten([s]) == s
  {
    assert [s][..0] == [];
    assert Flatten([s]) == Flatten([]) + s == [] + s;
  }

  lemma EventsSnoc(trace: seq<Call>, e: nat)
    ensures Events(trace + [Step1(e)], false) == Events(trace, false) + [Lookup(Key(0, e), true, true)]
  {
    assert (trace + [Step1(e)])[..|trace|] == trace;
    Step1Looks(e);
  }

  function Decodes(es: seq<nat>): seq<Call> {
    seq(|es|, i requires 0 <= i < |es| => Step1(es[i]))
  }

  function Visits(es: seq<nat>): seq<Op> {
    seq(|es|, i requires 0 <= i < |es| => Lookup(Key(0, es[i]), true, true))
  }

  /** Any sequence of experts is what some decode trace visits. */
  lemma {:induction false} StepsVisit(es: seq<nat>)
    ensures Events(Decodes(es), false) == Visits(es)
  {
    if es != [] {
      var n := |es| - 1;
      StepsVisit(es[..n]);
      EventsSnoc(Decodes(es[..n]), es[n]);
      StepsSnoc(es, n);
    }
  }

  lemma StepsSnoc(es: seq<nat>, n: nat)
    requires |es| == n + 1
    ensures Decodes(es) == Decodes(es[..n]) + [Step1(es[n])]
    ensures Visits(es) == Visits(es[..n]) + [Lookup(Key(0, es[n]), true, true)]
  {
  }

  /** The sweep over two experts of the first layer is the event sequence of a decode trace. */
  lemma SweepIsTrace(a: nat, b: nat)
    ensures Events(Decodes([a, b, a, a, b]), false) == Sweep(Key(0, a), Key(0, b))
  {
    StepsVisit([a, b, a, a, b]);
  }
}
