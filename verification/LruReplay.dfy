/**
  Replaying a trace against the LRU tier, plain or with the protected hot set
  (src/cache_sim.rs, `simulate_lru`).  The trace becomes a list of tier operations that
  does not depend on the tier, so every property below is about every prefix of it.
*/
module LruReplay {
  import opened Sequences
  import opened CacheTrace
  import opened LruTier
  import opened HotSets

  /**
    `Refresh`: protect these keys and re-acquire each.  `Lookup`: look the key up, and on a
    miss insert it when `inserts`.  `Seed`: insert without a lookup (a prefill's last row).
  */
  datatype Op = Refresh(keys: seq<Key>) | Lookup(key: Key, decode: bool, inserts: bool) | Seed(key: Key)

  datatype Counts = Counts(decodeVisits: nat, decodeHits: nat, prefillVisits: nat, prefillHits: nat)

  function CountLookup(c: Counts, decode: bool, hit: bool): Counts {
    var one := if hit then 1 else 0;
    if decode then c.(decodeVisits := c.decodeVisits + 1, decodeHits := c.decodeHits + one)
    else c.(prefillVisits := c.prefillVisits + 1, prefillHits := c.prefillHits + one)
  }

  // ---- From a trace to its operations ----

  function LookupOps(keys: seq<Key>, decode: bool, inserts: bool): seq<Op> {
    seq(|keys|, i requires 0 <= i < |keys| => Lookup(keys[i], decode, inserts))
  }

  function SeedOps(keys: seq<Key>): seq<Op> {
    seq(|keys|, i requires 0 <= i < |keys| => Seed(keys[i]))
  }

  /** The lookups and seeds of a call, whatever the hot set. */
  function DemandOps(call: Call, prefillInserts: bool): seq<Op> {
    var keys := Flatten(Lookups(call));
    match call.phase
    case Decode => LookupOps(keys, true, true)
    case Prefill =>
      if prefillInserts then LookupOps(keys, false, true)
      else LookupOps(keys, false, false) + SeedOps(Flatten(PrefillSeed(call)))
  }

  /** The counters a call's lookups see: a decode advances the refresh clock first. */
  ghost function CallCounters(call: Call, c: Counters): Counters {
    if call.phase.Decode? then NextDecode(c) else c
  }

  ghost function RefreshOps(call: Call, c: Counters): seq<Op> {
    if call.phase.Decode? && RefreshDue(NextDecode(c)) then [Refresh(Select(NextDecode(c)))] else []
  }

  ghost function CallOps(call: Call, c: Counters, prefillInserts: bool): seq<Op> {
    RefreshOps(call, c) + DemandOps(call, prefillInserts)
  }

  ghost function CountersAfter(trace: seq<Call>, budget: nat): Counters {
    if trace == [] then NewCounters(budget) else
      var n := |trace| - 1;
      ObserveAll(CallCounters(trace[n], CountersAfter(trace[..n], budget)), Flatten(Recorded(trace[n])))
  }

  ghost function TraceOps(trace: seq<Call>, budget: nat, prefillInserts: bool): seq<Op> {
    if trace == [] then [] else
      var n := |trace| - 1;
      TraceOps(trace[..n], budget, prefillInserts)
        + CallOps(trace[n], CountersAfter(trace[..n], budget), prefillInserts)
  }

  function DecodeSteps(trace: seq<Call>): nat {
    if trace == [] then 0 else
      DecodeSteps(trace[..|trace| - 1]) + if trace[|trace| - 1].phase.Decode? then 1 else 0
  }

  // ---- Running the operations ----

  datatype Replay = Replay(tier: Tier, counts: Counts)

  function InsertAll(t: Tier, keys: seq<Key>): Tier {
    if keys == [] then t else Inserted(InsertAll(t, keys[..|keys| - 1]), keys[|keys| - 1])
  }

  ghost function Step(s: Replay, op: Op): Replay {
    match op
    case Refresh(keys) => s.(tier := InsertAll(s.tier.(hot := Elements(keys)), keys))
    case Seed(key) => s.(tier := Inserted(s.tier, key))
    case Lookup(key, decode, inserts) =>
      var hit := key in s.tier.order;
      Replay(if hit then Touched(s.tier, key) else if inserts then Inserted(s.tier, key) else s.tier,
             CountLookup(s.counts, decode, hit))
  }

  ghost function Run(s: Replay, ops: seq<Op>): Replay {
    if ops == [] then s else Step(Run(s, ops[..|ops| - 1]), ops[|ops| - 1])
  }

  ghost function Start(slots: nat): Replay {
    Replay(NewTier(slots), Counts(0, 0, 0, 0))
  }

  lemma {:induction false} RunAppend(s: Replay, a: seq<Op>, b: seq<Op>)
    ensures Run(s, a + b) == Run(Run(s, a), b)
  {
    if b == [] {
      assert a + b == a;
    } else {
      var n := |b| - 1;
      assert (a + b)[..|a + b| - 1] == a + b[..n];
      RunAppend(s, a, b[..n]);
    }
  }

  // ---- simulate_lru ----

  datatype Policy = PlainLru | LruHot(numerator: nat, denominator: nat)

  function HotBudget(policy: Policy, slots: nat): nat {
    match policy
    case PlainLru => 0
    case LruHot(n, d) => slots * n / (if d == 0 then 1 else d)
  }

  datatype Report = Report(slots: nat, decodeSteps: nat, counts: Counts, uploads: nat, evictions: nat, refused: nat)

  ghost function ReportOf(trace: seq<Call>, s: Replay): Report {
    Report(s.tier.slots, DecodeSteps(trace), s.counts, s.tier.inserts, s.tier.evictions, s.tier.refused)
  }

  method ReplayDemand(tier: Lru, keys: seq<Key>, decode: bool, inserts: bool, counts: Counts) returns (r: Counts)
    requires tier.Valid()
    modifies tier
    ensures tier.Valid()
    ensures Replay(tier.View(), r) == Run(Replay(old(tier.View()), counts), LookupOps(keys, decode, inserts))
  {
    r := counts;
    ghost var s, ops := Replay(tier.View(), counts), LookupOps(keys, decode, inserts);
    for i := 0 to |keys|
      invariant tier.Valid()
      invariant Replay(tier.View(), r) == Run(s, ops[..i])
    {
      assert ops[..i + 1][..i] == ops[..i] && ops[..i + 1][i] == Lookup(keys[i], decode, inserts);
      var hit := tier.Touch(keys[i]);
      r := CountLookup(r, decode, hit);
      if !hit && inserts {
        tier.Insert(keys[i]);
      }
    }
    assert ops[..|keys|] == ops;
  }

  method ReplaySeeds(tier: Lru, keys: seq<Key>, ghost counts: Counts)
    requires tier.Valid()
    modifies tier
    ensures tier.Valid()
    ensures Replay(tier.View(), counts) == Run(Replay(old(tier.View()), counts), SeedOps(keys))
  {
    ghost var s, ops := Replay(tier.View(), counts), SeedOps(keys);
    for i := 0 to |keys|
      invariant tier.Valid()
      invariant Replay(tier.View(), counts) == Run(s, ops[..i])
    {
      assert ops[..i + 1][..i] == ops[..i] && ops[..i + 1][i] == Seed(keys[i]);
      tier.Insert(keys[i]);
    }
    assert ops[..|keys|] == ops;
  }

  method ReplayRefresh(tier: Lru, hot: HotSet)
    requires tier.Valid()
    modifies tier, hot
    ensures tier.Valid() && hot.View() == NextDecode(old(hot.View()))
    ensures var c, t := hot.View(), old(tier.View());
      tier.View() == if RefreshDue(c) then InsertAll(t.(hot := Elements(Select(c))), Select(c)) else t
  {
    var due := hot.BeginDecode();
    if due {
      var keys := hot.Choose();
      tier.SetHot(keys);
      ghost var t := tier.View();
      for i := 0 to |keys|
        invariant tier.Valid() && hot.View() == NextDecode(old(hot.View()))
        invariant tier.View() == InsertAll(t, keys[..i])
      {
        assert keys[..i + 1][..i] == keys[..i];
        tier.Insert(keys[i]);
      }
      assert keys[..|keys|] == keys;
    }
  }

  method ReplayCall(tier: Lru, hot: HotSet, call: Call, prefillInserts: bool, counts: Counts) returns (r: Counts)
    requires tier.Valid()
    modifies tier, hot
    ensures tier.Valid()
    ensures hot.View() == ObserveAll(CallCounters(call, old(hot.View())), Flatten(Recorded(call)))
    ensures Replay(tier.View(), r)
         == Run(Replay(old(tier.View()), counts), CallOps(call, old(hot.View()), prefillInserts))
  {
    ghost var s, c := Replay(tier.View(), counts), hot.View();
    var decode := call.phase == Decode;
    if decode {
      ReplayRefresh(tier, hot);
    }
    ghost var refreshed := Replay(tier.View(), counts);
    RefreshRun(s, call, c, refreshed);
    var keys := Flatten(Lookups(call));
    r := ReplayDemand(tier, keys, decode, decode || prefillInserts, counts);
    hot.Record(Flatten(Recorded(call)));
    if !decode && !prefillInserts {
      ReplaySeeds(tier, Flatten(PrefillSeed(call)), r);
      RunAppend(refreshed, LookupOps(keys, false, false), SeedOps(Flatten(PrefillSeed(call))));
    }
    RunAppend(s, RefreshOps(call, c), DemandOps(call, prefillInserts));
  }

  lemma RefreshRun(s: Replay, call: Call, c: Counters, r: Replay)
    requires r.counts == s.counts
    requires r.tier == if call.phase.Decode? && RefreshDue(NextDecode(c))
                       then InsertAll(s.tier.(hot := Elements(Select(NextDecode(c)))), Select(NextDecode(c)))
                       else s.tier
    ensures r == Run(s, RefreshOps(call, c))
  {
    var ops := RefreshOps(call, c);
    if ops != [] {
      assert ops[..0] == [];
      assert Run(s, ops) == Step(Run(s, ops[..0]), ops[0]);
    }
  }

  /** The replay computes the run of the trace's operations. */
  method SimulateLru(trace: seq<Call>, policy: Policy, slots: nat, prefillInserts: bool) returns (rep: Report)
    ensures rep == ReportOf(trace, Run(Start(slots), TraceOps(trace, HotBudget(policy, slots), prefillInserts)))
  {
    var tier := new Lru(slots);
    var budget := HotBudget(policy, slots);
    var hot := new HotSet(budget);
    var steps, counts := 0, Counts(0, 0, 0, 0);
    for i := 0 to |trace|
      invariant tier.Valid() && hot.View() == CountersAfter(trace[..i], budget)
      invariant steps == DecodeSteps(trace[..i])
      invariant Replay(tier.View(), counts) == Run(Start(slots), TraceOps(trace[..i], budget, prefillInserts))
    {
      OneMoreCall(trace, i, budget, prefillInserts, slots);
      if trace[i].phase == Decode {
        steps := steps + 1;
      }
      counts := ReplayCall(tier, hot, trace[i], prefillInserts, counts);
    }
    assert trace[..|trace|] == trace;
    SlotsFixed(Start(slots), TraceOps(trace, budget, prefillInserts));
    rep := Report(slots, steps, counts, tier.inserts, tier.evictions, tier.refused);
  }

  lemma OneMoreCall(trace: seq<Call>, i: nat, budget: nat, prefillInserts: bool, slots: nat)
    requires i < |trace|
    ensures DecodeSteps(trace[..i + 1]) == DecodeSteps(trace[..i]) + if trace[i].phase.Decode? then 1 else 0
    ensures CountersAfter(trace[..i + 1], budget)
         == ObserveAll(CallCounters(trace[i], CountersAfter(trace[..i], budget)), Flatten(Recorded(trace[i])))
    ensures Run(Start(slots), TraceOps(trace[..i + 1], budget, prefillInserts))
         == Run(Run(Start(slots), TraceOps(trace[..i], budget, prefillInserts)),
                CallOps(trace[i], CountersAfter(trace[..i], budget), prefillInserts))
  {
    assert trace[..i + 1][..i] == trace[..i];
    RunAppend(Start(slots), TraceOps(trace[..i], budget, prefillInserts),
              CallOps(trace[i], CountersAfter(trace[..i], budget), prefillInserts));
  }

  lemma {:induction false} InsertAllSlots(t: Tier, keys: seq<Key>)
    ensures InsertAll(t, keys).slots == t.slots && InsertAll(t, keys).hot == t.hot
  {
    if keys != [] {
      InsertAllSlots(t, keys[..|keys| - 1]);
    }
  }

  lemma {:induction false} SlotsFixed(s: Replay, ops: seq<Op>)
    ensures Run(s, ops).tier.slots == s.tier.slots
  {
    if ops != [] {
      SlotsFixed(s, ops[..|ops| - 1]);
      if ops[|ops| - 1].Refresh? {
        InsertAllSlots(Run(s, ops[..|ops| - 1]).tier.(hot := Elements(ops[|ops| - 1].keys)), ops[|ops| - 1].keys);
      }
    }
  }
}
