/**
  What each operation of the LRU and two-tier replays does to the residents and to the counts,
  said of the residents before and after it (src/cache_sim.rs).
*/
module ReplayEffects {
  import opened Sequences
  import opened CacheTrace
  import opened LruTier
  import opened HotSets
  import opened LruReplay
  import opened LruTheorems
  import opened TwoTier
  import Belady
  import StaticTop

  // ---- One LRU insert ----

  /**
    Bringing `k` in: it becomes the newest key.  Absent from a full tier it takes the place of the
    oldest key that is not hot, and it is left out when there is no slot or every resident is hot.
  */
  ghost predicate Takes(was: Tier, now: Tier, k: Key, a: seq<Key>, out: seq<Key>, b: seq<Key>) {
    && was.order == a + out + b
    && if k in was.order then out == [k] && now.order == a + b + [k]
       else if was.slots == 0 || (|was.order| == was.slots && Elements(was.order) <= was.hot) then
         now.order == was.order
       else
         && now.order == a + b + [k]
         && if |was.order| < was.slots then out == []
            else |out| == 1 && out[0] !in was.hot && Elements(a) <= was.hot
  }

  lemma {:induction false} WithoutSplits(s: seq<Key>, i: nat)
    requires i < |s| && NoDup(s)
    ensures Without(s, s[i]) == s[..i] + s[i + 1..]
  {
    if i == 0 {
      assert s[..0] + s[1..] == s[1..];
    } else {
      WithoutSplits(s[1..], i - 1);
      assert s[1..][..i - 1] == s[1..i] && s[1..][i..] == s[i + 1..];
      assert [s[0]] + s[1..i] == s[..i];
    }
  }

  lemma Position(s: seq<Key>, k: Key) returns (i: nat)
    requires k in s
    ensures i < |s| && s[i] == k && s == s[..i] + [k] + s[i + 1..]
  {
    i :| 0 <= i < |s| && s[i] == k;
  }

  lemma InsertTakes(t: Tier, k: Key) returns (a: seq<Key>, out: seq<Key>, b: seq<Key>)
    requires Sound(t)
    ensures Takes(t, Inserted(t, k), k, a, out, b)
  {
    a, out, b := t.order, [], [];
    var i := FirstCold(t.order, t.hot);
    if k in t.order {
      i := Position(t.order, k);
      WithoutSplits(t.order, i);
      a, out, b := t.order[..i], [k], t.order[i + 1..];
    } else if |t.order| == t.slots && i < |t.order| {
      WithoutSplits(t.order, i);
      a, out, b := t.order[..i], [t.order[i]], t.order[i + 1..];
      assert t.order[i] in Elements(t.order);
    } else {
      assert a + out + b == t.order;
    }
  }

  lemma TouchMoves(t: Tier, k: Key) returns (a: seq<Key>, b: seq<Key>)
    requires Sound(t) && k in t.order
    ensures t.order == a + [k] + b && Touched(t, k) == t.(order := a + b + [k])
  {
    var i := Position(t.order, k);
    WithoutSplits(t.order, i);
    a, b := t.order[..i], t.order[i + 1..];
  }

  /**
    A seed, an inserting lookup and a hit bring their key in; a miss that does not insert leaves
    the tier alone; a refresh protects exactly its keys and, when they fit, holds them all.
  */
  lemma LruEffects(s: Replay, op: Op) returns (a: seq<Key>, out: seq<Key>, b: seq<Key>)
    requires Sound(s.tier)
    ensures var t := Step(s, op).tier;
      match op
      case Seed(k) => Takes(s.tier, t, k, a, out, b)
      case Lookup(k, _, inserts) =>
        if inserts || k in s.tier.order then Takes(s.tier, t, k, a, out, b) else t == s.tier
      case Refresh(keys) =>
        t.hot == Elements(keys) && (|t.hot| <= t.slots ==> t.hot <= Elements(t.order))
  {
    a, out, b := [], [], [];
    match op
    case Seed(k) => a, out, b := InsertTakes(s.tier, k);
    case Lookup(k, _, inserts) => a, out, b := InsertTakes(s.tier, k);
    case Refresh(keys) =>
      var t := s.tier.(hot := Elements(keys));
      InsertAllSlots(t, keys);
      if |t.hot| <= t.slots {
        RefreshFills(t, keys);
      }
  }

  // ---- The counts ----

  /** How many of the operations look a key up in the phase. */
  ghost function Visits(ops: seq<Op>, decode: bool): nat {
    if ops == [] then 0 else
      var n := |ops| - 1;
      Visits(ops[..n], decode) + if ops[n].Lookup? && ops[n].decode == decode then 1 else 0
  }

  /** How many of them find their key resident when they come. */
  ghost function LruHits(slots: nat, ops: seq<Op>, decode: bool): nat {
    if ops == [] then 0 else
      var n := |ops| - 1;
      var held := Run(Start(slots), ops[..n]).tier.order;
      LruHits(slots, ops[..n], decode)
        + if ops[n].Lookup? && ops[n].decode == decode && ops[n].key in held then 1 else 0
  }

  ghost function BeladyHits(ev: seq<Op>, n: nat, slots: nat, decode: bool): nat
    requires Belady.Keyed(ev) && n <= |ev|
  {
    if n == 0 then 0 else
      var op, held := ev[n - 1], Belady.Optimal(ev, n - 1, slots).resident;
      BeladyHits(ev, n - 1, slots, decode) + if op.Lookup? && op.decode == decode && op.key in held then 1 else 0
  }

  lemma {:induction false} LruCounts(slots: nat, ops: seq<Op>)
    ensures Run(Start(slots), ops).counts
         == Counts(Visits(ops, true), LruHits(slots, ops, true), Visits(ops, false), LruHits(slots, ops, false))
  {
    if ops != [] {
      LruCounts(slots, ops[..|ops| - 1]);
    }
  }

  lemma {:induction false} BeladyCounts(ev: seq<Op>, n: nat, slots: nat)
    requires Belady.Keyed(ev) && n <= |ev|
    ensures Belady.Optimal(ev, n, slots).counts
         == Counts(Visits(ev[..n], true), BeladyHits(ev, n, slots, true),
                   Visits(ev[..n], false), BeladyHits(ev, n, slots, false))
  {
    if n > 0 {
      BeladyCounts(ev, n - 1, slots);
      assert ev[..n][..n - 1] == ev[..n - 1];
    }
  }

  // ---- The two tiers ----

  ghost function Where(s: Tiers, k: Key): Source {
    if k in s.device.order then OnDevice else if k in s.host.order then OnHost else OnDisk
  }

  ghost function TierVisits(ops: seq<TierOp>, decode: bool): nat {
    if ops == [] then 0 else
      var n := |ops| - 1;
      TierVisits(ops[..n], decode) + if ops[n].Route? && ops[n].decode == decode then 1 else 0
  }

  /** How many routings of the phase find their key there. */
  ghost function Found(s: Tiers, ops: seq<TierOp>, exclusive: bool, decode: bool, from: Source): nat {
    if ops == [] then 0 else
      var n := |ops| - 1;
      var now := ApplyAll(s, ops[..n], exclusive);
      Found(s, ops[..n], exclusive, decode, from)
        + if ops[n].Route? && ops[n].decode == decode && Where(now, ops[n].key) == from then 1 else 0
  }

  ghost function ServedOf(s: Tiers, ops: seq<TierOp>, exclusive: bool, decode: bool): Served {
    Served(TierVisits(ops, decode), Found(s, ops, exclusive, decode, OnDevice),
           Found(s, ops, exclusive, decode, OnHost), Found(s, ops, exclusive, decode, OnDisk))
  }

  /** One more lookup, served from there. */
  ghost function Plus(v: Served, from: Source): Served {
    match from
    case OnDevice => Served(v.visits + 1, v.device + 1, v.host, v.disk)
    case OnHost => Served(v.visits + 1, v.device, v.host + 1, v.disk)
    case OnDisk => Served(v.visits + 1, v.device, v.host, v.disk + 1)
  }

  lemma OpServes(s: Tiers, op: TierOp, exclusive: bool)
    ensures var r := Applied(s, op, exclusive).stats;
      && r.decode == (if op.Route? && op.decode then Plus(s.stats.decode, Where(s, op.key)) else s.stats.decode)
      && r.prefill == (if op.Route? && !op.decode then Plus(s.stats.prefill, Where(s, op.key)) else s.stats.prefill)
  {
  }

  /** Each phase counts its own lookups, by where they find their key. */
  lemma {:induction false} TwoTierCounts(deviceSlots: nat, hostSlots: nat, ops: seq<TierOp>, exclusive: bool)
    ensures var s := NewTiers(deviceSlots, hostSlots);
      var r := ApplyAll(s, ops, exclusive).stats;
      r.decode == ServedOf(s, ops, exclusive, true) && r.prefill == ServedOf(s, ops, exclusive, false)
  {
    if ops != [] {
      var n, s := |ops| - 1, NewTiers(deviceSlots, hostSlots);
      TwoTierCounts(deviceSlots, hostSlots, ops[..n], exclusive);
      OneMoreServed(s, ops, exclusive, ApplyAll(s, ops[..n], exclusive), true);
      OneMoreServed(s, ops, exclusive, ApplyAll(s, ops[..n], exclusive), false);
      OpServes(ApplyAll(s, ops[..n], exclusive), ops[n], exclusive);
    }
  }

  lemma OneMoreServed(s: Tiers, ops: seq<TierOp>, exclusive: bool, now: Tiers, decode: bool)
    requires ops != [] && now == ApplyAll(s, ops[..|ops| - 1], exclusive)
    ensures var op, before := ops[|ops| - 1], ServedOf(s, ops[..|ops| - 1], exclusive, decode);
      ServedOf(s, ops, exclusive, decode)
        == if op.Route? && op.decode == decode then Plus(before, Where(now, op.key)) else before
  {
  }

  /** Advice brings the key into the host, from disk when it was not there; the device is left alone. */
  lemma SpeculateEffects(s: Tiers, k: Key, exclusive: bool) returns (a: seq<Key>, out: seq<Key>, b: seq<Key>)
    requires Sound(s.host)
    ensures var t, skipped := Applied(s, Speculate(k), exclusive), exclusive && k in s.device.order;
      && t.device == s.device
      && (if skipped then t.host == s.host else Takes(s.host, t.host, k, a, out, b))
      && t.stats == s.stats.(prefetchDisk :=
           s.stats.prefetchDisk + if !skipped && k !in s.host.order then 1 else 0)
  {
    a, out, b := InsertTakes(s.host, k);
  }

  /** A seed brings the key onto the device, counted as an upload and, when it was nowhere, as a disk read. */
  lemma SeedEffects(s: Tiers, k: Key, exclusive: bool) returns (a: seq<Key>, out: seq<Key>, b: seq<Key>)
    requires Sound(s.device)
    ensures var t, absent := Applied(s, SeedKey(k), exclusive), k !in s.device.order;
      && Takes(s.device, t.device, k, a, out, b)
      && t.stats == s.stats.(uploads := s.stats.uploads + (if absent && k in t.device.order then 1 else 0),
           uploadDisk := s.stats.uploadDisk + if Where(s, k) == OnDisk then 1 else 0)
  {
    a, out, b := InsertTakes(s.device, k);
  }

  /**
    A seed that was not on the device becomes the host's newest key, unless the tiers are
    exclusive and it is on the device now: then the host only gives up its place.
  */
  lemma SeedOnHost(s: Tiers, k: Key, exclusive: bool) returns (a: seq<Key>, out: seq<Key>, b: seq<Key>)
    requires Sound(s.host) && s.host.hot == {}
    ensures var t := Applied(s, SeedKey(k), exclusive);
      if k in s.device.order then t.host == s.host
      else if exclusive && k in t.device.order then
        && k !in t.host.order
        && (s.host.slots > 0 ==> Takes(s.host, t.host.(order := t.host.order + [k]), k, a, out, b))
      else Takes(s.host, t.host, k, a, out, b)
  {
    a, out, b := GivesUp(s.host, k);
    if k !in s.device.order {
      HostAfterSeed(s, k, exclusive);
    }
  }

  lemma HostAfterSeed(s: Tiers, k: Key, exclusive: bool)
    requires k !in s.device.order
    ensures var t, held := Applied(s, SeedKey(k), exclusive), Inserted(s.host, k);
      t.host == if exclusive && k in t.device.order then Removed(held, k) else held
  {
  }

  lemma GivesUp(t: Tier, k: Key) returns (a: seq<Key>, out: seq<Key>, b: seq<Key>)
    requires Sound(t) && t.hot == {}
    ensures Takes(t, Inserted(t, k), k, a, out, b)
    ensures var r := Removed(Inserted(t, k), k);
      k !in r.order && (t.slots > 0 ==> Takes(t, r.(order := r.order + [k]), k, a, out, b))
  {
    a, out, b := InsertTakes(t, k);
    InsertKeeps(t, k);
    var now := Inserted(t, k).order;
    WithoutFacts(now, k);
    if t.slots > 0 {
      assert |t.order| == t.slots ==> t.order[0] in Elements(t.order);
      WithoutSplits(now, |now| - 1);
      assert Without(now, k) + [k] == now;
    }
  }

  /** A prefill lookup renews the key where it finds it, and reads it into the host from disk. */
  lemma PrefillRouteEffects(s: Tiers, k: Key, exclusive: bool) returns (a: seq<Key>, out: seq<Key>, b: seq<Key>)
    requires Sound(s.device) && Sound(s.host)
    ensures var t := Applied(s, Route(k, false), exclusive);
      if k in s.device.order then t.host == s.host && Takes(s.device, t.device, k, a, out, b)
      else t.device == s.device && Takes(s.host, t.host, k, a, out, b)
  {
    a, out, b := InsertTakes(if k in s.device.order then s.device else s.host, k);
  }

  /**
    A decode lookup off the device is a prefill one and then a seed; a re-acquired key is advised
    and then seeded; a new hot set moves nothing.
  */
  lemma ComposedOps(s: Tiers, k: Key, keys: seq<Key>, exclusive: bool)
    ensures Applied(s, SetHot(keys), exclusive) == s.(device := s.device.(hot := Elements(keys)))
    ensures Applied(s, Reacquire(k), exclusive)
         == Applied(Applied(s, Speculate(k), exclusive), SeedKey(k), exclusive)
    ensures k in s.device.order ==>
      var t, u := Applied(s, Route(k, true), exclusive), Applied(s, Route(k, false), exclusive);
      t.device == u.device && t.host == u.host
    ensures k !in s.device.order ==>
      var ran := Applied(s, Route(k, false), exclusive);
      var t, u := Applied(s, Route(k, true), exclusive), Applied(ran, SeedKey(k), exclusive);
      && t.device == u.device && t.host == u.host && t.stats.uploads == u.stats.uploads
      && t.stats.uploadDisk == u.stats.uploadDisk && t.stats.prefetchDisk == u.stats.prefetchDisk
  {
  }

  // ---- Whole traces ----

  lemma {:induction false} VisitsAppend(a: seq<Op>, b: seq<Op>, decode: bool)
    ensures Visits(a + b, decode) == Visits(a, decode) + Visits(b, decode)
  {
    if b == [] {
      assert a + b == a;
    } else {
      assert (a + b)[..|a + b| - 1] == a + b[..|b| - 1];
      VisitsAppend(a, b[..|b| - 1], decode);
    }
  }

  lemma {:induction false} LookupVisits(keys: seq<Key>, phase: bool, inserts: bool, decode: bool)
    ensures Visits(LookupOps(keys, phase, inserts), decode) == if phase == decode then |keys| else 0
  {
    if keys != [] {
      var ops, n := LookupOps(keys, phase, inserts), |keys| - 1;
      assert ops[..n] == LookupOps(keys[..n], phase, inserts);
      LookupVisits(keys[..n], phase, inserts, decode);
    }
  }

  lemma {:induction false} NoVisits(ops: seq<Op>, decode: bool)
    requires forall i :: 0 <= i < |ops| ==> !ops[i].Lookup?
    ensures Visits(ops, decode) == 0
  {
    if ops != [] {
      NoVisits(ops[..|ops| - 1], decode);
    }
  }

  lemma DemandVisits(call: Call, prefillInserts: bool, decode: bool)
    ensures Visits(DemandOps(call, prefillInserts), decode)
         == if call.phase.Decode? == decode then |Flatten(Lookups(call))| else 0
  {
    var keys, seeds := Flatten(Lookups(call)), SeedOps(Flatten(PrefillSeed(call)));
    LookupVisits(keys, true, true, decode);
    LookupVisits(keys, false, true, decode);
    LookupVisits(keys, false, false, decode);
    NoVisits(seeds, decode);
    VisitsAppend(LookupOps(keys, false, false), seeds, decode);
  }

  /** The phase's lookups of the trace. */
  ghost function Lookedup(trace: seq<Call>, decode: bool): nat {
    if trace == [] then 0 else
      var n := |trace| - 1;
      Lookedup(trace[..n], decode)
        + if trace[n].phase.Decode? == decode then |Flatten(Lookups(trace[n]))| else 0
  }

  lemma CallVisits(call: Call, c: Counters, prefillInserts: bool, decode: bool)
    ensures Visits(CallOps(call, c, prefillInserts), decode) == Visits(DemandOps(call, prefillInserts), decode)
  {
    NoVisits(RefreshOps(call, c), decode);
    VisitsAppend(RefreshOps(call, c), DemandOps(call, prefillInserts), decode);
  }

  lemma {:induction false} TraceVisits(trace: seq<Call>, budget: nat, prefillInserts: bool, decode: bool)
    ensures Visits(TraceOps(trace, budget, prefillInserts), decode) == Lookedup(trace, decode)
  {
    if trace != [] {
      var n := |trace| - 1;
      var c := CountersAfter(trace[..n], budget);
      TraceVisits(trace[..n], budget, prefillInserts, decode);
      DemandVisits(trace[n], prefillInserts, decode);
      CallVisits(trace[n], c, prefillInserts, decode);
      VisitsAppend(TraceOps(trace[..n], budget, prefillInserts), CallOps(trace[n], c, prefillInserts), decode);
    }
  }

  lemma {:induction false} EventVisits(trace: seq<Call>, prefillInserts: bool, decode: bool)
    ensures Visits(Belady.Events(trace, prefillInserts), decode) == Lookedup(trace, decode)
  {
    if trace != [] {
      var n := |trace| - 1;
      EventVisits(trace[..n], prefillInserts, decode);
      DemandVisits(trace[n], prefillInserts, decode);
      VisitsAppend(Belady.Events(trace[..n], prefillInserts), DemandOps(trace[n], prefillInserts), decode);
    }
  }

  lemma {:induction false} TierVisitsAppend(a: seq<TierOp>, b: seq<TierOp>, decode: bool)
    ensures TierVisits(a + b, decode) == TierVisits(a, decode) + TierVisits(b, decode)
  {
    if b == [] {
      assert a + b == a;
    } else {
      assert (a + b)[..|a + b| - 1] == a + b[..|b| - 1];
      TierVisitsAppend(a, b[..|b| - 1], decode);
    }
  }

  lemma {:induction false} RouteVisits(keys: seq<Key>, phase: bool, decode: bool)
    ensures TierVisits(OpsOn(keys, k => Route(k, phase)), decode) == if phase == decode then |keys| else 0
  {
    if keys != [] {
      var ops, n := OpsOn(keys, k => Route(k, phase)), |keys| - 1;
      assert ops[..n] == OpsOn(keys[..n], k => Route(k, phase));
      RouteVisits(keys[..n], phase, decode);
    }
  }

  lemma {:induction false} NoTierVisits(ops: seq<TierOp>, decode: bool)
    requires forall i :: 0 <= i < |ops| ==> !ops[i].Route?
    ensures TierVisits(ops, decode) == 0
  {
    if ops != [] {
      NoTierVisits(ops[..|ops| - 1], decode);
    }
  }

  lemma CallTierVisits(call: Call, c: Counters, previous: seq<Key>, decode: bool)
    ensures TierVisits(TierCallOps(call, c, previous), decode)
         == if call.phase.Decode? == decode then |Flatten(Lookups(call))| else 0
  {
    var keys := Flatten(Lookups(call));
    match call.phase
    case Decode =>
      var before := RefreshTierOps(NextDecode(c)) + OpsOn(previous, k => Speculate(k));
      NoTierVisits(before, decode);
      RouteVisits(keys, true, decode);
      TierVisitsAppend(before, OpsOn(keys, k => Route(k, true)), decode);
    case Prefill =>
      var seeds := OpsOn(Flatten(PrefillSeed(call)), k => SeedKey(k));
      NoTierVisits(seeds, decode);
      RouteVisits(keys, false, decode);
      TierVisitsAppend(OpsOn(keys, k => Route(k, false)), seeds, decode);
  }

  lemma {:induction false} TraceTierVisits(trace: seq<Call>, budget: nat, decode: bool)
    ensures TierVisits(TierOps(trace, budget), decode) == Lookedup(trace, decode)
  {
    if trace != [] {
      var n := |trace| - 1;
      var c, previous := CountersAfter(trace[..n], budget), PreviousRouted(trace[..n]);
      TraceTierVisits(trace[..n], budget, decode);
      CallTierVisits(trace[n], c, previous, decode);
      TierVisitsAppend(TierOps(trace[..n], budget), TierCallOps(trace[n], c, previous), decode);
    }
  }

  lemma {:induction false} PhaseVisits(trace: seq<Call>, phase: Phase)
    ensures |StaticTop.PhaseKeys(trace, phase)| == Lookedup(trace, phase.Decode?)
  {
    if trace != [] {
      PhaseVisits(trace[..|trace| - 1], phase);
    }
  }

  /** Whatever the policy, the slots and the tiers, every replay of a trace counts the same lookups in each phase. */
  lemma EveryReplayCountsTheSame(trace: seq<Call>, slots: nat, policy: Policy, prefillInserts: bool,
                                 deviceSlots: nat, hostSlots: nat, budget: nat, exclusive: bool, fixed: set<Key>)
    ensures Belady.Keyed(Belady.Events(trace, prefillInserts))
    ensures var lru := Run(Start(slots), TraceOps(trace, HotBudget(policy, slots), prefillInserts)).counts;
      var ev := Belady.Events(trace, prefillInserts);
      var best := Belady.Optimal(ev, |ev|, slots).counts;
      var two := ApplyAll(NewTiers(deviceSlots, hostSlots), TierOps(trace, budget), exclusive).stats;
      var still := StaticTop.StaticCounts(trace, fixed);
      && lru.decodeVisits == best.decodeVisits == two.decode.visits == still.decodeVisits == Lookedup(trace, true)
      && lru.prefillVisits == best.prefillVisits == two.prefill.visits == still.prefillVisits
                           == Lookedup(trace, false)
  {
    PhaseVisits(trace, Decode);
    PhaseVisits(trace, Prefill);
    var ev, ops := Belady.Events(trace, prefillInserts), TraceOps(trace, HotBudget(policy, slots), prefillInserts);
    Belady.EventsKeyed(trace, prefillInserts);
    LruCounts(slots, ops);
    BeladyCounts(ev, |ev|, slots);
    assert ev[..|ev|] == ev;
    TwoTierCounts(deviceSlots, hostSlots, TierOps(trace, budget), exclusive);
    TraceVisits(trace, HotBudget(policy, slots), prefillInserts, true);
    TraceVisits(trace, HotBudget(policy, slots), prefillInserts, false);
    EventVisits(trace, prefillInserts, true);
    EventVisits(trace, prefillInserts, false);
    TraceTierVisits(trace, budget, true);
    TraceTierVisits(trace, budget, false);
  }

  // ---- When the hot set is refreshed ----

  /** The hot budget is the policy's share of the slots, rounded down; a zero denominator counts as one. */
  lemma HotBudgetIsShare(policy: Policy, slots: nat)
    ensures policy.PlainLru? ==> HotBudget(policy, slots) == 0
    ensures policy.LruHot? ==>
      var budget, d := HotBudget(policy, slots), if policy.denominator == 0 then 1 else policy.denominator;
      budget * d <= slots * policy.numerator < (budget + 1) * d
  {
    if policy.LruHot? {
      var d := if policy.denominator == 0 then 1 else policy.denominator;
      RoundedDown(slots * policy.numerator, d);
    }
  }

  lemma RoundedDown(a: nat, d: nat)
    requires d > 0
    ensures a / d * d <= a < (a / d + 1) * d
  {
    assert a == a / d * d + a % d;
  }

  /** A refresh precedes exactly every 64th decode call, when there is a budget. */
  lemma RefreshSchedule(trace: seq<Call>, i: nat, budget: nat)
    requires i < |trace|
    ensures RefreshOps(trace[i], CountersAfter(trace[..i], budget)) != [] <==>
      budget > 0 && trace[i].phase.Decode? && DecodeSteps(trace[..i + 1]) % 64 == 0
  {
    var before, upto := trace[..i], trace[..i + 1];
    CountersStep(before, budget);
    CountersBudget(before, budget);
    assert upto[..i] == before && upto[i] == trace[i];
    RefreshAt(trace[i], CountersAfter(before, budget), DecodeSteps(before), budget);
  }

  lemma RefreshAt(call: Call, c: Counters, step: nat, budget: nat)
    requires c.step == step && c.budget == budget
    ensures RefreshOps(call, c) != [] <==> budget > 0 && call.phase.Decode? && (step + 1) % 64 == 0
  {
  }

  lemma {:induction false} CountersStep(trace: seq<Call>, budget: nat)
    ensures CountersAfter(trace, budget).step == DecodeSteps(trace)
  {
    if trace != [] {
      var n := |trace| - 1;
      CountersStep(trace[..n], budget);
      var c := CallCounters(trace[n], CountersAfter(trace[..n], budget));
      ObserveAllCounts(c, Flatten(Recorded(trace[n])), Key(0, 0));
    }
  }

  /** What a decode call speculates on is the routing of the last decode call before it, if any. */
  lemma {:induction false} PreviousIsLastDecode(trace: seq<Call>, d: nat)
    requires d < |trace| && trace[d].phase.Decode? && forall i :: d < i < |trace| ==> trace[i].phase.Prefill?
    ensures PreviousRouted(trace) == Flatten(Lookups(trace[d]))
  {
    if d < |trace| - 1 {
      PreviousIsLastDecode(trace[..|trace| - 1], d);
    }
  }
}
