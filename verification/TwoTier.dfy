/**
  The two-tier replay (src/cache_sim.rs, `simulate_two_tier`): a device pool with a protected
  hot set, backed by a host page cache, backed by the disk.
*/
module TwoTier {
  import opened Sequences
  import opened CacheTrace
  import opened LruTier
  import opened HotSets
  import opened LruReplay

  /** How the lookups of one phase were served. */
  datatype Served = Served(visits: nat, device: nat, host: nat, disk: nat)

  datatype Reads = Reads(decode: Served, prefill: Served, uploads: nat, uploadDisk: nat, prefetchDisk: nat)

  datatype Tiers = Tiers(device: Tier, host: Tier, stats: Reads)

  datatype TierOp =
    | SetHot(keys: seq<Key>)
    | Reacquire(key: Key)    // a refreshed hot key: advise its host pages, then upload it
    | Speculate(key: Key)    // advise the previous step's routing
    | Route(key: Key, decode: bool)
    | SeedKey(key: Key)

  // ---- One operation, on values ----

  function Prefetched(s: Tiers, k: Key): Tiers {
    if k in s.host.order then s.(host := Touched(s.host, k))
    else s.(host := Inserted(s.host, k), stats := s.stats.(prefetchDisk := s.stats.prefetchDisk + 1))
  }

  /** The advice is skipped for a key on the device when the tiers are exclusive. */
  function Advised(s: Tiers, k: Key, exclusive: bool): Tiers {
    if exclusive && k in s.device.order then s else Prefetched(s, k)
  }

  function Uploaded(s: Tiers, k: Key, exclusive: bool): Tiers {
    if k in s.device.order then s.(device := Touched(s.device, k)) else
      var read := if k in s.host.order then s.(host := Touched(s.host, k))
                  else s.(host := Inserted(s.host, k), stats := s.stats.(uploadDisk := s.stats.uploadDisk + 1));
      var placed := read.(device := Inserted(read.device, k));
      if k !in placed.device.order then placed else
        placed.(stats := placed.stats.(uploads := placed.stats.uploads + 1),
                host := if exclusive then Removed(placed.host, k) else placed.host)
  }

  datatype Source = OnDevice | OnHost | OnDisk

  function CountServed(r: Reads, decode: bool, from: Source): Reads {
    var v := if decode then r.decode else r.prefill;
    var w := match from
      case OnDevice => v.(visits := v.visits + 1, device := v.device + 1)
      case OnHost => v.(visits := v.visits + 1, host := v.host + 1)
      case OnDisk => v.(visits := v.visits + 1, disk := v.disk + 1);
    if decode then r.(decode := w) else r.(prefill := w)
  }

  function Routed(s: Tiers, k: Key, decode: bool, exclusive: bool): Tiers {
    if k in s.device.order then
      s.(device := Touched(s.device, k), stats := CountServed(s.stats, decode, OnDevice))
    else
      var ran := if k in s.host.order then s.(host := Touched(s.host, k), stats := CountServed(s.stats, decode, OnHost))
                 else s.(host := Inserted(s.host, k), stats := CountServed(s.stats, decode, OnDisk));
      if decode then Uploaded(ran, k, exclusive) else ran
  }

  function Applied(s: Tiers, op: TierOp, exclusive: bool): Tiers {
    match op
    case SetHot(keys) => s.(device := s.device.(hot := set k | k in keys))
    case Reacquire(k) => Uploaded(Advised(s, k, exclusive), k, exclusive)
    case Speculate(k) => Advised(s, k, exclusive)
    case Route(k, decode) => Routed(s, k, decode, exclusive)
    case SeedKey(k) => Uploaded(s, k, exclusive)
  }

  function ApplyAll(s: Tiers, ops: seq<TierOp>, exclusive: bool): Tiers {
    if ops == [] then s else Applied(ApplyAll(s, ops[..|ops| - 1], exclusive), ops[|ops| - 1], exclusive)
  }

  function NewTiers(deviceSlots: nat, hostSlots: nat): Tiers {
    var none := Served(0, 0, 0, 0);
    Tiers(NewTier(deviceSlots), NewTier(hostSlots), Reads(none, none, 0, 0, 0))
  }

  // ---- From a trace to its operations ----

  /** The routing of the last decode call. */
  function PreviousRouted(trace: seq<Call>): seq<Key> {
    if trace == [] then []
    else if trace[|trace| - 1].phase.Decode? then Flatten(Lookups(trace[|trace| - 1]))
    else PreviousRouted(trace[..|trace| - 1])
  }

  function OpsOn(keys: seq<Key>, op: Key -> TierOp): (r: seq<TierOp>)
    ensures |r| == |keys|
  {
    seq(|keys|, i requires 0 <= i < |keys| => op(keys[i]))
  }

  ghost function RefreshTierOps(c: Counters): seq<TierOp> {
    if RefreshDue(c) then [SetHot(Select(c))] + OpsOn(Select(c), k => Reacquire(k)) else []
  }

  ghost function TierCallOps(call: Call, c: Counters, previous: seq<Key>): seq<TierOp> {
    var keys := Flatten(Lookups(call));
    match call.phase
    case Decode =>
      RefreshTierOps(NextDecode(c)) + OpsOn(previous, k => Speculate(k)) + OpsOn(keys, k => Route(k, true))
    case Prefill => OpsOn(keys, k => Route(k, false)) + OpsOn(Flatten(PrefillSeed(call)), k => SeedKey(k))
  }

  ghost function TierOps(trace: seq<Call>, budget: nat): seq<TierOp> {
    if trace == [] then [] else
      var n := |trace| - 1;
      TierOps(trace[..n], budget)
        + TierCallOps(trace[n], CountersAfter(trace[..n], budget), PreviousRouted(trace[..n]))
  }

  lemma {:induction false} ApplyAppend(s: Tiers, a: seq<TierOp>, b: seq<TierOp>, exclusive: bool)
    ensures ApplyAll(s, a + b, exclusive) == ApplyAll(ApplyAll(s, a, exclusive), b, exclusive)
  {
    if b == [] {
      assert a + b == a;
    } else {
      assert (a + b)[..|a + b| - 1] == a + b[..|b| - 1];
      ApplyAppend(s, a, b[..|b| - 1], exclusive);
    }
  }

  // ---- simulate_two_tier ----

  class Pools {
    const exclusive: bool
    const device: Lru
    const host: Lru
    var stats: Reads

    ghost predicate Valid()
      reads this, device, host
    {
      device != host && device.Valid() && host.Valid()
    }

    ghost function View(): Tiers
      reads this, device, host
    {
      Tiers(device.View(), host.View(), stats)
    }

    constructor (deviceSlots: nat, hostSlots: nat, exclusive: bool)
      ensures Valid() && fresh(device) && fresh(host)
      ensures View() == NewTiers(deviceSlots, hostSlots) && this.exclusive == exclusive
    {
      this.exclusive := exclusive;
      device := new Lru(deviceSlots);
      host := new Lru(hostSlots);
      var none := Served(0, 0, 0, 0);
      stats := Reads(none, none, 0, 0, 0);
    }

    method Prefetch(k: Key)
      requires Valid()
      modifies this, host
      ensures Valid() && View() == Prefetched(old(View()), k)
    {
      var hit := host.Touch(k);
      if !hit {
        stats := stats.(prefetchDisk := stats.prefetchDisk + 1);
        host.Insert(k);
      }
    }

    method Advise(k: Key)
      requires Valid()
      modifies this, host
      ensures Valid() && View() == Advised(old(View()), k, exclusive)
    {
      var resident := device.Contains(k);
      if !(exclusive && resident) {
        Prefetch(k);
      }
    }

    method Upload(k: Key)
      requires Valid()
      modifies this, device, host
      ensures Valid() && View() == Uploaded(old(View()), k, exclusive)
    {
      var resident := device.Contains(k);
      if resident {
        var _ := device.Touch(k);
        return;
      }
      var hit := host.Touch(k);
      if !hit {
        stats := stats.(uploadDisk := stats.uploadDisk + 1);
        host.Insert(k);
      }
      device.Insert(k);
      resident := device.Contains(k);
      if resident {
        stats := stats.(uploads := stats.uploads + 1);
        if exclusive {
          host.Remove(k);
        }
      }
    }

    method Lookup(k: Key, decode: bool)
      requires Valid()
      modifies this, device, host
      ensures Valid() && View() == Routed(old(View()), k, decode, exclusive)
    {
      var onDevice := device.Touch(k);
      if onDevice {
        stats := CountServed(stats, decode, OnDevice);
        return;
      }
      var hit := host.Touch(k);
      if hit {
        stats := CountServed(stats, decode, OnHost);
      } else {
        stats := CountServed(stats, decode, OnDisk);
        host.Insert(k);
      }
      if decode {
        Upload(k);
      }
    }

    method Perform(op: TierOp)
      requires Valid()
      modifies this, device, host
      ensures Valid() && View() == Applied(old(View()), op, exclusive)
    {
      match op
      case SetHot(keys) => device.SetHot(keys);
      case Reacquire(k) => Advise(k); Upload(k);
      case Speculate(k) => Advise(k);
      case Route(k, decode) => Lookup(k, decode);
      case SeedKey(k) => Upload(k);
    }

    method PerformAll(ops: seq<TierOp>)
      requires Valid()
      modifies this, device, host
      ensures Valid() && View() == ApplyAll(old(View()), ops, exclusive)
    {
      for i := 0 to |ops|
        invariant Valid() && View() == ApplyAll(old(View()), ops[..i], exclusive)
      {
        assert ops[..i + 1][..i] == ops[..i];
        Perform(ops[i]);
      }
      assert ops[..|ops|] == ops;
    }
  }

  /** One call: refresh and speculate before a decode's lookups, seed after a prefill's. */
  method ReplayTierCall(pools: Pools, hot: HotSet, call: Call, previous: seq<Key>)
    requires pools.Valid()
    modifies pools, pools.device, pools.host, hot
    ensures pools.Valid()
    ensures pools.View() == ApplyAll(old(pools.View()), TierCallOps(call, old(hot.View()), previous), pools.exclusive)
    ensures hot.View() == ObserveAll(CallCounters(call, old(hot.View())), Flatten(Recorded(call)))
  {
    ghost var s, c := pools.View(), hot.View();
    var keys := Flatten(Lookups(call));
    if call.phase == Decode {
      var due := hot.BeginDecode();
      ghost var refresh := RefreshTierOps(NextDecode(c));
      if due {
        var chosen := hot.Choose();
        pools.PerformAll([SetHot(chosen)] + OpsOn(chosen, k => Reacquire(k)));
      }
      assert pools.View() == ApplyAll(s, refresh, pools.exclusive);
      pools.PerformAll(OpsOn(previous, k => Speculate(k)));
      ApplyAppend(s, refresh, OpsOn(previous, k => Speculate(k)), pools.exclusive);
      pools.PerformAll(OpsOn(keys, k => Route(k, true)));
      ApplyAppend(s, refresh + OpsOn(previous, k => Speculate(k)), OpsOn(keys, k => Route(k, true)), pools.exclusive);
    } else {
      pools.PerformAll(OpsOn(keys, k => Route(k, false)));
      pools.PerformAll(OpsOn(Flatten(PrefillSeed(call)), k => SeedKey(k)));
      ApplyAppend(s, OpsOn(keys, k => Route(k, false)), OpsOn(Flatten(PrefillSeed(call)), k => SeedKey(k)),
                  pools.exclusive);
    }
    hot.Record(Flatten(Recorded(call)));
  }

  datatype TwoTierReport = TwoTierReport(decodeSteps: nat, stats: Reads, deviceEvictions: nat)

  method SimulateTwoTier(trace: seq<Call>, deviceSlots: nat, hostSlots: nat, share: (nat, nat), exclusive: bool)
    returns (rep: TwoTierReport)
    ensures var s := ApplyAll(NewTiers(deviceSlots, hostSlots),
                              TierOps(trace, HotBudget(LruHot(share.0, share.1), deviceSlots)), exclusive);
      rep == TwoTierReport(DecodeSteps(trace), s.stats, s.device.evictions)
  {
    var pools := new Pools(deviceSlots, hostSlots, exclusive);
    var budget := HotBudget(LruHot(share.0, share.1), deviceSlots);
    var hot := new HotSet(budget);
    var steps, previous := 0, [];
    ghost var start := pools.View();
    for i := 0 to |trace|
      invariant pools.Valid() && hot.View() == CountersAfter(trace[..i], budget)
      invariant steps == DecodeSteps(trace[..i]) && previous == PreviousRouted(trace[..i])
      invariant pools.View() == ApplyAll(start, TierOps(trace[..i], budget), exclusive)
    {
      TierOneMoreCall(trace, i, budget, start, exclusive);
      ReplayTierCall(pools, hot, trace[i], previous);
      steps, previous := steps + (if trace[i].phase == Decode then 1 else 0),
        if trace[i].phase == Decode then Flatten(Lookups(trace[i])) else previous;
    }
    assert trace[..|trace|] == trace;
    rep := TwoTierReport(steps, pools.stats, pools.device.evictions);
  }

  lemma TierOneMoreCall(trace: seq<Call>, i: nat, budget: nat, start: Tiers, exclusive: bool)
    requires i < |trace|
    ensures DecodeSteps(trace[..i + 1]) == DecodeSteps(trace[..i]) + if trace[i].phase.Decode? then 1 else 0
    ensures PreviousRouted(trace[..i + 1])
         == if trace[i].phase.Decode? then Flatten(Lookups(trace[i])) else PreviousRouted(trace[..i])
    ensures CountersAfter(trace[..i + 1], budget)
         == ObserveAll(CallCounters(trace[i], CountersAfter(trace[..i], budget)), Flatten(Recorded(trace[i])))
    ensures ApplyAll(start, TierOps(trace[..i + 1], budget), exclusive)
         == ApplyAll(ApplyAll(start, TierOps(trace[..i], budget), exclusive),
                     TierCallOps(trace[i], CountersAfter(trace[..i], budget), PreviousRouted(trace[..i])), exclusive)
  {
    assert trace[..i + 1][..i] == trace[..i];
    ApplyAppend(start, TierOps(trace[..i], budget),
                TierCallOps(trace[i], CountersAfter(trace[..i], budget), PreviousRouted(trace[..i])), exclusive);
  }
}
