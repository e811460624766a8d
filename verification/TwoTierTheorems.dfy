/** Exclusivity and conservation of the two-tier replay, after every operation. */
module TwoTierTheorems {
  import opened Sequences
  import opened CacheTrace
  import opened LruTier
  import opened HotSets
  import opened LruReplay
  import opened TwoTier

  function DiskReads(r: Reads): nat {
    r.decode.disk + r.prefill.disk + r.uploadDisk + r.prefetchDisk
  }

  ghost predicate SplitExactly(v: Served) {
    v.visits == v.device + v.host + v.disk
  }

  /** The device: every upload is resident or was evicted. */
  ghost predicate DeviceBalanced(s: Tiers) {
    && Sound(s.device)
    && s.stats.uploads == s.device.inserts == s.device.evictions + |s.device.order|
  }

  /**
    The host: with a slot, every insert is one counted disk read and none is refused; each
    inserted key is resident, was evicted or, with exclusive tiers, went to the device.
  */
  ghost predicate HostBalanced(s: Tiers, exclusive: bool) {
    && Sound(s.host) && s.host.hot == {} && s.host.refused == 0
    && s.host.inserts == (if s.host.slots > 0 then DiskReads(s.stats) else 0)
    && s.host.inserts == s.host.evictions + |s.host.order|
                         + (if exclusive && s.host.slots > 0 then s.stats.uploads else 0)
  }

  ghost predicate Disjoint(s: Tiers) {
    Elements(s.device.order) !! Elements(s.host.order)
  }

  ghost predicate Conserved(s: Tiers, exclusive: bool) {
    && DeviceBalanced(s) && HostBalanced(s, exclusive)
    && SplitExactly(s.stats.decode) && SplitExactly(s.stats.prefill)
    && (exclusive ==> Disjoint(s))
  }

  /** Reading a key that is not resident into the host. */
  lemma HostInsert(t: Tier, k: Key)
    requires Sound(t) && t.hot == {} && k !in t.order
    ensures var r := Inserted(t, k);
      && Sound(r) && r.hot == {} && r.slots == t.slots && r.refused == t.refused
      && r.inserts == t.inserts + (if t.slots > 0 then 1 else 0)
      && r.inserts - t.inserts == r.evictions - t.evictions + |r.order| - |t.order|
      && Elements(r.order) <= Elements(t.order) + {k}
      && (t.slots > 0 ==> k in r.order)
  {
    InsertKeeps(t, k);
    assert FirstCold(t.order, {}) == 0;
  }

  lemma PrefetchConserves(s: Tiers, k: Key, exclusive: bool)
    requires Conserved(s, exclusive) && (exclusive ==> k !in s.device.order)
    ensures Conserved(Prefetched(s, k), exclusive)
    ensures s.host.slots > 0 ==> k in Prefetched(s, k).host.order
  {
    TouchKeeps(s.host, k);
    if k !in s.host.order {
      HostInsert(s.host, k);
    } else {
      assert k in Elements(Touched(s.host, k).order);
    }
  }

  /** The host half of an upload: the pages are in the host, or it has no slot. */
  lemma UploadReads(s: Tiers, k: Key, exclusive: bool)
    requires Conserved(s, exclusive) && k !in s.device.order
    ensures var read := if k in s.host.order then s.(host := Touched(s.host, k))
        else s.(host := Inserted(s.host, k), stats := s.stats.(uploadDisk := s.stats.uploadDisk + 1));
      Conserved(read, exclusive) && (s.host.slots > 0 ==> k in read.host.order)
  {
    TouchKeeps(s.host, k);
    if k !in s.host.order {
      HostInsert(s.host, k);
    } else {
      assert k in Elements(Touched(s.host, k).order);
    }
  }

  /** The device half. */
  lemma UploadPlaces(s: Tiers, k: Key, exclusive: bool)
    requires Conserved(s, exclusive) && k !in s.device.order && (s.host.slots > 0 ==> k in s.host.order)
    ensures var placed := s.(device := Inserted(s.device, k));
      Conserved(if k !in placed.device.order then placed else
        placed.(stats := placed.stats.(uploads := placed.stats.uploads + 1),
                host := if exclusive then Removed(placed.host, k) else placed.host), exclusive)
  {
    InsertKeeps(s.device, k);
    RemoveKeeps(s.host, k);
  }

  lemma UploadConserves(s: Tiers, k: Key, exclusive: bool)
    requires Conserved(s, exclusive)
    ensures Conserved(Uploaded(s, k, exclusive), exclusive)
  {
    if k in s.device.order {
      TouchKeeps(s.device, k);
    } else {
      UploadReads(s, k, exclusive);
      UploadPlaces(if k in s.host.order then s.(host := Touched(s.host, k))
        else s.(host := Inserted(s.host, k), stats := s.stats.(uploadDisk := s.stats.uploadDisk + 1)), k, exclusive);
    }
  }

  /** The host half of a lookup that missed the device. */
  function HostRun(s: Tiers, k: Key, decode: bool): Tiers {
    if k in s.host.order then s.(host := Touched(s.host, k), stats := CountServed(s.stats, decode, OnHost))
    else s.(host := Inserted(s.host, k), stats := CountServed(s.stats, decode, OnDisk))
  }

  lemma HostRunConserves(s: Tiers, k: Key, decode: bool, exclusive: bool)
    requires Conserved(s, exclusive) && k !in s.device.order
    ensures Conserved(HostRun(s, k, decode), exclusive)
    ensures s.host.slots > 0 ==> k in HostRun(s, k, decode).host.order
  {
    TouchKeeps(s.host, k);
    if k !in s.host.order {
      HostInsert(s.host, k);
    } else {
      assert k in Elements(Touched(s.host, k).order);
    }
  }

  lemma OpConserves(s: Tiers, op: TierOp, exclusive: bool)
    requires Conserved(s, exclusive)
    ensures Conserved(Applied(s, op, exclusive), exclusive)
  {
    match op
    case SetHot(_) =>
    case SeedKey(k) => UploadConserves(s, k, exclusive);
    case Speculate(k) => if !(exclusive && k in s.device.order) { PrefetchConserves(s, k, exclusive); }
    case Reacquire(k) =>
      if !(exclusive && k in s.device.order) { PrefetchConserves(s, k, exclusive); }
      UploadConserves(Advised(s, k, exclusive), k, exclusive);
    case Route(k, decode) =>
      if k in s.device.order {
        TouchKeeps(s.device, k);
      } else {
        HostRunConserves(s, k, decode, exclusive);
        UploadConserves(HostRun(s, k, decode), k, exclusive);
      }
  }

  /**
    After any operations: lookups split exactly into device, host and disk; uploads are device
    evictions plus device residents; with a host slot every host insert is one counted disk
    read; with exclusive tiers no key is in both.
  */
  lemma {:induction false} TiersConserve(deviceSlots: nat, hostSlots: nat, ops: seq<TierOp>, exclusive: bool)
    ensures Conserved(ApplyAll(NewTiers(deviceSlots, hostSlots), ops, exclusive), exclusive)
  {
    if ops != [] {
      TiersConserve(deviceSlots, hostSlots, ops[..|ops| - 1], exclusive);
      OpConserves(ApplyAll(NewTiers(deviceSlots, hostSlots), ops[..|ops| - 1], exclusive), ops[|ops| - 1], exclusive);
    }
  }

  // ---- Decode-only traces ----

  /** A decode upload's pages were just read or advised: with a host slot it never reads the disk itself. */
  lemma OpUploadDisk(s: Tiers, op: TierOp, exclusive: bool)
    requires Conserved(s, exclusive) && !op.SeedKey? && (op.Route? ==> op.decode)
    ensures UploadsFromHost(s, Applied(s, op, exclusive))
  {
    match op
    case SetHot(_) =>
    case Speculate(k) =>
    case Reacquire(k) => ReacquireDisk(s, k, exclusive);
    case Route(k, decode) => RouteDisk(s, k, exclusive);
  }

  /** With host slots no upload reads the disk; without, every decode read of the disk is such an upload. */
  ghost predicate UploadsFromHost(s: Tiers, r: Tiers) {
    && r.host.slots == s.host.slots
    && (s.host.slots > 0 ==> r.stats.uploadDisk == s.stats.uploadDisk)
    && (s.host.slots == 0 ==>
          r.stats.decode.disk - s.stats.decode.disk <= r.stats.uploadDisk - s.stats.uploadDisk)
  }

  lemma ReacquireDisk(s: Tiers, k: Key, exclusive: bool)
    requires Conserved(s, exclusive)
    ensures UploadsFromHost(s, Applied(s, Reacquire(k), exclusive))
  {
    if !(exclusive && k in s.device.order) { PrefetchConserves(s, k, exclusive); }
  }

  lemma RouteDisk(s: Tiers, k: Key, exclusive: bool)
    requires Conserved(s, exclusive)
    ensures UploadsFromHost(s, Applied(s, Route(k, true), exclusive))
  {
    if k !in s.device.order { HostRunConserves(s, k, true, exclusive); }
  }

  ghost predicate DecodeOps(ops: seq<TierOp>) {
    forall i :: 0 <= i < |ops| ==> !ops[i].SeedKey? && (ops[i].Route? ==> ops[i].decode)
  }

  lemma {:induction false} DecodeOnlyUploads(deviceSlots: nat, hostSlots: nat, ops: seq<TierOp>, exclusive: bool)
    requires DecodeOps(ops)
    ensures var s := ApplyAll(NewTiers(deviceSlots, hostSlots), ops, exclusive);
      && s.host.slots == hostSlots
      && (hostSlots > 0 ==> s.stats.uploadDisk == 0)
      && (hostSlots == 0 ==> s.stats.decode.disk <= s.stats.uploadDisk)
  {
    if ops != [] {
      var init := ops[..|ops| - 1];
      DecodeOnlyUploads(deviceSlots, hostSlots, init, exclusive);
      TiersConserve(deviceSlots, hostSlots, init, exclusive);
      OpUploadDisk(ApplyAll(NewTiers(deviceSlots, hostSlots), init, exclusive), ops[|ops| - 1], exclusive);
    }
  }

  lemma {:induction false} DecodeOnlyOps(trace: seq<Call>, budget: nat)
    requires forall i :: 0 <= i < |trace| ==> trace[i].phase == Decode
    ensures DecodeOps(TierOps(trace, budget))
  {
    if trace != [] {
      DecodeOnlyOps(trace[..|trace| - 1], budget);
      DecodeCallOps(trace[|trace| - 1], CountersAfter(trace[..|trace| - 1], budget),
                    PreviousRouted(trace[..|trace| - 1]));
    }
  }

  lemma DecodeCallOps(call: Call, c: Counters, previous: seq<Key>)
    requires call.phase == Decode
    ensures DecodeOps(TierCallOps(call, c, previous))
  {
    var refresh, keys := RefreshTierOps(NextDecode(c)), Flatten(Lookups(call));
    DecodeOn(Select(NextDecode(c)), k => Reacquire(k));
    DecodeAppend([SetHot(Select(NextDecode(c)))], OpsOn(Select(NextDecode(c)), k => Reacquire(k)));
    DecodeOn(previous, k => Speculate(k));
    DecodeAppend(refresh, OpsOn(previous, k => Speculate(k)));
    DecodeOn(keys, k => Route(k, true));
    DecodeAppend(refresh + OpsOn(previous, k => Speculate(k)), OpsOn(keys, k => Route(k, true)));
  }

  lemma DecodeOn(keys: seq<Key>, op: Key -> TierOp)
    requires forall k :: !op(k).SeedKey? && (op(k).Route? ==> op(k).decode)
    ensures DecodeOps(OpsOn(keys, op))
  {
  }

  lemma DecodeAppend(a: seq<TierOp>, b: seq<TierOp>)
    requires DecodeOps(a) && DecodeOps(b)
    ensures DecodeOps(a + b)
  {
  }

  /**
    On a decode-only trace with a host slot no upload reads the disk; without one every lookup
    served by the disk is read from it again by its upload.
  */
  lemma DecodeOnlyReads(trace: seq<Call>, deviceSlots: nat, hostSlots: nat, budget: nat, exclusive: bool)
    requires forall i :: 0 <= i < |trace| ==> trace[i].phase == Decode
    ensures var s := ApplyAll(NewTiers(deviceSlots, hostSlots), TierOps(trace, budget), exclusive);
      && (hostSlots > 0 ==> s.stats.uploadDisk == 0)
      && (hostSlots == 0 ==> s.stats.decode.disk <= s.stats.uploadDisk)
  {
    DecodeOnlyOps(trace, budget);
    DecodeOnlyUploads(deviceSlots, hostSlots, TierOps(trace, budget), exclusive);
  }
}
