/** What every LRU replay keeps, over every prefix of its operations. */
module LruTheorems {
  import opened Sequences
  import opened CacheTrace
  import opened LruTier
  import opened HotSets
  import opened LruReplay

  // ---- Conservation ----

  /** Every upload is still resident or was evicted once. */
  ghost predicate Balanced(t: Tier) {
    Sound(t) && t.inserts == t.evictions + |t.order|
  }

  lemma {:induction false} InsertAllBalanced(t: Tier, keys: seq<Key>)
    requires Balanced(t)
    ensures Balanced(InsertAll(t, keys))
  {
    if keys != [] {
      InsertAllBalanced(t, keys[..|keys| - 1]);
      InsertKeeps(InsertAll(t, keys[..|keys| - 1]), keys[|keys| - 1]);
    }
  }

  lemma StepBalanced(s: Replay, op: Op)
    requires Balanced(s.tier)
    ensures Balanced(Step(s, op).tier)
  {
    match op
    case Refresh(keys) => InsertAllBalanced(s.tier.(hot := Elements(keys)), keys);
    case Seed(key) => InsertKeeps(s.tier, key);
    case Lookup(key, _, _) => TouchKeeps(s.tier, key); InsertKeeps(s.tier, key);
  }

  /** After any operations the tier holds at most `slots` keys, and uploads = evictions + residents. */
  lemma {:induction false} RunBalanced(slots: nat, ops: seq<Op>)
    ensures Balanced(Run(Start(slots), ops).tier)
    ensures Run(Start(slots), ops).tier.slots == slots
  {
    SlotsFixed(Start(slots), ops);
    if ops != [] {
      RunBalanced(slots, ops[..|ops| - 1]);
      StepBalanced(Run(Start(slots), ops[..|ops| - 1]), ops[|ops| - 1]);
    }
  }

  // ---- The stack property of plain LRU ----

  /** `a` is `b` with some elements left out. */
  ghost predicate Sub(a: seq<Key>, b: seq<Key>) {
    || a == []
    || (b != [] && if a[0] == b[0] then Sub(a[1..], b[1..]) else Sub(a, b[1..]))
  }

  lemma {:induction false} SubElements(a: seq<Key>, b: seq<Key>)
    requires Sub(a, b)
    ensures |a| <= |b| && forall k :: k in a ==> k in b
    ensures |a| == |b| ==> a == b
  {
    if a != [] {
      SubElements(if a[0] == b[0] then a[1..] else a, b[1..]);
      assert a == [a[0]] + a[1..] && b == [b[0]] + b[1..];
    }
  }

  lemma {:induction false} SubTail(a: seq<Key>, b: seq<Key>)
    requires Sub(a, b) && a != []
    ensures Sub(a[1..], b)
    decreases |b|, 0
  {
    if a[0] == b[0] {
      SubWeaken(a[1..], b[1..], b[0]);
      assert [b[0]] + b[1..] == b;
    } else {
      SubTail(a, b[1..]);
      SubWeaken(a[1..], b[1..], b[0]);
      assert [b[0]] + b[1..] == b;
    }
  }

  lemma {:induction false} SubWeaken(a: seq<Key>, b: seq<Key>, k: Key)
    requires Sub(a, b)
    ensures Sub(a, [k] + b)
    decreases |b|, 1
  {
    var c := [k] + b;
    assert c[1..] == b;
    if a != [] && a[0] == k {
      SubTail(a, b);
    }
  }

  lemma {:induction false} SubAppend(a: seq<Key>, b: seq<Key>, k: Key)
    requires Sub(a, b)
    ensures Sub(a, b + [k]) && Sub(a + [k], b + [k])
  {
    if b == [] {
      assert a + [k] == [k] && b + [k] == [k];
      assert Sub([k][1..], [k][1..]);
    } else {
      assert (b + [k])[1..] == b[1..] + [k];
      if a != [] && a[0] == b[0] {
        SubAppend(a[1..], b[1..], k);
        assert (a + [k])[1..] == a[1..] + [k];
      } else if a != [] {
        SubAppend(a, b[1..], k);
      } else {
        SubAppend(a, b[1..], k);
        assert a + [k] == [k];
        if b[0] == k {
          assert (a + [k])[1..] == [];
        }
      }
    }
  }

  lemma {:induction false} SubWithout(a: seq<Key>, b: seq<Key>, k: Key)
    requires Sub(a, b) && NoDup(a) && NoDup(b)
    ensures Sub(Without(a, k), Without(b, k))
  {
    if a != [] {
      var a', b' := a[1..], b[1..];
      if a[0] == b[0] {
        SubWithout(a', b', k);
        if a[0] != k {
          assert ([a[0]] + Without(a', k))[1..] == Without(a', k);
          assert ([b[0]] + Without(b', k))[1..] == Without(b', k);
        }
      } else if b[0] == k {
        SubElements(a, b');
        assert k !in a;
        WithoutFacts(a, k);
      } else {
        SubWithout(a, b', k);
        SubWeaken(Without(a, k), Without(b', k), b[0]);
      }
    }
  }

  /** A full smaller tier sits inside the larger one in the same order; before it is full they agree. */
  ghost predicate Stacked(a: Tier, b: Tier) {
    && Sound(a) && Sound(b)
    && a.slots <= b.slots && a.hot == {} && b.hot == {}
    && Sub(a.order, b.order)
    && (|a.order| < a.slots ==> a.order == b.order)
  }

  lemma ColdFirst(order: seq<Key>)
    ensures FirstCold(order, {}) == 0
  {
  }

  lemma TouchStacked(a: Tier, b: Tier, k: Key)
    requires Stacked(a, b)
    ensures Stacked(Touched(a, k), Touched(b, k))
    ensures k in a.order ==> k in b.order
  {
    SubElements(a.order, b.order);
    TouchKeeps(a, k);
    TouchKeeps(b, k);
    SubWithout(a.order, b.order, k);
    WithoutFacts(a.order, k);
    SubAppend(Without(a.order, k), Without(b.order, k), k);
  }

  /** Inserting keeps the stack; the larger tier inserts only when the smaller one does. */
  lemma InsertStacked(a: Tier, b: Tier, k: Key)
    requires Stacked(a, b)
    ensures Stacked(Inserted(a, k), Inserted(b, k))
    ensures Inserted(a, k).refused == a.refused
    ensures a.slots > 0 ==> Inserted(b, k).inserts - b.inserts <= Inserted(a, k).inserts - a.inserts
  {
    InsertKeeps(a, k);
    InsertKeeps(b, k);
    SubElements(a.order, b.order);
    if k in a.order {
      TouchStacked(a, b, k);
    } else if a.slots == 0 {
      assert Inserted(a, k).order == [];
    } else if |a.order| < a.slots {
      SubAppend(a.order, b.order, k);
    } else {
      ColdFirst(a.order);
      ColdFirst(b.order);
      FullInsertStacked(a, b, k);
    }
  }

  lemma FullInsertStacked(a: Tier, b: Tier, k: Key)
    requires Stacked(a, b) && k !in a.order && |a.order| == a.slots > 0
    ensures Sub(Inserted(a, k).order, Inserted(b, k).order)
    ensures |Inserted(a, k).order| == a.slots
  {
    ColdFirst(a.order);
    ColdFirst(b.order);
    assert Inserted(a, k).order == a.order[1..] + [k];
    SubTail(a.order, b.order);
    if k in b.order {
      SubWithout(a.order[1..], b.order, k);
      WithoutFacts(a.order[1..], k);
      SubAppend(a.order[1..], Without(b.order, k), k);
    } else if |b.order| < b.slots {
      SubAppend(a.order[1..], b.order, k);
    } else {
      assert Inserted(b, k).order == b.order[1..] + [k];
      if a.order[0] != b.order[0] {
        SubTail(a.order, b.order[1..]);
      }
      SubAppend(a.order[1..], b.order[1..], k);
    }
  }

  /** The larger tier's counts: same visits, no fewer hits, and no more uploads when `a` has a slot. */
  ghost predicate Dominates(a: Replay, b: Replay) {
    && Stacked(a.tier, b.tier) && a.tier.refused == 0
    && a.counts.decodeVisits == b.counts.decodeVisits && a.counts.prefillVisits == b.counts.prefillVisits
    && a.counts.decodeHits <= b.counts.decodeHits && a.counts.prefillHits <= b.counts.prefillHits
    && (a.tier.slots > 0 ==> b.tier.inserts <= a.tier.inserts)
  }

  lemma StepDominates(a: Replay, b: Replay, op: Op)
    requires Dominates(a, b) && !op.Refresh?
    ensures Dominates(Step(a, op), Step(b, op))
  {
    var k := op.key;
    SubElements(a.tier.order, b.tier.order);
    TouchStacked(a.tier, b.tier, k);
    InsertStacked(a.tier, b.tier, k);
    if op.Lookup? && !op.inserts && k !in a.tier.order && k in b.tier.order {
      assert Touched(a.tier, k) == a.tier;
    }
    InsertKeeps(a.tier, k);
    InsertKeeps(b.tier, k);
  }

  /**
    The stack property: whatever the lookups and seeds, the residents of plain LRU with n slots
    are residents of plain LRU with m >= n slots after every operation; more slots never lose
    a hit and, from one slot up, never cost an upload.
  */
  lemma {:induction false} LruInclusion(n: nat, m: nat, ops: seq<Op>)
    requires n <= m && NoRefresh(ops)
    ensures Dominates(Run(Start(n), ops), Run(Start(m), ops))
    ensures Elements(Run(Start(n), ops).tier.order) <= Elements(Run(Start(m), ops).tier.order)
  {
    if ops != [] {
      var init := ops[..|ops| - 1];
      LruInclusion(n, m, init);
      StepDominates(Run(Start(n), init), Run(Start(m), init), ops[|ops| - 1]);
    }
    SubElements(Run(Start(n), ops).tier.order, Run(Start(m), ops).tier.order);
  }

  ghost predicate NoRefresh(ops: seq<Op>) {
    forall i :: 0 <= i < |ops| ==> !ops[i].Refresh?
  }

  lemma DemandHasNoRefresh(call: Call, prefillInserts: bool)
    ensures NoRefresh(DemandOps(call, prefillInserts))
  {
  }

  lemma CountersBudget(trace: seq<Call>, budget: nat)
    ensures CountersAfter(trace, budget).budget == budget
  {
    if trace != [] {
      var n := |trace| - 1;
      CountersBudget(trace[..n], budget);
      ObserveAllCounts(CallCounters(trace[n], CountersAfter(trace[..n], budget)), Flatten(Recorded(trace[n])),
                       Key(0, 0));
    }
  }

  lemma {:induction false} PlainHasNoRefresh(trace: seq<Call>, prefillInserts: bool)
    ensures NoRefresh(TraceOps(trace, 0, prefillInserts))
  {
    if trace != [] {
      var n := |trace| - 1;
      var before, c := TraceOps(trace[..n], 0, prefillInserts), CountersAfter(trace[..n], 0);
      PlainHasNoRefresh(trace[..n], prefillInserts);
      CountersBudget(trace[..n], 0);
      DemandHasNoRefresh(trace[n], prefillInserts);
      assert CallOps(trace[n], c, prefillInserts) == DemandOps(trace[n], prefillInserts);
    }
  }

  /** The same for the reports of two replays of one trace. */
  lemma LruMoreSlots(trace: seq<Call>, n: nat, m: nat, prefillInserts: bool)
    requires n <= m
    ensures var a := ReportOf(trace, Run(Start(n), TraceOps(trace, 0, prefillInserts)));
      var b := ReportOf(trace, Run(Start(m), TraceOps(trace, 0, prefillInserts)));
      && a.counts.decodeHits <= b.counts.decodeHits && a.counts.prefillHits <= b.counts.prefillHits
      && (n > 0 ==> b.uploads <= a.uploads) && a.refused == 0 == b.refused
  {
    PlainHasNoRefresh(trace, prefillInserts);
    LruInclusion(n, m, TraceOps(trace, 0, prefillInserts));
    LruInclusion(m, m, TraceOps(trace, 0, prefillInserts));
    SlotsFixed(Start(n), TraceOps(trace, 0, prefillInserts));
  }

  // ---- The hot-set guarantee ----

  /** Every refresh protects at most `budget` distinct keys. */
  ghost predicate WithinBudget(ops: seq<Op>, budget: nat) {
    forall i :: 0 <= i < |ops| && ops[i].Refresh? ==> NoDup(ops[i].keys) && |ops[i].keys| <= budget
  }

  /** Re-acquiring hot keys, no more of them than slots, makes each resident and refuses none. */
  lemma {:induction false} RefreshFills(t: Tier, keys: seq<Key>)
    requires Sound(t) && Elements(keys) <= t.hot && |t.hot| <= t.slots
    ensures var r := InsertAll(t, keys);
      && Sound(r) && r.hot == t.hot && r.slots == t.slots && r.refused == t.refused
      && Elements(keys) <= Elements(r.order)
  {
    if keys != [] {
      var k, init := keys[|keys| - 1], keys[..|keys| - 1];
      assert Elements(keys) == Elements(init) + {k};
      RefreshFills(t, init);
      RefreshNotRefused(InsertAll(t, init), k);
      InsertKeeps(InsertAll(t, init), k);
    }
  }

  /** A hot key finds a slot when the hot keys number at most the slots. */
  lemma RefreshNotRefused(t: Tier, k: Key)
    requires Sound(t) && k in t.hot && |t.hot| <= t.slots
    ensures Inserted(t, k).refused == t.refused
  {
    if Inserted(t, k).refused != t.refused {
      RefusedOnlyWhenAllHot(t, k);
      NoDupLength(t.order);
      SubsetLength(Elements(t.order), t.hot - {k});
      assert false;
    }
  }

  /** Every protected key is resident. */
  ghost predicate Protected(t: Tier, budget: nat) {
    && Sound(t) && t.hot <= Elements(t.order) && |t.hot| <= budget
    && (budget < t.slots ==> t.refused == 0)
  }

  lemma InsertProtected(t: Tier, k: Key, budget: nat)
    requires Protected(t, budget)
    ensures Protected(Inserted(t, k), budget)
  {
    InsertKeeps(t, k);
    if Inserted(t, k).refused != t.refused {
      RefusedOnlyWhenAllHot(t, k);
      NoDupLength(t.order);
      SubsetLength(Elements(t.order), t.hot);
    }
  }

  lemma StepProtected(s: Replay, op: Op, budget: nat)
    requires Protected(s.tier, budget) && budget <= s.tier.slots && WithinBudget([op], budget)
    ensures Protected(Step(s, op).tier, budget)
  {
    match op
    case Refresh(keys) =>
      assert [op][0] == op;
      NoDupLength(keys);
      RefreshFills(s.tier.(hot := Elements(keys)), keys);
    case Seed(key) => InsertProtected(s.tier, key, budget);
    case Lookup(key, _, _) => TouchKeeps(s.tier, key); InsertProtected(s.tier, key, budget);
  }

  /**
    With a budget of at most `slots`, after every operation all protected keys are resident: each
    refresh makes its keys resident and nothing evicts them before the next.  With a budget below
    `slots` no insert is refused in the whole run.
  */
  lemma {:induction false} HotSetStaysResident(slots: nat, ops: seq<Op>, budget: nat)
    requires budget <= slots && WithinBudget(ops, budget)
    ensures Protected(Run(Start(slots), ops).tier, budget)
  {
    SlotsFixed(Start(slots), ops);
    if ops != [] {
      var n := |ops| - 1;
      HotSetStaysResident(slots, ops[..n], budget);
      SlotsFixed(Start(slots), ops[..n]);
      assert WithinBudget([ops[n]], budget);
      StepProtected(Run(Start(slots), ops[..n]), ops[n], budget);
    }
  }

  lemma WithinAppend(a: seq<Op>, b: seq<Op>, budget: nat)
    requires WithinBudget(a, budget) && WithinBudget(b, budget)
    ensures WithinBudget(a + b, budget)
  {
  }

  /** A trace's refreshes protect the top of the counters, so they are within its budget. */
  lemma {:induction false} TraceWithinBudget(trace: seq<Call>, budget: nat, prefillInserts: bool)
    ensures WithinBudget(TraceOps(trace, budget, prefillInserts), budget)
  {
    if trace != [] {
      var n := |trace| - 1;
      var before, c := TraceOps(trace[..n], budget, prefillInserts), CountersAfter(trace[..n], budget);
      TraceWithinBudget(trace[..n], budget, prefillInserts);
      CountersBudget(trace[..n], budget);
      CallWithinBudget(trace[n], c, prefillInserts);
      WithinAppend(before, CallOps(trace[n], c, prefillInserts), budget);
    }
  }

  lemma CallWithinBudget(call: Call, c: Counters, prefillInserts: bool)
    ensures WithinBudget(CallOps(call, c, prefillInserts), c.budget)
  {
    SelectIsTop(NextDecode(c));
    DemandHasNoRefresh(call, prefillInserts);
    WithinAppend(RefreshOps(call, c), DemandOps(call, prefillInserts), c.budget);
  }

  /** The guarantee for every prefix of a trace's operations under `LruHot`. */
  lemma LruHotGuarantee(trace: seq<Call>, policy: Policy, slots: nat, prefillInserts: bool, n: nat)
    requires HotBudget(policy, slots) <= slots
    requires n <= |TraceOps(trace, HotBudget(policy, slots), prefillInserts)|
    ensures var ops := TraceOps(trace, HotBudget(policy, slots), prefillInserts)[..n];
      && Run(Start(slots), ops).tier.hot <= Elements(Run(Start(slots), ops).tier.order)
      && (HotBudget(policy, slots) < slots ==> Run(Start(slots), ops).tier.refused == 0)
  {
    var budget := HotBudget(policy, slots);
    TraceWithinBudget(trace, budget, prefillInserts);
    HotSetStaysResident(slots, TraceOps(trace, budget, prefillInserts)[..n], budget);
    SlotsFixed(Start(slots), TraceOps(trace, budget, prefillInserts)[..n]);
  }
}
