/**
  Belady's offline replay (src/cache_sim.rs, `simulate_belady`): on a miss evict the resident
  whose next visit is farthest away.  It gets at least as many hits as any demand schedule.
*/
module Belady {
  import opened CacheTrace
  import opened LruReplay

  /** The flattened sequence: every call's lookups, then its seeds. */
  function Events(trace: seq<Call>, prefillInserts: bool): seq<Op> {
    if trace == [] then [] else
      Events(trace[..|trace| - 1], prefillInserts) + DemandOps(trace[|trace| - 1], prefillInserts)
  }

  predicate VisitOf(op: Op, k: Key) {
    op.Lookup? && op.key == k
  }

  /** The first position from `i` on that looks `k` up, or the length when there is none. */
  function NextVisit(ev: seq<Op>, i: nat, k: Key): (j: nat)
    requires i <= |ev|
    ensures i <= j <= |ev|
    decreases |ev| - i
  {
    if i == |ev| || VisitOf(ev[i], k) then i else NextVisit(ev, i + 1, k)
  }

  lemma {:induction false} NextVisitIsFirst(ev: seq<Op>, i: nat, k: Key)
    requires i <= |ev|
    ensures var j := NextVisit(ev, i, k);
      (j < |ev| ==> VisitOf(ev[j], k)) && forall x :: i <= x < j ==> !VisitOf(ev[x], k)
    decreases |ev| - i
  {
    if i < |ev| && !VisitOf(ev[i], k) {
      NextVisitIsFirst(ev, i + 1, k);
    }
  }

  predicate Keyed(ev: seq<Op>) {
    forall i :: 0 <= i < |ev| ==> !ev[i].Refresh?
  }

  /** Ordered by next visit and then key, as the source's ordered set is. */
  predicate Before(a: (nat, Key), b: (nat, Key)) {
    a.0 < b.0 || (a.0 == b.0 && KeyLess(a.1, b.1))
  }

  predicate IsLast(pairs: set<(nat, Key)>, p: (nat, Key)) {
    p in pairs && forall q :: q in pairs && q != p ==> Before(q, p)
  }

  lemma BeforeOrder(a: (nat, Key), b: (nat, Key), c: (nat, Key))
    ensures b == c || Before(b, c) || Before(c, b)
    ensures Before(a, b) && Before(b, c) ==> Before(a, c)
    ensures !(Before(a, b) && Before(b, a))
  {
  }

  lemma {:induction false} HasLast(pairs: set<(nat, Key)>)
    requires pairs != {}
    ensures exists p :: IsLast(pairs, p)
    decreases |pairs|
  {
    var p :| p in pairs;
    if pairs == {p} {
      assert IsLast(pairs, p);
    } else {
      HasLast(pairs - {p});
      var q :| IsLast(pairs - {p}, q);
      var last := if Before(p, q) then q else p;
      forall x | x in pairs && x != last ensures Before(x, last) {
        if x != p {
          BeforeOrder(x, q, p);
        }
      }
      assert IsLast(pairs, last);
    }
  }

  /** The residents paired with their next visits from `i` on. */
  ghost function ByNext(ev: seq<Op>, i: nat, resident: set<Key>): set<(nat, Key)>
    requires i <= |ev|
  {
    set k | k in resident :: (NextVisit(ev, i, k), k)
  }

  /** The resident visited last, counting from `i` on. */
  ghost function Farthest(ev: seq<Op>, i: nat, resident: set<Key>): (v: Key)
    requires i <= |ev| && resident != {}
    ensures v in resident
    ensures IsLast(ByNext(ev, i, resident), (NextVisit(ev, i, v), v))
    ensures forall k :: k in resident ==> NextVisit(ev, i, k) <= NextVisit(ev, i, v)
  {
    var k :| k in resident;
    assert (NextVisit(ev, i, k), k) in ByNext(ev, i, resident);
    HasLast(ByNext(ev, i, resident));
    var p :| IsLast(ByNext(ev, i, resident), p);
    assert forall k :: k in resident ==> (NextVisit(ev, i, k), k) in ByNext(ev, i, resident);
    p.1
  }

  datatype Cache = Cache(resident: set<Key>, counts: Counts, uploads: nat, evictions: nat)

  function Hits(c: Counts): nat {
    c.decodeHits + c.prefillHits
  }

  ghost function Count(op: Op, counts: Counts, hit: bool): Counts {
    if op.Lookup? then CountLookup(counts, op.decode, hit) else counts
  }

  /** One event: a miss that inserts is skipped when the key is never visited again. */
  ghost function OptimalStep(ev: seq<Op>, i: nat, slots: nat, s: Cache): Cache
    requires Keyed(ev) && i < |ev|
  {
    var k := ev[i].key;
    var counted := s.(counts := Count(ev[i], s.counts, k in s.resident));
    if k in s.resident || (ev[i].Lookup? && !ev[i].inserts) || slots == 0 || NextVisit(ev, i + 1, k) == |ev| then
      counted
    else if |s.resident| < slots then counted.(resident := s.resident + {k}, uploads := s.uploads + 1)
    else counted.(resident := s.resident - {Farthest(ev, i, s.resident)} + {k},
                  uploads := s.uploads + 1, evictions := s.evictions + 1)
  }

  ghost function Optimal(ev: seq<Op>, n: nat, slots: nat): Cache
    requires Keyed(ev) && n <= |ev|
  {
    if n == 0 then Cache({}, Counts(0, 0, 0, 0), 0, 0) else OptimalStep(ev, n - 1, slots, Optimal(ev, n - 1, slots))
  }

  // ---- simulate_belady ----

  /** `lastSeen` is each key's next visit from `i` on. */
  ghost predicate Seen(ev: seq<Op>, i: nat, lastSeen: map<Key, nat>)
    requires i <= |ev|
  {
    forall k :: NextVisit(ev, i, k) == if k in lastSeen then lastSeen[k] else |ev|
  }

  lemma SeenBack(ev: seq<Op>, i: nat, lastSeen: map<Key, nat>)
    requires Keyed(ev) && i < |ev| && Seen(ev, i + 1, lastSeen)
    ensures Seen(ev, i, if ev[i].Lookup? then lastSeen[ev[i].key := i] else lastSeen)
  {
  }

  /** The next visit of each event's key after the event. */
  method NextUses(ev: seq<Op>) returns (next: seq<nat>)
    requires Keyed(ev)
    ensures |next| == |ev|
    ensures forall i {:trigger next[i]} :: 0 <= i < |ev| ==> next[i] == NextVisit(ev, i + 1, ev[i].key)
  {
    var uses := new nat[|ev|](i => |ev|);
    var lastSeen: map<Key, nat> := map[];
    var i := |ev|;
    while i > 0
      invariant 0 <= i <= |ev| && Seen(ev, i, lastSeen)
      invariant forall x :: 0 <= x < i ==> uses[x] == |ev|
      invariant forall x {:trigger uses[x]} :: i <= x < |ev| ==> uses[x] == NextVisit(ev, x + 1, ev[x].key)
    {
      i := i - 1;
      assert NextVisit(ev, i + 1, ev[i].key) == if ev[i].key in lastSeen then lastSeen[ev[i].key] else |ev|;
      SeenBack(ev, i, lastSeen);
      if ev[i].key in lastSeen {
        uses[i] := lastSeen[ev[i].key];
      }
      if ev[i].Lookup? {
        lastSeen := lastSeen[ev[i].key := i];
      }
    }
    next := uses[..];
  }

  /** The stored next visits are the true ones, and the ordered set mirrors them. */
  ghost predicate Tracks(ev: seq<Op>, i: nat, resident: map<Key, nat>, byNext: set<(nat, Key)>)
    requires i <= |ev|
  {
    && (forall k :: k in resident ==> resident[k] == NextVisit(ev, i, k))
    && byNext == ByNext(ev, i, resident.Keys)
  }

  lemma NextVisitStays(ev: seq<Op>, i: nat, k: Key)
    requires i < |ev| && !VisitOf(ev[i], k)
    ensures NextVisit(ev, i, k) == NextVisit(ev, i + 1, k)
  {
  }

  /** Forgetting a key. */
  lemma TracksWithout(ev: seq<Op>, i: nat, resident: map<Key, nat>, byNext: set<(nat, Key)>, k: Key)
    requires i <= |ev| && Tracks(ev, i, resident, byNext) && k in resident
    ensures Tracks(ev, i, resident - {k}, byNext - {(resident[k], k)})
  {
  }

  /** Past event `i`, a residency that lacks its key still tracks; adding the key's next visit tracks too. */
  lemma TracksNext(ev: seq<Op>, i: nat, resident: map<Key, nat>, byNext: set<(nat, Key)>)
    requires Keyed(ev) && i < |ev| && Tracks(ev, i, resident, byNext) && ev[i].key !in resident
    ensures Tracks(ev, i + 1, resident, byNext)
    ensures var k, n := ev[i].key, NextVisit(ev, i + 1, ev[i].key);
      Tracks(ev, i + 1, resident[k := n], byNext + {(n, k)})
  {
    forall k | k in resident ensures NextVisit(ev, i, k) == NextVisit(ev, i + 1, k) {
      NextVisitStays(ev, i, k);
    }
    var k, n := ev[i].key, NextVisit(ev, i + 1, ev[i].key);
    assert ByNext(ev, i + 1, resident[k := n].Keys) == byNext + {(n, k)};
  }

  lemma LastIsFarthest(ev: seq<Op>, i: nat, resident: map<Key, nat>, byNext: set<(nat, Key)>, p: (nat, Key))
    requires i <= |ev| && Tracks(ev, i, resident, byNext) && IsLast(byNext, p)
    ensures p.1 in resident && p == (resident[p.1], p.1) && p.1 == Farthest(ev, i, resident.Keys)
  {
    var v := Farthest(ev, i, resident.Keys);
    BeforeOrder(p, (NextVisit(ev, i, v), v), p);
  }

  method SimulateBelady(trace: seq<Call>, slots: nat, prefillInserts: bool) returns (rep: Report)
    ensures Keyed(Events(trace, prefillInserts))
    ensures var ev := Events(trace, prefillInserts);
      var s := Optimal(ev, |ev|, slots);
      rep == Report(slots, DecodeSteps(trace), s.counts, s.uploads, s.evictions, 0)
  {
    EventsKeyed(trace, prefillInserts);
    var ev, steps := [], 0;
    for i := 0 to |trace|
      invariant ev == Events(trace[..i], prefillInserts) && steps == DecodeSteps(trace[..i])
    {
      assert trace[..i + 1][..i] == trace[..i];
      steps := steps + if trace[i].phase.Decode? then 1 else 0;
      ev := ev + DemandOps(trace[i], prefillInserts);
    }
    assert trace[..|trace|] == trace;
    var counts, uploads, evictions := ReplayEvents(ev, slots);
    rep := Report(slots, steps, counts, uploads, evictions, 0);
  }

  method ReplayEvents(ev: seq<Op>, slots: nat) returns (counts: Counts, uploads: nat, evictions: nat)
    requires Keyed(ev)
    ensures var s := Optimal(ev, |ev|, slots); s.counts == counts && s.uploads == uploads && s.evictions == evictions
  {
    var next := NextUses(ev);
    var resident: map<Key, nat>, byNext: set<(nat, Key)> := map[], {};
    counts, uploads, evictions := Counts(0, 0, 0, 0), 0, 0;
    for i := 0 to |ev|
      invariant Tracks(ev, i, resident, byNext)
      invariant Optimal(ev, i, slots) == Cache(resident.Keys, counts, uploads, evictions)
    {
      resident, byNext, counts, uploads, evictions :=
        Replayed(ev, i, slots, resident, byNext, counts, uploads, evictions, next[i]);
    }
  }

  /** One event of the replay: the count, then the residency. */
  method Replayed(ev: seq<Op>, i: nat, slots: nat, resident: map<Key, nat>, byNext: set<(nat, Key)>,
                  counts: Counts, uploads: nat, evictions: nat, next: nat)
    returns (r: map<Key, nat>, b: set<(nat, Key)>, c: Counts, u: nat, e: nat)
    requires Keyed(ev) && i < |ev| && Tracks(ev, i, resident, byNext) && next == NextVisit(ev, i + 1, ev[i].key)
    requires Optimal(ev, i, slots) == Cache(resident.Keys, counts, uploads, evictions)
    ensures Tracks(ev, i + 1, r, b) && Optimal(ev, i + 1, slots) == Cache(r.Keys, c, u, e)
  {
    var uploaded, evicted;
    r, b, uploaded, evicted := OneEvent(ev, i, slots, resident, byNext, next);
    OptimalNext(ev, i, slots, Cache(resident.Keys, counts, uploads, evictions), r.Keys, uploaded, evicted);
    c := if ev[i].Lookup? then CountLookup(counts, ev[i].decode, ev[i].key in resident) else counts;
    u := uploads + if uploaded then 1 else 0;
    e := evictions + if evicted then 1 else 0;
  }

  /** From any cache with these residents, the event leads to those, and uploads and evicts as said. */
  ghost predicate Steps(ev: seq<Op>, i: nat, slots: nat, was: set<Key>, now: set<Key>, uploaded: bool, evicted: bool)
    requires Keyed(ev) && i < |ev|
  {
    forall s: Cache {:trigger OptimalStep(ev, i, slots, s)} :: s.resident == was ==>
      OptimalStep(ev, i, slots, s) == Cache(now, Count(ev[i], s.counts, ev[i].key in was),
        s.uploads + (if uploaded then 1 else 0), s.evictions + if evicted then 1 else 0)
  }

  lemma OptimalNext(ev: seq<Op>, i: nat, slots: nat, s: Cache, now: set<Key>, uploaded: bool, evicted: bool)
    requires Keyed(ev) && i < |ev| && s == Optimal(ev, i, slots)
    requires Steps(ev, i, slots, s.resident, now, uploaded, evicted)
    ensures Optimal(ev, i + 1, slots) == Cache(now, Count(ev[i], s.counts, ev[i].key in s.resident),
              s.uploads + (if uploaded then 1 else 0), s.evictions + if evicted then 1 else 0)
  {
    assert Optimal(ev, i + 1, slots) == OptimalStep(ev, i, slots, s);
  }

  /** What one event does to the residency. */
  method OneEvent(ev: seq<Op>, i: nat, slots: nat, resident: map<Key, nat>, byNext: set<(nat, Key)>, next: nat)
    returns (r: map<Key, nat>, b: set<(nat, Key)>, uploaded: bool, evicted: bool)
    requires Keyed(ev) && i < |ev| && Tracks(ev, i, resident, byNext)
    requires next == NextVisit(ev, i + 1, ev[i].key)
    ensures Tracks(ev, i + 1, r, b)
    ensures Steps(ev, i, slots, resident.Keys, r.Keys, uploaded, evicted)
  {
    uploaded, evicted := false, false;
    if ev[i].key in resident {
      r, b := Moved(ev, i, resident, byNext, next);
    } else if (ev[i].Seed? || ev[i].inserts) && slots > 0 && next != |ev| {
      r, b := resident, byNext;
      if |resident| >= slots {
        r, b := EvictFarthest(ev, i, resident, byNext);
        evicted := true;
      }
      r, b := Added(ev, i, r, b, next);
      uploaded := true;
    } else {
      TracksNext(ev, i, resident, byNext);
      r, b := resident, byNext;
    }
  }

  method Added(ev: seq<Op>, i: nat, resident: map<Key, nat>, byNext: set<(nat, Key)>, next: nat)
    returns (r: map<Key, nat>, b: set<(nat, Key)>)
    requires Keyed(ev) && i < |ev| && Tracks(ev, i, resident, byNext) && ev[i].key !in resident
    requires next == NextVisit(ev, i + 1, ev[i].key)
    ensures Tracks(ev, i + 1, r, b) && r.Keys == resident.Keys + {ev[i].key}
  {
    TracksNext(ev, i, resident, byNext);
    r := resident[ev[i].key := next];
    b := byNext + {(next, ev[i].key)};
  }

  /** A hit stores the key's next visit. */
  method Moved(ev: seq<Op>, i: nat, resident: map<Key, nat>, byNext: set<(nat, Key)>, next: nat)
    returns (r: map<Key, nat>, b: set<(nat, Key)>)
    requires Keyed(ev) && i < |ev| && Tracks(ev, i, resident, byNext) && ev[i].key in resident
    requires next == NextVisit(ev, i + 1, ev[i].key)
    ensures Tracks(ev, i + 1, r, b) && r.Keys == resident.Keys
  {
    var key := ev[i].key;
    TracksWithout(ev, i, resident, byNext, key);
    TracksNext(ev, i, resident - {key}, byNext - {(resident[key], key)});
    b := byNext - {(resident[key], key)} + {(next, key)};
    r := resident[key := next];
    assert r == (resident - {key})[key := next];
  }

  method EvictFarthest(ev: seq<Op>, i: nat, resident: map<Key, nat>, byNext: set<(nat, Key)>)
    returns (r: map<Key, nat>, b: set<(nat, Key)>)
    requires i <= |ev| && Tracks(ev, i, resident, byNext) && |resident| > 0
    ensures Tracks(ev, i, r, b) && r.Keys == resident.Keys - {Farthest(ev, i, resident.Keys)}
  {
    assert resident.Keys != {};
    ghost var k :| k in resident;
    assert (NextVisit(ev, i, k), k) in byNext;
    HasLast(byNext);
    var victim :| victim in byNext && IsLast(byNext, victim);
    LastIsFarthest(ev, i, resident, byNext, victim);
    TracksWithout(ev, i, resident, byNext, victim.1);
    b := byNext - {victim};
    r := resident - {victim.1};
  }

  lemma {:induction false} EventsKeyed(trace: seq<Call>, prefillInserts: bool)
    ensures Keyed(Events(trace, prefillInserts))
  {
    if trace != [] {
      EventsKeyed(trace[..|trace| - 1], prefillInserts);
    }
  }

  // ---- What each event does, over the events alone ----

  /** The key is looked up again at or after event `i`. */
  ghost predicate VisitedFrom(ev: seq<Op>, i: nat, k: Key) {
    exists j :: i <= j < |ev| && VisitOf(ev[j], k)
  }

  /** Counting from event `i`, `v` is looked up no sooner than `x`. */
  ghost predicate NoSooner(ev: seq<Op>, i: nat, v: Key, x: Key) {
    forall j :: i <= j < |ev| && VisitOf(ev[j], v) ==> exists n :: i <= n <= j && VisitOf(ev[n], x)
  }

  lemma VisitedIffNext(ev: seq<Op>, i: nat, k: Key)
    requires i <= |ev|
    ensures VisitedFrom(ev, i, k) <==> NextVisit(ev, i, k) < |ev|
  {
    NextVisitIsFirst(ev, i, k);
  }

  lemma FarthestIsNoSooner(ev: seq<Op>, i: nat, resident: set<Key>, x: Key)
    requires i <= |ev| && x in resident
    ensures NoSooner(ev, i, Farthest(ev, i, resident), x)
  {
    var v := Farthest(ev, i, resident);
    NextVisitIsFirst(ev, i, v);
    NextVisitIsFirst(ev, i, x);
  }

  /** The residents after an event. */
  ghost predicate Moves(ev: seq<Op>, i: nat, slots: nat, was: set<Key>, now: set<Key>)
    requires Keyed(ev) && i < |ev|
  {
    var k := ev[i].key;
    var brings := (ev[i].Seed? || ev[i].inserts) && slots > 0 && VisitedFrom(ev, i + 1, k);
    && (k in was || !brings ==> now == was)
    && (brings ==> k in now)
    && now <= was + {k} && |now| <= slots
    && (was - now != {} ==> |was| == slots && |was - now| == 1)
    && forall v, x :: v in was - now && x in was ==> NoSooner(ev, i, v, x)
  }

  /**
    A seed or inserting lookup whose key is looked up again makes the key resident; any other
    event, and a hit, leaves the residents alone.  A key leaves only when the slots are full, and
    then one whose next lookup is no sooner than any other resident's.
  */
  lemma {:induction false} EventEffects(ev: seq<Op>, i: nat, slots: nat)
    requires Keyed(ev) && i < |ev|
    ensures var s, t := Optimal(ev, i, slots), Optimal(ev, i + 1, slots);
      && |s.resident| <= slots && Moves(ev, i, slots, s.resident, t.resident)
      && t.uploads == s.uploads + |t.resident - s.resident|
      && t.evictions == s.evictions + |s.resident - t.resident|
  {
    if i > 0 {
      EventEffects(ev, i - 1, slots);
    }
    StepEffects(ev, i, slots, Optimal(ev, i, slots));
  }

  lemma StepEffects(ev: seq<Op>, i: nat, slots: nat, s: Cache)
    requires Keyed(ev) && i < |ev| && |s.resident| <= slots
    ensures var t := OptimalStep(ev, i, slots, s);
      && Moves(ev, i, slots, s.resident, t.resident)
      && t.uploads == s.uploads + |t.resident - s.resident|
      && t.evictions == s.evictions + |s.resident - t.resident|
  {
    var k, t := ev[i].key, OptimalStep(ev, i, slots, s);
    VisitedIffNext(ev, i + 1, k);
    if t.resident == s.resident {
      assert s.resident - t.resident == {} && t.resident - s.resident == {};
    } else {
      assert t.resident - s.resident == {k};
      if |s.resident| < slots {
        assert s.resident - t.resident == {};
      } else {
        var v := Farthest(ev, i, s.resident);
        assert s.resident - t.resident == {v};
        forall x | x in s.resident ensures NoSooner(ev, i, v, x) {
          FarthestIsNoSooner(ev, i, s.resident, x);
        }
      }
    }
  }
}
