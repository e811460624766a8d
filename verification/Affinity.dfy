/** The affinity directory: a bounded map of routing hints that expire (src/affinity.rs, `Directory`). */
module Affinity {
  import opened Wrappers

  const CAPACITY: nat := 4096
  /** 300 seconds, in nanoseconds. */
  const TTL: nat := 300_000_000_000
  const U64_MAX: nat := 0xFFFF_FFFF_FFFF_FFFF

  /** A 32-byte digest, read as a number. */
  type Scope = nat

  datatype Entry = Entry(worker: nat, epoch: string, expires: nat, touched: nat, lease: nat, cachedTokens: nat)

  datatype Stats = Stats(preferred: nat, misses: nat, spillovers: nat, evicted: nat, expired: nat, stale: nat,
                         residencyMisses: nat)

  function SatMul4(n: nat): nat {
    if n * 4 > U64_MAX then U64_MAX else n * 4
  }

  function Min(a: nat, b: nat): nat {
    if a < b then a else b
  }

  /** Entries still alive at `now`. */
  function Alive(m: map<Scope, Entry>, now: nat): (r: map<Scope, Entry>)
    ensures r.Keys <= m.Keys
    ensures forall k :: k in r ==> r[k] == m[k]
  {
    map k | k in m && m[k].expires > now :: m[k]
  }

  /** Each entry was touched at its own tick, and one touched earlier expires no later. */
  ghost predicate TouchOrder(m: map<Scope, Entry>, tick: nat, clock: nat) {
    && (forall k :: k in m ==> m[k].touched <= tick && m[k].expires <= clock + TTL)
    && (forall j, k :: j in m && k in m && j != k ==>
          m[j].touched != m[k].touched && (m[j].touched < m[k].touched ==> m[j].expires <= m[k].expires))
  }

  /** A later touch at a later instant keeps the order. */
  lemma TouchKeepsOrder(m: map<Scope, Entry>, tick: nat, clock: nat, scope: Scope, e: Entry, now: nat)
    requires TouchOrder(m, tick, clock) && clock <= now && e.touched == tick + 1 && e.expires == now + TTL
    ensures TouchOrder(m[scope := e], tick + 1, now)
  {
  }

  predicate IsOldest(m: map<Scope, Entry>, k: Scope) {
    k in m && forall j :: j in m ==> m[k].touched <= m[j].touched
  }

  lemma {:induction false} HasOldest(m: map<Scope, Entry>)
    requires |m| > 0
    ensures exists k :: IsOldest(m, k)
    decreases |m|
  {
    assert m.Keys != {};
    var k :| k in m;
    var rest := m - {k};
    if |rest| == 0 {
      assert rest.Keys == {};
      assert forall j :: j in m && j != k ==> j in rest;
      assert IsOldest(m, k);
    } else {
      assert rest.Keys == m.Keys - {k};
      HasOldest(rest);
      var j :| IsOldest(rest, j);
      assert forall x :: x in m && x != k ==> x in rest;
      assert IsOldest(m, if m[k].touched < m[j].touched then k else j);
    }
  }

  /** So the entry touched longest ago is one that would expire first. */
  lemma OldestExpiresFirst(m: map<Scope, Entry>, tick: nat, clock: nat, k: Scope, j: Scope)
    requires TouchOrder(m, tick, clock) && IsOldest(m, k) && j in m
    ensures m[k].expires <= m[j].expires
  {
    assert j == k || m[k].touched < m[j].touched;
  }

  function Counted(s: Stats, worker: nat, preferred: Option<nat>): Stats {
    match preferred
    case None => s.(misses := s.misses + 1)
    case Some(previous) =>
      if previous == worker then s.(preferred := s.preferred + 1) else s.(spillovers := s.spillovers + 1)
  }

  /** A directory with its books: the latest instant seen, the scopes newly inserted, the records made. */
  datatype Book = Book(entries: map<Scope, Entry>, tick: nat, stats: Stats, clock: nat, inserted: nat, records: nat)

  /**
    At most the capacity; every scope inserted is live or left for exactly one counted reason;
    every record was preferred, a spillover or a miss; until the tick saturates, touch order is
    expiry order.
  */
  ghost predicate Balanced(b: Book) {
    && |b.entries| <= CAPACITY
    && b.inserted == |b.entries| + b.stats.evicted + b.stats.expired + b.stats.stale + b.stats.residencyMisses
    && b.records == b.stats.preferred + b.stats.spillovers + b.stats.misses
    && b.tick == Min(b.records, U64_MAX)
    && (b.records <= U64_MAX ==> TouchOrder(b.entries, b.tick, b.clock))
  }

  /** Time passes: what expired is counted. */
  function ExpiredAt(b: Book, now: nat): Book
    requires |Alive(b.entries, now)| <= |b.entries|
  {
    var alive := Alive(b.entries, now);
    b.(entries := alive, clock := now, stats := b.stats.(expired := b.stats.expired + (|b.entries| - |alive|)))
  }

  lemma ExpireBalanced(b: Book, now: nat)
    requires Balanced(b) && b.clock <= now
    ensures |Alive(b.entries, now)| <= |b.entries| && Balanced(ExpiredAt(b, now))
  {
    AliveSize(b.entries, now);
  }

  function EntryAt(b: Book, worker: nat, epoch: string, lease: nat, cachedTokens: nat): Entry {
    Entry(worker, epoch, b.clock + TTL, Min(b.tick + 1, U64_MAX), lease, cachedTokens)
  }

  /** One record: counted, ticked and stored. */
  function Put(b: Book, scope: Scope, preferred: Option<nat>, e: Entry): Book {
    b.(entries := b.entries[scope := e], tick := Min(b.tick + 1, U64_MAX),
       stats := Counted(b.stats, e.worker, preferred),
       inserted := b.inserted + (if scope in b.entries then 0 else 1), records := b.records + 1)
  }

  lemma PutBalanced(b: Book, scope: Scope, preferred: Option<nat>, e: Entry)
    requires Balanced(b) && (scope in b.entries || |b.entries| < CAPACITY)
    requires e == EntryAt(b, e.worker, e.epoch, e.lease, e.cachedTokens)
    ensures Balanced(Put(b, scope, preferred, e))
  {
    InsertSize(b.entries, scope, e);
    if b.records < U64_MAX {
      TouchKeepsOrder(b.entries, b.tick, b.clock, scope, e, b.clock);
    }
  }

  /** Room for `scope`: the oldest entry goes only when a new scope meets a full directory. */
  ghost predicate MakesRoom(b: Book, scope: Scope, kept: Book) {
    if scope in b.entries || |b.entries| < CAPACITY then kept == b
    else exists k :: IsOldest(b.entries, k) && kept == Evicted(b, k)
  }

  function Evicted(b: Book, k: Scope): Book {
    b.(entries := b.entries - {k}, stats := b.stats.(evicted := b.stats.evicted + 1))
  }

  /** Forgetting an entry for one counted reason. */
  lemma ForgetBalanced(b: Book, scope: Scope)
    requires Balanced(b) && scope in b.entries
    ensures var r := b.(entries := b.entries - {scope});
      && |r.entries| == |b.entries| - 1
      && Balanced(r.(stats := b.stats.(evicted := b.stats.evicted + 1)))
      && Balanced(r.(stats := b.stats.(stale := b.stats.stale + 1)))
      && Balanced(r.(stats := b.stats.(residencyMisses := b.stats.residencyMisses + 1)))
  {
    RemoveSize(b.entries, scope);
  }

  lemma RetokenBalanced(b: Book, scope: Scope, tokens: nat)
    requires Balanced(b) && scope in b.entries
    ensures Balanced(b.(entries := b.entries[scope := b.entries[scope].(cachedTokens := tokens)]))
  {
    InsertSize(b.entries, scope, b.entries[scope].(cachedTokens := tokens));
  }

  class Directory {
    var entries: map<Scope, Entry>
    var tick: nat
    var stats: Stats
    ghost var clock: nat
    ghost var inserted: nat
    ghost var records: nat

    ghost function View(): Book
      reads this
    {
      Book(entries, tick, stats, clock, inserted, records)
    }

    constructor ()
      ensures View() == Book(map[], 0, Stats(0, 0, 0, 0, 0, 0, 0), 0, 0, 0) && Balanced(View())
    {
      entries, tick := map[], 0;
      stats := Stats(0, 0, 0, 0, 0, 0, 0);
      clock, inserted, records := 0, 0, 0;
    }

    method Expire(now: nat)
      requires Balanced(View()) && clock <= now
      modifies this
      ensures |Alive(old(entries), now)| <= |old(entries)|
      ensures Balanced(View()) && View() == ExpiredAt(old(View()), now)
    {
      ExpireBalanced(View(), now);
      var before := |entries|;
      entries := Alive(entries, now);
      stats := stats.(expired := stats.expired + (before - |entries|));
      clock := now;
    }

    /** The worker, epoch and lease of the scope's live entry. */
    method Preferred(scope: Scope, now: nat) returns (r: Option<(nat, string, nat)>)
      requires Balanced(View()) && clock <= now
      modifies this
      ensures |Alive(old(entries), now)| <= |old(entries)|
      ensures Balanced(View()) && View() == ExpiredAt(old(View()), now)
      ensures var m := old(entries);
        r == if scope in m && m[scope].expires > now
             then Some((m[scope].worker, m[scope].epoch, m[scope].lease)) else None
    {
      Expire(now);
      r := if scope in entries then Some((entries[scope].worker, entries[scope].epoch, entries[scope].lease)) else None;
    }

    method MakeRoom(scope: Scope)
      requires Balanced(View())
      modifies this
      ensures Balanced(View()) && MakesRoom(old(View()), scope, View())
      ensures scope in entries || |entries| < CAPACITY
      ensures clock == old(clock) && tick == old(tick)
    {
      if scope !in entries && |entries| >= CAPACITY {
        HasOldest(entries);
        var oldest :| oldest in entries && IsOldest(entries, oldest);
        ForgetBalanced(View(), oldest);
        entries := entries - {oldest};
        stats := stats.(evicted := stats.evicted + 1);
        assert View() == Evicted(old(View()), oldest);
      }
    }

    /** Record a dispatch: expire, make room when the scope is new and the directory full, and store. */
    method Record(scope: Scope, worker: nat, epoch: string, preferred: Option<nat>, now: nat, lease: nat,
                  cachedTokens: nat)
      requires Balanced(View()) && clock <= now
      modifies this
      ensures |Alive(old(entries), now)| <= |old(entries)|
      ensures Balanced(View())
      ensures exists kept ::
        && MakesRoom(ExpiredAt(old(View()), now), scope, kept)
        && View() == Put(kept, scope, preferred, EntryAt(kept, worker, epoch, lease, cachedTokens))
    {
      Expire(now);
      MakeRoom(scope);
      ghost var kept := View();
      Store(scope, preferred, Entry(worker, epoch, now + TTL, Min(tick + 1, U64_MAX), lease, cachedTokens));
      assert MakesRoom(ExpiredAt(old(View()), now), scope, kept);
    }

    /** Count the record, tick and store the entry. */
    method Store(scope: Scope, preferred: Option<nat>, e: Entry)
      requires Balanced(View()) && (scope in entries || |entries| < CAPACITY)
      requires e == EntryAt(View(), e.worker, e.epoch, e.lease, e.cachedTokens)
      modifies this
      ensures Balanced(View()) && View() == Put(old(View()), scope, preferred, e)
    {
      PutBalanced(View(), scope, preferred, e);
      inserted := inserted + if scope in entries then 0 else 1;
      records := records + 1;
      stats := Counted(stats, e.worker, preferred);
      tick := Min(tick + 1, U64_MAX);
      entries := entries[scope := e];
    }

    method Invalidate(scope: Scope)
      requires Balanced(View())
      modifies this
      ensures Balanced(View())
      ensures View() == if scope !in old(entries) then old(View())
        else old(View()).(entries := old(entries) - {scope}, stats := old(stats).(stale := old(stats.stale) + 1))
    {
      if scope in entries {
        ForgetBalanced(View(), scope);
        entries := entries - {scope};
        stats := stats.(stale := stats.stale + 1);
      }
    }

    /** What a worker's inventory says of the scope: tokens held, or absent when the inventory is complete. */
    method Residency(scope: Scope, tokens: Option<nat>, complete: bool) returns (kept: bool)
      requires Balanced(View())
      modifies this
      ensures Balanced(View()) && kept == (tokens.Some? || !complete)
      ensures View() ==
        if scope !in old(entries) || (tokens.None? && !complete) then old(View())
        else if tokens.Some? then
          old(View()).(entries := old(entries)[scope := old(entries)[scope].(cachedTokens := tokens.value)])
        else old(View()).(entries := old(entries) - {scope},
                          stats := old(stats).(residencyMisses := old(stats.residencyMisses) + 1))
    {
      if tokens.Some? {
        if scope in entries {
          RetokenBalanced(View(), scope, tokens.value);
          entries := entries[scope := entries[scope].(cachedTokens := tokens.value)];
        }
        return true;
      }
      if complete {
        if scope in entries {
          ForgetBalanced(View(), scope);
          entries := entries - {scope};
          stats := stats.(residencyMisses := stats.residencyMisses + 1);
        }
        return false;
      }
      return true;
    }

    /** The discount for the preferred worker: four units a cached token, at most a fifth of the request. */
    function SavedWork(scope: Scope, units: nat): (saved: nat)
      reads this
      ensures saved <= units / 5
      ensures scope in entries ==> saved <= SatMul4(entries[scope].cachedTokens)
      ensures scope in entries && units <= U64_MAX ==>
        var worth := 4 * entries[scope].cachedTokens; saved == if worth <= units / 5 then worth else units / 5
      ensures scope !in entries ==> saved == 0
    {
      if scope in entries then Min(SatMul4(entries[scope].cachedTokens), units / 5) else 0
    }
  }

  lemma AliveSize(m: map<Scope, Entry>, now: nat)
    ensures |Alive(m, now)| <= |m|
  {
    assert m.Keys == Alive(m, now).Keys + (m.Keys - Alive(m, now).Keys);
  }

  lemma RemoveSize(m: map<Scope, Entry>, k: Scope)
    ensures |m - {k}| == if k in m then |m| - 1 else |m|
  {
    assert (m - {k}).Keys == m.Keys - {k};
  }

  lemma InsertSize(m: map<Scope, Entry>, k: Scope, e: Entry)
    ensures |m[k := e]| == if k in m then |m| else |m| + 1
  {
    assert m[k := e].Keys == m.Keys + {k};
  }
}
