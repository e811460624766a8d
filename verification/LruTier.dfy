/**
  An LRU tier of experts with an eviction-protected hot set (src/cache_sim.rs, `Lru`).
  `Tier` is the tier as a value, its keys listed oldest first; class `Lru` keeps the
  two mutually inverse maps of the source and is proved to step the same way.
*/
module LruTier {
  import opened Sequences
  import opened CacheTrace

  datatype Tier = Tier(slots: nat, order: seq<Key>, hot: set<Key>, inserts: nat, evictions: nat, refused: nat)

  function NewTier(slots: nat): Tier {
    Tier(slots, [], {}, 0, 0, 0)
  }

  /** Refresh a resident key's recency. */
  function Touched(t: Tier, k: Key): Tier {
    if k in t.order then t.(order := Without(t.order, k) + [k]) else t
  }

  /** The position of the oldest key that is not hot, or the length when all are. */
  function FirstCold(order: seq<Key>, hot: set<Key>): (i: nat)
    ensures i <= |order|
    ensures i < |order| ==> order[i] !in hot
    ensures forall j :: 0 <= j < i ==> order[j] in hot
  {
    if order == [] || order[0] !in hot then 0 else 1 + FirstCold(order[1..], hot)
  }

  /** Insert or touch: evict the oldest cold key when full, refuse when all are hot. */
  function Inserted(t: Tier, k: Key): Tier {
    if k in t.order || t.slots == 0 then Touched(t, k)
    else if |t.order| < t.slots then t.(order := t.order + [k], inserts := t.inserts + 1)
    else
      var i := FirstCold(t.order, t.hot);
      if i == |t.order| then t.(refused := t.refused + 1)
      else t.(order := Without(t.order, t.order[i]) + [k], inserts := t.inserts + 1, evictions := t.evictions + 1)
  }

  function Removed(t: Tier, k: Key): Tier {
    t.(order := Without(t.order, k))
  }

  /** The tier never overfills and lists each resident once. */
  ghost predicate Sound(t: Tier) {
    NoDup(t.order) && |t.order| <= t.slots
  }

  lemma TouchKeeps(t: Tier, k: Key)
    requires Sound(t)
    ensures Sound(Touched(t, k))
    ensures Elements(Touched(t, k).order) == Elements(t.order)
    ensures |Touched(t, k).order| == |t.order|
  {
    WithoutFacts(t.order, k);
  }

  /** What an insert does to the residents, and that only cold keys are evicted. */
  lemma InsertKeeps(t: Tier, k: Key)
    requires Sound(t)
    ensures var r := Inserted(t, k);
      && Sound(r)
      && r.slots == t.slots && r.hot == t.hot
      && Elements(r.order) <= Elements(t.order) + {k}
      && t.hot * Elements(t.order) <= Elements(r.order)
      && |r.order| == |t.order| + (r.inserts - t.inserts) - (r.evictions - t.evictions)
      && (k in r.order <==> k in t.order || r.inserts == t.inserts + 1)
      && (r.refused == t.refused <==> t.slots == 0 || k in r.order)
      && (r.inserts == t.inserts || (r.inserts == t.inserts + 1 && k !in t.order))
      && (|t.order| < t.slots && k !in t.order ==> r.order == t.order + [k] && r.inserts == t.inserts + 1)
  {
    WithoutFacts(t.order, k);
    var i := FirstCold(t.order, t.hot);
    if i < |t.order| {
      WithoutFacts(t.order, t.order[i]);
    }
  }

  /** An absent key is refused only when a full tier holds nothing but hot keys. */
  lemma RefusedOnlyWhenAllHot(t: Tier, k: Key)
    requires Sound(t) && Inserted(t, k).refused != t.refused
    ensures k !in t.order && |t.order| == t.slots > 0 && Elements(t.order) <= t.hot
    ensures Inserted(t, k) == t.(refused := t.refused + 1)
  {
    assert forall x :: x in t.order ==> exists j :: 0 <= j < |t.order| && t.order[j] == x;
  }

  lemma RemoveKeeps(t: Tier, k: Key)
    requires Sound(t)
    ensures Sound(Removed(t, k))
    ensures Elements(Removed(t, k).order) == Elements(t.order) - {k}
    ensures |Removed(t, k).order| == if k in t.order then |t.order| - 1 else |t.order|
  {
    WithoutFacts(t.order, k);
  }

  // ---- The two maps of the source, and the recency order they encode ----

  /** The keys dated before `n`, by increasing clock. */
  ghost function Listing(keys: map<nat, Key>, n: nat): (r: seq<Key>) {
    if n == 0 then []
    else if n - 1 in keys then Listing(keys, n - 1) + [keys[n - 1]]
    else Listing(keys, n - 1)
  }

  /** `clocks` and `keys` are each other's inverse, and no clock is `n` or later. */
  ghost predicate Inverse(clocks: map<Key, nat>, keys: map<nat, Key>, n: nat) {
    && (forall k :: k in clocks ==> clocks[k] in keys && keys[clocks[k]] == k)
    && forall c :: c in keys ==> c < n && keys[c] in clocks && clocks[keys[c]] == c
  }

  ghost predicate Injective(keys: map<nat, Key>) {
    forall a, b :: a in keys && b in keys && keys[a] == keys[b] ==> a == b
  }

  /** A listing holds each key dated before `n` once. */
  lemma {:induction false} ListingFacts(keys: map<nat, Key>, n: nat)
    requires Injective(keys)
    ensures NoDup(Listing(keys, n))
    ensures forall k :: k in Listing(keys, n) <==> exists c :: c in keys && c < n && keys[c] == k
  {
    if n > 0 {
      ListingFacts(keys, n - 1);
      if n - 1 in keys {
        assert keys[n - 1] !in Listing(keys, n - 1);
      }
    }
  }

  lemma {:induction false} ListingLater(keys: map<nat, Key>, c: nat, k: Key, n: nat)
    requires n <= c
    ensures Listing(keys[c := k], n) == Listing(keys, n) == Listing(keys - {c}, n)
  {
    if n > 0 {
      ListingLater(keys, c, k, n - 1);
    }
  }

  lemma {:induction false} ListingWithout(keys: map<nat, Key>, c: nat, n: nat)
    requires Injective(keys) && c in keys && c < n
    ensures Listing(keys - {c}, n) == Without(Listing(keys, n), keys[c])
  {
    ListingFacts(keys, n - 1);
    if c == n - 1 {
      ListingLater(keys, c, keys[c], n - 1);
      WithoutLast(Listing(keys, n - 1), keys[c]);
    } else {
      ListingWithout(keys, c, n - 1);
      if n - 1 in keys {
        WithoutAppend(Listing(keys, n - 1), keys[n - 1], keys[c]);
      }
    }
  }

  lemma {:induction false} WithoutAbsent(s: seq<Key>, k: Key)
    requires k !in s
    ensures Without(s, k) == s
  {
    if s != [] {
      WithoutAbsent(s[1..], k);
    }
  }

  lemma {:induction false} WithoutLast(s: seq<Key>, k: Key)
    requires k !in s
    ensures Without(s + [k], k) == s
  {
    if s != [] {
      WithoutLast(s[1..], k);
      assert (s + [k])[1..] == s[1..] + [k];
    }
  }

  lemma {:induction false} WithoutAppend(s: seq<Key>, x: Key, k: Key)
    requires k in s
    ensures Without(s + [x], k) == Without(s, k) + [x]
  {
    assert (s + [x])[1..] == s[1..] + [x];
    if s[0] != k {
      WithoutAppend(s[1..], x, k);
    }
  }

  lemma ListingHolds(clocks: map<Key, nat>, keys: map<nat, Key>, n: nat, k: Key)
    requires Inverse(clocks, keys, n)
    ensures k in Listing(keys, n) <==> k in clocks
  {
    ListingFacts(keys, n);
  }

  lemma ListingLength(clocks: map<Key, nat>, keys: map<nat, Key>, n: nat)
    requires Inverse(clocks, keys, n)
    ensures |Listing(keys, n)| == |clocks|
  {
    ListingFacts(keys, n);
    NoDupLength(Listing(keys, n));
    assert Elements(Listing(keys, n)) == clocks.Keys;
  }

  /** Forgetting a key in both maps. */
  lemma DropKey(clocks: map<Key, nat>, keys: map<nat, Key>, n: nat, k: Key)
    requires Inverse(clocks, keys, n) && k in clocks
    ensures Inverse(clocks - {k}, keys - {clocks[k]}, n)
    ensures Listing(keys - {clocks[k]}, n) == Without(Listing(keys, n), k)
  {
    ListingWithout(keys, clocks[k], n);
  }

  /** Dating a key, absent from `keys`, with the next clock. */
  lemma AddKey(clocks: map<Key, nat>, keys: map<nat, Key>, n: nat, k: Key)
    requires Inverse(clocks - {k}, keys, n) || (k !in clocks && Inverse(clocks, keys, n))
    ensures Inverse(clocks[k := n], keys[n := k], n + 1)
    ensures Listing(keys[n := k], n + 1) == Listing(keys, n) + [k]
  {
    ListingLater(keys, n, k, n);
    assert k !in clocks ==> clocks - {k} == clocks;
    assert forall x :: x in clocks && x != k ==> x in clocks - {k};
    assert forall c :: c in keys ==> keys[c] in clocks - {k} && keys[c] != k;
  }

  /** Redating a key moves it to the end of the listing. */
  lemma MoveKey(clocks: map<Key, nat>, keys: map<nat, Key>, n: nat, k: Key)
    requires Inverse(clocks, keys, n) && k in clocks
    ensures Inverse(clocks[k := n], (keys - {clocks[k]})[n := k], n + 1)
    ensures Listing((keys - {clocks[k]})[n := k], n + 1) == Without(Listing(keys, n), k) + [k]
  {
    DropKey(clocks, keys, n, k);
    AddKey(clocks, keys - {clocks[k]}, n, k);
  }

  /** The first cold key by clock is the first cold key of the listing. */
  lemma {:induction false} OldestColdIs(keys: map<nat, Key>, hot: set<Key>, c: nat, n: nat)
    requires c < n && c in keys && keys[c] !in hot
    requires forall b :: b < c && b in keys ==> keys[b] in hot
    ensures var s := Listing(keys, n); FirstCold(s, hot) < |s| && s[FirstCold(s, hot)] == keys[c]
  {
    if c == n - 1 {
      AllHot(keys, hot, c);
      var init, s := Listing(keys, n - 1), Listing(keys, n);
      assert s[|init|] == keys[c];
      assert FirstCold(s, hot) == |init|;
    } else {
      OldestColdIs(keys, hot, c, n - 1);
      var init, s := Listing(keys, n - 1), Listing(keys, n);
      assert s[..|init|] == init;
      assert s[FirstCold(init, hot)] == keys[c];
      assert FirstCold(s, hot) <= FirstCold(init, hot);
      assert s[FirstCold(s, hot)] == init[FirstCold(s, hot)];
    }
  }

  lemma {:induction false} AllHot(keys: map<nat, Key>, hot: set<Key>, n: nat)
    requires forall b :: b < n && b in keys ==> keys[b] in hot
    ensures forall k :: k in Listing(keys, n) ==> k in hot
  {
    if n > 0 {
      AllHot(keys, hot, n - 1);
    }
  }

  class Lru {
    var slots: nat
    /** key to recency clock */
    var clocks: map<Key, nat>
    /** recency clock to key */
    var order: map<nat, Key>
    var hot: set<Key>
    var clock: nat
    var inserts: nat
    var evictions: nat
    var refused: nat

    ghost predicate Valid()
      reads this
    {
      Inverse(clocks, order, clock + 1)
    }

    ghost function View(): Tier
      reads this
    {
      Tier(slots, Listing(order, clock + 1), hot, inserts, evictions, refused)
    }

    constructor (slots: nat)
      ensures Valid() && View() == NewTier(slots)
    {
      this.slots := slots;
      clocks, order, hot := map[], map[], {};
      clock, inserts, evictions, refused := 0, 0, 0, 0;
      new;
      assert Listing(order, 1) == Listing(order, 0);
    }

    method Contains(k: Key) returns (resident: bool)
      requires Valid()
      ensures resident <==> k in View().order
    {
      ListingHolds(clocks, order, clock + 1, k);
      return k in clocks;
    }

    method Touch(k: Key) returns (hit: bool)
      requires Valid()
      modifies this
      ensures Valid() && View() == Touched(old(View()), k) && hit == (k in old(View()).order)
    {
      ListingHolds(clocks, order, clock + 1, k);
      if k !in clocks {
        return false;
      }
      MoveKey(clocks, order, clock + 1, k);
      order := order - {clocks[k]};
      clock := clock + 1;
      order := order[clock := k];
      clocks := clocks[k := clock];
      return true;
    }

    /** The oldest clock whose key is not hot. */
    method OldestCold() returns (found: bool, c: nat)
      requires Valid()
      ensures var s := Listing(order, clock + 1);
        && found == (FirstCold(s, hot) < |s|)
        && (found ==> c in order && order[c] == s[FirstCold(s, hot)])
    {
      c := 0;
      while c <= clock
        invariant c <= clock + 1
        invariant forall b :: b < c && b in order ==> order[b] in hot
      {
        if c in order && order[c] !in hot {
          OldestColdIs(order, hot, c, clock + 1);
          return true, c;
        }
        c := c + 1;
      }
      AllHot(order, hot, clock + 1);
      return false, 0;
    }

    /** Make room by evicting the oldest cold key; false when every resident is hot. */
    method Evict() returns (room: bool)
      requires Valid()
      modifies this
      ensures Valid()
      ensures var t := old(View()); var i := FirstCold(t.order, t.hot);
        && room == (i < |t.order|)
        && View() == if !room then t.(refused := t.refused + 1)
                     else t.(order := Without(t.order, t.order[i]), evictions := t.evictions + 1)
      ensures clocks.Keys <= old(clocks.Keys)
    {
      var found, c := OldestCold();
      if !found {
        refused := refused + 1;
        return false;
      }
      var key := order[c];
      DropKey(clocks, order, clock + 1, key);
      order := order - {c};
      clocks := clocks - {key};
      evictions := evictions + 1;
      return true;
    }

    /** Give an absent key the next clock. */
    method Place(k: Key)
      requires Valid() && k !in clocks
      modifies this
      ensures Valid()
      ensures View() == old(View()).(order := old(View().order) + [k], inserts := old(inserts) + 1)
    {
      AddKey(clocks, order, clock + 1, k);
      clock := clock + 1;
      order := order[clock := k];
      clocks := clocks[k := clock];
      inserts := inserts + 1;
    }

    method Insert(k: Key)
      requires Valid()
      modifies this
      ensures Valid() && View() == Inserted(old(View()), k)
    {
      var hit := Touch(k);
      if hit || slots == 0 {
        return;
      }
      ListingHolds(clocks, order, clock + 1, k);
      ListingLength(clocks, order, clock + 1);
      if |clocks| >= slots {
        var room := Evict();
        if !room {
          return;
        }
      }
      Place(k);
    }

    method Remove(k: Key)
      requires Valid()
      modifies this
      ensures Valid() && View() == Removed(old(View()), k)
    {
      ListingHolds(clocks, order, clock + 1, k);
      if k in clocks {
        DropKey(clocks, order, clock + 1, k);
        order := order - {clocks[k]};
        clocks := clocks - {k};
      } else {
        WithoutAbsent(Listing(order, clock + 1), k);
      }
    }

    method SetHot(keys: seq<Key>)
      requires Valid()
      modifies this
      ensures Valid() && View() == old(View()).(hot := Elements(keys))
    {
      hot := set k | k in keys;
    }
  }
}
