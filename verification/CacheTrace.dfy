/**
  A routing trace: which experts every forward pass visited, and the per-call
  groupings the replays work on (src/cache_sim.rs, `Trace`).
*/
module CacheTrace {
  import opened Sequences

  /** A `(layer, expert)` pair, ordered by layer and then expert. */
  datatype Key = Key(layer: nat, expert: nat)

  predicate KeyLess(a: Key, b: Key) {
    a.layer < b.layer || (a.layer == b.layer && a.expert < b.expert)
  }

  datatype Phase = Prefill | Decode

  datatype Visit = Visit(chunk: nat, row: nat, expert: nat)

  datatype Call = Call(phase: Phase, layers: seq<seq<Visit>>)

  ghost predicate Increasing(s: seq<nat>) {
    forall i, j :: 0 <= i < j < |s| ==> s[i] < s[j]
  }

  /** Insertion into a strictly increasing sequence, dropping a repeat. */
  function InsertSorted(s: seq<nat>, x: nat): (r: seq<nat>)
    requires Increasing(s)
    ensures Increasing(r)
    ensures Elements(r) == Elements(s) + {x}
  {
    if s == [] then [x]
    else if x < s[0] then assert Elements([x] + s) == {x} + Elements(s); [x] + s
    else if x == s[0] then s
    else
      var r := InsertSorted(s[1..], x);
      assert Elements(s) == {s[0]} + Elements(s[1..]);
      assert forall i :: 0 <= i < |r| ==> s[0] < r[i] by {
        forall i | 0 <= i < |r| ensures s[0] < r[i] {
          assert r[i] in Elements(r);
        }
      }
      assert Elements([s[0]] + r) == {s[0]} + Elements(r);
      [s[0]] + r
  }

  /** Sort, then drop repeats. */
  function SortedDistinct(s: seq<nat>): (r: seq<nat>)
    ensures Increasing(r)
    ensures Elements(r) == Elements(s)
  {
    if s == [] then [] else
      assert Elements(s) == Elements(s[..|s| - 1]) + {s[|s| - 1]};
      InsertSorted(SortedDistinct(s[..|s| - 1]), s[|s| - 1])
  }

  /** The chunks of a layer's visits, ascending and without repeats. */
  function Chunks(visits: seq<Visit>): (r: seq<nat>)
    ensures Increasing(r)
    ensures Elements(r) == set v | v in visits :: v.chunk
  {
    var all := seq(|visits|, i requires 0 <= i < |visits| => visits[i].chunk);
    assert forall v :: v in visits ==> v.chunk in all by {
      forall v | v in visits ensures v.chunk in all {
        var i :| 0 <= i < |visits| && visits[i] == v;
        assert all[i] == v.chunk;
      }
    }
    SortedDistinct(all)
  }

  /** Whether layer `l` visited `k` in `chunk`. */
  predicate Visited(visits: seq<Visit>, l: nat, chunk: nat, k: Key) {
    exists v :: v in visits && v.chunk == chunk && k == Key(l, v.expert)
  }

  /** The distinct experts of one dispatch, in first-seen order. */
  function FirstSeen(visits: seq<Visit>, l: nat, chunk: nat): (r: seq<Key>)
    ensures NoDup(r)
    ensures forall k :: k in r <==> Visited(visits, l, chunk, k)
  {
    if visits == [] then [] else
      var init, v := visits[..|visits| - 1], visits[|visits| - 1];
      var seen := FirstSeen(init, l, chunk);
      assert visits == init + [v];
      if v.chunk == chunk && Key(l, v.expert) !in seen then seen + [Key(l, v.expert)] else seen
  }

  /** One lookup group per chunk of the layer, chunks ascending. */
  function LayerLookups(visits: seq<Visit>, l: nat): (r: seq<seq<Key>>) {
    var chunks := Chunks(visits);
    seq(|chunks|, i requires 0 <= i < |chunks| => FirstSeen(visits, l, chunks[i]))
  }

  function Lookups(call: Call): (r: seq<seq<Key>>) {
    Flatten(seq(|call.layers|, l requires 0 <= l < |call.layers| => LayerLookups(call.layers[l], l)))
  }

  /** The largest row among the visits of `chunk`, 0 when there is none. */
  function LastRow(visits: seq<Visit>, chunk: nat): (r: nat)
    ensures forall v :: v in visits && v.chunk == chunk ==> v.row <= r
    ensures r == 0 || exists v :: v in visits && v.chunk == chunk && v.row == r
  {
    if visits == [] then 0 else
      var init, v := visits[..|visits| - 1], visits[|visits| - 1];
      var r := LastRow(init, chunk);
      assert visits == init + [v];
      if v.chunk == chunk && v.row > r then v.row else r
  }

  /** Whether `e` is routed by a visit in the last row of `chunk`. */
  predicate InLastRow(visits: seq<Visit>, chunk: nat, e: nat) {
    exists v :: v in visits && v.chunk == chunk && v.expert == e && v.row == LastRow(visits, chunk)
  }

  /** The experts routed by row `row` of `chunk`, in visit order. */
  function RowExperts(visits: seq<Visit>, chunk: nat, row: nat): (r: seq<nat>)
    ensures forall e :: e in r <==> exists v :: v in visits && v.chunk == chunk && v.row == row && v.expert == e
  {
    if visits == [] then [] else
      var init, v := visits[..|visits| - 1], visits[|visits| - 1];
      assert visits == init + [v];
      RowExperts(init, chunk, row) + if v.chunk == chunk && v.row == row then [v.expert] else []
  }

  /** The last row of `chunk`: its keys, ascending and without repeats. */
  function LastRowKeys(visits: seq<Visit>, l: nat, chunk: nat): (r: seq<Key>)
    ensures NoDup(r)
    ensures forall k :: k in r <==> k.layer == l && InLastRow(visits, chunk, k.expert)
  {
    var routed := RowExperts(visits, chunk, LastRow(visits, chunk));
    var experts := SortedDistinct(routed);
    var r := seq(|experts|, i requires 0 <= i < |experts| => Key(l, experts[i]));
    assert forall k: Key :: k in r <==> k.layer == l && k.expert in routed by {
      assert forall e :: e in routed <==> e in Elements(experts);
      forall k: Key | k.layer == l && k.expert in experts ensures k in r {
        var i :| 0 <= i < |experts| && experts[i] == k.expert;
        assert r[i] == k;
      }
      forall k: Key | k in r ensures k.layer == l && k.expert in Elements(experts) { }
    }
    r
  }

  function LayerLastRows(visits: seq<Visit>, l: nat): (r: seq<seq<Key>>) {
    var chunks := Chunks(visits);
    seq(|chunks|, i requires 0 <= i < |chunks| => LastRowKeys(visits, l, chunks[i]))
  }

  /** What the hot-set counters record: a decode's lookups, a prefill's last row of each chunk. */
  function Recorded(call: Call): (r: seq<seq<Key>>) {
    match call.phase
    case Decode => Lookups(call)
    case Prefill =>
      Flatten(seq(|call.layers|, l requires 0 <= l < |call.layers| => LayerLastRows(call.layers[l], l)))
  }

  /** The last row of the layer's final chunk; nothing for an unvisited layer. */
  function LayerSeed(visits: seq<Visit>, l: nat): (r: seq<Key>) {
    var chunks := Chunks(visits);
    if chunks == [] then [] else LastRowKeys(visits, l, chunks[|chunks| - 1])
  }

  function PrefillSeed(call: Call): (r: seq<seq<Key>>) {
    seq(|call.layers|, l requires 0 <= l < |call.layers| => LayerSeed(call.layers[l], l))
  }

  // ---- How often a call looks a key up, and records it ----

  /** The chunks of a layer in which expert `e` was visited. */
  ghost function ChunksVisiting(visits: seq<Visit>, e: nat): set<nat> {
    set v | v in visits && v.expert == e :: v.chunk
  }

  /** The chunks of a layer whose last row routes to expert `e`. */
  ghost function ChunksEndingOn(visits: seq<Visit>, e: nat): set<nat> {
    set c | c in Chunks(visits) && InLastRow(visits, c, e)
  }

  /** How often `k` occurs in the groups taken end to end. */
  ghost function Occurrences(groups: seq<seq<Key>>, k: Key): nat {
    multiset(Flatten(groups))[k]
  }

  lemma OccurrencesAppend(a: seq<seq<Key>>, b: seq<seq<Key>>, k: Key)
    ensures Occurrences(a + b, k) == Occurrences(a, k) + Occurrences(b, k)
  {
    FlattenAppend(a, b);
  }

  /** The tags of the groups that hold `k`. */
  ghost function Holders(groups: seq<seq<Key>>, tags: seq<nat>, k: Key): set<nat>
    requires |groups| == |tags|
  {
    set i | 0 <= i < |groups| && k in groups[i] :: tags[i]
  }

  /** Occurrences of `k` in duplicate-free groups: the groups that hold it. */
  lemma {:induction false} GroupOccurrences(groups: seq<seq<Key>>, tags: seq<nat>, k: Key)
    requires |groups| == |tags| && Increasing(tags)
    requires forall i :: 0 <= i < |groups| ==> NoDup(groups[i])
    ensures Occurrences(groups, k) == |Holders(groups, tags, k)|
  {
    if groups != [] {
      var n := |groups| - 1;
      GroupOccurrences(groups[..n], tags[..n], k);
      NoDupCount(groups[n], k);
      HoldersSplit(groups, tags, k);
    }
  }

  lemma HoldersSplit(groups: seq<seq<Key>>, tags: seq<nat>, k: Key)
    requires |groups| == |tags| > 0 && Increasing(tags)
    ensures var n := |groups| - 1;
      && Holders(groups, tags, k) == Holders(groups[..n], tags[..n], k) + (if k in groups[n] then {tags[n]} else {})
      && tags[n] !in Holders(groups[..n], tags[..n], k)
  {
    var n := |groups| - 1;
    var rest := Holders(groups[..n], tags[..n], k);
    forall c | c in Holders(groups, tags, k) ensures c in rest || (k in groups[n] && c == tags[n]) {
      var i :| 0 <= i < |groups| && k in groups[i] && tags[i] == c;
      if i < n {
        assert k in groups[..n][i] && tags[..n][i] == c;
      }
    }
    forall c | c in rest ensures c in Holders(groups, tags, k) && c != tags[n] {
      var i :| 0 <= i < n && k in groups[..n][i] && tags[..n][i] == c;
      assert k in groups[i] && tags[i] == c;
    }
  }

  lemma {:induction false} NoDupCount(s: seq<Key>, k: Key)
    requires NoDup(s)
    ensures multiset(s)[k] == if k in s then 1 else 0
  {
    if s != [] {
      assert s == s[..|s| - 1] + [s[|s| - 1]];
      NoDupCount(s[..|s| - 1], k);
    }
  }

  /** The occurrences in a layer's groups, given which chunks' groups hold `k`. */
  lemma LayerOccurrences(groups: seq<seq<Key>>, chunks: seq<nat>, k: Key, holding: set<nat>)
    requires |groups| == |chunks| && Increasing(chunks) && holding <= Elements(chunks)
    requires forall i :: 0 <= i < |groups| ==> NoDup(groups[i]) && (k in groups[i] <==> chunks[i] in holding)
    ensures Occurrences(groups, k) == |holding|
  {
    GroupOccurrences(groups, chunks, k);
    forall c | c in holding ensures c in Holders(groups, chunks, k) {
      var i :| 0 <= i < |chunks| && chunks[i] == c;
      assert k in groups[i];
    }
    assert Holders(groups, chunks, k) == holding;
  }

  lemma LayerLookupsCount(visits: seq<Visit>, l: nat, k: Key)
    ensures Occurrences(LayerLookups(visits, l), k)
         == if k.layer == l then |ChunksVisiting(visits, k.expert)| else 0
  {
    LayerOccurrences(LayerLookups(visits, l), Chunks(visits), k,
                     if k.layer == l then ChunksVisiting(visits, k.expert) else {});
  }

  /** When only layer `k.layer` mentions `k`, its groups hold all of `k`'s occurrences. */
  lemma {:induction false} OccurrencesByLayer(layers: seq<seq<seq<Key>>>, k: Key)
    requires forall l :: 0 <= l < |layers| && l != k.layer ==> Occurrences(layers[l], k) == 0
    ensures Occurrences(Flatten(layers), k) == if k.layer < |layers| then Occurrences(layers[k.layer], k) else 0
  {
    if layers != [] {
      var n := |layers| - 1;
      var init := layers[..n];
      assert forall l :: 0 <= l < n ==> init[l] == layers[l];
      OccurrencesByLayer(init, k);
      OccurrencesAppend(Flatten(init), layers[n], k);
      assert Flatten(layers) == Flatten(init) + layers[n];
    }
  }

  /** A call looks a key up once per chunk that visits it, however many rows route to it. */
  lemma LookupsOncePerChunk(call: Call, k: Key)
    ensures Occurrences(Lookups(call), k)
         == if k.layer < |call.layers| then |ChunksVisiting(call.layers[k.layer], k.expert)| else 0
  {
    forall l | 0 <= l < |call.layers|
      ensures Occurrences(LayerLookups(call.layers[l], l), k)
           == if k.layer == l then |ChunksVisiting(call.layers[l], k.expert)| else 0
    {
      LayerLookupsCount(call.layers[l], l, k);
    }
    OccurrencesByLayer(seq(|call.layers|, l requires 0 <= l < |call.layers| => LayerLookups(call.layers[l], l)), k);
  }

  lemma LayerLastRowsCount(visits: seq<Visit>, l: nat, k: Key)
    ensures Occurrences(LayerLastRows(visits, l), k)
         == if k.layer == l then |ChunksEndingOn(visits, k.expert)| else 0
  {
    LayerOccurrences(LayerLastRows(visits, l), Chunks(visits), k,
                     if k.layer == l then ChunksEndingOn(visits, k.expert) else {});
  }

  /** A prefill earns a key one observation per chunk whose last row routes to it. */
  lemma PrefillObservations(call: Call, k: Key)
    requires call.phase == Prefill
    ensures Occurrences(Recorded(call), k)
         == if k.layer < |call.layers| then |ChunksEndingOn(call.layers[k.layer], k.expert)| else 0
  {
    forall l | 0 <= l < |call.layers|
      ensures Occurrences(LayerLastRows(call.layers[l], l), k)
           == if k.layer == l then |ChunksEndingOn(call.layers[l], k.expert)| else 0
    {
      LayerLastRowsCount(call.layers[l], l, k);
    }
    OccurrencesByLayer(seq(|call.layers|, l requires 0 <= l < |call.layers| => LayerLastRows(call.layers[l], l)), k);
  }

  /** The visit lies in the layer's last chunk, and in the last row of it. */
  ghost predicate IsFinal(visits: seq<Visit>, v: Visit) {
    v in visits && forall u :: u in visits ==> u.chunk < v.chunk || (u.chunk == v.chunk && u.row <= v.row)
  }

  lemma LastChunk(visits: seq<Visit>)
    ensures (visits == []) == (Chunks(visits) == [])
    ensures visits != [] ==> var last := Chunks(visits)[|Chunks(visits)| - 1];
      (exists v :: v in visits && v.chunk == last) && forall v :: v in visits ==> v.chunk <= last
  {
    var chunks := Chunks(visits);
    if visits != [] {
      assert visits[0].chunk in Elements(chunks);
    }
    if chunks != [] {
      assert chunks[|chunks| - 1] in Elements(chunks);
      forall v | v in visits ensures v.chunk <= chunks[|chunks| - 1] {
        assert v.chunk in Elements(chunks);
      }
    }
  }

  lemma FinalIff(visits: seq<Visit>, last: nat, v: Visit)
    requires (exists v :: v in visits && v.chunk == last) && forall v :: v in visits ==> v.chunk <= last
    ensures IsFinal(visits, v) <==> v in visits && v.chunk == last && v.row == LastRow(visits, last)
  {
    var w :| w in visits && w.chunk == last;
    var row := LastRow(visits, last);
    assert row == 0 || exists u :: u in visits && u.chunk == last && u.row == row;
  }

  lemma LayerSeedIsFinal(visits: seq<Visit>, l: nat, k: Key)
    ensures k in LayerSeed(visits, l) <==> k.layer == l && exists v :: IsFinal(visits, v) && v.expert == k.expert
  {
    LastChunk(visits);
    if visits != [] {
      var last := Chunks(visits)[|Chunks(visits)| - 1];
      forall v ensures IsFinal(visits, v) <==> v in visits && v.chunk == last && v.row == LastRow(visits, last) {
        FinalIff(visits, last, v);
      }
    }
  }

  /** A prefill seeds each layer with the experts of its final row, each once. */
  lemma SeedsAreFinalRows(call: Call, l: nat, k: Key)
    requires l < |call.layers|
    ensures |PrefillSeed(call)| == |call.layers| && NoDup(PrefillSeed(call)[l])
    ensures k in PrefillSeed(call)[l] <==>
      k.layer == l && exists v :: IsFinal(call.layers[l], v) && v.expert == k.expert
  {
    LayerSeedIsFinal(call.layers[l], l, k);
  }

  // ---- The order of a call's lookups ----

  /** A dispatch: a chunk of a layer. */
  datatype Dispatch = Dispatch(layer: nat, chunk: nat)

  /** Layer by layer, and chunk by chunk within a layer. */
  ghost predicate InOrder(d: seq<Dispatch>) {
    forall i, j :: 0 <= i < j < |d| ==>
                     d[i].layer < d[j].layer || (d[i].layer == d[j].layer && d[i].chunk < d[j].chunk)
  }

  /** Each key was visited in the chunk before any key listed after it. */
  ghost predicate BySight(visits: seq<Visit>, chunk: nat, keys: seq<Key>) {
    forall i, j :: 0 <= i < j < |keys| ==> SeenFirst(visits, chunk, keys[i].expert, keys[j].expert)
  }

  ghost predicate SeenFirst(visits: seq<Visit>, chunk: nat, e: nat, f: nat) {
    exists p :: 0 <= p < |visits| && visits[p].chunk == chunk && visits[p].expert == e
                && forall q :: 0 <= q < p && visits[q].chunk == chunk ==> visits[q].expert != f
  }

  lemma SeenFirstGrows(visits: seq<Visit>, n: nat, chunk: nat, e: nat, f: nat)
    requires n <= |visits| && SeenFirst(visits[..n], chunk, e, f)
    ensures SeenFirst(visits, chunk, e, f)
  {
    var p :| 0 <= p < n && visits[..n][p].chunk == chunk && visits[..n][p].expert == e
             && forall q :: 0 <= q < p && visits[..n][q].chunk == chunk ==> visits[..n][q].expert != f;
    assert visits[p] == visits[..n][p];
    assert forall q :: 0 <= q < p ==> visits[q] == visits[..n][q];
  }

  lemma {:induction false} FirstSeenBySight(visits: seq<Visit>, l: nat, chunk: nat)
    ensures BySight(visits, chunk, FirstSeen(visits, l, chunk))
  {
    if visits != [] {
      var n := |visits| - 1;
      var seen, keys := FirstSeen(visits[..n], l, chunk), FirstSeen(visits, l, chunk);
      FirstSeenBySight(visits[..n], l, chunk);
      forall i, j | 0 <= i < j < |keys| ensures SeenFirst(visits, chunk, keys[i].expert, keys[j].expert) {
        if j < |seen| {
          SeenFirstGrows(visits, n, chunk, keys[i].expert, keys[j].expert);
        } else {
          NewAfter(visits, l, chunk, keys[i], keys[j]);
        }
      }
    }
  }

  /** A key first visited last comes after every key seen. */
  lemma NewAfter(visits: seq<Visit>, l: nat, chunk: nat, k: Key, late: Key)
    requires visits != [] && k in FirstSeen(visits[..|visits| - 1], l, chunk)
    requires late !in FirstSeen(visits[..|visits| - 1], l, chunk) && late.layer == l
    ensures SeenFirst(visits, chunk, k.expert, late.expert)
  {
    var init := visits[..|visits| - 1];
    assert Visited(init, l, chunk, k) && !Visited(init, l, chunk, late);
    var v :| v in init && v.chunk == chunk && k == Key(l, v.expert);
    var p :| 0 <= p < |init| && init[p] == v;
    assert visits[p] == v;
    forall q | 0 <= q < p && visits[q].chunk == chunk ensures visits[q].expert != late.expert {
      assert init[q] == visits[q] && init[q] in init;
    }
  }

  /** One layer's dispatches. */
  ghost function LayerDispatches(visits: seq<Visit>, l: nat): (r: seq<Dispatch>)
    ensures |r| == |Chunks(visits)|
  {
    seq(|Chunks(visits)|, i requires 0 <= i < |Chunks(visits)| => Dispatch(l, Chunks(visits)[i]))
  }

  ghost function Dispatches(layers: seq<seq<Visit>>): seq<Dispatch> {
    if layers == [] then [] else
      Dispatches(layers[..|layers| - 1]) + LayerDispatches(layers[|layers| - 1], |layers| - 1)
  }

  /** The group holds the dispatch's keys, each once, in the order of their first visits. */
  ghost predicate Lists(layers: seq<seq<Visit>>, d: Dispatch, keys: seq<Key>) {
    && d.layer < |layers| && NoDup(keys) && BySight(layers[d.layer], d.chunk, keys)
    && forall k :: k in keys <==> Visited(layers[d.layer], d.layer, d.chunk, k)
  }

  ghost predicate AllList(layers: seq<seq<Visit>>, d: seq<Dispatch>, groups: seq<seq<Key>>) {
    |groups| == |d| && forall g :: 0 <= g < |d| ==> Lists(layers, d[g], groups[g])
  }

  lemma LayerLists(layers: seq<seq<Visit>>, l: nat)
    requires l < |layers|
    ensures AllList(layers, LayerDispatches(layers[l], l), LayerLookups(layers[l], l))
    ensures forall d :: d in LayerDispatches(layers[l], l) <==>
                          d.layer == l && exists v :: v in layers[l] && v.chunk == d.chunk
  {
    var visits := layers[l];
    var chunks, ds := Chunks(visits), LayerDispatches(visits, l);
    forall g | 0 <= g < |ds| ensures Lists(layers, ds[g], LayerLookups(visits, l)[g]) {
      FirstSeenBySight(visits, l, chunks[g]);
    }
    forall v | v in visits ensures Dispatch(l, v.chunk) in ds {
      assert v.chunk in Elements(chunks);
      var i :| 0 <= i < |chunks| && chunks[i] == v.chunk;
      assert ds[i] == Dispatch(l, v.chunk);
    }
    forall d | d in ds ensures exists v :: v in visits && v.chunk == d.chunk {
      var i :| 0 <= i < |ds| && ds[i] == d;
      assert chunks[i] in Elements(chunks);
    }
  }

  ghost predicate Dispatched(layers: seq<seq<Visit>>, d: Dispatch) {
    d.layer < |layers| && exists v :: v in layers[d.layer] && v.chunk == d.chunk
  }

  /** The groups of the layers' lookups, up to layer `n`. */
  ghost function LookupsUpTo(layers: seq<seq<Visit>>, n: nat): seq<seq<Key>>
    requires n <= |layers|
  {
    Flatten(seq(n, l requires 0 <= l < n => LayerLookups(layers[l], l)))
  }

  lemma {:induction false} DispatchesInOrder(layers: seq<seq<Visit>>, n: nat)
    requires n <= |layers|
    ensures InOrder(Dispatches(layers[..n]))
    ensures forall d :: d in Dispatches(layers[..n]) <==> d.layer < n && Dispatched(layers, d)
  {
    if n > 0 {
      var before, ds := Dispatches(layers[..n - 1]), LayerDispatches(layers[n - 1], n - 1);
      DispatchesInOrder(layers, n - 1);
      LayerLists(layers, n - 1);
      assert layers[..n][..n - 1] == layers[..n - 1];
      assert Dispatches(layers[..n]) == before + ds;
      assert forall i :: 0 <= i < |before| ==> before[i] in before;
    }
  }

  lemma {:induction false} LookupsList(layers: seq<seq<Visit>>, n: nat)
    requires n <= |layers|
    ensures AllList(layers, Dispatches(layers[..n]), LookupsUpTo(layers, n))
  {
    if n > 0 {
      var groups := seq(n, l requires 0 <= l < n => LayerLookups(layers[l], l));
      assert groups[..n - 1] == seq(n - 1, l requires 0 <= l < n - 1 => LayerLookups(layers[l], l));
      LookupsList(layers, n - 1);
      LayerLists(layers, n - 1);
      assert layers[..n][..n - 1] == layers[..n - 1];
      assert Dispatches(layers[..n]) == Dispatches(layers[..n - 1]) + LayerDispatches(layers[n - 1], n - 1);
      assert LookupsUpTo(layers, n) == LookupsUpTo(layers, n - 1) + LayerLookups(layers[n - 1], n - 1);
    }
  }

  /**
    A call's lookups go layer by layer, chunk by chunk within a layer, one group for each chunk
    that has visits, and each group holds that dispatch's experts in the order they are first seen.
  */
  lemma LookupsInOrder(call: Call) returns (d: seq<Dispatch>)
    ensures InOrder(d) && AllList(call.layers, d, Lookups(call))
    ensures forall x :: x in d <==> Dispatched(call.layers, x)
  {
    var n := |call.layers|;
    d := Dispatches(call.layers[..n]);
    DispatchesInOrder(call.layers, n);
    LookupsList(call.layers, n);
    assert Lookups(call) == LookupsUpTo(call.layers, n) by {
      assert seq(n, l requires 0 <= l < n => LayerLookups(call.layers[l], l))
          == seq(n, l requires 0 <= l < |call.layers| => LayerLookups(call.layers[l], l));
    }
    forall x ensures x in d <==> Dispatched(call.layers, x) { }
  }
}
