/**
  Forwarding a worker's event stream (src/coordinator.rs, `SseFramer`, `has_done_event`,
  `StreamState::next_chunk` and the streaming half of `first_output`).
*/
module SseStream {
  import opened Wrappers

  newtype byte = x: int | 0 <= x < 256

  type Bytes = seq<byte>

  const NL: byte := 10
  const CR: byte := 13
  const DATA: Bytes := [100, 97, 116, 97, 58]       // data:
  const DONE: Bytes := [91, 68, 79, 78, 69, 93]     // [DONE]

  // ---- has_done_event ----

  /** Split at newlines: n newlines make n + 1 lines. */
  function Lines(s: Bytes): (r: seq<Bytes>)
    ensures |r| > 0
  {
    if s == [] then [[]] else Grow(Lines(s[..|s| - 1]), s[|s| - 1])
  }

  /** One more byte: a newline starts a line, anything else extends the last. */
  function Grow(lines: seq<Bytes>, b: byte): (r: seq<Bytes>)
    requires |lines| > 0
    ensures |r| > 0
  {
    var n := |lines| - 1;
    if b == NL then lines + [[]] else lines[..n] + [lines[n] + [b]]
  }

  lemma GrowLast(before: seq<Bytes>, lines: seq<Bytes>, b: byte)
    requires |lines| > 0
    ensures Grow(before + lines, b) == before + Grow(lines, b)
  {
    var n := |lines| - 1;
    assert (before + lines)[..|before| + n] == before + lines[..n];
  }

  predicate IsSpace(b: byte) {
    b == 32 || b == 9 || b == NL || b == 12 || b == CR
  }

  function TrimStart(s: Bytes): Bytes {
    if s != [] && IsSpace(s[0]) then TrimStart(s[1..]) else s
  }

  function TrimEnd(s: Bytes): Bytes {
    if s != [] && IsSpace(s[|s| - 1]) then TrimEnd(s[..|s| - 1]) else s
  }

  /** `data:` and `[DONE]`, with any blanks between and after and an optional carriage return. */
  predicate IsDone(line: Bytes) {
    var l := if line != [] && line[|line| - 1] == CR then line[..|line| - 1] else line;
    DATA <= l && TrimEnd(TrimStart(l[|DATA|..])) == DONE
  }

  predicate HasDone(events: Bytes) {
    exists line :: line in Lines(events) && IsDone(line)
  }

  // ---- SseFramer ----

  predicate BlankAt(s: Bytes, i: nat) {
    i + 1 < |s| && s[i] == NL && s[i + 1] == NL
  }

  /** Just past the last blank line, 0 when there is none. */
  function EventEnd(s: Bytes): (e: nat)
    ensures e <= |s|
    ensures e == 0 || (e >= 2 && s[e - 2] == NL && s[e - 1] == NL)
  {
    if |s| < 2 then 0 else if s[|s| - 2] == NL && s[|s| - 1] == NL then |s| else EventEnd(s[..|s| - 1])
  }

  /** `EventEnd` is the end of the last blank line. */
  lemma {:induction false} EventEndIsLast(s: Bytes, i: nat)
    requires BlankAt(s, i)
    ensures i + 2 <= EventEnd(s)
  {
    if !(s[|s| - 2] == NL && s[|s| - 1] == NL) {
      EventEndIsLast(s[..|s| - 1], i);
    }
  }

  class SseFramer {
    var buf: Bytes

    constructor ()
      ensures buf == []
    {
      buf := [];
    }

    /** Add bytes; hand out every event completed so far. */
    method Push(data: Bytes) returns (r: Option<Bytes>)
      modifies this
      ensures var all := old(buf) + data; var e := EventEnd(all);
        && r == (if e == 0 then None else Some(all[..e]))
        && buf == all[e..]
    {
      var all := buf + data;
      var i := |all|;
      assert all[..i] == all;
      while i > 0
        invariant i <= |all| && EventEnd(all) == EventEnd(all[..i])
      {
        if i >= 2 && all[i - 2] == NL && all[i - 1] == NL {
          buf := all[i..];
          return Some(all[..i]);
        }
        assert all[..i][..i - 1] == all[..i - 1];
        i := i - 1;
      }
      buf := all;
      return None;
    }
  }

  // ---- Whole runs of the framer ----

  function Concat(data: seq<Bytes>): Bytes {
    if data == [] then [] else data[0] + Concat(data[1..])
  }

  /** What one push hands out, and what it keeps. */
  function Out(all: Bytes): Bytes {
    all[..EventEnd(all)]
  }

  function Kept(all: Bytes): Bytes {
    all[EventEnd(all)..]
  }

  /** The pieces handed out while pushing `data` onto `buf`, in order. */
  function Pieces(buf: Bytes, data: seq<Bytes>): seq<Bytes>
    decreases |data|
  {
    if data == [] then [] else
      var later := Pieces(Kept(buf + data[0]), data[1..]);
      if Out(buf + data[0]) == [] then later else [Out(buf + data[0])] + later
  }

  function Forwarded(buf: Bytes, data: seq<Bytes>): Bytes
    decreases |data|
  {
    if data == [] then [] else Out(buf + data[0]) + Forwarded(Kept(buf + data[0]), data[1..])
  }

  /** What is left in the buffer. */
  function Rest(buf: Bytes, data: seq<Bytes>): Bytes
    decreases |data|
  {
    if data == [] then buf else Rest(Kept(buf + data[0]), data[1..])
  }

  /** The blank line that ends last in a concatenation: in the second part, across the seam, or in the first. */
  lemma {:induction false} EventEndAcross(a: Bytes, b: Bytes)
    ensures EventEnd(a + b) ==
      if EventEnd(b) > 0 then |a| + EventEnd(b)
      else if a != [] && b != [] && a[|a| - 1] == NL && b[0] == NL then |a| + 1
      else EventEnd(a)
  {
    if b == [] {
      assert a + b == a;
    } else {
      var all := a + b;
      assert all[..|all| - 1] == a + b[..|b| - 1];
      if |b| == 1 {
        assert all[..|all| - 1] == a;
      } else {
        assert all[|all| - 2] == b[|b| - 2] && all[|all| - 1] == b[|b| - 1];
        EventEndAcross(a, b[..|b| - 1]);
      }
    }
  }

  /** A push hands out whole events and keeps none. */
  lemma SplitFacts(all: Bytes)
    ensures Out(all) + Kept(all) == all && EventEnd(Kept(all)) == 0
    ensures Out(all) == [] || (EventEnd(Out(all)) == |Out(all)| >= 2 && Out(all)[|Out(all)| - 1] == NL)
    ensures Out(all) != [] && Kept(all) != [] ==> Kept(all)[0] != NL
  {
    EventEndAcross(Out(all), Kept(all));
  }

  lemma {:induction false} ForwardedIs(buf: Bytes, data: seq<Bytes>)
    ensures Concat(Pieces(buf, data)) == Forwarded(buf, data)
    ensures forall p :: p in Pieces(buf, data) ==> p != [] && EventEnd(p) == |p|
    decreases |data|
  {
    if data != [] {
      var all := buf + data[0];
      var later := Pieces(Kept(all), data[1..]);
      SplitFacts(all);
      ForwardedIs(Kept(all), data[1..]);
      assert ([Out(all)] + later)[1..] == later;
    }
  }

  lemma {:induction false} NothingLost(buf: Bytes, data: seq<Bytes>)
    requires EventEnd(buf) == 0
    ensures Forwarded(buf, data) + Rest(buf, data) == buf + Concat(data)
    ensures EventEnd(Rest(buf, data)) == 0
    decreases |data|
  {
    if data == [] {
      assert [] + buf == buf + [];
    } else {
      var all := buf + data[0];
      SplitFacts(all);
      NothingLost(Kept(all), data[1..]);
      Regroup(Out(all), Kept(all), Forwarded(Kept(all), data[1..]), Rest(Kept(all), data[1..]), Concat(data[1..]));
      Assoc(buf, data[0], Concat(data[1..]));
    }
  }

  lemma Assoc(a: Bytes, b: Bytes, c: Bytes)
    ensures (a + b) + c == a + (b + c)
  {
  }

  lemma Regroup(out: Bytes, kept: Bytes, later: Bytes, rest: Bytes, more: Bytes)
    requires later + rest == kept + more
    ensures (out + later) + rest == (out + kept) + more
  {
    Assoc(out, later, rest);
    Assoc(out, kept, more);
  }

  /** `n` bytes of `all` are forwarded: through the last blank line, or short of its third newline. */
  ghost predicate Reaches(all: Bytes, n: nat) {
    n == EventEnd(all) || (n + 1 == EventEnd(all) >= 3 && all[EventEnd(all) - 3] == NL)
  }

  lemma {:induction false} ForwardedLength(buf: Bytes, data: seq<Bytes>)
    requires EventEnd(buf) == 0
    ensures Reaches(buf + Concat(data), |Forwarded(buf, data)|)
    decreases |data|
  {
    SplitFacts(if data == [] then buf else buf + data[0]);
    if data == [] {
      assert buf + [] == buf;
    } else {
      ForwardedLength(Kept(buf + data[0]), data[1..]);
      OnePush(buf, data[0], Concat(data[1..]), |Forwarded(Kept(buf + data[0]), data[1..])|);
    }
  }

  lemma OnePush(buf: Bytes, d: Bytes, more: Bytes, n: nat)
    requires EventEnd(buf) == 0 && Reaches(Kept(buf + d) + more, n)
    ensures Reaches(buf + (d + more), |Out(buf + d)| + n)
  {
    var all := buf + d;
    SplitFacts(all);
    Assoc(buf, d, more);
    Assoc(Out(all), Kept(all), more);
    ReachesAcross(Out(all), Kept(all) + more, n);
  }

  /** Forwarding `a`, a run of whole events or nothing, and then `n` bytes of `b`. */
  lemma ReachesAcross(a: Bytes, b: Bytes, n: nat)
    requires a == [] || EventEnd(a) == |a| >= 2
    requires Reaches(b, n)
    ensures Reaches(a + b, |a| + n)
  {
    if a == [] {
      assert a + b == b;
    } else {
      var ea, eb, e := EventEnd(a), EventEnd(b), EventEnd(a + b);
      assert a[ea - 2] == NL;
      EventEndAcross(a, b);
      ReachesSeam(a, b, n, eb, e);
    }
  }

  lemma ReachesSeam(a: Bytes, b: Bytes, n: nat, eb: nat, e: nat)
    requires |a| >= 2 && a[|a| - 2] == NL && eb <= |b| && (eb > 0 ==> eb >= 2)
    requires n == eb || (n + 1 == eb >= 3 && b[eb - 3] == NL)
    requires e == if eb > 0 then |a| + eb else if b != [] && a[|a| - 1] == NL && b[0] == NL then |a| + 1 else |a|
    ensures |a| + n == e || (|a| + n + 1 == e >= 3 && e <= |a + b| && (a + b)[e - 3] == NL)
  {
  }

  /**
    Forwarding loses and reorders nothing: the pieces followed by the buffer are the bytes
    received.  Each piece ends in a blank line, the buffer holds none, and the pieces reach the
    last blank line received, save at most the third of three newlines.
  */
  lemma ForwardsWholeEvents(data: seq<Bytes>)
    ensures Concat(Pieces([], data)) + Rest([], data) == Concat(data)
    ensures EventEnd(Rest([], data)) == 0
    ensures forall p :: p in Pieces([], data) ==> p != [] && EventEnd(p) == |p|
    ensures Reaches(Concat(data), |Concat(Pieces([], data))|)
  {
    assert [] + Concat(data) == Concat(data);
    NothingLost([], data);
    ForwardedIs([], data);
    ForwardedLength([], data);
  }

  // ---- Does the cut into frames show? ----

  /** The last blank line is the end of three newlines or more. */
  predicate TripleAtEnd(all: Bytes) {
    EventEnd(all) >= 3 && all[EventEnd(all) - 3] == NL
  }

  lemma CutIndependent(data: seq<Bytes>)
    requires !TripleAtEnd(Concat(data))
    ensures Concat(Pieces([], data)) == Out(Concat(data))
  {
    var all, out := Concat(data), Concat(Pieces([], data));
    ForwardsWholeEvents(data);
    assert out == (out + Rest([], data))[..|out|] == all[..|out|];
  }

  /** A cut before the third newline holds that newline back. */
  lemma TripleDependsOnCut(all: Bytes) returns (data: seq<Bytes>)
    requires TripleAtEnd(all)
    ensures Concat(data) == all && Forwarded([], data) != Out(all)
  {
    var p := EventEnd(all);
    var a, b := all[..p - 1], all[p - 1..];
    data := [a, b];
    assert a + b == all;
    HeldBack(a, b);
    TwoPieces(a, b);
    OnlyTheFirst(a, b);
  }

  lemma HeldBack(a: Bytes, b: Bytes)
    requires |a| >= 2 && a[|a| - 2] == a[|a| - 1] == NL && EventEnd(a + b) == |a| + 1
    ensures EventEnd(a) == |a| && EventEnd(b) == 0
  {
    EventEndAcross(a, b);
  }

  lemma OnlyTheFirst(a: Bytes, b: Bytes)
    requires EventEnd(a) == |a| && EventEnd(b) == 0
    ensures Out(a) + Out(Kept(a) + b) == a
  {
    assert Kept(a) + b == b;
  }

  lemma TwoPieces(a: Bytes, b: Bytes)
    ensures Concat([a, b]) == a + b
    ensures Forwarded([], [a, b]) == Out(a) + Out(Kept(a) + b)
  {
    assert [a, b][1..] == [b] && [b][1..] == [];
    assert Concat([b]) == b + [] == b;
    assert [] + a == a;
    assert Forwarded(Kept(a), [b]) == Out(Kept(a) + b) + [] == Out(Kept(a) + b);
  }

  /** What is forwarded is the same for every cut exactly when the last blank line has just two newlines. */
  lemma CutIndependentIff(all: Bytes)
    ensures (forall data :: Concat(data) == all ==> Concat(Pieces([], data)) == Out(all)) <==> !TripleAtEnd(all)
  {
    if TripleAtEnd(all) {
      var data := TripleDependsOnCut(all);
      ForwardedIs([], data);
    } else {
      forall data | Concat(data) == all ensures Concat(Pieces([], data)) == Out(all) {
        CutIndependent(data);
      }
    }
  }

  // ---- The terminal event ----

  lemma {:induction false} LinesAppend(a: Bytes, b: Bytes)
    requires a != [] && a[|a| - 1] == NL
    ensures Lines(a)[|Lines(a)| - 1] == []
    ensures Lines(a + b) == Lines(a)[..|Lines(a)| - 1] + Lines(b)
  {
    if b == [] {
      assert a + b == a;
    } else {
      var n := |b| - 1;
      assert (a + b)[..|a + b| - 1] == a + b[..n];
      LinesAppend(a, b[..n]);
      GrowLast(Lines(a)[..|Lines(a)| - 1], Lines(b[..n]), b[n]);
    }
  }

  lemma HasDoneAppend(a: Bytes, b: Bytes)
    requires a == [] || a[|a| - 1] == NL
    ensures HasDone(a + b) <==> HasDone(a) || HasDone(b)
  {
    if a == [] {
      assert a + b == b;
      assert !IsDone([]);
      assert Lines(a) == [[]];
    } else {
      LinesAppend(a, b);
      var la := Lines(a);
      assert la == la[..|la| - 1] + [[]];
      assert !IsDone([]);
    }
  }

  function AnyDone(pieces: seq<Bytes>): bool {
    pieces != [] && (HasDone(pieces[0]) || AnyDone(pieces[1..]))
  }

  /** Seeing `[DONE]` in some piece is seeing it in the forwarded bytes. */
  lemma {:induction false} DoneInForwarded(pieces: seq<Bytes>)
    requires forall p :: p in pieces ==> p != [] && EventEnd(p) == |p|
    ensures AnyDone(pieces) <==> HasDone(Concat(pieces))
  {
    if pieces == [] {
      assert Lines([]) == [[]] && !IsDone([]);
    } else {
      assert pieces[0] in pieces;
      DoneInForwarded(pieces[1..]);
      HasDoneAppend(pieces[0], Concat(pieces[1..]));
    }
  }

  /** Whether the client was sent `[DONE]` depends on the bytes alone, not on how they were cut. */
  lemma DoneIsCutIndependent(data: seq<Bytes>)
    ensures AnyDone(Pieces([], data)) <==> HasDone(Out(Concat(data)))
  {
    var all, out := Concat(data), Concat(Pieces([], data));
    ForwardsWholeEvents(data);
    DoneInForwarded(Pieces([], data));
    assert out == (out + Rest([], data))[..|out|] == all[..|out|];
    NewlineShort(all, |out|);
  }

  lemma NewlineShort(all: Bytes, n: nat)
    requires Reaches(all, n)
    ensures HasDone(all[..n]) <==> HasDone(Out(all))
  {
    if n != EventEnd(all) {
      OneMoreNewline(all[..n]);
      assert Out(all) == all[..n] + [NL];
    }
  }

  lemma OneMoreNewline(s: Bytes)
    requires s != [] && s[|s| - 1] == NL
    ensures HasDone(s + [NL]) <==> HasDone(s)
  {
    HasDoneAppend(s, [NL]);
    assert [NL][..0] == [];
    assert Lines([NL]) == Lines([]) + [[]] == [[], []];
    assert !IsDone([]);
  }
}
