/**
  A forwarded stream from its first event to its end (src/coordinator.rs, `first_output` on an
  event stream and `StreamState::next_chunk`).
*/
module RoutedStream {
  import opened Wrappers
  import opened SseStream

  /** What the worker's body yields: data or trailers, then a clean close or an error. */
  datatype Frame = Data(bytes: Bytes) | Trailers
  datatype Ending = Closed | Failed

  // The JSON payload of the event sent when a worker is lost after output started.
  const ERROR_1: Bytes := [123, 34, 101, 114, 114, 111, 114, 34, 58, 123, 34, 109, 101, 115, 115, 97, 103, 101, 34,
                           58, 34, 116, 104, 101, 32, 119, 111, 114, 107]
  const ERROR_2: Bytes := [101, 114, 32, 115, 101, 114, 118, 105, 110, 103, 32, 116, 104, 105, 115, 32, 114, 101, 113,
                           117, 101, 115, 116, 32, 119, 97, 115, 32, 108]
  const ERROR_3: Bytes := [111, 115, 116, 32, 97, 102, 116, 101, 114, 32, 111, 117, 116, 112, 117, 116, 32, 115, 116,
                           97, 114, 116, 101, 100, 59, 32, 116, 104, 101]
  const ERROR_4: Bytes := [32, 114, 101, 115, 112, 111, 110, 115, 101, 32, 105, 115, 32, 105, 110, 99, 111, 109, 112,
                           108, 101, 116, 101, 34, 44, 34, 116, 121, 112]
  const ERROR_5: Bytes := [101, 34, 58, 34, 115, 101, 114, 118, 101, 114, 95, 101, 114, 114, 111, 114, 34, 44, 34,
                           112, 97, 114, 97, 109, 34, 58, 110, 117, 108]
  const ERROR_6: Bytes := [108, 44, 34, 99, 111, 100, 101, 34, 58, 34, 119, 111, 114, 107, 101, 114, 95, 108, 111,
                           115, 116, 34, 125, 125]

  const ERROR_BODY: Bytes := ERROR_1 + ERROR_2 + ERROR_3 + ERROR_4 + ERROR_5 + ERROR_6
  const MID_STREAM_ERROR: Bytes := DATA + [32] + ERROR_BODY + [NL, NL]

  function DataOf(frames: seq<Frame>): seq<Bytes> {
    if frames == [] then []
    else if frames[0].Data? then [frames[0].bytes] + DataOf(frames[1..])
    else DataOf(frames[1..])
  }

  /** The chunks still to come from the open body: its events, then the error event unless `[DONE]` was among them. */
  function Remaining(buf: Bytes, frames: seq<Frame>, done: bool): seq<Bytes> {
    var pieces := Pieces(buf, DataOf(frames));
    pieces + if done || AnyDone(pieces) then [] else [MID_STREAM_ERROR]
  }

  datatype Outcome = ClientDisconnected | Complete | WorkerLost

  class StreamState {
    const framer: SseFramer
    var first: Option<Bytes>
    var done: bool
    var events: nat
    var frames: seq<Frame>
    var open: bool
    var outcome: Outcome
    const ending: Ending
    /** The worker is taken out of rotation. */
    var unhealthy: bool

    /** Every chunk the client has yet to get. */
    ghost function Owed(): seq<Bytes>
      reads this, framer
    {
      (if first.Some? then [first.value] else [])
        + if open then Remaining(framer.buf, frames, done) else []
    }

    constructor (framer: SseFramer, first: Bytes, frames: seq<Frame>, ending: Ending)
      ensures this.framer == framer && this.first == Some(first) && this.frames == frames && open
      ensures done == HasDone(first) && outcome == ClientDisconnected && !unhealthy && events == 0
    {
      this.framer := framer;
      this.first := Some(first);
      done := HasDone(first);
      this.frames := frames;
      this.ending := ending;
      events, open, outcome, unhealthy := 0, true, ClientDisconnected, false;
    }

    /** Read frames until events complete; nothing when the body ends first. */
    method Pull() returns (r: Option<Bytes>)
      requires open
      modifies this`frames, this`done, this`events, framer
      ensures var left := old(Remaining(framer.buf, frames, done));
        && (r.Some? ==> left == [r.value] + Remaining(framer.buf, frames, done))
        && (r.None? ==> done == old(done) && left == if done then [] else [MID_STREAM_ERROR])
    {
      ghost var left := Remaining(framer.buf, frames, done);
      while frames != []
        invariant done == old(done)
        invariant Remaining(framer.buf, frames, done) == left
        decreases |frames|
      {
        r := ReadFrame();
        if r.Some? {
          return;
        }
      }
      r := None;
    }

    /** One frame of the body: events it completed, or nothing yet. */
    method ReadFrame() returns (r: Option<Bytes>)
      requires frames != []
      modifies this`frames, this`done, this`events, framer
      ensures frames == old(frames)[1..]
      ensures var left, now := old(Remaining(framer.buf, frames, done)), Remaining(framer.buf, frames, done);
        if r.Some? then left == [r.value] + now else left == now && done == old(done)
    {
      var frame := frames[0];
      RemainingStep(framer.buf, frames, done);
      frames := frames[1..];
      if frame.Trailers? {
        return None;
      }
      r := framer.Push(frame.bytes);
      if r.Some? {
        done := done || HasDone(r.value);
        events := events + 1;
      }
    }

    /** The next chunk owed, or nothing more. */
    method NextChunk() returns (chunk: Option<Bytes>)
      modifies this, framer
      ensures chunk == NextOf(old(Owed())) && Owed() == AfterNext(old(Owed()))
      ensures old(open) && !open ==> outcome == (if chunk.None? then Complete else WorkerLost)
      ensures old(open) && !open && outcome == WorkerLost ==> !done && chunk == Some(MID_STREAM_ERROR) && unhealthy
    {
      if first.Some? {
        chunk := first;
        first := None;
        events := events + 1;
        return;
      }
      if !open {
        return None;
      }
      assert Owed() == [] + Remaining(framer.buf, frames, done) == Remaining(framer.buf, frames, done);
      chunk := Pull();
      if chunk.Some? {
        assert Owed() == [] + Remaining(framer.buf, frames, done) == Remaining(framer.buf, frames, done);
        return;
      }
      open := false;
      if done {
        outcome := Complete;
        return None;
      }
      outcome, unhealthy := WorkerLost, true;
      return Some(MID_STREAM_ERROR);
    }
  }

  function NextOf(owed: seq<Bytes>): Option<Bytes> {
    if owed == [] then None else Some(owed[0])
  }

  function AfterNext(owed: seq<Bytes>): seq<Bytes> {
    if owed == [] then [] else owed[1..]
  }

  /** One frame of the body: its events, if any, come first and the rest follows. */
  lemma RemainingStep(buf: Bytes, frames: seq<Frame>, done: bool)
    requires frames != []
    ensures frames[0].Trailers? ==> Remaining(buf, frames, done) == Remaining(buf, frames[1..], done)
    ensures frames[0].Data? ==>
      var all := buf + frames[0].bytes;
      Remaining(buf, frames, done) ==
        if EventEnd(all) == 0 then Remaining(all[EventEnd(all)..], frames[1..], done)
        else [all[..EventEnd(all)]]
             + Remaining(all[EventEnd(all)..], frames[1..], done || HasDone(all[..EventEnd(all)]))
  {
    if frames[0].Data? {
      var all, rest := buf + frames[0].bytes, DataOf(frames[1..]);
      assert DataOf(frames)[1..] == rest;
      var later := Pieces(Kept(all), rest);
      assert ([Out(all)] + later)[1..] == later;
    }
  }

  /** The streaming half of a worker's first output: wait for the first whole event. */
  method FirstEvents(frames: seq<Frame>, ending: Ending) returns (r: Option<StreamState>, unhealthy: bool)
    ensures r.None? <==> Pieces([], DataOf(frames)) == []
    ensures r.None? ==> unhealthy == (ending == Failed)
    ensures r.Some? ==> fresh(r.value) && fresh(r.value.framer)
    ensures r.Some? ==> r.value.Owed() == Remaining([], frames, false)
  {
    var framer := new SseFramer();
    var left := frames;
    while left != []
      invariant fresh(framer)
      invariant Remaining(framer.buf, left, false) == Remaining([], frames, false)
      invariant Pieces(framer.buf, DataOf(left)) == Pieces([], DataOf(frames))
      decreases |left|
    {
      var frame := left[0];
      RemainingStep(framer.buf, left, false);
      PiecesStep(framer.buf, left);
      left := left[1..];
      if frame.Data? {
        var out := framer.Push(frame.bytes);
        if out.Some? {
          var state := new StreamState(framer, out.value, left, ending);
          return Some(state), false;
        }
      }
    }
    return None, ending == Failed;
  }

  lemma PiecesStep(buf: Bytes, frames: seq<Frame>)
    requires frames != []
    ensures frames[0].Trailers? ==> Pieces(buf, DataOf(frames)) == Pieces(buf, DataOf(frames[1..]))
    ensures frames[0].Data? ==>
      var all := buf + frames[0].bytes;
      && (EventEnd(all) == 0 ==> Pieces(buf, DataOf(frames)) == Pieces(all[EventEnd(all)..], DataOf(frames[1..])))
      && (EventEnd(all) > 0 ==> Pieces(buf, DataOf(frames)) != [])
  {
    if frames[0].Data? {
      assert DataOf(frames)[1..] == DataOf(frames[1..]);
    }
  }

  /**
    A whole attempt: nothing at all when no event was completed (the attempt may be retried), else
    the events as they completed and one error event exactly when `[DONE]` was not among them.
  */
  function Served(frames: seq<Frame>): seq<Bytes> {
    var pieces := Pieces([], DataOf(frames));
    if pieces == [] then [] else pieces + if AnyDone(pieces) then [] else [MID_STREAM_ERROR]
  }

  method Serve(frames: seq<Frame>, ending: Ending) returns (out: seq<Bytes>)
    ensures out == Served(frames)
  {
    var state, _ := FirstEvents(frames, ending);
    out := [];
    if state.None? {
      return;
    }
    out := Drain(state.value);
  }

  /** The client reads until the stream ends. */
  method Drain(s: StreamState) returns (out: seq<Bytes>)
    modifies s, s.framer
    ensures out == old(s.Owed())
  {
    out := [];
    ghost var owed := s.Owed();
    var chunk := s.NextChunk();
    ghost var left := AfterNext(owed);
    while chunk.Some?
      invariant s.Owed() == left
      invariant owed == if chunk.Some? then out + [chunk.value] + left else out
      decreases |owed| - |out|
    {
      out := out + [chunk.value];
      Regrouped(out, left);
      left := AfterNext(left);
      chunk := s.NextChunk();
    }
  }

  lemma Regrouped(out: seq<Bytes>, left: seq<Bytes>)
    ensures out + left == if left == [] then out else out + [left[0]] + left[1..]
  {
  }

  // ---- The error event ----

  lemma {:induction false} OneLine(s: Bytes)
    requires forall i :: 0 <= i < |s| ==> s[i] != NL
    ensures Lines(s) == [s]
  {
    if s != [] {
      var init := s[..|s| - 1];
      OneLine(init);
      assert init + [s[|s| - 1]] == s;
      assert Lines(init)[..0] + [s] == [s];
    }
  }

  lemma NewlineEndsLine(s: Bytes)
    ensures Lines(s + [NL]) == Lines(s) + [[]]
  {
    assert (s + [NL])[..|s|] == s;
  }

  /** A line and a blank line hold that line and nothing else. */
  lemma OneEvent(line: Bytes, event: Bytes, x: Bytes)
    requires forall i :: 0 <= i < |line| ==> line[i] != NL
    requires event == line + [NL] + [NL] && x in Lines(event)
    ensures x == line || x == []
  {
    OneLine(line);
    NewlineEndsLine(line);
    NewlineEndsLine(line + [NL]);
  }

  lemma NoNewline1()
    ensures forall i :: 0 <= i < |ERROR_1| ==> ERROR_1[i] != NL
  {
  }

  lemma NoNewline2()
    ensures forall i :: 0 <= i < |ERROR_2| ==> ERROR_2[i] != NL
  {
  }

  lemma NoNewline3()
    ensures forall i :: 0 <= i < |ERROR_3| ==> ERROR_3[i] != NL
  {
  }

  lemma NoNewline4()
    ensures forall i :: 0 <= i < |ERROR_4| ==> ERROR_4[i] != NL
  {
  }

  lemma NoNewline5()
    ensures forall i :: 0 <= i < |ERROR_5| ==> ERROR_5[i] != NL
  {
  }

  lemma NoNewline6()
    ensures forall i :: 0 <= i < |ERROR_6| ==> ERROR_6[i] != NL
  {
  }

  lemma ErrorHasNoNewline()
    ensures forall i :: 0 <= i < |ERROR_BODY| ==> ERROR_BODY[i] != NL
  {
    NoNewline1();
    NoNewline2();
    NoNewline3();
    NoNewline4();
    NoNewline5();
    NoNewline6();
  }

  lemma {:induction false} TrimEndPrefix(s: Bytes)
    ensures TrimEnd(s) <= s
  {
    if s != [] && IsSpace(s[|s| - 1]) {
      TrimEndPrefix(s[..|s| - 1]);
    }
  }

  /** A data line holding an object is not the terminal one. */
  lemma ObjectIsNotDone(value: Bytes)
    requires value != [] && value[0] == 123 && value[|value| - 1] != CR
    ensures !IsDone(DATA + [32] + value)
  {
    var line := DATA + [32] + value;
    assert line[|DATA|..] == [32] + value && ([32] + value)[1..] == value;
    assert TrimStart([32] + value) == TrimStart(value) == value;
    TrimEndPrefix(value);
    assert DONE[0] != value[0];
  }

  /** The error event is one whole event and does not look like `[DONE]`. */
  lemma ErrorIsNotDone()
    ensures EventEnd(MID_STREAM_ERROR) == |MID_STREAM_ERROR|
    ensures !HasDone(MID_STREAM_ERROR)
  {
    var line := DATA + [32] + ERROR_BODY;
    ErrorHasNoNewline();
    assert MID_STREAM_ERROR == line + [NL] + [NL];
    assert MID_STREAM_ERROR[|MID_STREAM_ERROR| - 2] == NL && MID_STREAM_ERROR[|MID_STREAM_ERROR| - 1] == NL;
    ObjectIsNotDone(ERROR_BODY);
    assert !IsDone([]);
    forall x | x in Lines(MID_STREAM_ERROR) ensures !IsDone(x) {
      OneEvent(line, MID_STREAM_ERROR, x);
    }
  }

  lemma {:induction false} ConcatSnoc(a: seq<Bytes>, b: Bytes)
    ensures Concat(a + [b]) == Concat(a) + b
  {
    if a == [] {
      assert a + [b] == [b] && [b][1..] == [];
      assert Concat([b]) == b + [];
    } else {
      assert (a + [b])[1..] == a[1..] + [b];
      ConcatSnoc(a[1..], b);
      Assoc(a[0], Concat(a[1..]), b);
    }
  }

  /** Whatever the client was sent holds `[DONE]` exactly when it does not end in the error event. */
  lemma DoneOrError(frames: seq<Frame>)
    ensures var pieces := Pieces([], DataOf(frames));
      HasDone(Concat(Remaining([], frames, false))) <==> AnyDone(pieces)
  {
    ForwardsWholeEvents(DataOf(frames));
    DoneOrErrorAfter(Pieces([], DataOf(frames)));
  }

  lemma DoneOrErrorAfter(pieces: seq<Bytes>)
    requires forall p :: p in pieces ==> p != [] && EventEnd(p) == |p|
    ensures HasDone(Concat(pieces + if AnyDone(pieces) then [] else [MID_STREAM_ERROR])) <==> AnyDone(pieces)
  {
    DoneInForwarded(pieces);
    if AnyDone(pieces) {
      assert pieces + [] == pieces;
    } else {
      ErrorIsNotDone();
      NotDoneAppend(pieces, MID_STREAM_ERROR);
    }
  }

  lemma NotDoneAppend(pieces: seq<Bytes>, e: Bytes)
    requires forall p :: p in pieces ==> p != [] && EventEnd(p) == |p|
    requires !HasDone(e)
    ensures HasDone(Concat(pieces + [e])) <==> HasDone(Concat(pieces))
  {
    ConcatSnoc(pieces, e);
    EndsInNewline(pieces);
    HasDoneAppend(Concat(pieces), e);
  }

  lemma {:induction false} EndsInNewline(pieces: seq<Bytes>)
    requires forall p :: p in pieces ==> p != [] && EventEnd(p) == |p|
    ensures Concat(pieces) == [] || Concat(pieces)[|Concat(pieces)| - 1] == NL
  {
    if pieces != [] {
      assert pieces[0] in pieces;
      EndsInNewline(pieces[1..]);
    }
  }

  /**
    What is sent of the bytes received.  They are `body` and `rest`: `body` is whole events, `rest`
    holds no blank line.  Without a whole event nothing is sent; otherwise `body` is, and behind it
    the error event exactly when `body` has no `[DONE]` line.
  */
  ghost predicate Sends(all: Bytes, body: Bytes, rest: Bytes, out: seq<Bytes>) {
    && body + rest == all && (forall i: nat :: !BlankAt(rest, i))
    && (body == [] || (|body| >= 2 && body[|body| - 2] == NL && body[|body| - 1] == NL))
    && if body == [] then out == [] else Concat(out) == body + if HasDone(body) then [] else MID_STREAM_ERROR
  }

  lemma ServedBytes(frames: seq<Frame>) returns (body: Bytes, rest: Bytes)
    ensures Sends(Concat(DataOf(frames)), body, rest, Served(frames))
  {
    body, rest := Concat(Pieces([], DataOf(frames))), Rest([], DataOf(frames));
    ForwardsWholeEvents(DataOf(frames));
    SendsPieces(Pieces([], DataOf(frames)), Concat(DataOf(frames)), rest);
  }

  lemma SendsPieces(pieces: seq<Bytes>, all: Bytes, rest: Bytes)
    requires forall p :: p in pieces ==> p != [] && EventEnd(p) == |p|
    requires Concat(pieces) + rest == all && EventEnd(rest) == 0
    ensures Sends(all, Concat(pieces), rest,
                  if pieces == [] then [] else pieces + if AnyDone(pieces) then [] else [MID_STREAM_ERROR])
  {
    EndsInBlank(pieces);
    SentAfter(pieces);
    NoBlank(rest);
  }

  lemma SentAfter(pieces: seq<Bytes>)
    requires forall p :: p in pieces ==> p != [] && EventEnd(p) == |p|
    ensures var body := Concat(pieces);
      Concat(pieces + if AnyDone(pieces) then [] else [MID_STREAM_ERROR])
        == body + if HasDone(body) then [] else MID_STREAM_ERROR
  {
    DoneInForwarded(pieces);
    if AnyDone(pieces) {
      assert pieces + [] == pieces;
    } else {
      ConcatSnoc(pieces, MID_STREAM_ERROR);
    }
  }

  lemma NoBlank(rest: Bytes)
    requires EventEnd(rest) == 0
    ensures forall i: nat :: !BlankAt(rest, i)
  {
    forall i: nat | BlankAt(rest, i) ensures false {
      EventEndIsLast(rest, i);
    }
  }

  lemma {:induction false} EndsInBlank(pieces: seq<Bytes>)
    requires forall p :: p in pieces ==> p != [] && EventEnd(p) == |p|
    ensures var body := Concat(pieces);
      if pieces == [] then body == [] else |body| >= 2 && body[|body| - 2] == NL && body[|body| - 1] == NL
  {
    if pieces != [] {
      assert pieces[0] in pieces;
      EndsInBlank(pieces[1..]);
    }
  }
}
