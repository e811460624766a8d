/**
  What the search for the terminal event finds (src/coordinator.rs, `has_done_event`), said
  without the splitting and trimming it works by.
*/
module SseLines {
  import opened SseStream

  /** ASCII white space only: tab, line feed, form feed, carriage return and space. */
  ghost predicate Blank(s: Bytes) {
    forall i :: 0 <= i < |s| ==> s[i] in {9, 10, 12, 13, 32}
  }

  // ---- Trimming ----

  lemma {:induction false} TrimStartDrops(a: Bytes, s: Bytes)
    requires Blank(a)
    ensures TrimStart(a + s) == TrimStart(s)
  {
    if a == [] {
      assert a + s == s;
    } else {
      assert (a + s)[1..] == a[1..] + s;
      TrimStartDrops(a[1..], s);
    }
  }

  lemma {:induction false} TrimEndDrops(s: Bytes, b: Bytes)
    requires Blank(b)
    ensures TrimEnd(s + b) == TrimEnd(s)
  {
    if b == [] {
      assert s + b == s;
    } else {
      var n := |b| - 1;
      assert (s + b)[..|s + b| - 1] == s + b[..n];
      TrimEndDrops(s, b[..n]);
    }
  }

  lemma {:induction false} TrimStartLeaves(s: Bytes) returns (a: Bytes)
    ensures Blank(a) && s == a + TrimStart(s)
  {
    if s != [] && IsSpace(s[0]) {
      a := TrimStartLeaves(s[1..]);
      a := [s[0]] + a;
    } else {
      a := [];
    }
  }

  lemma {:induction false} TrimEndLeaves(s: Bytes) returns (b: Bytes)
    ensures Blank(b) && s == TrimEnd(s) + b
  {
    if s != [] && IsSpace(s[|s| - 1]) {
      b := TrimEndLeaves(s[..|s| - 1]);
      b := b + [s[|s| - 1]];
    } else {
      b := [];
    }
  }

  // ---- The terminal line ----

  /** `data:`, blanks, `[DONE]`, blanks; a closing carriage return is one of the blanks. */
  ghost predicate DoneLine(line: Bytes, a: Bytes, b: Bytes) {
    Blank(a) && Blank(b) && line == DATA + a + DONE + b
  }

  lemma TrimmedIsDone(a: Bytes, b: Bytes)
    requires Blank(a) && Blank(b)
    ensures TrimEnd(TrimStart(a + DONE + b)) == DONE
  {
    assert a + DONE + b == a + (DONE + b);
    TrimStartDrops(a, DONE + b);
    assert (DONE + b)[0] == DONE[0];
    TrimEndDrops(DONE, b);
  }

  lemma LineIsDone(line: Bytes, a: Bytes, b: Bytes)
    requires DoneLine(line, a, b)
    ensures IsDone(line)
  {
    if b != [] && b[|b| - 1] == CR {
      var rest := b[..|b| - 1];
      assert line[..|line| - 1] == DATA + (a + DONE + rest);
      TrimmedIsDone(a, rest);
    } else {
      assert line == DATA + (a + DONE + b);
      assert line[|line| - 1] == (DONE + b)[|DONE + b| - 1];
      TrimmedIsDone(a, b);
    }
  }

  lemma Untrimmed(l: Bytes) returns (a: Bytes, b: Bytes)
    requires DATA <= l && TrimEnd(TrimStart(l[|DATA|..])) == DONE
    ensures DoneLine(l, a, b)
  {
    var value := l[|DATA|..];
    a := TrimStartLeaves(value);
    b := TrimEndLeaves(TrimStart(value));
    assert value == a + DONE + b && l == DATA + value;
  }

  lemma DoneIsLine(line: Bytes) returns (a: Bytes, b: Bytes)
    requires IsDone(line)
    ensures DoneLine(line, a, b)
  {
    if line[|line| - 1] == CR {
      var l := line[..|line| - 1];
      a, b := Untrimmed(l);
      assert line == DATA + a + DONE + (b + [CR]);
      b := b + [CR];
    } else {
      a, b := Untrimmed(line);
    }
  }

  /** A line ends the stream exactly when it is `data:` and `[DONE]` with blanks between and behind. */
  lemma DoneIff(line: Bytes)
    ensures IsDone(line) <==> exists a, b :: DoneLine(line, a, b)
  {
    if IsDone(line) {
      var a, b := DoneIsLine(line);
    }
    if a, b :| DoneLine(line, a, b) {
      LineIsDone(line, a, b);
    }
  }

  // ---- The lines ----

  /** The lines with a newline between each two. */
  function Join(lines: seq<Bytes>): Bytes
    requires lines != []
  {
    if |lines| == 1 then lines[0] else Join(lines[..|lines| - 1]) + [NL] + lines[|lines| - 1]
  }

  ghost predicate NoNewlines(lines: seq<Bytes>) {
    forall line :: line in lines ==> NL !in line
  }

  /** The bytes cut at every newline. */
  ghost predicate IsCut(events: Bytes, lines: seq<Bytes>) {
    lines != [] && NoNewlines(lines) && Join(lines) == events
  }

  lemma LinesSnoc(s: Bytes, b: byte)
    ensures Lines(s + [b]) == Grow(Lines(s), b)
  {
    assert (s + [b])[..|s|] == s;
  }

  lemma GrowCut(s: Bytes, lines: seq<Bytes>, b: byte, grown: seq<Bytes>)
    requires IsCut(s, lines) && grown == Grow(lines, b)
    ensures IsCut(s + [b], grown)
  {
    var n := |lines| - 1;
    assert lines[n] in lines;
    if b == NL {
      assert grown[..|grown| - 1] == lines;
    } else {
      assert grown[..n] == lines[..n];
    }
  }

  /** The lines joined again are the bytes, and no line holds a newline. */
  lemma {:induction false} LinesAreCut(s: Bytes)
    ensures IsCut(s, Lines(s))
  {
    if s == [] {
      assert Lines(s) == [[]];
    } else {
      var init, b := s[..|s| - 1], s[|s| - 1];
      assert s == init + [b];
      LinesAreCut(init);
      LinesSnoc(init, b);
      GrowCut(init, Lines(init), b, Lines(s));
    }
  }

  lemma {:induction false} GrowAll(before: seq<Bytes>, s: Bytes, line: Bytes)
    requires NL !in line && Lines(s) == before + [[]]
    ensures Lines(s + line) == before + [line]
  {
    if line == [] {
      assert s + line == s;
    } else {
      var n := |line| - 1;
      assert s + line == s + line[..n] + [line[n]];
      GrowAll(before, s, line[..n]);
      LinesSnoc(s + line[..n], line[n]);
      GrowLast(before, [line[..n]], line[n]);
      assert line[..n] + [line[n]] == line;
    }
  }

  /** They are the only such lines. */
  lemma {:induction false} CutIsLines(s: Bytes, lines: seq<Bytes>)
    requires IsCut(s, lines)
    ensures lines == Lines(s)
    decreases |lines|
  {
    var n := |lines| - 1;
    var init := lines[..n];
    assert lines[n] in lines && lines == init + [lines[n]];
    if n == 0 {
      GrowAll([], [], lines[0]);
      assert [] + lines[0] == lines[0];
    } else {
      CutIsLines(Join(init), init);
      var before := Join(init) + [NL];
      assert before[..|before| - 1] == Join(init);
      GrowAll(init, before, lines[n]);
    }
  }

  /** The stream's end is seen exactly when one of the newline-separated lines is a terminal one. */
  lemma HasDoneIff(events: Bytes)
    ensures HasDone(events) <==>
      exists lines, i, a, b :: IsCut(events, lines) && 0 <= i < |lines| && DoneLine(lines[i], a, b)
  {
    LinesAreCut(events);
    if HasDone(events) {
      var line :| line in Lines(events) && IsDone(line);
      var i :| 0 <= i < |Lines(events)| && Lines(events)[i] == line;
      var a, b := DoneIsLine(line);
    }
    if lines, i, a, b :| IsCut(events, lines) && 0 <= i < |lines| && DoneLine(lines[i], a, b) {
      CutIsLines(events, lines);
      LineIsDone(lines[i], a, b);
      assert lines[i] in Lines(events);
    }
  }
}
