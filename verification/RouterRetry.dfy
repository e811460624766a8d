/**
  The retry policy of one request (src/coordinator.rs, `route` over `acquire`, `forward` and
  `first_output`).  What the network and the workers do is an input.
*/
module RouterRetry {
  import opened Sequences
  import opened SseStream
  import opened RoutedStream
  import RouterPick

  /** Transcriptions are picked for by the audio scan, every other path by the general one. */
  datatype Kind = Plain(path: RouterPick.Path) | Transcriptions

  // ---- Getting a slot ----

  /** Why a request was turned away. */
  datatype Refusal = Unpicked(reason: RouterPick.Reject) | QueueFull | QueueTimeout | AllRefused

  /** How the wait for a slot ended: with an answer of the pick, without a place, or too late. */
  datatype Wait =
    | Picked(scan: RouterPick.Scan, pick: RouterPick.Pick)
    | Heard(audio: RouterPick.AudioScan, pick: RouterPick.Pick)
    | NoPlace
    | TooLate

  /** The answer of a pick over these `n` workers that left out the ones tried. */
  ghost predicate Honest(kind: Kind, n: nat, tried: seq<nat>, w: Wait) {
    match w
    case Picked(scan, pick) =>
      && kind.Plain? && scan.Valid() && |scan.workers| == n && scan.tried == Elements(tried)
      && RouterPick.Answers(scan, pick) && !pick.Busy?
    case Heard(audio, pick) =>
      && kind.Transcriptions? && audio.Valid() && |audio.workers| == n && audio.tried == Elements(tried)
      && RouterPick.AudioAnswers(audio, pick) && !pick.Busy?
    case _ => true
  }

  datatype Acquired = Slot(index: nat) | Rejected(reason: Refusal)

  function Acquire(w: Wait): Acquired
    requires (w.Picked? || w.Heard?) ==> !w.pick.Busy?
  {
    if w.NoPlace? then Rejected(QueueFull)
    else if w.TooLate? then Rejected(QueueTimeout)
    else if w.pick.Slot? then Slot(w.pick.index)
    else Rejected(Unpicked(w.pick.reason))
  }

  /** A slot is on a worker that was not tried. */
  lemma SlotIsUntried(kind: Kind, n: nat, tried: seq<nat>, w: Wait)
    requires Honest(kind, n, tried, w) && Acquire(w).Slot?
    ensures Acquire(w).index < n && Acquire(w).index !in tried
  {
    if w.Picked? {
      RouterPick.PickedIsUntried(w.scan, w.pick.index, w.pick.model);
    } else {
      RouterPick.AudioIsUntried(w.audio, w.pick.index, w.pick.model);
    }
  }

  // ---- One attempt ----

  /** Everything the coordinator can observe of one forwarded attempt. */
  datatype Attempt =
    | Insecure                                          // the endpoint is not a loopback one
    | NotSent                                           // connecting failed
    | LostAfterSend                                     // the request may have reached the worker
    | TimedOut                                          // no first output within the deadline
    | Refused(code: nat, body: Bytes)                   // a non-success status
    | Whole(body: Bytes)                                // a complete non-streaming response
    | TooLarge                                          // ... larger than the buffer limit
    | WholeLost                                         // ... lost while reading it
    | JobStream                                         // a job worker answered with a stream
    | Streamed(frames: seq<Frame>, ending: Ending)

  datatype Class = Answered | Retry(admission: bool, safe: bool)

  /** How the attempt is classed. */
  function Classify(a: Attempt): Class {
    match a
    case NotSent => Retry(false, true)
    case LostAfterSend => Retry(false, false)
    case Refused(code, _) => if code == 503 then Retry(true, true) else Answered
    case WholeLost => Retry(false, false)
    case Streamed(frames, _) => if Pieces([], DataOf(frames)) == [] then Retry(false, false) else Answered
    case _ => Answered
  }

  /** A piece of the client's response: the worker's bytes, or an error of the coordinator's own. */
  datatype Chunk = Relayed(bytes: Bytes) | Notice

  function Relay(chunks: seq<Bytes>): seq<Chunk> {
    seq(|chunks|, i requires 0 <= i < |chunks| => Relayed(chunks[i]))
  }

  /** What the client gets of an attempt. */
  function Delivered(a: Attempt): seq<Chunk> {
    match a
    case NotSent => []
    case LostAfterSend => []
    case WholeLost => []
    case Refused(code, body) =>
      if code == 503 then [] else if code == 401 || code == 403 then [Notice] else [Relayed(body)]
    case Whole(body) => [Relayed(body)]
    case Streamed(frames, _) => Relay(Served(frames))
    case _ => [Notice]
  }

  /** The worker may have run the request: it was sent, and not refused admission. */
  predicate MayHaveExecuted(a: Attempt) {
    !a.Insecure? && !a.NotSent? && !(a.Refused? && a.code == 503)
  }

  predicate AdmissionRefused(a: Attempt) {
    a.Refused? && a.code == 503
  }

  /**
    An attempt is retried exactly when the client got nothing of it, and the retry is marked safe
    exactly when the worker cannot have run the request.
  */
  lemma RetriedIffNothingDelivered(a: Attempt)
    ensures Classify(a).Retry? <==> Delivered(a) == []
    ensures Classify(a).Retry? ==> (Classify(a).safe <==> !MayHaveExecuted(a))
    ensures Classify(a).Retry? ==> (Classify(a).admission <==> AdmissionRefused(a))
  {
    if a.Streamed? {
      var pieces := Pieces([], DataOf(a.frames));
      assert pieces != [] ==> |Served(a.frames)| >= |pieces| > 0;
      assert |Relay(Served(a.frames))| == |Served(a.frames)|;
    }
  }

  /** The client's side of the response. */
  class Client {
    var received: seq<Chunk>

    constructor ()
      ensures received == []
    {
      received := [];
    }

    method Send(c: Chunk)
      modifies this
      ensures received == old(received) + [c]
    {
      received := received + [c];
    }

    method SendAll(chunks: seq<Bytes>)
      modifies this
      ensures received == old(received) + Relay(chunks)
    {
      for i := 0 to |chunks|
        invariant received == old(received) + Relay(chunks)[..i]
      {
        Send(Relayed(chunks[i]));
      }
    }
  }

  /**
    Forward one attempt.  A stream is classed by whether its first event arrives, and the client
    reads it to its end; a retry leaves the client with nothing.
  */
  method ForwardOnce(a: Attempt, client: Client) returns (how: Class)
    modifies client
    ensures how == Classify(a)
    ensures client.received == old(client.received) + Delivered(a)
    ensures how.Retry? ==> client.received == old(client.received)
    ensures a.Whole? || (a.Refused? && a.code !in {401, 403, 503}) ==>
      client.received == old(client.received) + [Relayed(a.body)]
    ensures a.Insecure? || a.TimedOut? || a.TooLarge? || a.JobStream? || (a.Refused? && a.code in {401, 403}) ==>
      client.received == old(client.received) + [Notice]
  {
    RetriedIffNothingDelivered(a);
    match a
    case NotSent => how := Retry(false, true);
    case LostAfterSend => how := Retry(false, false);
    case WholeLost => how := Retry(false, false);
    case Refused(code, body) =>
      if code == 503 {
        return Retry(true, true);
      }
      client.Send(if code == 401 || code == 403 then Notice else Relayed(body));
      how := Answered;
    case Whole(body) =>
      client.Send(Relayed(body));
      how := Answered;
    case Streamed(frames, ending) =>
      how := ForwardStream(frames, ending, client);
    case _ =>
      client.Send(Notice);
      how := Answered;
  }

  method ForwardStream(frames: seq<Frame>, ending: Ending, client: Client) returns (how: Class)
    modifies client
    ensures how.Answered? <==> Pieces([], DataOf(frames)) != []
    ensures how.Retry? ==> how == Retry(false, false)
    ensures client.received == old(client.received) + Relay(Served(frames))
  {
    var state, _ := FirstEvents(frames, ending);
    if state.None? {
      return Retry(false, false);
    }
    var out := Drain(state.value);
    client.SendAll(out);
    how := Answered;
  }

  // ---- The loop ----

  predicate OnlyIfSafe(kind: Kind) {
    kind.Transcriptions? || kind.path.Embeddings?
  }

  datatype Answer = FromWorker(index: nat, attempt: Attempt) | Turned(reason: Refusal)

  /** A forwarded attempt and the worker it went to. */
  datatype Forward = Forward(index: nat, attempt: Attempt)

  ghost predicate AllAdmission(log: seq<Forward>) {
    forall i :: 0 <= i < |log| ==> AdmissionRefused(log[i].attempt)
  }

  function Tried(log: seq<Forward>): seq<nat> {
    seq(|log|, i requires 0 <= i < |log| => log[i].index)
  }

  predicate NoWorkerLeft(r: Refusal) {
    r == Unpicked(RouterPick.Exhausted) || r == Unpicked(RouterPick.Unavailable)
  }

  /** The answer when no slot is had: about the attempts made, once there were any. */
  ghost function Refusing(log: seq<Forward>, r: Refusal): Refusal {
    if NoWorkerLeft(r) && log != [] then
      if AllAdmission(log) then AllRefused else Unpicked(RouterPick.Exhausted)
    else r
  }

  /** The attempt ended the request. */
  predicate Stops(kind: Kind, a: Attempt) {
    Classify(a).Answered? || (OnlyIfSafe(kind) && !Classify(a).safe)
  }

  /** Nothing of the attempt reached the client, and no embedding or transcription may have run. */
  ghost predicate Harmless(kind: Kind, a: Attempt) {
    && Delivered(a) == []
    && (kind == Transcriptions || kind == Plain(RouterPick.Embeddings) ==> !MayHaveExecuted(a))
  }

  lemma RetriedIsHarmless(kind: Kind, a: Attempt)
    requires !Stops(kind, a)
    ensures Harmless(kind, a)
  {
    RetriedIffNothingDelivered(a);
  }

  /** The forwards of one request: at most one a worker, each with what happened on it. */
  ghost predicate Sent(log: seq<Forward>, n: nat, forward: (nat, nat) -> Attempt) {
    && |log| <= n
    && (forall i, j :: 0 <= i < j < |log| ==> log[i].index != log[j].index)
    && (forall i :: 0 <= i < |log| ==> log[i].index < n && log[i].attempt == forward(i, log[i].index))
  }

  /**
    Route one request over `n` workers.  `wait` is how the wait for a slot ends after the workers
    tried so far, `forward` what happens on a worker at an attempt.  The client gets what the last
    attempt delivered or one notice, and nothing of any attempt before; no embedding or
    transcription may run twice; a chat or completion is only turned away for want of a slot.
  */
  method Route(kind: Kind, n: nat, wait: seq<nat> -> Wait, forward: (nat, nat) -> Attempt, client: Client)
    returns (answer: Answer, log: seq<Forward>)
    requires forall tried: seq<nat> :: Honest(kind, n, tried, wait(tried))
    modifies client
    ensures Sent(log, n, forward)
    ensures forall i :: 0 <= i < |log| - 1 ==> !Stops(kind, log[i].attempt)
    ensures answer.FromWorker? ==>
      log != [] && var last := log[|log| - 1];
      answer == FromWorker(last.index, last.attempt) && Classify(last.attempt).Answered?
    ensures answer.Turned? && log != [] && Stops(kind, log[|log| - 1].attempt) ==>
      answer == Turned(Unpicked(RouterPick.Exhausted)) && Classify(log[|log| - 1].attempt).Retry?
    ensures answer.Turned? && (log == [] || !Stops(kind, log[|log| - 1].attempt)) ==>
      Honest(kind, n, Tried(log), wait(Tried(log))) && var slot := Acquire(wait(Tried(log)));
      slot.Rejected? && answer == Turned(Refusing(log, slot.reason))
    ensures forall i :: 0 <= i < |log| - 1 ==> Harmless(kind, log[i].attempt)
    ensures answer.Turned? && (kind == Plain(RouterPick.Chat) || kind == Plain(RouterPick.Completions)) ==>
      Honest(kind, n, Tried(log), wait(Tried(log))) && Acquire(wait(Tried(log))).Rejected?
    ensures answer == Turned(AllRefused) ==> log != [] && AllAdmission(log)
    ensures client.received == old(client.received) + if answer.FromWorker? then Delivered(answer.attempt) else [Notice]
  {
    log := [];
    var tried: seq<nat> := [];
    var onlyAdmission := true;
    while true
      invariant tried == Tried(log) && Sent(log, n, forward)
      invariant onlyAdmission == AllAdmission(log)
      invariant forall i :: 0 <= i < |log| ==> !Stops(kind, log[i].attempt)
      invariant forall i :: 0 <= i < |log| ==> Harmless(kind, log[i].attempt)
      invariant client.received == old(client.received)
      decreases n - |log|
    {
      assert Honest(kind, n, tried, wait(tried));
      var slot := Acquire(wait(tried));
      if slot.Rejected? {
        var reason := slot.reason;
        if NoWorkerLeft(reason) && tried != [] {
          reason := if onlyAdmission then AllRefused else Unpicked(RouterPick.Exhausted);
        }
        client.Send(Notice);
        return Turned(reason), log;
      }
      SlotIsUntried(kind, n, tried, wait(tried));
      var attempt := forward(|log|, slot.index);
      SentOneMore(log, slot.index, n, forward);
      AdmissionAppend(log, Forward(slot.index, attempt));
      log := log + [Forward(slot.index, attempt)];
      var how := ForwardOnce(attempt, client);
      RetriedIffNothingDelivered(attempt);
      match how
      case Answered => return FromWorker(slot.index, attempt), log;
      case Retry(admission, safe) =>
        if OnlyIfSafe(kind) && !safe {
          client.Send(Notice);
          return Turned(Unpicked(RouterPick.Exhausted)), log;
        }
        RetriedIsHarmless(kind, attempt);
        onlyAdmission := onlyAdmission && admission;
        tried := tried + [slot.index];
    }
  }

  lemma SentOneMore(log: seq<Forward>, x: nat, n: nat, forward: (nat, nat) -> Attempt)
    requires Sent(log, n, forward) && x < n && x !in Tried(log)
    ensures Sent(log + [Forward(x, forward(|log|, x))], n, forward)
    ensures Tried(log + [Forward(x, forward(|log|, x))]) == Tried(log) + [x]
  {
    var tried := Tried(log);
    assert forall i :: 0 <= i < |log| ==> log[i].index == tried[i];
    RoomForAnother(tried, x, n);
  }

  ghost function Below(n: nat): (r: set<nat>)
    ensures |r| == n && forall k: nat :: k in r <==> k < n
  {
    if n == 0 then {} else Below(n - 1) + {n - 1}
  }

  /** Distinct indices below `n`, and one more, fit. */
  lemma RoomForAnother(tried: seq<nat>, x: nat, n: nat)
    requires x < n && x !in tried && NoDup(tried)
    requires forall i :: 0 <= i < |tried| ==> tried[i] < n
    ensures |tried| < n
  {
    NoDupLength(tried);
    SubsetLength(Elements(tried), Below(n) - {x});
  }

  lemma AdmissionAppend(log: seq<Forward>, x: Forward)
    ensures AllAdmission(log + [x]) <==> AllAdmission(log) && AdmissionRefused(x.attempt)
  {
    assert (log + [x])[|log|] == x;
    assert forall i :: 0 <= i < |log| ==> (log + [x])[i] == log[i];
  }

  // ---- What the policy promises over a whole request ----

  /** Before the last attempt nothing was delivered, and no embedding or transcription may have run. */
  lemma OnlyTheLastAttemptCounts(kind: Kind, log: seq<Forward>, i: nat)
    requires forall i :: 0 <= i < |log| - 1 ==> !Stops(kind, log[i].attempt)
    requires i < |log| - 1
    ensures Delivered(log[i].attempt) == []
    ensures kind == Transcriptions || kind == Plain(RouterPick.Embeddings) ==> !MayHaveExecuted(log[i].attempt)
  {
    RetriedIsHarmless(kind, log[i].attempt);
  }

  /** A chat or completion that got nothing to the client is always tried again. */
  lemma ChatsAreRetried(kind: Kind, a: Attempt)
    requires kind == Plain(RouterPick.Chat) || kind == Plain(RouterPick.Completions)
    ensures Stops(kind, a) <==> Delivered(a) != []
  {
    RetriedIffNothingDelivered(a);
  }
}
