/**
  Choosing a worker for a request (src/coordinator.rs, `try_pick` on every path but
  transcriptions).  Work per slot is compared over exact reals.
*/
module RouterPick {
  import opened Wrappers

  const U64_MAX := 0xFFFF_FFFF_FFFF_FFFF

  function SatAdd(a: nat, b: nat): nat {
    if a + b > U64_MAX then U64_MAX else a + b
  }

  function SatMul(a: nat, b: nat): nat {
    if a * b > U64_MAX then U64_MAX else a * b
  }

  function AtLeastOne(n: nat): nat {
    if n == 0 then 1 else n
  }

  datatype Path = Chat | Completions | Embeddings

  datatype Capabilities = Capabilities(chat: bool, completions: bool, embeddings: bool)

  predicate Serves(c: Capabilities, path: Path) {
    match path
    case Chat => c.chat
    case Completions => c.completions
    case Embeddings => c.embeddings
  }

  /** One model's own admission figures. */
  datatype ModelSlots = ModelSlots(id: string, nCtx: Option<nat>, maxConcurrency: nat, embeddings: bool)

  /** What a worker last reported. */
  datatype Info = Info(model: string, models: seq<ModelSlots>, nCtx: nat, maxConcurrency: nat, caps: Capabilities)

  /** A worker's status and the coordinator's own counters for it. */
  datatype Worker = Worker(
    healthy: bool, info: Option<Info>, external: nat, externalByModel: map<string, nat>,
    dispatched: nat, byModel: map<string, nat>, workByModel: map<string, nat>)

  datatype Request = Request(path: Path, model: Option<string>, context: Option<nat>, units: nat)

  const MAX_UNITS: nat := 0x100_0000

  /** The output budget: none for embeddings, 256 tokens unless the request says. */
  function OutputTokens(path: Path, maxTokens: Option<nat>): nat {
    if path.Embeddings? then 0 else if maxTokens.Some? then maxTokens.value else 256
  }

  /** The scheduling hint of a request: input bytes and output budget, clamped. */
  function WorkUnits(path: Path, inputBytes: nat, maxTokens: Option<nat>): (units: nat)
    ensures 1 <= units <= MAX_UNITS
    ensures var all := inputBytes + 4 * OutputTokens(path, maxTokens);
      1 <= all <= MAX_UNITS ==> units == all
    ensures inputBytes + 4 * OutputTokens(path, maxTokens) > MAX_UNITS ==> units == MAX_UNITS
  {
    var all := SatAdd(inputBytes, SatMul(OutputTokens(path, maxTokens), 4));
    if all < 1 then 1 else if all > MAX_UNITS then MAX_UNITS else all
  }

  function Get(m: map<string, nat>, k: string): nat {
    if k in m then m[k] else 0
  }

  function FindSlots(models: seq<ModelSlots>, id: string): (r: Option<ModelSlots>)
    ensures r.Some? ==> r.value in models && r.value.id == id
    ensures r.None? ==> forall s :: s in models ==> s.id != id
  {
    if models == [] then None else if models[0].id == id then Some(models[0]) else FindSlots(models[1..], id)
  }

  function Selected(info: Info, req: Request): string {
    if req.model.Some? then req.model.value else info.model
  }

  /** The figures the request is admitted by, when its model has its own. */
  function Own(info: Info, req: Request): Option<ModelSlots> {
    FindSlots(info.models, Selected(info, req))
  }

  /** A zero context is an unknown one. */
  function ContextOf(info: Info, model: string): Option<nat> {
    var own := FindSlots(info.models, model);
    var c := if own.Some? && own.value.nCtx.Some? then own.value.nCtx
             else if model == info.model then Some(info.nCtx) else None;
    if c == Some(0) then None else c
  }

  /** Whether the worker serves the request's model on its path. */
  predicate Known(info: Info, req: Request) {
    && (req.model.None? ==> forall s :: s in info.models ==> s.id == info.model)
    && (req.model.Some? ==> req.model.value == info.model || exists s :: s in info.models && s.id == req.model.value)
    && Serves(info.caps, req.path)
    && (req.path.Embeddings? && Own(info, req).Some? ==> Own(info, req).value.embeddings)
  }

  predicate ContextFits(info: Info, req: Request) {
    var c := ContextOf(info, Selected(info, req));
    req.context.Some? && c.Some? ==> req.context.value <= c.value
  }

  /** The per-worker cap: configured, else reported. */
  function SlotsFor(cap: Option<nat>, info: Info): nat {
    AtLeastOne(if cap.Some? then cap.value else info.maxConcurrency)
  }

  function SlotsOf(cap: Option<nat>, info: Info, req: Request): nat {
    var own := Own(info, req);
    if own.Some? then AtLeastOne(own.value.maxConcurrency) else SlotsFor(cap, info)
  }

  function LoadOf(w: Worker, info: Info, req: Request): nat {
    var own := Own(info, req);
    if own.Some? then Get(w.byModel, own.value.id) + Get(w.externalByModel, own.value.id)
    else w.dispatched + w.external
  }

  /** Below its model's cap, and below a configured per-worker cap as a whole. */
  predicate HasRoom(cap: Option<nat>, w: Worker, info: Info, req: Request) {
    && (Own(info, req).Some? && cap.Some? ==> w.dispatched + w.external < AtLeastOne(cap.value))
    && LoadOf(w, info, req) < SlotsOf(cap, info, req)
  }

  /** A worker the request could be sent to if it had room. */
  predicate Eligible(w: Worker, req: Request, excluded: bool) {
    w.info.Some? && Known(w.info.value, req) && ContextFits(w.info.value, req) && w.healthy && !excluded
  }

  predicate Admits(cap: Option<nat>, w: Worker, req: Request, excluded: bool) {
    Eligible(w, req, excluded) && HasRoom(cap, w, w.info.value, req)
  }

  /** The load and work counters only ever turn a worker away. */
  lemma MoreLoadNeverAdmits(cap: Option<nat>, w: Worker, v: Worker, req: Request, excluded: bool)
    requires v.info == w.info && v.externalByModel == w.externalByModel && v.external == w.external
    requires v.healthy ==> w.healthy
    requires w.dispatched <= v.dispatched && forall m :: Get(w.byModel, m) <= Get(v.byModel, m)
    requires Admits(cap, v, req, excluded)
    ensures Admits(cap, w, req, excluded)
  {
    var own := Own(w.info.value, req);
    if own.Some? {
      assert Get(w.byModel, own.value.id) <= Get(v.byModel, own.value.id);
    }
  }

  // ---- Scores ----

  /** Outstanding work per slot with the request added, before any discount. */
  function Pressure(cap: Option<nat>, w: Worker, req: Request): real
    requires w.info.Some?
  {
    var info := w.info.value;
    var model := Selected(info, req);
    var external := if Own(info, req).Some? then Get(w.externalByModel, model) else w.external;
    SatAdd(SatAdd(Get(w.workByModel, model), SatMul(external, req.units)), req.units) as real
      / SlotsOf(cap, info, req) as real
  }

  datatype Score = Score(unknownContext: bool, ratio: real, load: nat)

  predicate Less(a: Score, b: Score) {
    || (!a.unknownContext && b.unknownContext)
    || (a.unknownContext == b.unknownContext && (a.ratio < b.ratio || (a.ratio == b.ratio && a.load < b.load)))
  }

  function ScoreOf(cap: Option<nat>, w: Worker, req: Request, discount: nat): Score
    requires w.info.Some?
  {
    var info := w.info.value;
    Score(req.context.Some? && ContextOf(info, Selected(info, req)).None?,
          Pressure(cap, w, req) - discount as real / SlotsOf(cap, info, req) as real,
          LoadOf(w, info, req))
  }

  // ---- Judging one worker ----

  /** How far the scan gets with a worker; `Open` when the request can go there. */
  datatype Verdict = NoReport | NotServing | TooSmall | Unhealthy | Tried | Full | Open(score: Score, model: string)

  function Judge(cap: Option<nat>, w: Worker, req: Request, excluded: bool, discount: nat): Verdict {
    if w.info.None? then NoReport
    else if !Known(w.info.value, req) then NotServing
    else if !ContextFits(w.info.value, req) then TooSmall
    else if !w.healthy then Unhealthy
    else if excluded then Tried
    else if !HasRoom(cap, w, w.info.value, req) then Full
    else Open(ScoreOf(cap, w, req, discount), Selected(w.info.value, req))
  }

  // ---- The scan ----

  datatype Reject = ContextTooSmall | UnknownModel | Unavailable | Exhausted
  datatype Pick = Slot(index: nat, model: string) | Busy | Refuse(reason: Reject)

  /** Why nothing is open, in the order the source decides. */
  ghost predicate Explains(vs: seq<Verdict>, named: bool, pick: Pick) {
    match pick
    case Slot(_, _) => false
    case Busy => (forall v :: v in vs ==> !v.Open?) && Full in vs
    case Refuse(reason) =>
      && (forall v :: v in vs ==> !v.Open? && v != Full)
      && match reason
         case Exhausted => Tried in vs
         case ContextTooSmall => TooSmall in vs && forall v :: v in vs ==> v == TooSmall || v == NotServing
         case UnknownModel => named && forall v :: v in vs ==> v == NotServing
         case Unavailable =>
           && Tried !in vs
           && (NoReport in vs || Unhealthy in vs || (!named && forall v :: v in vs ==> v == NotServing))
  }

  /** The open verdict in turn `k` scores below every earlier one and above none. */
  ghost predicate IsBest(vs: seq<Verdict>, k: nat) {
    && k < |vs| && vs[k].Open?
    && (forall j :: 0 <= j < |vs| && vs[j].Open? ==> !Less(vs[j].score, vs[k].score))
    && (forall j :: 0 <= j < k && vs[j].Open? ==> Less(vs[k].score, vs[j].score))
  }

  /** The scan over the verdicts in turn: the best open one, or why there is none. */
  method Choose(vs: seq<Verdict>, named: bool) returns (best: Option<nat>, why: Pick)
    requires vs != []
    ensures best.Some? ==> IsBest(vs, best.value)
    ensures best.None? ==> Explains(vs, named, why)
  {
    best := None;
    var known, eligible, tried, mismatch, possible := false, false, false, false, false;
    for k := 0 to |vs|
      invariant best.Some? ==> IsBest(vs[..k], best.value)
      invariant best.None? ==> forall v :: v in vs[..k] ==> !v.Open?
      invariant eligible <==> best.Some? || Full in vs[..k]
      invariant tried <==> Tried in vs[..k]
      invariant mismatch <==> TooSmall in vs[..k]
      invariant possible <==> eligible || tried || NoReport in vs[..k] || Unhealthy in vs[..k]
      invariant known <==> eligible || tried || mismatch || Unhealthy in vs[..k]
    {
      assert vs[..k + 1] == vs[..k] + [vs[k]];
      match vs[k]
      case NoReport => possible := true;
      case NotServing =>
      case TooSmall => known, mismatch := true, true;
      case Unhealthy => known, possible := true, true;
      case Tried => known, possible, tried := true, true, true;
      case Full => known, possible, eligible := true, true, true;
      case Open(score, _) =>
        known, possible, eligible := true, true, true;
        if best.None? || Less(score, vs[best.value].score) {
          best := Some(k);
        }
    }
    assert vs[..|vs|] == vs;
    why := if eligible then Busy
      else if tried then Refuse(Exhausted)
      else if mismatch && !possible then Refuse(ContextTooSmall)
      else if !known && named && NoReport !in vs then Refuse(UnknownModel)
      else Refuse(Unavailable);
  }

  /** The index looked at in turn `k`: a scan starts at a rotating one. */
  function Rotated(start: nat, k: nat, n: nat): (i: nat)
    requires n > 0
    ensures i < n
  {
    (start + k) % n
  }

  /** Everything the scan reads: the workers as read, the tried ones, and the preferred one's discount. */
  datatype Scan = Scan(
    cap: Option<nat>, workers: seq<Worker>, req: Request, tried: set<nat>, start: nat,
    preferred: Option<nat>, saved: nat)
  {
    ghost predicate Valid() {
      start < |workers|
    }

    function Discount(i: nat): nat {
      if preferred == Some(i) then saved else 0
    }

    function Verdict(i: nat): Verdict
      requires i < |workers|
    {
      Judge(cap, workers[i], req, i in tried, Discount(i))
    }

    /** The worker looked at in turn `k`. */
    function Turn(k: nat): (i: nat)
      requires Valid()
      ensures i < |workers|
    {
      Rotated(start, k, |workers|)
    }

    function Verdicts(): (vs: seq<Verdict>)
      requires Valid()
      ensures |vs| == |workers|
    {
      seq(|workers|, k requires 0 <= k => Verdict(Turn(k)))
    }
  }

  /** Every worker has exactly one turn. */
  lemma OneTurnEach(s: Scan, i: nat) returns (k: nat)
    requires s.Valid() && i < |s.workers|
    ensures k < |s.workers| && s.Turn(k) == i
    ensures forall j: nat :: j < |s.workers| && s.Turn(j) == i ==> j == k
  {
    var n := |s.workers|;
    k := if i >= s.start then i - s.start else i + n - s.start;
    TurnIs(s, k);
    forall j: nat | j < n && s.Turn(j) == i ensures j == k {
      TurnIs(s, j);
    }
  }

  lemma TurnIs(s: Scan, k: nat)
    requires s.Valid() && k < |s.workers|
    ensures s.Turn(k) == if s.start + k < |s.workers| then s.start + k else s.start + k - |s.workers|
  {
    Wraps(s.start + k, |s.workers|);
  }

  lemma Wraps(a: nat, n: nat)
    requires a < 2 * n
    ensures a % n == if a < n then a else a - n
  {
    if a >= n {
      assert a / n == 1;
    }
  }

  /** The verdicts in turn are the workers' verdicts, so what holds of one holds of the other. */
  lemma SameVerdicts(s: Scan)
    requires s.Valid()
    ensures forall i: nat :: i < |s.workers| ==> s.Verdict(i) in s.Verdicts()
  {
    forall i: nat | i < |s.workers| ensures s.Verdict(i) in s.Verdicts() {
      var k := OneTurnEach(s, i);
      assert s.Verdicts()[k] == s.Verdict(i);
    }
  }

  /** The answer to a pick, over all workers. */
  ghost predicate Answers(s: Scan, pick: Pick)
    requires s.Valid()
  {
    match pick
    case Slot(i, model) =>
      && i < |s.workers| && s.Verdict(i).Open? && s.Verdict(i).model == model
      && exists k :: IsBest(s.Verdicts(), k) && s.Turn(k) == i
    case _ => Explains(s.Verdicts(), s.req.model.Some?, pick)
  }

  method TryPick(s: Scan) returns (pick: Pick)
    requires s.Valid()
    ensures Answers(s, pick)
  {
    var vs := s.Verdicts();
    var best, why := Choose(vs, s.req.model.Some?);
    if best.Some? {
      var i := s.Turn(best.value);
      pick := Slot(i, s.Verdict(i).model);
    } else {
      pick := why;
    }
  }

  // ---- What the choice guarantees ----

  /** A verdict is open exactly when the worker admits the request, and full when only room is missing. */
  lemma OpenIsAdmitted(s: Scan, i: nat)
    requires i < |s.workers|
    ensures s.Verdict(i).Open? <==> Admits(s.cap, s.workers[i], s.req, i in s.tried)
    ensures s.Verdict(i) == Full <==> Eligible(s.workers[i], s.req, i in s.tried) && !s.Verdict(i).Open?
  {
  }

  /** No worker scores below the chosen one. */
  lemma ChosenIsMinimal(s: Scan, i: nat, model: string, j: nat)
    requires s.Valid() && Answers(s, Slot(i, model)) && j < |s.workers| && s.Verdict(j).Open?
    ensures !Less(s.Verdict(j).score, s.Verdict(i).score)
    ensures i !in s.tried && s.workers[i].healthy
  {
    var k :| IsBest(s.Verdicts(), k) && s.Turn(k) == i;
    var kj := OneTurnEach(s, j);
    BestIsMinimal(s.Verdicts(), k, kj, s.Verdict(i), s.Verdict(j));
  }

  lemma BestIsMinimal(vs: seq<Verdict>, k: nat, j: nat, best: Verdict, other: Verdict)
    requires IsBest(vs, k) && j < |vs| && vs[k] == best && vs[j] == other && other.Open?
    ensures best.Open? && !Less(other.score, best.score)
  {
  }

  /** Busy means some worker could serve the request and every such worker is full. */
  lemma BusyMeansFull(s: Scan)
    requires s.Valid() && Answers(s, Busy)
    ensures forall i: nat :: i < |s.workers| ==> !Admits(s.cap, s.workers[i], s.req, i in s.tried)
    ensures exists i: nat :: i < |s.workers| && Eligible(s.workers[i], s.req, i in s.tried)
  {
    SameVerdicts(s);
    var vs := s.Verdicts();
    var k :| 0 <= k < |vs| && vs[k] == Full;
    OpenIsAdmitted(s, s.Turn(k));
    assert Eligible(s.workers[s.Turn(k)], s.req, s.Turn(k) in s.tried);
    forall i: nat | i < |s.workers| ensures !Admits(s.cap, s.workers[i], s.req, i in s.tried) {
      OpenIsAdmitted(s, i);
    }
  }

  /**
    The chosen worker's work per slot exceeds that of any open worker of the same context class
    by at most a fifth of the request's units per slot: that is all affinity can cost.
  */
  lemma AffinityCostIsBounded(s: Scan, i: nat, model: string, j: nat)
    requires s.Valid() && Answers(s, Slot(i, model)) && j < |s.workers| && s.Verdict(j).Open?
    requires s.saved <= s.req.units / 5
    requires s.Verdict(i).score.unknownContext == s.Verdict(j).score.unknownContext
    ensures Pressure(s.cap, s.workers[i], s.req)
         <= Pressure(s.cap, s.workers[j], s.req)
            + (s.req.units as real / 5.0) / SlotsOf(s.cap, s.workers[i].info.value, s.req) as real
  {
    ChosenIsMinimal(s, i, model, j);
    var slots := SlotsOf(s.cap, s.workers[i].info.value, s.req) as real;
    var others := SlotsOf(s.cap, s.workers[j].info.value, s.req) as real;
    DiscountBound(s.Discount(i), s.req.units, slots);
    NotNegative(s.Discount(j) as real, others);
  }

  lemma DiscountBound(d: nat, units: nat, slots: real)
    requires d <= units / 5 && slots > 0.0
    ensures d as real / slots <= (units as real / 5.0) / slots
  {
    assert d * 5 <= units;
    assert (d * 5) as real <= units as real;
    assert d as real <= units as real / 5.0;
    DivideMonotone(d as real, units as real / 5.0, slots);
  }

  lemma DivideMonotone(a: real, b: real, c: real)
    requires a <= b && c > 0.0
    ensures a / c <= b / c
  {
    assert (a / c) * c == a && (b / c) * c == b;
  }

  lemma NotNegative(a: real, c: real)
    requires a >= 0.0 && c > 0.0
    ensures a / c >= 0.0
  {
    assert (a / c) * c == a;
  }

  /** A worker tried before is never answered again. */
  lemma PickedIsUntried(s: Scan, i: nat, model: string)
    requires s.Valid() && Answers(s, Slot(i, model))
    ensures i < |s.workers| && i !in s.tried
  {
    OpenIsAdmitted(s, i);
  }

  // ---- Transcriptions ----

  /** What the audio scan reads of a worker: able, with an audio job, at a configured cap. */
  datatype AudioWorker = AudioWorker(able: bool, occupied: bool, capped: bool)

  const LEVEL := Score(false, 0.0, 0)

  function AudioJudge(w: AudioWorker, excluded: bool): Verdict {
    if !w.able then NotServing else if excluded then Tried else if w.occupied || w.capped then Full else Open(LEVEL, "")
  }

  datatype AudioScan = AudioScan(workers: seq<AudioWorker>, tried: set<nat>, start: nat)
  {
    ghost predicate Valid() {
      start < |workers|
    }

    function Verdicts(): (vs: seq<Verdict>)
      requires Valid()
      ensures |vs| == |workers|
    {
      seq(|workers|, k requires 0 <= k =>
        var i := Rotated(start, k, |workers|);
        AudioJudge(workers[i], i in tried))
    }
  }

  /** The first open worker in turn, or why there is none. */
  ghost predicate AudioAnswers(s: AudioScan, pick: Pick)
    requires s.Valid()
  {
    match pick
    case Slot(i, _) =>
      exists k: nat :: k < |s.workers| && Rotated(s.start, k, |s.workers|) == i && s.Verdicts()[k].Open?
                       && forall j: nat :: j < k ==> !s.Verdicts()[j].Open?
    case _ => Explains(s.Verdicts(), false, pick)
  }

  method TryPickAudio(s: AudioScan) returns (pick: Pick)
    requires s.Valid()
    ensures AudioAnswers(s, pick)
  {
    var busy, tried := false, false;
    ghost var vs := s.Verdicts();
    for k := 0 to |s.workers|
      invariant forall v :: v in vs[..k] ==> v == NotServing || v == Tried || v == Full
      invariant busy <==> Full in vs[..k]
      invariant tried <==> Tried in vs[..k]
    {
      var i := Rotated(s.start, k, |s.workers|);
      assert vs[..k + 1] == vs[..k] + [vs[k]];
      if s.workers[i].able {
        if i in s.tried {
          tried := true;
        } else if s.workers[i].occupied || s.workers[i].capped {
          busy := true;
        } else {
          assert forall j: nat :: j < k ==> vs[j] in vs[..k];
          return Slot(i, "");
        }
      }
    }
    assert vs[..|vs|] == vs;
    pick := if busy then Busy else if tried then Refuse(Exhausted) else Refuse(Unavailable);
  }

  lemma AudioIsUntried(s: AudioScan, i: nat, model: string)
    requires s.Valid() && AudioAnswers(s, Slot(i, model))
    ensures i < |s.workers| && i !in s.tried
    ensures s.workers[i].able && !s.workers[i].occupied && !s.workers[i].capped
  {
  }
}
