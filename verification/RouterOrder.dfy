/**
  What the pick prefers, over the workers' reports and the coordinator's raw counters
  (src/coordinator.rs, `try_pick`).
*/
module RouterOrder {
  import opened Wrappers
  import opened RouterPick

  // ---- A worker's figures for a request ----

  /** The model the request would run there, and the figures it is admitted and ranked by. */
  datatype Figures = Figures(model: string, listed: bool, slots: nat, work: nat, external: nat, load: nat,
                             context: Option<nat>)

  /** The model's entry is the first with its name. */
  ghost predicate Listed(models: seq<ModelSlots>, id: string, m: ModelSlots) {
    exists i :: 0 <= i < |models| && models[i] == m && m.id == id && forall j :: 0 <= j < i ==> models[j].id != id
  }

  ghost predicate Entry(m: map<string, nat>, k: string, n: nat) {
    if k in m then n == m[k] else n == 0
  }

  /** A reported context of zero is unknown. */
  ghost predicate Window(reported: Option<nat>, context: Option<nat>) {
    context == if reported == Some(0) then None else reported
  }

  /** With an entry of its own a model is counted by itself, otherwise with the whole worker. */
  ghost predicate Reported(cap: Option<nat>, w: Worker, req: Request, f: Figures) {
    && w.info.Some?
    && var info := w.info.value;
       var whole := if f.model == info.model then Some(info.nCtx) else None;
       && f.model == (if req.model.Some? then req.model.value else info.model)
       && Entry(w.workByModel, f.model, f.work)
       && f.slots > 0
       && if f.listed then
            exists m: ModelSlots, own: nat ::
              && Listed(info.models, f.model, m) && Entry(w.byModel, f.model, own)
              && f.slots == (if m.maxConcurrency == 0 then 1 else m.maxConcurrency)
              && Entry(w.externalByModel, f.model, f.external)
              && f.load == own + f.external
              && Window(if m.nCtx.Some? then m.nCtx else whole, f.context)
          else
            && (forall m :: m in info.models ==> m.id != f.model)
            && f.slots == (var n := if cap.Some? then cap.value else info.maxConcurrency; if n == 0 then 1 else n)
            && f.external == w.external && f.load == w.dispatched + w.external
            && Window(whole, f.context)
  }

  lemma {:induction false} FoundIsFirst(models: seq<ModelSlots>, id: string)
    requires FindSlots(models, id).Some?
    ensures Listed(models, id, FindSlots(models, id).value)
  {
    if models[0].id == id {
      assert models[0] == FindSlots(models, id).value;
    } else {
      FoundIsFirst(models[1..], id);
      var i :| 0 <= i < |models[1..]| && models[1..][i] == FindSlots(models, id).value
               && forall j :: 0 <= j < i ==> models[1..][j].id != id;
      assert models[i + 1] == models[1..][i];
      assert forall j :: 0 < j < i + 1 ==> models[j] == models[1..][j - 1];
    }
  }

  lemma {:induction false} FirstIsFound(models: seq<ModelSlots>, id: string, m: ModelSlots)
    requires Listed(models, id, m)
    ensures FindSlots(models, id) == Some(m)
  {
    var i :| 0 <= i < |models| && models[i] == m && m.id == id && forall j :: 0 <= j < i ==> models[j].id != id;
    if i > 0 {
      assert models[0].id != id;
      assert models[1..][i - 1] == m;
      assert forall j :: 0 <= j < i - 1 ==> models[1..][j] == models[j + 1];
      FirstIsFound(models[1..], id, m);
    }
  }

  /** What the model computes from a report is what the report says. */
  lemma FiguresAre(cap: Option<nat>, w: Worker, req: Request, f: Figures)
    requires Reported(cap, w, req, f)
    ensures var info := w.info.value;
      && Selected(info, req) == f.model && Own(info, req).Some? == f.listed && SlotsOf(cap, info, req) == f.slots
      && LoadOf(w, info, req) == f.load && ContextOf(info, f.model) == f.context
      && Get(w.workByModel, f.model) == f.work
      && f.external == if f.listed then Get(w.externalByModel, f.model) else w.external
  {
    var info := w.info.value;
    if f.listed {
      var m: ModelSlots, own: nat :| Listed(info.models, f.model, m) && Entry(w.byModel, f.model, own)
        && f.slots == (if m.maxConcurrency == 0 then 1 else m.maxConcurrency)
        && Entry(w.externalByModel, f.model, f.external)
        && f.load == own + f.external
        && Window(if m.nCtx.Some? then m.nCtx else if f.model == info.model then Some(info.nCtx) else None, f.context);
      FirstIsFound(info.models, f.model, m);
    } else {
      assert FindSlots(info.models, f.model).None?;
    }
  }

  /** Every worker with a report has figures. */
  lemma FiguresExist(cap: Option<nat>, w: Worker, req: Request) returns (f: Figures)
    requires w.info.Some?
    ensures Reported(cap, w, req, f)
  {
    var info := w.info.value;
    var model, own := Selected(info, req), Own(info, req);
    f := Figures(model, own.Some?, SlotsOf(cap, info, req), Get(w.workByModel, model),
                 if own.Some? then Get(w.externalByModel, model) else w.external, LoadOf(w, info, req),
                 ContextOf(info, model));
    if own.Some? {
      FoundIsFirst(info.models, model);
      assert Entry(w.byModel, model, Get(w.byModel, model));
    }
  }

  // ---- Who is open ----

  /**
    The path is one of the worker's capabilities and the model is its own or a listed one.  Only a
    worker with a single model takes a request that names none, and only a listed model that embeds
    takes an embedding.
  */
  ghost predicate Serving(info: Info, req: Request, f: Figures) {
    && (req.path == Chat ==> info.caps.chat)
    && (req.path == Completions ==> info.caps.completions)
    && (req.path == Embeddings ==>
          info.caps.embeddings && (f.listed ==> exists m :: Listed(info.models, f.model, m) && m.embeddings))
    && if req.model.None? then forall m :: m in info.models ==> m.id == info.model
       else req.model.value == info.model || f.listed
  }

  lemma KnownIsServing(cap: Option<nat>, w: Worker, req: Request, f: Figures)
    requires Reported(cap, w, req, f)
    ensures Known(w.info.value, req) <==> Serving(w.info.value, req, f)
  {
    var info := w.info.value;
    FiguresAre(cap, w, req, f);
    if f.listed {
      FoundIsFirst(info.models, f.model);
      forall m | Listed(info.models, f.model, m) ensures FindSlots(info.models, f.model) == Some(m) {
        FirstIsFound(info.models, f.model, m);
      }
    }
  }

  /**
    A worker is open to the request exactly when it is healthy, untried, serves the model on the
    path with a large enough known context, and is below its model's slots and a configured cap.
  */
  lemma OpenIff(s: Scan, i: nat, f: Figures)
    requires i < |s.workers| && Reported(s.cap, s.workers[i], s.req, f)
    ensures s.Verdict(i).Open? <==>
      var w := s.workers[i];
      && w.healthy && i !in s.tried && Serving(w.info.value, s.req, f)
      && (s.req.context.Some? && f.context.Some? ==> s.req.context.value <= f.context.value)
      && f.load < f.slots
      && (s.cap.Some? ==> w.dispatched + w.external < if s.cap.value == 0 then 1 else s.cap.value)
  {
    FiguresAre(s.cap, s.workers[i], s.req, f);
    KnownIsServing(s.cap, s.workers[i], s.req, f);
  }

  // ---- Who is preferred ----

  /** The outstanding work with the request added; the counters saturate at 64 bits. */
  function Owed(f: Figures, units: nat): nat {
    var all := f.work + f.external * units + units;
    if all > U64_MAX then U64_MAX else all
  }

  function Blind(s: Scan, f: Figures): bool {
    s.req.context.Some? && f.context.None?
  }

  /** The work an answer on `i` is judged by: what is owed less the preferred worker's saving. */
  function Judged(s: Scan, i: nat, f: Figures): real {
    Owed(f, s.req.units) as real - (if s.preferred == Some(i) then s.saved else 0) as real
  }

  lemma SaturatesOnce(work: nat, external: nat, units: nat)
    ensures var all := work + external * units + units;
      SatAdd(SatAdd(work, SatMul(external, units)), units) == if all > U64_MAX then U64_MAX else all
  {
  }

  lemma PressureIs(cap: Option<nat>, w: Worker, req: Request, f: Figures)
    requires Reported(cap, w, req, f)
    ensures Pressure(cap, w, req) == Owed(f, req.units) as real / f.slots as real
  {
    FiguresAre(cap, w, req, f);
    SaturatesOnce(f.work, f.external, req.units);
  }

  /** A score and the figures it stands for. */
  ghost predicate Scored(score: Score, blind: bool, judged: real, slots: nat, load: nat) {
    slots > 0 && score.unknownContext == blind && score.load == load && score.ratio * slots as real == judged
  }

  lemma Apart(a: real, b: real, n: nat, blind: bool, load: nat)
    requires n > 0
    ensures Scored(Score(blind, a / n as real - b / n as real, load), blind, a - b, n, load)
  {
    var c := n as real;
    assert a / c * c == a && b / c * c == b;
  }

  lemma ScoreIs(s: Scan, i: nat, f: Figures)
    requires i < |s.workers| && Reported(s.cap, s.workers[i], s.req, f) && s.Verdict(i).Open?
    ensures s.Verdict(i).model == f.model
    ensures Scored(s.Verdict(i).score, Blind(s, f), Judged(s, i, f), f.slots, f.load)
  {
    var w := s.workers[i];
    FiguresAre(s.cap, w, s.req, f);
    PressureIs(s.cap, w, s.req, f);
    ScoreParts(s.cap, w, s.req, s.Discount(i), f.model, f.slots, f.load, Owed(f, s.req.units));
    Apart(Owed(f, s.req.units) as real, s.Discount(i) as real, f.slots, Blind(s, f), f.load);
  }

  lemma ScoreParts(cap: Option<nat>, w: Worker, req: Request, discount: nat, model: string, slots: nat, load: nat,
                   owed: nat)
    requires w.info.Some? && model == Selected(w.info.value, req) && slots == SlotsOf(cap, w.info.value, req)
    requires load == LoadOf(w, w.info.value, req) && slots > 0
    requires Pressure(cap, w, req) == owed as real / slots as real
    ensures ScoreOf(cap, w, req, discount)
         == Score(req.context.Some? && ContextOf(w.info.value, model).None?,
                  owed as real / slots as real - discount as real / slots as real, load)
  {
  }

  /** Less work per slot, and no more load at equal work. */
  ghost predicate OwesNoMore(a: real, m: nat, load: nat, b: real, n: nat, other: nat) {
    a * n as real <= b * m as real && (a * n as real == b * m as real ==> load <= other)
  }

  lemma NotLess(x: Score, y: Score, u: bool, a: real, m: nat, load: nat, v: bool, b: real, n: nat, other: nat)
    requires Scored(x, u, a, m, load) && Scored(y, v, b, n, other) && !Less(y, x)
    ensures u ==> v
    ensures u == v ==> OwesNoMore(a, m, load, b, n, other)
  {
    if u == v {
      Cross(x.ratio, y.ratio, a, b, m as real, n as real);
    }
  }

  lemma Cross(x: real, y: real, a: real, b: real, c: real, d: real)
    requires x * c == a && y * d == b && c > 0.0 && d > 0.0 && x <= y
    ensures a * d <= b * c
    ensures a * d == b * c ==> x == y
  {
    assert a * d == x * (c * d) && b * c == y * (c * d);
  }

  /**
    Against every open worker: the picked one has a known context if any has, owes no more work
    per slot among those, and is no more loaded among those that owe the same.
  */
  lemma PickedOwesLeast(s: Scan, i: nat, model: string, j: nat, f: Figures, g: Figures)
    requires s.Valid() && Answers(s, Slot(i, model)) && j < |s.workers| && s.Verdict(j).Open?
    requires Reported(s.cap, s.workers[i], s.req, f) && Reported(s.cap, s.workers[j], s.req, g)
    ensures model == f.model
    ensures Blind(s, f) ==> Blind(s, g)
    ensures Blind(s, f) == Blind(s, g) ==>
      OwesNoMore(Judged(s, i, f), f.slots, f.load, Judged(s, j, g), g.slots, g.load)
  {
    ChosenIsMinimal(s, i, model, j);
    ScoreIs(s, i, f);
    ScoreIs(s, j, g);
    NotLess(s.Verdict(i).score, s.Verdict(j).score, Blind(s, f), Judged(s, i, f), f.slots, f.load,
            Blind(s, g), Judged(s, j, g), g.slots, g.load);
  }

  /** With nothing saved and no outside load the comparison is of the coordinator's own work counters. */
  lemma PickedHasLeastWork(s: Scan, i: nat, model: string, j: nat, f: Figures, g: Figures)
    requires s.Valid() && Answers(s, Slot(i, model)) && j < |s.workers| && s.Verdict(j).Open?
    requires Reported(s.cap, s.workers[i], s.req, f) && Reported(s.cap, s.workers[j], s.req, g)
    requires s.saved == 0 && f.external == g.external == 0 && (s.req.context.Some? ==> g.context.Some?)
    requires f.work + s.req.units <= U64_MAX && g.work + s.req.units <= U64_MAX
    ensures (f.work + s.req.units) * g.slots <= (g.work + s.req.units) * f.slots
  {
    PickedOwesLeast(s, i, model, j, f, g);
    Whole(f.work + s.req.units, f.slots, f.load, g.work + s.req.units, g.slots, g.load);
  }

  lemma Whole(a: nat, m: nat, load: nat, b: nat, n: nat, other: nat)
    requires OwesNoMore(a as real, m, load, b as real, n, other)
    ensures a * n <= b * m
  {
    assert (a * n) as real == a as real * n as real && (b * m) as real == b as real * m as real;
  }

  /** Only the ratio of a score reads the work counters, and it grows with them. */
  lemma MoreWorkScoresHigher(s: Scan, t: Scan, j: nat, more: map<string, nat>)
    requires j < |s.workers| && t == s.(workers := s.workers[j := s.workers[j].(workByModel := more)])
    requires forall m :: Get(s.workers[j].workByModel, m) <= Get(more, m)
    requires t.Verdict(j).Open?
    ensures s.Verdict(j).Open? && s.Verdict(j).score == t.Verdict(j).score.(ratio := s.Verdict(j).score.ratio)
    ensures s.Verdict(j).score.ratio <= t.Verdict(j).score.ratio
  {
    var f := FiguresExist(s.cap, s.workers[j], s.req);
    var work := Get(more, f.model);
    assert Get(s.workers[j].workByModel, f.model) <= work;
    MoreFigures(s.cap, s.workers[j], s.req, f, more, work);
    ScoreIs(s, j, f);
    ScoreIs(t, j, f.(work := work));
    Monotone(s.Verdict(j).score, t.Verdict(j).score, Blind(s, f), Judged(s, j, f), Judged(t, j, f.(work := work)),
             f.slots, f.load);
  }

  lemma MoreFigures(cap: Option<nat>, w: Worker, req: Request, f: Figures, more: map<string, nat>, work: nat)
    requires Reported(cap, w, req, f) && work == Get(more, f.model)
    ensures Reported(cap, w.(workByModel := more), req, f.(work := work))
    ensures f.work == Get(w.workByModel, f.model)
  {
  }

  /** More outstanding work never makes a worker preferred: were it picked with more, it was minimal with less. */
  lemma MoreWorkNeverPreferred(s: Scan, t: Scan, j: nat, model: string, more: map<string, nat>, i: nat)
    requires s.Valid() && j < |s.workers| && i < |s.workers| && s.Verdict(i).Open?
    requires forall m :: Get(s.workers[j].workByModel, m) <= Get(more, m)
    requires t == s.(workers := s.workers[j := s.workers[j].(workByModel := more)]) && Answers(t, Slot(j, model))
    ensures s.Verdict(j).Open? && !Less(s.Verdict(i).score, s.Verdict(j).score)
  {
    MoreWorkScoresHigher(s, t, j, more);
    if i != j {
      assert t.Verdict(i) == s.Verdict(i);
      ChosenIsMinimal(t, j, model, i);
    }
  }

  lemma Monotone(x: Score, y: Score, blind: bool, a: real, b: real, n: nat, load: nat)
    requires Scored(x, blind, a, n, load) && Scored(y, blind, b, n, load) && a <= b
    ensures x.ratio <= y.ratio
  {
  }
}
