/** What every interleaving of the coordinator's steps keeps. */
module RouterTheorems {
  import opened RouterPick
  import opened RouterMachine

  // ---- Slot accounting ----

  /** A counter of the source, read off the guards: each guard weighs in while its share is counted. */
  datatype Meter = Dispatches(w: nat) | Models(w: nat, m: string) | Work(w: nat, m: string)

  predicate IsDispatched(stage: Stage) {
    stage.Dispatched? || stage.Modelled? || stage.Live? || stage.Unmodelled? || stage.Unworked?
  }

  function Weight(meter: Meter, x: Guard): nat {
    match meter
    case Dispatches(w) => if x.worker == w && IsDispatched(x.stage) then 1 else 0
    case Models(w, m) => if x.worker == w && x.model == m && (x.stage.Modelled? || x.stage.Live?) then 1 else 0
    case Work(w, m) => if x.worker == w && x.model == m && (x.stage.Live? || x.stage.Unmodelled?) then x.units else 0
  }

  function Total(meter: Meter, guards: seq<Guard>): nat {
    if guards == [] then 0 else Total(meter, guards[..|guards| - 1]) + Weight(meter, guards[|guards| - 1])
  }

  lemma {:induction false} TotalUpdate(meter: Meter, guards: seq<Guard>, g: nat, x: Guard)
    requires g < |guards|
    ensures Total(meter, guards[g := x]) + Weight(meter, guards[g]) == Total(meter, guards) + Weight(meter, x)
  {
    var n := |guards| - 1;
    if g < n {
      TotalUpdate(meter, guards[..n], g, x);
      assert guards[g := x][..n] == guards[..n][g := x];
    } else {
      assert guards[g := x][..n] == guards[..n];
    }
  }

  lemma {:induction false} WeightInTotal(meter: Meter, guards: seq<Guard>, g: nat)
    requires g < |guards|
    ensures Weight(meter, guards[g]) <= Total(meter, guards)
  {
    if g < |guards| - 1 {
      WeightInTotal(meter, guards[..|guards| - 1], g);
    }
  }

  ghost predicate NoZero(m: map<string, nat>) {
    forall k :: k in m ==> m[k] > 0
  }

  ghost predicate CountsModels(w: nat, m: map<string, nat>, guards: seq<Guard>) {
    NoZero(m) && forall k :: Get(m, k) == Total(Models(w, k), guards)
  }

  ghost predicate CountsWork(w: nat, m: map<string, nat>, guards: seq<Guard>) {
    NoZero(m) && forall k :: Get(m, k) == Total(Work(w, k), guards)
  }

  /** The worker's three counters are the totals over the guards, and no zero entry is kept. */
  ghost predicate Accounted(w: nat, x: Worker, guards: seq<Guard>) {
    && x.dispatched == Total(Dispatches(w), guards)
    && CountsModels(w, x.byModel, guards) && CountsWork(w, x.workByModel, guards)
  }

  ghost predicate Accounting(s: State) {
    && (forall g :: 0 <= g < |s.guards| ==> s.guards[g].worker < |s.workers| && s.guards[g].units >= 1)
    && (forall r :: 0 <= r < |s.waiters| ==> s.waiters[r].req.units >= 1 && OpenInRange(s, s.waiters[r]))
    && forall w :: 0 <= w < |s.workers| ==> Accounted(w, s.workers[w], s.guards)
  }

  ghost predicate OpenInRange(s: State, x: Waiter) {
    forall w :: w in x.open ==> w < |s.workers|
  }

  lemma RaisedFacts(m: map<string, nat>, k: string, amount: nat)
    requires NoZero(m) && amount >= 1
    ensures NoZero(Raised(m, k, amount))
    ensures forall j :: Get(Raised(m, k, amount), j) == Get(m, j) + if j == k then amount else 0
  {
  }

  lemma LoweredFacts(m: map<string, nat>, k: string, amount: nat)
    requires NoZero(m)
    ensures NoZero(Lowered(m, k, amount))
    ensures forall j :: Get(Lowered(m, k, amount), j) == if j == k then SatSub(Get(m, k), amount) else Get(m, j)
  {
  }

  /** A guard's step changes the per-model counts by what the guard's weight changes. */
  lemma ModelsMoved(w: nat, guards: seq<Guard>, g: nat, y: Guard, m: map<string, nat>, m': map<string, nat>)
    requires g < |guards| && CountsModels(w, m, guards) && NoZero(m')
    requires forall k :: Get(m', k) + Weight(Models(w, k), guards[g]) == Get(m, k) + Weight(Models(w, k), y)
    ensures CountsModels(w, m', guards[g := y])
  {
    forall k ensures Get(m', k) == Total(Models(w, k), guards[g := y]) {
      TotalUpdate(Models(w, k), guards, g, y);
    }
  }

  lemma WorkMoved(w: nat, guards: seq<Guard>, g: nat, y: Guard, m: map<string, nat>, m': map<string, nat>)
    requires g < |guards| && CountsWork(w, m, guards) && NoZero(m')
    requires forall k :: Get(m', k) + Weight(Work(w, k), guards[g]) == Get(m, k) + Weight(Work(w, k), y)
    ensures CountsWork(w, m', guards[g := y])
  {
    forall k ensures Get(m', k) == Total(Work(w, k), guards[g := y]) {
      TotalUpdate(Work(w, k), guards, g, y);
    }
  }

  lemma ModelSide(s: State, g: nat)
    requires g < |s.guards| && s.guards[g].worker < |s.workers|
    requires !s.guards[g].stage.Undispatched? && !s.guards[g].stage.Gone?
    requires CountsModels(s.guards[g].worker, s.workers[s.guards[g].worker].byModel, s.guards)
    ensures var r, w := GuardStep(s, g), s.guards[g].worker; CountsModels(w, r.workers[w].byModel, r.guards)
  {
    var x, r := s.guards[g], GuardStep(s, g);
    var before := s.workers[x.worker].byModel;
    WeightInTotal(Models(x.worker, x.model), s.guards, g);
    RaisedFacts(before, x.model, 1);
    LoweredFacts(before, x.model, 1);
    ModelsMoved(x.worker, s.guards, g, r.guards[g], before, r.workers[x.worker].byModel);
  }

  lemma WorkSide(s: State, g: nat)
    requires g < |s.guards| && s.guards[g].worker < |s.workers|
    requires !s.guards[g].stage.Undispatched? && !s.guards[g].stage.Gone?
    requires s.guards[g].units >= 1
    requires CountsWork(s.guards[g].worker, s.workers[s.guards[g].worker].workByModel, s.guards)
    ensures var r, w := GuardStep(s, g), s.guards[g].worker; CountsWork(w, r.workers[w].workByModel, r.guards)
  {
    var x, r := s.guards[g], GuardStep(s, g);
    var before := s.workers[x.worker].workByModel;
    WeightInTotal(Work(x.worker, x.model), s.guards, g);
    RaisedFacts(before, x.model, x.units);
    LoweredFacts(before, x.model, x.units);
    WorkMoved(x.worker, s.guards, g, r.guards[g], before, r.workers[x.worker].workByModel);
  }

  /** The step of a guard is what it does to its worker's counters. */
  lemma GuardAccounted(s: State, g: nat)
    requires Accounting(s) && g < |s.guards| && !s.guards[g].stage.Undispatched? && !s.guards[g].stage.Gone?
    ensures var r, w := GuardStep(s, g), s.guards[g].worker; Accounted(w, r.workers[w], r.guards)
  {
    var w := s.guards[g].worker;
    assert Accounted(w, s.workers[w], s.guards);
    TotalUpdate(Dispatches(w), s.guards, g, GuardStep(s, g).guards[g]);
    WeightInTotal(Dispatches(w), s.guards, g);
    ModelSide(s, g);
    WorkSide(s, g);
  }

  lemma OthersAccounted(s: State, g: nat, y: Guard, w: nat)
    requires g < |s.guards| && w < |s.workers| && Accounted(w, s.workers[w], s.guards)
    requires s.guards[g].worker != w || s.guards[g].stage == Undispatched
    requires y.worker == s.guards[g].worker && (y.worker == w ==> y.stage == Gone)
    ensures Accounted(w, s.workers[w], s.guards[g := y])
  {
    TotalUpdate(Dispatches(w), s.guards, g, y);
    forall m ensures Total(Models(w, m), s.guards[g := y]) == Total(Models(w, m), s.guards)
      && Total(Work(w, m), s.guards[g := y]) == Total(Work(w, m), s.guards)
    {
      TotalUpdate(Models(w, m), s.guards, g, y);
      TotalUpdate(Work(w, m), s.guards, g, y);
    }
  }

  lemma AdvanceAccounting(s: State, g: nat)
    requires Accounting(s) && g < |s.guards| && s.guards[g].stage != Gone
    ensures Accounting(GuardStep(s, g))
  {
    var r := GuardStep(s, g);
    forall w | 0 <= w < |r.workers| ensures Accounted(w, r.workers[w], r.guards) {
      if s.guards[g].stage == Undispatched || w != s.guards[g].worker {
        assert Accounted(w, s.workers[w], s.guards);
        OthersAccounted(s, g, r.guards[g], w);
      } else {
        GuardAccounted(s, g);
      }
    }
  }

  lemma TakeAccounting(s: State, x: Guard)
    requires Accounting(s) && x.stage == Chosen && x.worker < |s.workers| && x.units >= 1
    ensures Accounting(s.(guards := s.guards + [x]))
  {
    var guards := s.guards + [x];
    assert guards[..|guards| - 1] == s.guards;
    forall w | 0 <= w < |s.workers| ensures Accounted(w, s.workers[w], guards) {
      assert Accounted(w, s.workers[w], s.guards);
    }
  }

  lemma AccountingStep(c: Config, s: State, step: Step)
    requires Accounting(s) && Enabled(c, s, step)
    ensures Accounting(Next(c, s, step))
  {
    match step
    case Advance(g) => AdvanceAccounting(s, g);
    case Take(r, w) =>
      var x := s.waiters[r];
      assert w < |s.workers|;
      TakeAccounting(s, Guard(w, x.open[w], x.req.units, Chosen));
    case _ => OtherAccounting(c, s, step);
  }

  lemma OtherAccounting(c: Config, s: State, step: Step)
    requires Accounting(s) && Enabled(c, s, step) && !step.Advance? && !step.Take?
    ensures Accounting(Next(c, s, step))
  {
    var r := Next(c, s, step);
    assert r.guards == s.guards && |r.workers| == |s.workers|;
    if MovesWaiter(step) {
      assert r.workers == s.workers;
      UnitsStay(c, s, step);
    } else {
      forall w | 0 <= w < |s.workers| ensures Accounted(w, r.workers[w], s.guards) {
        assert Accounted(w, s.workers[w], s.guards);
      }
    }
  }

  lemma UnitsStay(c: Config, s: State, step: Step)
    requires Accounting(s) && Enabled(c, s, step) && MovesWaiter(step)
    ensures var t := WaiterNext(c, s, step);
      forall r :: 0 <= r < |t.waiters| ==> t.waiters[r].req.units >= 1 && OpenInRange(s, t.waiters[r])
  {
    var x, y := s.waiters[step.r], WaiterNext(c, s, step).waiters[step.r];
    assert forall w :: w in y.open ==> w in x.open || (step.Read? && w == step.w);
  }

  /** Nothing a drop subtracts is missing: no subtraction saturates and no entry is absent. */
  lemma DropNeverSaturates(s: State, g: nat)
    requires Accounting(s) && g < |s.guards|
    ensures var x := s.guards[g]; var w := s.workers[x.worker];
      && (x.stage == Live ==> x.model in w.byModel && w.byModel[x.model] >= 1)
      && (x.stage == Unmodelled ==> x.model in w.workByModel && w.workByModel[x.model] >= x.units)
      && (x.stage == Unworked ==> w.dispatched >= 1)
  {
    var x := s.guards[g];
    assert Accounted(x.worker, s.workers[x.worker], s.guards);
    WeightInTotal(Models(x.worker, x.model), s.guards, g);
    WeightInTotal(Work(x.worker, x.model), s.guards, g);
    WeightInTotal(Dispatches(x.worker), s.guards, g);
  }
}
