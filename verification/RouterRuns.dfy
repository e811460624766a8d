/** Admission caps, and the invariant of every run. */
module RouterRuns {
  import opened Wrappers
  import opened RouterPick
  import opened RouterMachine
  import opened RouterTheorems
  import opened RouterWakeups

  // ---- The configured per-worker cap ----

  /** A worker read as open, or chosen and not yet counted, has a slot to spare under a configured cap. */
  ghost predicate UnderCap(c: Config, s: State) {
    c.cap.Some? ==>
      var cap := AtLeastOne(c.cap.value);
      && (forall w :: 0 <= w < |s.workers| ==> s.workers[w].dispatched <= cap)
      && (s.lock.Scanning? && s.lock.waiter < |s.waiters| ==>
            forall w :: w in s.waiters[s.lock.waiter].open && w < |s.workers| ==> s.workers[w].dispatched < cap)
      && (s.lock.Reserving? && s.lock.guard < |s.guards| && s.guards[s.lock.guard].stage == Chosen
          && s.guards[s.lock.guard].worker < |s.workers| ==>
            s.workers[s.guards[s.lock.guard].worker].dispatched < cap)
  }

  lemma AdmittedUnderCap(cap: Option<nat>, w: Worker, req: Request, excluded: bool)
    requires Admits(cap, w, req, excluded) && cap.Some?
    ensures w.dispatched < AtLeastOne(cap.value)
  {
  }

  lemma AdvanceUnderCap(c: Config, s: State, g: nat)
    requires Structured(s) && UnderCap(c, s) && Accounting(s) && g < |s.guards| && s.guards[g].stage != Gone
    ensures UnderCap(c, GuardStep(s, g))
  {
    var t := GuardStep(s, g);
    assert forall i :: 0 <= i < |s.guards| && i != g ==> t.guards[i] == s.guards[i];
    assert forall w :: 0 <= w < |s.workers| && w != s.guards[g].worker ==> t.workers[w] == s.workers[w];
  }

  lemma WaiterUnderCap(c: Config, s: State, step: Step)
    requires Structured(s) && UnderCap(c, s) && Enabled(c, s, step) && MovesWaiter(step)
    ensures UnderCap(c, Next(c, s, step))
  {
    WaiterFrame(c, s, step);
    LockStep(c, s, step);
    if step.Read? && AdmitsNow(c, s, step.r, step.w) && c.cap.Some? {
      AdmittedUnderCap(c.cap, s.workers[step.w], s.waiters[step.r].req, step.w in s.waiters[step.r].tried);
    }
  }

  lemma StatusUnderCap(c: Config, s: State, step: Step)
    requires Structured(s) && UnderCap(c, s) && Enabled(c, s, step) && !MovesWaiter(step) && !step.Advance?
    ensures UnderCap(c, Next(c, s, step))
  {
    var t := Next(c, s, step);
    assert forall w :: 0 <= w < |s.workers| ==> t.workers[w].dispatched == s.workers[w].dispatched;
    assert forall r :: 0 <= r < |s.waiters| ==> t.waiters[r].open == s.waiters[r].open;
  }

  lemma UnderCapStep(c: Config, s: State, step: Step)
    requires Structured(s) && UnderCap(c, s) && Accounting(s) && Enabled(c, s, step)
    ensures UnderCap(c, Next(c, s, step))
  {
    if MovesWaiter(step) {
      WaiterUnderCap(c, s, step);
    } else if step.Advance? {
      AdvanceUnderCap(c, s, step.g);
    } else {
      StatusUnderCap(c, s, step);
    }
  }

  // ---- The models' own caps, while the reports stay the same ----

  function CapOf(info: Info, m: string): Option<nat> {
    var own := FindSlots(info.models, m);
    if own.Some? then Some(AtLeastOne(own.value.maxConcurrency)) else None
  }

  /** A model with its own figures is within them; a worker without any is within its own. */
  ghost predicate WithinOwn(cap: Option<nat>, x: Worker) {
    x.info.Some? ==>
      && (forall m :: CapOf(x.info.value, m).Some? ==> Get(x.byModel, m) <= CapOf(x.info.value, m).value)
      && (x.info.value.models == [] ==> x.dispatched <= SlotsFor(cap, x.info.value))
  }

  /** Room for one more of model `m`; `counted` once the worker-wide count has it already. */
  ghost predicate RoomFor(cap: Option<nat>, x: Worker, m: string, counted: bool) {
    x.info.Some? ==>
      && (CapOf(x.info.value, m).Some? ==> Get(x.byModel, m) < CapOf(x.info.value, m).value)
      && (x.info.value.models == [] && !counted ==> x.dispatched < SlotsFor(cap, x.info.value))
  }

  ghost predicate AllWithinOwn(c: Config, s: State) {
    forall w :: 0 <= w < |s.workers| ==> WithinOwn(c.cap, s.workers[w])
  }

  /** What the scan in progress found open has room. */
  ghost predicate ScanHasRoom(c: Config, s: State) {
    s.lock.Scanning? && s.lock.waiter < |s.waiters| ==>
      forall w :: w in s.waiters[s.lock.waiter].open && w < |s.workers| ==>
        RoomFor(c.cap, s.workers[w], s.waiters[s.lock.waiter].open[w], false)
  }

  /** So has what the reservation in progress is about to count. */
  ghost predicate ReserveHasRoom(c: Config, s: State) {
    s.lock.Reserving? && s.lock.guard < |s.guards| && s.guards[s.lock.guard].worker < |s.workers| ==>
      var x := s.guards[s.lock.guard];
      (x.stage == Chosen || x.stage == Dispatched ==>
         RoomFor(c.cap, s.workers[x.worker], x.model, x.stage == Dispatched))
  }

  ghost predicate OwnCaps(c: Config, s: State) {
    AllWithinOwn(c, s) && ScanHasRoom(c, s) && ReserveHasRoom(c, s)
  }

  /** A refresh that leaves what the worker reported as it was (its load figures may change). */
  predicate KeepsReport(s: State, step: Step) {
    step.Update? && step.w < |s.workers| ==> step.status.info == s.workers[step.w].info
  }

  lemma AdmittedHasRoom(cap: Option<nat>, w: Worker, req: Request, excluded: bool)
    requires Admits(cap, w, req, excluded)
    ensures RoomFor(cap, w, Selected(w.info.value, req), false)
  {
    var own := Own(w.info.value, req);
    assert CapOf(w.info.value, Selected(w.info.value, req)).Some? <==> own.Some?;
  }

  lemma WorkerAdvance(s: State, g: nat)
    requires Accounting(s) && g < |s.guards| && s.guards[g].stage != Gone
    ensures var x, t := s.guards[g], GuardStep(s, g);
      var was, now := s.workers[x.worker], t.workers[x.worker];
      && now.info == was.info
      && now.dispatched <= was.dispatched + (if x.stage == Chosen then 1 else 0)
      && forall m :: Get(now.byModel, m) <= Get(was.byModel, m) + if x.stage == Dispatched && m == x.model then 1 else 0
  {
  }

  lemma AdvanceOwnCaps(c: Config, s: State, g: nat)
    requires Structured(s) && OwnCaps(c, s) && Accounting(s) && g < |s.guards| && s.guards[g].stage != Gone
    ensures OwnCaps(c, GuardStep(s, g))
  {
    AdvanceWithinOwn(c, s, g);
    AdvanceScan(c, s, g);
    AdvanceReserve(c, s, g);
  }

  lemma AdvanceWithinOwn(c: Config, s: State, g: nat)
    requires Structured(s) && OwnCaps(c, s) && Accounting(s) && g < |s.guards| && s.guards[g].stage != Gone
    ensures AllWithinOwn(c, GuardStep(s, g))
  {
    var t, x := GuardStep(s, g), s.guards[g];
    WorkerAdvance(s, g);
    assert WithinOwn(c.cap, s.workers[x.worker]);
    assert x.stage == Chosen || x.stage == Dispatched ==> s.lock == Reserving(g);
    forall w | 0 <= w < |t.workers| && w != x.worker ensures WithinOwn(c.cap, t.workers[w]) {
      assert t.workers[w] == s.workers[w];
    }
  }

  lemma AdvanceScan(c: Config, s: State, g: nat)
    requires Structured(s) && OwnCaps(c, s) && Accounting(s) && g < |s.guards| && s.guards[g].stage != Gone
    ensures ScanHasRoom(c, GuardStep(s, g))
  {
    var t, x := GuardStep(s, g), s.guards[g];
    WorkerAdvance(s, g);
    assert forall w :: 0 <= w < |s.workers| && w != x.worker ==> t.workers[w] == s.workers[w];
    assert forall r :: 0 <= r < |s.waiters| ==> t.waiters[r].open == s.waiters[r].open;
    assert x.stage == Chosen || x.stage == Dispatched ==> s.lock == Reserving(g);
  }

  lemma AdvanceReserve(c: Config, s: State, g: nat)
    requires Structured(s) && OwnCaps(c, s) && Accounting(s) && g < |s.guards| && s.guards[g].stage != Gone
    ensures ReserveHasRoom(c, GuardStep(s, g))
  {
    var t, x := GuardStep(s, g), s.guards[g];
    WorkerAdvance(s, g);
    assert forall i :: 0 <= i < |s.guards| && i != g ==> t.guards[i] == s.guards[i];
    assert forall w :: 0 <= w < |s.workers| && w != x.worker ==> t.workers[w] == s.workers[w];
    assert x.stage == Chosen || x.stage == Dispatched ==> s.lock == Reserving(g);
  }

  lemma WaiterOwnCaps(c: Config, s: State, step: Step)
    requires Structured(s) && OwnCaps(c, s) && Enabled(c, s, step) && MovesWaiter(step)
    ensures OwnCaps(c, Next(c, s, step))
  {
    WaiterFrame(c, s, step);
    LockStep(c, s, step);
    if step.Read? && AdmitsNow(c, s, step.r, step.w) {
      AdmittedHasRoom(c.cap, s.workers[step.w], s.waiters[step.r].req, step.w in s.waiters[step.r].tried);
    }
  }

  lemma StatusOwnCaps(c: Config, s: State, step: Step)
    requires Structured(s) && OwnCaps(c, s) && Enabled(c, s, step) && !MovesWaiter(step) && !step.Advance?
    requires KeepsReport(s, step)
    ensures OwnCaps(c, Next(c, s, step))
  {
    var t := Next(c, s, step);
    forall w | 0 <= w < |s.workers| ensures SameRoom(s.workers[w], t.workers[w]) {
    }
    SameRoomOwnCaps(c, s, t);
  }

  /** Alike in everything the own caps look at. */
  ghost predicate SameRoom(a: Worker, b: Worker) {
    a.info == b.info && a.dispatched == b.dispatched && a.byModel == b.byModel
  }

  lemma SameRoomOwnCaps(c: Config, s: State, t: State)
    requires OwnCaps(c, s) && |t.workers| == |s.workers| && t.guards == s.guards && t.lock == s.lock
    requires forall w :: 0 <= w < |s.workers| ==> SameRoom(s.workers[w], t.workers[w])
    requires |t.waiters| == |s.waiters| && forall r :: 0 <= r < |s.waiters| ==> t.waiters[r].open == s.waiters[r].open
    ensures OwnCaps(c, t)
  {
    forall w | 0 <= w < |s.workers| ensures WithinOwn(c.cap, t.workers[w]) {
      assert WithinOwn(c.cap, s.workers[w]) && SameRoom(s.workers[w], t.workers[w]);
    }
  }

  lemma OwnCapsStep(c: Config, s: State, step: Step)
    requires Structured(s) && OwnCaps(c, s) && Accounting(s) && Enabled(c, s, step) && KeepsReport(s, step)
    ensures OwnCaps(c, Next(c, s, step))
  {
    if MovesWaiter(step) {
      WaiterOwnCaps(c, s, step);
    } else if step.Advance? {
      AdvanceOwnCaps(c, s, step.g);
    } else {
      StatusOwnCaps(c, s, step);
    }
  }

  // ---- Every run ----

  /** A coordinator before any request: no guard, no counter, nobody waiting. */
  ghost predicate Initial(s: State) {
    && s.guards == [] && s.lock == Free && s.queued == 0 && s.dirty == {}
    && (forall w :: 0 <= w < |s.workers| ==>
          s.workers[w].dispatched == 0 && s.workers[w].byModel == map[] && s.workers[w].workByModel == map[])
    && forall r :: 0 <= r < |s.waiters| ==>
         && s.waiters[r].phase == Idle && !s.waiters[r].holds && s.waiters[r].outer == OFF == s.waiters[r].inner
         && s.waiters[r].req.units >= 1 && s.waiters[r].open == map[]
  }

  /** The states of a run: each step is enabled where it is taken. */
  ghost predicate Run(c: Config, states: seq<State>, steps: seq<Step>) {
    && |states| == |steps| + 1 && Initial(states[0])
    && forall i :: 0 <= i < |steps| ==> Taken(c, states, steps, i)
  }

  ghost predicate Taken(c: Config, states: seq<State>, steps: seq<Step>, i: nat)
    requires |states| == |steps| + 1 && i < |steps|
  {
    Enabled(c, states[i], steps[i]) && states[i + 1] == Next(c, states[i], steps[i])
  }

  ghost predicate Invariant(c: Config, s: State) {
    Structured(s) && Accounting(s) && Wakes(c, s) && Bounded(c, s) && UnderCap(c, s)
  }

  lemma {:induction false} NobodyHolds(p: Place, waiters: seq<Waiter>)
    requires forall r :: 0 <= r < |waiters| ==> waiters[r].phase == Idle && !waiters[r].holds
    ensures Places(p, waiters) == 0
  {
    if waiters != [] {
      NobodyHolds(p, waiters[..|waiters| - 1]);
    }
  }

  lemma InitialInvariant(c: Config, s: State)
    requires Initial(s)
    ensures Invariant(c, s)
  {
    NobodyHolds(Held, s.waiters);
    NobodyHolds(Bouncing, s.waiters);
    forall w | 0 <= w < |s.workers| ensures Accounted(w, s.workers[w], s.guards) { }
  }

  /** In every state of every run the whole invariant holds. */
  lemma {:induction false} RunInvariant(c: Config, states: seq<State>, steps: seq<Step>, n: nat)
    requires Run(c, states, steps) && n <= |steps|
    ensures Invariant(c, states[n])
  {
    if n == 0 {
      InitialInvariant(c, states[0]);
    } else {
      RunInvariant(c, states, steps, n - 1);
      assert Taken(c, states, steps, n - 1);
      var s, step := states[n - 1], steps[n - 1];
      StructuredStep(c, s, step);
      AccountingStep(c, s, step);
      WakesStep(c, s, step);
      BoundedStep(c, s, step);
      UnderCapStep(c, s, step);
    }
  }

  /**
    No lost wake-ups: in every state of every run, a request waiting on a registration that was
    not notified, with no notification owed, is turned away by every worker right now.  That is
    the queue loop's registration for a parked request, and the pick's own for one that waits
    inside its pick, whatever became of the other.
  */
  lemma NoLostWakeups(c: Config, states: seq<State>, steps: seq<Step>, n: nat, r: nat, w: nat)
    requires Run(c, states, steps) && n <= |steps| && r < |states[n].waiters| && w < |states[n].workers|
    requires var x := states[n].waiters[r];
      (x.phase == Parked && !x.outer.rung) || (x.phase == Inside && !x.inner.rung)
    requires !Pending(states[n])
    ensures !AdmitsNow(c, states[n], r, w)
  {
    RunInvariant(c, states, steps, n);
    assert StillFull(c, states[n], r) && Shaped(states[n].waiters[r]);
  }

  /** The requests holding a queue place never number more than the queue's depth. */
  lemma QueueIsBounded(c: Config, states: seq<State>, steps: seq<Step>, n: nat)
    requires Run(c, states, steps) && n <= |steps|
    ensures Places(Held, states[n].waiters) <= c.depth
  {
    RunInvariant(c, states, steps, n);
  }

  /**
    The counters are the totals over the guards that still count, and a configured cap bounds
    what is dispatched to a worker.
  */
  lemma SlotsAreAccounted(c: Config, states: seq<State>, steps: seq<Step>, n: nat, w: nat)
    requires Run(c, states, steps) && n <= |steps| && w < |states[n].workers|
    ensures var s := states[n];
      && s.workers[w].dispatched == Total(Dispatches(w), s.guards)
      && (forall m :: Get(s.workers[w].byModel, m) == Total(Models(w, m), s.guards))
      && (forall m :: Get(s.workers[w].workByModel, m) == Total(Work(w, m), s.guards))
      && (c.cap.Some? ==> s.workers[w].dispatched <= AtLeastOne(c.cap.value))
  {
    RunInvariant(c, states, steps, n);
    assert Accounted(w, states[n].workers[w], states[n].guards);
  }

  /** While no refresh changes a report, every model stays within its own cap. */
  lemma {:induction false} ModelsStayWithinCaps(c: Config, states: seq<State>, steps: seq<Step>, n: nat)
    requires Run(c, states, steps) && n <= |steps|
    requires forall i :: 0 <= i < n ==> KeepsReport(states[i], steps[i])
    ensures OwnCaps(c, states[n])
  {
    if n == 0 {
      InitialOwnCaps(c, states[0]);
    } else {
      ModelsStayWithinCaps(c, states, steps, n - 1);
      RunInvariant(c, states, steps, n - 1);
      assert Taken(c, states, steps, n - 1);
      OwnCapsStep(c, states[n - 1], steps[n - 1]);
    }
  }

  lemma InitialOwnCaps(c: Config, s: State)
    requires Initial(s)
    ensures OwnCaps(c, s)
  {
    forall w | 0 <= w < |s.workers| ensures WithinOwn(c.cap, s.workers[w]) {
    }
  }
}
