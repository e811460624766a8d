/** The wait queue and the admission caps: no lost wake-ups, bounded waiting, caps respected. */
module RouterWakeups {
  import opened Wrappers
  import opened RouterPick
  import opened RouterMachine
  import opened RouterTheorems

  // ---- What a waiter's flags say ----

  ghost predicate Shaped(x: Waiter) {
    && (x.outer.on ==> x.holds && (InPick(x) || x.phase == Queued || x.phase == Parked))
    && (x.phase == Parked || (InPick(x) && x.holds) ==> x.outer.on)
    && (x.inner.on <==> InPick(x))
    && (x.phase == Queued ==> x.holds)
    && (x.phase == Idle || x.phase == Missed || x.phase == Bounced ==> !x.holds)
  }

  predicate InPick(x: Waiter) {
    x.phase == Picking || x.phase == Looking || x.phase == Inside
  }

  predicate IsReserving(stage: Stage) {
    stage.Chosen? || stage.Dispatched? || stage.Modelled?
  }

  /** A scan or a reservation in progress holds the lock, so there is at most one of either. */
  ghost predicate Structured(s: State) {
    && (forall r :: 0 <= r < |s.waiters| ==> Shaped(s.waiters[r]))
    && (forall r :: 0 <= r < |s.waiters| && s.waiters[r].phase == Looking ==> s.lock == Scanning(r))
    && (forall g :: 0 <= g < |s.guards| && IsReserving(s.guards[g].stage) ==> s.lock == Reserving(g))
    && (s.lock.Scanning? ==> InPhase(s, s.lock.waiter, Looking))
    && (s.lock.Reserving? ==> s.lock.guard < |s.guards| && IsReserving(s.guards[s.lock.guard].stage))
  }

  /** The phases a waiter's step may be taken in. */
  predicate From(x: Waiter, step: Step) {
    match step
    case Arrive(_, _, _) => x.phase == Idle
    case Begin(_) => x.phase == Idle || (x.phase == Queued && x.outer.on) || x.phase == Inside
    case Refreshed(_) => x.phase == Inside
    case Look(_) => x.phase == Picking
    case Read(_, _) => x.phase == Looking
    case TellBusy(_) => x.phase == Looking
    case Enqueue(_) => x.phase == Missed
    case Unbounce(_) => x.phase == Bounced
    case Register(_) => x.phase == Queued
    case Resume(_) => x.phase == Parked
    case GiveUp(_) => InPick(x) || x.phase == Queued || x.phase == Parked
    case Exit(_) => x.phase == Leaving
    case Take(_, _) => x.phase == Looking
    case _ => false
  }

  lemma EnabledFrom(c: Config, s: State, step: Step)
    requires Enabled(c, s, step) && MovesWaiter(step)
    ensures Aimed(s, step) && From(s.waiters[step.r], step) && Next(c, s, step) == WaiterNext(c, s, step)
    ensures step.Look? ==> s.lock == Free
    ensures step.Read? || step.TellBusy? || step.Take? ==> s.lock == Scanning(step.r)
    ensures step.TellBusy? ==> forall w :: 0 <= w < |s.workers| ==> w in s.waiters[step.r].full
  {
  }

  /** A waiter's step changes that waiter alone; only taking a slot adds a guard. */
  lemma WaiterFrame(c: Config, s: State, step: Step)
    requires Enabled(c, s, step) && MovesWaiter(step)
    ensures step.r < |s.waiters| && |Next(c, s, step).waiters| == |s.waiters|
    ensures var t := Next(c, s, step);
      && t.workers == s.workers && t.dirty == s.dirty
      && t.waiters == s.waiters[step.r := t.waiters[step.r]]
      && (!step.Take? ==> t.guards == s.guards)
      && (step.Take? ==> |t.guards| == |s.guards| + 1 && t.guards[..|s.guards|] == s.guards
                         && t.guards[|s.guards|].stage == Chosen)
  {
    EnabledFrom(c, s, step);
  }

  lemma ShapedMoved(x: Waiter, step: Step, model: Option<string>, room: bool)
    requires MovesWaiter(step) && From(x, step) && Shaped(x)
    ensures Shaped(Moved(x, step, model, room))
    ensures Moved(x, step, model, room).phase == Looking <==> step.Look? || step.Read?
  {
  }

  lemma LockStep(c: Config, s: State, step: Step)
    requires Structured(s) && Enabled(c, s, step) && MovesWaiter(step)
    ensures var t := Next(c, s, step);
      && (t.waiters[step.r].phase == Looking <==> t.lock == Scanning(step.r))
      && (step.Take? ==> s.lock == Scanning(step.r) && t.lock == Reserving(|s.guards|))
      && (step.Look? ==> s.lock == Free)
      && (!step.Take? && !step.Look? && s.lock != Scanning(step.r) ==> t.lock == s.lock)
      && (!step.Take? && !step.Look? && s.lock == Scanning(step.r) ==> t.lock == s.lock || t.lock == Free)
  {
    EnabledFrom(c, s, step);
    ShapedMoved(s.waiters[step.r], step, Found(c, s, step), s.queued < c.depth);
    assert s.waiters[step.r].phase == Looking <==> s.lock == Scanning(step.r);
  }

  lemma WaiterStructured(c: Config, s: State, step: Step)
    requires Structured(s) && Enabled(c, s, step) && MovesWaiter(step)
    ensures Structured(Next(c, s, step))
  {
    var t := Next(c, s, step);
    WaiterFrame(c, s, step);
    EnabledFrom(c, s, step);
    ShapedMoved(s.waiters[step.r], step, Found(c, s, step), s.queued < c.depth);
    LockStep(c, s, step);
    OneMoved(s, t, step.r);
  }

  /** Changing one waiter, and the lock with it, keeps the structure. */
  lemma OneMoved(s: State, t: State, r: nat)
    requires Structured(s) && r < |s.waiters| == |t.waiters| && t.waiters == s.waiters[r := t.waiters[r]]
    requires Shaped(t.waiters[r]) && (t.waiters[r].phase == Looking <==> t.lock == Scanning(r))
    requires
      || (t.guards == s.guards
          && (t.lock == s.lock || (s.lock == Free && t.lock == Scanning(r))
              || (s.lock == Scanning(r) && t.lock == Free)))
      || (|t.guards| == |s.guards| + 1 && t.guards[..|s.guards|] == s.guards && t.guards[|s.guards|].stage == Chosen
          && s.lock == Scanning(r) && t.lock == Reserving(|s.guards|))
    ensures Structured(t)
  {
    assert forall i :: 0 <= i < |s.guards| ==> t.guards[..|s.guards|][i] == t.guards[i];
    assert forall i :: 0 <= i < |s.waiters| && i != r ==> t.waiters[i] == s.waiters[i];
  }

  lemma StructuredStep(c: Config, s: State, step: Step)
    requires Structured(s) && Enabled(c, s, step)
    ensures Structured(Next(c, s, step))
  {
    if MovesWaiter(step) {
      WaiterStructured(c, s, step);
    } else if step.Advance? {
      AdvanceStructured(s, step.g);
    } else {
      StatusStructured(c, s, step);
    }
  }

  lemma AdvanceStructured(s: State, g: nat)
    requires Structured(s) && g < |s.guards| && s.guards[g].stage != Gone && s.guards[g].worker < |s.workers|
    ensures Structured(GuardStep(s, g))
  {
    var t := GuardStep(s, g);
    assert forall i :: 0 <= i < |s.guards| && i != g ==> t.guards[i] == s.guards[i];
    forall r | 0 <= r < |t.waiters| ensures Shaped(t.waiters[r]) && t.waiters[r].phase == s.waiters[r].phase {
      assert Shaped(s.waiters[r]);
    }
  }

  lemma StatusStructured(c: Config, s: State, step: Step)
    requires Structured(s) && Enabled(c, s, step) && !MovesWaiter(step) && !step.Advance?
    ensures Structured(Next(c, s, step))
  {
    var t := Next(c, s, step);
    forall r | 0 <= r < |t.waiters| ensures Shaped(t.waiters[r]) && t.waiters[r].phase == s.waiters[r].phase {
      assert Shaped(s.waiters[r]);
    }
  }

  // ---- No lost wake-ups ----

  predicate IsReleasing(stage: Stage) {
    stage.Unmodelled? || stage.Unworked? || stage.Undispatched?
  }

  /** A drop or a refresh has changed something and still owes its notification. */
  ghost predicate Pending(s: State) {
    s.dirty != {} || exists g :: 0 <= g < |s.guards| && IsReleasing(s.guards[g].stage)
  }

  predicate Silent(b: Bell) {
    b.on && !b.rung
  }

  /**
    While either registration stands unnotified and no notification is owed, every worker found
    full still turns the request away; a waiting request found them all full.
  */
  ghost predicate StillFull(c: Config, s: State, r: nat)
    requires r < |s.waiters|
  {
    var x := s.waiters[r];
    && ((Silent(x.outer) || Silent(x.inner)) && !Pending(s) ==>
          forall w :: w in x.full && w < |s.workers| ==> !AdmitsNow(c, s, r, w))
    && (x.phase == Parked || x.phase == Inside ==> forall w :: 0 <= w < |s.workers| ==> w in x.full)
  }

  ghost predicate Wakes(c: Config, s: State) {
    forall r :: 0 <= r < |s.waiters| ==> StillFull(c, s, r)
  }

  /** The counters a reservation raises only turn requests away. */
  lemma ReservingKeepsFull(c: Config, s: State, g: nat, r: nat)
    requires Accounting(s) && g < |s.guards| && IsReserving(s.guards[g].stage)
    requires r < |s.waiters| && StillFull(c, s, r)
    ensures StillFull(c, GuardStep(s, g), r)
  {
    var t, x := GuardStep(s, g), s.guards[g];
    assert forall i :: 0 <= i < |s.guards| && i != g ==> t.guards[i] == s.guards[i];
    assert Pending(s) ==> Pending(t) by {
      if s.dirty == {} && Pending(s) {
        var i :| 0 <= i < |s.guards| && IsReleasing(s.guards[i].stage);
        assert IsReleasing(t.guards[i].stage);
      }
    }
    forall w | w in t.waiters[r].full && w < |t.workers| && AdmitsNow(c, t, r, w)
      ensures AdmitsNow(c, s, r, w)
    {
      assert forall m :: Get(s.workers[w].byModel, m) <= Get(t.workers[w].byModel, m);
      MoreLoadNeverAdmits(c.cap, s.workers[w], t.workers[w], s.waiters[r].req, w in s.waiters[r].tried);
    }
  }

  lemma AdvanceWakes(c: Config, s: State, g: nat)
    requires Accounting(s) && Wakes(c, s) && g < |s.guards| && s.guards[g].stage != Gone
    ensures Wakes(c, GuardStep(s, g))
  {
    var t := GuardStep(s, g);
    forall r | 0 <= r < |t.waiters| ensures StillFull(c, t, r) {
      assert StillFull(c, s, r);
      if IsReserving(s.guards[g].stage) {
        ReservingKeepsFull(c, s, g, r);
      } else if s.guards[g].stage != Undispatched {
        assert IsReleasing(t.guards[g].stage);
      }
    }
  }

  lemma PendingKept(s: State, t: State)
    requires t.dirty == s.dirty && |s.guards| <= |t.guards| && t.guards[..|s.guards|] == s.guards
    ensures Pending(s) ==> Pending(t)
  {
    if s.dirty == {} && Pending(s) {
      var i :| 0 <= i < |s.guards| && IsReleasing(s.guards[i].stage);
      assert t.guards[..|s.guards|][i] == t.guards[i];
    }
  }

  lemma WaiterWakes(c: Config, s: State, step: Step)
    requires Structured(s) && Wakes(c, s) && Enabled(c, s, step) && MovesWaiter(step)
    ensures Wakes(c, Next(c, s, step))
  {
    var t := Next(c, s, step);
    WaiterFrame(c, s, step);
    PendingKept(s, t);
    assert StillFull(c, s, step.r);
    MovedWaiterWakes(c, s, step);
    forall r | 0 <= r < |t.waiters| && r != step.r ensures StillFull(c, t, r) {
      assert StillFull(c, s, r);
    }
  }

  lemma MovedWaiterWakes(c: Config, s: State, step: Step)
    requires Enabled(c, s, step) && MovesWaiter(step) && step.r < |s.waiters|
    requires StillFull(c, s, step.r) && Shaped(s.waiters[step.r]) && (Pending(s) ==> Pending(Next(c, s, step)))
    ensures StillFull(c, Next(c, s, step), step.r)
  {
    EnabledFrom(c, s, step);
    var x, t := s.waiters[step.r], WaiterNext(c, s, step);
    var y := t.waiters[step.r];
    if step.Read? {
      ReadKeeps(x, step, Found(c, s, step));
    } else if step.TellBusy? {
      BusyKeeps(x, step);
    } else {
      Forgets(x, step, s.queued < c.depth);
    }
    KeptFull(c, s, t, step.r);
  }

  lemma KeptFull(c: Config, s: State, t: State, r: nat)
    requires r < |s.waiters| && r < |t.waiters| && t.workers == s.workers && StillFull(c, s, r)
    requires Pending(s) ==> Pending(t)
    requires var x, y := s.waiters[r], t.waiters[r];
      && (y.phase == Parked || y.phase == Inside ==> forall w :: 0 <= w < |s.workers| ==> w in y.full)
      && (Silent(y.outer) || Silent(y.inner) ==>
            && (y.full == {} || Silent(x.outer) || Silent(x.inner))
            && (y.full == {} || (y.tried == x.tried && y.req == x.req))
            && forall w :: w in y.full ==> w in x.full || (w < |s.workers| && !AdmitsNow(c, s, r, w)))
    ensures StillFull(c, t, r)
  {
    var y := t.waiters[r];
    if (Silent(y.outer) || Silent(y.inner)) && !Pending(t) {
      forall w | w in y.full && w < |t.workers| ensures !AdmitsNow(c, t, r, w) {
        assert !AdmitsNow(c, s, r, w);
      }
    }
  }

  lemma ReadKeeps(x: Waiter, step: Step, model: Option<string>)
    requires step.Read? && From(x, step)
    ensures var y := Moved(x, step, model, true);
      && y.phase == Looking && y.outer == x.outer && y.inner == x.inner && y.req == x.req && y.tried == x.tried
      && forall w :: w in y.full ==> w in x.full || (w == step.w && model.None?)
  {
  }

  lemma BusyKeeps(x: Waiter, step: Step)
    requires step.TellBusy? && From(x, step)
    ensures var y := Moved(x, step, None, true);
      && y.outer == x.outer && (Silent(y.inner) ==> Silent(x.inner))
      && y.req == x.req && y.tried == x.tried && y.full == x.full
  {
  }

  /** Other steps forget what was found full, or keep it and set no registration. */
  lemma Forgets(x: Waiter, step: Step, room: bool)
    requires MovesWaiter(step) && From(x, step) && Shaped(x) && !step.Read? && !step.TellBusy?
    ensures var y := Moved(x, step, None, room);
      && y.phase != Parked && y.phase != Inside
      && (y.full != {} && (Silent(y.outer) || Silent(y.inner)) ==>
            (Silent(x.outer) || Silent(x.inner)) && y.full == x.full && y.tried == x.tried && y.req == x.req)
  {
  }

  lemma StatusWakes(c: Config, s: State, step: Step)
    requires Wakes(c, s) && Enabled(c, s, step) && !MovesWaiter(step) && !step.Advance?
    ensures Wakes(c, Next(c, s, step))
  {
    var t := Next(c, s, step);
    assert t.guards == s.guards;
    forall r | 0 <= r < |t.waiters| ensures StillFull(c, t, r) {
      assert StillFull(c, s, r);
    }
  }

  lemma WakesStep(c: Config, s: State, step: Step)
    requires Structured(s) && Accounting(s) && Wakes(c, s) && Enabled(c, s, step)
    ensures Wakes(c, Next(c, s, step))
  {
    if MovesWaiter(step) {
      WaiterWakes(c, s, step);
    } else if step.Advance? {
      AdvanceWakes(c, s, step.g);
    } else {
      StatusWakes(c, s, step);
    }
  }

  // ---- Bounded waiting ----

  datatype Place = Held | Bouncing

  function Counted(p: Place, x: Waiter): nat {
    match p
    case Held => if x.holds then 1 else 0
    case Bouncing => if x.phase == Bounced then 1 else 0
  }

  function Places(p: Place, waiters: seq<Waiter>): nat {
    if waiters == [] then 0 else Places(p, waiters[..|waiters| - 1]) + Counted(p, waiters[|waiters| - 1])
  }

  lemma {:induction false} PlacesUpdate(p: Place, waiters: seq<Waiter>, r: nat, x: Waiter)
    requires r < |waiters|
    ensures Places(p, waiters[r := x]) + Counted(p, waiters[r]) == Places(p, waiters) + Counted(p, x)
  {
    var n := |waiters| - 1;
    if r < n {
      PlacesUpdate(p, waiters[..n], r, x);
      assert waiters[r := x][..n] == waiters[..n][r := x];
    } else {
      assert waiters[r := x][..n] == waiters[..n];
    }
  }

  lemma {:induction false} PlacesSame(p: Place, a: seq<Waiter>, b: seq<Waiter>)
    requires |a| == |b| && forall i :: 0 <= i < |a| ==> Counted(p, a[i]) == Counted(p, b[i])
    ensures Places(p, a) == Places(p, b)
  {
    if a != [] {
      PlacesSame(p, a[..|a| - 1], b[..|b| - 1]);
    }
  }

  /**
    The queue counter is the places held plus the requests about to give theirs back; places never exceed the
    depth.
  */
  ghost predicate Bounded(c: Config, s: State) {
    && s.queued == Places(Held, s.waiters) + Places(Bouncing, s.waiters)
    && Places(Held, s.waiters) <= c.depth
  }

  lemma BoundedStep(c: Config, s: State, step: Step)
    requires Structured(s) && Bounded(c, s) && Enabled(c, s, step)
    ensures Bounded(c, Next(c, s, step))
  {
    var t := Next(c, s, step);
    if MovesWaiter(step) {
      EnabledFrom(c, s, step);
      PlacesUpdate(Held, s.waiters, step.r, t.waiters[step.r]);
      PlacesUpdate(Bouncing, s.waiters, step.r, t.waiters[step.r]);
      assert Shaped(s.waiters[step.r]);
      QueuedStep(s.waiters[step.r], step, Found(c, s, step), c.depth, s.queued);
    } else {
      OthersKeepPlaces(c, s, step, Held);
      OthersKeepPlaces(c, s, step, Bouncing);
    }
  }

  lemma OthersKeepPlaces(c: Config, s: State, step: Step, p: Place)
    requires Enabled(c, s, step) && !MovesWaiter(step)
    ensures Places(p, Next(c, s, step).waiters) == Places(p, s.waiters) && Next(c, s, step).queued == s.queued
  {
    PlacesSame(p, s.waiters, Next(c, s, step).waiters);
  }

  /** The queue counter moves with the waiter's place. */
  lemma QueuedStep(x: Waiter, step: Step, model: Option<string>, depth: nat, queued: nat)
    requires MovesWaiter(step) && From(x, step) && Shaped(x)
    ensures var y := Moved(x, step, model, queued < depth);
      var was, now := Counted(Held, x) + Counted(Bouncing, x), Counted(Held, y) + Counted(Bouncing, y);
      && QueuedAfter(queued, step, x.holds)
         == (if now >= was then queued + (now - was) else SatSub(queued, was - now))
      && (Counted(Held, y) > Counted(Held, x) ==> queued < depth)
  {
  }
}
