/**
  Slot accounting and the wait queue as a machine of interleaved steps (src/coordinator.rs,
  `SlotGuard::drop`, `QueueGuard`, `refresh`, `acquire`).  Every counter update of the source is
  a step of its own; a scan and the reservation that follows it run under the pick lock, while
  guard drops, refreshes and health marks may come between any two steps.
*/
module RouterMachine {
  import opened Wrappers
  import opened RouterPick

  /** Where a slot guard is between its reservation and its last act, the notification. */
  datatype Stage = Chosen | Dispatched | Modelled | Live | Unmodelled | Unworked | Undispatched | Gone

  datatype Guard = Guard(worker: nat, model: string, units: nat, stage: Stage)

  /**
    `Picking` is about to look and `Looking` holds the pick lock.  `Inside` was told Busy and
    waits, within the pick, for the audio refresh or a wake-up.  `Missed` was told Busy before
    queueing, `Bounced` found the queue full, `Queued` holds a queue place, `Parked` looked and
    waits to be woken, `Leaving` has its answer.
  */
  datatype Phase = Idle | Picking | Looking | Inside | Missed | Bounced | Queued | Parked | Leaving

  /** One registration with the notifier: whether it stands, and whether it was notified. */
  datatype Bell = Bell(on: bool, rung: bool)

  /**
    `outer` is the queue loop's registration and `inner` the one within the pick; `last` says the
    audio refresh is over, so that the next look ends the pick.
  */
  datatype Waiter = Waiter(
    req: Request, tried: set<nat>, phase: Phase, holds: bool,
    outer: Bell, inner: Bell, last: bool, full: set<nat>, open: map<nat, string>)

  datatype Lock = Free | Scanning(waiter: nat) | Reserving(guard: nat)

  datatype Config = Config(cap: Option<nat>, depth: nat)

  datatype State = State(
    workers: seq<Worker>, guards: seq<Guard>, waiters: seq<Waiter>,
    lock: Lock, queued: nat, dirty: set<nat>)

  datatype Status = Status(healthy: bool, info: Option<Info>, external: nat, externalByModel: map<string, nat>)

  datatype Step =
    | Arrive(r: nat, req: Request, tried: set<nat>)
    | Begin(r: nat)
    | Refreshed(r: nat)
    | Look(r: nat)
    | Read(r: nat, w: nat)
    | TellBusy(r: nat)
    | Enqueue(r: nat)
    | Unbounce(r: nat)
    | Register(r: nat)
    | Resume(r: nat)
    | GiveUp(r: nat)
    | Exit(r: nat)
    | Take(r: nat, w: nat)
    | Advance(g: nat)
    | Update(id: nat, w: nat, status: Status)
    | RefreshNotify(id: nat)
    | MarkUnhealthy(w: nat)

  predicate AdmitsNow(c: Config, s: State, r: nat, w: nat)
    requires r < |s.waiters| && w < |s.workers|
  {
    Admits(c.cap, s.workers[w], s.waiters[r].req, w in s.waiters[r].tried)
  }

  predicate InPhase(s: State, r: nat, p: Phase) {
    r < |s.waiters| && s.waiters[r].phase == p
  }

  predicate Enabled(c: Config, s: State, step: Step) {
    match step
    case Arrive(r, req, tried) => InPhase(s, r, Idle) && req.units >= 1
    case Begin(r) =>
      || InPhase(s, r, Idle)
      || (InPhase(s, r, Queued) && s.waiters[r].outer.on)
      || (InPhase(s, r, Inside) && s.waiters[r].inner.rung)
    case Refreshed(r) => InPhase(s, r, Inside)
    case Look(r) => s.lock == Free && InPhase(s, r, Picking)
    case Read(r, w) =>
      && InPhase(s, r, Looking) && s.lock == Scanning(r) && w < |s.workers|
      && w !in s.waiters[r].full && w !in s.waiters[r].open
    case TellBusy(r) =>
      && InPhase(s, r, Looking) && s.lock == Scanning(r)
      && forall w :: 0 <= w < |s.workers| ==> w in s.waiters[r].full
    case Enqueue(r) => InPhase(s, r, Missed)
    case Unbounce(r) => InPhase(s, r, Bounced)
    case Register(r) => InPhase(s, r, Queued)
    case Resume(r) => InPhase(s, r, Parked) && s.waiters[r].outer.rung
    case GiveUp(r) =>
      || InPhase(s, r, Picking) || InPhase(s, r, Looking) || InPhase(s, r, Inside)
      || InPhase(s, r, Queued) || InPhase(s, r, Parked)
    case Exit(r) => InPhase(s, r, Leaving)
    case Take(r, w) => InPhase(s, r, Looking) && s.lock == Scanning(r) && w in s.waiters[r].open
    case Advance(g) => g < |s.guards| && s.guards[g].stage != Gone && s.guards[g].worker < |s.workers|
    case Update(_, w, _) => w < |s.workers|
    case RefreshNotify(id) => id in s.dirty
    case MarkUnhealthy(w) => w < |s.workers|
  }

  // ---- What each step does ----

  function SatSub(a: nat, b: nat): nat {
    if a < b then 0 else a - b
  }

  /** Subtract saturating, and remove an entry that reaches zero; an absent entry stays absent. */
  function Lowered(m: map<string, nat>, k: string, amount: nat): map<string, nat> {
    if k !in m then m else if SatSub(m[k], amount) == 0 then m - {k} else m[k := SatSub(m[k], amount)]
  }

  function Raised(m: map<string, nat>, k: string, amount: nat): map<string, nat> {
    m[k := Get(m, k) + amount]
  }

  const OFF := Bell(false, false)
  const SET := Bell(true, false)

  function Ring(b: Bell): Bell {
    if b.on then b.(rung := true) else b
  }

  function Woken(x: Waiter): Waiter {
    x.(outer := Ring(x.outer), inner := Ring(x.inner))
  }

  /** `notify_waiters`: wake every registration that stands, and only those. */
  function NotifyAll(s: State): State {
    s.(waiters := seq(|s.waiters|, i requires 0 <= i < |s.waiters| => Woken(s.waiters[i])))
  }

  function SetWaiter(s: State, r: nat, x: Waiter): State
    requires r < |s.waiters|
  {
    s.(waiters := s.waiters[r := x])
  }

  function SetGuard(s: State, g: nat, stage: Stage, w: Worker): State
    requires g < |s.guards| && s.guards[g].worker < |s.workers|
  {
    s.(guards := s.guards[g := s.guards[g].(stage := stage)], workers := s.workers[s.guards[g].worker := w])
  }

  /** A guard's next act: the reservation's three counters in turn, then the drop's three, then the wake-up. */
  function GuardStep(s: State, g: nat): State
    requires g < |s.guards| && s.guards[g].worker < |s.workers|
  {
    var x := s.guards[g];
    var w := s.workers[x.worker];
    match x.stage
    case Chosen => SetGuard(s, g, Dispatched, w.(dispatched := w.dispatched + 1))
    case Dispatched => SetGuard(s, g, Modelled, w.(byModel := Raised(w.byModel, x.model, 1)))
    case Modelled => SetGuard(s, g, Live, w.(workByModel := Raised(w.workByModel, x.model, x.units))).(lock := Free)
    case Live => SetGuard(s, g, Unmodelled, w.(byModel := Lowered(w.byModel, x.model, 1)))
    case Unmodelled => SetGuard(s, g, Unworked, w.(workByModel := Lowered(w.workByModel, x.model, x.units)))
    case Unworked => SetGuard(s, g, Undispatched, w.(dispatched := SatSub(w.dispatched, 1)))
    case Undispatched => NotifyAll(SetGuard(s, g, Gone, w))
    case Gone => s
  }

  predicate MovesWaiter(step: Step) {
    !step.Advance? && !step.Update? && !step.RefreshNotify? && !step.MarkUnhealthy?
  }

  /** What a waiter's own step makes of it: `model` is what a read admitted, `room` that the queue has a place. */
  function Moved(x: Waiter, step: Step, model: Option<string>, room: bool): Waiter
    requires MovesWaiter(step)
  {
    match step
    case Arrive(_, req, tried) => x.(req := req, tried := tried, full := {})
    case Begin(_) => x.(phase := Picking, inner := SET, last := false, full := {})
    case Refreshed(_) => x.(phase := Picking, last := true)
    case Look(_) => x.(phase := Looking, full := {}, open := map[])
    case Read(_, w) => if model.Some? then x.(open := x.open[w := model.value]) else x.(full := x.full + {w})
    case TellBusy(_) =>
      if !x.last then x.(phase := Inside)
      else x.(phase := if x.holds then Parked else Missed, inner := OFF)
    case Enqueue(_) => if room then x.(phase := Queued, holds := true) else x.(phase := Bounced)
    case Unbounce(_) => x.(phase := Idle)
    case Register(_) => x.(outer := SET, full := {})
    case Resume(_) => x.(phase := Queued, outer := OFF)
    case GiveUp(_) => x.(phase := Leaving, outer := OFF, inner := OFF)
    case Exit(_) => x.(phase := Idle, holds := false)
    case Take(_, _) => x.(phase := Leaving, outer := OFF, inner := OFF)
  }

  function LockAfter(s: State, step: Step): Lock {
    match step
    case Look(r) => Scanning(r)
    case TellBusy(_) => Free
    case GiveUp(r) => if s.lock == Scanning(r) then Free else s.lock
    case Take(_, _) => Reserving(|s.guards|)
    case _ => s.lock
  }

  function QueuedAfter(queued: nat, step: Step, holds: bool): nat {
    match step
    case Enqueue(_) => queued + 1
    case Unbounce(_) => SatSub(queued, 1)
    case Exit(_) => if holds then SatSub(queued, 1) else queued
    case _ => queued
  }

  /** A waiter's step that names a waiter, and a worker it may name. */
  predicate Aimed(s: State, step: Step) {
    && MovesWaiter(step) && step.r < |s.waiters|
    && (step.Read? ==> step.w < |s.workers|)
    && (step.Take? ==> step.w in s.waiters[step.r].open)
  }

  /** What a read finds: the model it would be served as, if the worker admits the request now. */
  function Found(c: Config, s: State, step: Step): Option<string>
    requires Aimed(s, step)
  {
    if step.Read? && AdmitsNow(c, s, step.r, step.w)
    then Some(Selected(s.workers[step.w].info.value, s.waiters[step.r].req)) else None
  }

  function WaiterNext(c: Config, s: State, step: Step): State
    requires Aimed(s, step)
  {
    var x := s.waiters[step.r];
    SetWaiter(s, step.r, Moved(x, step, Found(c, s, step), s.queued < c.depth))
      .(lock := LockAfter(s, step), queued := QueuedAfter(s.queued, step, x.holds),
        guards := if step.Take? then s.guards + [Guard(step.w, x.open[step.w], x.req.units, Chosen)] else s.guards)
  }

  function Next(c: Config, s: State, step: Step): State
    requires Enabled(c, s, step)
  {
    match step
    case Advance(g) => GuardStep(s, g)
    case Update(id, w, st) =>
      var x := s.workers[w];
      s.(workers := s.workers[w := x.(healthy := st.healthy, info := st.info, external := st.external,
                                      externalByModel := st.externalByModel)],
         dirty := s.dirty + {id})
    case RefreshNotify(id) => NotifyAll(s.(dirty := s.dirty - {id}))
    case MarkUnhealthy(w) => s.(workers := s.workers[w := s.workers[w].(healthy := false)])
    case _ => WaiterNext(c, s, step)
  }
}
