/** The runner lifecycle protocol of one scale set as a state machine. Every
    step is one critical section or one call to the outside; everything between
    two steps may interleave. The actors are the reconcile worker, removals in
    progress, what is left to do of callbacks and observers (`chores`), armed
    timers, the drain, and the outside world (GitHub, instances, the clock). */
module Lifecycle {
  import opened Instances
  import opened Options
  import R = Retry

  /** GitHub's view of a runner. */
  datatype GitHub = Unregistered | Unassigned | Assigned | Completed | Deregistered

  /** A removal in progress: deregister if it needs consent, destroy, forget, free the lease. */
  datatype Stage = Judging | Calling | Refused | Destroying | Detaching | Freeing(lease: nat)

  datatype Removal = Removal(id: Id, stage: Stage)

  /** Where the reconcile worker stands. `lease` is the capacity it carries. */
  datatype Worker =
    | Asleep
    | Stopped
    | Deciding
    | Claiming
    | Targeting
    | Counting(target: int)
    | Shrinking(target: int)
    | Settling(target: int)
    | Clearing
    | Gating
    | Hooking
    | Requesting
    | Waiting(lease: nat)
    | Returning(lease: nat)
    | UnhookingEmpty
    | Unhooking(lease: nat)
    | Rechecking(lease: nat)
    | Recounting(lease: nat, target: int)
    | Regating(lease: nat)
    | Naming(lease: nat)
    | Dropping(lease: nat)
    | Beginning(name: Name, lease: nat)
    | Tagging(name: Name, lease: nat, attempt: Attempt)
    | Jitting(name: Name, lease: nat, attempt: Attempt)
    | Launching(name: Name, lease: nat, attempt: Attempt, runnerID: int)
    | Launched(name: Name, lease: nat, attempt: Attempt, runnerID: int, id: Id)
    | Recording(name: Name, lease: nat, attempt: Attempt, runnerID: int, id: Id)
    | Failing(name: Name, lease: nat, attempt: Attempt)
    | Unprovisioning(name: Name, lease: nat)
    | Orphaning(lease: nat, id: Id)
    | Crediting(name: Name, attempt: Attempt, id: Id, removeNow: bool)
    | Branching(name: Name, id: Id, removeNow: bool)
    | Yielding(name: Name, id: Id)
    | Undoing(name: Name, removal: Removal)

  /** What a callback or goroutine still has to do after a lock it has left. */
  datatype Chore =
    | RaisePending(ready: bool)
    | LookUp(name: Name)
    | CreditWork(attempt: Attempt)
    | CreditStart(attempt: Attempt)
    | NoteStale(seen: nat)
    | NoteFailure(id: nat)
    | Publish

  datatype Drain = NotDraining | Draining | Halted | Sweeping | Finished | GaveUp

  datatype Config = Config(minRunners: int, maxRunners: int, cooldownAfter: int)

  /** The reconcile channel and the capacity wait a signal abandons. `sent`
      counts the signals since the wait was hooked. */
  datatype Bell = Bell(wake: bool, hooked: bool, cancelled: bool, sent: nat)

  datatype Demand = Demand(desired: int, revision: nat, pending: nat, stale: bool)

  /** A signal first abandons a hooked capacity wait, then fills the channel. */
  function Ring(b: Bell): Bell {
    Bell(true, b.hooked, b.cancelled || b.hooked, b.sent + 1)
  }

  function HookOn(b: Bell): Bell {
    Bell(b.wake, true, false, 0)
  }

  function HookOff(b: Bell): Bell {
    b.(hooked := false)
  }

  /** The listener's latest count, which lifts every barrier to scaling. */
  function Refresh(d: Demand, count: int): Demand {
    Demand(count, d.revision + 1, 0, false)
  }

  /** A completed job: scaling waits for the count that follows it. */
  function AwaitRefresh(d: Demand): Demand {
    d.(pending := d.pending + 1)
  }

  /** An exit seen at revision `seen`; a count that came in meanwhile stands. */
  function MarkStale(d: Demand, seen: nat): Demand {
    d.(stale := d.stale || d.revision == seen)
  }

  predicate MayScale(d: Demand) {
    d.pending == 0 && !d.stale
  }

  /** The demanded runners on top of the minimum, capped at the maximum. */
  function TargetOf(config: Config, d: Demand): int {
    if config.minRunners + d.desired < config.maxRunners then config.minRunners + d.desired else config.maxRunners
  }

  /** GitHub's runners, the runner each instance was started for, and the
      instances that no longer run. */
  datatype World = World(github: map<Name, GitHub>, owner: map<Id, Name>, gone: set<Id>)

  datatype Controller = Controller(
    config: Config,
    table: Table,
    worker: Worker,
    removals: map<Name, Removal>,
    chores: multiset<Chore>,
    timers: multiset<int>,
    bell: Bell,
    drain: Drain,
    demand: Demand,
    ledger: R.Ledger,
    now: int,
    world: World)
  {
    predicate IsDraining() { drain != NotDraining }

    predicate WorkCancelled() { drain != NotDraining && drain != Draining }

    predicate WaitCancelled() { bell.cancelled || WorkCancelled() }

    function Target(): int { TargetOf(config, demand) }

    predicate CanScale() { MayScale(demand) }
  }

  function Initial(config: Config): Controller {
    Controller(config, map[], Asleep, map[], multiset{}, multiset{}, Bell(false, false, false, 0),
               NotDraining, Demand(0, 0, 0, false), R.EMPTY, 0, World(map[], map[], {}))
  }

  /** What GitHub holds for a name; a name never used is unregistered. */
  function Known(w: World, n: Name, g: GitHub): World {
    w.(github := w.github[n := g])
  }

  // ----------------------------------------------------------------- signals

  function Signalled(c: Controller): Controller {
    c.(bell := Ring(c.bell))
  }

  // ---------------------------------------------------------------- removals

  /** GitHub's answers to a deregistration; a lost answer may have had its effect. */
  datatype Answer = Consented | NotFound | JobStillRunning | Unreachable(effective: bool)

  datatype Move = Judge | Call(answer: Answer) | Restore | Destroy(ok: bool, stopped: bool) | Detach | Free

  datatype Progress = On(stage: Stage) | Kept | Blocked | Ended

  /** What GitHub's answer may be, and how asking changed GitHub. */
  function Asked(w: World, name: Name, answer: Answer): Option<World> {
    if name !in w.github then None
    else
      var g := w.github[name];
      match answer
      case Consented => if g == Unassigned then Some(Known(w, name, Deregistered)) else if g == Completed then Some(w) else None
      case NotFound => if g == Completed || g == Deregistered then Some(w) else None
      case JobStillRunning => if g == Assigned || g == Completed then Some(w) else None
      case Unreachable(effective) => Some(if effective && g == Unassigned then Known(w, name, Deregistered) else w)
  }

  /** One move of a removal: the table and the world after it, and how it goes on. */
  function Advance(t: Table, w: World, name: Name, r: Removal, m: Move): Option<(Table, World, Progress)> {
    match (r.stage, m)
    case (Judging, Judge) =>
      Some((t, w, if !NeedsDeregistration(t, name, r.id) then On(Destroying)
                  else if t[name].runnerID == 0 then Blocked else On(Calling)))
    case (Calling, Call(answer)) =>
      (match Asked(w, name, answer)
       case None => None
       case Some(v) => Some((t, v, if answer.Unreachable? then Blocked
                                   else if answer.JobStillRunning? then On(Refused) else On(Destroying))))
    case (Refused, Restore) =>
      var (u, restored) := RestoreBusy(t, name, r.id);
      Some((u, w, if restored then Kept else On(Destroying)))
    case (Destroying, Destroy(ok, stopped)) =>
      Some((t, if ok || stopped then w.(gone := w.gone + {r.id}) else w, if ok then On(Detaching) else Blocked))
    case (Detaching, Detach) =>
      if FinishApplies(t, name, r.id) then Some((FinishRemoval(t, name, r.id), w, On(Freeing(t[name].lease))))
      else Some((t, w, Ended))
    case (Freeing(_), Free) => Some((t, w, Ended))
    case _ => None
  }

  /** A removal run by a cleanup goroutine or by the drain. */
  function RemovalNext(c: Controller, name: Name, m: Move): Option<Controller> {
    if name !in c.removals then None
    else
      var id := c.removals[name].id;
      match Advance(c.table, c.world, name, c.removals[name], m)
      case None => None
      case Some((t, w, On(stage))) =>
        Some(c.(table := t, world := w, removals := c.removals[name := Removal(id, stage)]))
      case Some((t, w, Kept)) =>
        Some(c.(table := t, world := w, removals := c.removals - {name},
                chores := c.chores + multiset{LookUp(name), Publish}))
      case Some((t, w, Blocked)) =>
        var u := RetryRemoval(t, name, id, c.now);
        Some(c.(table := u, world := w, removals := c.removals - {name},
                timers := if RetryApplies(t, name, id) && !c.IsDraining()
                          then c.timers + multiset{u[name].retryAt} else c.timers))
      case Some((t, w, Ended)) =>
        Some(c.(table := t, world := w, removals := c.removals - {name}, chores := c.chores + multiset{Publish}))
  }

  // ------------------------------------------------------------------ worker

  /** One pass of reconciliation, up to the decision to start a runner. */
  datatype PassStep =
    | Wake | Halt | Decide | ClaimOne(name: Name) | ClaimNone | ReadTarget | Compare
    | ShrinkOne(name: Name) | ShrinkNone | Settle | Clear | Gate

  function PassNext(c: Controller, s: PassStep): Option<Controller> {
    match (c.worker, s)
    case (Asleep, Wake) =>
      if c.bell.wake then Some(c.(bell := c.bell.(wake := false), worker := Deciding)) else None
    case (Asleep, Halt) => if c.WorkCancelled() then Some(c.(worker := Stopped)) else None
    case (Deciding, Decide) => Some(c.(worker := if c.IsDraining() then Asleep else Claiming))
    case (Claiming, ClaimOne(n)) =>
      if n in c.table && Due(c.table[n], c.now)
      then Some(c.(table := Claim(c.table, n),
                   removals := c.removals[n := Removal(c.table[n].id, Judging)],
                   worker := Deciding))
      else None
    case (Claiming, ClaimNone) =>
      if forall n | n in c.table :: !Due(c.table[n], c.now) then Some(c.(worker := Targeting)) else None
    case (Targeting, ReadTarget) =>
      Some(c.(worker := if c.CanScale() then Counting(c.Target()) else Asleep))
    case (Counting(target), Compare) =>
      var current := Count(c.table);
      Some(c.(worker := if current > target then Shrinking(target)
                        else if current >= target then Settling(target) else Gating))
    case (Shrinking(target), ShrinkOne(n)) =>
      if n in c.table && c.table[n].phase == Idle && |NotRemoving(c.table)| > target
      then Some(c.(table := ScaleDown(c.table, n), worker := Deciding)) else None
    case (Shrinking(target), ShrinkNone) =>
      if |NotRemoving(c.table)| <= target || InPhase(c.table, Idle) == {}
      then Some(c.(worker := Settling(target))) else None
    case (Settling(target), Settle) =>
      Some(c.(worker := if |InPhase(c.table, Idle)| + |InPhase(c.table, Busy)| >= target then Clearing else Asleep))
    case (Clearing, Clear) => Some(c.(ledger := R.ClearRetry(c.ledger), worker := Asleep))
    case (Gating, Gate) =>
      var (ledger, allowed) := R.RetryAllowed(c.ledger, c.now);
      Some(c.(ledger := ledger, worker := if allowed then Hooking else Asleep))
    case _ => None
  }

  /** Waiting for capacity, and deciding again once it is there. */
  datatype WaitStep =
    | Hook | Refuse | Request(lease: nat) | Take | Desist(granted: bool) | GiveBack | Unhook
    | Recheck | Recount | Regate | Drop

  function WaitNext(c: Controller, s: WaitStep): Option<Controller> {
    match (c.worker, s)
    case (Hooking, Hook) =>
      Some(c.(bell := HookOn(c.bell),
              worker := if c.bell.wake then UnhookingEmpty else Requesting))
    case (Requesting, Refuse) => if c.WaitCancelled() then Some(c.(worker := UnhookingEmpty)) else None
    case (Requesting, Request(lease)) => Some(c.(worker := Waiting(lease)))
    case (Waiting(lease), Take) => Some(c.(worker := Unhooking(lease)))
    case (Waiting(lease), Desist(granted)) =>
      if c.WaitCancelled()
      then Some(c.(worker := if granted then Returning(lease) else UnhookingEmpty)) else None
    case (Returning(lease), GiveBack) => Some(c.(worker := UnhookingEmpty))
    case (UnhookingEmpty, Unhook) => Some(c.(bell := HookOff(c.bell), worker := Asleep))
    case (Unhooking(lease), Unhook) => Some(c.(bell := HookOff(c.bell), worker := Rechecking(lease)))
    case (Rechecking(lease), Recheck) =>
      Some(c.(worker := if c.CanScale() then Recounting(lease, c.Target()) else Dropping(lease)))
    case (Recounting(lease, target), Recount) =>
      Some(c.(worker := if c.IsDraining() || Count(c.table) >= target then Dropping(lease) else Regating(lease)))
    case (Regating(lease), Regate) =>
      var (ledger, allowed) := R.RetryAllowed(c.ledger, c.now);
      Some(c.(ledger := ledger, worker := if allowed then Naming(lease) else Dropping(lease)))
    case (Dropping(lease), Drop) => Some(c.(worker := Asleep))
    case _ => None
  }

  /** Starting a runner, until its instance is about to be recorded. A name in
      use is a collision; otherwise it is one never used before. */
  datatype StartStep =
    | Pick(name: Name) | BeginAttempt | Tag | Jit(ok: bool, runnerID: int)
    | Boot(id: Id) | Return(ok: bool) | Fail(delay: int) | Unprovision

  function StartNext(c: Controller, s: StartStep): Option<Controller> {
    match (c.worker, s)
    case (Naming(lease), Pick(n)) =>
      if n in c.table then Some(c.(worker := Dropping(lease)))
      else if n in c.world.github then None
      else Some(c.(table := Reserve(c.table, n, lease).0,
                   world := Known(c.world, n, Unregistered),
                   worker := Beginning(n, lease)))
    case (Beginning(n, lease), BeginAttempt) =>
      var (ledger, a) := R.Begin(c.ledger);
      Some(c.(ledger := ledger, worker := Tagging(n, lease, a)))
    case (Tagging(n, lease, a), Tag) =>
      Some(c.(table := SetAttempt(c.table, n, a), worker := Jitting(n, lease, a)))
    case (Jitting(n, lease, a), Jit(ok, runnerID)) =>
      if ok then Some(c.(world := Known(c.world, n, Unassigned), worker := Launching(n, lease, a, runnerID)))
      else Some(c.(worker := Failing(n, lease, a)))
    case (Launching(n, lease, a, runnerID), Boot(id)) =>
      if id != NO_ID && id !in c.world.owner
      then Some(c.(world := c.world.(owner := c.world.owner[id := n]),
                   worker := Launched(n, lease, a, runnerID, id))) else None
    case (Launching(n, lease, a, _), Return(ok)) =>
      if ok then None else Some(c.(worker := Failing(n, lease, a)))
    case (Launched(n, lease, a, runnerID, id), Return(ok)) =>
      if ok then Some(c.(worker := Recording(n, lease, a, runnerID, id)))
      else Some(c.(world := c.world.(gone := c.world.gone + {id}), worker := Failing(n, lease, a)))
    case (Failing(n, lease, a), Fail(delay)) =>
      Some(c.(ledger := if c.IsDraining() then c.ledger
                        else R.RecordFailure(c.ledger, a, c.now, delay, c.config.cooldownAfter),
              worker := Unprovisioning(n, lease)))
    case (Unprovisioning(n, lease), Unprovision) =>
      Some(c.(table := FailProvision(c.table, n), worker := Dropping(lease)))
    case _ => None
  }

  /** What becomes of an instance the provider has returned. `observed` says the
      provider reports readiness. */
  datatype TendStep =
    | Record(observed: bool) | RemoveOrphan | CreditReady | Branch | Yield | Undo(move: Move)

  function TendNext(c: Controller, s: TendStep): Option<Controller> {
    match (c.worker, s)
    case (Recording(n, lease, a, runnerID, id), Record(observed)) =>
      if n !in c.table then Some(c.(worker := Orphaning(lease, id)))
      else
        var t := if observed then MarkProvisioned(c.table, n, id, runnerID) else MarkReady(c.table, n, id, runnerID);
        var removeNow := t[n].phase == Removing;
        Some(c.(table := t,
                worker := if observed then Branching(n, id, removeNow) else Crediting(n, a, id, removeNow)))
    case (Orphaning(lease, id), RemoveOrphan) =>
      Some(c.(world := c.world.(gone := c.world.gone + {id}), worker := Dropping(lease)))
    case (Crediting(n, a, id, removeNow), CreditReady) =>
      Some(c.(ledger := R.RecordStartSuccess(c.ledger, a), worker := Branching(n, id, removeNow)))
    case (Branching(n, id, removeNow), Branch) =>
      if !c.IsDraining() then Some((if removeNow then Signalled(c) else c).(worker := Deciding))
      else Some(c.(worker := if removeNow then Undoing(n, Removal(id, Judging)) else Yielding(n, id)))
    case (Yielding(n, id), Yield) =>
      Some(c.(table := MarkDone(c.table, n, Drained, ""), worker := Undoing(n, Removal(id, Judging))))
    case (Undoing(n, r), Undo(move)) =>
      (match Advance(c.table, c.world, n, r, move)
       case None => None
       case Some((t, w, p)) =>
         Some(c.(table := t, world := w,
                 chores := if p.Kept? then c.chores + multiset{LookUp(n)}
                           else if p.Ended? then c.chores + multiset{Publish} else c.chores,
                 worker := if p.On? then Undoing(n, Removal(r.id, p.stage))
                           else if p.Blocked? then Asleep else Deciding)))
    case _ => None
  }

  // -------------------------------------------------- callbacks and observers

  /** What listener callbacks and observers do first. A completion is reported
      only for a job GitHub has completed, an exit only for an instance that is
      gone; everything else may be reported at any time, a count also by a
      callback that has found no drain and is overtaken by one. */
  datatype Report =
    | DesiredCount(count: int)
    | JobStarted(name: Name, job: JobRef)
    | JobFinished(name: Name, result: string)
    | Readiness(name: Name, id: Id, failed: bool)
    | Exit(name: Name, id: Id, seen: nat)

  function ReportNext(c: Controller, r: Report): Option<Controller> {
    match r
    case DesiredCount(count) =>
      Some(c.(demand := Refresh(c.demand, count), chores := c.chores + multiset{Publish}))
    case JobStarted(n, job) =>
      Some(c.(table := MarkBusy(c.table, n, job),
              chores := if BusyApplies(c.table, n) then c.chores + multiset{LookUp(n)} else c.chores))
    case JobFinished(n, result) =>
      if !(n in c.world.github && c.world.github[n] == Completed) then None
      else if !DoneApplies(c.table, n, JobCompleted) then Some(c)
      else Some(c.(table := MarkDone(c.table, n, JobCompleted, result),
                   chores := c.chores + multiset{LookUp(n), RaisePending(c.table[n].id != NO_ID)}))
    case Readiness(n, id, failed) =>
      if id == NO_ID then None
      else
        var (t, applied) := ReadinessResult(c.table, n, id, failed);
        if !applied then Some(c)
        else
          var a := c.table[n].attempt;
          Some(c.(table := t,
                  chores := c.chores + multiset{if failed then NoteFailure(a.id) else CreditStart(a)}))
    case Exit(n, id, seen) =>
      if !(id in c.world.gone && id != NO_ID && seen <= c.demand.revision) then None
      else if !ExitApplies(c.table, n, id) then Some(c)
      else Some(c.(table := MarkExited(c.table, n, id),
                   chores := c.chores + multiset{NoteStale(seen)} +
                             if ExitIsStartFailure(c.table, n) then multiset{NoteFailure(c.table[n].attempt.id)}
                             else multiset{}))
  }

  /** A failure of readiness or exit is dropped when the runner has worked meanwhile. */
  predicate Disproved(t: Table, attempt: nat) {
    exists n :: n in t && t[n].attempt.id == attempt && t[n].worked && t[n].reason != Exited
  }

  /** Carries out one chore; `delay` is the backoff a recorded failure earns. */
  function ChoreNext(c: Controller, w: Chore, delay: int): Option<Controller> {
    if w !in c.chores then None
    else
      var d := c.(chores := c.chores - multiset{w});
      match w
      case RaisePending(ready) =>
        Some(d.(demand := AwaitRefresh(d.demand),
                chores := if ready then d.chores + multiset{Publish} else d.chores))
      case LookUp(n) => Some(d.(chores := d.chores + multiset{CreditWork(AttemptOf(d.table, n))}))
      case CreditWork(a) => Some(d.(ledger := R.RecordWorkSuccess(d.ledger, a)))
      case CreditStart(a) =>
        Some(d.(ledger := R.RecordStartSuccess(d.ledger, a), chores := d.chores + multiset{Publish}))
      case NoteStale(seen) =>
        Some(d.(demand := MarkStale(d.demand, seen),
                chores := d.chores + multiset{Publish}))
      case NoteFailure(a) =>
        Some(d.(ledger := if d.IsDraining() || Disproved(d.table, a) then d.ledger
                          else R.RecordFailure(d.ledger, Attempt(a, 0), d.now, delay, d.config.cooldownAfter),
                chores := d.chores + multiset{Publish}))
      case Publish => Some(if d.IsDraining() then d else Signalled(d))
  }

  // ---------------------------------------------------- drain and the outside

  /** What happens without anybody's doing here: GitHub assigns a job, completes
      it, or forgets a runner without one; an instance stops; time passes. */
  datatype Event =
    | Assign(name: Name)
    | Complete(name: Name)
    | Lapse(name: Name)
    | Stop(id: Id)
    | Tick(to: int)
    | Fire(due: int)
    | RetryTimer
    | LatePublish

  function EventNext(c: Controller, e: Event): Option<Controller> {
    match e
    case Assign(n) =>
      if n in c.world.github && c.world.github[n] == Unassigned
      then Some(c.(world := Known(c.world, n, Assigned))) else None
    case Complete(n) =>
      if n in c.world.github && c.world.github[n] == Assigned
      then Some(c.(world := Known(c.world, n, Completed))) else None
    case Lapse(n) =>
      if n in c.world.github && c.world.github[n] == Unassigned
      then Some(c.(world := Known(c.world, n, Deregistered))) else None
    case Stop(id) =>
      if id in c.world.owner then Some(c.(world := c.world.(gone := c.world.gone + {id}))) else None
    case Tick(to) => if to >= c.now then Some(c.(now := to)) else None
    case Fire(due) =>
      if due in c.timers && c.now >= due
      then Some(c.(timers := c.timers - multiset{due}, chores := c.chores + multiset{Publish})) else None
    case RetryTimer => Some(c.(chores := c.chores + multiset{Publish}))
    case LatePublish => if c.IsDraining() then Some(Signalled(c)) else None
  }

  /** The drain: flag, cancel the worker, wait for it, draw the boundary, then
      remove what is left until nothing is busy or being removed. */
  datatype DrainStep = BeginDrain | CancelWork | Boundary | DrainClaim(name: Name) | DrainDone | DrainGiveUp

  function DrainNext(c: Controller, e: DrainStep): Option<Controller> {
    match e
    case BeginDrain => if c.drain == NotDraining then Some(c.(drain := Draining)) else None
    case CancelWork =>
      if c.drain == Draining then Some(c.(drain := Halted, ledger := R.ClearRetry(c.ledger))) else None
    case Boundary =>
      if c.drain == Halted && c.worker == Stopped && c.removals == map[]
      then Some(c.(drain := Sweeping, table := DrainBoundary(c.table))) else None
    case DrainClaim(n) =>
      if c.drain == Sweeping && c.removals == map[] && n in c.table && Due(c.table[n], c.now)
      then Some(c.(table := Claim(c.table, n),
                   removals := c.removals[n := Removal(c.table[n].id, Judging)])) else None
    case DrainDone =>
      if c.drain == Sweeping && c.removals == map[] &&
         InPhase(c.table, Busy) == {} && InPhase(c.table, Removing) == {}
      then Some(c.(drain := Finished)) else None
    case DrainGiveUp => if c.drain == Halted || c.drain == Sweeping then Some(c.(drain := GaveUp)) else None
  }

  // -------------------------------------------------------------------- runs

  datatype Step =
    | Pass(pass: PassStep)
    | Wait(wait: WaitStep)
    | Start(start: StartStep)
    | Tend(tend: TendStep)
    | Remove(name: Name, move: Move)
    | Tell(report: Report)
    | Carry(chore: Chore, delay: int)
    | Occur(event: Event)
    | Wind(winding: DrainStep)

  function Next(c: Controller, s: Step): Option<Controller> {
    match s
    case Pass(p) => PassNext(c, p)
    case Wait(w) => WaitNext(c, w)
    case Start(p) => StartNext(c, p)
    case Tend(p) => TendNext(c, p)
    case Remove(n, m) => RemovalNext(c, n, m)
    case Tell(r) => ReportNext(c, r)
    case Carry(w, delay) => ChoreNext(c, w, delay)
    case Occur(e) => EventNext(c, e)
    case Wind(e) => DrainNext(c, e)
  }

  /** The states a scale set can reach by any interleaving of steps. */
  function Run(c: Controller, steps: seq<Step>): Option<Controller> {
    if steps == [] then Some(c)
    else
      match Run(c, steps[..|steps| - 1])
      case None => None
      case Some(d) => Next(d, steps[|steps| - 1])
  }
}
