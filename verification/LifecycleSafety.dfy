/** What holds of every runner at every moment, whoever is working on it, and
    what follows: an instance is destroyed only when its runner cannot lose a
    job, and a drain that reports success has left nothing behind. */
module LifecycleSafety {
  import opened Instances
  import opened Lifecycle
  import opened Options

  // ------------------------------------------------- one runner at a time

  /** The worker is starting a runner and the provider's instance is not recorded yet. */
  predicate Starting(w: Worker) {
    || w.Beginning? || w.Tagging? || w.Jitting? || w.Launching? || w.Launched?
    || w.Recording? || w.Failing? || w.Unprovisioning?
  }

  /** The worker has recorded an instance and decides what becomes of it. */
  predicate Tending(w: Worker) {
    w.Crediting? || w.Branching? || w.Yielding?
  }

  predicate Attached(w: Worker) {
    Starting(w) || Tending(w) || w.Undoing?
  }

  /** Everything the controller holds about one name: its entry, the removal in
      progress, and the worker when it is busy with this name. */
  datatype Cell = Cell(entry: Option<Instance>, removal: Option<Removal>, role: Option<Worker>)

  function CellOf(c: Controller, n: Name): Cell {
    Cell(if n in c.table then Some(c.table[n]) else None,
         if n in c.removals then Some(c.removals[n]) else None,
         if Attached(c.worker) && c.worker.name == n then Some(c.worker) else None)
  }

  /** Destroying the instance cannot interrupt a job: it has stopped already, or
      GitHub has finished the runner's job or agreed to its removal. */
  predicate Harmless(v: World, n: Name, id: Id) {
    id in v.gone || (n in v.github && (v.github[n] == Completed || v.github[n] == Deregistered))
  }

  predicate IsOwner(owner: map<Id, Name>, n: Name, id: Id) {
    id in owner && owner[id] == n
  }

  /** A removal has its runner for itself until it has forgotten it, and comes to
      destroying it only when that is harmless. */
  predicate RemovalSane(n: Name, entry: Option<Instance>, r: Removal, v: World) {
    && r.id != NO_ID
    && (match r.stage
        case Freeing(_) => entry.None?
        case stage =>
          && entry.Some? && entry.value.phase == Removing && entry.value.id == r.id
          && (stage == Destroying ==> Harmless(v, n, r.id))
          && (stage == Detaching ==> r.id in v.gone))
  }

  predicate EntrySane(n: Name, i: Instance, v: World) {
    && (i.id != NO_ID ==> IsOwner(v.owner, n, i.id))
    && (i.phase == Removing <==> i.reason != NoReason)
    && (i.reason == JobCompleted ==> n in v.github && v.github[n] == Completed)
    && (i.reason == Exited ==> i.id != NO_ID && i.id in v.gone)
    && (i.inFlight ==> i.phase == Removing && i.id != NO_ID)
  }

  ghost predicate RoleSane(n: Name, entry: Option<Instance>, w: Worker, v: World) {
    && (Starting(w) ==> entry.Some? && entry.value.id == NO_ID && entry.value.lease == w.lease)
    && (w.Launched? || w.Recording? ==> w.id != NO_ID && IsOwner(v.owner, n, w.id))
    && (w.Beginning? || w.Tagging? || w.Jitting? || w.Launching? ==> forall id :: !IsOwner(v.owner, n, id))
    && (w.Beginning? || w.Tagging? || w.Jitting? ==> n in v.github && v.github[n] == Unregistered)
    && (Tending(w) ==> entry.Some? && entry.value.id == w.id != NO_ID && !entry.value.inFlight)
    && (w.Crediting? || w.Branching? ==> (w.removeNow ==> entry.value.phase == Removing))
    && (w.Undoing? ==> RemovalSane(n, entry, w.removal, v) && (entry.Some? ==> !entry.value.inFlight))
  }

  /** An instance still running belongs to an entry, or is about to be recorded in it. */
  ghost predicate Living(n: Name, x: Cell, v: World) {
    forall id | IsOwner(v.owner, n, id) && id !in v.gone ::
      && id != NO_ID && x.entry.Some?
      && (x.entry.value.id == id ||
          (x.role.Some? && (x.role.value.Launched? || x.role.value.Recording?) && x.role.value.id == id))
  }

  ghost predicate Sane(n: Name, x: Cell, v: World) {
    && (x.entry.Some? ==>
         && EntrySane(n, x.entry.value, v)
         && (x.entry.value.id == NO_ID ==> x.role.Some? && Starting(x.role.value))
         && (x.entry.value.inFlight ==> x.removal.Some?))
    && (x.removal.Some? ==>
         && x.role.None?
         && RemovalSane(n, x.entry, x.removal.value, v)
         && (x.entry.Some? ==> x.entry.value.inFlight))
    && (x.role.Some? ==> RoleSane(n, x.entry, x.role.value, v))
    && Living(n, x, v)
    && (x != Cell(None, None, None) || (exists id :: IsOwner(v.owner, n, id)) ==> n in v.github)
  }

  ghost predicate Safe(c: Controller) {
    (forall n :: Sane(n, CellOf(c, n), c.world)) && !c.worker.Orphaning?
  }

  // --------------------------------------------------- how the world moves on

  /** GitHub's record of a registered runner only moves forward. */
  predicate Forward(g: GitHub, h: GitHub) {
    || g == h
    || (g == Unassigned && (h == Assigned || h == Deregistered))
    || (g == Assigned && h == Completed)
  }

  /** What happens to the world while nothing new is known of `n` itself. */
  ghost predicate Onward(v: World, u: World, n: Name) {
    && v.gone <= u.gone
    && (n in u.github <==> n in v.github)
    && (n in v.github ==> Forward(v.github[n], u.github[n]))
    && (forall id :: IsOwner(u.owner, n, id) <==> IsOwner(v.owner, n, id))
  }

  lemma OnwardKeepsSane(n: Name, x: Cell, v: World, u: World)
    requires Sane(n, x, v) && Onward(v, u, n)
    ensures Sane(n, x, u)
  {}

  /** A step that touches one runner: it is enough to look at that runner. */
  lemma OneRunner(c: Controller, d: Controller, m: Name)
    requires Safe(c) && !d.worker.Orphaning?
    requires forall n :: n != m ==> CellOf(d, n) == CellOf(c, n) && Onward(c.world, d.world, n)
    requires Sane(m, CellOf(d, m), d.world)
    ensures Safe(d)
  {
    forall n ensures Sane(n, CellOf(d, n), d.world) {
      if n != m {
        assert Sane(n, CellOf(c, n), c.world);
        OnwardKeepsSane(n, CellOf(c, n), c.world, d.world);
      }
    }
  }

  /** A step that touches no runner, though the world may move on. */
  lemma NoRunner(c: Controller, d: Controller)
    requires Safe(c) && !d.worker.Orphaning?
    requires forall n :: CellOf(d, n) == CellOf(c, n) && Onward(c.world, d.world, n)
    ensures Safe(d)
  {
    forall n ensures Sane(n, CellOf(d, n), d.world) {
      assert Sane(n, CellOf(c, n), c.world);
      OnwardKeepsSane(n, CellOf(c, n), c.world, d.world);
    }
  }

  /** Moving an entry on without ending its removal, its claim or its identity. */
  lemma EntryMoves(n: Name, x: Cell, j: Instance, v: World)
    requires Sane(n, x, v) && x.entry.Some?
    requires j.id == x.entry.value.id && j.lease == x.entry.value.lease && j.inFlight == x.entry.value.inFlight
    requires x.entry.value.phase == Removing ==> j.phase == Removing
    requires EntrySane(n, j, v)
    ensures Sane(n, x.(entry := Some(j)), v)
  {}

  /** The same for a step of the controller that rewrites one entry. */
  lemma OneEntry(c: Controller, d: Controller, n: Name, j: Instance)
    requires Safe(c) && n in c.table && d.table == c.table[n := j]
    requires d.worker == c.worker && d.removals == c.removals && d.world == c.world
    requires j.id == c.table[n].id && j.lease == c.table[n].lease && j.inFlight == c.table[n].inFlight
    requires c.table[n].phase == Removing ==> j.phase == Removing
    requires EntrySane(n, j, c.world)
    ensures Safe(d)
  {
    assert Sane(n, CellOf(c, n), c.world);
    EntryMoves(n, CellOf(c, n), j, c.world);
    assert CellOf(d, n) == CellOf(c, n).(entry := Some(j));
    OneRunner(c, d, n);
  }

  lemma EntryIsSane(c: Controller, n: Name)
    requires Safe(c) && n in c.table
    ensures EntrySane(n, c.table[n], c.world)
  {
    assert Sane(n, CellOf(c, n), c.world);
  }

  // ---------------------------------------------- callbacks and observers

  lemma BusyIsSafe(c: Controller, n: Name, job: JobRef, d: Controller)
    requires Safe(c) && ReportNext(c, JobStarted(n, job)).Some? && d == ReportNext(c, JobStarted(n, job)).value
    ensures Safe(d)
  {
    if BusyApplies(c.table, n) {
      EntryIsSane(c, n);
      OneEntry(c, d, n, MarkBusy(c.table, n, job)[n]);
    } else {
      NoRunner(c, d);
    }
  }

  lemma FinishedIsSafe(c: Controller, n: Name, result: string, d: Controller)
    requires Safe(c) && ReportNext(c, JobFinished(n, result)).Some? && d == ReportNext(c, JobFinished(n, result)).value
    ensures Safe(d)
  {
    if DoneApplies(c.table, n, JobCompleted) {
      EntryIsSane(c, n);
      OneEntry(c, d, n, MarkDone(c.table, n, JobCompleted, result)[n]);
    } else {
      NoRunner(c, d);
    }
  }

  lemma ReadinessIsSafe(c: Controller, n: Name, id: Id, failed: bool, d: Controller)
    requires Safe(c) && ReportNext(c, Readiness(n, id, failed)).Some? && d == ReportNext(c, Readiness(n, id, failed)).value
    ensures Safe(d)
  {
    if ReadinessResult(c.table, n, id, failed).1 {
      EntryIsSane(c, n);
      OneEntry(c, d, n, ReadinessResult(c.table, n, id, failed).0[n]);
    } else {
      NoRunner(c, d);
    }
  }

  lemma ExitIsSafe(c: Controller, n: Name, id: Id, seen: nat, d: Controller)
    requires Safe(c) && ReportNext(c, Exit(n, id, seen)).Some? && d == ReportNext(c, Exit(n, id, seen)).value
    ensures Safe(d)
  {
    if ExitApplies(c.table, n, id) {
      EntryIsSane(c, n);
      OneEntry(c, d, n, MarkExited(c.table, n, id)[n]);
    } else {
      NoRunner(c, d);
    }
  }

  lemma ReportIsSafe(c: Controller, r: Report, d: Controller)
    requires Safe(c) && ReportNext(c, r).Some? && d == ReportNext(c, r).value
    ensures Safe(d)
  {
    match r
    case DesiredCount(_) => NoRunner(c, d);
    case JobStarted(n, job) => BusyIsSafe(c, n, job, d);
    case JobFinished(n, result) => FinishedIsSafe(c, n, result, d);
    case Readiness(n, id, failed) => ReadinessIsSafe(c, n, id, failed, d);
    case Exit(n, id, seen) => ExitIsSafe(c, n, id, seen, d);
  }

  lemma ChoreEffect(c: Controller, w: Chore, delay: int, d: Controller)
    requires ChoreNext(c, w, delay).Some? && d == ChoreNext(c, w, delay).value
    ensures d.table == c.table && d.removals == c.removals && d.worker == c.worker && d.drain == c.drain
    ensures d.world == c.world && d.config == c.config
  {}

  /** Nobody's runner changes hands. */
  lemma SameRunners(c: Controller, d: Controller)
    requires Safe(c) && d.table == c.table && d.removals == c.removals
    requires d.worker == c.worker || (!Attached(c.worker) && !Attached(d.worker) && !d.worker.Orphaning?)
    requires forall n :: Onward(c.world, d.world, n)
    ensures Safe(d)
  {
    forall n ensures CellOf(d, n) == CellOf(c, n) {}
    NoRunner(c, d);
  }

  lemma ChoreIsSafe(c: Controller, w: Chore, delay: int, d: Controller)
    requires Safe(c) && ChoreNext(c, w, delay).Some? && d == ChoreNext(c, w, delay).value
    ensures Safe(d)
  {
    ChoreEffect(c, w, delay, d);
    SameRunners(c, d);
  }

  lemma KnownIsOnward(v: World, m: Name, g: GitHub, n: Name)
    requires m in v.github && Forward(v.github[m], g)
    ensures Onward(v, Known(v, m, g), n)
  {}

  lemma EventIsOnward(c: Controller, e: Event, d: Controller, n: Name)
    requires EventNext(c, e).Some? && d == EventNext(c, e).value
    ensures Onward(c.world, d.world, n)
  {
    match e
    case Assign(m) => KnownIsOnward(c.world, m, Assigned, n);
    case Complete(m) => KnownIsOnward(c.world, m, Completed, n);
    case Lapse(m) => KnownIsOnward(c.world, m, Deregistered, n);
    case _ =>
  }

  /** Outside events move the world and leave the controller's runners be. */
  lemma EventEffect(c: Controller, e: Event, d: Controller)
    requires EventNext(c, e).Some? && d == EventNext(c, e).value
    ensures d.table == c.table && d.removals == c.removals && d.worker == c.worker && d.drain == c.drain
    ensures d.config == c.config
    ensures forall n :: Onward(c.world, d.world, n)
  {
    forall n ensures Onward(c.world, d.world, n) {
      EventIsOnward(c, e, d, n);
    }
  }

  lemma EventIsSafe(c: Controller, e: Event, d: Controller)
    requires Safe(c) && EventNext(c, e).Some? && d == EventNext(c, e).value
    ensures Safe(d)
  {
    EventEffect(c, e, d);
    SameRunners(c, d);
  }

  // ------------------------------------------------------------- the worker

  lemma ClaimIsSafe(c: Controller, n: Name, d: Controller)
    requires Safe(c) && n in c.table && Claimable(c.table[n]) && !Attached(c.worker)
    requires d.table == Claim(c.table, n) && d.removals == c.removals[n := Removal(c.table[n].id, Judging)]
    requires d.world == c.world && !Attached(d.worker) && !d.worker.Orphaning?
    ensures Safe(d) && n !in c.removals
  {
    assert Sane(n, CellOf(c, n), c.world);
    OneRunner(c, d, n);
  }

  lemma ShrinkIsSafe(c: Controller, n: Name, d: Controller)
    requires Safe(c) && n in c.table && c.table[n].phase == Idle && !Attached(c.worker)
    requires d.table == ScaleDown(c.table, n) && d.removals == c.removals
    requires d.world == c.world && !Attached(d.worker) && !d.worker.Orphaning?
    ensures Safe(d)
  {
    EntryIsSane(c, n);
    OneEntry(c, d.(worker := c.worker), n, d.table[n]);
    SameRunners(d.(worker := c.worker), d);
  }

  lemma PassEffect(c: Controller, s: PassStep, d: Controller)
    requires PassNext(c, s).Some? && d == PassNext(c, s).value && !s.ClaimOne? && !s.ShrinkOne?
    ensures d.table == c.table && d.removals == c.removals && d.world == c.world && d.drain == c.drain
    ensures !Attached(c.worker) && !Attached(d.worker) && !d.worker.Orphaning? && c.worker != Stopped
  {}

  lemma PassIsSafe(c: Controller, s: PassStep, d: Controller)
    requires Safe(c) && PassNext(c, s).Some? && d == PassNext(c, s).value
    ensures Safe(d)
  {
    match s
    case ClaimOne(n) => ClaimIsSafe(c, n, d);
    case ShrinkOne(n) => ShrinkIsSafe(c, n, d);
    case _ =>
      PassEffect(c, s, d);
      SameRunners(c, d);
  }

  lemma WaitIsFree(c: Controller, s: WaitStep)
    requires WaitNext(c, s).Some?
    ensures !Attached(c.worker) && c.worker != Stopped
  {}

  lemma WaitLeavesFree(c: Controller, s: WaitStep, d: Controller)
    requires WaitNext(c, s).Some? && d == WaitNext(c, s).value
    ensures !Attached(d.worker) && !d.worker.Orphaning?
  {}

  lemma WaitStaysFree(c: Controller, s: WaitStep, d: Controller)
    requires WaitNext(c, s).Some? && d == WaitNext(c, s).value
    ensures !Attached(c.worker) && !Attached(d.worker) && !d.worker.Orphaning? && c.worker != Stopped
  {
    WaitIsFree(c, s);
    WaitLeavesFree(c, s, d);
  }

  lemma WaitEffect(c: Controller, s: WaitStep, d: Controller)
    requires WaitNext(c, s).Some? && d == WaitNext(c, s).value
    ensures d.table == c.table && d.removals == c.removals && d.world == c.world && d.drain == c.drain
    ensures d.config == c.config
  {}

  lemma WaitIsSafe(c: Controller, s: WaitStep, d: Controller)
    requires Safe(c) && WaitNext(c, s).Some? && d == WaitNext(c, s).value
    ensures Safe(d)
  {
    WaitEffect(c, s, d);
    WaitStaysFree(c, s, d);
    SameRunners(c, d);
  }

  lemma PickIsSafe(c: Controller, n: Name, d: Controller)
    requires Safe(c) && StartNext(c, Pick(n)).Some? && d == StartNext(c, Pick(n)).value
    ensures Safe(d)
  {
    if n in c.table {
      SameRunners(c, d);
    } else {
      assert Sane(n, CellOf(c, n), c.world);
      OneRunner(c, d, n);
    }
  }

  /** Between those steps the entry stays, and only the worker's own part is to be checked. */
  lemma StartingOn(c: Controller, d: Controller)
    requires Safe(c) && Starting(c.worker) && Starting(d.worker) && d.worker.name == c.worker.name
    requires d.table == c.table && d.removals == c.removals
    requires var n := c.worker.name;
             && (forall k :: k != n ==> Onward(c.world, d.world, k))
             && n in c.table && n in d.world.github
             && EntrySane(n, c.table[n], d.world)
             && RoleSane(n, Some(c.table[n]), d.worker, d.world)
             && Living(n, CellOf(d, n), d.world)
    ensures Safe(d)
  {
    assert Sane(c.worker.name, CellOf(c, c.worker.name), c.world);
    OneRunner(c, d, c.worker.name);
  }

  lemma JitIsSafe(c: Controller, s: StartStep, d: Controller)
    requires Safe(c) && StartNext(c, s).Some? && d == StartNext(c, s).value && s.Jit?
    ensures Safe(d)
  {
    assert Sane(c.worker.name, CellOf(c, c.worker.name), c.world);
    StartingOn(c, d);
  }

  lemma BootIsSafe(c: Controller, s: StartStep, d: Controller)
    requires Safe(c) && StartNext(c, s).Some? && d == StartNext(c, s).value && s.Boot?
    ensures Safe(d)
  {
    assert Sane(c.worker.name, CellOf(c, c.worker.name), c.world);
    StartingOn(c, d);
  }

  lemma ReturnIsSafe(c: Controller, s: StartStep, d: Controller)
    requires Safe(c) && StartNext(c, s).Some? && d == StartNext(c, s).value && s.Return?
    ensures Safe(d)
  {
    assert Sane(c.worker.name, CellOf(c, c.worker.name), c.world);
    StartingOn(c, d);
  }

  lemma AttemptIsSafe(c: Controller, s: StartStep, d: Controller)
    requires Safe(c) && StartNext(c, s).Some? && d == StartNext(c, s).value && (s.BeginAttempt? || s.Fail?)
    ensures Safe(d)
  {
    assert Sane(c.worker.name, CellOf(c, c.worker.name), c.world);
    StartingOn(c, d);
  }

  lemma TagIsSafe(c: Controller, d: Controller)
    requires Safe(c) && StartNext(c, Tag).Some? && d == StartNext(c, Tag).value
    ensures Safe(d)
  {
    var n := c.worker.name;
    assert Sane(n, CellOf(c, n), c.world);
    var m := c.(table := d.table);
    OneEntry(c, m, n, d.table[n]);
    assert Sane(n, CellOf(m, n), c.world);
    StartingOn(m, d);
  }

  lemma UnprovisionIsSafe(c: Controller, d: Controller)
    requires Safe(c) && StartNext(c, Unprovision).Some? && d == StartNext(c, Unprovision).value
    ensures Safe(d)
  {
    var n := c.worker.name;
    assert Sane(n, CellOf(c, n), c.world);
    OneRunner(c, d, n);
  }

  lemma StartIsSafe(c: Controller, s: StartStep, d: Controller)
    requires Safe(c) && StartNext(c, s).Some? && d == StartNext(c, s).value
    ensures Safe(d)
  {
    match s
    case Pick(n) => PickIsSafe(c, n, d);
    case BeginAttempt => AttemptIsSafe(c, s, d);
    case Tag => TagIsSafe(c, d);
    case Jit(_, _) => JitIsSafe(c, s, d);
    case Boot(_) => BootIsSafe(c, s, d);
    case Return(_) => ReturnIsSafe(c, s, d);
    case Fail(_) => AttemptIsSafe(c, s, d);
    case Unprovision => UnprovisionIsSafe(c, d);
  }

  // --------------------------------------------------------------- removals

  function Entry(t: Table, n: Name): Option<Instance> {
    if n in t then Some(t[n]) else None
  }

  /** A removal in progress and the entry it works on. */
  ghost predicate Under(n: Name, t: Table, r: Removal, v: World) {
    && RemovalSane(n, Entry(t, n), r, v)
    && (n in t ==> EntrySane(n, t[n], v))
    && n in v.github
  }

  /** What one move of a removal does to its runner's entry: it is kept as a busy
      one, left alone, or forgotten once its instance is gone. */
  lemma AdvanceEffect(t: Table, w: World, n: Name, r: Removal, m: Move, u: Table, v: World, p: Progress)
    requires Advance(t, w, n, r, m).Some? && (u, v, p) == Advance(t, w, n, r, m).value
    requires Under(n, t, r, w)
    ensures forall k :: Onward(w, v, k)
    ensures p.On? ==> RemovalSane(n, Entry(u, n), Removal(r.id, p.stage), v)
    ensures p.On? ==> u == if p.stage.Freeing? then t - {n} else t
    ensures p.On? && p.stage.Freeing? ==> r.id in v.gone && n in t && p.stage.lease == t[n].lease
    ensures p.Kept? ==> NeedsDeregistration(t, n, r.id) && u == RestoreBusy(t, n, r.id).0
    ensures p.Blocked? ==> u == t && n in t
    ensures p.Ended? ==> u == t && n !in t && r.stage.Freeing? && v == w
  {}

  /** A removal's move as seen by the controller. */
  lemma RemovalEffect(c: Controller, n: Name, m: Move, u: Table, v: World, p: Progress, d: Controller)
    requires RemovalNext(c, n, m).Some? && d == RemovalNext(c, n, m).value
    requires (u, v, p) == Advance(c.table, c.world, n, c.removals[n], m).value
    ensures d.worker == c.worker && d.drain == c.drain && d.world == v
    ensures d.table == if p.Blocked? then RetryRemoval(u, n, c.removals[n].id, c.now) else u
    ensures d.removals == if p.On? then c.removals[n := Removal(c.removals[n].id, p.stage)] else c.removals - {n}
  {}

  lemma UnderWay(c: Controller, n: Name)
    requires Safe(c) && n in c.removals
    ensures Under(n, c.table, c.removals[n], c.world)
    ensures !(Attached(c.worker) && c.worker.name == n)
    ensures n in c.table ==> c.table[n].inFlight
    ensures Living(n, CellOf(c, n), c.world)
  {
    assert Sane(n, CellOf(c, n), c.world);
  }

  lemma RemovalGoesOn(c: Controller, n: Name, u: Table, v: World, stage: Stage, d: Controller)
    requires Safe(c) && n in c.removals && !c.worker.Orphaning?
    requires d.worker == c.worker && d.world == v && d.table == u
    requires d.removals == c.removals[n := Removal(c.removals[n].id, stage)]
    requires forall k :: Onward(c.world, v, k)
    requires RemovalSane(n, Entry(u, n), Removal(c.removals[n].id, stage), v)
    requires u == if stage.Freeing? then c.table - {n} else c.table
    requires stage.Freeing? ==> c.removals[n].id in v.gone && n in c.table
    ensures Safe(d)
  {
    UnderWay(c, n);
    assert Sane(n, CellOf(c, n), c.world);
    OnwardKeepsSane(n, CellOf(c, n), c.world, v);
    OneRunner(c, d, n);
  }

  lemma RemovalEnds(c: Controller, n: Name, j: Option<Instance>, v: World, d: Controller)
    requires Safe(c) && n in c.removals
    requires d.worker == c.worker && d.world == v && d.removals == c.removals - {n}
    requires forall k :: Onward(c.world, v, k)
    requires j.Some? <==> n in c.table
    requires d.table == if j.Some? then c.table[n := j.value] else c.table
    requires j.Some? ==> EntrySane(n, j.value, v) && !j.value.inFlight && j.value.id == c.table[n].id
    ensures Safe(d)
  {
    UnderWay(c, n);
    assert Sane(n, CellOf(c, n), c.world);
    OnwardKeepsSane(n, CellOf(c, n), c.world, v);
    OneRunner(c, d, n);
  }

  lemma RemovalOutcome(c: Controller, n: Name, u: Table, v: World, p: Progress, d: Controller)
    requires Safe(c) && n in c.removals && Under(n, c.table, c.removals[n], c.world)
    requires d.worker == c.worker && d.drain == c.drain && d.world == v
    requires d.table == if p.Blocked? then RetryRemoval(u, n, c.removals[n].id, c.now) else u
    requires d.removals == if p.On? then c.removals[n := Removal(c.removals[n].id, p.stage)] else c.removals - {n}
    requires forall k :: Onward(c.world, v, k)
    requires p.On? ==> RemovalSane(n, Entry(u, n), Removal(c.removals[n].id, p.stage), v)
    requires p.On? ==> u == if p.stage.Freeing? then c.table - {n} else c.table
    requires p.On? && p.stage.Freeing? ==> c.removals[n].id in v.gone && n in c.table
    requires p.Kept? ==> NeedsDeregistration(c.table, n, c.removals[n].id) && u == RestoreBusy(c.table, n, c.removals[n].id).0
    requires p.Blocked? ==> u == c.table && n in c.table
    requires p.Ended? ==> u == c.table && n !in c.table
    ensures Safe(d)
  {
    UnderWay(c, n);
    assert Onward(c.world, v, n);
    match p
    case On(stage) => RemovalGoesOn(c, n, u, v, stage, d);
    case Kept => RemovalEnds(c, n, Some(u[n]), v, d);
    case Blocked => RemovalEnds(c, n, Some(d.table[n]), v, d);
    case Ended => RemovalEnds(c, n, None, v, d);
  }

  lemma RemovalIsSafe(c: Controller, n: Name, m: Move, d: Controller)
    requires Safe(c) && RemovalNext(c, n, m).Some? && d == RemovalNext(c, n, m).value
    ensures Safe(d)
  {
    var r := c.removals[n];
    var (u, v, p) := Advance(c.table, c.world, n, r, m).value;
    RemovalEffect(c, n, m, u, v, p, d);
    UnderWay(c, n);
    AdvanceEffect(c.table, c.world, n, r, m, u, v, p);
    RemovalOutcome(c, n, u, v, p, d);
  }

  // ------------------------------------------------- the worker's own runner

  lemma RecordIsSafe(c: Controller, observed: bool, d: Controller)
    requires Safe(c) && TendNext(c, Record(observed)).Some? && d == TendNext(c, Record(observed)).value
    ensures Safe(d)
  {
    var n := c.worker.name;
    assert Sane(n, CellOf(c, n), c.world);
    OneRunner(c, d, n);
  }

  lemma CreditIsSafe(c: Controller, d: Controller)
    requires Safe(c) && TendNext(c, CreditReady).Some? && d == TendNext(c, CreditReady).value
    ensures Safe(d)
  {
    var n := c.worker.name;
    assert Sane(n, CellOf(c, n), c.world);
    OneRunner(c, d, n);
  }

  lemma BranchEffect(c: Controller, d: Controller)
    requires TendNext(c, Branch).Some? && d == TendNext(c, Branch).value
    ensures d.table == c.table && d.world == c.world && d.removals == c.removals && d.drain == c.drain
    ensures var n, id := c.worker.name, c.worker.id;
            && c.worker.Branching?
            && d.worker == if !c.IsDraining() then Deciding
                           else if c.worker.removeNow then Undoing(n, Removal(id, Judging)) else Yielding(n, id)
  {}

  lemma BranchIsSafe(c: Controller, d: Controller)
    requires Safe(c) && TendNext(c, Branch).Some? && d == TendNext(c, Branch).value
    ensures Safe(d)
  {
    BranchEffect(c, d);
    var n := c.worker.name;
    assert Sane(n, CellOf(c, n), c.world);
    OneRunner(c, d, n);
  }

  lemma YieldIsSafe(c: Controller, d: Controller)
    requires Safe(c) && TendNext(c, Yield).Some? && d == TendNext(c, Yield).value
    ensures Safe(d)
  {
    var n := c.worker.name;
    assert Sane(n, CellOf(c, n), c.world);
    OneRunner(c, d, n);
  }

  lemma UndoEffect(c: Controller, m: Move, u: Table, v: World, p: Progress, d: Controller)
    requires TendNext(c, Undo(m)).Some? && d == TendNext(c, Undo(m)).value
    requires (u, v, p) == Advance(c.table, c.world, c.worker.name, c.worker.removal, m).value
    ensures d.table == u && d.world == v && d.removals == c.removals && d.drain == c.drain
    ensures p.On? ==> d.worker == Undoing(c.worker.name, Removal(c.worker.removal.id, p.stage))
    ensures !p.On? ==> !Attached(d.worker) && !d.worker.Orphaning?
  {}

  lemma UndoOutcome(c: Controller, u: Table, v: World, p: Progress, d: Controller)
    requires Safe(c) && c.worker.Undoing?
    requires d.table == u && d.world == v && d.removals == c.removals
    requires p.On? ==> d.worker == Undoing(c.worker.name, Removal(c.worker.removal.id, p.stage))
    requires !p.On? ==> !Attached(d.worker) && !d.worker.Orphaning?
    requires forall k :: Onward(c.world, v, k)
    requires var n, id := c.worker.name, c.worker.removal.id;
             && (p.On? ==> RemovalSane(n, Entry(u, n), Removal(id, p.stage), v))
             && (p.On? ==> u == if p.stage.Freeing? then c.table - {n} else c.table)
             && (p.On? && p.stage.Freeing? ==> id in v.gone && n in c.table)
             && (p.Kept? ==> NeedsDeregistration(c.table, n, id) && u == RestoreBusy(c.table, n, id).0)
             && (p.Blocked? ==> u == c.table && n in c.table)
             && (p.Ended? ==> u == c.table && n !in c.table)
    ensures Safe(d)
  {
    var n := c.worker.name;
    assert Sane(n, CellOf(c, n), c.world);
    OnwardKeepsSane(n, CellOf(c, n), c.world, v);
    OneRunner(c, d, n);
  }

  lemma UndoIsSafe(c: Controller, m: Move, d: Controller)
    requires Safe(c) && TendNext(c, Undo(m)).Some? && d == TendNext(c, Undo(m)).value
    ensures Safe(d)
  {
    var n, r := c.worker.name, c.worker.removal;
    var (u, v, p) := Advance(c.table, c.world, n, r, m).value;
    UndoEffect(c, m, u, v, p, d);
    assert Sane(n, CellOf(c, n), c.world);
    AdvanceEffect(c.table, c.world, n, r, m, u, v, p);
    UndoOutcome(c, u, v, p, d);
  }

  lemma TendIsSafe(c: Controller, s: TendStep, d: Controller)
    requires Safe(c) && TendNext(c, s).Some? && d == TendNext(c, s).value
    ensures Safe(d)
  {
    match s
    case Record(observed) => RecordIsSafe(c, observed, d);
    case RemoveOrphan =>
    case CreditReady => CreditIsSafe(c, d);
    case Branch => BranchIsSafe(c, d);
    case Yield => YieldIsSafe(c, d);
    case Undo(m) => UndoIsSafe(c, m, d);
  }

  // --------------------------------------------------------------- the drain

  lemma BoundaryIsSafe(c: Controller, d: Controller)
    requires Safe(c) && DrainNext(c, Boundary).Some? && d == DrainNext(c, Boundary).value
    ensures Safe(d)
  {
    forall n ensures Sane(n, CellOf(d, n), d.world) {
      assert Sane(n, CellOf(c, n), c.world);
      if n in c.table {
        EntryMoves(n, CellOf(c, n), d.table[n], c.world);
      }
    }
  }

  predicate Settled(i: Instance) {
    i.phase == Busy || i.phase == Removing
  }

  /** The drain draws its boundary only once the worker has stopped; from then on
      whatever is left is busy or being removed, and in the end nothing is. */
  ghost predicate Swept(c: Controller) {
    && (c.drain == Sweeping || c.drain == Finished ==>
         c.worker == Stopped && forall n | n in c.table :: Settled(c.table[n]))
    && (c.drain == Finished ==> c.table == map[] && c.removals == map[])
  }

  lemma DrainClaimIsSafe(c: Controller, n: Name, d: Controller)
    requires Safe(c) && Swept(c) && DrainNext(c, DrainClaim(n)).Some? && d == DrainNext(c, DrainClaim(n)).value
    ensures Safe(d)
  {
    assert Sane(n, CellOf(c, n), c.world);
    OneRunner(c, d, n);
  }

  lemma DrainIsSafe(c: Controller, e: DrainStep, d: Controller)
    requires Safe(c) && Swept(c) && DrainNext(c, e).Some? && d == DrainNext(c, e).value
    ensures Safe(d)
  {
    match e
    case Boundary => BoundaryIsSafe(c, d);
    case DrainClaim(n) => DrainClaimIsSafe(c, n, d);
    case _ => SameRunners(c, d);
  }

  /** Busy and removing are the only phases left once the boundary is drawn. */
  lemma DoneMeansEmpty(c: Controller)
    requires Swept(c) && DrainNext(c, DrainDone).Some?
    ensures c.table == map[]
  {
    assert c.table.Keys == InPhase(c.table, Busy) + InPhase(c.table, Removing);
  }

  lemma DrainIsSwept(c: Controller, e: DrainStep, d: Controller)
    requires Swept(c) && DrainNext(c, e).Some? && d == DrainNext(c, e).value
    ensures Swept(d)
  {
    if e.DrainDone? {
      DoneMeansEmpty(c);
    }
  }

  lemma WorkerIsSwept(c: Controller, d: Controller)
    requires Swept(c) && c.worker != Stopped && d.drain == c.drain
    ensures Swept(d)
  {}

  lemma PassIsSwept(c: Controller, s: PassStep, d: Controller)
    requires PassNext(c, s).Some? && d == PassNext(c, s).value
    ensures d.drain == c.drain && c.worker != Stopped
  {}

  lemma StartIsSwept(c: Controller, s: StartStep, d: Controller)
    requires StartNext(c, s).Some? && d == StartNext(c, s).value
    ensures d.drain == c.drain && c.worker != Stopped
  {}

  lemma TendIsSwept(c: Controller, s: TendStep, d: Controller)
    requires TendNext(c, s).Some? && d == TendNext(c, s).value
    ensures d.drain == c.drain && c.worker != Stopped
  {}

  /** Settled entries stay settled, and none appears. */
  ghost predicate Thins(t: Table, u: Table) {
    forall n | n in u :: n in t && (Settled(t[n]) ==> Settled(u[n]))
  }

  lemma ThinnedIsSwept(c: Controller, d: Controller)
    requires Swept(c) && Thins(c.table, d.table) && d.removals.Keys <= c.removals.Keys
    requires d.drain == c.drain && d.worker == c.worker
    ensures Swept(d)
  {}

  lemma ReportThins(c: Controller, r: Report, d: Controller)
    requires ReportNext(c, r).Some? && d == ReportNext(c, r).value
    ensures Thins(c.table, d.table) && d.removals == c.removals && d.drain == c.drain && d.worker == c.worker
  {}

  lemma AdvanceThins(t: Table, w: World, n: Name, r: Removal, m: Move, u: Table)
    requires Advance(t, w, n, r, m).Some? && u == Advance(t, w, n, r, m).value.0
    ensures Thins(t, u)
  {}

  lemma RemovalThins(c: Controller, n: Name, m: Move, d: Controller)
    requires RemovalNext(c, n, m).Some? && d == RemovalNext(c, n, m).value
    ensures Thins(c.table, d.table) && d.removals.Keys <= c.removals.Keys && d.drain == c.drain && d.worker == c.worker
  {
    var (u, v, p) := Advance(c.table, c.world, n, c.removals[n], m).value;
    RemovalEffect(c, n, m, u, v, p, d);
    AdvanceThins(c.table, c.world, n, c.removals[n], m, u);
  }

  // -------------------------------------------------------------- every run

  lemma StepIsSafe(c: Controller, s: Step, d: Controller)
    requires Safe(c) && Swept(c) && Next(c, s).Some? && d == Next(c, s).value
    ensures Safe(d)
  {
    match s
    case Pass(p) => PassIsSafe(c, p, d);
    case Wait(w) => WaitIsSafe(c, w, d);
    case Start(p) => StartIsSafe(c, p, d);
    case Tend(p) => TendIsSafe(c, p, d);
    case Remove(n, m) => RemovalIsSafe(c, n, m, d);
    case Tell(r) => ReportIsSafe(c, r, d);
    case Carry(w, delay) => ChoreIsSafe(c, w, delay, d);
    case Occur(e) => EventIsSafe(c, e, d);
    case Wind(e) => DrainIsSafe(c, e, d);
  }

  lemma StepIsSwept(c: Controller, s: Step, d: Controller)
    requires Swept(c) && Next(c, s).Some? && d == Next(c, s).value
    ensures Swept(d)
  {
    match s
    case Pass(p) => PassIsSwept(c, p, d); WorkerIsSwept(c, d);
    case Wait(w) => WaitEffect(c, w, d); WaitStaysFree(c, w, d); WorkerIsSwept(c, d);
    case Start(p) => StartIsSwept(c, p, d); WorkerIsSwept(c, d);
    case Tend(p) => TendIsSwept(c, p, d); WorkerIsSwept(c, d);
    case Remove(n, m) => RemovalThins(c, n, m, d); ThinnedIsSwept(c, d);
    case Tell(r) => ReportThins(c, r, d); ThinnedIsSwept(c, d);
    case Carry(w, delay) => ChoreEffect(c, w, delay, d); ThinnedIsSwept(c, d);
    case Occur(e) => EventEffect(c, e, d); ThinnedIsSwept(c, d);
    case Wind(e) => DrainIsSwept(c, e, d);
  }

  /** Reachable by some interleaving of steps from a fresh controller. */
  predicate Reaches(config: Config, steps: seq<Step>, c: Controller) {
    Run(Initial(config), steps) == Some(c)
  }

  lemma LastStep(config: Config, steps: seq<Step>, c: Controller) returns (b: Controller, s: Step)
    requires Reaches(config, steps, c) && steps != []
    ensures Reaches(config, steps[..|steps| - 1], b) && Next(b, s).Some? && c == Next(b, s).value
    ensures s == steps[|steps| - 1]
  {
    s := steps[|steps| - 1];
    b := Run(Initial(config), steps[..|steps| - 1]).value;
  }

  lemma OneMoreStep(config: Config, steps: seq<Step>, c: Controller, s: Step, d: Controller)
    requires Reaches(config, steps, c) && Next(c, s).Some? && d == Next(c, s).value
    ensures Reaches(config, steps + [s], d)
  {
    assert (steps + [s])[..|steps|] == steps;
  }

  lemma FreshIsSafe(config: Config)
    ensures Safe(Initial(config)) && Swept(Initial(config))
  {}

  lemma {:induction false} RunIsSafe(config: Config, steps: seq<Step>, c: Controller)
    requires Reaches(config, steps, c)
    ensures Safe(c) && Swept(c)
    decreases |steps|
  {
    if steps == [] {
      FreshIsSafe(config);
    } else {
      var b, s := LastStep(config, steps, c);
      RunIsSafe(config, steps[..|steps| - 1], b);
      StepIsSafe(b, s, c);
      StepIsSwept(b, s, c);
    }
  }

  /** The runner and the instance a step asks the provider to destroy. */
  function Destroyed(c: Controller, s: Step): Option<(Name, Id)> {
    match s
    case Remove(n, Destroy(_, _)) => if n in c.removals then Some((n, c.removals[n].id)) else None
    case Tend(Undo(Destroy(_, _))) => if c.worker.Undoing? then Some((c.worker.name, c.worker.removal.id)) else None
    case Tend(RemoveOrphan) => if c.worker.Orphaning? then Some((0, c.worker.id)) else None
    case _ => None
  }

  /** Whatever the interleaving of assignments, job messages, scale-downs,
      failed calls and a drain: an instance is destroyed only when it has
      already stopped, or its runner's job is completed, or GitHub has agreed to
      let the runner go. */
  lemma DestroyedOnlyWhenHarmless(config: Config, steps: seq<Step>, c: Controller, s: Step)
    requires Reaches(config, steps, c) && Next(c, s).Some? && Destroyed(c, s).Some?
    ensures var (n, id) := Destroyed(c, s).value; IsOwner(c.world.owner, n, id) && Harmless(c.world, n, id)
  {
    RunIsSafe(config, steps, c);
    var n := Destroyed(c, s).value.0;
    assert Sane(n, CellOf(c, n), c.world);
  }

  /** No runner that holds an unfinished job, or may be given one, is destroyed
      while its instance runs. */
  lemma NoJobIsLost(config: Config, steps: seq<Step>, c: Controller, s: Step)
    requires Reaches(config, steps, c) && Next(c, s).Some? && Destroyed(c, s).Some?
    ensures var (n, id) := Destroyed(c, s).value;
            n in c.world.github && (c.world.github[n] == Assigned || c.world.github[n] == Unassigned) ==> id in c.world.gone
  {
    DestroyedOnlyWhenHarmless(config, steps, c, s);
  }

  /** A drain that reports success has left no runner, no removal and no
      running instance behind, although it looked only for busy and removing ones. */
  lemma DrainedIsEmpty(config: Config, steps: seq<Step>, c: Controller)
    requires Reaches(config, steps, c) && c.drain == Finished
    ensures c.table == map[] && c.removals == map[] && c.worker == Stopped
    ensures forall id | id in c.world.owner :: id in c.world.gone
  {
    RunIsSafe(config, steps, c);
    forall id | id in c.world.owner ensures id in c.world.gone {
      var n := c.world.owner[id];
      assert IsOwner(c.world.owner, n, id) && Sane(n, CellOf(c, n), c.world);
    }
  }

  // ------------------------------------------------------ work under way

  /** The four ways a busy runner stops being one: its job is reported finished,
      its instance is reported gone, its start failed before an instance was
      known, or it was started into a drain. */
  predicate EndsWork(c: Controller, s: Step, n: Name) {
    match s
    case Tell(JobFinished(k, _)) => k == n
    case Tell(Exit(k, id, _)) => k == n && id in c.world.gone
    case Start(Unprovision) => Starting(c.worker) && c.worker.name == n
    case Tend(Yield) => c.worker.Yielding? && c.worker.name == n
    case _ => false
  }

  predicate StillBusy(t: Table, u: Table, n: Name) {
    n in t && t[n].phase == Busy ==> n in u && u[n].phase == Busy
  }

  lemma PassKeepsBusy(c: Controller, s: PassStep, n: Name, d: Controller)
    requires PassNext(c, s).Some? && d == PassNext(c, s).value
    ensures StillBusy(c.table, d.table, n)
  {}

  lemma StartKeepsBusy(c: Controller, s: StartStep, n: Name, d: Controller)
    requires StartNext(c, s).Some? && d == StartNext(c, s).value && !EndsWork(c, Start(s), n)
    ensures StillBusy(c.table, d.table, n)
  {}

  lemma AdvanceKeepsBusy(t: Table, w: World, k: Name, r: Removal, m: Move, u: Table, n: Name)
    requires Advance(t, w, k, r, m).Some? && u == Advance(t, w, k, r, m).value.0
    ensures StillBusy(t, u, n)
  {}

  lemma RemovalKeepsBusy(c: Controller, k: Name, m: Move, n: Name, d: Controller)
    requires RemovalNext(c, k, m).Some? && d == RemovalNext(c, k, m).value
    ensures StillBusy(c.table, d.table, n)
  {
    var (u, v, p) := Advance(c.table, c.world, k, c.removals[k], m).value;
    RemovalEffect(c, k, m, u, v, p, d);
    AdvanceKeepsBusy(c.table, c.world, k, c.removals[k], m, u, n);
  }

  lemma TendKeepsBusy(c: Controller, s: TendStep, n: Name, d: Controller)
    requires TendNext(c, s).Some? && d == TendNext(c, s).value && !s.Undo? && !EndsWork(c, Tend(s), n)
    ensures StillBusy(c.table, d.table, n)
  {}

  lemma ReportKeepsBusy(c: Controller, r: Report, n: Name, d: Controller)
    requires ReportNext(c, r).Some? && d == ReportNext(c, r).value && !EndsWork(c, Tell(r), n)
    ensures StillBusy(c.table, d.table, n)
  {}

  lemma DrainKeepsBusy(c: Controller, e: DrainStep, n: Name, d: Controller)
    requires DrainNext(c, e).Some? && d == DrainNext(c, e).value
    ensures StillBusy(c.table, d.table, n)
  {}

  /** Nothing else preempts a busy runner: no scale-down, no drain boundary, no
      removal, no report about another runner. */
  lemma BusyIsNotPreempted(c: Controller, s: Step, n: Name, d: Controller)
    requires Next(c, s).Some? && d == Next(c, s).value
    requires n in c.table && c.table[n].phase == Busy && !EndsWork(c, s, n)
    ensures n in d.table && d.table[n].phase == Busy
  {
    match s
    case Pass(p) => PassKeepsBusy(c, p, n, d);
    case Wait(w) => WaitEffect(c, w, d);
    case Start(p) => StartKeepsBusy(c, p, n, d);
    case Tend(p) =>
      if p.Undo? {
        AdvanceKeepsBusy(c.table, c.world, c.worker.name, c.worker.removal, p.move, d.table, n);
      } else {
        TendKeepsBusy(c, p, n, d);
      }
    case Remove(k, m) => RemovalKeepsBusy(c, k, m, n, d);
    case Tell(r) => ReportKeepsBusy(c, r, n, d);
    case Carry(w, delay) => ChoreEffect(c, w, delay, d);
    case Occur(e) => EventEffect(c, e, d);
    case Wind(e) => DrainKeepsBusy(c, e, n, d);
  }
}
