/** No wakeup is lost: a wait for capacity that nobody has cancelled has missed
    no signal, and a removal ready to be claimed is never left unheard. */
module LifecycleWake {
  import opened Instances
  import opened Lifecycle
  import opened LifecycleSafety
  import opened Options

  // ------------------------------------------------------ the capacity wait

  predicate Hooked(w: Worker) {
    w.Requesting? || w.Waiting? || w.Returning? || w.Unhooking? || w.UnhookingEmpty?
  }

  predicate InWait(w: Worker) {
    w.Requesting? || w.Waiting?
  }

  /** The wait is hooked exactly while the worker is in it, and one that has seen
      a signal, or found one in the channel, is cancelled. */
  predicate Rung(c: Controller) {
    && c.bell.hooked == Hooked(c.worker)
    && (InWait(c.worker) && (c.bell.wake || c.bell.sent > 0) ==> c.bell.cancelled)
  }

  lemma PassIsRung(c: Controller, s: PassStep, d: Controller)
    requires Rung(c) && PassNext(c, s).Some? && d == PassNext(c, s).value
    ensures Rung(d)
  {}

  lemma WaitIsRung(c: Controller, s: WaitStep, d: Controller)
    requires Rung(c) && WaitNext(c, s).Some? && d == WaitNext(c, s).value
    ensures Rung(d)
  {}

  lemma StartIsRung(c: Controller, s: StartStep, d: Controller)
    requires Rung(c) && StartNext(c, s).Some? && d == StartNext(c, s).value
    ensures Rung(d)
  {}

  lemma TendIsRung(c: Controller, s: TendStep, d: Controller)
    requires Rung(c) && TendNext(c, s).Some? && d == TendNext(c, s).value
    ensures Rung(d)
  {}

  lemma RemovalIsRung(c: Controller, n: Name, m: Move, d: Controller)
    requires Rung(c) && RemovalNext(c, n, m).Some? && d == RemovalNext(c, n, m).value
    ensures Rung(d)
  {}

  lemma ReportIsRung(c: Controller, r: Report, d: Controller)
    requires Rung(c) && ReportNext(c, r).Some? && d == ReportNext(c, r).value
    ensures Rung(d)
  {}

  lemma ChoreIsRung(c: Controller, w: Chore, delay: int, d: Controller)
    requires Rung(c) && ChoreNext(c, w, delay).Some? && d == ChoreNext(c, w, delay).value
    ensures Rung(d)
  {}

  lemma EventIsRung(c: Controller, e: Event, d: Controller)
    requires Rung(c) && EventNext(c, e).Some? && d == EventNext(c, e).value
    ensures Rung(d)
  {}

  lemma DrainIsRung(c: Controller, e: DrainStep, d: Controller)
    requires Rung(c) && DrainNext(c, e).Some? && d == DrainNext(c, e).value
    ensures Rung(d)
  {}

  lemma StepIsRung(c: Controller, s: Step, d: Controller)
    requires Rung(c) && Next(c, s).Some? && d == Next(c, s).value
    ensures Rung(d)
  {
    match s
    case Pass(p) => PassIsRung(c, p, d);
    case Wait(w) => WaitIsRung(c, w, d);
    case Start(p) => StartIsRung(c, p, d);
    case Tend(p) => TendIsRung(c, p, d);
    case Remove(n, m) => RemovalIsRung(c, n, m, d);
    case Tell(r) => ReportIsRung(c, r, d);
    case Carry(w, delay) => ChoreIsRung(c, w, delay, d);
    case Occur(e) => EventIsRung(c, e, d);
    case Wind(e) => DrainIsRung(c, e, d);
  }

  // ------------------------------------------------ who hears of a removal

  /** Chores that end in a signal. */
  predicate Publishes(w: Chore) {
    w == RaisePending(true) || w.NoteStale? || w.NoteFailure? || w.CreditStart? || w.Publish?
  }

  /** The worker claims what is due before it next sleeps. */
  predicate Passing(w: Worker) {
    w.Deciding? || w.Claiming? || w.Crediting? || w.Branching?
  }

  /** A pass over the removals is under way, announced, or about to be announced. */
  ghost predicate Attention(c: Controller) {
    c.bell.wake || Passing(c.worker) || exists w :: w in c.chores && Publishes(w)
  }

  /** Somebody will look at this removal: a timer set for it, or a pass to come. */
  ghost predicate Heard(c: Controller, i: Instance) {
    i.retryAt in c.timers || (i.retryAt <= c.now && Attention(c))
  }

  predicate Calm(i: Instance) {
    !i.inFlight && !Claimable(i) ==> i.retryAt == 0
  }

  ghost predicate Watched(c: Controller) {
    && c.now >= 0
    && (c.worker.Yielding? || c.worker.Undoing? ==> c.IsDraining())
    && (forall n | n in c.table :: Calm(c.table[n]))
    && (!c.IsDraining() ==> forall n | n in c.table && Claimable(c.table[n]) :: Heard(c, c.table[n]))
  }

  /** An entry's step: it stays calm, and if it is claimable now it was so before
      with the same deadline, or a pass is coming. */
  ghost predicate StillHeard(c: Controller, d: Controller, j: Instance, i: Option<Instance>) {
    && Calm(j)
    && (Claimable(j) && !d.IsDraining() ==>
          || (i.Some? && Claimable(i.value) && i.value.retryAt == j.retryAt)
          || (j.retryAt <= d.now && Attention(d))
          || j.retryAt in d.timers)
  }

  /** Nobody stops listening. */
  ghost predicate Listening(c: Controller, d: Controller) {
    && (c.IsDraining() ==> d.IsDraining()) && c.now <= d.now
    && (d.worker.Yielding? || d.worker.Undoing? ==> d.IsDraining())
    && (!d.IsDraining() ==>
          && (Attention(c) ==> Attention(d))
          && (forall x | x in c.timers :: x in d.timers || (x <= d.now && Attention(d))))
  }

  lemma ListeningIsWatched(c: Controller, d: Controller)
    requires Watched(c) && Listening(c, d)
    requires forall n | n in d.table :: StillHeard(c, d, d.table[n], Entry(c.table, n))
    ensures Watched(d)
  {
    if !d.IsDraining() {
      forall n | n in d.table && Claimable(d.table[n]) ensures Heard(d, d.table[n]) {
        if n in c.table && Claimable(c.table[n]) {
          assert Heard(c, c.table[n]);
        }
      }
    }
  }

  // ------------------------------------------------------------- the worker

  lemma DeafPass(c: Controller, d: Controller)
    requires Watched(c) && PassNext(c, ClaimNone).Some? && d == PassNext(c, ClaimNone).value
    ensures Watched(d)
  {
    forall n | n in d.table && Claimable(d.table[n]) && !d.IsDraining() ensures Heard(d, d.table[n]) {
      assert Heard(c, c.table[n]) && !Due(c.table[n], c.now);
    }
  }

  lemma PassEntries(c: Controller, s: PassStep, d: Controller)
    requires Watched(c) && PassNext(c, s).Some? && d == PassNext(c, s).value && !s.ClaimNone?
    ensures forall n | n in d.table :: StillHeard(c, d, d.table[n], Entry(c.table, n))
  {}

  lemma PassListens(c: Controller, s: PassStep, d: Controller)
    requires PassNext(c, s).Some? && d == PassNext(c, s).value && !s.ClaimNone?
    ensures Listening(c, d)
  {}

  lemma PassIsWatched(c: Controller, s: PassStep, d: Controller)
    requires Watched(c) && PassNext(c, s).Some? && d == PassNext(c, s).value
    ensures Watched(d)
  {
    if s.ClaimNone? {
      DeafPass(c, d);
    } else {
      PassEntries(c, s, d);
      PassListens(c, s, d);
      ListeningIsWatched(c, d);
    }
  }

  lemma WaitListens(c: Controller, s: WaitStep, d: Controller)
    requires WaitNext(c, s).Some? && d == WaitNext(c, s).value
    ensures Listening(c, d) && d.now == c.now
  {}

  lemma WaitIsWatched(c: Controller, s: WaitStep, d: Controller)
    requires Watched(c) && WaitNext(c, s).Some? && d == WaitNext(c, s).value
    ensures Watched(d)
  {
    WaitListens(c, s, d);
    WaitEffect(c, s, d);
    ListeningIsWatched(c, d);
  }

  lemma StartIsSilent(c: Controller, s: StartStep, d: Controller)
    requires StartNext(c, s).Some? && d == StartNext(c, s).value
    ensures d.bell == c.bell && d.chores == c.chores && d.timers == c.timers && d.now == c.now && d.drain == c.drain
    ensures !Passing(c.worker) && !d.worker.Yielding? && !d.worker.Undoing?
  {}

  lemma StartListens(c: Controller, s: StartStep, d: Controller)
    requires StartNext(c, s).Some? && d == StartNext(c, s).value
    ensures Listening(c, d)
  {
    StartIsSilent(c, s, d);
  }

  lemma StartEntries(c: Controller, s: StartStep, d: Controller)
    requires Watched(c) && StartNext(c, s).Some? && d == StartNext(c, s).value
    ensures forall n | n in d.table :: StillHeard(c, d, d.table[n], Entry(c.table, n))
  {}

  lemma StartIsWatched(c: Controller, s: StartStep, d: Controller)
    requires Watched(c) && StartNext(c, s).Some? && d == StartNext(c, s).value
    ensures Watched(d)
  {
    StartListens(c, s, d);
    StartEntries(c, s, d);
    ListeningIsWatched(c, d);
  }

  lemma TendListens(c: Controller, s: TendStep, d: Controller)
    requires Watched(c) && TendNext(c, s).Some? && d == TendNext(c, s).value
    ensures Listening(c, d)
  {
    forall w | w in c.chores ensures w in d.chores {}
  }

  lemma RecordEntries(c: Controller, observed: bool, d: Controller)
    requires Watched(c) && Safe(c) && TendNext(c, Record(observed)).Some? && d == TendNext(c, Record(observed)).value
    ensures forall n | n in d.table :: StillHeard(c, d, d.table[n], Entry(c.table, n))
  {
    assert Sane(c.worker.name, CellOf(c, c.worker.name), c.world);
  }

  lemma AdvanceCalm(t: Table, w: World, n: Name, r: Removal, m: Move, u: Table)
    requires Advance(t, w, n, r, m).Some? && u == Advance(t, w, n, r, m).value.0
    ensures forall k | k in u :: k in t && (u[k] == t[k] || (u[k].phase == Busy && u[k].retryAt == 0))
  {}

  lemma UndoEntries(c: Controller, m: Move, d: Controller)
    requires Watched(c) && TendNext(c, Undo(m)).Some? && d == TendNext(c, Undo(m)).value
    ensures forall n | n in d.table :: StillHeard(c, d, d.table[n], Entry(c.table, n))
  {
    AdvanceCalm(c.table, c.world, c.worker.name, c.worker.removal, m, d.table);
  }

  lemma TendEntries(c: Controller, s: TendStep, d: Controller)
    requires Watched(c) && Safe(c) && TendNext(c, s).Some? && d == TendNext(c, s).value && !s.Record? && !s.Undo?
    ensures forall n | n in d.table :: StillHeard(c, d, d.table[n], Entry(c.table, n))
  {}

  lemma TendIsWatched(c: Controller, s: TendStep, d: Controller)
    requires Watched(c) && Safe(c) && TendNext(c, s).Some? && d == TendNext(c, s).value
    ensures Watched(d)
  {
    TendListens(c, s, d);
    match s {
      case Record(observed) => RecordEntries(c, observed, d);
      case Undo(m) => UndoEntries(c, m, d);
      case _ => TendEntries(c, s, d);
    }
    ListeningIsWatched(c, d);
  }

  // ------------------------------------------- removals, callbacks, the outside

  lemma RemovalListens(c: Controller, n: Name, m: Move, d: Controller)
    requires Watched(c) && RemovalNext(c, n, m).Some? && d == RemovalNext(c, n, m).value
    ensures Listening(c, d) && d.drain == c.drain && d.now == c.now
  {
    forall w | w in c.chores ensures w in d.chores {}
  }

  /** A removal that must be tried again sets its timer. */
  lemma RetryIsArmed(c: Controller, n: Name, m: Move, d: Controller)
    requires RemovalNext(c, n, m).Some? && d == RemovalNext(c, n, m).value
    requires n in c.table && c.table[n].inFlight && n in d.table && Claimable(d.table[n]) && !d.IsDraining()
    ensures d.table[n].retryAt in d.timers
  {}

  lemma RemovalEntries(c: Controller, n: Name, m: Move, d: Controller)
    requires Watched(c) && Safe(c) && RemovalNext(c, n, m).Some? && d == RemovalNext(c, n, m).value
    ensures forall k | k in d.table :: StillHeard(c, d, d.table[k], Entry(c.table, k))
  {
    UnderWay(c, n);
    var (u, v, p) := Advance(c.table, c.world, n, c.removals[n], m).value;
    AdvanceCalm(c.table, c.world, n, c.removals[n], m, u);
    RemovalEffect(c, n, m, u, v, p, d);
    forall k | k in d.table ensures StillHeard(c, d, d.table[k], Entry(c.table, k)) {
      if k == n && Claimable(d.table[n]) && !d.IsDraining() {
        RetryIsArmed(c, n, m, d);
      }
    }
  }

  lemma RemovalIsWatched(c: Controller, n: Name, m: Move, d: Controller)
    requires Watched(c) && Safe(c) && RemovalNext(c, n, m).Some? && d == RemovalNext(c, n, m).value
    ensures Watched(d)
  {
    RemovalListens(c, n, m, d);
    RemovalEntries(c, n, m, d);
    ListeningIsWatched(c, d);
  }

  lemma ReportListens(c: Controller, r: Report, d: Controller)
    requires Watched(c) && ReportNext(c, r).Some? && d == ReportNext(c, r).value
    ensures Listening(c, d)
  {
    forall w | w in c.chores ensures w in d.chores {}
  }

  lemma JobEntries(c: Controller, r: Report, d: Controller)
    requires Watched(c) && ReportNext(c, r).Some? && d == ReportNext(c, r).value && (r.DesiredCount? || r.JobStarted?)
    ensures forall n | n in d.table :: StillHeard(c, d, d.table[n], Entry(c.table, n))
  {}

  lemma FinishedEntries(c: Controller, n: Name, result: string, d: Controller)
    requires Watched(c) && ReportNext(c, JobFinished(n, result)).Some? && d == ReportNext(c, JobFinished(n, result)).value
    ensures forall k | k in d.table :: StillHeard(c, d, d.table[k], Entry(c.table, k))
  {
    assert d == c || RaisePending(c.table[n].id != NO_ID) in d.chores;
  }

  lemma ReadinessEntries(c: Controller, n: Name, id: Id, failed: bool, d: Controller)
    requires Watched(c)
    requires ReportNext(c, Readiness(n, id, failed)).Some? && d == ReportNext(c, Readiness(n, id, failed)).value
    ensures forall k | k in d.table :: StillHeard(c, d, d.table[k], Entry(c.table, k))
  {
    assert d == c || !failed || NoteFailure(c.table[n].attempt.id) in d.chores;
  }

  lemma ExitEntries(c: Controller, n: Name, id: Id, seen: nat, d: Controller)
    requires Watched(c) && ReportNext(c, Exit(n, id, seen)).Some? && d == ReportNext(c, Exit(n, id, seen)).value
    ensures forall k | k in d.table :: StillHeard(c, d, d.table[k], Entry(c.table, k))
  {
    assert d == c || NoteStale(seen) in d.chores;
  }

  lemma ReportEntries(c: Controller, r: Report, d: Controller)
    requires Watched(c) && ReportNext(c, r).Some? && d == ReportNext(c, r).value
    ensures forall n | n in d.table :: StillHeard(c, d, d.table[n], Entry(c.table, n))
  {
    match r
    case JobFinished(n, result) => FinishedEntries(c, n, result, d);
    case Readiness(n, id, failed) => ReadinessEntries(c, n, id, failed, d);
    case Exit(n, id, seen) => ExitEntries(c, n, id, seen, d);
    case _ => JobEntries(c, r, d);
  }

  lemma ReportIsWatched(c: Controller, r: Report, d: Controller)
    requires Watched(c) && ReportNext(c, r).Some? && d == ReportNext(c, r).value
    ensures Watched(d)
  {
    ReportListens(c, r, d);
    ReportEntries(c, r, d);
    ListeningIsWatched(c, d);
  }

  lemma ChoreBells(c: Controller, w: Chore, delay: int, d: Controller)
    requires ChoreNext(c, w, delay).Some? && d == ChoreNext(c, w, delay).value && !c.IsDraining()
    ensures c.bell.wake ==> d.bell.wake
    ensures c.chores - multiset{w} <= d.chores
    ensures Publishes(w) ==> d.bell.wake || Publish in d.chores
  {}

  lemma ChoreTimes(c: Controller, w: Chore, delay: int, d: Controller)
    requires ChoreNext(c, w, delay).Some? && d == ChoreNext(c, w, delay).value
    ensures d.timers == c.timers && d.now == c.now
  {}

  lemma ChoreListens(c: Controller, w: Chore, delay: int, d: Controller)
    requires Watched(c) && ChoreNext(c, w, delay).Some? && d == ChoreNext(c, w, delay).value
    ensures Listening(c, d)
  {
    ChoreEffect(c, w, delay, d);
    ChoreTimes(c, w, delay, d);
    if !c.IsDraining() {
      ChoreBells(c, w, delay, d);
      forall v | v in c.chores && v != w ensures v in d.chores {
        assert v in c.chores - multiset{w};
      }
    }
  }

  lemma ChoreIsWatched(c: Controller, w: Chore, delay: int, d: Controller)
    requires Watched(c) && ChoreNext(c, w, delay).Some? && d == ChoreNext(c, w, delay).value
    ensures Watched(d)
  {
    ChoreEffect(c, w, delay, d);
    ChoreListens(c, w, delay, d);
    ListeningIsWatched(c, d);
  }

  lemma EventListens(c: Controller, e: Event, d: Controller)
    requires Watched(c) && EventNext(c, e).Some? && d == EventNext(c, e).value
    ensures Listening(c, d)
  {
    forall w | w in c.chores ensures w in d.chores {}
    if e.Fire? {
      assert Publish in d.chores;
      forall x | x in c.timers ensures x in d.timers || x == e.due {}
    }
  }

  lemma EventIsWatched(c: Controller, e: Event, d: Controller)
    requires Watched(c) && EventNext(c, e).Some? && d == EventNext(c, e).value
    ensures Watched(d)
  {
    EventEffect(c, e, d);
    EventListens(c, e, d);
    ListeningIsWatched(c, d);
  }

  lemma DrainIsWatched(c: Controller, e: DrainStep, d: Controller)
    requires Watched(c) && DrainNext(c, e).Some? && d == DrainNext(c, e).value
    ensures Watched(d)
  {}

  // -------------------------------------------------------------- every run

  lemma StepIsWatched(c: Controller, s: Step, d: Controller)
    requires Watched(c) && Safe(c) && Next(c, s).Some? && d == Next(c, s).value
    ensures Watched(d)
  {
    match s
    case Pass(p) => PassIsWatched(c, p, d);
    case Wait(w) => WaitIsWatched(c, w, d);
    case Start(p) => StartIsWatched(c, p, d);
    case Tend(p) => TendIsWatched(c, p, d);
    case Remove(n, m) => RemovalIsWatched(c, n, m, d);
    case Tell(r) => ReportIsWatched(c, r, d);
    case Carry(w, delay) => ChoreIsWatched(c, w, delay, d);
    case Occur(e) => EventIsWatched(c, e, d);
    case Wind(e) => DrainIsWatched(c, e, d);
  }

  lemma {:induction false} RunIsWatched(config: Config, steps: seq<Step>, c: Controller)
    requires Reaches(config, steps, c)
    ensures Rung(c) && Watched(c)
    decreases |steps|
  {
    if steps != [] {
      var b, s := LastStep(config, steps, c);
      RunIsWatched(config, steps[..|steps| - 1], b);
      RunIsSafe(config, steps[..|steps| - 1], b);
      StepIsRung(b, s, c);
      StepIsWatched(b, s, c);
    }
  }

  /** While a capacity wait goes on uncancelled, the channel is empty and not one
      signal has been sent since the wait was hooked. */
  lemma WaitingMissesNoSignal(config: Config, steps: seq<Step>, c: Controller)
    requires Reaches(config, steps, c) && InWait(c.worker) && !c.bell.cancelled
    ensures c.bell.hooked && !c.bell.wake && c.bell.sent == 0
  {
    RunIsWatched(config, steps, c);
  }

  /** A signal sent during a wait cancels it, and stays in the channel for the
      pass that follows. */
  lemma SignalEndsWait(config: Config, steps: seq<Step>, c: Controller)
    requires Reaches(config, steps, c) && InWait(c.worker)
    ensures var d := Signalled(c); d.bell.cancelled && d.bell.wake && WaitNext(d, if d.worker.Waiting? then Desist(false) else Refuse).Some?
  {
    RunIsWatched(config, steps, c);
  }

  /** Outside a drain, once the worker is asleep or in an uncancelled wait with
      nothing left to be signalled, every removal that could be claimed has its
      own timer set: no cleanup is forgotten. */
  lemma NoCleanupIsForgotten(config: Config, steps: seq<Step>, c: Controller, n: Name)
    requires Reaches(config, steps, c) && !c.IsDraining()
    requires n in c.table && Claimable(c.table[n])
    requires c.worker.Asleep? || InWait(c.worker)
    requires !c.bell.wake && forall w | w in c.chores :: !Publishes(w)
    ensures c.table[n].retryAt in c.timers
  {
    RunIsWatched(config, steps, c);
    assert Heard(c, c.table[n]);
  }

  /** A removal that is due always has a pass coming to it. */
  lemma DueRemovalIsHeard(config: Config, steps: seq<Step>, c: Controller, n: Name)
    requires Reaches(config, steps, c) && !c.IsDraining()
    requires n in c.table && Due(c.table[n], c.now)
    ensures Attention(c) || exists x :: x in c.timers && x <= c.now
  {
    RunIsWatched(config, steps, c);
    assert Heard(c, c.table[n]);
  }
}
