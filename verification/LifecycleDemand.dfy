/** What the worker makes of demand: it starts a runner only while the runners
    that may still serve work fall short of it, removes one only while there are
    more, and does neither while the demand it knows is out of date. */
module LifecycleDemand {
  import opened Instances
  import opened Lifecycle
  import opened LifecycleSafety
  import opened Options
  import R = Retry

  /** `n` runners are fewer than the maximum and than the demand on top of the minimum. */
  predicate FallsShort(c: Controller, n: int) {
    n < c.config.maxRunners && n < c.config.minRunners + c.demand.desired
  }

  /** `n` runners are more than the maximum, or than the demand on top of the minimum. */
  predicate Exceeds(c: Controller, n: int) {
    n > c.config.maxRunners || n > c.config.minRunners + c.demand.desired
  }

  /** No completion awaits its count, and no exit has outdated the last one. */
  predicate UpToDate(d: Demand) {
    d.pending == 0 && !d.stale
  }

  lemma TargetMeets(c: Controller, n: int)
    ensures n < c.Target() <==> FallsShort(c, n)
    ensures n > c.Target() <==> Exceeds(c, n)
  {}

  /** Demand is read at `c`, the runners counted at `e`, in whatever state others
      have brought the table to by then: a runner is started if and only if there
      are too few, a surplus looked for if and only if there are too many. */
  lemma PassFollowsDemand(c: Controller, d: Controller, e: Controller, f: Controller)
    requires Next(c, Pass(ReadTarget)) == Some(d)
    requires e.worker == d.worker && Next(e, Pass(Compare)) == Some(f)
    ensures UpToDate(c.demand)
    ensures f.worker.Gating? <==> FallsShort(c, Count(e.table))
    ensures f.worker.Shrinking? <==> Exceeds(c, Count(e.table))
  {
    TargetMeets(c, Count(e.table));
  }

  /** With demand out of date the pass ends without counting anything. */
  lemma NoPassOnOldDemand(c: Controller, d: Controller)
    requires Next(c, Pass(ReadTarget)) == Some(d)
    ensures d.worker.Asleep? <==> !UpToDate(c.demand)
    ensures !d.worker.Asleep? ==> d.worker.Counting?
  {}

  /** With its lease in hand the worker reads demand again, at `c`, and counts
      again, at `e`: it goes on only while there are too few runners and no drain. */
  lemma StartFollowsDemand(c: Controller, d: Controller, e: Controller, f: Controller)
    requires Next(c, Wait(Recheck)) == Some(d)
    ensures d.worker.Recounting? <==> UpToDate(c.demand)
    ensures !d.worker.Recounting? ==> d.worker == Dropping(c.worker.lease)
    ensures e.worker == d.worker && Next(e, Wait(Recount)) == Some(f) ==>
              (f.worker.Regating? <==> e.drain == NotDraining && FallsShort(c, Count(e.table)))
  {
    if d.worker.Recounting? {
      TargetMeets(c, Count(e.table));
    }
  }

  lemma OneFewer(t: Table, n: Name)
    requires n in t && t[n].phase == Idle
    ensures |NotRemoving(ScaleDown(t, n))| == |NotRemoving(t)| - 1
  {
    assert NotRemoving(ScaleDown(t, n)) == NotRemoving(t) - {n};
  }

  /** Demand is read at `c` and a runner to remove chosen at `f`: it is an idle one,
      and those that are left still meet the demand. */
  lemma ScaleDownSparesDemand(c: Controller, d: Controller, f: Controller, n: Name, g: Controller)
    requires Next(c, Pass(ReadTarget)) == Some(d) && d.worker.Counting?
    requires f.worker == Shrinking(d.worker.target) && Next(f, Pass(ShrinkOne(n))) == Some(g)
    ensures n in f.table && f.table[n].phase == Idle
    ensures g.table == f.table[n := f.table[n].(phase := Removing, reason := ScaledDown)]
    ensures !FallsShort(c, |NotRemoving(g.table)|)
  {
    OneFewer(f.table, n);
    TargetMeets(c, |NotRemoving(g.table)|);
  }

  /** A surplus is left alone only when no idle runner is there to be removed, or
      there is none once the removals under way are taken off. */
  lemma SurplusIsRemoved(c: Controller, d: Controller, f: Controller, g: Controller)
    requires Next(c, Pass(ReadTarget)) == Some(d) && d.worker.Counting?
    requires f.worker == Shrinking(d.worker.target) && Next(f, Pass(ShrinkNone)) == Some(g)
    ensures !Exceeds(c, |NotRemoving(f.table)|) || InPhase(f.table, Idle) == {}
  {
    TargetMeets(c, |NotRemoving(f.table)|);
  }

  /** A satisfied demand lifts the retry deadline: exactly when the runners that
      are ready meet it. */
  lemma SatisfiedDemandClears(c: Controller, d: Controller, f: Controller, g: Controller)
    requires Next(c, Pass(ReadTarget)) == Some(d) && d.worker.Counting?
    requires f.worker == Settling(d.worker.target) && Next(f, Pass(Settle)) == Some(g)
    ensures g.worker.Clearing? <==> !FallsShort(c, |InPhase(f.table, Idle)| + |InPhase(f.table, Busy)|)
  {
    TargetMeets(c, |InPhase(f.table, Idle)| + |InPhase(f.table, Busy)|);
  }

  // ---------------------------------------------- when demand is out of date

  lemma ChoreDemand(c: Controller, w: Chore, delay: int, d: Controller)
    requires ChoreNext(c, w, delay).Some? && d == ChoreNext(c, w, delay).value
    ensures w.RaisePending? ==> d.demand == c.demand.(pending := c.demand.pending + 1)
    ensures w.NoteStale? ==> d.demand == if c.demand.revision == w.seen then c.demand.(stale := true) else c.demand
    ensures !w.RaisePending? && !w.NoteStale? ==> d.demand == c.demand
  {}

  lemma RemovalDemand(c: Controller, n: Name, m: Move, d: Controller)
    requires RemovalNext(c, n, m).Some? && d == RemovalNext(c, n, m).value
    ensures d.demand == c.demand
  {}

  lemma WorkerDemand(c: Controller, s: Step, d: Controller)
    requires Next(c, s).Some? && d == Next(c, s).value && (s.Pass? || s.Wait? || s.Start? || s.Tend?)
    ensures d.demand == c.demand
  {}

  lemma ReportDemand(c: Controller, r: Report, d: Controller)
    requires ReportNext(c, r).Some? && d == ReportNext(c, r).value
    ensures d.demand == if r.DesiredCount? then Demand(r.count, c.demand.revision + 1, 0, false) else c.demand
  {}

  /** Demand falls out of date when a completion is taken in, or an exit that no
      count has come in since; and only a count brings it up to date again. */
  lemma OnlyACountUpdatesDemand(c: Controller, s: Step, d: Controller)
    requires Next(c, s).Some? && d == Next(c, s).value
    ensures s.Carry? && s.chore.RaisePending? ==> !UpToDate(d.demand)
    ensures s.Carry? && s.chore.NoteStale? && s.chore.seen == c.demand.revision ==> !UpToDate(d.demand)
    ensures s.Tell? && s.report.DesiredCount? ==> UpToDate(d.demand) && d.demand.desired == s.report.count
    ensures !(s.Tell? && s.report.DesiredCount?) ==>
              && d.demand.desired == c.demand.desired && d.demand.revision == c.demand.revision
              && (UpToDate(d.demand) ==> UpToDate(c.demand))
  {
    match s
    case Carry(w, delay) => ChoreDemand(c, w, delay, d);
    case Tell(r) => ReportDemand(c, r, d);
    case Remove(n, m) => RemovalDemand(c, n, m, d);
    case Occur(e) =>
    case Wind(e) =>
    case _ => WorkerDemand(c, s, d);
  }

  /** Then the deadline is lifted, and the count of failures stays. */
  lemma ClearingKeepsTheCount(c: Controller, d: Controller)
    requires Next(c, Pass(Clear)) == Some(d)
    ensures d.ledger == c.ledger.(nextRetryAt := 0, state := R.Clear) && d.worker == Asleep
  {}

  // ------------------------------------------------------- what a drain stops

  /** Cancelling the work lifts the deadline in the same way. */
  lemma DrainLiftsTheDeadline(c: Controller, d: Controller)
    requires Next(c, Wind(CancelWork)) == Some(d)
    ensures d.ledger == c.ledger.(nextRetryAt := 0, state := R.Clear) && d.WorkCancelled()
  {}

  /** A pass that finds a drain begun ends there; any other looks for cleanups. */
  lemma DrainEndsThePass(c: Controller, d: Controller)
    requires Next(c, Pass(Decide)) == Some(d)
    ensures d.worker == (if c.drain == NotDraining then Claiming else Asleep) && d.table == c.table
  {}

  /** A runner just started is kept unless a drain has begun, when the worker removes
      it again; one removed meanwhile has the next pass rung for. */
  lemma DrainTakesTheStartBack(c: Controller, d: Controller)
    requires Next(c, Tend(Branch)) == Some(d)
    ensures c.worker.Branching? && d.table == c.table
    ensures c.drain == NotDraining ==>
              d.worker == Deciding && (if c.worker.removeNow then d.bell == Ring(c.bell) && d.bell.wake else d.bell == c.bell)
    ensures c.drain != NotDraining ==>
              d.worker == if c.worker.removeNow then Undoing(c.worker.name, Removal(c.worker.id, Judging))
                          else Yielding(c.worker.name, c.worker.id)
  {}
}
