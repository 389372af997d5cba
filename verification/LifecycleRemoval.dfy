/** The course of a removal, over whole runs: whether GitHub is asked, what its
    answer leads to, what a failed step leaves behind, and how it ends. */
module LifecycleRemoval {
  import opened Instances
  import opened Lifecycle
  import opened LifecycleSafety
  import opened LifecycleReports
  import opened Options

  /** The removal was given up for now: its entry waits for the next try, which is
      announced by a timer unless a drain looks after it. */
  predicate GivenBack(c: Controller, n: Name, d: Controller) {
    && n in c.table && n !in d.removals
    && var i := c.table[n];
       && d.table == c.table[n := i.(inFlight := false, tries := i.tries + 1, retryAt := c.now + RetryDelay(i.tries + 1))]
       && d.timers == (if c.drain == NotDraining then c.timers + multiset{c.now + RetryDelay(i.tries + 1)} else c.timers)
       && d.chores == c.chores
  }

  /** The removal goes on to `stage`; nothing else changes for it. */
  predicate GoesOn(c: Controller, n: Name, stage: Stage, d: Controller) {
    && n in c.removals && d.removals == c.removals[n := Removal(c.removals[n].id, stage)]
    && d.timers == c.timers && d.chores == c.chores
  }

  /** The removal has its entry for itself. */
  predicate Has(c: Controller, n: Name) {
    n in c.removals && n in c.table && c.table[n].phase == Removing && c.table[n].inFlight && c.table[n].id == c.removals[n].id
  }

  lemma UnderRemoval(config: Config, steps: seq<Step>, c: Controller, n: Name)
    requires Reaches(config, steps, c) && n in c.removals && !c.removals[n].stage.Freeing?
    ensures Has(c, n) && c.table[n].reason != NoReason
  {
    RunIsSafe(config, steps, c);
    UnderWay(c, n);
    ReachableEntry(config, steps, c, n);
  }

  lemma Judgement(c: Controller, n: Name, d: Controller)
    requires Has(c, n) && c.table[n].reason != NoReason && RemovalNext(c, n, Judge) == Some(d)
    ensures if OutOfReach(c.table[n]) then GoesOn(c, n, Destroying, d) && d.table == c.table
            else if c.table[n].runnerID != 0 then GoesOn(c, n, Calling, d) && d.table == c.table
            else GivenBack(c, n, d)
  {}

  /** GitHub is asked about a runner unless it is gone for good, and only by a
      number that is known; without one the removal waits. */
  lemma GitHubIsAskedWhenNeeded(config: Config, steps: seq<Step>, c: Controller, n: Name, d: Controller)
    requires Reaches(config, steps, c) && RemovalNext(c, n, Judge) == Some(d)
    ensures n in c.table
    ensures if OutOfReach(c.table[n]) then GoesOn(c, n, Destroying, d) && d.table == c.table
            else if c.table[n].runnerID != 0 then GoesOn(c, n, Calling, d) && d.table == c.table
            else GivenBack(c, n, d)
  {
    UnderRemoval(config, steps, c, n);
    Judgement(c, n, d);
  }

  lemma UnansweredCall(c: Controller, n: Name, effective: bool, d: Controller)
    requires Has(c, n) && RemovalNext(c, n, Call(Unreachable(effective))) == Some(d)
    ensures GivenBack(c, n, d)
  {}

  lemma AnsweredCall(c: Controller, n: Name, answer: Answer, d: Controller)
    requires RemovalNext(c, n, Call(answer)) == Some(d) && !answer.Unreachable?
    ensures GoesOn(c, n, if answer == JobStillRunning then Refused else Destroying, d) && d.table == c.table
  {}

  /** Consent and an unknown runner let the removal destroy the instance, a refusal
      has the runner looked at again, no answer leaves it for the next try. */
  lemma AnswerDecides(config: Config, steps: seq<Step>, c: Controller, n: Name, answer: Answer, d: Controller)
    requires Reaches(config, steps, c) && RemovalNext(c, n, Call(answer)) == Some(d)
    ensures match answer
            case Consented => GoesOn(c, n, Destroying, d) && d.table == c.table
            case NotFound => GoesOn(c, n, Destroying, d) && d.table == c.table
            case JobStillRunning => GoesOn(c, n, Refused, d) && d.table == c.table
            case Unreachable(_) => GivenBack(c, n, d)
  {
    if answer.Unreachable? {
      UnderRemoval(config, steps, c, n);
      UnansweredCall(c, n, answer.effective, d);
    } else {
      AnsweredCall(c, n, answer, d);
    }
  }

  lemma FailedDestruction(c: Controller, n: Name, stopped: bool, d: Controller)
    requires Has(c, n) && RemovalNext(c, n, Destroy(false, stopped)) == Some(d)
    ensures GivenBack(c, n, d)
  {}

  lemma Destruction(c: Controller, n: Name, stopped: bool, d: Controller)
    requires RemovalNext(c, n, Destroy(true, stopped)) == Some(d)
    ensures GoesOn(c, n, Detaching, d) && d.table == c.table && c.removals[n].id in d.world.gone
  {}

  /** A destroyed instance stays destroyed; a failed destruction is tried again. */
  lemma DestructionDecides(config: Config, steps: seq<Step>, c: Controller, n: Name, ok: bool, stopped: bool, d: Controller)
    requires Reaches(config, steps, c) && RemovalNext(c, n, Destroy(ok, stopped)) == Some(d)
    ensures if ok then GoesOn(c, n, Detaching, d) && d.table == c.table && c.removals[n].id in d.world.gone
            else GivenBack(c, n, d)
  {
    if ok {
      Destruction(c, n, stopped, d);
    } else {
      UnderRemoval(config, steps, c, n);
      FailedDestruction(c, n, stopped, d);
    }
  }

  lemma Detachment(c: Controller, n: Name, d: Controller)
    requires Has(c, n) && RemovalNext(c, n, Detach) == Some(d)
    ensures d.table == c.table - {n} && GoesOn(c, n, Freeing(c.table[n].lease), d)
  {}

  /** Then the runner is forgotten, its lease about to be handed back. */
  lemma DestroyedIsForgotten(config: Config, steps: seq<Step>, c: Controller, n: Name, d: Controller)
    requires Reaches(config, steps, c) && RemovalNext(c, n, Detach) == Some(d)
    ensures n in c.table && d.table == c.table - {n} && GoesOn(c, n, Freeing(c.table[n].lease), d)
  {
    UnderRemoval(config, steps, c, n);
    Detachment(c, n, d);
  }

  /** With the lease handed back the removal is over, and another pass is rung for. */
  lemma FreedRings(c: Controller, n: Name, d: Controller)
    requires RemovalNext(c, n, Free) == Some(d)
    ensures c.removals[n].stage.Freeing? && d.removals == c.removals - {n} && d.table == c.table
    ensures d.chores == c.chores + multiset{Publish}
  {}

  lemma BlockedChangesNothing(t: Table, w: World, n: Name, r: Removal, m: Move)
    requires Advance(t, w, n, r, m).Some? && Advance(t, w, n, r, m).value.2.Blocked?
    ensures Advance(t, w, n, r, m).value.0 == t
  {}

  /** A removal the worker carries out itself, of a runner it has just started into
      a drain, takes the same course; only what it leaves for the next try is left
      without a new deadline. */
  lemma UndoIsARemoval(c: Controller, m: Move, d: Controller, b: Controller, e: Controller)
    requires c.worker.Undoing? && TendNext(c, Undo(m)) == Some(d)
    requires b == c.(removals := c.removals[c.worker.name := c.worker.removal])
    requires RemovalNext(b, c.worker.name, m) == Some(e)
    ensures d.world == e.world
    ensures d.worker.Undoing? ==> c.worker.name in e.removals && d.worker.removal == e.removals[c.worker.name] && d.table == e.table
    ensures c.worker.name !in e.removals ==> !Attached(d.worker) && (d.table == e.table || d.table == c.table)
  {
    assert b.removals[c.worker.name] == c.worker.removal;
    var (u, v, p) := Advance(c.table, c.world, c.worker.name, c.worker.removal, m).value;
    UndoEffect(c, m, u, v, p, d);
    RemovalEffect(b, c.worker.name, m, u, v, p, e);
    if p.Blocked? {
      BlockedChangesNothing(c.table, c.world, c.worker.name, c.worker.removal, m);
    }
  }
}
