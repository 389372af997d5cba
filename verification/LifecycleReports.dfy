/** What callbacks and observers bring about, over whole runs: a job that starts
    or ends is noted, every failure of a start is charged, and what is charged
    reaches the record unless a drain or the runner's own work excuses it. */
module LifecycleReports {
  import opened Instances
  import opened Lifecycle
  import opened LifecycleSafety
  import opened LifecycleRetry
  import opened LifecycleCredits
  import opened LifecycleLog
  import opened Options
  import R = Retry

  /** The runner is gone for good: its job is done, or its instance has stopped. */
  predicate OutOfReach(i: Instance) {
    i.phase == Removing && (i.reason == JobCompleted || i.reason == Exited)
  }

  lemma ReachableEntry(config: Config, steps: seq<Step>, c: Controller, n: Name)
    requires Reaches(config, steps, c) && n in c.table
    ensures EntrySane(n, c.table[n], c.world) && EntryFair(c, n, c.table[n])
  {
    RunIsSafe(config, steps, c);
    RunIsFair(config, steps, c);
    EntryIsSane(c, n);
  }

  /** Counting, the runners gone for good are left out and no others. */
  lemma CountsWhoMayServe(config: Config, steps: seq<Step>, c: Controller)
    requires Reaches(config, steps, c)
    ensures Count(c.table) == |set n | n in c.table && !OutOfReach(c.table[n])|
  {
    forall n | n in c.table ensures Counted(c.table[n]) <==> !OutOfReach(c.table[n]) {
      ReachableEntry(config, steps, c, n);
    }
    assert CountedNames(c.table) == set n | n in c.table && !OutOfReach(c.table[n]);
  }

  // ---------------------------------------------------------- jobs reported

  /** A job's start is noted on its runner, whatever the runner was taken for,
      unless it is known to be on a job already or is gone for good. */
  lemma JobStartIsNoted(config: Config, steps: seq<Step>, c: Controller, n: Name, job: JobRef, d: Controller)
    requires Reaches(config, steps, c) && Next(c, Tell(JobStarted(n, job))) == Some(d)
    ensures n in c.table && !OutOfReach(c.table[n]) && (c.table[n].phase == Busy ==> c.table[n].job.id == 0) ==>
              && d.table.Keys == c.table.Keys && d.table[n].worked && d.table[n].job == job && d.table[n].phase in {Busy, Removing}
              && (d.table[n].phase == Removing <==> c.table[n].phase == Removing)
              && (d.table[n].phase == Removing ==> NeedsDeregistration(d.table, n, d.table[n].id))
              && d.chores[LookUp(n)] == c.chores[LookUp(n)] + 1
    ensures n !in c.table || OutOfReach(c.table[n]) ==> d == c
    ensures forall k | k in c.table && k != n :: k in d.table && d.table[k] == c.table[k]
  {
    if n in c.table {
      ReachableEntry(config, steps, c, n);
    }
  }

  /** A job that was noted while its runner was being removed as idle is the job
      the runner is busy with once GitHub has refused the removal. */
  lemma RefusalKeepsTheJob(config: Config, steps: seq<Step>, c: Controller, n: Name, d: Controller)
    requires Reaches(config, steps, c) && Next(c, Remove(n, Restore)) == Some(d)
    ensures n in d.table && c.removals[n].stage == Refused
    ensures !OutOfReach(c.table[n]) ==>
              && d.table[n].phase == Busy && d.table[n].job == c.table[n].job && d.table[n].worked && !d.table[n].inFlight
              && n !in d.removals && d.chores[LookUp(n)] == c.chores[LookUp(n)] + 1
    ensures OutOfReach(c.table[n]) ==> d.table == c.table && n in d.removals && d.removals[n].stage == Destroying
  {
    RunIsSafe(config, steps, c);
    UnderWay(c, n);
    ReachableEntry(config, steps, c, n);
  }

  lemma JobEndEffect(c: Controller, n: Name, result: string, d: Controller)
    requires Next(c, Tell(JobFinished(n, result))) == Some(d)
    requires n in c.table && !OutOfReach(c.table[n]) && EntrySane(n, c.table[n], c.world)
    ensures d.table == c.table[n := c.table[n].(phase := Removing, reason := JobCompleted, worked := true,
                                                job := c.table[n].job.(result := result))]
    ensures d.chores == c.chores + multiset{LookUp(n), RaisePending(c.table[n].id != NO_ID)}
  {}

  /** A finished job sends its runner to removal for good, without asking GitHub,
      and scaling waits for the next count; a runner gone for good stays as it is. */
  lemma JobEndIsNoted(config: Config, steps: seq<Step>, c: Controller, n: Name, result: string, d: Controller)
    requires Reaches(config, steps, c) && Next(c, Tell(JobFinished(n, result))) == Some(d)
    ensures n in c.table && !OutOfReach(c.table[n]) ==>
              && n in d.table && OutOfReach(d.table[n]) && d.table[n].reason == JobCompleted && d.table[n].worked
              && d.table[n].job == c.table[n].job.(result := result) && !NeedsDeregistration(d.table, n, d.table[n].id)
              && LookUp(n) in d.chores && RaisePending(c.table[n].id != NO_ID) in d.chores
    ensures n !in c.table || OutOfReach(c.table[n]) ==> d == c
  {
    if n in c.table && !OutOfReach(c.table[n]) {
      ReachableEntry(config, steps, c, n);
      JobEndEffect(c, n, result, d);
    }
  }

  // ------------------------------------------------------ failures are charged

  /** An instance's exit, unless its runner is being removed for another reason
      than failed readiness: it charges the attempt, which nothing had charged
      before, if the runner had neither become unready nor worked; else nobody. */
  lemma ExitIsCharged(config: Config, steps: seq<Step>, c: Controller, n: Name, id: Id, seen: nat, d: Controller)
    requires Reaches(config, steps, c) && Next(c, Tell(Exit(n, id, seen))) == Some(d)
    requires n in c.table && c.table[n].id == id && (c.table[n].phase == Removing ==> c.table[n].reason == ReadinessFailed)
    ensures n in d.table && d.table[n].phase == Removing && d.table[n].reason == Exited && NoteStale(seen) in d.chores
    ensures var a := c.table[n].attempt;
            if !c.table[n].worked && c.table[n].phase != Removing
            then Charge(c, a.id) == 0 && Charge(d, a.id) == 1
            else forall k: nat :: Charge(d, k) == Charge(c, k)
  {
    RunIsSafe(config, steps, c);
    RunIsFair(config, steps, c);
    ReachableEntry(config, steps, c, n);
    ExitEffect(c, n, id, seen, d);
    KnownIsTagged(c, n);
  }

  /** The first readiness result of a runner that still waits for one settles it:
      ready makes it idle, not ready removes it and charges its attempt. */
  lemma ReadinessIsCharged(config: Config, steps: seq<Step>, c: Controller, n: Name, id: Id, failed: bool, d: Controller)
    requires Reaches(config, steps, c) && Next(c, Tell(Readiness(n, id, failed))) == Some(d)
    requires n in c.table && c.table[n].id == id && c.table[n].phase == Provisioning
    ensures var a := c.table[n].attempt;
            && n in d.table && d.table[n].phase == (if failed then Removing else Idle)
            && (failed ==> d.table[n].reason == ReadinessFailed && Charge(c, a.id) == 0 && Charge(d, a.id) == 1)
            && (!failed ==> CreditStart(a) in d.chores && forall k: nat :: Charge(d, k) == Charge(c, k))
  {
    RunIsSafe(config, steps, c);
    RunIsFair(config, steps, c);
    ReachableEntry(config, steps, c, n);
    ReadinessEffect(c, n, id, failed, d);
    KnownIsTagged(c, n);
  }

  /** A start that fails by itself is on record at once, unless a drain has begun. */
  lemma StartFailureIsCharged(config: Config, steps: seq<Step>, c: Controller, delay: int, d: Controller)
    requires Reaches(config, steps, c) && Next(c, Start(Fail(delay))) == Some(d)
    ensures c.worker.Failing? && Charge(c, c.worker.attempt.id) == 0
    ensures R.FailuresOf(d.ledger.history, c.worker.attempt.id) == if c.drain == NotDraining then 1 else 0
  {
    RunIsFair(config, steps, c);
    FailEffect(c, delay, d);
    if c.drain == NotDraining {
      R.OwnFailuresAreFailures(c.ledger.history, c.worker.attempt.id);
      RecordCharges(c.ledger, c.worker.attempt, c.now, delay, c.config.cooldownAfter, d.ledger);
    }
  }

  /** A runner of attempt `id` has worked and is not known to have stopped. */
  ghost predicate AtWork(t: Table, id: nat) {
    exists n :: n in t && t[n].attempt.id == id && t[n].worked && t[n].reason != Exited
  }

  /** Whether an attempt has work to show is decided by its own runner alone,
      whether it is looked for by the attempt or by its number. */
  lemma WorkIsTheRunners(config: Config, steps: seq<Step>, c: Controller, n: Name)
    requires Reaches(config, steps, c) && n in c.table
    ensures HasWork(c.table, c.table[n].attempt) <==> c.table[n].worked && c.table[n].reason != Exited
    ensures AtWork(c.table, c.table[n].attempt.id) <==> HasWork(c.table, c.table[n].attempt)
  {
    RunIsFair(config, steps, c);
  }

  /** A failure that was announced is on record, exactly once, when its callback is
      done, unless a drain has begun or a runner of the attempt has worked. */
  lemma AnnouncedFailureIsRecorded(config: Config, steps: seq<Step>, c: Controller, id: nat, delay: int, d: Controller)
    requires Reaches(config, steps, c) && Next(c, Carry(NoteFailure(id), delay)) == Some(d)
    ensures R.FailuresOf(d.ledger.history, id) == if c.drain == NotDraining && !AtWork(c.table, id) then 1 else 0
  {
    RunIsFair(config, steps, c);
    NoteEffect(c, id, delay, d);
    ChargedCannotFail(c, id);
    if c.drain == NotDraining && !AtWork(c.table, id) {
      RecordCharges(c.ledger, Attempt(id, 0), c.now, delay, c.config.cooldownAfter, d.ledger);
    }
  }

  /** At its `k`-th step the run sets the announced failure of `id` aside: a drain
      has begun, or a runner of the attempt has worked. */
  ghost predicate Excused(config: Config, steps: seq<Step>, more: seq<Step>, k: nat, id: nat)
    requires k < |more|
  {
    && more[k].Carry? && more[k].chore == NoteFailure(id)
    && var b := Run(Initial(config), steps + more[..k]);
       b.Some? && (b.value.drain != NotDraining || AtWork(b.value.table, id))
  }

  lemma ChargeOneStepLater(config: Config, steps: seq<Step>, b: Controller, s: Step, e: Controller, id: nat)
    requires Reaches(config, steps, b) && Next(b, s) == Some(e) && Charge(b, id) == 1
    ensures Charge(e, id) == 1 || (s.Carry? && s.chore == NoteFailure(id) && (b.drain != NotDraining || AtWork(b.table, id)))
  {
    RunIsSafe(config, steps, b);
    RunIsFair(config, steps, b);
    StepIsFair(b, s, e);
    assert Charge(e, id) <= 1;
    if s.Carry? && s.chore == NoteFailure(id) {
      AnnouncedFailureIsRecorded(config, steps, b, id, s.delay, e);
    } else {
      StepKeepsCharge(b, s, e, id);
    }
  }

  /** From the moment a failure is charged it stands, announced or on record, in
      every run that follows, unless a drain or work sets it aside. */
  lemma {:induction false} ChargeStands(config: Config, steps: seq<Step>, c: Controller, more: seq<Step>, e: Controller, id: nat)
    requires Follows(config, steps, c, more, e) && Charge(c, id) == 1
    ensures Charge(e, id) == 1 || exists k | 0 <= k < |more| :: Excused(config, steps, more, k, id)
    decreases |more|
  {
    if more == [] {
      assert steps + more == steps;
    } else {
      var m := |more| - 1;
      AllButLast(steps, more);
      var b, s := LastFollower(config, steps, more, steps + more, e);
      ChargeStands(config, steps, c, more[..m], b, id);
      if Charge(b, id) == 1 {
        ChargeOneStepLater(config, steps + more[..m], b, s, e, id);
        assert s == more[m];
        if Charge(e, id) != 1 {
          assert Excused(config, steps, more, m, id);
        }
      } else {
        var k :| 0 <= k < m && Excused(config, steps, more[..m], k, id);
        assert more[..m][..k] == more[..k];
        assert Excused(config, steps, more, k, id);
      }
    }
  }
}
