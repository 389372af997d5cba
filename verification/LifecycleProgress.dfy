/** Nobody is ever stuck: in every reachable state each actor has a step to take,
    unless it has finished or rightly waits. */
module LifecycleProgress {
  import opened Instances
  import opened Lifecycle
  import opened LifecycleSafety
  import opened LifecycleReports
  import opened Options
  import N = Counting

  // ------------------------------------------------ instances are registered

  predicate IsRegistered(v: World, n: Name) {
    n in v.github && v.github[n] != Unregistered
  }

  /** GitHub knows every runner an instance was started for. */
  predicate Registered(c: Controller) {
    && (forall id | id in c.world.owner :: IsRegistered(c.world, c.world.owner[id]))
    && (c.worker.Launching? ==> IsRegistered(c.world, c.worker.name))
  }

  /** The names known to GitHub stay known, and nobody new owns an instance. */
  ghost predicate Enrols(v: World, u: World) {
    u.owner == v.owner && forall n | IsRegistered(v, n) :: IsRegistered(u, n)
  }

  lemma AdvanceEnrols(t: Table, w: World, n: Name, r: Removal, m: Move)
    requires Advance(t, w, n, r, m).Some?
    ensures Enrols(w, Advance(t, w, n, r, m).value.1)
  {}

  lemma StartIsRegistered(c: Controller, s: StartStep, d: Controller)
    requires Registered(c) && StartNext(c, s).Some? && d == StartNext(c, s).value
    ensures Registered(d)
  {}

  lemma TendIsRegistered(c: Controller, s: TendStep, d: Controller)
    requires TendNext(c, s).Some? && d == TendNext(c, s).value
    ensures Enrols(c.world, d.world) && !d.worker.Launching?
  {
    if s.Undo? {
      AdvanceEnrols(c.table, c.world, c.worker.name, c.worker.removal, s.move);
    }
  }

  lemma RemovalIsRegistered(c: Controller, n: Name, m: Move, d: Controller)
    requires RemovalNext(c, n, m).Some? && d == RemovalNext(c, n, m).value
    ensures Enrols(c.world, d.world) && d.worker == c.worker
  {
    AdvanceEnrols(c.table, c.world, n, c.removals[n], m);
  }

  lemma PassIsRegistered(c: Controller, s: PassStep, d: Controller)
    requires PassNext(c, s).Some? && d == PassNext(c, s).value
    ensures d.world == c.world && !d.worker.Launching?
  {}

  lemma WaitIsRegistered(c: Controller, s: WaitStep, d: Controller)
    requires WaitNext(c, s).Some? && d == WaitNext(c, s).value
    ensures d.world == c.world && !d.worker.Launching?
  {}

  lemma ReportIsRegistered(c: Controller, r: Report, d: Controller)
    requires ReportNext(c, r).Some? && d == ReportNext(c, r).value
    ensures d.world == c.world && d.worker == c.worker
  {}

  lemma EventIsRegistered(c: Controller, e: Event, d: Controller)
    requires EventNext(c, e).Some? && d == EventNext(c, e).value
    ensures Enrols(c.world, d.world) && d.worker == c.worker
  {}

  lemma StepIsRegistered(c: Controller, s: Step, d: Controller)
    requires Registered(c) && Next(c, s).Some? && d == Next(c, s).value
    ensures Registered(d)
  {
    match s
    case Pass(p) => PassIsRegistered(c, p, d);
    case Wait(w) => WaitIsRegistered(c, w, d);
    case Start(p) => StartIsRegistered(c, p, d);
    case Tend(p) => TendIsRegistered(c, p, d);
    case Remove(n, m) => RemovalIsRegistered(c, n, m, d);
    case Tell(r) => ReportIsRegistered(c, r, d);
    case Carry(w, delay) => ChoreEffect(c, w, delay, d);
    case Occur(e) => EventIsRegistered(c, e, d);
    case Wind(e) =>
  }

  lemma {:induction false} RunIsRegistered(config: Config, steps: seq<Step>, c: Controller)
    requires Reaches(config, steps, c)
    ensures Registered(c)
    decreases |steps|
  {
    if steps != [] {
      var b, s := LastStep(config, steps, c);
      RunIsRegistered(config, steps[..|steps| - 1], b);
      StepIsRegistered(b, s, c);
    }
  }

  // ---------------------------------------------------------------- removals

  /** GitHub has an answer for every runner it may be asked about: it refuses
      exactly while a job runs. */
  lemma GitHubCanAnswer(v: World, n: Name) returns (answer: Answer)
    requires IsRegistered(v, n)
    ensures !answer.Unreachable? && Asked(v, n, answer).Some? && (answer == JobStillRunning <==> v.github[n] == Assigned)
  {
    match v.github[n]
    case Assigned => answer := JobStillRunning;
    case Deregistered => answer := NotFound;
    case _ => answer := Consented;
  }

  lemma SomeMove(t: Table, v: World, n: Name, r: Removal) returns (m: Move)
    requires r.stage == Calling ==> IsRegistered(v, n)
    ensures Advance(t, v, n, r, m).Some? && (m.Call? ==> !m.answer.Unreachable?)
  {
    match r.stage
    case Judging => m := Judge;
    case Calling =>
      var answer := GitHubCanAnswer(v, n);
      m := Call(answer);
    case Refused => m := Restore;
    case Destroying => m := Destroy(true, true);
    case Detaching => m := Detach;
    case Freeing(_) => m := Free;
  }

  /** A removal can always take its next step, and be answered when it asks. */
  lemma RemovalIsNeverStuck(config: Config, steps: seq<Step>, c: Controller, n: Name) returns (m: Move)
    requires Reaches(config, steps, c) && n in c.removals
    ensures Next(c, Remove(n, m)).Some? && (m.Call? ==> !m.answer.Unreachable?)
  {
    RunIsRegistered(config, steps, c);
    RunIsSafe(config, steps, c);
    assert Sane(n, CellOf(c, n), c.world);
    m := SomeMove(c.table, c.world, n, c.removals[n]);
  }

  // -------------------------------------------------------- the worker, chores

  lemma SomeNewName(v: World) returns (n: Name)
    ensures n !in v.github
  {
    n := N.Above(v.github.Keys);
  }

  lemma SomeNewInstance(v: World) returns (id: Id)
    ensures id != NO_ID && id !in v.owner
  {
    id := N.Above(v.owner.Keys + {NO_ID});
  }

  lemma PassGoesOn(c: Controller) returns (s: PassStep)
    requires c.worker in {Deciding, Claiming, Targeting, Clearing, Gating} || c.worker.Counting? || c.worker.Shrinking?
             || c.worker.Settling?
    ensures PassNext(c, s).Some?
  {
    match c.worker
    case Deciding => s := Decide;
    case Claiming =>
      if n :| n in c.table && Due(c.table[n], c.now) {
        s := ClaimOne(n);
      } else {
        s := ClaimNone;
      }
    case Targeting => s := ReadTarget;
    case Counting(_) => s := Compare;
    case Shrinking(target) =>
      if |NotRemoving(c.table)| > target && InPhase(c.table, Idle) != {} {
        var n :| n in InPhase(c.table, Idle);
        s := ShrinkOne(n);
      } else {
        s := ShrinkNone;
      }
    case Settling(_) => s := Settle;
    case Clearing => s := Clear;
    case _ => s := Gate;
  }

  predicate InWait(w: Worker) {
    || w.Hooking? || w.Requesting? || w.Waiting? || w.Returning? || w.UnhookingEmpty? || w.Unhooking? || w.Rechecking?
    || w.Recounting? || w.Regating? || w.Dropping?
  }

  lemma WaitGoesOn(c: Controller) returns (s: WaitStep)
    requires InWait(c.worker)
    ensures WaitNext(c, s).Some?
  {
    match c.worker
    case Hooking => s := Hook;
    case Requesting => s := Request(0);
    case Waiting(_) => s := Take;
    case Returning(_) => s := GiveBack;
    case Rechecking(_) => s := Recheck;
    case Recounting(_, _) => s := Recount;
    case Regating(_) => s := Regate;
    case Dropping(_) => s := Drop;
    case _ => s := Unhook;
  }

  predicate InStart(w: Worker) {
    || w.Naming? || w.Beginning? || w.Tagging? || w.Jitting? || w.Launching? || w.Launched? || w.Failing? || w.Unprovisioning?
  }

  lemma StartGoesOn(c: Controller) returns (s: StartStep)
    requires InStart(c.worker)
    ensures StartNext(c, s).Some?
  {
    match c.worker
    case Naming(_) =>
      var n := SomeNewName(c.world);
      s := Pick(n);
    case Beginning(_, _) => s := BeginAttempt;
    case Tagging(_, _, _) => s := Tag;
    case Jitting(_, _, _) => s := Jit(true, 1);
    case Launching(_, _, _, _) =>
      var id := SomeNewInstance(c.world);
      s := Boot(id);
    case Launched(_, _, _, _, _) => s := Return(true);
    case Failing(_, _, _) => s := Fail(0);
    case _ => s := Unprovision;
  }

  predicate InTend(w: Worker) {
    w.Recording? || w.Orphaning? || w.Crediting? || w.Branching? || w.Yielding?
  }

  lemma TendGoesOn(c: Controller) returns (s: TendStep)
    requires InTend(c.worker)
    ensures TendNext(c, s).Some?
  {
    match c.worker
    case Recording(_, _, _, _, _) => s := Record(true);
    case Orphaning(_, _) => s := RemoveOrphan;
    case Crediting(_, _, _, _) => s := CreditReady;
    case Branching(_, _, _) => s := Branch;
    case _ => s := Yield;
  }

  lemma UndoGoesOn(config: Config, steps: seq<Step>, c: Controller) returns (m: Move)
    requires Reaches(config, steps, c) && c.worker.Undoing?
    ensures TendNext(c, Undo(m)).Some?
  {
    var n := c.worker.name;
    RunIsRegistered(config, steps, c);
    RunIsSafe(config, steps, c);
    assert Sane(n, CellOf(c, n), c.world);
    m := SomeMove(c.table, c.world, n, c.worker.removal);
  }

  /** The worker sleeps with nothing to wake it: no signal, no cancellation. */
  predicate Sleeps(c: Controller) {
    c.worker == Asleep && !c.bell.wake && !c.WorkCancelled()
  }

  /** In every reachable state the worker has a step to take, unless it sleeps
      with nothing to wake it or has stopped. */
  lemma WorkerIsNeverStuck(config: Config, steps: seq<Step>, c: Controller) returns (s: Step)
    requires Reaches(config, steps, c) && !Sleeps(c) && c.worker != Stopped
    ensures (s.Pass? || s.Wait? || s.Start? || s.Tend?) && Next(c, s).Some?
  {
    if c.worker == Asleep {
      s := Pass(if c.bell.wake then Wake else Halt);
    } else if c.worker.Undoing? {
      var m := UndoGoesOn(config, steps, c);
      s := Tend(Undo(m));
    } else if InWait(c.worker) {
      var w := WaitGoesOn(c);
      s := Wait(w);
    } else if InStart(c.worker) {
      var p := StartGoesOn(c);
      s := Start(p);
    } else if InTend(c.worker) {
      var t := TendGoesOn(c);
      s := Tend(t);
    } else {
      var p := PassGoesOn(c);
      s := Pass(p);
    }
  }

  /** What a callback has left to do it can always do. */
  lemma ChoreIsNeverStuck(c: Controller, w: Chore, delay: int)
    requires w in c.chores
    ensures Next(c, Carry(w, delay)).Some?
  {}

  // ------------------------------------------------------------------ drains

  /** A drain that has drawn its boundary reports success, or there is a reason
      not to: a runner still busy, a removal under way, one it may claim, or one
      that waits for its next try. */
  lemma DrainIsNeverStuck(config: Config, steps: seq<Step>, c: Controller)
    requires Reaches(config, steps, c) && c.drain == Sweeping
    ensures || DrainNext(c, DrainDone).Some?
            || InPhase(c.table, Busy) != {}
            || c.removals != map[]
            || (exists n :: DrainNext(c, DrainClaim(n)).Some?)
            || (exists n :: n in c.table && c.table[n].phase == Removing && c.table[n].retryAt > c.now)
  {
    RunIsSafe(config, steps, c);
    if c.removals == map[] && InPhase(c.table, Busy) == {} && InPhase(c.table, Removing) != {} {
      var n :| n in InPhase(c.table, Removing);
      assert Sane(n, CellOf(c, n), c.world);
      if c.table[n].retryAt <= c.now {
        assert DrainNext(c, DrainClaim(n)).Some?;
      }
    }
  }
}
