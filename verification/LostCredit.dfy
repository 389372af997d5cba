/** A run in which the work of an attempt earns nothing, although no other
    attempt has failed: the runner is removed between the moment its job is
    noted and the moment the callback looks its attempt up. */
module LostCredit {
  import opened Instances
  import opened Lifecycle
  import opened LifecycleSafety
  import opened Options
  import R = Retry

  /** The first attempt of a process. */
  const A := Attempt(1, 0)

  /** A runner as it will be: its name, its instance, its number at GitHub, its job. */
  datatype Runner = Runner(name: Name, id: Id, number: int, job: JobRef)

  predicate Proper(r: Runner) {
    r.id != NO_ID && r.number != 0
  }

  /** Some run leads from `c` to `d`. */
  ghost predicate Leads(c: Controller, d: Controller) {
    exists steps :: Run(c, steps) == Some(d)
  }

  lemma NoSteps(c: Controller)
    ensures Leads(c, c)
  {
    assert Run(c, []) == Some(c);
  }

  lemma Further(a: Controller, c: Controller, s: Step, d: Controller)
    requires Leads(a, c) && Next(c, s) == Some(d)
    ensures Leads(a, d)
  {
    var steps :| Run(a, steps) == Some(c);
    assert (steps + [s])[..|steps|] == steps;
    assert Run(a, steps + [s]) == Some(d);
  }

  /** Three steps and where each leads. */
  datatype Leg = Leg(first: Step, d: Controller, second: Step, e: Controller, third: Step, end: Controller)

  predicate Follows(c: Controller, l: Leg) {
    Next(c, l.first) == Some(l.d) && Next(l.d, l.second) == Some(l.e) && Next(l.e, l.third) == Some(l.end)
  }

  lemma Onwards(a: Controller, c: Controller, l: Leg) returns (d: Controller)
    requires Leads(a, c) && Follows(c, l)
    ensures d == l.end && Leads(a, d)
  {
    Further(a, c, l.first, l.d);
    Further(a, l.d, l.second, l.e);
    Further(a, l.e, l.third, l.end);
    d := l.end;
  }

  lemma Overwritten<T>(n: Name, x: T, y: T)
    ensures map[n := x][n := y] == map[n := y]
  {}

  // --------------------------------------------------------------- the run

  /** Nothing runs and one runner is wanted. */
  predicate Wanted(c: Controller) {
    && c.table == map[] && c.drain == NotDraining && c.demand == Demand(1, 1, 0, false)
    && c.ledger == R.EMPTY && c.now == 0 && c.config.minRunners >= 0 && c.config.maxRunners >= 1
  }

  lemma NothingToRetry()
    ensures CountedNames(map[]) == {} && R.RetryAllowed(R.EMPTY, 0) == (R.EMPTY, true)
  {}

  lemma RunnerWanted(config: Config, c: Controller) returns (l: Leg)
    requires c == Initial(config)
    ensures Follows(c, l)
    ensures l.end == c.(demand := Demand(1, 1, 0, false), bell := Bell(false, false, false, 1), worker := Deciding)
  {
    var c1 := c.(demand := Demand(1, 1, 0, false), chores := multiset{Publish});
    var c2 := c1.(chores := multiset{}, bell := Bell(true, false, false, 1));
    var d := c2.(bell := Bell(false, false, false, 1), worker := Deciding);
    assert c.chores + multiset{Publish} == multiset{Publish};
    l := Leg(Tell(DesiredCount(1)), c1, Carry(Publish, 0), c2, Pass(Wake), d);
  }

  lemma PassBegun(c: Controller) returns (l: Leg)
    requires Wanted(c) && c.worker == Deciding
    ensures Follows(c, l) && l.end == c.(worker := Counting(c.Target()))
  {
    var d := c.(worker := Counting(c.Target()));
    l := Leg(Pass(Decide), c.(worker := Claiming), Pass(ClaimNone), c.(worker := Targeting), Pass(ReadTarget), d);
  }

  lemma CapacityWanted(c: Controller) returns (l: Leg)
    requires Wanted(c) && c.worker == Counting(c.Target()) && !c.bell.wake
    ensures Follows(c, l) && l.end == c.(worker := Requesting, bell := Bell(false, true, false, 0))
  {
    NothingToRetry();
    var d := c.(worker := Requesting, bell := Bell(false, true, false, 0));
    l := Leg(Pass(Compare), c.(worker := Gating), Pass(Gate), c.(worker := Hooking), Wait(Hook), d);
  }

  lemma CapacityTaken(c: Controller) returns (l: Leg)
    requires c.worker == Requesting && c.bell == Bell(false, true, false, 0)
    ensures Follows(c, l) && l.end == c.(worker := Rechecking(0), bell := Bell(false, false, false, 0))
  {
    var d := c.(worker := Rechecking(0), bell := Bell(false, false, false, 0));
    l := Leg(Wait(Request(0)), c.(worker := Waiting(0)), Wait(Take), c.(worker := Unhooking(0)), Wait(Unhook), d);
  }

  lemma StartDecided(c: Controller) returns (l: Leg)
    requires Wanted(c) && c.worker == Rechecking(0)
    ensures Follows(c, l) && l.end == c.(worker := Naming(0))
  {
    NothingToRetry();
    var d := c.(worker := Naming(0));
    var e := c.(worker := Recounting(0, c.Target()));
    l := Leg(Wait(Recheck), e, Wait(Recount), c.(worker := Regating(0)), Wait(Regate), d);
  }

  function Tagged(): Instance {
    Fresh(0).(attempt := A)
  }

  function Booted(r: Runner): Instance {
    Tagged().(id := r.id, runnerID := r.number)
  }

  function Unready(r: Runner): Instance {
    Booted(r).(phase := Removing, reason := ReadinessFailed)
  }

  function Worked(r: Runner): Instance {
    Unready(r).(job := r.job, worked := true)
  }

  /** What is known of the runner outside, its instance started. */
  function Heard(r: Runner, g: GitHub): World {
    World(map[r.name := g], map[r.id := r.name], {})
  }

  const BEGUN := R.Ledger(1, 0, 0, 0, 0, 0, R.RetryState.Clear, [R.Began(1)])

  function Charged(config: Config): R.Ledger {
    R.RecordFailure(BEGUN, A, 0, 0, config.cooldownAfter)
  }

  lemma FirstAttempt()
    ensures R.Begin(R.EMPTY) == (BEGUN, A)
  {
    assert [] + [R.Began(1)] == [R.Began(1)];
  }

  lemma RunnerReserved(c: Controller, r: Runner) returns (l: Leg)
    requires c.worker == Naming(0) && c.table == map[] && c.world == World(map[], map[], {}) && c.ledger == R.EMPTY
    ensures Follows(c, l)
    ensures l.end == c.(table := map[r.name := Tagged()], world := World(map[r.name := Unregistered], map[], {}),
                            ledger := BEGUN, worker := Jitting(r.name, 0, A))
  {
    Overwritten(r.name, Fresh(0), Tagged());
    FirstAttempt();
    var n := r.name;
    var v := World(map[n := Unregistered], map[], {});
    var b := c.(table := map[n := Fresh(0)], world := v, worker := Beginning(n, 0));
    var t := b.(ledger := BEGUN, worker := Tagging(n, 0, A));
    var d := t.(table := map[n := Tagged()], worker := Jitting(n, 0, A));
    l := Leg(Start(Pick(n)), b, Start(BeginAttempt), t, Start(Tag), d);
  }

  lemma InstanceStarted(c: Controller, r: Runner) returns (l: Leg)
    requires Proper(r) && c.worker == Jitting(r.name, 0, A) && c.world == World(map[r.name := Unregistered], map[], {})
    ensures Follows(c, l)
    ensures l.end == c.(world := Heard(r, Unassigned), worker := Recording(r.name, 0, A, r.number, r.id))
  {
    Overwritten(r.name, Unregistered, Unassigned);
    var n := r.name;
    var j := c.(world := World(map[n := Unassigned], map[], {}), worker := Launching(n, 0, A, r.number));
    var b := c.(world := Heard(r, Unassigned), worker := Launched(n, 0, A, r.number, r.id));
    var d := b.(worker := Recording(n, 0, A, r.number, r.id));
    l := Leg(Start(Jit(true, r.number)), j, Start(Boot(r.id)), b, Start(Return(true)), d);
  }

  /** The instance is recorded, and its readiness fails. */
  lemma RunnerFailed(c: Controller, r: Runner) returns (l: Leg)
    requires Proper(r) && c.drain == NotDraining && c.worker == Recording(r.name, 0, A, r.number, r.id)
    requires c.table == map[r.name := Tagged()] && c.chores == multiset{}
    ensures Follows(c, l)
    ensures l.end == c.(table := map[r.name := Unready(r)], worker := Deciding, chores := multiset{NoteFailure(1)})
  {
    Overwritten(r.name, Tagged(), Booted(r));
    Overwritten(r.name, Booted(r), Unready(r));
    var n := r.name;
    var t := c.(table := map[n := Booted(r)], worker := Branching(n, r.id, false));
    var d := c.(table := map[n := Unready(r)], worker := Deciding, chores := multiset{NoteFailure(1)});
    assert c.chores + multiset{NoteFailure(1)} == d.chores;
    l := Leg(Tend(Record(true)), t, Tend(Branch), t.(worker := Deciding), Tell(Readiness(n, r.id, true)), d);
  }

  /** The failure is put on record; meanwhile GitHub has given the runner a job,
      and it is finished. */
  lemma JobFinished(c: Controller, r: Runner) returns (l: Leg)
    requires c.drain == NotDraining && c.chores == multiset{NoteFailure(1)} && c.ledger == BEGUN && c.now == 0
    requires c.table == map[r.name := Unready(r)] && c.world == Heard(r, Unassigned)
    ensures Follows(c, l)
    ensures l.end == c.(world := Heard(r, Completed), ledger := Charged(c.config), chores := multiset{Publish})
  {
    Overwritten(r.name, Unassigned, Assigned);
    Overwritten(r.name, Assigned, Completed);
    var e := c.(ledger := Charged(c.config), chores := multiset{Publish});
    assert c.chores - multiset{NoteFailure(1)} + multiset{Publish} == e.chores;
    var f := e.(world := Heard(r, Assigned));
    var d := e.(world := Heard(r, Completed));
    l := Leg(Carry(NoteFailure(1), 0), e, Occur(Assign(r.name)), f, Occur(Complete(r.name)), d);
  }

  function Leaving(r: Runner, stage: Stage): map<Name, Removal> {
    map[r.name := Removal(r.id, stage)]
  }

  lemma RemovalBegun(c: Controller, r: Runner) returns (l: Leg)
    requires Proper(r) && c.drain == NotDraining && c.worker == Deciding && c.removals == map[] && c.now == 0
    requires c.table == map[r.name := Worked(r)]
    ensures Follows(c, l)
    ensures l.end == c.(table := map[r.name := Worked(r).(inFlight := true)], removals := Leaving(r, Calling))
  {
    Overwritten(r.name, Worked(r), Worked(r).(inFlight := true));
    Overwritten(r.name, Removal(r.id, Judging), Removal(r.id, Calling));
    var n, b := r.name, c.(table := map[r.name := Worked(r).(inFlight := true)], removals := Leaving(r, Judging));
    var d := b.(removals := Leaving(r, Calling));
    l := Leg(Pass(Decide), c.(worker := Claiming), Pass(ClaimOne(n)), b, Remove(n, Judge), d);
  }

  /** By then its job is finished, and GitHub knows it no more. */
  lemma RunnerForgotten(c: Controller, r: Runner) returns (l: Leg)
    requires Proper(r) && c.world == Heard(r, Completed) && c.removals == Leaving(r, Calling)
    requires c.table == map[r.name := Worked(r).(inFlight := true)]
    ensures Follows(c, l)
    ensures l.end == c.(table := map[], removals := Leaving(r, Freeing(0)), world := c.world.(gone := {r.id}))
  {
    Overwritten(r.name, Removal(r.id, Calling), Removal(r.id, Destroying));
    Overwritten(r.name, Removal(r.id, Destroying), Removal(r.id, Detaching));
    Overwritten(r.name, Removal(r.id, Detaching), Removal(r.id, Freeing(0)));
    assert {} + {r.id} == {r.id};
    var n, b := r.name, c.(removals := Leaving(r, Destroying));
    var e := c.(removals := Leaving(r, Detaching), world := c.world.(gone := {r.id}));
    var d := e.(table := map[], removals := Leaving(r, Freeing(0)));
    assert e.table - {n} == map[];
    l := Leg(Remove(n, Call(NotFound)), b, Remove(n, Destroy(true, true)), e, Remove(n, Detach), d);
  }

  lemma RemovalMade(c: Controller, r: Runner) returns (d: Controller)
    requires Proper(r) && c.drain == NotDraining && c.worker == Deciding && c.removals == map[] && c.now == 0
    requires c.table == map[r.name := Worked(r)] && c.world == Heard(r, Completed)
    ensures Leads(c, d) && d.table == map[] && d.chores == c.chores && d.ledger == c.ledger
  {
    NoSteps(c);
    var l := RemovalBegun(c, r);
    d := Onwards(c, c, l);
    l := RunnerForgotten(d, r);
    d := Onwards(c, d, l);
  }

  // ------------------------------------------------------------ the credit

  lemma WorkNoted(b: Controller, r: Runner) returns (c: Controller)
    requires b.table == map[r.name := Unready(r)] && b.chores == multiset{Publish}
    ensures c == b.(table := map[r.name := Worked(r)], chores := multiset{Publish, LookUp(r.name)})
    ensures Next(b, Tell(JobStarted(r.name, r.job))) == Some(c)
  {
    Overwritten(r.name, Unready(r), Worked(r));
    c := b.(table := map[r.name := Worked(r)], chores := multiset{Publish, LookUp(r.name)});
    assert b.chores + multiset{LookUp(r.name)} == c.chores;
  }

  lemma LookedUp(d: Controller, n: Name) returns (e: Controller)
    requires n !in d.table && d.chores == multiset{Publish, LookUp(n)}
    ensures e == d.(chores := multiset{Publish, CreditWork(NO_ATTEMPT)}) && Next(d, Carry(LookUp(n), 0)) == Some(e)
  {
    e := d.(chores := multiset{Publish, CreditWork(NO_ATTEMPT)});
    assert d.chores - multiset{LookUp(n)} + multiset{CreditWork(NO_ATTEMPT)} == e.chores;
  }

  lemma NothingCredited(e: Controller) returns (f: Controller)
    requires e.chores == multiset{Publish, CreditWork(NO_ATTEMPT)}
    requires R.RecordWorkSuccess(e.ledger, NO_ATTEMPT) == e.ledger
    ensures Next(e, Carry(CreditWork(NO_ATTEMPT), 0)) == Some(f) && f.ledger == e.ledger
  {
    f := e.(chores := multiset{Publish});
    assert e.chores - multiset{CreditWork(NO_ATTEMPT)} == f.chores;
  }

  /** The only failure on record is the attempt's own, so its work would clear it. */
  lemma CreditWasDue(config: Config, l: R.Ledger)
    requires l == Charged(config)
    ensures R.IssuedAt(l.history, A, 0) && R.UndisturbedSince(l.history, 0, A)
    ensures R.Forgives(l, R.RecordWorkSuccess(l, A), 1) && l.consecutive == 1 && R.RecordWorkSuccess(l, NO_ATTEMPT) == l
  {
    assert l.history == [R.Began(1), R.Failed(1)] && l.history[..0] == [];
  }

  lemma StartIsReached(config: Config) returns (c: Controller)
    requires config.minRunners >= 0 && config.maxRunners >= 1
    ensures Leads(Initial(config), c)
    ensures c == Initial(config).(demand := Demand(1, 1, 0, false), worker := Naming(0))
  {
    c := Initial(config);
    NoSteps(c);
    var l := RunnerWanted(config, c);
    c := Onwards(Initial(config), c, l);
    l := PassBegun(c);
    c := Onwards(Initial(config), c, l);
    l := CapacityWanted(c);
    c := Onwards(Initial(config), c, l);
    l := CapacityTaken(c);
    c := Onwards(Initial(config), c, l);
    l := StartDecided(c);
    c := Onwards(Initial(config), c, l);
  }

  lemma WorkIsReached(config: Config, r: Runner) returns (c: Controller)
    requires config.minRunners >= 0 && config.maxRunners >= 1 && Proper(r)
    ensures Leads(Initial(config), c) && c.table == map[r.name := Unready(r)] && c.world == Heard(r, Completed)
    ensures c.chores == multiset{Publish} && c.ledger == Charged(config)
    ensures c.drain == NotDraining && c.worker == Deciding && c.removals == map[] && c.now == 0
  {
    c := StartIsReached(config);
    var l := RunnerReserved(c, r);
    c := Onwards(Initial(config), c, l);
    l := InstanceStarted(c, r);
    c := Onwards(Initial(config), c, l);
    l := RunnerFailed(c, r);
    c := Onwards(Initial(config), c, l);
    l := JobFinished(c, r);
    c := Onwards(Initial(config), c, l);
  }

  /** For every configuration that allows a runner, and every runner: a run in
      which its work earns its attempt nothing, although no other attempt has
      failed and the credit would have cleared the count. */
  lemma WorkCanEarnNothing(config: Config, r: Runner)
    returns (b: Controller, c: Controller, d: Controller, e: Controller, f: Controller)
    requires config.minRunners >= 0 && config.maxRunners >= 1 && Proper(r)
    ensures Leads(Initial(config), b) && r.name in b.table && b.table[r.name].attempt == A
    ensures Next(b, Tell(JobStarted(r.name, r.job))) == Some(c) && Leads(c, d) && r.name !in d.table
    ensures Next(d, Carry(LookUp(r.name), 0)) == Some(e) && Next(e, Carry(CreditWork(NO_ATTEMPT), 0)) == Some(f)
    ensures f.ledger == d.ledger == c.ledger && f.ledger.consecutive == 1
    ensures R.Forgives(f.ledger, R.RecordWorkSuccess(f.ledger, A), 1)
    ensures R.IssuedAt(f.ledger.history, A, 0) && R.UndisturbedSince(f.ledger.history, 0, A)
  {
    b := WorkIsReached(config, r);
    c := WorkNoted(b, r);
    d := RemovalMade(c, r);
    CreditWasDue(config, d.ledger);
    e := LookedUp(d, r.name);
    f := NothingCredited(e);
  }
}
