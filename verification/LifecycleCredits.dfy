/** Which attempt a callback credits. It looks the attempt up after it has left
    the table's lock, so a runner forgotten meanwhile earns its attempt nothing. */
module LifecycleCredits {
  import opened Instances
  import opened Lifecycle
  import opened LifecycleSafety
  import opened LifecycleRetry
  import opened Options
  import R = Retry

  // --------------------------------------- an entry's attempt is its own

  /** `n` keeps the attempt it was tagged with for as long as it is in the table. */
  predicate SameAttempt(t: Table, u: Table, n: Name) {
    n in t && t[n].attempt != NO_ATTEMPT && n in u ==> u[n].attempt == t[n].attempt
  }

  lemma FairTablesKeepAttempts(t: Table, u: Table, n: Name)
    requires FairTables(t, u)
    ensures SameAttempt(t, u, n) && (n !in t ==> n !in u)
  {}

  lemma StartKeepsAttempts(c: Controller, s: StartStep, d: Controller, n: Name)
    requires Safe(c) && Fair(c) && StartNext(c, s).Some? && d == StartNext(c, s).value
    ensures SameAttempt(c.table, d.table, n)
    ensures n in c.world.github && n !in c.table ==> n !in d.table
  {
    if s.Tag? {
      assert Sane(c.worker.name, CellOf(c, c.worker.name), c.world);
    }
  }

  lemma ReportKeepsAttempts(c: Controller, r: Report, d: Controller, n: Name)
    requires ReportNext(c, r).Some? && d == ReportNext(c, r).value
    ensures SameAttempt(c.table, d.table, n) && (n !in c.table ==> n !in d.table)
  {}

  lemma RemovalKeepsAttempts(c: Controller, k: Name, m: Move, d: Controller, n: Name)
    requires RemovalNext(c, k, m).Some? && d == RemovalNext(c, k, m).value
    ensures SameAttempt(c.table, d.table, n) && (n !in c.table ==> n !in d.table)
  {
    var (u, v, p) := Advance(c.table, c.world, k, c.removals[k], m).value;
    RemovalEffect(c, k, m, u, v, p, d);
    AdvanceIsFair(c.table, c.world, k, c.removals[k], m, u);
    RetryIsFair(c.table, u, k, c.removals[k].id, c.now);
    FairTablesKeepAttempts(c.table, d.table, n);
  }

  lemma TendKeepsAttempts(c: Controller, s: TendStep, d: Controller, n: Name)
    requires Safe(c) && TendNext(c, s).Some? && d == TendNext(c, s).value
    ensures SameAttempt(c.table, d.table, n) && (n !in c.table ==> n !in d.table)
  {
    match s
    case Record(observed) => RecordEffect(c, observed, d);
    case Undo(m) =>
      AdvanceIsFair(c.table, c.world, c.worker.name, c.worker.removal, m, d.table);
      FairTablesKeepAttempts(c.table, d.table, n);
    case _ =>
      TendBooks(c, s, d);
      FairTablesKeepAttempts(c.table, d.table, n);
  }

  /** No step gives a tagged entry another attempt, or a forgotten runner an entry. */
  lemma StepKeepsAttempts(c: Controller, s: Step, d: Controller, n: Name)
    requires Safe(c) && Fair(c) && Next(c, s).Some? && d == Next(c, s).value
    ensures SameAttempt(c.table, d.table, n)
    ensures n in c.world.github && n !in c.table ==> n !in d.table
  {
    match s
    case Pass(p) => PassTables(c, p, d); FairTablesKeepAttempts(c.table, d.table, n);
    case Wait(w) => WaitEffect(c, w, d);
    case Start(p) => StartKeepsAttempts(c, p, d, n);
    case Tend(p) => TendKeepsAttempts(c, p, d, n);
    case Remove(k, m) => RemovalKeepsAttempts(c, k, m, d, n);
    case Tell(r) => ReportKeepsAttempts(c, r, d, n);
    case Carry(w, delay) => ChoreEffect(c, w, delay, d);
    case Occur(e) => EventEffect(c, e, d);
    case Wind(e) => DrainBooks(c, e, d); FairTablesKeepAttempts(c.table, d.table, n);
  }

  lemma PassNames(c: Controller, s: PassStep, d: Controller)
    requires PassNext(c, s).Some? && d == PassNext(c, s).value
    ensures d.world == c.world
  {}

  lemma StartNames(c: Controller, s: StartStep, d: Controller, n: Name)
    requires StartNext(c, s).Some? && d == StartNext(c, s).value && n in c.world.github
    ensures n in d.world.github
  {}

  lemma ReportNames(c: Controller, r: Report, d: Controller)
    requires ReportNext(c, r).Some? && d == ReportNext(c, r).value
    ensures d.world == c.world
  {}

  lemma AdvanceNames(t: Table, w: World, k: Name, r: Removal, m: Move, v: World, n: Name)
    requires Advance(t, w, k, r, m).Some? && v == Advance(t, w, k, r, m).value.1 && n in w.github
    ensures n in v.github
  {}

  lemma TendNames(c: Controller, s: TendStep, d: Controller, n: Name)
    requires TendNext(c, s).Some? && d == TendNext(c, s).value && n in c.world.github
    ensures n in d.world.github
  {
    if s.Undo? {
      AdvanceNames(c.table, c.world, c.worker.name, c.worker.removal, s.move, d.world, n);
    }
  }

  lemma RemovalNames(c: Controller, k: Name, m: Move, d: Controller, n: Name)
    requires RemovalNext(c, k, m).Some? && d == RemovalNext(c, k, m).value && n in c.world.github
    ensures n in d.world.github
  {
    var (u, v, p) := Advance(c.table, c.world, k, c.removals[k], m).value;
    RemovalEffect(c, k, m, u, v, p, d);
    AdvanceNames(c.table, c.world, k, c.removals[k], m, v, n);
  }

  /** Names GitHub has heard of stay known. */
  lemma StepKeepsNames(c: Controller, s: Step, d: Controller, n: Name)
    requires Safe(c) && Next(c, s).Some? && d == Next(c, s).value && n in c.world.github
    ensures n in d.world.github
  {
    match s
    case Pass(p) => PassNames(c, p, d);
    case Wait(w) => WaitEffect(c, w, d);
    case Start(p) => StartNames(c, p, d, n);
    case Tend(p) => TendNames(c, p, d, n);
    case Remove(k, m) => RemovalNames(c, k, m, d, n);
    case Tell(r) => ReportNames(c, r, d);
    case Carry(w, delay) => ChoreEffect(c, w, delay, d);
    case Occur(e) => EventEffect(c, e, d); assert Onward(c.world, d.world, n);
    case Wind(e) =>
  }

  // ------------------------------------------------------ looking it up

  /** The later state of a run, as seen from an earlier one. */
  ghost predicate Follows(config: Config, steps: seq<Step>, c: Controller, more: seq<Step>, e: Controller) {
    Reaches(config, steps, c) && Reaches(config, steps + more, e)
  }

  lemma AllButLast(steps: seq<Step>, more: seq<Step>)
    requires more != []
    ensures (steps + more)[..|steps + more| - 1] == steps + more[..|more| - 1]
  {}

  lemma LastFollower(config: Config, steps: seq<Step>, more: seq<Step>, all: seq<Step>, e: Controller)
    returns (b: Controller, s: Step)
    requires all != [] && more != [] && all[..|all| - 1] == steps + more[..|more| - 1]
    requires Reaches(config, all, e)
    ensures Reaches(config, steps + more[..|more| - 1], b) && Next(b, s).Some? && e == Next(b, s).value
    ensures s == all[|all| - 1]
  {
    b, s := LastStep(config, all, e);
  }

  lemma AttemptOneStepLater(config: Config, steps: seq<Step>, b: Controller, s: Step, e: Controller, n: Name)
    requires Reaches(config, steps, b) && Next(b, s).Some? && e == Next(b, s).value
    requires n in b.world.github
    ensures n in e.world.github && SameAttempt(b.table, e.table, n) && (n !in b.table ==> n !in e.table)
  {
    RunIsSafe(config, steps, b);
    RunIsFair(config, steps, b);
    StepKeepsAttempts(b, s, e, n);
    StepKeepsNames(b, s, e, n);
  }

  lemma TrackedIsKnown(config: Config, steps: seq<Step>, c: Controller, n: Name)
    requires Reaches(config, steps, c) && n in c.table
    ensures n in c.world.github
  {
    RunIsSafe(config, steps, c);
    assert Sane(n, CellOf(c, n), c.world);
  }

  lemma {:induction false} AttemptOverRun(config: Config, steps: seq<Step>, c: Controller, more: seq<Step>, e: Controller, n: Name)
    requires Follows(config, steps, c, more, e)
    requires n in c.table && c.table[n].attempt != NO_ATTEMPT
    ensures n in e.world.github && (n in e.table ==> e.table[n].attempt == c.table[n].attempt)
    decreases |more|
  {
    if more == [] {
      assert steps + more == steps;
      TrackedIsKnown(config, steps, c, n);
    } else {
      AllButLast(steps, more);
      var b, s := LastFollower(config, steps, more, steps + more, e);
      AttemptOverRun(config, steps, c, more[..|more| - 1], b, n);
      AttemptOneStepLater(config, steps + more[..|more| - 1], b, s, e, n);
    }
  }

  /** Carrying a lookup adds one credit, of whatever attempt the table then holds. */
  lemma LookUpEffect(c: Controller, n: Name, delay: int, d: Controller)
    requires ChoreNext(c, LookUp(n), delay).Some? && d == ChoreNext(c, LookUp(n), delay).value
    ensures d.table == c.table && d.ledger == c.ledger
    ensures d.chores == c.chores - multiset{LookUp(n)} + multiset{CreditWork(AttemptOf(c.table, n))}
  {}

  /** Work seen on a runner while it carried attempt `a` credits `a`, when the
      callback comes to look it up, if and only if the runner is still in the table. */
  lemma LookUpCreditsIffTracked(config: Config, steps: seq<Step>, c: Controller, more: seq<Step>, e: Controller,
                                n: Name, delay: int, f: Controller)
    requires Follows(config, steps, c, more, e)
    requires n in c.table && c.table[n].attempt != NO_ATTEMPT
    requires ChoreNext(e, LookUp(n), delay).Some? && f == ChoreNext(e, LookUp(n), delay).value
    ensures var a := c.table[n].attempt;
            f.chores[CreditWork(a)] == e.chores[CreditWork(a)] + if n in e.table then 1 else 0
    ensures n !in e.table ==> f.chores[CreditWork(NO_ATTEMPT)] == e.chores[CreditWork(NO_ATTEMPT)] + 1
  {
    AttemptOverRun(config, steps, c, more, e, n);
    LookUpEffect(e, n, delay, f);
  }

  // ------------------------------------------------- what a credit does

  /** Nothing is counted or delayed that was not recorded. */
  predicate Modest(l: R.Ledger) {
    l.consecutive <= l.generation && (l.generation == 0 ==> l.nextRetryAt == 0 && l.state == R.Clear)
  }

  lemma PassIsModest(c: Controller, s: PassStep, d: Controller)
    requires Modest(c.ledger) && PassNext(c, s).Some? && d == PassNext(c, s).value
    ensures Modest(d.ledger)
  {}

  lemma WaitIsModest(c: Controller, s: WaitStep, d: Controller)
    requires Modest(c.ledger) && WaitNext(c, s).Some? && d == WaitNext(c, s).value
    ensures Modest(d.ledger)
  {}

  lemma StartIsModest(c: Controller, s: StartStep, d: Controller)
    requires Modest(c.ledger) && StartNext(c, s).Some? && d == StartNext(c, s).value
    ensures Modest(d.ledger)
  {}

  lemma TendIsModest(c: Controller, s: TendStep, d: Controller)
    requires Modest(c.ledger) && TendNext(c, s).Some? && d == TendNext(c, s).value
    ensures Modest(d.ledger)
  {}

  lemma ChoreIsModest(c: Controller, w: Chore, delay: int, d: Controller)
    requires Modest(c.ledger) && ChoreNext(c, w, delay).Some? && d == ChoreNext(c, w, delay).value
    ensures Modest(d.ledger)
  {}

  lemma ReportLedger(c: Controller, r: Report, d: Controller)
    requires ReportNext(c, r).Some? && d == ReportNext(c, r).value
    ensures d.ledger == c.ledger
  {}

  lemma StepIsModest(c: Controller, s: Step, d: Controller)
    requires Modest(c.ledger) && Next(c, s).Some? && d == Next(c, s).value
    ensures Modest(d.ledger)
  {
    match s
    case Pass(p) => PassIsModest(c, p, d);
    case Wait(w) => WaitIsModest(c, w, d);
    case Start(p) => StartIsModest(c, p, d);
    case Tend(p) => TendIsModest(c, p, d);
    case Remove(n, m) => RemovalBooks(c, n, m, d);
    case Tell(r) => ReportLedger(c, r, d);
    case Carry(w, delay) => ChoreIsModest(c, w, delay, d);
    case Occur(e) => EventBooks(c, e, d);
    case Wind(e) =>
  }

  lemma {:induction false} RunIsModest(config: Config, steps: seq<Step>, c: Controller)
    requires Reaches(config, steps, c)
    ensures Modest(c.ledger)
    decreases |steps|
  {
    if steps != [] {
      var b, s := LastStep(config, steps, c);
      RunIsModest(config, steps[..|steps| - 1], b);
      StepIsModest(b, s, c);
    }
  }

  /** Crediting no attempt changes nothing but the log, in any reachable state. */
  lemma CreditingNoAttemptIsNothing(config: Config, steps: seq<Step>, c: Controller)
    requires Reaches(config, steps, c)
    ensures R.RecordWorkSuccess(c.ledger, NO_ATTEMPT).(history := c.ledger.history) == c.ledger
  {
    RunIsModest(config, steps, c);
    RunIsFair(config, steps, c);
    R.OwnFailuresAreFailures(c.ledger.history, 0);
    assert Charge(c, 0) <= 0;
  }

  /** What is credited was begun earlier in the run, or is no attempt at all. */
  lemma CreditsAreIssued(config: Config, steps: seq<Step>, c: Controller, a: Attempt)
    requires Reaches(config, steps, c)
    requires CreditWork(a) in c.chores || CreditStart(a) in c.chores || (c.worker.Crediting? && c.worker.attempt == a)
    ensures a == NO_ATTEMPT || exists p :: R.IssuedAt(c.ledger.history, a, p)
  {
    RunIsFair(config, steps, c);
    if CreditWork(a) in c.chores {
      assert Credits(CreditWork(a), a);
    } else if CreditStart(a) in c.chores {
      assert Credits(CreditStart(a), a);
    }
    assert a == NO_ATTEMPT || Issued(c.ledger, a);
  }

  /** A step that credits work, in any run: for an attempt it clears the count and
      the deadline if and only if no other attempt has failed since that one
      began; for a runner already forgotten it does nothing. */
  lemma CreditClearsUnlessOthersFailed(config: Config, steps: seq<Step>, c: Controller, a: Attempt, delay: int, d: Controller)
    requires Reaches(config, steps, c)
    requires Next(c, Carry(CreditWork(a), delay)).Some? && d == Next(c, Carry(CreditWork(a), delay)).value
    ensures a == NO_ATTEMPT ==> d.ledger.(history := c.ledger.history) == c.ledger
    ensures a != NO_ATTEMPT ==> exists p :: R.IssuedAt(c.ledger.history, a, p)
    ensures forall p | R.IssuedAt(c.ledger.history, a, p) ::
              if R.UndisturbedSince(c.ledger.history, p, a) then R.Forgives(c.ledger, d.ledger, a.id) else d.ledger == c.ledger
  {
    CreditsAreIssued(config, steps, c, a);
    assert d.ledger == R.RecordWorkSuccess(c.ledger, a);
    if a == NO_ATTEMPT {
      CreditingNoAttemptIsNothing(config, steps, c);
    }
    forall p | R.IssuedAt(c.ledger.history, a, p)
      ensures if R.UndisturbedSince(c.ledger.history, p, a) then R.Forgives(c.ledger, d.ledger, a.id) else d.ledger == c.ledger
    {
      WorkClearsUnlessOthersFailed(config, steps, c, a, p);
    }
  }

  /** The step takes in that the start of attempt `a` succeeded. */
  predicate CreditsStart(c: Controller, s: Step, a: Attempt) {
    (s.Carry? && s.chore == CreditStart(a)) || (s == Tend(CreditReady) && c.worker.Crediting? && c.worker.attempt == a)
  }

  lemma StartCreditEffect(c: Controller, s: Step, a: Attempt, d: Controller)
    requires Next(c, s) == Some(d) && CreditsStart(c, s, a)
    ensures d.ledger == R.RecordStartSuccess(c.ledger, a)
  {}

  /** A start that succeeded, in any run: it clears the count and the deadline if
      and only if no attempt at all has failed since it began. */
  lemma StartCreditClearsUnlessAnyFailed(config: Config, steps: seq<Step>, c: Controller, s: Step, a: Attempt, d: Controller)
    requires Reaches(config, steps, c) && Next(c, s) == Some(d) && CreditsStart(c, s, a)
    ensures a == NO_ATTEMPT || exists p :: R.IssuedAt(c.ledger.history, a, p)
    ensures forall p: nat | R.IssuedAt(c.ledger.history, a, p) ::
              if R.UndisturbedSince(c.ledger.history, p, a) && R.FailuresOf(c.ledger.history[p..], a.id) == 0
              then R.Forgives(c.ledger, d.ledger, a.id) else d.ledger == c.ledger
  {
    CreditsAreIssued(config, steps, c, a);
    StartCreditEffect(c, s, a, d);
    forall p: nat | R.IssuedAt(c.ledger.history, a, p)
      ensures if R.UndisturbedSince(c.ledger.history, p, a) && R.FailuresOf(c.ledger.history[p..], a.id) == 0
              then R.Forgives(c.ledger, d.ledger, a.id) else d.ledger == c.ledger
    {
      StartClearsUnlessAnyFailed(config, steps, c, a, p);
    }
  }
}
