/** Backoff is honoured: after a failed start the worker starts nothing before the
    delay is over, whatever happens meanwhile that does not lift it. */
module LifecycleBackoff {
  import opened Instances
  import opened Lifecycle
  import opened LifecycleSafety
  import opened LifecycleRetry
  import opened LifecycleCredits
  import opened LifecycleLog
  import opened Options
  import R = Retry

  /** The deadline stands, or has been cleared once it had passed. */
  predicate Held(l: R.Ledger, now: int, due: int) {
    l.nextRetryAt == due || (l.nextRetryAt == 0 && now >= due)
  }

  /** No failure and no success is on record beyond `h`. */
  predicate Calm(h: seq<R.Event>, l: R.Ledger) {
    h <= l.history && forall i | |h| <= i < |l.history| :: l.history[i].Began?
  }

  /** The worker found demand satisfied, or a drain cancelled its work. */
  predicate Lifts(s: Step) {
    s == Pass(Clear) || s == Wind(CancelWork)
  }

  lemma PassHolds(c: Controller, s: PassStep, d: Controller, due: int)
    requires PassNext(c, s).Some? && d == PassNext(c, s).value && !s.Clear? && Held(c.ledger, c.now, due)
    ensures Held(d.ledger, d.now, due)
  {}

  lemma WaitHolds(c: Controller, s: WaitStep, d: Controller, due: int)
    requires WaitNext(c, s).Some? && d == WaitNext(c, s).value && Held(c.ledger, c.now, due)
    ensures Held(d.ledger, d.now, due)
  {}

  lemma StartHolds(c: Controller, s: StartStep, d: Controller, due: int)
    requires StartNext(c, s).Some? && d == StartNext(c, s).value && Held(c.ledger, c.now, due) && Calm(c.ledger.history, d.ledger)
    ensures Held(d.ledger, d.now, due)
  {
    assert d.ledger.history != c.ledger.history ==> d.ledger.history[|c.ledger.history|].Began?;
  }

  lemma TendHolds(c: Controller, s: TendStep, d: Controller, due: int)
    requires TendNext(c, s).Some? && d == TendNext(c, s).value && Held(c.ledger, c.now, due) && Calm(c.ledger.history, d.ledger)
    ensures Held(d.ledger, d.now, due)
  {
    assert d.ledger.history != c.ledger.history ==> d.ledger.history[|c.ledger.history|].Began?;
  }

  lemma ChoreHolds(c: Controller, w: Chore, delay: int, d: Controller, due: int)
    requires ChoreNext(c, w, delay).Some? && d == ChoreNext(c, w, delay).value
    requires Held(c.ledger, c.now, due) && Calm(c.ledger.history, d.ledger)
    ensures Held(d.ledger, d.now, due)
  {
    assert d.ledger.history != c.ledger.history ==> d.ledger.history[|c.ledger.history|].Began?;
  }

  lemma StepHolds(c: Controller, s: Step, d: Controller, due: int)
    requires Next(c, s).Some? && d == Next(c, s).value && !Lifts(s)
    requires Held(c.ledger, c.now, due) && Calm(c.ledger.history, d.ledger)
    ensures Held(d.ledger, d.now, due)
  {
    match s
    case Pass(p) => PassHolds(c, p, d, due);
    case Wait(w) => WaitHolds(c, w, d, due);
    case Start(p) => StartHolds(c, p, d, due);
    case Tend(p) => TendHolds(c, p, d, due);
    case Remove(n, m) => RemovalLogs(c, n, m, d);
    case Tell(r) => ReportLogs(c, r, d);
    case Carry(w, delay) => ChoreHolds(c, w, delay, d, due);
    case Occur(e) => EventLogs(c, e, d);
    case Wind(e) => DrainLogs(c, e, d);
  }

  lemma StepKeepsCalm(h: seq<R.Event>, c: Controller, s: Step, d: Controller)
    requires Next(c, s).Some? && d == Next(c, s).value && h <= c.ledger.history && Calm(h, d.ledger)
    ensures Calm(h, c.ledger) && Calm(c.ledger.history, d.ledger)
  {
    StepLogs(c, s, d);
    forall i | |h| <= i < |c.ledger.history| ensures c.ledger.history[i].Began? {
      assert d.ledger.history[i] == c.ledger.history[i];
    }
  }

  lemma {:induction false} RunLogs(config: Config, steps: seq<Step>, c: Controller, more: seq<Step>, e: Controller)
    requires Follows(config, steps, c, more, e)
    ensures Logs(c, e)
    decreases |more|
  {
    if more == [] {
      assert steps + more == steps;
    } else {
      AllButLast(steps, more);
      var b, s := LastFollower(config, steps, more, steps + more, e);
      RunLogs(config, steps, c, more[..|more| - 1], b);
      StepLogs(b, s, e);
    }
  }

  /** The last step of a run beyond `c`, and that all before it was as calm. */
  lemma LastWasCalm(config: Config, steps: seq<Step>, c: Controller, more: seq<Step>, e: Controller)
    returns (b: Controller, s: Step)
    requires Follows(config, steps, c, more, e) && more != [] && Calm(c.ledger.history, e.ledger)
    ensures Follows(config, steps, c, more[..|more| - 1], b) && s == more[|more| - 1]
    ensures Next(b, s).Some? && e == Next(b, s).value
    ensures Calm(c.ledger.history, b.ledger) && Calm(b.ledger.history, e.ledger)
  {
    AllButLast(steps, more);
    b, s := LastFollower(config, steps, more, steps + more, e);
    RunLogs(config, steps, c, more[..|more| - 1], b);
    StepKeepsCalm(c.ledger.history, b, s, e);
  }

  /** The deadline over a run that records nothing new and does not lift it. */
  lemma {:induction false} RunHolds(config: Config, steps: seq<Step>, c: Controller, more: seq<Step>, e: Controller, due: int)
    requires Follows(config, steps, c, more, e) && Held(c.ledger, c.now, due)
    requires Calm(c.ledger.history, e.ledger) && forall k | 0 <= k < |more| :: !Lifts(more[k])
    ensures Held(e.ledger, e.now, due)
    decreases |more|
  {
    if more == [] {
      assert steps + more == steps;
    } else {
      var b, s := LastWasCalm(config, steps, c, more, e);
      RunHolds(config, steps, c, more[..|more| - 1], b, due);
      StepHolds(b, s, e, due);
    }
  }

  /** The step puts a failure on record; `delay` is the backoff it earned. */
  predicate Records(b: Controller, s: Step, delay: int, d: Controller) {
    && Next(b, s) == Some(d)
    && (s == Start(Fail(delay)) || (s.Carry? && s.chore.NoteFailure? && s.delay == delay))
    && d.ledger.failures == b.ledger.failures + 1
  }

  lemma RecordedIsHeld(b: Controller, s: Step, delay: int, d: Controller)
    requires Records(b, s, delay, d)
    ensures Held(d.ledger, d.now, b.now + delay)
  {
    if s.Carry? {
      NoteEffect(b, s.chore.id, delay, d);
    } else {
      FailEffect(b, delay, d);
    }
  }

  /** The worker's two gates before a start. */
  predicate Gated(c: Controller, g: Step) {
    (c.worker.Gating? && g == Pass(Gate)) || (c.worker.Regating? && g == Wait(Regate))
  }

  lemma GateOpens(c: Controller, g: Step, d: Controller)
    requires Gated(c, g) && Next(c, g) == Some(d)
    ensures d.worker.Hooking? || d.worker.Naming? <==> c.now >= c.ledger.nextRetryAt
    ensures c.now < c.ledger.nextRetryAt ==> (d.worker.Asleep? || d.worker.Dropping?) && d.ledger == c.ledger
  {}

  lemma {:induction false} ClockIsNotNegative(config: Config, steps: seq<Step>, c: Controller)
    requires Reaches(config, steps, c)
    ensures c.now >= 0
    decreases |steps|
  {
    if steps != [] {
      var b, s := LastStep(config, steps, c);
      ClockIsNotNegative(config, steps[..|steps| - 1], b);
      StepLogs(b, s, c);
    }
  }

  /** A failure is recorded, and then neither another one nor a success, demand is
      not found satisfied and no drain cancels the work: in every such run the
      worker passes a gate if and only if the failure's delay is over. */
  lemma BackoffIsHonoured(config: Config, steps: seq<Step>, b: Controller, s: Step, delay: int, d: Controller,
                          more: seq<Step>, e: Controller, g: Step, f: Controller)
    requires Reaches(config, steps, b) && Records(b, s, delay, d)
    requires Reaches(config, steps + [s] + more, e) && Gated(e, g) && Next(e, g) == Some(f)
    requires Calm(d.ledger.history, e.ledger) && forall k | 0 <= k < |more| :: !Lifts(more[k])
    ensures f.worker.Hooking? || f.worker.Naming? <==> e.now >= b.now + delay
    ensures e.now < b.now + delay ==> (f.worker.Asleep? || f.worker.Dropping?) && f.ledger == e.ledger
  {
    OneMoreStep(config, steps, b, s, d);
    RecordedIsHeld(b, s, delay, d);
    RunHolds(config, steps + [s], d, more, e, b.now + delay);
    ClockIsNotNegative(config, steps + [s] + more, e);
    GateOpens(e, g, f);
  }

  // ---------------------------------------------------------- what is reported

  /** The reported state: nothing while there is no deadline; otherwise cooldown
      exactly when the failures since the last success have come to `limit`. */
  predicate StateTells(l: R.Ledger, limit: int) {
    (l.state == R.Clear ==> l.nextRetryAt == 0) && (l.state != R.Clear ==> (l.state == R.Cooldown <==> l.consecutive >= limit))
  }

  lemma PassTells(c: Controller, s: PassStep, d: Controller, limit: int)
    requires PassNext(c, s).Some? && d == PassNext(c, s).value && StateTells(c.ledger, limit)
    ensures StateTells(d.ledger, limit)
  {}

  lemma WaitTells(c: Controller, s: WaitStep, d: Controller, limit: int)
    requires WaitNext(c, s).Some? && d == WaitNext(c, s).value && StateTells(c.ledger, limit)
    ensures StateTells(d.ledger, limit)
  {}

  lemma StartTells(c: Controller, s: StartStep, d: Controller)
    requires StartNext(c, s).Some? && d == StartNext(c, s).value && StateTells(c.ledger, c.config.cooldownAfter)
    ensures StateTells(d.ledger, c.config.cooldownAfter)
  {}

  lemma TendTells(c: Controller, s: TendStep, d: Controller, limit: int)
    requires TendNext(c, s).Some? && d == TendNext(c, s).value && StateTells(c.ledger, limit)
    ensures StateTells(d.ledger, limit)
  {}

  lemma ChoreTells(c: Controller, w: Chore, delay: int, d: Controller)
    requires ChoreNext(c, w, delay).Some? && d == ChoreNext(c, w, delay).value && StateTells(c.ledger, c.config.cooldownAfter)
    ensures StateTells(d.ledger, c.config.cooldownAfter)
  {}

  lemma StepTells(c: Controller, s: Step, d: Controller)
    requires Next(c, s).Some? && d == Next(c, s).value && StateTells(c.ledger, c.config.cooldownAfter)
    ensures StateTells(d.ledger, c.config.cooldownAfter) && d.config == c.config
  {
    StepLogs(c, s, d);
    match s
    case Pass(p) => PassTells(c, p, d, c.config.cooldownAfter);
    case Wait(w) => WaitTells(c, w, d, c.config.cooldownAfter);
    case Start(p) => StartTells(c, p, d);
    case Tend(p) => TendTells(c, p, d, c.config.cooldownAfter);
    case Remove(n, m) => RemovalLogs(c, n, m, d);
    case Tell(r) => ReportLogs(c, r, d);
    case Carry(w, delay) => ChoreTells(c, w, delay, d);
    case Occur(e) => EventLogs(c, e, d);
    case Wind(e) =>
  }

  lemma {:induction false} RunTells(config: Config, steps: seq<Step>, c: Controller)
    requires Reaches(config, steps, c)
    ensures StateTells(c.ledger, config.cooldownAfter) && c.config == config
    decreases |steps|
  {
    if steps != [] {
      var b, s := LastStep(config, steps, c);
      RunTells(config, steps[..|steps| - 1], b);
      StepTells(b, s, c);
    }
  }

  /** In every run the counters tell the history: all failures, those since the
      last success, and by the reported state whether they have come to a cooldown. */
  lemma CountersTellHistory(config: Config, steps: seq<Step>, c: Controller)
    requires Reaches(config, steps, c)
    ensures c.ledger.failures == R.Failures(c.ledger.history) && c.ledger.consecutive == R.Streak(c.ledger.history)
    ensures c.ledger.state == R.Clear ==> c.ledger.nextRetryAt == 0
    ensures c.ledger.state != R.Clear ==> (c.ledger.state == R.Cooldown <==> R.Streak(c.ledger.history) >= config.cooldownAfter)
  {
    RunIsFair(config, steps, c);
    RunTells(config, steps, c);
  }
}
