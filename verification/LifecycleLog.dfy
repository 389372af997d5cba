/** What only grows: the failure history, the clock, and a callback's announced
    failure until it is carried out. */
module LifecycleLog {
  import opened Instances
  import opened Lifecycle
  import opened LifecycleSafety
  import opened LifecycleRetry
  import opened Options
  import R = Retry

  /** From `c` to `d` no record is lost and time does not go back. */
  predicate Logs(c: Controller, d: Controller) {
    c.ledger.history <= d.ledger.history && c.now <= d.now && d.config == c.config
  }

  lemma PassLogs(c: Controller, s: PassStep, d: Controller)
    requires PassNext(c, s).Some? && d == PassNext(c, s).value
    ensures Logs(c, d) && d.chores == c.chores
  {}

  lemma WaitLogs(c: Controller, s: WaitStep, d: Controller)
    requires WaitNext(c, s).Some? && d == WaitNext(c, s).value
    ensures Logs(c, d) && d.chores == c.chores
  {}

  lemma StartLogs(c: Controller, s: StartStep, d: Controller)
    requires StartNext(c, s).Some? && d == StartNext(c, s).value
    ensures Logs(c, d) && d.chores == c.chores
  {}

  lemma TendLogs(c: Controller, s: TendStep, d: Controller)
    requires TendNext(c, s).Some? && d == TendNext(c, s).value
    ensures Logs(c, d) && c.chores <= d.chores
  {}

  lemma RemovalLogs(c: Controller, n: Name, m: Move, d: Controller)
    requires RemovalNext(c, n, m).Some? && d == RemovalNext(c, n, m).value
    ensures Logs(c, d) && d.ledger == c.ledger && c.chores <= d.chores
  {}

  lemma ReportLogs(c: Controller, r: Report, d: Controller)
    requires ReportNext(c, r).Some? && d == ReportNext(c, r).value
    ensures Logs(c, d) && d.ledger == c.ledger && c.chores <= d.chores
  {}

  lemma ChoreLogs(c: Controller, w: Chore, delay: int, d: Controller)
    requires ChoreNext(c, w, delay).Some? && d == ChoreNext(c, w, delay).value
    ensures Logs(c, d) && c.chores - multiset{w} <= d.chores
  {}

  lemma EventLogs(c: Controller, e: Event, d: Controller)
    requires EventNext(c, e).Some? && d == EventNext(c, e).value
    ensures Logs(c, d) && d.ledger == c.ledger && c.chores <= d.chores
  {}

  lemma DrainLogs(c: Controller, e: DrainStep, d: Controller)
    requires DrainNext(c, e).Some? && d == DrainNext(c, e).value
    ensures Logs(c, d) && d.chores == c.chores
  {}

  lemma StepLogs(c: Controller, s: Step, d: Controller)
    requires Next(c, s).Some? && d == Next(c, s).value
    ensures Logs(c, d) && (if s.Carry? then c.chores - multiset{s.chore} else c.chores) <= d.chores
  {
    match s
    case Pass(p) => PassLogs(c, p, d);
    case Wait(w) => WaitLogs(c, w, d);
    case Start(p) => StartLogs(c, p, d);
    case Tend(p) => TendLogs(c, p, d);
    case Remove(n, m) => RemovalLogs(c, n, m, d);
    case Tell(r) => ReportLogs(c, r, d);
    case Carry(w, delay) => ChoreLogs(c, w, delay, d);
    case Occur(e) => EventLogs(c, e, d);
    case Wind(e) => DrainLogs(c, e, d);
  }

  /** What a history has come to hold stays counted as it grows. */
  lemma {:induction false} FailuresGrow(h: seq<R.Event>, k: seq<R.Event>, id: nat)
    requires h <= k
    ensures R.FailuresOf(h, id) <= R.FailuresOf(k, id)
    decreases |k|
  {
    if |h| < |k| {
      FailuresGrow(h, k[..|k| - 1], id);
    } else {
      assert h == k;
    }
  }

  /** A step takes a charge back only by carrying out its announcement. */
  lemma StepKeepsCharge(c: Controller, s: Step, d: Controller, id: nat)
    requires Next(c, s).Some? && d == Next(c, s).value
    requires !(s.Carry? && s.chore == NoteFailure(id))
    ensures Charge(d, id) >= Charge(c, id)
  {
    StepLogs(c, s, d);
    FailuresGrow(c.ledger.history, d.ledger.history, id);
    assert (if s.Carry? then c.chores - multiset{s.chore} else c.chores)[NoteFailure(id)] == c.chores[NoteFailure(id)];
  }
}
