/** Failure accounting over whole runs: a start, its readiness and its exit
    together charge an attempt at most once, which is what makes a success
    clear the count exactly when no other attempt has failed since. */
module LifecycleRetry {
  import opened Instances
  import opened Lifecycle
  import opened LifecycleSafety
  import opened Options
  import R = Retry

  /** Failures charged to an attempt, and those a callback is about to charge. */
  function Charge(c: Controller, id: nat): nat {
    R.FailuresOf(c.ledger.history, id) + c.chores[NoteFailure(id)]
  }

  ghost predicate Issued(l: R.Ledger, a: Attempt) {
    1 <= a.id <= l.attempts && exists p :: R.IssuedAt(l.history, a, p)
  }

  /** The worker holds an attempt whose start may still fail. */
  predicate Attempted(w: Worker) {
    w.Tagging? || w.Jitting? || w.Launching? || w.Launched? || w.Recording? || w.Failing?
  }

  /** The entry has not been tagged with its attempt yet. */
  predicate Untagged(w: Worker) {
    w.Beginning? || w.Tagging?
  }

  /** An exit or a readiness failure would count as a failed start. */
  predicate MayFail(i: Instance) {
    i.id != NO_ID && i.phase != Removing && !i.worked
  }

  ghost predicate EntryFair(c: Controller, n: Name, i: Instance) {
    && (i.attempt == NO_ATTEMPT || Issued(c.ledger, i.attempt))
    && (i.attempt == NO_ATTEMPT ==> Untagged(c.worker) && c.worker.name == n)
    && (i.phase == Provisioning || i.phase == Idle ==> !i.worked)
    && (MayFail(i) ==> Charge(c, i.attempt.id) == 0)
  }

  ghost predicate RoleFair(c: Controller) {
    var w := c.worker;
    && (Attempted(w) ==>
         && Issued(c.ledger, w.attempt) && Charge(c, w.attempt.id) == 0 && w.name in c.table
         && (w.Tagging? ==> forall n | n in c.table :: c.table[n].attempt.id != w.attempt.id)
         && (!w.Tagging? ==> c.table[w.name].attempt == w.attempt))
    && (w.Crediting? ==> Issued(c.ledger, w.attempt))
    && (Untagged(w) && w.name in c.table ==> c.table[w.name].attempt == NO_ATTEMPT)
  }

  ghost predicate Distinct(t: Table) {
    forall n, m | n in t && m in t && n != m :: t[n].attempt.id != t[m].attempt.id
  }

  /** The attempt a chore is about to credit, if any. */
  predicate Credits(w: Chore, a: Attempt) {
    w == CreditWork(a) || w == CreditStart(a)
  }

  ghost predicate CreditsFair(c: Controller) {
    forall a, w | w in c.chores && Credits(w, a) :: a == NO_ATTEMPT || Issued(c.ledger, a)
  }

  ghost predicate Charged(c: Controller) {
    forall id: nat :: Charge(c, id) <= if 1 <= id <= c.ledger.attempts then 1 else 0
  }

  ghost predicate Fair(c: Controller) {
    && R.Sound(c.ledger) && Charged(c) && CreditsFair(c)
    && (forall n | n in c.table :: EntryFair(c, n, c.table[n]))
    && Distinct(c.table) && RoleFair(c)
  }

  // ----------------------------------------------------- steps that charge nothing

  /** A success is noted behind the history. */
  predicate SuccessNoted(l: R.Ledger, k: R.Ledger) {
    && k.history != [] && k.history[..|k.history| - 1] == l.history && k.history[|k.history| - 1].Succeeded?
    && k.consecutive == 0
  }

  /** No attempt began or failed; one may have succeeded. */
  predicate SameBooks(l: R.Ledger, k: R.Ledger) {
    && k.attempts == l.attempts && k.failures == l.failures && k.generation == l.generation && k.lastFailure == l.lastFailure
    && ((k.history == l.history && k.consecutive == l.consecutive) || SuccessNoted(l, k))
  }

  predicate FairKin(i: Instance, j: Instance) {
    && j.attempt == i.attempt
    && (j.phase == Provisioning || j.phase == Idle ==> !i.worked ==> !j.worked)
    && (j.phase == Provisioning || j.phase == Idle ==> i.phase == Provisioning || i.phase == Idle)
    && (MayFail(j) ==> MayFail(i))
  }

  ghost predicate FairTables(t: Table, u: Table) {
    forall n | n in u :: n in t && FairKin(t[n], u[n])
  }

  /** No failure is charged, none announced, and no attempt credited that was not before. */
  ghost predicate NoCharge(c: Controller, d: Controller) {
    && SameBooks(c.ledger, d.ledger)
    && (forall id: nat :: d.chores[NoteFailure(id)] <= c.chores[NoteFailure(id)])
    && (forall a, w | w in d.chores && Credits(w, a) :: w in c.chores)
  }

  ghost predicate RoleKept(c: Controller, d: Controller) {
    || d.worker == c.worker
    || (&& !Untagged(c.worker) && !Untagged(d.worker)
        && (Attempted(d.worker) ==> Attempted(c.worker) && d.worker.name == c.worker.name && d.worker.attempt == c.worker.attempt)
        && (d.worker.Crediting? ==> Issued(d.ledger, d.worker.attempt)))
  }

  lemma BooksIssue(l: R.Ledger, k: R.Ledger, a: Attempt)
    requires SameBooks(l, k)
    ensures Issued(l, a) <==> Issued(k, a)
  {
    forall p: nat | p < |l.history| ensures R.IssuedAt(l.history, a, p) <==> R.IssuedAt(k.history, a, p) {
      assert k.history[..p] == l.history[..p];
    }
    assert forall p: nat | R.IssuedAt(k.history, a, p) :: p < |l.history|;
  }

  lemma BooksCarry(c: Controller, d: Controller)
    requires SameBooks(c.ledger, d.ledger)
    requires forall id: nat :: d.chores[NoteFailure(id)] <= c.chores[NoteFailure(id)]
    ensures forall id: nat :: Charge(d, id) <= Charge(c, id)
    ensures forall a :: Issued(c.ledger, a) <==> Issued(d.ledger, a)
    ensures R.Sound(c.ledger) ==> R.Sound(d.ledger)
  {
    forall a ensures Issued(c.ledger, a) <==> Issued(d.ledger, a) {
      BooksIssue(c.ledger, d.ledger, a);
    }
  }

  lemma QuietCharges(c: Controller, d: Controller)
    requires Charged(c) && NoCharge(c, d)
    ensures Charged(d)
  {
    BooksCarry(c, d);
    forall id: nat ensures Charge(d, id) <= if 1 <= id <= d.ledger.attempts then 1 else 0 {
      assert Charge(c, id) <= if 1 <= id <= c.ledger.attempts then 1 else 0;
    }
  }

  lemma QuietCredits(c: Controller, d: Controller)
    requires CreditsFair(c) && NoCharge(c, d)
    ensures CreditsFair(d)
  {
    BooksCarry(c, d);
  }

  lemma QuietEntries(c: Controller, d: Controller)
    requires forall n | n in c.table :: EntryFair(c, n, c.table[n])
    requires NoCharge(c, d) && FairTables(c.table, d.table)
    requires d.worker == c.worker || !Untagged(c.worker)
    ensures forall n | n in d.table :: EntryFair(d, n, d.table[n])
  {
    BooksCarry(c, d);
    forall n | n in d.table ensures EntryFair(d, n, d.table[n]) {
      assert EntryFair(c, n, c.table[n]);
    }
  }

  lemma QuietRole(c: Controller, d: Controller)
    requires RoleFair(c) && NoCharge(c, d) && RoleKept(c, d) && FairTables(c.table, d.table)
    requires Attempted(d.worker) ==> d.worker.name in d.table
    ensures RoleFair(d)
  {
    BooksCarry(c, d);
    var w := d.worker;
    if Attempted(w) {
      assert Issued(c.ledger, w.attempt) && Charge(c, w.attempt.id) == 0;
    }
  }

  lemma QuietIsFair(c: Controller, d: Controller)
    requires Fair(c) && NoCharge(c, d) && RoleKept(c, d)
    requires FairTables(c.table, d.table)
    requires Attempted(d.worker) ==> d.worker.name in d.table
    ensures Fair(d)
  {
    QuietCharges(c, d);
    QuietCredits(c, d);
    QuietEntries(c, d);
    QuietRole(c, d);
    BooksCarry(c, d);
  }

  // --------------------------------------------------- steps that charge once

  lemma IssuedGrows(l: R.Ledger, k: R.Ledger)
    requires l.history <= k.history && l.attempts <= k.attempts
    ensures forall a | Issued(l, a) :: Issued(k, a)
  {
    forall a | Issued(l, a) ensures Issued(k, a) {
      var p :| R.IssuedAt(l.history, a, p);
      var more := k.history[|l.history|..];
      assert k.history == l.history + more;
      R.IssuedStays(l.history, more, a, p);
    }
  }

  /** The books of a step that charges at most the attempt `id`. */
  ghost predicate OneCharge(c: Controller, d: Controller, id: nat) {
    && R.Sound(d.ledger) && d.ledger.attempts == c.ledger.attempts && c.ledger.history <= d.ledger.history
    && 1 <= id <= c.ledger.attempts
    && Charge(d, id) <= 1 && (forall k: nat :: k != id ==> Charge(d, k) <= Charge(c, k))
    && (forall a, w | w in d.chores && Credits(w, a) :: w in c.chores)
    && (forall n | n in d.table :: d.table[n].attempt.id == id ==> !MayFail(d.table[n]))
  }

  lemma ChargeBooks(c: Controller, d: Controller, id: nat)
    requires Charged(c) && CreditsFair(c) && OneCharge(c, d, id)
    ensures Charged(d) && CreditsFair(d)
  {
    IssuedGrows(c.ledger, d.ledger);
    forall k: nat ensures Charge(d, k) <= if 1 <= k <= d.ledger.attempts then 1 else 0 {
      assert Charge(c, k) <= if 1 <= k <= c.ledger.attempts then 1 else 0;
    }
  }

  lemma ChargeEntries(c: Controller, d: Controller, id: nat)
    requires forall n | n in c.table :: EntryFair(c, n, c.table[n])
    requires OneCharge(c, d, id) && FairTables(c.table, d.table)
    requires d.worker == c.worker || !Untagged(c.worker)
    ensures forall n | n in d.table :: EntryFair(d, n, d.table[n])
  {
    IssuedGrows(c.ledger, d.ledger);
    forall n | n in d.table ensures EntryFair(d, n, d.table[n]) {
      assert EntryFair(c, n, c.table[n]);
    }
  }

  lemma ChargeIsFair(c: Controller, d: Controller, id: nat)
    requires Fair(c) && OneCharge(c, d, id) && FairTables(c.table, d.table)
    requires d.worker == c.worker || (!Untagged(c.worker) && !Attempted(d.worker) && !d.worker.Crediting? && !Untagged(d.worker))
    requires Attempted(d.worker) ==> d.worker.name in d.table && d.worker.attempt.id != id
    ensures Fair(d)
  {
    ChargeBooks(c, d, id);
    ChargeEntries(c, d, id);
    IssuedGrows(c.ledger, d.ledger);
  }

  lemma ChargeOf(l: R.Ledger, k: R.Ledger, e: R.Event)
    requires k.history == l.history + [e]
    ensures forall id: nat :: R.FailuresOf(k.history, id) == R.FailuresOf(l.history, id) + if e == R.Failed(id) then 1 else 0
  {
    assert k.history[..|l.history|] == l.history;
  }

  /** Recording a failure of attempt `a`. */
  lemma RecordCharges(l: R.Ledger, a: Attempt, now: int, delay: int, cooldownAfter: int, k: R.Ledger)
    requires R.Sound(l) && k == R.RecordFailure(l, a, now, delay, cooldownAfter)
    ensures R.Sound(k) && k.attempts == l.attempts && l.history <= k.history
    ensures forall id: nat :: R.FailuresOf(k.history, id) == R.FailuresOf(l.history, id) + if id == a.id then 1 else 0
  {
    R.FailureKeepsSound(l, a, now, delay, cooldownAfter);
    ChargeOf(l, k, R.Failed(a.id));
  }

  /** While the worker starts a runner, nobody else knows its instance. */
  lemma StartingIsUnknown(c: Controller)
    requires Safe(c) && Fair(c) && Attempted(c.worker)
    ensures forall n | n in c.table && c.table[n].attempt.id == c.worker.attempt.id :: c.table[n].id == NO_ID
  {
    assert Sane(c.worker.name, CellOf(c, c.worker.name), c.world);
  }

  lemma FailEffect(c: Controller, delay: int, d: Controller)
    requires StartNext(c, Fail(delay)).Some? && d == StartNext(c, Fail(delay)).value
    ensures c.worker.Failing? && d.worker.Unprovisioning? && d.table == c.table && d.chores == c.chores
    ensures d.ledger == c.ledger || d.ledger == R.RecordFailure(c.ledger, c.worker.attempt, c.now, delay, c.config.cooldownAfter)
  {}

  lemma FailIsFair(c: Controller, delay: int, d: Controller)
    requires Safe(c) && Fair(c) && StartNext(c, Fail(delay)).Some? && d == StartNext(c, Fail(delay)).value
    ensures Fair(d)
  {
    FailEffect(c, delay, d);
    StartingIsUnknown(c);
    var a := c.worker.attempt;
    if d.ledger != c.ledger {
      RecordCharges(c.ledger, a, c.now, delay, c.config.cooldownAfter, d.ledger);
    }
    ChargeIsFair(c, d, a.id);
  }

  lemma NoteEffect(c: Controller, id: nat, delay: int, d: Controller)
    requires ChoreNext(c, NoteFailure(id), delay).Some? && d == ChoreNext(c, NoteFailure(id), delay).value
    ensures d.table == c.table && d.worker == c.worker && NoteFailure(id) in c.chores
    ensures d.chores == c.chores - multiset{NoteFailure(id)} + multiset{Publish}
    ensures d.ledger == c.ledger || d.ledger == R.RecordFailure(c.ledger, Attempt(id, 0), c.now, delay, c.config.cooldownAfter)
  {}

  /** What is charged already leaves its entry nothing more to fail. */
  lemma ChargedCannotFail(c: Controller, id: nat)
    requires Fair(c) && Charge(c, id) > 0
    ensures forall n | n in c.table && c.table[n].attempt.id == id :: !MayFail(c.table[n])
    ensures Attempted(c.worker) ==> c.worker.attempt.id != id
    ensures 1 <= id <= c.ledger.attempts && Charge(c, id) == 1
  {
    assert Charge(c, id) <= if 1 <= id <= c.ledger.attempts then 1 else 0;
    forall n | n in c.table && c.table[n].attempt.id == id ensures !MayFail(c.table[n]) {
      assert EntryFair(c, n, c.table[n]);
    }
  }

  /** A failure announced by an observer becomes a recorded one, or is dropped. */
  lemma NoteIsFair(c: Controller, id: nat, delay: int, d: Controller)
    requires Fair(c) && ChoreNext(c, NoteFailure(id), delay).Some? && d == ChoreNext(c, NoteFailure(id), delay).value
    ensures Fair(d)
  {
    NoteEffect(c, id, delay, d);
    ChargedCannotFail(c, id);
    if d.ledger != c.ledger {
      RecordCharges(c.ledger, Attempt(id, 0), c.now, delay, c.config.cooldownAfter, d.ledger);
    }
    ChargeIsFair(c, d, id);
  }

  // ------------------------------------------------------------- observers

  lemma KnownIsTagged(c: Controller, n: Name)
    requires Safe(c) && Fair(c) && n in c.table && c.table[n].id != NO_ID
    ensures Issued(c.ledger, c.table[n].attempt)
    ensures Attempted(c.worker) ==> c.worker.attempt.id != c.table[n].attempt.id
    ensures MayFail(c.table[n]) ==> Charge(c, c.table[n].attempt.id) == 0
  {
    assert EntryFair(c, n, c.table[n]);
    assert Sane(n, CellOf(c, n), c.world);
    if Attempted(c.worker) {
      assert Sane(c.worker.name, CellOf(c, c.worker.name), c.world);
    }
  }

  lemma ExitEffect(c: Controller, n: Name, id: Id, seen: nat, d: Controller)
    requires ReportNext(c, Exit(n, id, seen)).Some? && d == ReportNext(c, Exit(n, id, seen)).value
    ensures d.worker == c.worker && d.ledger == c.ledger
    ensures ExitApplies(c.table, n, id) ==>
      && d.table == c.table[n := c.table[n].(phase := Removing, reason := Exited)]
      && d.chores == c.chores + multiset{NoteStale(seen)} +
                     if ExitIsStartFailure(c.table, n) then multiset{NoteFailure(c.table[n].attempt.id)} else multiset{}
    ensures !ExitApplies(c.table, n, id) ==> d == c
    ensures id != NO_ID
  {}

  /** An observer ends an entry's chance to fail, charging its attempt or not. */
  lemma ChargeOrNot(c: Controller, d: Controller, n: Name, j: Instance, charged: bool)
    requires Safe(c) && Fair(c) && n in c.table && c.table[n].id != NO_ID
    requires d.worker == c.worker && d.ledger == c.ledger
    requires d.table == c.table[n := j] && FairKin(c.table[n], j) && !MayFail(j)
    requires charged ==> MayFail(c.table[n])
    requires forall k: nat :: d.chores[NoteFailure(k)] ==
                              c.chores[NoteFailure(k)] + if charged && k == c.table[n].attempt.id then 1 else 0
    requires forall a, w | w in d.chores && Credits(w, a) :: w in c.chores
    ensures Fair(d)
  {
    KnownIsTagged(c, n);
    if charged {
      ChargeIsFair(c, d, c.table[n].attempt.id);
    } else {
      QuietIsFair(c, d);
    }
  }

  lemma ExitIsFair(c: Controller, n: Name, id: Id, seen: nat, d: Controller)
    requires Safe(c) && Fair(c) && ReportNext(c, Exit(n, id, seen)).Some? && d == ReportNext(c, Exit(n, id, seen)).value
    ensures Fair(d)
  {
    ExitEffect(c, n, id, seen, d);
    if ExitApplies(c.table, n, id) {
      KnownIsTagged(c, n);
      EntryIsSane(c, n);
      ChargeOrNot(c, d, n, d.table[n], ExitIsStartFailure(c.table, n));
    }
  }

  lemma ReadinessEffect(c: Controller, n: Name, id: Id, failed: bool, d: Controller)
    requires ReportNext(c, Readiness(n, id, failed)).Some? && d == ReportNext(c, Readiness(n, id, failed)).value
    ensures d.worker == c.worker && d.ledger == c.ledger && id != NO_ID
    ensures d == c || (Matches(c.table, n, id) && c.table[n].phase == Provisioning)
    ensures d != c && failed ==>
      && d.table == c.table[n := c.table[n].(phase := Removing, reason := ReadinessFailed)]
      && d.chores == c.chores + multiset{NoteFailure(c.table[n].attempt.id)}
    ensures d != c && !failed ==>
      && d.table == c.table[n := c.table[n].(phase := Idle)]
      && d.chores == c.chores + multiset{CreditStart(c.table[n].attempt)}
  {}

  /** A chore to credit an attempt that was issued, and nothing charged. */
  lemma CreditedIsFair(c: Controller, d: Controller, a: Attempt)
    requires Fair(c) && (a == NO_ATTEMPT || Issued(c.ledger, a))
    requires d.worker == c.worker && d.ledger == c.ledger && FairTables(c.table, d.table)
    requires Attempted(d.worker) ==> d.worker.name in d.table
    requires forall k: nat :: d.chores[NoteFailure(k)] <= c.chores[NoteFailure(k)]
    requires forall b, w | w in d.chores && Credits(w, b) :: w in c.chores || b == a
    ensures Fair(d)
  {
    var m := d.(chores := c.chores);
    QuietIsFair(c, m);
    BooksCarry(m, d);
    forall k: nat ensures Charge(d, k) <= if 1 <= k <= d.ledger.attempts then 1 else 0 {
      assert Charge(c, k) <= if 1 <= k <= c.ledger.attempts then 1 else 0;
    }
    forall n | n in d.table ensures EntryFair(d, n, d.table[n]) {
      assert EntryFair(m, n, m.table[n]);
    }
  }

  lemma ReadyOrNot(c: Controller, n: Name, failed: bool, d: Controller)
    requires Safe(c) && Fair(c) && n in c.table && c.table[n].id != NO_ID && c.table[n].phase == Provisioning
    requires d.worker == c.worker && d.ledger == c.ledger
    requires d.table == c.table[n := if failed then c.table[n].(phase := Removing, reason := ReadinessFailed)
                                     else c.table[n].(phase := Idle)]
    requires d.chores == c.chores + multiset{if failed then NoteFailure(c.table[n].attempt.id)
                                             else CreditStart(c.table[n].attempt)}
    ensures Fair(d)
  {
    KnownIsTagged(c, n);
    assert EntryFair(c, n, c.table[n]);
    if failed {
      ChargeOrNot(c, d, n, d.table[n], true);
    } else {
      CreditedIsFair(c, d, c.table[n].attempt);
    }
  }

  lemma ReadinessIsFair(c: Controller, n: Name, id: Id, failed: bool, d: Controller)
    requires Safe(c) && Fair(c)
    requires ReportNext(c, Readiness(n, id, failed)).Some? && d == ReportNext(c, Readiness(n, id, failed)).value
    ensures Fair(d)
  {
    ReadinessEffect(c, n, id, failed, d);
    if d != c {
      ReadyOrNot(c, n, failed, d);
    }
  }

  lemma MarksAreFair(t: Table, n: Name, job: JobRef, reason: Reason, result: string)
    ensures FairTables(t, MarkBusy(t, n, job))
    ensures FairTables(t, MarkDone(t, n, reason, result))
  {}

  lemma BusyEffect(c: Controller, r: Report, d: Controller)
    requires ReportNext(c, r).Some? && d == ReportNext(c, r).value
    requires r.DesiredCount? || r.JobStarted? || r.JobFinished?
    ensures d.worker == c.worker && d.ledger == c.ledger && NoCharge(c, d)
    ensures d.table == match r
                       case JobStarted(n, job) => MarkBusy(c.table, n, job)
                       case JobFinished(n, result) => MarkDone(c.table, n, JobCompleted, result)
                       case _ => c.table
  {}

  lemma MarkedIsFair(c: Controller, d: Controller)
    requires Safe(c) && Fair(c) && NoCharge(c, d) && d.worker == c.worker && FairTables(c.table, d.table)
    requires d.table.Keys == c.table.Keys
    ensures Fair(d)
  {
    QuietIsFair(c, d);
  }

  lemma BusyIsFair(c: Controller, r: Report, d: Controller)
    requires Safe(c) && Fair(c) && ReportNext(c, r).Some? && d == ReportNext(c, r).value
    requires r.DesiredCount? || r.JobStarted? || r.JobFinished?
    ensures Fair(d)
  {
    BusyEffect(c, r, d);
    if r.JobStarted? {
      MarksAreFair(c.table, r.name, r.job, NoReason, "");
    } else if r.JobFinished? {
      MarksAreFair(c.table, r.name, NO_JOB, JobCompleted, r.result);
    }
    MarkedIsFair(c, d);
  }

  lemma ReportIsFair(c: Controller, r: Report, d: Controller)
    requires Safe(c) && Fair(c) && ReportNext(c, r).Some? && d == ReportNext(c, r).value
    ensures Fair(d)
  {
    match r
    case Readiness(n, id, failed) => ReadinessIsFair(c, n, id, failed, d);
    case Exit(n, id, seen) => ExitIsFair(c, n, id, seen, d);
    case _ => BusyIsFair(c, r, d);
  }

  // ----------------------------------------------------------------- chores

  lemma LookUpIsFair(c: Controller, n: Name, delay: int, d: Controller)
    requires Safe(c) && Fair(c) && ChoreNext(c, LookUp(n), delay).Some? && d == ChoreNext(c, LookUp(n), delay).value
    ensures Fair(d)
  {
    if n in c.table {
      assert EntryFair(c, n, c.table[n]);
    }
    CreditedIsFair(c, d, AttemptOf(c.table, n));
  }

  lemma PlainChoreBooks(c: Controller, w: Chore, delay: int, d: Controller)
    requires ChoreNext(c, w, delay).Some? && d == ChoreNext(c, w, delay).value && !w.LookUp? && !w.NoteFailure?
    ensures SameBooks(c.ledger, d.ledger)
    ensures d.chores == c.chores - multiset{w} || d.chores == c.chores - multiset{w} + multiset{Publish}
  {}

  lemma PlainChoreEffect(c: Controller, w: Chore, delay: int, d: Controller)
    requires ChoreNext(c, w, delay).Some? && d == ChoreNext(c, w, delay).value && !w.LookUp? && !w.NoteFailure?
    ensures NoCharge(c, d) && d.worker == c.worker && d.table == c.table
  {
    PlainChoreBooks(c, w, delay, d);
    ChoreEffect(c, w, delay, d);
  }

  lemma ChoreIsFair(c: Controller, w: Chore, delay: int, d: Controller)
    requires Safe(c) && Fair(c) && ChoreNext(c, w, delay).Some? && d == ChoreNext(c, w, delay).value
    ensures Fair(d)
  {
    match w
    case LookUp(n) => LookUpIsFair(c, n, delay, d);
    case NoteFailure(id) => NoteIsFair(c, id, delay, d);
    case _ =>
      PlainChoreEffect(c, w, delay, d);
      QuietIsFair(c, d);
  }

  // ------------------------------------------------------------- the worker

  lemma PassBooks(c: Controller, s: PassStep, d: Controller)
    requires PassNext(c, s).Some? && d == PassNext(c, s).value
    ensures SameBooks(c.ledger, d.ledger) && d.chores == c.chores
    ensures !Attached(c.worker) && !Attached(d.worker)
  {}

  lemma PassTables(c: Controller, s: PassStep, d: Controller)
    requires PassNext(c, s).Some? && d == PassNext(c, s).value
    ensures FairTables(c.table, d.table)
  {}

  lemma WaitBooks(c: Controller, s: WaitStep, d: Controller)
    requires WaitNext(c, s).Some? && d == WaitNext(c, s).value
    ensures NoCharge(c, d)
  {}

  lemma BeginIsFair(c: Controller, d: Controller)
    requires Safe(c) && Fair(c) && StartNext(c, BeginAttempt).Some? && d == StartNext(c, BeginAttempt).value
    ensures Fair(d)
  {
    R.BeginKeepsSound(c.ledger);
    IssuedGrows(c.ledger, d.ledger);
    ChargeOf(c.ledger, d.ledger, R.Began(c.ledger.attempts + 1));
    assert R.IssuedAt(d.ledger.history, d.worker.attempt, |c.ledger.history|);
    forall id: nat ensures Charge(d, id) <= if 1 <= id <= d.ledger.attempts then 1 else 0 {
      assert Charge(c, id) <= if 1 <= id <= c.ledger.attempts then 1 else 0;
    }
    assert Charge(c, d.worker.attempt.id) <= 0;
    forall n | n in d.table ensures EntryFair(d, n, d.table[n]) {
      assert EntryFair(c, n, c.table[n]);
    }
    assert Sane(c.worker.name, CellOf(c, c.worker.name), c.world);
  }

  lemma PassIsFair(c: Controller, s: PassStep, d: Controller)
    requires Fair(c) && PassNext(c, s).Some? && d == PassNext(c, s).value
    ensures Fair(d)
  {
    PassBooks(c, s, d);
    PassTables(c, s, d);
    QuietIsFair(c, d);
  }

  lemma WaitIsFair(c: Controller, s: WaitStep, d: Controller)
    requires Fair(c) && WaitNext(c, s).Some? && d == WaitNext(c, s).value
    ensures Fair(d)
  {
    WaitBooks(c, s, d);
    WaitEffect(c, s, d);
    WaitStaysFree(c, s, d);
    QuietIsFair(c, d);
  }

  lemma PickEffect(c: Controller, n: Name, d: Controller)
    requires StartNext(c, Pick(n)).Some? && d == StartNext(c, Pick(n)).value
    ensures c.worker.Naming? && d.ledger == c.ledger && d.chores == c.chores
    ensures n in c.table ==> d.table == c.table && d.worker.Dropping?
    ensures n !in c.table ==> d.table == c.table[n := Fresh(c.worker.lease)] && d.worker == Beginning(n, c.worker.lease)
  {}

  /** An entry just reserved has no attempt yet, and is the only such entry. */
  lemma FreshEntryIsFair(c: Controller, n: Name, lease: nat, d: Controller)
    requires Fair(c) && c.worker.Naming? && n !in c.table
    requires d.ledger == c.ledger && d.chores == c.chores
    requires d.table == c.table[n := Fresh(lease)] && d.worker == Beginning(n, lease)
    ensures Fair(d)
  {
    BooksCarry(c, d);
    QuietCharges(c, d);
    forall k | k in d.table ensures EntryFair(d, k, d.table[k]) && (k in c.table ==> c.table[k].attempt.id != 0) {
      if k in c.table {
        assert EntryFair(c, k, c.table[k]);
      }
    }
  }

  lemma PickIsFair(c: Controller, n: Name, d: Controller)
    requires Fair(c) && StartNext(c, Pick(n)).Some? && d == StartNext(c, Pick(n)).value
    ensures Fair(d)
  {
    PickEffect(c, n, d);
    if n in c.table {
      QuietIsFair(c, d);
    } else {
      FreshEntryIsFair(c, n, c.worker.lease, d);
    }
  }

  lemma TagIsFair(c: Controller, d: Controller)
    requires Safe(c) && Fair(c) && StartNext(c, Tag).Some? && d == StartNext(c, Tag).value
    ensures Fair(d)
  {
    var n := c.worker.name;
    assert Sane(n, CellOf(c, n), c.world);
    BooksCarry(c, d);
    forall k: nat ensures Charge(d, k) <= if 1 <= k <= d.ledger.attempts then 1 else 0 {
      assert Charge(c, k) <= if 1 <= k <= c.ledger.attempts then 1 else 0;
    }
    forall k | k in d.table ensures EntryFair(d, k, d.table[k]) {
      assert EntryFair(c, k, c.table[k]);
    }
  }

  lemma StartQuietly(c: Controller, s: StartStep, d: Controller)
    requires StartNext(c, s).Some? && d == StartNext(c, s).value && (s.Jit? || s.Boot? || s.Return? || s.Unprovision?)
    ensures d.ledger == c.ledger && d.chores == c.chores && !Untagged(c.worker) && !Untagged(d.worker)
    ensures d.table == if s.Unprovision? then FailProvision(c.table, c.worker.name) else c.table
    ensures !s.Unprovision? ==>
      Attempted(c.worker) && Attempted(d.worker) && d.worker.name == c.worker.name && d.worker.attempt == c.worker.attempt
    ensures s.Unprovision? ==> !Attempted(d.worker) && !d.worker.Crediting?
  {}

  lemma StartIsFair(c: Controller, s: StartStep, d: Controller)
    requires Safe(c) && Fair(c) && StartNext(c, s).Some? && d == StartNext(c, s).value
    ensures Fair(d)
  {
    match s
    case Pick(n) => PickIsFair(c, n, d);
    case BeginAttempt => BeginIsFair(c, d);
    case Tag => TagIsFair(c, d);
    case Fail(delay) => FailIsFair(c, delay, d);
    case _ =>
      StartQuietly(c, s, d);
      QuietIsFair(c, d);
  }

  lemma RecordEffect(c: Controller, observed: bool, d: Controller)
    requires Safe(c) && TendNext(c, Record(observed)).Some? && d == TendNext(c, Record(observed)).value
    ensures c.worker.Recording? && c.worker.name in c.table && d.ledger == c.ledger && d.chores == c.chores
    ensures d.table == c.table[c.worker.name :=
              c.table[c.worker.name].(id := c.worker.id, runnerID := c.worker.runnerID,
                phase := if !observed && c.table[c.worker.name].phase == Provisioning then Idle else c.table[c.worker.name].phase)]
    ensures !Attempted(d.worker) && !Untagged(d.worker) && (d.worker.Crediting? ==> d.worker.attempt == c.worker.attempt)
  {
    assert Sane(c.worker.name, CellOf(c, c.worker.name), c.world);
  }

  lemma RecordIsFair(c: Controller, observed: bool, d: Controller)
    requires Safe(c) && Fair(c) && TendNext(c, Record(observed)).Some? && d == TendNext(c, Record(observed)).value
    ensures Fair(d)
  {
    RecordEffect(c, observed, d);
    BooksCarry(c, d);
    forall k: nat ensures Charge(d, k) <= if 1 <= k <= d.ledger.attempts then 1 else 0 {
      assert Charge(c, k) <= if 1 <= k <= c.ledger.attempts then 1 else 0;
    }
    forall k | k in d.table ensures EntryFair(d, k, d.table[k]) {
      assert EntryFair(c, k, c.table[k]);
    }
  }

  lemma AdvanceIsFair(t: Table, w: World, n: Name, r: Removal, m: Move, u: Table)
    requires Advance(t, w, n, r, m).Some? && u == Advance(t, w, n, r, m).value.0
    ensures FairTables(t, u) && u.Keys <= t.Keys && t.Keys <= u.Keys + {n}
  {}

  lemma RemovalBooks(c: Controller, n: Name, m: Move, d: Controller)
    requires RemovalNext(c, n, m).Some? && d == RemovalNext(c, n, m).value
    ensures d.ledger == c.ledger && NoCharge(c, d) && d.worker == c.worker
  {}

  lemma RetryIsFair(t: Table, u: Table, n: Name, id: Id, now: int)
    requires FairTables(t, u)
    ensures FairTables(t, RetryRemoval(u, n, id, now))
  {}

  /** A removal's name is never the one the worker is starting. */
  lemma ElsewhereIsFair(c: Controller, n: Name, d: Controller)
    requires Fair(c) && NoCharge(c, d) && d.worker == c.worker && FairTables(c.table, d.table)
    requires c.table.Keys <= d.table.Keys + {n} && !(Attached(c.worker) && c.worker.name == n)
    ensures Fair(d)
  {
    QuietIsFair(c, d);
  }

  lemma RemovalIsFair(c: Controller, n: Name, m: Move, d: Controller)
    requires Safe(c) && Fair(c) && RemovalNext(c, n, m).Some? && d == RemovalNext(c, n, m).value
    ensures Fair(d)
  {
    var (u, v, p) := Advance(c.table, c.world, n, c.removals[n], m).value;
    RemovalEffect(c, n, m, u, v, p, d);
    RemovalBooks(c, n, m, d);
    AdvanceIsFair(c.table, c.world, n, c.removals[n], m, u);
    RetryIsFair(c.table, u, n, c.removals[n].id, c.now);
    UnderWay(c, n);
    ElsewhereIsFair(c, n, d);
  }

  lemma TendBooks(c: Controller, s: TendStep, d: Controller)
    requires TendNext(c, s).Some? && d == TendNext(c, s).value && !s.Record? && !s.Undo?
    ensures SameBooks(c.ledger, d.ledger) && d.chores == c.chores && FairTables(c.table, d.table)
    ensures !Attempted(c.worker) && !Untagged(c.worker) && !Attempted(d.worker) && !Untagged(d.worker) && !d.worker.Crediting?
  {}

  lemma UndoBooks(c: Controller, m: Move, d: Controller)
    requires TendNext(c, Undo(m)).Some? && d == TendNext(c, Undo(m)).value
    ensures NoCharge(c, d)
    ensures !Attempted(c.worker) && !Untagged(c.worker) && !Attempted(d.worker) && !Untagged(d.worker) && !d.worker.Crediting?
  {}

  lemma TendIsFair(c: Controller, s: TendStep, d: Controller)
    requires Safe(c) && Fair(c) && TendNext(c, s).Some? && d == TendNext(c, s).value
    ensures Fair(d)
  {
    match s
    case Record(observed) => RecordIsFair(c, observed, d);
    case Undo(m) =>
      UndoBooks(c, m, d);
      AdvanceIsFair(c.table, c.world, c.worker.name, c.worker.removal, m, d.table);
      QuietIsFair(c, d);
    case _ =>
      TendBooks(c, s, d);
      QuietIsFair(c, d);
  }

  lemma EventBooks(c: Controller, e: Event, d: Controller)
    requires EventNext(c, e).Some? && d == EventNext(c, e).value
    ensures d.ledger == c.ledger && (d.chores == c.chores || d.chores == c.chores + multiset{Publish})
  {}

  lemma EventIsFair(c: Controller, e: Event, d: Controller)
    requires Fair(c) && EventNext(c, e).Some? && d == EventNext(c, e).value
    ensures Fair(d)
  {
    EventBooks(c, e, d);
    EventEffect(c, e, d);
    QuietIsFair(c, d);
  }

  lemma DrainBooks(c: Controller, e: DrainStep, d: Controller)
    requires DrainNext(c, e).Some? && d == DrainNext(c, e).value
    ensures SameBooks(c.ledger, d.ledger) && d.chores == c.chores && d.worker == c.worker
    ensures FairTables(c.table, d.table) && d.table.Keys == c.table.Keys
  {}

  lemma DrainIsFair(c: Controller, e: DrainStep, d: Controller)
    requires Fair(c) && DrainNext(c, e).Some? && d == DrainNext(c, e).value
    ensures Fair(d)
  {
    DrainBooks(c, e, d);
    QuietIsFair(c, d);
  }

  // -------------------------------------------------------------- every run

  lemma StepIsFair(c: Controller, s: Step, d: Controller)
    requires Safe(c) && Fair(c) && Next(c, s).Some? && d == Next(c, s).value
    ensures Fair(d)
  {
    match s
    case Pass(p) => PassIsFair(c, p, d);
    case Wait(w) => WaitIsFair(c, w, d);
    case Start(p) => StartIsFair(c, p, d);
    case Tend(p) => TendIsFair(c, p, d);
    case Remove(n, m) => RemovalIsFair(c, n, m, d);
    case Tell(r) => ReportIsFair(c, r, d);
    case Carry(w, delay) => ChoreIsFair(c, w, delay, d);
    case Occur(e) => EventIsFair(c, e, d);
    case Wind(e) => DrainIsFair(c, e, d);
  }

  lemma FreshIsFair(config: Config)
    ensures Fair(Initial(config))
  {}

  lemma {:induction false} RunIsFair(config: Config, steps: seq<Step>, c: Controller)
    requires Reaches(config, steps, c)
    ensures Fair(c)
    decreases |steps|
  {
    if steps == [] {
      FreshIsFair(config);
    } else {
      var b, s := LastStep(config, steps, c);
      RunIsFair(config, steps[..|steps| - 1], b);
      RunIsSafe(config, steps[..|steps| - 1], b);
      StepIsFair(b, s, c);
    }
  }

  /** Whatever paths race, an attempt is charged with at most one failure. */
  lemma AtMostOneFailure(config: Config, steps: seq<Step>, c: Controller, id: nat)
    requires Reaches(config, steps, c)
    ensures R.FailuresOf(c.ledger.history, id) <= 1
  {
    RunIsFair(config, steps, c);
    assert Charge(c, id) <= 1;
  }

  /** In every run, crediting the work of an attempt would clear the count and the
      retry deadline exactly when no other attempt has failed since it began. */
  lemma WorkClearsUnlessOthersFailed(config: Config, steps: seq<Step>, c: Controller, a: Attempt, p: nat)
    requires Reaches(config, steps, c) && R.IssuedAt(c.ledger.history, a, p)
    ensures if R.UndisturbedSince(c.ledger.history, p, a)
            then R.Forgives(c.ledger, R.RecordWorkSuccess(c.ledger, a), a.id)
            else R.RecordWorkSuccess(c.ledger, a) == c.ledger
  {
    RunIsFair(config, steps, c);
    AtMostOneFailure(config, steps, c, a.id);
    R.WorkSuccessClears(c.ledger, a, p);
    R.FailuresSplit(c.ledger.history, p, a.id);
  }

  /** A successful start clears them exactly when no attempt at all has failed since. */
  lemma StartClearsUnlessAnyFailed(config: Config, steps: seq<Step>, c: Controller, a: Attempt, p: nat)
    requires Reaches(config, steps, c) && R.IssuedAt(c.ledger.history, a, p)
    ensures if R.UndisturbedSince(c.ledger.history, p, a) && R.FailuresOf(c.ledger.history[p..], a.id) == 0
            then R.Forgives(c.ledger, R.RecordStartSuccess(c.ledger, a), a.id)
            else R.RecordStartSuccess(c.ledger, a) == c.ledger
  {
    RunIsFair(config, steps, c);
    R.StartSuccessClears(c.ledger, a, p);
  }
}
