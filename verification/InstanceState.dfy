/** The controller's table of runners as the program keeps it: one field changed
    under one lock. Each method is one critical section; the ones that search or
    count walk the table in an order left open, as the program does. */
module InstanceState {
  import Backoff
  import I = Instances

  predicate Waiting(i: I.Instance) {
    i.phase == I.Idle || i.phase == I.Provisioning
  }

  function WaitingIds(t: I.Table): map<I.Name, I.Id> {
    map n | n in t && Waiting(t[n]) :: t[n].id
  }

  /** The boundary drawn for all but the entries in `todo`. */
  predicate BoundaryBut(was: I.Table, todo: set<I.Name>, t: I.Table, moved: map<I.Name, I.Id>) {
    && t.Keys == was.Keys
    && (forall n | n in t :: t[n] == if n in todo then was[n] else I.DrainBoundary(was)[n])
    && (forall n | n in was :: n in moved <==> n !in todo && Waiting(was[n]))
    && (forall n | n in moved :: n in was && moved[n] == was[n].id)
  }

  lemma BoundaryOneMore(was: I.Table, todo: set<I.Name>, t: I.Table, moved: map<I.Name, I.Id>, n: I.Name)
    requires BoundaryBut(was, todo, t, moved) && n in todo && todo <= was.Keys
    ensures t[n] == was[n]
    ensures if Waiting(was[n])
            then BoundaryBut(was, todo - {n}, t[n := was[n].(phase := I.Removing, reason := I.Drained)], moved[n := was[n].id])
            else BoundaryBut(was, todo - {n}, t, moved)
  {}

  lemma BoundaryWhole(was: I.Table, t: I.Table, moved: map<I.Name, I.Id>)
    requires BoundaryBut(was, {}, t, moved)
    ensures t == I.DrainBoundary(was) && moved == WaitingIds(was)
  {}

  const EXITED := "runner_exited_unexpectedly"
  const EXITED_EARLY := "runner_exited_before_ready"

  /** Beside the table, each entry may hold the cancel function of its readiness
      observer, here a token, and a reason for its diagnostics. `cancelled` are the
      cancel functions called so far. */
  class State {
    var instances: I.Table
    var cancels: map<I.Name, nat>
    var diagnoses: map<I.Name, string>
    var cancelled: set<nat>

    constructor ()
      ensures instances == map[] && cancels == map[] && diagnoses == map[] && cancelled == {}
    {
      instances, cancels, diagnoses, cancelled := map[], map[], map[], {};
    }

    /** The readiness observer of an entry, if it has one, as a set of tokens. */
    function Observer(name: I.Name): set<nat>
      reads this`cancels
    {
      if name in cancels then {cancels[name]} else {}
    }

    method CancelReadiness(name: I.Name)
      modifies this`cancelled
      ensures cancelled == old(cancelled) + Observer(name)
    {
      if name in cancels {
        cancelled := cancelled + {cancels[name]};
      }
    }

    method Reserve(name: I.Name, lease: nat) returns (ok: bool)
      modifies this
      ensures (instances, ok) == I.Reserve(old(instances), name, lease) && cancelled == old(cancelled)
      ensures cancels == (if ok then old(cancels) - {name} else old(cancels))
      ensures diagnoses == (if ok then old(diagnoses) - {name} else old(diagnoses))
    {
      if name in instances {
        return false;
      }
      instances := instances[name := I.Fresh(lease)];
      cancels, diagnoses := cancels - {name}, diagnoses - {name};
      ok := true;
    }

    method FailProvision(name: I.Name)
      modifies this`instances
      ensures instances == I.FailProvision(old(instances), name)
    {
      if name in instances && instances[name].id == I.NO_ID {
        instances := instances - {name};
      }
    }

    method SetAttempt(name: I.Name, attempt: I.Attempt)
      modifies this`instances
      ensures instances == I.SetAttempt(old(instances), name, attempt)
    {
      if name in instances {
        instances := instances[name := instances[name].(attempt := attempt)];
      }
    }

    method MarkReady(name: I.Name, instanceID: I.Id, runnerID: int) returns (removeNow: bool, tracked: bool)
      modifies this`instances
      ensures instances == I.MarkReady(old(instances), name, instanceID, runnerID)
      ensures tracked == (name in old(instances)) && removeNow == (tracked && instances[name].phase == I.Removing)
    {
      if name !in instances {
        return false, false;
      }
      var i := instances[name].(id := instanceID, runnerID := runnerID);
      if i.phase == I.Provisioning {
        i := i.(phase := I.Idle);
      }
      instances := instances[name := i];
      return i.phase == I.Removing, true;
    }

    /** The cancel function is kept while the entry waits to become ready, and
        called at once otherwise. */
    method MarkProvisioned(name: I.Name, instanceID: I.Id, runnerID: int, cancel: nat) returns (removing: bool, tracked: bool)
      modifies this`instances, this`cancels, this`cancelled
      ensures instances == I.MarkProvisioned(old(instances), name, instanceID, runnerID)
      ensures tracked == (name in old(instances)) && removing == (tracked && instances[name].phase == I.Removing)
      ensures var waits := tracked && instances[name].phase == I.Provisioning;
              && cancels == (if waits then old(cancels)[name := cancel] else old(cancels))
              && cancelled == old(cancelled) + if tracked && !waits then {cancel} else {}
    {
      if name !in instances {
        return false, false;
      }
      instances := instances[name := instances[name].(id := instanceID, runnerID := runnerID)];
      if instances[name].phase == I.Provisioning {
        cancels := cancels[name := cancel];
      } else {
        cancelled := cancelled + {cancel};
      }
      return instances[name].phase == I.Removing, true;
    }

    /** An empty reason means ready. */
    method ReadinessResult(name: I.Name, instanceID: I.Id, failureReason: string) returns (applied: bool)
      modifies this`instances, this`diagnoses
      ensures (instances, applied) == I.ReadinessResult(old(instances), name, instanceID, failureReason != "")
      ensures diagnoses == if applied && failureReason != "" then old(diagnoses)[name := failureReason] else old(diagnoses)
    {
      if name !in instances || instances[name].id != instanceID || instances[name].phase != I.Provisioning {
        return false;
      }
      var i := instances[name];
      if failureReason != "" {
        i := i.(phase := I.Removing);
        i := i.(reason := I.ReadinessFailed);
        diagnoses := diagnoses[name := failureReason];
      } else {
        i := i.(phase := I.Idle);
      }
      instances := instances[name := i];
      applied := true;
    }

    method MarkExited(name: I.Name, instanceID: I.Id)
      returns (attempt: I.Attempt, unassigned: bool, worked: bool, removed: bool)
      modifies this`instances, this`diagnoses, this`cancelled
      ensures instances == I.MarkExited(old(instances), name, instanceID)
      ensures removed == I.ExitApplies(old(instances), name, instanceID)
      ensures removed ==>
                && attempt == old(instances)[name].attempt && worked == old(instances)[name].worked
                && unassigned == I.ExitIsStartFailure(old(instances), name)
      ensures !removed ==> !unassigned && !worked
      ensures diagnoses == if removed then old(diagnoses)[name := if worked then EXITED else EXITED_EARLY] else old(diagnoses)
      ensures cancelled == old(cancelled) + if removed then Observer(name) else {}
    {
      if name !in instances || instances[name].id != instanceID ||
         (instances[name].phase == I.Removing && instances[name].reason != I.ReadinessFailed) {
        return I.NO_ATTEMPT, false, false, false;
      }
      var i := instances[name];
      unassigned := !i.worked && i.reason != I.ReadinessFailed;
      i := i.(phase := I.Removing);
      i := i.(reason := I.Exited);
      instances := instances[name := i];
      diagnoses := diagnoses[name := EXITED];
      if !i.worked {
        diagnoses := diagnoses[name := EXITED_EARLY];
      }
      CancelReadiness(name);
      return i.attempt, unassigned, i.worked, true;
    }

    method HasWork(attempt: I.Attempt) returns (found: bool)
      ensures found == I.HasWork(instances, attempt)
    {
      var todo := instances.Keys;
      while todo != {}
        invariant todo <= instances.Keys
        invariant forall n | n in instances && n !in todo ::
                    !(instances[n].attempt == attempt && instances[n].worked && instances[n].reason != I.Exited)
        decreases |todo|
      {
        var n :| n in todo;
        var i := instances[n];
        if i.attempt == attempt && i.worked && i.reason != I.Exited {
          return true;
        }
        todo := todo - {n};
      }
      found := false;
    }

    /** Runners that may still serve work. */
    method Count() returns (count: nat)
      ensures count == I.Count(instances)
    {
      count := 0;
      var todo := instances.Keys;
      ghost var all := I.CountedNames(instances);
      while todo != {}
        invariant todo <= instances.Keys
        invariant count == |all - todo|
        decreases |todo|
      {
        var n :| n in todo;
        I.Visit(all, todo, n);
        todo := todo - {n};
        var i := instances[n];
        if i.phase != I.Removing || I.UnassignedRemoval(i) {
          count := count + 1;
        }
      }
      assert all - todo == all;
    }

    method LifecycleCount(phase: I.Phase) returns (count: nat)
      ensures count == |I.InPhase(instances, phase)|
    {
      count := 0;
      var todo := instances.Keys;
      ghost var all := I.InPhase(instances, phase);
      while todo != {}
        invariant todo <= instances.Keys
        invariant count == |all - todo|
        decreases |todo|
      {
        var n :| n in todo;
        I.Visit(all, todo, n);
        todo := todo - {n};
        if instances[n].phase == phase {
          count := count + 1;
        }
      }
      assert all - todo == all;
    }

    method MarkBusy(name: I.Name, job: I.JobRef) returns (ok: bool)
      modifies this`instances, this`cancelled
      ensures instances == I.MarkBusy(old(instances), name, job) && ok == I.BusyApplies(old(instances), name)
      ensures cancelled == old(cancelled) + if ok then Observer(name) else {}
    {
      if name !in instances {
        return false;
      }
      var i := instances[name];
      if i.phase == I.Idle || i.phase == I.Provisioning {
        i := i.(phase := I.Busy);
      } else if !(i.phase == I.Busy && i.job.id == 0) && !I.UnassignedRemoval(i) {
        return false;
      }
      i := i.(job := job);
      i := i.(worked := true);
      instances := instances[name := i];
      CancelReadiness(name);
      ok := true;
    }

    method Deregistration(name: I.Name, instanceID: I.Id) returns (runnerID: int, needed: bool)
      ensures needed == I.NeedsDeregistration(instances, name, instanceID)
      ensures runnerID == if needed then instances[name].runnerID else 0
    {
      if name !in instances || instances[name].id != instanceID || !I.UnassignedRemoval(instances[name]) {
        return 0, false;
      }
      return instances[name].runnerID, true;
    }

    method RestoreBusy(name: I.Name, instanceID: I.Id) returns (ok: bool)
      modifies this`instances
      ensures (instances, ok) == I.RestoreBusy(old(instances), name, instanceID)
    {
      if name !in instances || instances[name].id != instanceID || !I.UnassignedRemoval(instances[name]) {
        return false;
      }
      var i := instances[name];
      i := i.(phase := I.Busy);
      i := i.(worked := true);
      i := i.(reason := I.NoReason);
      i := i.(inFlight := false);
      i := i.(tries := 0);
      i := i.(retryAt := 0);
      instances := instances[name := i];
      ok := true;
    }

    method MarkDone(name: I.Name, reason: I.Reason, result: string) returns (instanceID: I.Id, ready: bool, ok: bool)
      modifies this`instances, this`cancelled
      ensures instances == I.MarkDone(old(instances), name, reason, result)
      ensures ok == I.DoneApplies(old(instances), name, reason)
      ensures instanceID == (if ok then instances[name].id else I.NO_ID) && ready == (instanceID != I.NO_ID)
      ensures cancelled == old(cancelled) + if ok then Observer(name) else {}
    {
      if name !in instances || (instances[name].phase == I.Removing &&
         (reason != I.JobCompleted || !I.UnassignedRemoval(instances[name]))) {
        return I.NO_ID, false, false;
      }
      var i := instances[name];
      i := i.(phase := I.Removing);
      i := i.(reason := reason);
      i := i.(job := i.job.(result := result));
      if reason == I.JobCompleted {
        i := i.(worked := true);
      }
      instances := instances[name := i];
      CancelReadiness(name);
      return i.id, i.id != I.NO_ID, true;
    }

    /** Marks one idle runner for removal when more than `target` runners are
        not being removed; which one is left open. */
    method MarkIdleAboveTarget(target: int) returns (ok: bool)
      modifies this`instances
      ensures ok <==> |I.NotRemoving(old(instances))| > target && I.InPhase(old(instances), I.Idle) != {}
      ensures !ok ==> instances == old(instances)
      ensures ok ==> exists n :: n in I.InPhase(old(instances), I.Idle) && instances == I.ScaleDown(old(instances), n)
    {
      var current := 0;
      var todo := instances.Keys;
      ghost var all := I.NotRemoving(instances);
      while todo != {}
        invariant todo <= instances.Keys
        invariant instances == old(instances) && current == |all - todo|
        decreases |todo|
      {
        var n :| n in todo;
        I.Visit(all, todo, n);
        todo := todo - {n};
        if instances[n].phase != I.Removing {
          current := current + 1;
        }
      }
      assert all - todo == all;
      if current <= target {
        return false;
      }
      todo := instances.Keys;
      while todo != {}
        invariant todo <= instances.Keys
        invariant instances == old(instances) && I.InPhase(instances, I.Idle) <= todo
        decreases |todo|
      {
        var n :| n in todo;
        if instances[n].phase == I.Idle {
          assert n in I.InPhase(instances, I.Idle);
          instances := instances[n := instances[n].(phase := I.Removing, reason := I.ScaledDown)];
          return true;
        }
        todo := todo - {n};
      }
      ok := false;
    }

    /** The drain boundary, taken in one critical section; the result names what it
        moved, with the instances known. */
    method IdleForRemoval() returns (moved: map<I.Name, I.Id>)
      modifies this`instances
      ensures instances == I.DrainBoundary(old(instances))
      ensures moved == WaitingIds(old(instances))
    {
      moved := map[];
      var todo := instances.Keys;
      ghost var was := instances;
      while todo != {}
        invariant todo <= was.Keys && BoundaryBut(was, todo, instances, moved)
        decreases |todo|
      {
        var n :| n in todo;
        var i := instances[n];
        BoundaryOneMore(was, todo, instances, moved, n);
        if i.phase == I.Idle || i.phase == I.Provisioning {
          instances := instances[n := i.(phase := I.Removing, reason := I.Drained)];
          moved := moved[n := i.id];
        }
        todo := todo - {n};
      }
      BoundaryWhole(was, instances, moved);
    }

    /** Gives one due removal to the caller; which one is left open. */
    method ClaimRemoval(now: int) returns (name: I.Name, instanceID: I.Id, ok: bool)
      modifies this`instances
      ensures !ok ==> instances == old(instances) && forall n | n in instances :: !I.Due(instances[n], now)
      ensures ok ==> && name in old(instances) && I.Due(old(instances)[name], now)
                     && instances == I.Claim(old(instances), name) && instanceID == instances[name].id
    {
      var todo := instances.Keys;
      while todo != {}
        invariant todo <= instances.Keys
        invariant forall n | n in instances && n !in todo :: !I.Due(instances[n], now)
        decreases |todo|
      {
        var n :| n in todo;
        var i := instances[n];
        if i.phase == I.Removing && i.id != I.NO_ID && !i.inFlight && !(now < i.retryAt) {
          instances := instances[n := i.(inFlight := true)];
          return n, i.id, true;
        }
        todo := todo - {n};
      }
      return 0, I.NO_ID, false;
    }

    method RetryRemoval(name: I.Name, instanceID: I.Id, now: int) returns (delay: int, tracked: bool)
      modifies this`instances
      ensures instances == I.RetryRemoval(old(instances), name, instanceID, now)
      ensures tracked == I.RetryApplies(old(instances), name, instanceID)
      ensures tracked ==> delay == I.RetryDelay(instances[name].tries) && instances[name].retryAt == now + delay
    {
      if name !in instances || instances[name].phase != I.Removing ||
         instances[name].id != instanceID || !instances[name].inFlight {
        return 0, false;
      }
      var i := instances[name].(inFlight := false);
      i := i.(tries := i.tries + 1);
      delay := 5 * I.SECOND;
      for k := 0 to if i.tries - 1 < 4 then i.tries - 1 else 4
        invariant delay == 5 * I.SECOND * Backoff.Pow2(k)
      {
        delay := delay * 2;
      }
      i := i.(retryAt := now + delay);
      instances := instances[name := i];
      tracked := true;
    }

    /** Forgets a removed runner and hands the caller its lease and what is to be
        said about it. */
    method FinishRemoval(name: I.Name, instanceID: I.Id) returns (lease: nat, reason: I.Reason, job: I.JobRef, ok: bool)
      modifies this`instances
      ensures instances == I.FinishRemoval(old(instances), name, instanceID)
      ensures ok == I.FinishApplies(old(instances), name, instanceID)
      ensures ok ==> lease == old(instances)[name].lease && reason == old(instances)[name].reason && job == old(instances)[name].job
    {
      if name !in instances || instances[name].phase != I.Removing || instances[name].id != instanceID {
        return 0, I.NoReason, I.NO_JOB, false;
      }
      var i := instances[name];
      lease, reason, job := i.lease, i.reason, i.job;
      instances := instances - {name};
      ok := true;
    }
  }
}
