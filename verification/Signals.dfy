/** The controller's own fields for demand and wakeups, as its callbacks and its
    worker change them; each method is one critical section of the controller. */
module Signals {
  import opened Lifecycle

  class Reconciler {
    const config: Config
    var desiredRunners: int
    var desiredRevision: nat
    var pendingCompletions: nat
    var demandStale: bool
    var reconcile: bool
    var cancelAcquire: bool
    var waitCancelled: bool
    ghost var sent: nat

    ghost function Demanded(): Demand
      reads this
    {
      Demand(desiredRunners, desiredRevision, pendingCompletions, demandStale)
    }

    ghost function Bells(): Bell
      reads this
    {
      Bell(reconcile, cancelAcquire, waitCancelled, sent)
    }

    constructor (config: Config)
      ensures this.config == config
      ensures Demanded() == Initial(config).demand && Bells() == Initial(config).bell
    {
      this.config := config;
      desiredRunners, desiredRevision, pendingCompletions, demandStale := 0, 0, 0, false;
      reconcile, cancelAcquire, waitCancelled, sent := false, false, false, 0;
    }

    /** A count is taken in unless a drain has begun or the listener's context has
        ended, when the current number of runners is reported instead. The drain
        flag is read again before the signal. */
    method HandleDesiredRunnerCount(count: int, draining: bool, contextDone: bool, drainingAtSignal: bool, current: nat)
      returns (result: int, failed: bool)
      modifies this`desiredRunners, this`desiredRevision, this`pendingCompletions, this`demandStale,
               this`reconcile, this`waitCancelled, this`sent
      ensures failed == (!draining && contextDone)
      ensures draining || contextDone ==> Demanded() == old(Demanded()) && Bells() == old(Bells()) && result == current
      ensures !draining && !contextDone ==>
        && Demanded() == Refresh(old(Demanded()), count) && MayScale(Demanded())
        && Bells() == (if drainingAtSignal then old(Bells()) else Ring(old(Bells())))
        && result == TargetOf(config, Demanded())
        && result <= config.maxRunners && result <= config.minRunners + count
        && (result == config.maxRunners || result == config.minRunners + count)
    {
      if draining {
        return current, false;
      }
      if contextDone {
        return current, true;
      }
      desiredRunners := count;
      desiredRevision := desiredRevision + 1;
      pendingCompletions := 0;
      demandStale := false;
      SignalReconcile(drainingAtSignal);
      result := TargetRunnerCount();
      failed := false;
    }

    method TargetRunnerCount() returns (target: int)
      ensures target == TargetOf(config, Demanded())
      ensures target <= config.maxRunners && target <= config.minRunners + desiredRunners
      ensures target == config.maxRunners || target == config.minRunners + desiredRunners
    {
      target := config.minRunners + desiredRunners;
      if config.maxRunners < target {
        target := config.maxRunners;
      }
    }

    method ScaleTarget() returns (target: int, canScale: bool)
      ensures target == TargetOf(config, Demanded()) && canScale == MayScale(Demanded())
      ensures target <= config.maxRunners && target <= config.minRunners + desiredRunners
      ensures target == config.maxRunners || target == config.minRunners + desiredRunners
      ensures canScale <==> pendingCompletions == 0 && !demandStale
    {
      target := TargetRunnerCount();
      canScale := pendingCompletions == 0 && !demandStale;
    }

    /** The barrier a completed job raises. */
    method RaiseCompletionBarrier()
      modifies this`pendingCompletions
      ensures Demanded() == AwaitRefresh(old(Demanded())) && !MayScale(Demanded())
    {
      pendingCompletions := pendingCompletions + 1;
    }

    /** The barrier an exit raises, unless a fresh count came in since it was seen. */
    method RaiseExitBarrier(crashRevision: nat)
      modifies this`demandStale
      ensures Demanded() == MarkStale(old(Demanded()), crashRevision)
      ensures desiredRevision == crashRevision ==> !MayScale(Demanded())
    {
      if desiredRevision == crashRevision {
        demandStale := true;
      }
    }

    /** Cancels the wait before it publishes the wakeup. */
    method SignalReconcile(draining: bool)
      modifies this`reconcile, this`waitCancelled, this`sent
      ensures Bells() == if draining then old(Bells()) else Ring(old(Bells()))
    {
      if draining {
        return;
      }
      if cancelAcquire {
        waitCancelled := true;
      }
      reconcile := true;
      sent := sent + 1;
    }

    /** The start of a capacity wait; one that finds a signal in the channel is given up. */
    method BeginWait() returns (signalled: bool)
      modifies this`cancelAcquire, this`waitCancelled, this`sent
      ensures Bells() == HookOn(old(Bells())) && signalled == Bells().wake
      ensures !signalled ==> !Bells().wake && !Bells().cancelled && Bells().sent == 0
    {
      cancelAcquire := true;
      waitCancelled := false;
      sent := 0;
      signalled := reconcile;
    }

    method EndWait()
      modifies this`cancelAcquire
      ensures Bells() == HookOff(old(Bells()))
    {
      cancelAcquire := false;
    }
  }

  /** What the callbacks take in, each as one step: a count, a completion, or an
      exit first seen when the demand was at revision `seen`. */
  datatype Taken = Count(count: int) | Completion | ExitSeen(seen: nat)

  function After(d: Demand, ts: seq<Taken>): Demand {
    if ts == [] then d
    else
      var before := After(d, ts[..|ts| - 1]);
      match ts[|ts| - 1]
      case Count(n) => Refresh(before, n)
      case Completion => AwaitRefresh(before)
      case ExitSeen(seen) => MarkStale(before, seen)
  }

  function Counts(ts: seq<Taken>): nat {
    if ts == [] then 0 else Counts(ts[..|ts| - 1]) + if ts[|ts| - 1].Count? then 1 else 0
  }

  /** The latest count, if one came in at all. */
  function Latest(d: Demand, ts: seq<Taken>): int {
    if ts == [] then d.desired
    else match ts[|ts| - 1]
      case Count(n) => n
      case _ => Latest(d, ts[..|ts| - 1])
  }

  /** A completion, or an exit no count has come in since. */
  predicate Bars(ts: seq<Taken>, i: nat, revision: nat)
    requires i < |ts|
  {
    ts[i].Completion? || (ts[i].ExitSeen? && ts[i].seen == revision + Counts(ts[..i]))
  }

  ghost predicate LiftedAfter(ts: seq<Taken>, i: nat) {
    exists k :: i < k < |ts| && ts[k].Count?
  }

  /** However callbacks follow one another, the demand is the latest count, and
      scaling is allowed if and only if a count came in after every completion and
      every exit that still mattered. */
  lemma {:induction false} OnlyACountLiftsBarriers(d: Demand, ts: seq<Taken>)
    requires MayScale(d)
    ensures After(d, ts).revision == d.revision + Counts(ts) && After(d, ts).desired == Latest(d, ts)
    ensures MayScale(After(d, ts)) <==> forall i | 0 <= i < |ts| && Bars(ts, i, d.revision) :: LiftedAfter(ts, i)
  {
    if ts != [] {
      var m := |ts| - 1;
      var init := ts[..m];
      OnlyACountLiftsBarriers(d, init);
      forall i | 0 <= i < m
        ensures Bars(init, i, d.revision) == Bars(ts, i, d.revision)
        ensures LiftedAfter(ts, i) <==> LiftedAfter(init, i) || ts[m].Count?
      {
        assert init[..i] == ts[..i];
        if LiftedAfter(init, i) {
          var k :| i < k < m && init[k].Count?;
          assert ts[k].Count?;
        }
        if LiftedAfter(ts, i) && !ts[m].Count? {
          var k :| i < k < |ts| && ts[k].Count?;
          assert init[k].Count?;
        }
      }
      assert !LiftedAfter(ts, m);
      assert Bars(ts, m, d.revision) <==> ts[m].Completion? || (ts[m].ExitSeen? && ts[m].seen == After(d, init).revision);
    }
  }
}
