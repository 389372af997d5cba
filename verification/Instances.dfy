/** The controller's table of runners as a value: what each transition of the
    shared state does, and the facts about single transitions that the
    lifecycle proofs build on. */
module Instances {
  import Backoff
  import N = Counting

  /** A runner's name, and the provider's identifier of an instance, are tokens;
      `NO_ID` stands for an identifier not yet known. */
  type Name = nat
  type Id = nat
  const NO_ID: Id := 0

  datatype Phase = Provisioning | Idle | Busy | Removing

  datatype Reason = NoReason | JobCompleted | ScaledDown | Drained | Exited | ReadinessFailed

  datatype JobRef = JobRef(id: nat, name: string, repo: string, runID: int, result: string)

  const NO_JOB := JobRef(0, "", "", 0, "")

  /** A start attempt: its number and the failures recorded before it began. */
  datatype Attempt = Attempt(id: nat, generation: nat)

  const NO_ATTEMPT := Attempt(0, 0)

  /** `id` is unknown until the provider returns it; `runnerID` is 0 while unknown; times are instants of one
      clock that starts at 0. */
  datatype Instance = Instance(
    id: Id,
    runnerID: int,
    phase: Phase,
    lease: nat,
    reason: Reason,
    job: JobRef,
    inFlight: bool,
    tries: nat,
    retryAt: int,
    attempt: Attempt,
    worked: bool)

  type Table = map<Name, Instance>

  function Fresh(lease: nat): Instance {
    Instance(NO_ID, 0, Provisioning, lease, NoReason, NO_JOB, false, 0, 0, NO_ATTEMPT, false)
  }

  // ------------------------------------------------------------ observations

  /** Removed because it looked idle, as opposed to one whose job finished or
      that is known to have stopped. */
  predicate UnassignedRemoval(i: Instance) {
    i.phase == Removing && (i.reason == ScaledDown || i.reason == Drained || i.reason == ReadinessFailed)
  }

  /** May still serve work. */
  predicate Counted(i: Instance) {
    i.phase != Removing || UnassignedRemoval(i)
  }

  function InPhase(t: Table, p: Phase): set<Name> {
    set n | n in t && t[n].phase == p
  }

  function CountedNames(t: Table): set<Name> {
    set n | n in t && Counted(t[n])
  }

  function Count(t: Table): nat {
    |CountedNames(t)|
  }

  function NotRemoving(t: Table): set<Name> {
    set n | n in t && t[n].phase != Removing
  }

  predicate Matches(t: Table, name: Name, id: Id) {
    name in t && t[name].id == id
  }

  predicate Claimable(i: Instance) {
    i.phase == Removing && i.id != NO_ID && !i.inFlight
  }

  predicate Contains(t: Table, name: Name, id: Id) {
    Matches(t, name, id) && (t[name].phase != Removing || t[name].reason == ReadinessFailed)
  }

  function AttemptOf(t: Table, name: Name): Attempt {
    if name in t then t[name].attempt else NO_ATTEMPT
  }

  predicate HasWork(t: Table, a: Attempt) {
    exists n :: n in t && t[n].attempt == a && t[n].worked && t[n].reason != Exited
  }

  // ------------------------------------------------------------- transitions

  function Reserve(t: Table, name: Name, lease: nat): (Table, bool) {
    if name in t then (t, false) else (t[name := Fresh(lease)], true)
  }

  function FailProvision(t: Table, name: Name): Table {
    if name in t && t[name].id == NO_ID then t - {name} else t
  }

  function SetAttempt(t: Table, name: Name, a: Attempt): Table {
    if name in t then t[name := t[name].(attempt := a)] else t
  }

  /** The provider returned the instance and readiness is not observed. */
  function MarkReady(t: Table, name: Name, id: Id, runnerID: int): Table {
    if name !in t then t
    else
      var i := t[name];
      t[name := i.(id := id, runnerID := runnerID, phase := if i.phase == Provisioning then Idle else i.phase)]
  }

  /** The provider returned the instance; it stays provisioning until ready. */
  function MarkProvisioned(t: Table, name: Name, id: Id, runnerID: int): Table {
    if name !in t then t else t[name := t[name].(id := id, runnerID := runnerID)]
  }

  function ReadinessResult(t: Table, name: Name, id: Id, failed: bool): (Table, bool) {
    if !Matches(t, name, id) || t[name].phase != Provisioning then (t, false)
    else if failed then (t[name := t[name].(phase := Removing, reason := ReadinessFailed)], true)
    else (t[name := t[name].(phase := Idle)], true)
  }

  predicate ExitApplies(t: Table, name: Name, id: Id) {
    Matches(t, name, id) && (t[name].phase != Removing || t[name].reason == ReadinessFailed)
  }

  /** The start itself failed: nothing worked and readiness has not said so yet. */
  predicate ExitIsStartFailure(t: Table, name: Name)
    requires name in t
  {
    !t[name].worked && t[name].reason != ReadinessFailed
  }

  function MarkExited(t: Table, name: Name, id: Id): Table {
    if ExitApplies(t, name, id) then t[name := t[name].(phase := Removing, reason := Exited)] else t
  }

  predicate BusyApplies(t: Table, name: Name) {
    && name in t
    && (t[name].phase == Idle || t[name].phase == Provisioning
        || (t[name].phase == Busy && t[name].job.id == 0)
        || UnassignedRemoval(t[name]))
  }

  /** A job was assigned; a removal in progress is left to deregistration. */
  function MarkBusy(t: Table, name: Name, job: JobRef): Table {
    if !BusyApplies(t, name) then t
    else
      var i := t[name];
      t[name := i.(phase := if i.phase == Removing then Removing else Busy, job := job, worked := true)]
  }

  predicate DoneApplies(t: Table, name: Name, reason: Reason) {
    name in t && (t[name].phase == Removing ==> reason == JobCompleted && UnassignedRemoval(t[name]))
  }

  function MarkDone(t: Table, name: Name, reason: Reason, result: string): Table {
    if !DoneApplies(t, name, reason) then t
    else
      var i := t[name];
      t[name := i.(phase := Removing, reason := reason, job := i.job.(result := result),
                   worked := i.worked || reason == JobCompleted)]
  }

  /** The runner ID to deregister, when the removal needs GitHub's consent. */
  predicate NeedsDeregistration(t: Table, name: Name, id: Id) {
    Matches(t, name, id) && UnassignedRemoval(t[name])
  }

  /** GitHub refused: the runner holds a job and its removal is called off. */
  function RestoreBusy(t: Table, name: Name, id: Id): (Table, bool) {
    if !NeedsDeregistration(t, name, id) then (t, false)
    else
      (t[name := t[name].(phase := Busy, worked := true, reason := NoReason,
                          inFlight := false, tries := 0, retryAt := 0)], true)
  }

  /** One surplus idle runner is chosen for removal. */
  function ScaleDown(t: Table, name: Name): Table
    requires name in t && t[name].phase == Idle
  {
    t[name := t[name].(phase := Removing, reason := ScaledDown)]
  }

  /** The drain boundary: nothing idle or still starting is left. */
  function DrainBoundary(t: Table): Table {
    map n | n in t ::
      if t[n].phase == Idle || t[n].phase == Provisioning
      then t[n].(phase := Removing, reason := Drained) else t[n]
  }

  predicate Due(i: Instance, now: int) {
    Claimable(i) && now >= i.retryAt
  }

  function Claim(t: Table, name: Name): Table
    requires name in t
  {
    t[name := t[name].(inFlight := true)]
  }

  predicate RetryApplies(t: Table, name: Name, id: Id) {
    Matches(t, name, id) && t[name].phase == Removing && t[name].inFlight
  }

  const SECOND: int := 1_000_000_000

  /** 5 s, doubled for each earlier failure, at most four times. */
  function RetryDelay(tries: nat): int {
    5 * SECOND * Backoff.Pow2(if tries == 0 then 0 else if tries - 1 < 4 then tries - 1 else 4)
  }

  function RetryRemoval(t: Table, name: Name, id: Id, now: int): Table {
    if !RetryApplies(t, name, id) then t
    else
      var i := t[name];
      t[name := i.(inFlight := false, tries := i.tries + 1, retryAt := now + RetryDelay(i.tries + 1))]
  }

  predicate FinishApplies(t: Table, name: Name, id: Id) {
    Matches(t, name, id) && t[name].phase == Removing
  }

  function FinishRemoval(t: Table, name: Name, id: Id): Table {
    if FinishApplies(t, name, id) then t - {name} else t
  }

  // ---------------------------------------------------- what count can become

  /** No entry appears and none becomes counted: the transitions that are not
      `Reserve` can only lower the count. */
  ghost predicate Subsides(t: Table, u: Table) {
    forall n | n in u && Counted(u[n]) :: n in t && Counted(t[n])
  }

  lemma SubsidingLowersCount(t: Table, u: Table)
    requires Subsides(t, u)
    ensures Count(u) <= Count(t)
  {
    assert CountedNames(u) <= CountedNames(t);
    N.SubsetSize(CountedNames(u), CountedNames(t));
  }

  /** Visiting one more name adds it to the count exactly when it is selected. */
  lemma Visit(all: set<Name>, todo: set<Name>, n: Name)
    requires n in todo
    ensures |all - (todo - {n})| == |all - todo| + if n in all then 1 else 0
  {
    if n in all {
      assert all - (todo - {n}) == all - todo + {n};
    } else {
      assert all - (todo - {n}) == all - todo;
    }
  }

  lemma ReserveRaisesCountByOne(t: Table, name: Name, lease: nat)
    requires name !in t
    ensures Count(Reserve(t, name, lease).0) == Count(t) + 1
  {
    assert CountedNames(Reserve(t, name, lease).0) == CountedNames(t) + {name};
  }

  /** The first delay is 5 s; each further one doubles, up to 80 s. */
  lemma RetryDelayDoubles(tries: nat)
    requires tries >= 1
    ensures RetryDelay(1) == 5 * SECOND
    ensures RetryDelay(tries + 1) == if 2 * RetryDelay(tries) < 80 * SECOND then 2 * RetryDelay(tries) else 80 * SECOND
    ensures 5 * SECOND <= RetryDelay(tries) <= RetryDelay(tries + 1) <= 80 * SECOND
  {
    assert Backoff.Pow2(0) == 1 && Backoff.Pow2(1) == 2 && Backoff.Pow2(2) == 4 && Backoff.Pow2(3) == 8 && Backoff.Pow2(4) == 16;
  }

  /** The entry of `n` after cleanups of it were claimed and failed at `times`. */
  function FailedCleanups(t: Table, n: Name, id: Id, times: seq<int>): (u: Table)
    requires n in t
    ensures u.Keys == t.Keys
  {
    if times == [] then t
    else RetryRemoval(Claim(FailedCleanups(t, n, id, times[..|times| - 1]), n), n, id, times[|times| - 1])
  }

  /** Its k-th failed cleanup in a row keeps a runner from being claimed again for
      5 s times 2^(k-1), from the fifth on for 80 s. */
  lemma {:induction false} CleanupBacksOff(t: Table, n: Name, id: Id, times: seq<int>)
    requires Matches(t, n, id) && Claimable(t[n]) && t[n].tries == 0
    ensures var i := FailedCleanups(t, n, id, times)[n]; i.tries == |times| && i.id == id && Claimable(i)
    ensures times != [] ==>
              var i, k := FailedCleanups(t, n, id, times)[n], |times|;
              var delay := if k < 5 then 5 * SECOND * Backoff.Pow2(k - 1) else 80 * SECOND;
              forall now :: Due(i, now) <==> now >= times[k - 1] + delay
  {
    if times != [] {
      CleanupBacksOff(t, n, id, times[..|times| - 1]);
      assert Backoff.Pow2(4) == 16;
    }
  }
}
