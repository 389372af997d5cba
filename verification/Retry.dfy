/** Failure accounting of runner starts. `history` records when each attempt
    began, which attempt each recorded failure was charged to, and which attempt's
    success was taken as proof that starting works; the counters the program keeps
    are proved to answer questions about that history. */
module Retry {
  import B = Backoff
  import I = Instances

  datatype Event = Began(id: nat) | Failed(id: nat) | Succeeded(id: nat)

  datatype RetryState = Clear | Backoff | Cooldown

  datatype Ledger = Ledger(
    attempts: nat,
    failures: nat,
    consecutive: nat,
    generation: nat,
    lastFailure: nat,
    nextRetryAt: int,
    state: RetryState,
    history: seq<Event>)

  const EMPTY := Ledger(0, 0, 0, 0, 0, 0, Clear, [])

  // ------------------------------------------------------------- transitions

  function Begin(l: Ledger): (Ledger, I.Attempt) {
    (l.(attempts := l.attempts + 1, history := l.history + [Began(l.attempts + 1)]),
     I.Attempt(l.attempts + 1, l.generation))
  }

  /** A failure charged to attempt `a`, `delay` being the backoff it earns. */
  function RecordFailure(l: Ledger, a: I.Attempt, now: int, delay: int, cooldownAfter: int): Ledger {
    l.(failures := l.failures + 1,
       consecutive := l.consecutive + 1,
       generation := l.generation + 1,
       lastFailure := a.id,
       nextRetryAt := now + delay,
       state := if l.consecutive + 1 >= cooldownAfter then Cooldown else Backoff,
       history := l.history + [Failed(a.id)])
  }

  function ClearRetry(l: Ledger): Ledger {
    l.(nextRetryAt := 0, state := Clear)
  }

  function Cleared(l: Ledger, id: nat): Ledger {
    ClearRetry(l).(consecutive := 0, history := l.history + [Succeeded(id)])
  }

  function RecordStartSuccess(l: Ledger, a: I.Attempt): Ledger {
    if a.generation != l.generation then l else Cleared(l, a.id)
  }

  function RecordWorkSuccess(l: Ledger, a: I.Attempt): Ledger {
    if a.generation == l.generation || (l.generation == a.generation + 1 && l.lastFailure == a.id)
    then Cleared(l, a.id) else l
  }

  function RetryAllowed(l: Ledger, now: int): (Ledger, bool) {
    if now < l.nextRetryAt then (l, false) else (ClearRetry(l), true)
  }

  // ---------------------------------------------------------- what they mean

  function Failures(h: seq<Event>): nat {
    if h == [] then 0 else Failures(h[..|h| - 1]) + if h[|h| - 1].Failed? then 1 else 0
  }

  function FailuresOf(h: seq<Event>, id: nat): nat {
    if h == [] then 0 else FailuresOf(h[..|h| - 1], id) + if h[|h| - 1] == Failed(id) then 1 else 0
  }

  /** The attempt was begun at position `p` and carries the count of failures before it. */
  ghost predicate IssuedAt(h: seq<Event>, a: I.Attempt, p: nat) {
    p < |h| && h[p] == Began(a.id) && a.generation == Failures(h[..p])
  }

  /** The attempt charged with the latest failure, 0 when there is none. */
  function LastFailed(h: seq<Event>): nat {
    if h == [] then 0
    else if h[|h| - 1].Failed? then h[|h| - 1].id
    else LastFailed(h[..|h| - 1])
  }

  /** The failures recorded since the last success, or since the beginning. */
  function Streak(h: seq<Event>): nat {
    if h == [] then 0
    else
      match h[|h| - 1]
      case Began(_) => Streak(h[..|h| - 1])
      case Failed(_) => Streak(h[..|h| - 1]) + 1
      case Succeeded(_) => 0
  }

  ghost predicate Sound(l: Ledger) {
    && l.generation == l.failures == Failures(l.history) && l.consecutive == Streak(l.history)
    && (l.generation > 0 ==> LastFailed(l.history) == l.lastFailure)
  }

  lemma {:induction false} FailuresSplit(h: seq<Event>, p: nat, id: nat)
    requires p <= |h|
    ensures Failures(h) == Failures(h[..p]) + Failures(h[p..])
    ensures FailuresOf(h, id) == FailuresOf(h[..p], id) + FailuresOf(h[p..], id)
    ensures Failures(h[p..]) > 0 ==> LastFailed(h) == LastFailed(h[p..])
  {
    if p == |h| {
      assert h[..p] == h && h[p..] == [];
    } else {
      var init := h[..|h| - 1];
      FailuresSplit(init, p, id);
      assert init[..p] == h[..p];
      assert h[p..][..|h[p..]| - 1] == init[p..];
    }
  }

  lemma {:induction false} OwnFailuresAreFailures(h: seq<Event>, id: nat)
    ensures FailuresOf(h, id) <= Failures(h)
    ensures Failures(h) > 0 && LastFailed(h) == id ==> FailuresOf(h, id) > 0
    ensures Failures(h) == FailuresOf(h, id) > 0 ==> LastFailed(h) == id
  {
    if h != [] {
      OwnFailuresAreFailures(h[..|h| - 1], id);
    }
  }

  lemma {:induction false} NoEarlierFailure(h: seq<Event>, id: nat)
    requires Failures(h) == FailuresOf(h, id)
    ensures forall i | 0 <= i < |h| && h[i].Failed? :: h[i].id == id
  {
    if h != [] {
      var init := h[..|h| - 1];
      OwnFailuresAreFailures(init, id);
      NoEarlierFailure(init, id);
      forall i | 0 <= i < |h| && h[i].Failed? ensures h[i].id == id {
        if i < |init| { assert h[i] == init[i]; }
      }
    }
  }

  lemma {:induction false} AllOwnMeansEqual(h: seq<Event>, id: nat)
    requires forall i | 0 <= i < |h| && h[i].Failed? :: h[i].id == id
    ensures Failures(h) == FailuresOf(h, id)
  {
    if h != [] {
      AllOwnMeansEqual(h[..|h| - 1], id);
    }
  }

  /** No failure of another attempt was recorded since `a` began at `p`. */
  ghost predicate UndisturbedSince(h: seq<Event>, p: nat, a: I.Attempt)
    requires p <= |h|
  {
    forall i | p <= i < |h| && h[i].Failed? :: h[i].id == a.id
  }

  lemma UndisturbedByCount(h: seq<Event>, p: nat, a: I.Attempt)
    requires p <= |h|
    ensures UndisturbedSince(h, p, a) <==> Failures(h[p..]) == FailuresOf(h[p..], a.id)
  {
    if UndisturbedSince(h, p, a) {
      AllOwnMeansEqual(h[p..], a.id);
    }
    if Failures(h[p..]) == FailuresOf(h[p..], a.id) {
      NoEarlierFailure(h[p..], a.id);
      forall i | p <= i < |h| && h[i].Failed? ensures h[i].id == a.id {
        assert h[p..][i - p] == h[i];
      }
    }
  }

  /** From `l` to `k` the success of attempt `id` was taken as proof: no failure
      counts any more, and a start is allowed at once. */
  predicate Forgives(l: Ledger, k: Ledger, id: nat) {
    && k.history == l.history + [Succeeded(id)] && k.consecutive == 0 && k.nextRetryAt == 0 && k.state == Clear
    && k.attempts == l.attempts && k.failures == l.failures && k.generation == l.generation && k.lastFailure == l.lastFailure
  }

  /** A start success clears the count and the deadline exactly when no failure
      at all was recorded since the attempt began. */
  lemma StartSuccessClears(l: Ledger, a: I.Attempt, p: nat)
    requires Sound(l) && IssuedAt(l.history, a, p)
    ensures if UndisturbedSince(l.history, p, a) && FailuresOf(l.history[p..], a.id) == 0
            then Forgives(l, RecordStartSuccess(l, a), a.id) else RecordStartSuccess(l, a) == l
  {
    FailuresSplit(l.history, p, a.id);
    UndisturbedByCount(l.history, p, a);
    OwnFailuresAreFailures(l.history[p..], a.id);
  }

  /** Work clears them exactly when no other attempt failed since this one
      began and this one failed at most once. */
  lemma WorkSuccessClears(l: Ledger, a: I.Attempt, p: nat)
    requires Sound(l) && IssuedAt(l.history, a, p)
    ensures if UndisturbedSince(l.history, p, a) && FailuresOf(l.history[p..], a.id) <= 1
            then Forgives(l, RecordWorkSuccess(l, a), a.id) else RecordWorkSuccess(l, a) == l
  {
    FailuresSplit(l.history, p, a.id);
    UndisturbedByCount(l.history, p, a);
    OwnFailuresAreFailures(l.history[p..], a.id);
  }

  /** After a success that counts, starting is allowed at once, and the next
      failure is the first again: with a validated configuration it waits for at
      most the initial delay, unless a single failure means cooldown. */
  lemma SuccessStartsOver(l: Ledger, k: Ledger, id: nat, b: I.Attempt, now: int, config: B.RetryConfig, sample: real)
    requires Forgives(l, k, id) && now >= 0 && B.Validated(config)
    ensures RetryAllowed(k, now).1
    ensures var delay := B.DelayOf(config, k.consecutive + 1, sample);
            && RecordFailure(k, b, now, delay, config.cooldownAfter).consecutive == 1
            && (config.cooldownAfter > 1 ==> config.initial / 2 <= delay <= config.initial)
  {
    assert B.Pow2(0) == 1 && B.Base(config, 1) == config.initial;
    B.JitterBounds(config.initial, sample);
  }

  /** What a recorded failure holds back: before `now + delay` no start is allowed,
      from then on it is, and asking in vain changes nothing. */
  lemma FailureHoldsBack(l: Ledger, a: I.Attempt, now: int, delay: int, cooldownAfter: int, later: int)
    ensures var k := RecordFailure(l, a, now, delay, cooldownAfter);
            && (RetryAllowed(k, later).1 <==> later >= now + delay)
            && (later < now + delay ==> RetryAllowed(k, later).0 == k)
  {}

  // --------------------------------------------------------- what steps keep

  lemma BeginKeepsSound(l: Ledger)
    requires Sound(l)
    ensures Sound(Begin(l).0) && IssuedAt(Begin(l).0.history, Begin(l).1, |l.history|)
  {
    assert Begin(l).0.history[..|l.history|] == l.history;
  }

  lemma SuccessKeepsSound(l: Ledger, k: Ledger, id: nat)
    requires Sound(l) && Forgives(l, k, id)
    ensures Sound(k)
  {
    assert k.history[..|l.history|] == l.history;
  }

  lemma FailureKeepsSound(l: Ledger, a: I.Attempt, now: int, delay: int, cooldownAfter: int)
    requires Sound(l)
    ensures Sound(RecordFailure(l, a, now, delay, cooldownAfter))
  {
    assert RecordFailure(l, a, now, delay, cooldownAfter).history[..|l.history|] == l.history;
  }

  /** An attempt stays where it was issued while the history grows. */
  lemma IssuedStays(h: seq<Event>, more: seq<Event>, a: I.Attempt, p: nat)
    requires IssuedAt(h, a, p)
    ensures IssuedAt(h + more, a, p)
  {
    assert (h + more)[..p] == h[..p];
  }

  // -------------------------------------------------- the program's own form

  datatype FailureReason =
    | NoFailure | JitConfigFailed | ProviderStartFailed | ReadinessTimeout | ReadinessUnavailable | ExitedBeforeReady

  /** A failure that work of the same attempt disproves. */
  predicate Disprovable(r: FailureReason) {
    r == ReadinessTimeout || r == ReadinessUnavailable || r == ExitedBeforeReady
  }

  class Tracker {
    const config: B.RetryConfig
    var startAttempts: nat
    var startFailures: nat
    var consecutive: nat
    var failureGeneration: nat
    var lastFailureAttempt: nat
    var nextRetryAt: int
    var retryState: RetryState
    var failureReason: FailureReason
    ghost var history: seq<Event>

    ghost function View(): Ledger
      reads this
    {
      Ledger(startAttempts, startFailures, consecutive, failureGeneration,
             lastFailureAttempt, nextRetryAt, retryState, history)
    }

    constructor (config: B.RetryConfig)
      ensures this.config == config && View() == EMPTY && failureReason == NoFailure
    {
      this.config := config;
      startAttempts, startFailures, consecutive, failureGeneration, lastFailureAttempt := 0, 0, 0, 0, 0;
      nextRetryAt, retryState, failureReason, history := 0, Clear, NoFailure, [];
    }

    method RecordStartAttempt() returns (attempt: I.Attempt)
      modifies this
      ensures (View(), attempt) == Begin(old(View())) && failureReason == old(failureReason)
    {
      startAttempts := startAttempts + 1;
      attempt := I.Attempt(startAttempts, failureGeneration);
      history := history + [Began(startAttempts)];
    }

    /** A failure is not reported when the start was cancelled, while draining (read
        before and under the lock), or when the runner has worked meanwhile. */
    method RecordStartFailureFor(attempt: I.Attempt, reason: FailureReason, cancelled: bool, draining: bool,
                                 drainingLocked: bool, hasWork: bool, now: int, sample: real)
      modifies this
      ensures var reported := !cancelled && !draining && !drainingLocked && !(Disprovable(reason) && hasWork);
              && (!reported ==> View() == old(View()) && failureReason == old(failureReason))
              && (reported ==> failureReason == reason && exists delay ::
                    && (B.Validated(config) ==> delay == B.DelayOf(config, old(consecutive) + 1, sample))
                    && View() == RecordFailure(old(View()), attempt, now, delay, config.cooldownAfter))
    {
      if cancelled || draining {
        return;
      }
      if drainingLocked {
        return;
      }
      if (reason == ReadinessTimeout || reason == ReadinessUnavailable || reason == ExitedBeforeReady) && hasWork {
        return;
      }
      startFailures := startFailures + 1;
      consecutive := consecutive + 1;
      failureReason := reason;
      failureGeneration := failureGeneration + 1;
      lastFailureAttempt := attempt.id;
      history := history + [Failed(attempt.id)];
      var delay, _ := B.Delay(consecutive, config, sample);
      nextRetryAt := now + delay;
      retryState := Backoff;
      if consecutive >= config.cooldownAfter {
        retryState := Cooldown;
      }
      assert View() == RecordFailure(old(View()), attempt, now, delay, config.cooldownAfter);
    }

    method ClearRetryLocked()
      modifies this`nextRetryAt, this`retryState
      ensures View() == ClearRetry(old(View()))
    {
      nextRetryAt := 0;
      retryState := Clear;
    }

    method RecordStartSuccessFor(attempt: I.Attempt)
      modifies this
      ensures View() == RecordStartSuccess(old(View()), attempt)
      ensures attempt.generation == old(failureGeneration) ==> consecutive == 0 && nextRetryAt == 0 && retryState == Clear
      ensures failureReason == if attempt.generation == old(failureGeneration) then NoFailure else old(failureReason)
    {
      if attempt.generation != failureGeneration {
        return;
      }
      consecutive := 0;
      failureReason := NoFailure;
      history := history + [Succeeded(attempt.id)];
      ClearRetryLocked();
    }

    method RecordWorkSuccessFor(attempt: I.Attempt)
      modifies this
      ensures View() == RecordWorkSuccess(old(View()), attempt)
      ensures attempt.generation == old(failureGeneration) ||
              (old(failureGeneration) == attempt.generation + 1 && old(lastFailureAttempt) == attempt.id)
              ==> consecutive == 0 && nextRetryAt == 0 && retryState == Clear
      ensures failureReason ==
              if attempt.generation == old(failureGeneration) ||
                 (old(failureGeneration) == attempt.generation + 1 && old(lastFailureAttempt) == attempt.id)
              then NoFailure else old(failureReason)
    {
      var sameGeneration := attempt.generation == failureGeneration;
      var ownFailure := failureGeneration == attempt.generation + 1 && lastFailureAttempt == attempt.id;
      if !sameGeneration && !ownFailure {
        return;
      }
      consecutive := 0;
      failureReason := NoFailure;
      history := history + [Succeeded(attempt.id)];
      ClearRetryLocked();
    }

    method RetryAllowedNow(now: int) returns (allowed: bool)
      modifies this
      ensures (View(), allowed) == RetryAllowed(old(View()), now)
      ensures allowed <==> now >= old(nextRetryAt)
      ensures !allowed ==> View() == old(View())
      ensures allowed ==> nextRetryAt == 0 && retryState == Clear
    {
      if now < nextRetryAt {
        return false;
      }
      ClearRetryLocked();
      allowed := true;
    }
  }
}
