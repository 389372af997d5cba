# Runner lifecycle, capacity and host services: a verified model

runscaler keeps pools of ephemeral CI runners for GitHub runner scale sets. This project models the parts of it
whose correctness depends on interleaving, accounting or exact text, and proves what they promise.

## The protocol

One controller per scale set owns a table of runners (provisioning, idle, busy, removing). Its actors share that table,
the demand, a wakeup channel and a process-wide capacity broker:

- the reconcile worker claims cleanups, scales down, waits for capacity and starts runners;
- removals deregister a runner at GitHub when it looked idle, destroy its instance, forget it and free its lease;
- listener callbacks and observers report demand, assigned and completed jobs, readiness and exits;
- a drain stops the worker, draws a boundary and removes what is left.

`Lifecycle.dfy` is a state machine over their steps: every critical section, and every call to the outside, is one
step, and any other actor may move in between. What a callback still has to do after a lock it has left is kept as a
pending chore, so it too interleaves. GitHub's view of a runner (unregistered, unassigned, assigned, completed,
deregistered), the instances that run and those that have stopped are part of the state, and `RemoveRunner` answers
according to them. `Fleet.dfy` runs all controllers of a process together with the broker they share.

The transitions are functions. The classes (`CapacityBroker.Broker` and `Lease`, `InstanceState.State`,
`Retry.Tracker`, `Signals.Reconciler`) are the program's own imperative form, and each method is proved to be the
transition of the same name; the run theorems are about those transitions.

| file | what it models |
|---|---|
| `Capacity.dfy`, `CapacityBroker.dfy`, `HostLimit.dfy` | the broker: queue, minimum reservations, leases; the limit it is opened with |
| `Instances.dfy`, `InstanceState.dfy` | the table of runners and its transitions |
| `Retry.dfy`, `Backoff.dfy` | failure accounting of starts, and the delays |
| `Lifecycle.dfy`, `Signals.dfy` | the controller's steps; its demand and wakeup fields |
| `LifecycleSafety.dfy` | no job is lost, a drain ends empty, work is not preempted |
| `LifecycleBounds.dfy` | never above the maximum |
| `LifecycleRetry.dfy` | at most one failure per attempt |
| `LifecycleCredits.dfy`, `LostCredit.dfy` | which attempt a callback credits, and a credit that is lost |
| `LifecycleLog.dfy`, `LifecycleBackoff.dfy` | what only grows; backoff is honoured |
| `LifecycleReports.dfy` | what reports bring about, and that every failure is charged |
| `LifecycleDemand.dfy` | starts and removals follow demand |
| `LifecycleRemoval.dfy` | the course of a removal |
| `LifecycleProgress.dfy` | nobody is ever stuck |
| `LifecycleWake.dfy` | no lost wakeup |
| `Fleet.dfy` | leases across controllers and broker |
| `DiskGuard.dfy` | thresholds, the budget pass and the tier ladder |
| `DockerStream.dfy` | the readiness marker search and the bounded frame reader |
| `ConfigMerge.dfy` | configuration inheritance |
| `TartSlots.dfy` | the host's virtual machine slots |
| `Systemd.dfy` | writing a service's command line and reading it back |
| `Counting.dfy`, `Options.dfy` | sizes of sets and maps; values that may be missing |

`dafny verify dfyconfig.toml` verifies the whole project.

## Assumptions about the outside

- The provider is honest: an instance is reported gone, removed or not started only when it does not run, and an
  instance identifier is never given twice.
- GitHub refuses to deregister a runner that holds a job and an unassigned runner it has deregistered gets no job; a
  request whose answer is lost may still have had its effect. It may forget a runner without a job at any time, but not
  one that holds a job. It reports completion only of a completed job.
- A runner name, once used, does not come up again; a name still in the table is the collision the code handles.
- Clocks do not go back. Timers may fire late.

## Where the code and its comments differ

- `internal/diskguard/guard.go:219-221` calls an underflow of the shortfall impossible. It is possible without a
  validated configuration: exactly when the highest tier is below 1 on a filesystem under the floor but above the
  target (`DiskGuard.ShortfallUnderflows`; `DiskGuard.ShortfallCanUnderflow` is an instance). `DiskConfig.Validate`
  rules it out (`DiskGuard.ValidatedShortfallIsPositive`).
- `internal/provider/docker_readiness.go:154-155` cuts the buffer's length to 32 bits before comparing. With a buffer
  of 2^32 bytes or more the read can run past the frame, exactly when `DockerFrames.LimitIsSafe` says so
  (`DockerFrames.LimitCanOverrun` is an instance), and then what is delivered need not be frames any more
  (`DockerFrames.UnsafeLimitBreaksFraming`).
- `internal/provider/tart.go:77-81` promises the host-wide limit on machines. Throughout a run every running machine
  holds a slot, and then the limit is kept (`TartSlots.HeldIsWithinLimit`), if and only if no boot whose agent did not
  answer leaves its machine running (`TartSlots.AlwaysHeldIffNoneLeft`): such a boot
  (`internal/provider/tart.go:359-366`) returns its slot without looking. One such boot need not exceed the limit at
  once, but from then on it can be exceeded without another: at any moment every way to go on without such a boot
  keeps to the limit if and only if no machine abandoned by one still runs (`TartSlots.LimitKeptIffNoneAbandoned`).
  `TartSlots.LimitCanBeExceeded` is a run with two machines on one slot. Everywhere else a slot comes back only
  from a machine that has stopped, as lines 455-457 say (`TartSlots.FreedUnlessLeftRunning`).
- The callbacks note a runner's work and look its attempt up in two steps. A runner forgotten in between earns its
  attempt nothing (`LifecycleCredits.LookUpCreditsIffTracked`), although the credit was due
  (`LostCredit.WorkCanEarnNothing`).

## Model

| member | source | states |
|---|---|---|
| `Capacity.UnmetSplit` | internal/capacity/broker.go:165-178 | The slots owed to groups below their minimum are this group's deficit plus what is owed to the others |
| `Capacity.OvertakenOnlyByMinimum` | internal/capacity/broker.go:146-163 | A request still waiting is passed over only by a group below its minimum, never by another surplus request, because surplus is available to all of them or to none |
| `Capacity.GrantKeepsSound` | internal/capacity/broker.go:126-144 | One grant keeps counters equal to leases, free capacity at least what is owed, and grants in order |
| `Capacity.DispatchKeepsSound` | internal/capacity/broker.go:126-144 | Serving the queue keeps the books, leaves nothing servable or cancelled behind, and loses no request that still waits |
| `Capacity.NothingServable` | internal/capacity/broker.go:126-188 | When serving stops, every waiter's group is at its minimum and what is free equals exactly what is owed; with no limit nobody waits |
| `Capacity.ReleasingKeepsSound` | internal/capacity/broker.go:199-214 | A release keeps the books and serves whoever its slot is for |
| `Capacity.StepKeepsSound` | internal/capacity/broker.go:69-105 | Arrival, withdrawal (before or after the grant) and release each keep all of it |
| `Capacity.WithdrawnIsGone` | internal/capacity/broker.go:91-104 | A withdrawn request, granted or not, is neither waiting nor out any more, and everybody else keeps what they had or were waiting for |
| `Capacity.Run` | internal/capacity/broker.go:69-214 | Over every sequence of operations the broker stays sound and quiescent |
| `Capacity.RunsGrantInArrivalOrder` | internal/capacity/broker.go:146-163 | Over a whole run grants within a group follow arrival, and whoever was granted ahead of an older request was below its group's minimum at that moment |
| `Capacity.MinimumServedAtOnce` | internal/capacity/broker.go:69-105 | A request from a group below its minimum is granted on arrival and changes nothing else |
| `Capacity.SettledStays` | internal/capacity/broker.go:126-188 | Serving a queue that is quiescent changes nothing |
| `Capacity.RegisterKeepsSound` | internal/capacity/broker.go:50-65 | Registering a group within the limit keeps the broker sound; a negative minimum counts as none |
| `CapacityBroker.Broker.Register` | internal/capacity/broker.go:50-65 | A second registration of a name is refused and changes nothing |
| `CapacityBroker.Broker.SurplusAvailable` | internal/capacity/broker.go:165-178 | The loop over the groups answers whether a slot is left once every other group's minimum is covered |
| `CapacityBroker.Broker.NextWaiter` | internal/capacity/broker.go:149-163 | The search finds the first eligible waiter of its class, or none |
| `CapacityBroker.Broker.CompactWaiters` | internal/capacity/broker.go:180-188 | Exactly the cancelled waiters leave the queue, order kept |
| `CapacityBroker.Broker.Dispatch` | internal/capacity/broker.go:126-144 | The loop in place is the dispatch the run theorems are about |
| `CapacityBroker.Broker.Enqueue` | internal/capacity/broker.go:69-89 | An acquisition joins the queue and learns at once whether it was granted |
| `CapacityBroker.Broker.Cancel` | internal/capacity/broker.go:91-104 | A withdrawal marks an ungranted request and serves the rest; a granted one is left for its holder to release |
| `CapacityBroker.Lease.Release` | internal/capacity/broker.go:199-214 | The first release returns the slot and serves the queue, every later one does nothing |
| `HostLimit.EffectiveConcurrent` | internal/config/config.go:646-655 | The process-wide limit is the configured one, or the sum of every set's maximum |
| `HostLimit.ValidateConcurrent` | internal/config/config.go:660-672 | Accepts no limit, or one at least the sum of the minimums |
| `HostLimit.RegistrationOwesMinimums` | cmd/runner/main.go:515-522 | Registering every set owes exactly the sum of the minimums and holds nothing |
| `HostLimit.AcceptedLimitFundsMinimums` | internal/config/config.go:646-672 | The configuration check accepts a limit if and only if the broker opened with it can honour every minimum |
| `Backoff.Delay` | internal/backoff/backoff.go:6-31 | For a validated configuration the loop gives the closed form and never computes a value above the maximum |
| `Backoff.BaseDoubles` | internal/backoff/backoff.go:13-23 | The delay before jitter is min(max, initial * 2^(n-1)), doubling per failure up to the maximum |
| `Backoff.JitterBounds` | internal/backoff/backoff.go:24-30 | For every sample the delay lies between half the base and the base |
| `Backoff.JitterIsShare` | internal/backoff/backoff.go:24-30 | The delay is half the base plus the sample's share of the rest, cut to a whole number |
| `Backoff.JitterEnds` | internal/backoff/backoff.go:24-30 | Sample 0 and below gives half the base, 1 and above the whole |
| `Backoff.JitterGrowsWithSample` | internal/backoff/backoff.go:24-30 | A larger sample never shortens the delay |
| `Backoff.DelayIsMonotone` | internal/backoff/backoff.go:6-31 | For a fixed sample the delay never shrinks from failure to failure, the step into the cooldown included |
| `Instances.SubsidingLowersCount` | internal/controller/state.go:212-226 | Transitions by which no entry appears or becomes counted cannot raise the count |
| `Instances.ReserveRaisesCountByOne` | internal/controller/state.go:78-86 | Reserving a free name raises the count by exactly one |
| `Instances.RetryDelayDoubles` | internal/controller/state.go:425-440 | The first cleanup retry waits 5 s, each further one twice as long, up to 80 s |
| `Instances.CleanupBacksOff` | internal/controller/state.go:413-440 | After its k-th failed cleanup in a row a runner is claimed again from 5 s times 2^(k-1) later on, from the fifth on 80 s, and not before |
| `InstanceState.State.Reserve` | internal/controller/state.go:78-86 | Adds a provisioning entry with its lease, or refuses a name in use |
| `InstanceState.State.FailProvision` | internal/controller/state.go:88-94 | Deletes only an entry whose instance is not known yet |
| `InstanceState.State.SetAttempt` | internal/controller/state.go:155-161 | Tags the entry with its start attempt |
| `InstanceState.State.MarkReady` | internal/controller/state.go:98-111 | Records the instance, makes a provisioning entry idle, and reports a removal that raced the start |
| `InstanceState.State.MarkProvisioned` | internal/controller/state.go:113-127 | Records the instance; keeps the readiness cancel function of an entry that still waits and calls it otherwise |
| `InstanceState.State.ReadinessResult` | internal/controller/state.go:129-144 | Settles a provisioning entry of the same instance once, as idle or as a readiness failure with its diagnostic reason |
| `InstanceState.State.MarkExited` | internal/controller/state.go:181-199 | An exit overrides everything but a removal under way, cancels readiness, records why, and says that the start itself failed exactly when the runner had neither worked nor been found unready |
| `InstanceState.State.HasWork` | internal/controller/state.go:201-210 | Whether an entry of this attempt has worked and not exited |
| `InstanceState.State.Count` | internal/controller/state.go:216-226 | Counts the entries that may still serve work: all but the removals that cannot be called off |
| `InstanceState.State.LifecycleCount` | internal/controller/state.go:242-258 | Counts the entries of a phase |
| `InstanceState.State.MarkBusy` | internal/controller/state.go:277-302 | An assigned job makes an idle or provisioning entry busy and is only noted on an entry being removed as idle; readiness is cancelled either way |
| `InstanceState.State.Deregistration` | internal/controller/state.go:314-322 | Names the GitHub runner to ask for, exactly for removals that only looked idle |
| `InstanceState.State.RestoreBusy` | internal/controller/state.go:327-341 | Calls off an idle removal and clears its cleanup state; fails if the job completed meanwhile |
| `InstanceState.State.MarkDone` | internal/controller/state.go:348-365 | A completion can also take over an idle removal, nothing else overrides a removal; readiness is cancelled |
| `InstanceState.State.MarkIdleAboveTarget` | internal/controller/state.go:372-392 | Above the target some idle entry is chosen for removal, otherwise none |
| `InstanceState.State.IdleForRemoval` | internal/controller/state.go:396-408 | Moves every idle and provisioning entry to removal in one step and returns their names and instances |
| `InstanceState.State.ClaimRemoval` | internal/controller/state.go:413-423 | Claims a due removal that nobody has, if there is one |
| `InstanceState.State.RetryRemoval` | internal/controller/state.go:425-440 | Gives a claimed removal back with its next deadline |
| `InstanceState.State.FinishRemoval` | internal/controller/state.go:442-451 | Forgets a removing entry of the same instance and hands back its lease, reason and job |
| `Retry.StartSuccessClears` | internal/controller/retry.go:46-56 | A start success leaves no failure counted and no deadline exactly when no failure at all was recorded since the attempt began; otherwise it changes nothing |
| `Retry.WorkSuccessClears` | internal/controller/retry.go:86-100 | Work does the same exactly when no other attempt failed since and this one at most once |
| `Retry.SuccessStartsOver` | internal/controller/retry.go:46-73 | After a success that counts a start is allowed at once and the next failure is the first again, waiting at most the initial delay |
| `Retry.FailureHoldsBack` | internal/controller/retry.go:16-73 | A start is allowed from the instant of the last failure plus its delay on, and asking before changes nothing |
| `Retry.FailuresSplit` | internal/controller/retry.go:16-44 | The generation counter measures the failures recorded since any point of the history |
| `Retry.Tracker.RecordStartAttempt` | internal/controller/runtime.go:23-30 | A new attempt gets the next number and the failures recorded so far |
| `Retry.Tracker.RecordStartFailureFor` | internal/controller/retry.go:16-44 | A failure is charged to its attempt and delays the next start, unless the start was cancelled, a drain has begun, or work has disproved it; then nothing changes |
| `Retry.Tracker.RecordStartSuccessFor` | internal/controller/retry.go:46-56 | Without a failure since the attempt began, counter and deadline are reset; the comparison of generations is the rule of StartSuccessClears |
| `Retry.Tracker.RecordWorkSuccessFor` | internal/controller/retry.go:86-100 | Counter and deadline are reset when the two comparisons hold, which are the rule of WorkSuccessClears |
| `Retry.Tracker.RetryAllowedNow` | internal/controller/retry.go:65-73 | Allowed exactly from the deadline on, which is then cleared; before it nothing is changed |
| `Signals.Reconciler.HandleDesiredRunnerCount` | internal/controller/controller.go:143-161 | A fresh count lifts both barriers, signals, and is reported as the smaller of the maximum and the minimum plus the count; a draining or ended listener changes nothing and reports the current number |
| `Signals.Reconciler.TargetRunnerCount` | internal/controller/controller.go:282-287 | The target is the smaller of the maximum and the minimum plus the demand |
| `Signals.Reconciler.ScaleTarget` | internal/controller/controller.go:289-295 | The same target, and scaling is allowed exactly when neither barrier stands |
| `Signals.Reconciler.RaiseCompletionBarrier` | internal/controller/controller.go:193-196 | A completed job forbids scaling until the next count |
| `Signals.Reconciler.RaiseExitBarrier` | internal/controller/controller.go:599-606 | An exit forbids scaling unless a fresh count came in since it was seen |
| `Signals.Reconciler.SignalReconcile` | internal/controller/controller.go:362-378 | A signal cancels the wait and fills the channel; a draining controller ignores it |
| `Signals.Reconciler.BeginWait` | internal/controller/controller.go:384-402 | A wait that finds a signal in the channel is given up before it starts; otherwise channel and wait are clean |
| `Signals.OnlyACountLiftsBarriers` | internal/controller/controller.go:143-208 | With each callback taken as one step, the demand is the latest count, and scaling is allowed if and only if a count came in after every completion and every exit that still mattered |
| `LifecycleSafety.AdvanceEffect` | internal/controller/controller.go:297-360 | Each move of a removal keeps the runner, hands it on, or forgets it only once its instance is gone, and reaches destruction only where that is harmless |
| `LifecycleSafety.PassIsSafe` | internal/controller/controller.go:227-250 | Claiming cleanups and scaling down keep every runner with one owner |
| `LifecycleSafety.StartIsSafe` | internal/controller/controller.go:414-478 | Every stage of a start, failing or not, keeps it so; the unconditional release on failure meets an entry whose instance is unknown |
| `LifecycleSafety.TendIsSafe` | internal/controller/controller.go:479-513 | So does whatever follows a start: an early removal, a drain under way, the removal a draining worker carries out itself |
| `LifecycleSafety.RemovalIsSafe` | internal/controller/controller.go:297-327 | So does every move of every removal |
| `LifecycleSafety.ReportIsSafe` | internal/controller/controller.go:143-208 | So does every callback and observer |
| `LifecycleSafety.DrainIsSafe` | internal/controller/controller.go:631-684 | So does every step of the drain |
| `LifecycleSafety.RunIsSafe` | internal/controller/controller.go:210-684 | All of it holds after every run |
| `LifecycleSafety.DestroyedOnlyWhenHarmless` | internal/controller/controller.go:297-360 | In every run an instance is destroyed only when it has stopped, its runner's job is completed, or GitHub has agreed to let the runner go |
| `LifecycleSafety.NoJobIsLost` | internal/controller/controller.go:329-360 | No running instance whose runner holds an unfinished job, or may still be given one, is ever destroyed |
| `LifecycleSafety.DoneMeansEmpty` | internal/controller/controller.go:631-665 | Once the boundary is drawn, nothing busy and nothing removing means nothing at all |
| `LifecycleSafety.DrainedIsEmpty` | internal/controller/controller.go:631-684 | A drain that reports success has left no runner, no removal and no running instance |
| `LifecycleSafety.BusyIsNotPreempted` | internal/controller/state.go:367-392 | A busy runner stops being busy only by its completion, its exit, a failed start or a start into a drain |
| `LifecycleBounds.PickIsBounded` | internal/controller/controller.go:227-280 | Reserving a name happens only with room below the maximum |
| `LifecycleBounds.StepIsBounded` | internal/controller/controller.go:227-280 | No other step of any actor raises the count |
| `LifecycleBounds.NeverAboveMaximum` | internal/controller/state.go:212-226 | In every run the counted runners, hence the busy ones, stay within the maximum |
| `LifecycleBounds.WorkingIsCounted` | internal/controller/state.go:212-226 | An instance GitHub has given an unfinished job belongs to a counted entry, and is the only one of its runner |
| `LifecycleBounds.JobsWithinMaximum` | internal/controller/state.go:212-226 | By GitHub's own account, never more jobs run at once than the maximum |
| `LifecycleRetry.ExitIsFair` | internal/controller/controller.go:591-620 | An exit never charges an attempt twice |
| `LifecycleRetry.ReadinessIsFair` | internal/controller/readiness.go:11-50 | A readiness result charges or credits the attempt once |
| `LifecycleRetry.FailIsFair` | internal/controller/controller.go:422-427 | A failed start charges its own attempt, which nobody else can have charged |
| `LifecycleRetry.NoteIsFair` | internal/controller/retry.go:16-44 | A failure announced is recorded once or dropped |
| `LifecycleRetry.AtMostOneFailure` | internal/controller/retry.go:16-44 | In every run an attempt is charged with at most one failure across start, readiness and exit |
| `LifecycleRetry.WorkClearsUnlessOthersFailed` | internal/controller/retry.go:84-100 | For every attempt begun in a run, the rule for work would leave no failure counted and no deadline if and only if no other attempt failed since it began |
| `LifecycleRetry.StartClearsUnlessAnyFailed` | internal/controller/retry.go:46-56 | In every run a start success does so if and only if no attempt failed since |
| `LifecycleCredits.CreditsAreIssued` | internal/controller/retry.go:84-100 | What is credited is an attempt begun earlier in the run, or no attempt |
| `LifecycleCredits.LookUpCreditsIffTracked` | internal/controller/controller.go:164-177 | Work noted on a runner credits that runner's attempt, when the callback comes to look it up, if and only if the runner is still in the table |
| `LifecycleCredits.CreditingNoAttemptIsNothing` | internal/controller/retry.go:86-100 | In every reachable state a credit for a forgotten runner changes no counter and no deadline |
| `LifecycleCredits.CreditClearsUnlessOthersFailed` | internal/controller/retry.go:84-100 | A step that credits work leaves no failure counted and no deadline if and only if it found an attempt and no other attempt failed since that one began |
| `LifecycleCredits.StartCreditClearsUnlessAnyFailed` | internal/controller/readiness.go:11-50 | A step that credits a start does so if and only if no attempt at all failed since that one began |
| `LostCredit.WorkCanEarnNothing` | internal/controller/controller.go:170-175 | For every configuration that allows a runner and every runner: a run in which it is forgotten between its work being noted and its attempt being looked up, so that undisturbed work clears nothing |
| `LifecycleReports.CountsWhoMayServe` | internal/controller/state.go:212-226 | In every run the count leaves out exactly the runners whose job is done or whose instance has stopped |
| `LifecycleReports.JobStartIsNoted` | internal/controller/controller.go:164-177 | The start of a job is noted on its runner and earns its attempt a credit, in whatever state the runner was taken for, unless it is known to be on a job or is gone for good |
| `LifecycleReports.RefusalKeepsTheJob` | internal/controller/controller.go:349-356 | A runner GitHub refuses to let go is busy again, with the job noted meanwhile; one whose job has finished meanwhile goes on to be destroyed |
| `LifecycleReports.JobEndIsNoted` | internal/controller/controller.go:180-207 | The end of a job sends its runner to removal without asking GitHub and raises the barrier, once |
| `LifecycleReports.ExitIsCharged` | internal/controller/controller.go:591-620 | An exit of a runner that had neither worked nor been found unready charges its attempt exactly once, which nothing had charged before; any other exit charges nobody |
| `LifecycleReports.ReadinessIsCharged` | internal/controller/readiness.go:11-50 | The first readiness result settles a waiting runner: ready makes it idle and credits its start, not ready removes it and charges its attempt exactly once |
| `LifecycleReports.StartFailureIsCharged` | internal/controller/controller.go:422-427 | A start that fails by itself is on record at once, unless a drain has begun |
| `LifecycleReports.AnnouncedFailureIsRecorded` | internal/controller/retry.go:16-44 | A failure an observer announced is on record exactly once when its callback is done, unless a drain has begun or a runner of the attempt has worked |
| `LifecycleReports.ChargeStands` | internal/controller/retry.go:16-44 | Over whole runs a charge stands, announced or on record, unless at some step a drain or work set it aside |
| `LifecycleReports.WorkIsTheRunners` | internal/controller/state.go:201-210 | Whether an attempt has work to show is decided by its own runner alone |
| `LifecycleBackoff.BackoffIsHonoured` | internal/controller/retry.go:16-73 | After a recorded failure, in every run with no further failure, no success, no satisfied demand and no cancelled work, the worker passes a gate if and only if the failure's delay is over |
| `LifecycleBackoff.CountersTellHistory` | internal/controller/retry.go:16-44 | In every run the counters are the failures recorded, all and since the last success, and the reported state says whether the latter have come to a cooldown |
| `LifecycleDemand.PassFollowsDemand` | internal/controller/controller.go:243-258 | A pass goes on to start a runner exactly when the counted runners are fewer than the maximum and than the demand on top of the minimum, and looks for one to remove exactly when they are more than either |
| `LifecycleDemand.NoPassOnOldDemand` | internal/controller/controller.go:243-246 | A pass ends at once exactly when demand is out of date |
| `LifecycleDemand.StartFollowsDemand` | internal/controller/controller.go:268-273 | With its lease in hand the worker starts a runner only while demand is up to date, no drain has begun and there are still too few |
| `LifecycleDemand.ScaleDownSparesDemand` | internal/controller/state.go:372-392 | The runner chosen for removal is idle, and those left still meet the demand |
| `LifecycleDemand.SurplusIsRemoved` | internal/controller/state.go:372-392 | A surplus is left alone only when no runner is idle, or none is surplus without the removals under way |
| `LifecycleDemand.SatisfiedDemandClears` | internal/controller/retry.go:74-81 | The deadline is lifted exactly when the ready runners meet the demand |
| `LifecycleDemand.ClearingKeepsTheCount` | internal/controller/retry.go:57-64 | Lifting it keeps the count of failures |
| `LifecycleDemand.DrainEndsThePass` | internal/controller/controller.go:228-230 | A pass that finds a drain begun ends there |
| `LifecycleDemand.DrainTakesTheStartBack` | internal/controller/controller.go:488-515 | A runner just started is removed again when a drain has begun, and one removed meanwhile has the next pass rung for |
| `LifecycleDemand.DrainLiftsTheDeadline` | internal/controller/controller.go:731-733 | Cancelling the work lifts the deadline and keeps the count |
| `LifecycleDemand.OnlyACountUpdatesDemand` | internal/controller/controller.go:143-161 | Demand goes out of date by a completion or by an exit no count has come in since, and only a count brings it up to date, as that count |
| `LifecycleRemoval.GitHubIsAskedWhenNeeded` | internal/controller/controller.go:335-345 | GitHub is asked about a runner exactly when it is not gone for good, and only by a known number; without one the removal waits |
| `LifecycleRemoval.AnswerDecides` | internal/controller/controller.go:345-360 | Consent and an unknown runner lead to destruction, a refusal to looking again, no answer to the next try |
| `LifecycleRemoval.DestructionDecides` | internal/controller/controller.go:306-326 | A destroyed instance stays destroyed; a failed destruction is tried again after its backoff |
| `LifecycleRemoval.DestroyedIsForgotten` | internal/controller/controller.go:752-763 | A destroyed runner is forgotten, its own lease about to be handed back |
| `LifecycleRemoval.FreedRings` | internal/controller/controller.go:752-763 | With the lease handed back the removal is over and another pass is rung for |
| `LifecycleRemoval.UndoIsARemoval` | internal/controller/controller.go:497-513 | A removal the worker carries out itself takes the same course |
| `LifecycleProgress.RemovalIsNeverStuck` | internal/controller/controller.go:297-327 | In every reachable state a removal has a next step, and GitHub an answer when it is asked |
| `LifecycleProgress.WorkerIsNeverStuck` | internal/controller/controller.go:210-278 | In every reachable state the worker has a step to take, unless it sleeps with nothing to wake it or has stopped |
| `LifecycleProgress.DrainIsNeverStuck` | internal/controller/controller.go:631-684 | A drain past its boundary succeeds, or a runner is busy, being removed, claimable, or waiting for its next try |
| `LifecycleWake.WaitIsRung` | internal/controller/controller.go:384-403 | The wait is hooked exactly while the worker is in it |
| `LifecycleWake.WaitingMissesNoSignal` | internal/controller/controller.go:362-403 | While a capacity wait goes on uncancelled the channel is empty and no signal has been sent since it was hooked |
| `LifecycleWake.SignalEndsWait` | internal/controller/controller.go:362-378 | A signal during a wait cancels it, stays for the next pass, and lets the worker leave at once |
| `LifecycleWake.NoCleanupIsForgotten` | internal/controller/controller.go:210-222 | Outside a drain, a worker asleep or waiting with nothing left to signal leaves every claimable removal with its own timer set |
| `LifecycleWake.DueRemovalIsHeard` | internal/controller/controller.go:210-250 | A removal that is due always has a pass coming to it, or a timer about to cause one |
| `Fleet.ReleaseSettles` | internal/controller/controller.go:752-760 | A release gives back a lease its group really had out and leaves the other groups' alone |
| `Fleet.StepSettles` | internal/controller/controller.go:414-478 | Every step of a controller moves each lease from one holder to one other, takes a new one, or gives one back |
| `Fleet.RunIsBalanced` | internal/capacity/broker.go:126-214 | In every run of the fleet the broker's books and every controller's holdings agree |
| `Fleet.ControllersRun` | internal/controller/controller.go:210-684 | Within a fleet each controller goes through a run of its own, so every theorem about single controllers applies |
| `Fleet.InUseIsHeld` | internal/controller/state.go:68-70 | A scale set's share of the broker is one lease per runner in its table, one per removal about to free its own, and the one its worker carries |
| `Fleet.EveryLeaseHasOneHolder` | internal/capacity/broker.go:190-214 | Every lease the broker has out is held in exactly one place, by the scale set it was granted to |
| `Fleet.DrainedHoldsNothing` | internal/controller/controller.go:631-684 | A drain that reports success leaves its scale set without a lease |
| `Fleet.HostLimitHolds` | internal/capacity/broker.go:11-16 | All scale sets together never track more runners than the broker counts, nor than the process may run |
| `Fleet.AcceptedConfigurationOpens` | cmd/runner/main.go:515-522 | A process started from an accepted configuration begins as these runs begin |
| `Fleet.MinimumNeverWaits` | internal/capacity/broker.go:69-105 | At any time in any run, a scale set below its minimum has its slot when its request returns |
| `DiskConfig.ValidatedFloorBelowTarget` | internal/config/config.go:730-780 | With a validated configuration the floor never lies above the target, on any filesystem |
| `DiskConfig.PercentageWithinCapacity` | internal/bytesize/threshold.go:82-87 | A percentage never asks for more than the filesystem has |
| `DiskConfig.ThresholdIsExact` | internal/bytesize/threshold.go:82-87 | A percentage asks for the whole bytes in that share of the filesystem, an absolute size for itself on every filesystem |
| `DiskGuard.StopIsUnique` | internal/diskguard/guard.go:175-206 | The tier at which a ladder stops is determined |
| `DiskGuard.LadderEnds` | internal/diskguard/guard.go:175-224 | Healthy means the floor was kept and nothing climbed; reached, that the last look found the target met; short, that no tier is left; every earlier look missed the target |
| `DiskGuard.ValidatedTierExists` | internal/config/config.go:775-780 | A validated configuration climbs to a tier at which some kind of data is reclaimed |
| `DiskGuard.ShortfallUnderflows` | internal/diskguard/guard.go:205-224 | The missing amount is negative exactly when there is no tier to climb on a filesystem above its target |
| `DiskGuard.ShortfallCanUnderflow` | internal/diskguard/guard.go:205-224 | A floor of 20 bytes over a target of 5 with no tier allowed and 10 of 100 bytes free reports five less than nothing as missing |
| `DiskGuard.ValidatedShortfallIsPositive` | internal/config/config.go:719-780 | Under a validated configuration what is reported missing is positive |
| `DiskGuard.PassIsExact` | internal/diskguard/guard.go:183-191 | A tier's pass reclaims exactly the stores whose kind admits the tier, each once |
| `DiskGuard.RungsAreExact` | internal/diskguard/guard.go:182-203 | Climbing to tier k reclaims a store at a tier exactly when that tier was climbed and the kind admits it |
| `DiskGuard.RungsAscend` | internal/diskguard/guard.go:182-203 | Tiers are climbed in ascending order |
| `DiskGuard.RungsLook` | internal/diskguard/guard.go:182-203 | After every tier the filesystem is looked at exactly once more |
| `DiskGuard.MembersAreNamed` | internal/diskguard/guard.go:88-107 | A store belongs to exactly the filesystem its own look named, and to none if that failed |
| `DiskGuard.GroupIsLookedAtByFirst` | internal/diskguard/guard.go:88-107 | A filesystem is looked at by the path of its first store |
| `DiskGuard.Guard.StatByFilesystem` | internal/diskguard/guard.go:88-107 | Each store is looked at once; groups keep order and the first store's path and reading |
| `DiskGuard.Guard.SweepFilesystem` | internal/diskguard/guard.go:175-206 | Reclaims nothing when healthy, else tiers 1..k where k is the first that reached the target or left the filesystem unreadable, or the highest allowed; and reports which |
| `DiskGuard.Guard.EnforceBudgets` | internal/diskguard/guard.go:236-285 | Measures exactly the stores with a budget and wipes exactly those over it that ask for it and may be wiped |
| `DiskGuard.Guard.Sweep` | internal/diskguard/guard.go:142-161 | Budgets, then each filesystem's ladder once; disabled or already sweeping, nothing |
| `DiskGuard.BudgetWipesOnlyCaches` | internal/diskguard/guard.go:251-274 | The budget pass wipes only caches over a budget that says wipe |
| `DiskGuard.BudgetMeasures` | internal/diskguard/guard.go:236-250 | Exactly the stores with a budget are measured, as often as they are listed |
| `DiskGuard.BudgetWipesWhatIsDue` | internal/diskguard/guard.go:251-274 | A store is wiped, right after it was measured, exactly when it is a cache over a budget that asks for it |
| `DiskGuard.SweepRespectsKinds` | internal/cachestore/store.go:39-52 | A whole sweep never reclaims a store at a tier its kind forbids; live hand-off data sees tier 3 and nothing else |
| `DiskGuard.HealthyIsLeftAlone` | internal/diskguard/guard.go:175-179 | With every filesystem healthy and no wipe due, a sweep reclaims nothing |
| `ReadyMarker.SuffixSuffices` | internal/provider/docker_readiness.go:109-119 | Forgetting all but the last characters loses no occurrence of the marker |
| `ReadyMarker.Writer.Write` | internal/provider/docker_readiness.go:109-119 | After any write the marker is found exactly when everything written contains it, and less than the marker's length is kept |
| `ReadyMarker.WriteAll` | internal/provider/docker_readiness.go:104-119 | The result does not depend on how the output is cut into writes |
| `DockerFrames.HeaderRoundTrip` | internal/provider/docker_readiness.go:139-145 | A header is read back as the length it was written for, and accepted exactly up to one mebibyte |
| `DockerFrames.ValidHeaderIsWritten` | internal/provider/docker_readiness.go:139-145 | Every accepted header is the one Docker writes for that stream and length |
| `DockerFrames.LimitIsSafe` | internal/provider/docker_readiness.go:154-156 | The read stays within the frame if and only if the length cut to 32 bits does not pass for a smaller one |
| `DockerFrames.LimitCanOverrun` | internal/provider/docker_readiness.go:154-156 | A buffer of 2^32 bytes overruns a frame with one byte left |
| `DockerFrames.FramingIsUnique` | internal/provider/docker_readiness.go:123-163 | A stream is cut into frames in one way only |
| `DockerFrames.UnsafeLimitBreaksFraming` | internal/provider/docker_readiness.go:154-158 | Whenever the limit is not safe there is an answer of the source that makes the count wrap around and leaves bytes delivered that are no frames at all |
| `DockerFrames.ClaimIsFramed` | internal/provider/docker_readiness.go:131-163 | What was delivered is a prefix of what came in: whole valid frames and, if anything more, the beginning of one whose whole header came in and is valid |
| `DockerFrames.BoundedFrames.TakeHeader` | internal/provider/docker_readiness.go:135-145 | A header is refused if and only if it is cut short, oversized or malformed, before any of it is handed out |
| `DockerFrames.BoundedFrames.CopyHeader` | internal/provider/docker_readiness.go:146-153 | A held-back header is handed out piece by piece, as much as fits; an empty frame ends with it |
| `DockerFrames.BoundedFrames.ReadBody` | internal/provider/docker_readiness.go:154-162 | A body is read up to its announced length, which never underflows while the limit is safe |
| `DockerFrames.BoundedFrames.Read` | internal/provider/docker_readiness.go:131-163 | Each read keeps the claim, touches only the bytes it reports, and delivers nothing of a header it refuses, which is never a valid one |
| `DockerFrames.ReadAll` | internal/provider/docker_readiness.go:123-163 | For every source and every sequence of buffers shorter than 2^32 the bytes delivered are whole valid frames and at most one partial one, and no byte of an invalid header; nothing taken is missing from them but a header held back or refused; an error means a cut or invalid header at the end of what was taken, or a failing source all of whose bytes were delivered; a source that fails only at its end is delivered up to the first place without a valid header, every read bringing something |
| `ConfigMerge.DeepMerge` | internal/config/load.go:198-213 | The two loops compute the key-by-key merge and leave both inputs alone |
| `ConfigMerge.LookupOfMerge` | internal/config/load.go:195-213 | At any depth, what a merge holds at a path depends only on what the two tables hold there and on a leaf of the override in the way |
| `ConfigMerge.OverrideLeafWins` | internal/config/load.go:195-213 | A leaf of the override wins at any depth, zero values included |
| `ConfigMerge.UntouchedSurvives` | internal/config/load.go:195-213 | A base path the override does not touch survives at any depth |
| `ConfigMerge.ScalesetDefaults` | internal/config/load.go:182-193 | Exactly the global-only and identity keys are left out of what is inherited |
| `ConfigMerge.Resolve` | internal/config/load.go:74-101 | A resolved entry is the entry over the top level over the built-in defaults |
| `ConfigMerge.IdentityComesFromEntry` | internal/config/load.go:14-21 | In a resolved entry identity and global-only keys come from that entry alone, at any path |
| `ConfigMerge.CredentialsAreNotInherited` | internal/config/load.go:14-21 | Address, name, credentials, labels and minimum of a scale set, and the process's limit and diagnostics, are among them |
| `ConfigMerge.OthersComeFromFirstThatSets` | internal/config/load.go:85-101 | Every other setting comes from the entry, else the top level, else the built-in defaults |
| `ConfigMerge.RetryDefaultsLieBelow` | internal/config/load.go:74 | A retry setting left alone keeps its default, one that is set wins |
| `TartSlots.StepIsConserved` | internal/provider/tart.go:294-369 | Every path of boot, destruction, late release and removal, of any provider, moves a slot from one owner to one other |
| `TartSlots.SlotsAreConserved` | internal/provider/tart.go:77-103 | In every run free slots, boots and machines make up the limit exactly and no two share a slot |
| `TartSlots.ReleaseNeverBlocks` | internal/provider/tart.go:103 | Whoever holds a slot leaves room for it in the channel |
| `TartSlots.FreedUnlessLeftRunning` | internal/provider/tart.go:455-477 | A slot comes back from an owner whose machine no longer runs, except for exactly the boots that leave their machine running |
| `TartSlots.StoppedIsFreed` | internal/provider/tart.go:455-477 | Destroying a machine known to have stopped, by a command or its exit, returns its slot; one that may run on keeps it until its exit |
| `TartSlots.WaitsOnlyForFailures` | internal/provider/tart.go:468-477 | Nobody waits for the exit of a machine whose destruction has not failed |
| `TartSlots.HeldIffNoneAbandoned` | internal/provider/tart.go:77-81 | At any moment of any run every running machine holds a slot if and only if no machine abandoned by its boot still runs |
| `TartSlots.AlwaysHeldIffNoneLeft` | internal/provider/tart.go:359-366 | Over a whole run every running machine holds a slot throughout if and only if no boot whose agent did not answer left its machine running |
| `TartSlots.HeldIsWithinLimit` | internal/provider/tart.go:77-81 | Then never more machines run than the host allows |
| `TartSlots.AbandonedOverruns` | internal/provider/tart.go:359-366 | While an abandoned machine runs there is a way to go on, without another boot that leaves its machine running, by which more machines run than the limit allows |
| `TartSlots.LimitKeptIffNoneAbandoned` | internal/provider/tart.go:77-81 | At any moment of any run, every way to go on without another boot that leaves its machine running keeps to the limit if and only if no machine abandoned by its boot still runs |
| `TartSlots.LimitCanBeExceeded` | internal/provider/tart.go:359-366 | With one slot, a boot whose machine could be neither stopped nor deleted, and the next boot, leave two machines running |
| `TartSlots.OthersStillAgree` | internal/provider/tart.go:77-81 | What one provider does leaves the records of every other provider on the same coordinator right |
| `TartSlots.Coordinator.constructor` | internal/provider/tart.go:83-92 | The channel starts with every slot once, at least one of them |
| `TartSlots.Coordinator.Acquire` | internal/provider/tart.go:94-101 | Takes the slot at the head of the channel |
| `TartSlots.Provider.BeginBoot` | internal/provider/tart.go:296-301 | A boot begins with the slot at the head of the channel, whatever other providers hold |
| `TartSlots.Provider.PrepareBoot` | internal/provider/tart.go:303-345 | Each stage that fails before the machine is run returns the slot |
| `TartSlots.Provider.FinishBoot` | internal/provider/tart.go:359-368 | A boot whose agent answers keeps the slot with the machine; one whose agent does not returns it, stopped or not |
| `TartSlots.Provider.ReleaseVM` | internal/provider/tart.go:451-453 | Returns a machine's slot the first time only, and never into a full channel |
| `TartSlots.Provider.DestroyVM` | internal/provider/tart.go:455-477 | Returns the slot of a stopped machine, and leaves that of one still running to a waiter |
| `TartSlots.Provider.LateReleaseVM` | internal/provider/tart.go:473-476 | The waiter returns the slot once the machine has exited |
| `TartSlots.Provider.RemoveInstance` | internal/provider/tart.go:540-566 | Keeps a machine that may still run for the next try, and reports whether it could be deleted |
| `Systemd.UnescapeDollars` | cmd/runner/installation.go:440-453 | The loop reads doubled dollars as one and refuses a single one |
| `Systemd.DollarsPairUp` | cmd/runner/installation.go:440-453 | It accepts an argument exactly when every run of dollars in it is of even length |
| `Systemd.TargetFromArgs` | cmd/runner/installation.go:105-133 | Accepts exactly a run of the verified executable with one absolute configuration path, in either spelling of the flag |
| `Systemd.ReadTarget` | cmd/runner/installation.go:440-458 | Undoes the dollars of every argument but the executable, then reads the target |
| `Systemd.EscapedIsRead` | cmd/runner/cmd_service.go:763-771 | An escaped argument is read back inside its quotes as itself, percents and dollars doubled |
| `Systemd.LineIsSplit` | cmd/runner/cmd_service.go:682 | The written line splits into the four words it was made of |
| `Systemd.UndoOneMark` | cmd/runner/cmd_service.go:763-787 | Undoing one doubled character leaves the others doubled |
| `Systemd.WriteAndReadBack` | cmd/runner/cmd_service.go:763-814 | Any accepted executable and any absolute control-free configuration path come back as the same executable and the cleaned path |

## Left out

- Shutdown and its forced removals: it gives up runners on purpose, so job safety is not claimed across it.
- Lifecycle steps over-approximate: observers may report and counts may come in at any time, a retry timer may fire at any time, the chores of one callback may be carried out in any order, and backoff delays and clock readings are arbitrary.
- LifecycleRetry.AtMostOneFailure: the program's 64-bit counters are unbounded here.
- CapacityBroker.Broker: groups and waiters are values in the broker's fields, found by name and ticket, not objects shared with the callers; the channel a waiter is woken by is the question whether its ticket is live.
- InstanceState.State: the records are values in one map field, not shared objects, with cancel functions and diagnostic reasons beside them by name; stored start tokens and the collection of diagnostics are not kept.
- Retry.Tracker.RecordStartFailureFor: the retry timer itself is not kept; it is a step of Lifecycle that is always enabled.
- Fleet.RunIsBalanced: each controller keeps its own clock.
- Backoff.Delay: the sample is a real number, so the rounding of the floating-point product is not modelled, nor 64-bit overflow with an unvalidated configuration.
- DiskConfig.PercentageWithinCapacity: percentages are reals, not floating-point numbers, and thresholds start from their parsed form.
- DiskGuard.Guard.Sweep: the stores' own semaphores, NeedsReclaim and the periodic timer are not modelled; what a store frees is never consulted by the code either.
- DockerFrames.BoundedFrames.Read: nothing is promised after the first refused header, where the code's consumer stops.
- ConfigMerge.Resolve: decoding into structures, unknown-key warnings, retired keys and the extraction of scale set entries are not modelled.
- TartSlots.SlotsAreConserved: warm machines waiting in the pool are machines like any other; the pool channel, provider shutdown and the commands themselves are not modelled. A command that reports success is taken to have stopped its machine, one that fails to have done nothing.
- Systemd.WriteAndReadBack: path cleaning is a parameter; UTF-8 validity, escapes the renderer never writes, other specifiers and the reading of service metadata are not modelled.
- Readiness polling, image pulls, disk checks before a start, diagnostics, metrics, logging, command-line handling and the other service managers: easy members or libraries that cannot be seen.
