/** The host-wide virtual machine slots: every slot index is in the channel, or
    with one boot in progress, or with one machine, never in two places; and what
    that means for the number of machines that run. */
module TartSlots {
  import N = Counting
  import opened Options

  type Name = nat

  /** A machine, from the beginning of its boot: the provider that boots it and a
      number of its own. */
  datatype Machine = Machine(provider: nat, number: nat)

  /** `released` is the once of the slot's return; `doomed` says that destroying
      the machine failed and somebody waits for it to exit. */
  datatype VM = VM(slot: nat, released: bool, doomed: bool)

  /** All providers of a process and the host they share. `launched` are the
      machines ever run, `running` those that run, `exited` those whose run command
      has returned. */
  datatype Host = Host(
    limit: nat,
    free: seq<nat>,
    boots: map<Machine, nat>,
    vms: map<Machine, VM>,
    active: map<(nat, Name), Machine>,
    launched: set<Machine>,
    running: set<Machine>,
    exited: set<Machine>)

  function Opened(limit: int): Host {
    var n := if limit < 1 then 1 else limit;
    Host(n, seq(n, i => i), map[], map[], map[], {}, {}, {})
  }

  /** The stages of a boot before the machine is run. Resources are set only when
      configured, and a fixed address that cannot be set fails only a bridged boot. */
  datatype Stages = Stages(cloned: bool, configured: bool, resourcesSet: bool, addressSet: bool, bridged: bool)

  predicate Prepared(s: Stages) {
    s.cloned && (s.configured ==> s.resourcesSet) && (s.addressSet || !s.bridged)
  }

  /** `stopped` and `deleted` say whether the commands to stop and to delete the
      machine succeeded. */
  datatype Step =
    | Acquire(machine: Machine)
    | Prepare(machine: Machine, stages: Stages)
    | AwaitAgent(machine: Machine, ready: bool, stopped: bool, deleted: bool)
    | Exit(machine: Machine)
    | Destroy(machine: Machine, stopped: bool, deleted: bool)
    | LateRelease(machine: Machine)
    | Activate(machine: Machine, name: Name)
    | Remove(provider: nat, name: Name, stopped: bool, deleted: bool)

  /** A command that succeeds leaves the machine stopped; one that fails says nothing. */
  function Halted(running: set<Machine>, m: Machine, stopped: bool, deleted: bool): set<Machine> {
    if stopped || deleted then running - {m} else running
  }

  function Released(h: Host, m: Machine): Host
    requires m in h.vms
  {
    if h.vms[m].released then h
    else h.(vms := h.vms[m := h.vms[m].(released := true)], free := h.free + [h.vms[m].slot])
  }

  function BootFailed(h: Host, m: Machine): Host
    requires m in h.boots
  {
    h.(boots := h.boots - {m}, free := h.free + [h.boots[m]])
  }

  function PrepareEnded(h: Host, m: Machine, stages: Stages): Host
    requires m in h.boots
  {
    if Prepared(stages) then h.(launched := h.launched + {m}, running := h.running + {m}) else BootFailed(h, m)
  }

  /** A boot whose agent does not answer tries to stop and delete its machine, and
      puts the slot back whatever comes of that. */
  function AgentAwaited(h: Host, m: Machine, ready: bool, stopped: bool, deleted: bool): Host
    requires m in h.boots
  {
    if ready then h.(boots := h.boots - {m}, vms := h.vms[m := VM(h.boots[m], false, false)])
    else BootFailed(h, m).(running := Halted(h.running, m, stopped, deleted))
  }

  predicate KnownStopped(h: Host, m: Machine, stopped: bool, deleted: bool) {
    stopped || deleted || m in h.exited
  }

  function Destroyed(h: Host, m: Machine, stopped: bool, deleted: bool): Host
    requires m in h.vms
  {
    var k := h.(running := Halted(h.running, m, stopped, deleted));
    if KnownStopped(h, m, stopped, deleted) then Released(k, m) else k.(vms := k.vms[m := k.vms[m].(doomed := true)])
  }

  /** A removal that cannot tell whether its machine stopped keeps it, for the next try. */
  function Removed(h: Host, p: nat, n: Name, stopped: bool, deleted: bool): Host {
    if (p, n) in h.active && h.active[(p, n)] in h.vms && KnownStopped(h, h.active[(p, n)], stopped, deleted)
    then
      var m := h.active[(p, n)];
      Released(h.(active := h.active - {(p, n)}, running := Halted(h.running, m, stopped, deleted)), m)
    else h
  }

  predicate Enabled(h: Host, s: Step) {
    match s
    case Acquire(m) => h.free != [] && m !in h.boots && m !in h.vms && m !in h.launched
    case Prepare(m, _) => m in h.boots && m !in h.launched
    case AwaitAgent(m, _, _, _) => m in h.boots && m in h.launched
    case Exit(m) => m in h.launched
    case Destroy(m, _, _) => m in h.vms
    case LateRelease(m) => m in h.vms && h.vms[m].doomed && m in h.exited
    case Activate(m, _) => m in h.vms
    case Remove(_, _, _, _) => true
  }

  function Next(h: Host, s: Step): Host
    requires Enabled(h, s)
  {
    match s
    case Acquire(m) => h.(free := h.free[1..], boots := h.boots[m := h.free[0]])
    case Prepare(m, stages) => PrepareEnded(h, m, stages)
    case AwaitAgent(m, ready, stopped, deleted) => AgentAwaited(h, m, ready, stopped, deleted)
    case Exit(m) => h.(running := h.running - {m}, exited := h.exited + {m})
    case Destroy(m, stopped, deleted) => Destroyed(h, m, stopped, deleted)
    case LateRelease(m) => Released(h, m)
    case Activate(m, n) => h.(active := h.active[(m.provider, n) := m])
    case Remove(p, n, stopped, deleted) => Removed(h, p, n, stopped, deleted)
  }

  // ------------------------------------------------------------ conservation

  datatype Owner = InChannel(slot: nat) | OfBoot(boot: Machine) | OfVm(vm: Machine)

  function SlotOf(h: Host, o: Owner): Option<nat> {
    match o
    case InChannel(s) => if s in h.free then Some(s) else None
    case OfBoot(m) => if m in h.boots then Some(h.boots[m]) else None
    case OfVm(m) => if m in h.vms && !h.vms[m].released then Some(h.vms[m].slot) else None
  }

  predicate Distinct(s: seq<nat>) {
    forall i, j | 0 <= i < j < |s| :: s[i] != s[j]
  }

  ghost predicate Owned(h: Host, s: nat) {
    exists o :: SlotOf(h, o) == Some(s)
  }

  /** Every slot has exactly one owner, and is in the channel at most once. */
  ghost predicate Conserved(h: Host) {
    && Distinct(h.free)
    && (forall o | SlotOf(h, o).Some? :: SlotOf(h, o).value < h.limit)
    && (forall s: nat | s < h.limit :: Owned(h, s))
    && (forall o, q | SlotOf(h, o).Some? && SlotOf(h, o) == SlotOf(h, q) :: o == q)
  }

  ghost predicate SameOwners(h: Host, k: Host) {
    k.limit == h.limit && k.free == h.free && forall o :: SlotOf(k, o) == SlotOf(h, o)
  }

  /** One slot passes from `o` to `q`. */
  ghost predicate Passes(h: Host, k: Host, o: Owner, q: Owner) {
    && k.limit == h.limit && Distinct(k.free)
    && SlotOf(h, o).Some? && SlotOf(h, q).None?
    && SlotOf(k, q) == SlotOf(h, o) && SlotOf(k, o).None?
    && forall x | x != o && x != q :: SlotOf(k, x) == SlotOf(h, x)
  }

  lemma SameIsConserved(h: Host, k: Host)
    requires Conserved(h) && SameOwners(h, k)
    ensures Conserved(k)
  {
    forall s: nat | s < k.limit ensures Owned(k, s) {
      assert Owned(h, s);
      var o :| SlotOf(h, o) == Some(s);
      assert SlotOf(k, o) == Some(s);
    }
  }

  lemma PassingIsConserved(h: Host, k: Host, o: Owner, q: Owner)
    requires Conserved(h) && Passes(h, k, o, q)
    ensures Conserved(k)
  {
    forall s: nat | s < k.limit ensures Owned(k, s) {
      assert Owned(h, s);
      var x :| SlotOf(h, x) == Some(s);
      assert SlotOf(k, if x == o then q else x) == Some(s);
    }
  }

  lemma AcquirePasses(h: Host, m: Machine)
    requires Conserved(h) && Enabled(h, Acquire(m))
    ensures Passes(h, Next(h, Acquire(m)), InChannel(h.free[0]), OfBoot(m))
  {
    var k := Next(h, Acquire(m));
    assert h.free == [h.free[0]] + k.free;
  }

  lemma ReleasePasses(h: Host, m: Machine)
    requires Conserved(h) && m in h.vms
    ensures if h.vms[m].released then Released(h, m) == h
            else Passes(h, Released(h, m), OfVm(m), InChannel(h.vms[m].slot))
  {
    assert SlotOf(h, OfVm(m)).Some? ==> SlotOf(h, InChannel(h.vms[m].slot)).None?;
  }

  lemma FailurePasses(h: Host, m: Machine)
    requires Conserved(h) && m in h.boots
    ensures Passes(h, BootFailed(h, m), OfBoot(m), InChannel(h.boots[m]))
  {
    assert SlotOf(h, OfBoot(m)).Some? && SlotOf(h, InChannel(h.boots[m])).None?;
  }

  lemma ReleaseIsConserved(h: Host, m: Machine)
    requires Conserved(h) && m in h.vms
    ensures Conserved(Released(h, m))
  {
    ReleasePasses(h, m);
    if !h.vms[m].released {
      PassingIsConserved(h, Released(h, m), OfVm(m), InChannel(h.vms[m].slot));
    }
  }

  lemma FailureIsConserved(h: Host, m: Machine)
    requires Conserved(h) && m in h.boots
    ensures Conserved(BootFailed(h, m))
  {
    FailurePasses(h, m);
    PassingIsConserved(h, BootFailed(h, m), OfBoot(m), InChannel(h.boots[m]));
  }

  lemma AgentIsConserved(h: Host, m: Machine, ready: bool, stopped: bool, deleted: bool)
    requires Conserved(h) && m in h.boots && m !in h.vms
    ensures Conserved(AgentAwaited(h, m, ready, stopped, deleted))
  {
    var k := AgentAwaited(h, m, ready, stopped, deleted);
    if ready {
      assert SlotOf(h, OfBoot(m)).Some?;
      PassingIsConserved(h, k, OfBoot(m), OfVm(m));
    } else {
      FailureIsConserved(h, m);
      SameIsConserved(BootFailed(h, m), k);
    }
  }

  lemma DestroyIsConserved(h: Host, m: Machine, stopped: bool, deleted: bool)
    requires Conserved(h) && m in h.vms
    ensures Conserved(Destroyed(h, m, stopped, deleted))
  {
    var k := h.(running := Halted(h.running, m, stopped, deleted));
    SameIsConserved(h, k);
    if KnownStopped(h, m, stopped, deleted) {
      ReleaseIsConserved(k, m);
    } else {
      SameIsConserved(k, Destroyed(h, m, stopped, deleted));
    }
  }

  lemma RemoveIsConserved(h: Host, p: nat, n: Name, stopped: bool, deleted: bool)
    requires Conserved(h)
    ensures Conserved(Removed(h, p, n, stopped, deleted))
  {
    if (p, n) in h.active && h.active[(p, n)] in h.vms && KnownStopped(h, h.active[(p, n)], stopped, deleted) {
      var m := h.active[(p, n)];
      var k := h.(active := h.active - {(p, n)}, running := Halted(h.running, m, stopped, deleted));
      SameIsConserved(h, k);
      ReleaseIsConserved(k, m);
    }
  }

  // ----------------------------------------------------- where machines are

  /** A machine that runs was launched and has not exited, and does not run on
      after its own destruction has put its slot back. */
  ghost predicate Placed(h: Host) {
    && h.running + h.exited <= h.launched && h.running !! h.exited
    && h.boots.Keys !! h.vms.Keys && h.vms.Keys <= h.launched
    && (forall m | m in h.vms && m in h.running :: !h.vms[m].released)
    && (forall k | k in h.active :: h.active[k] in h.vms && h.active[k].provider == k.0)
  }

  ghost predicate Sound(h: Host) {
    Conserved(h) && Placed(h)
  }

  lemma StepIsConserved(h: Host, s: Step)
    requires Sound(h) && Enabled(h, s)
    ensures Conserved(Next(h, s))
  {
    match s
    case Acquire(m) =>
      AcquirePasses(h, m);
      PassingIsConserved(h, Next(h, s), InChannel(h.free[0]), OfBoot(m));
    case Prepare(m, stages) =>
      if Prepared(stages) {
        SameIsConserved(h, Next(h, s));
      } else {
        FailureIsConserved(h, m);
      }
    case AwaitAgent(m, ready, stopped, deleted) => AgentIsConserved(h, m, ready, stopped, deleted);
    case Destroy(m, stopped, deleted) => DestroyIsConserved(h, m, stopped, deleted);
    case LateRelease(m) => ReleaseIsConserved(h, m);
    case Remove(p, n, stopped, deleted) => RemoveIsConserved(h, p, n, stopped, deleted);
    case _ => SameIsConserved(h, Next(h, s));
  }

  lemma DestroyIsPlaced(h: Host, m: Machine, stopped: bool, deleted: bool)
    requires Placed(h) && m in h.vms
    ensures Placed(Destroyed(h, m, stopped, deleted))
  {}

  lemma RemoveIsPlaced(h: Host, p: nat, n: Name, stopped: bool, deleted: bool)
    requires Placed(h)
    ensures Placed(Removed(h, p, n, stopped, deleted))
  {}

  lemma BootIsPlaced(h: Host, s: Step)
    requires Placed(h) && Enabled(h, s) && (s.Acquire? || s.Prepare? || s.AwaitAgent?)
    ensures Placed(Next(h, s))
  {}

  lemma StepIsPlaced(h: Host, s: Step)
    requires Placed(h) && Enabled(h, s)
    ensures Placed(Next(h, s)) && Next(h, s).limit == h.limit
  {
    match s
    case Destroy(m, stopped, deleted) => DestroyIsPlaced(h, m, stopped, deleted);
    case Remove(p, n, stopped, deleted) => RemoveIsPlaced(h, p, n, stopped, deleted);
    case Exit(_) =>
    case LateRelease(_) =>
    case Activate(_, _) =>
    case _ => BootIsPlaced(h, s);
  }

  lemma OpenedIsSound(limit: int)
    ensures Sound(Opened(limit)) && Opened(limit).limit >= 1
  {
    var h := Opened(limit);
    forall s: nat | s < h.limit ensures Owned(h, s) {
      assert h.free[s] == s;
      assert SlotOf(h, InChannel(s)) == Some(s);
    }
  }

  // -------------------------------------------------------------- every run

  function Run(h: Host, steps: seq<Step>): Option<Host> {
    if steps == [] then Some(h)
    else
      match Run(h, steps[..|steps| - 1])
      case None => None
      case Some(m) => if Enabled(m, steps[|steps| - 1]) then Some(Next(m, steps[|steps| - 1])) else None
  }

  predicate Reaches(limit: int, steps: seq<Step>, h: Host) {
    Run(Opened(limit), steps) == Some(h)
  }

  lemma {:induction false} RunStaysSound(g: Host, steps: seq<Step>, h: Host)
    requires Sound(g) && Run(g, steps) == Some(h)
    ensures Sound(h) && h.limit == g.limit
    decreases |steps|
  {
    if steps != [] {
      var prefix, last := steps[..|steps| - 1], steps[|steps| - 1];
      var m := Run(g, prefix).value;
      RunStaysSound(g, prefix, m);
      StepIsConserved(m, last);
      StepIsPlaced(m, last);
    }
  }

  lemma RunIsSound(limit: int, steps: seq<Step>, h: Host)
    requires Reaches(limit, steps, h)
    ensures Sound(h) && h.limit == Opened(limit).limit
  {
    OpenedIsSound(limit);
    RunStaysSound(Opened(limit), steps, h);
  }

  /** The machines that still hold their slot. */
  function Holding(h: Host): map<Machine, nat> {
    map m | m in h.vms && !h.vms[m].released :: h.vms[m].slot
  }

  lemma SlotsAreParted(h: Host)
    requires Conserved(h)
    ensures N.Below(h.limit) == N.Elements(h.free) + h.boots.Values + Holding(h).Values
  {
    forall s: nat | s < h.limit ensures s in N.Elements(h.free) + h.boots.Values + Holding(h).Values {
      assert Owned(h, s);
      var o :| SlotOf(h, o) == Some(s);
      match o
      case InChannel(_) =>
      case OfBoot(m) => assert h.boots[m] == s;
      case OfVm(m) => assert Holding(h)[m] == s;
    }
    forall s | s in N.Elements(h.free) ensures s < h.limit {
      assert SlotOf(h, InChannel(s)).Some?;
    }
    forall m | m in h.boots ensures h.boots[m] < h.limit {
      assert SlotOf(h, OfBoot(m)).Some?;
    }
    forall m | m in Holding(h) ensures Holding(h)[m] < h.limit {
      assert SlotOf(h, OfVm(m)).Some?;
    }
  }

  lemma PartsAreApart(h: Host)
    requires Conserved(h)
    ensures N.Elements(h.free) !! h.boots.Values
    ensures (N.Elements(h.free) + h.boots.Values) !! Holding(h).Values
  {
    forall b | b in h.boots ensures h.boots[b] !in h.free {
      assert SlotOf(h, OfBoot(b)).Some? && SlotOf(h, InChannel(h.boots[b])) != SlotOf(h, OfBoot(b));
    }
    forall v | v in Holding(h) ensures Holding(h)[v] !in h.free && Holding(h)[v] !in h.boots.Values {
      assert SlotOf(h, OfVm(v)).Some? && SlotOf(h, InChannel(Holding(h)[v])) != SlotOf(h, OfVm(v));
      forall b | b in h.boots ensures h.boots[b] != Holding(h)[v] {
        assert SlotOf(h, OfBoot(b)).Some?;
      }
    }
  }

  lemma NoSlotTwice(h: Host)
    requires Conserved(h)
    ensures forall b, c | b in h.boots && c in h.boots && h.boots[b] == h.boots[c] :: b == c
    ensures forall v, w | v in Holding(h) && w in Holding(h) && Holding(h)[v] == Holding(h)[w] :: v == w
  {
    forall b, c | b in h.boots && c in h.boots && h.boots[b] == h.boots[c] ensures b == c {
      assert SlotOf(h, OfBoot(b)) == SlotOf(h, OfBoot(c));
    }
    forall v, w | v in Holding(h) && w in Holding(h) && Holding(h)[v] == Holding(h)[w] ensures v == w {
      assert SlotOf(h, OfVm(v)) == SlotOf(h, OfVm(w));
    }
  }

  lemma CountedSlots(h: Host)
    requires Conserved(h)
    ensures |h.free| + |h.boots| + |Holding(h)| == h.limit
  {
    SlotsAreParted(h);
    PartsAreApart(h);
    NoSlotTwice(h);
    N.DistinctSize(h.free);
    N.InjectiveSize(h.boots);
    N.InjectiveSize(Holding(h));
    N.ThreeParts(N.Elements(h.free), h.boots.Values, Holding(h).Values);
  }

  /** In every run the boots in progress and the machines holding a slot number
      at most the limit, no two of them share a slot, and with the free slots
      they make up the limit exactly. */
  lemma SlotsAreConserved(limit: int, steps: seq<Step>, h: Host)
    requires Reaches(limit, steps, h)
    ensures |h.free| + |h.boots| + |Holding(h)| == Opened(limit).limit
    ensures forall b, c | b in h.boots && c in h.boots && h.boots[b] == h.boots[c] :: b == c
    ensures forall v, w | v in Holding(h) && w in Holding(h) && Holding(h)[v] == Holding(h)[w] :: v == w
    ensures h.boots.Values !! Holding(h).Values
  {
    RunIsSound(limit, steps, h);
    CountedSlots(h);
    NoSlotTwice(h);
    PartsAreApart(h);
  }

  /** Putting a slot back never blocks: whoever holds one leaves room for it in the channel. */
  lemma ReleaseNeverBlocks(limit: int, steps: seq<Step>, h: Host)
    requires Reaches(limit, steps, h)
    ensures h.boots != map[] || Holding(h) != map[] ==> |h.free| < Opened(limit).limit
  {
    SlotsAreConserved(limit, steps, h);
  }

  // ------------------------------------------------------- machines that run

  /** Every machine that runs holds a slot. */
  ghost predicate RunningHeld(h: Host) {
    h.running <= h.boots.Keys + Holding(h).Keys
  }

  /** Machines run by a boot that failed to reach their agent. */
  function Abandoned(h: Host): set<Machine> {
    set m | m in h.launched && m !in h.boots && m !in h.vms
  }

  /** A boot whose agent did not answer leaves its machine running. */
  predicate LeavesRunning(h: Host, s: Step) {
    s.AwaitAgent? && !s.ready && !s.stopped && !s.deleted && s.machine in h.running
  }

  /** At any time every running machine holds a slot if and only if no machine
      abandoned by its boot still runs. */
  lemma HeldIffNoneAbandoned(limit: int, steps: seq<Step>, h: Host)
    requires Reaches(limit, steps, h)
    ensures RunningHeld(h) <==> h.running !! Abandoned(h)
  {
    RunIsSound(limit, steps, h);
  }

  /** A step keeps all running machines in slots exactly when it is not such a boot. */
  lemma StepKeepsHeld(h: Host, s: Step)
    requires Placed(h) && Enabled(h, s) && RunningHeld(h)
    ensures RunningHeld(Next(h, s)) <==> !LeavesRunning(h, s)
  {
    var k := Next(h, s);
    forall m | m in k.running && !LeavesRunning(h, s) ensures m in k.boots || (m in k.vms && !k.vms[m].released) {
      assert m in h.running ==> m in h.boots || m in Holding(h);
    }
    if LeavesRunning(h, s) {
      assert s.machine in k.running && s.machine !in k.boots && s.machine !in k.vms;
    }
  }

  /** After `k` steps from `g` every running machine holds a slot. */
  ghost predicate HeldAfter(g: Host, steps: seq<Step>, k: nat)
    requires k <= |steps|
  {
    Run(g, steps[..k]).Some? && RunningHeld(Run(g, steps[..k]).value)
  }

  /** The `k`-th step from `g` is a boot that leaves its machine running. */
  predicate LeftAt(g: Host, steps: seq<Step>, k: nat)
    requires k < |steps|
  {
    Run(g, steps[..k]).Some? && LeavesRunning(Run(g, steps[..k]).value, steps[k])
  }

  ghost predicate AlwaysHeld(g: Host, steps: seq<Step>) {
    forall k | 0 <= k <= |steps| :: HeldAfter(g, steps, k)
  }

  ghost predicate NoneLeft(g: Host, steps: seq<Step>) {
    forall k | 0 <= k < |steps| :: !LeftAt(g, steps, k)
  }

  lemma PrefixAgrees(g: Host, steps: seq<Step>, n: nat, k: nat)
    requires k <= n <= |steps|
    ensures HeldAfter(g, steps[..n], k) == HeldAfter(g, steps, k)
    ensures k < n ==> LeftAt(g, steps[..n], k) == LeftAt(g, steps, k)
  {
    assert steps[..n][..k] == steps[..k];
  }

  lemma AlwaysHeldSplits(g: Host, steps: seq<Step>, prefix: seq<Step>)
    requires steps != [] && prefix == steps[..|steps| - 1]
    ensures AlwaysHeld(g, steps) <==> AlwaysHeld(g, prefix) && HeldAfter(g, steps, |steps|)
  {
    forall k | 0 <= k <= |prefix| ensures HeldAfter(g, prefix, k) == HeldAfter(g, steps, k) {
      PrefixAgrees(g, steps, |prefix|, k);
    }
    if AlwaysHeld(g, prefix) && HeldAfter(g, steps, |steps|) {
      forall k | 0 <= k <= |steps| ensures HeldAfter(g, steps, k) {
        assert k <= |prefix| ==> HeldAfter(g, prefix, k);
      }
    }
  }

  lemma NoneLeftSplits(g: Host, steps: seq<Step>, prefix: seq<Step>)
    requires steps != [] && prefix == steps[..|steps| - 1]
    ensures NoneLeft(g, steps) <==> NoneLeft(g, prefix) && !LeftAt(g, steps, |steps| - 1)
  {
    forall k | 0 <= k < |prefix| ensures LeftAt(g, prefix, k) == LeftAt(g, steps, k) {
      PrefixAgrees(g, steps, |prefix|, k);
    }
    if NoneLeft(g, prefix) && !LeftAt(g, steps, |steps| - 1) {
      forall k | 0 <= k < |steps| ensures !LeftAt(g, steps, k) {
        assert k < |prefix| ==> !LeftAt(g, prefix, k);
      }
    }
  }

  lemma {:induction false} HeldIffNoneLeft(g: Host, steps: seq<Step>, h: Host)
    requires Sound(g) && RunningHeld(g) && Run(g, steps) == Some(h)
    ensures AlwaysHeld(g, steps) <==> NoneLeft(g, steps)
    decreases |steps|
  {
    if steps == [] {
      assert steps[..0] == [];
    } else {
      var n := |steps| - 1;
      var m := Run(g, steps[..n]).value;
      HeldIffNoneLeft(g, steps[..n], m);
      AlwaysHeldSplits(g, steps, steps[..n]);
      NoneLeftSplits(g, steps, steps[..n]);
      assert steps[..|steps|] == steps;
      if HeldAfter(g, steps, n) {
        RunStaysSound(g, steps[..n], m);
        StepKeepsHeld(m, steps[n]);
      }
      PrefixAgrees(g, steps, n, n);
    }
  }

  /** In a whole run every running machine has a slot at every moment if and only
      if no boot in it leaves its machine running when the agent does not answer. */
  lemma AlwaysHeldIffNoneLeft(limit: int, steps: seq<Step>, h: Host)
    requires Reaches(limit, steps, h)
    ensures AlwaysHeld(Opened(limit), steps) <==> NoneLeft(Opened(limit), steps)
  {
    OpenedIsSound(limit);
    HeldIffNoneLeft(Opened(limit), steps, h);
  }

  lemma HolderCount(h: Host)
    requires Conserved(h) && RunningHeld(h)
    ensures |h.running| <= h.limit
  {
    N.SubsetSize(h.running, h.boots.Keys + Holding(h).Keys);
    N.UnionSize(h.boots.Keys, Holding(h).Keys);
    CountedSlots(h);
    assert |h.boots.Keys| == |h.boots| && |Holding(h).Keys| == |Holding(h)|;
  }

  /** Then no more machines run than the host allows. */
  lemma HeldIsWithinLimit(limit: int, steps: seq<Step>, h: Host)
    requires Reaches(limit, steps, h) && RunningHeld(h)
    ensures |h.running| <= Opened(limit).limit
  {
    RunIsSound(limit, steps, h);
    HolderCount(h);
  }

  /** Destroying a machine that is known to have stopped, by either command or by
      its exit, puts its slot back; one that may still run keeps it, and somebody
      waits for its exit, upon which the slot comes back. */
  lemma StoppedIsFreed(h: Host, m: Machine, stopped: bool, deleted: bool)
    requires Sound(h) && m in Holding(h)
    ensures var k := Next(h, Destroy(m, stopped, deleted));
            if stopped || deleted || m in h.exited
            then m !in Holding(k) && k.free == h.free + [h.vms[m].slot]
            else && m in Holding(k) && k.free == h.free
                 && var e := Next(k, Exit(m));
                    Enabled(e, LateRelease(m)) && Next(e, LateRelease(m)).free == h.free + [h.vms[m].slot]
  {}

  /** Nobody waits for a machine whose destruction has not failed. */
  lemma WaitsOnlyForFailures(h: Host, s: Step, m: Machine)
    requires Sound(h) && Enabled(h, s) && m in Next(h, s).vms && Next(h, s).vms[m].doomed
    ensures (m in h.vms && h.vms[m].doomed) || (s == Destroy(m, false, false) && m !in h.exited)
  {}

  // -------------------------------------------- when the limit is exceeded

  /** The stages of a boot that all succeed. */
  const PLAIN := Stages(true, false, false, true, false)

  /** Those of the running machines that hold a slot. */
  function HeldRunning(h: Host): set<Machine> {
    h.running * (h.boots.Keys + Holding(h).Keys)
  }

  /** A short run from `h` to `k`, by which machine `m` has come to run in a slot. */
  ghost predicate Gains(h: Host, steps: seq<Step>, k: Host, m: Machine) {
    && Run(h, steps) == Some(k) && NoneLeft(h, steps)
    && m !in HeldRunning(h) && HeldRunning(k) == HeldRunning(h) + {m}
    && h.running * Abandoned(h) <= k.running * Abandoned(k)
  }

  lemma StepAdded(h: Host, steps: seq<Step>, m: Host, s: Step)
    requires Run(h, steps) == Some(m) && NoneLeft(h, steps) && Enabled(m, s) && !LeavesRunning(m, s)
    ensures Run(h, steps + [s]) == Some(Next(m, s)) && NoneLeft(h, steps + [s])
  {
    assert (steps + [s])[..|steps|] == steps;
    NoneLeftSplits(h, steps + [s], steps);
  }

  lemma OneStep(h: Host, s: Step)
    requires Enabled(h, s) && !LeavesRunning(h, s)
    ensures Run(h, [s]) == Some(Next(h, s)) && NoneLeft(h, [s])
  {
    StepAdded(h, [], h, s);
    assert [] + [s] == [s];
  }

  lemma {:induction false} StepsJoin(h: Host, first: seq<Step>, m: Host, last: seq<Step>, k: Host)
    requires Run(h, first) == Some(m) && NoneLeft(h, first) && Run(m, last) == Some(k) && NoneLeft(m, last)
    ensures Run(h, first + last) == Some(k) && NoneLeft(h, first + last)
    decreases |last|
  {
    if last == [] {
      assert first + last == first;
    } else {
      var n := |last| - 1;
      var j := Run(m, last[..n]).value;
      NoneLeftSplits(m, last, last[..n]);
      StepsJoin(h, first, m, last[..n], j);
      StepAdded(h, first + last[..n], j, last[n]);
      assert first + last[..n] + [last[n]] == first + last;
    }
  }

  /** Some machine has never been booted. */
  lemma FreshMachine(used: set<Machine>) returns (m: Machine)
    ensures m !in used
  {
    var numbers := set u | u in used :: u.number;
    var n := N.Above(numbers);
    m := Machine(0, n);
    assert m in used ==> m.number in numbers;
  }

  /** A boot that has its slot goes on to run its machine. */
  lemma BootGains(h: Host, m: Machine)
    requires Sound(h) && m in h.boots && m !in h.launched
    ensures Gains(h, [Prepare(m, PLAIN)], Next(h, Prepare(m, PLAIN)), m)
  {
    OneStep(h, Prepare(m, PLAIN));
  }

  /** A free slot is taken by a machine of its own. */
  lemma FreeGains(h: Host) returns (steps: seq<Step>, k: Host, m: Machine)
    requires Sound(h) && h.free != []
    ensures Gains(h, steps, k, m)
  {
    m := FreshMachine(h.boots.Keys + h.vms.Keys + h.launched);
    var a, p := Acquire(m), Prepare(m, PLAIN);
    var b := Next(h, a);
    steps, k := [a] + [p], Next(b, p);
    OneStep(h, a);
    StepIsConserved(h, a);
    BootGains(b, m);
    StepsJoin(h, [a], b, [p], k);
    assert HeldRunning(b) == HeldRunning(h);
  }

  /** A slot whose machine does not run can be put back. */
  lemma IdleFrees(h: Host, m: Machine) returns (s: Step)
    requires Sound(h) && m !in h.running
    requires (m in h.boots && m in h.launched) || m in Holding(h)
    ensures Enabled(h, s) && !LeavesRunning(h, s) && Next(h, s).free != []
    ensures HeldRunning(Next(h, s)) == HeldRunning(h)
    ensures h.running * Abandoned(h) <= Next(h, s).running * Abandoned(Next(h, s))
  {
    s := if m in h.boots then AwaitAgent(m, false, true, true) else Destroy(m, true, true);
  }

  lemma HolderTotal(h: Host)
    requires Sound(h)
    ensures |h.free| + |h.boots.Keys + Holding(h).Keys| == h.limit
  {
    CountedSlots(h);
    assert |h.boots.Keys| == |h.boots| && |Holding(h).Keys| == |Holding(h)|;
    assert h.boots.Keys !! Holding(h).Keys;
  }

  /** Some slot has no running machine. */
  lemma IdleSlot(h: Host) returns (m: Machine)
    requires Sound(h) && h.free == [] && |HeldRunning(h)| < h.limit
    ensures m !in h.running && (m in h.boots || m in Holding(h))
  {
    HolderTotal(h);
    var holders := h.boots.Keys + Holding(h).Keys;
    assert holders <= h.running ==> HeldRunning(h) == holders;
    m :| m in holders && m !in h.running;
  }

  /** As long as some slot has no running machine, one more can come to run. */
  lemma OneMoreRuns(h: Host) returns (steps: seq<Step>, k: Host, m: Machine)
    requires Sound(h) && |HeldRunning(h)| < h.limit
    ensures Gains(h, steps, k, m)
  {
    if h.free != [] {
      steps, k, m := FreeGains(h);
    } else {
      var i := IdleSlot(h);
      if i in h.boots && i !in h.launched {
        steps, k, m := [Prepare(i, PLAIN)], Next(h, Prepare(i, PLAIN)), i;
        BootGains(h, i);
      } else {
        var s := IdleFrees(h, i);
        OneStep(h, s);
        StepIsConserved(h, s);
        StepIsPlaced(h, s);
        var more;
        more, k, m := FreeGains(Next(h, s));
        steps := [s] + more;
        StepsJoin(h, [s], Next(h, s), more, k);
      }
    }
  }

  /** While an abandoned machine runs, a run without any further such boot can
      fill every slot with a running machine, which is one too many. */
  lemma {:induction false} AbandonedOverruns(h: Host) returns (steps: seq<Step>, k: Host)
    requires Sound(h) && h.running * Abandoned(h) != {}
    ensures Run(h, steps) == Some(k) && NoneLeft(h, steps) && |k.running| > h.limit
    decreases h.limit - |HeldRunning(h)|
  {
    if |HeldRunning(h)| >= h.limit {
      steps, k := [], h;
      assert HeldRunning(h) !! h.running * Abandoned(h);
      N.SubsetSize(HeldRunning(h) + h.running * Abandoned(h), h.running);
    } else {
      var first, g, m := OneMoreRuns(h);
      RunStaysSound(h, first, g);
      var rest;
      rest, k := AbandonedOverruns(g);
      steps := first + rest;
      StepsJoin(h, first, g, rest, k);
    }
  }

  /** At any moment of any run: every way to go on without another boot that
      leaves its machine running keeps to the limit, if and only if no machine
      abandoned by its boot still runs. */
  lemma LimitKeptIffNoneAbandoned(limit: int, steps: seq<Step>, h: Host)
    requires Reaches(limit, steps, h)
    ensures h.running !! Abandoned(h) <==>
            forall more, k | Run(h, more) == Some(k) && NoneLeft(h, more) :: |k.running| <= Opened(limit).limit
  {
    RunIsSound(limit, steps, h);
    if h.running !! Abandoned(h) {
      HeldIffNoneAbandoned(limit, steps, h);
      forall more, k | Run(h, more) == Some(k) && NoneLeft(h, more) ensures |k.running| <= Opened(limit).limit {
        HeldIffNoneLeft(h, more, k);
        assert more[..|more|] == more && HeldAfter(h, more, |more|);
        RunStaysSound(h, more, k);
        HolderCount(k);
      }
    } else {
      var m :| m in h.running && m in Abandoned(h);
      assert m in h.running * Abandoned(h);
      var more, k := AbandonedOverruns(h);
    }
  }

  /** A slot comes back from an owner whose machine no longer runs, except for
      exactly the boots that leave their machine running. */
  lemma FreedUnlessLeftRunning(h: Host, s: Step, m: Machine, slot: nat)
    requires Sound(h) && Enabled(h, s)
    requires SlotOf(h, OfBoot(m)) == Some(slot) || SlotOf(h, OfVm(m)) == Some(slot)
    requires slot in Next(h, s).free
    ensures m in Next(h, s).running <==> LeavesRunning(h, s) && s.machine == m
  {
    assert SlotOf(h, InChannel(slot)).None?;
    forall x | x in h.boots && h.boots[x] == slot ensures x == m {
      assert SlotOf(h, OfBoot(x)) == Some(slot);
    }
    forall x | x in h.vms && !h.vms[x].released && h.vms[x].slot == slot ensures x == m {
      assert SlotOf(h, OfVm(x)) == Some(slot);
    }
  }

  const M0 := Machine(0, 0)
  const M1 := Machine(0, 1)

  /** One machine at a time is allowed. The agent of the first does not answer and
      neither stopping nor deleting it succeeds; its slot goes to the second. */
  const OVERRUN: seq<Step> :=
    [Acquire(M0), Prepare(M0, PLAIN), AwaitAgent(M0, false, false, false), Acquire(M1), Prepare(M1, PLAIN)]

  lemma LimitCanBeExceeded() returns (h: Host)
    ensures Reaches(1, OVERRUN, h) && h.limit == 1 && |h.running| == 2
  {
    var h0 := Opened(1);
    var h1 := Next(h0, OVERRUN[0]);
    var h2 := Next(h1, OVERRUN[1]);
    var h3 := Next(h2, OVERRUN[2]);
    var h4 := Next(h3, OVERRUN[3]);
    h := Next(h4, OVERRUN[4]);
    assert OVERRUN[..1][..0] == [] && OVERRUN[..2][..1] == OVERRUN[..1] && OVERRUN[..3][..2] == OVERRUN[..2];
    assert OVERRUN[..4][..3] == OVERRUN[..3] && OVERRUN[..5] == OVERRUN && OVERRUN[..5][..4] == OVERRUN[..4];
    assert Run(h0, OVERRUN[..1]) == Some(h1);
    assert Run(h0, OVERRUN[..2]) == Some(h2);
    assert Run(h0, OVERRUN[..3]) == Some(h3);
    assert Run(h0, OVERRUN[..4]) == Some(h4);
    assert h.running == {M0, M1};
  }

  // -------------------------------------------------- the program's own form

  /** The channel of slots shared by every provider of the process. `host` is the
      whole process as seen from here: all providers' boots and machines. */
  class Coordinator {
    const limit: nat
    var slots: seq<nat>
    ghost var host: Host

    ghost predicate Valid()
      reads this
    {
      host.limit == limit && host.free == slots && Sound(host)
    }

    constructor (limit: int)
      ensures Valid() && host == Opened(limit)
    {
      this.limit := if limit < 1 then 1 else limit;
      slots := [];
      host := Opened(limit);
      new;
      var i := 0;
      while i < this.limit
        invariant 0 <= i <= this.limit && slots == seq(i, k => k)
        invariant host == Opened(limit)
      {
        slots := slots + [i];
        i := i + 1;
      }
      OpenedIsSound(limit);
    }

    /** Takes a slot, unless the caller gives up first; a caller finding none waits. */
    method Acquire() returns (slot: Option<nat>)
      modifies this`slots
      ensures old(slots) == [] ==> slot == None && slots == []
      ensures old(slots) != [] ==> slot == Some(old(slots)[0]) && slots == old(slots)[1..]
    {
      if slots == [] {
        return None;
      }
      slot := Some(slots[0]);
      slots := slots[1..];
    }

    /** A full channel would block. */
    method Release(slot: nat)
      requires |slots| < limit
      modifies this`slots
      ensures slots == old(slots) + [slot]
    {
      slots := slots + [slot];
    }
  }

  /** One provider's own records agree with the whole. */
  ghost predicate Agrees(p: nat, boots: map<Machine, nat>, vms: map<Machine, VM>, active: map<Name, Machine>,
                         exited: set<Machine>, h: Host)
  {
    && (forall m | m in boots || m in vms || m in exited :: m.provider == p)
    && (forall m: Machine | m.provider == p :: (m in boots <==> m in h.boots) && (m in boots ==> boots[m] == h.boots[m]))
    && (forall m: Machine | m.provider == p :: (m in vms <==> m in h.vms) && (m in vms ==> vms[m] == h.vms[m]))
    && (forall m: Machine | m.provider == p :: m in exited <==> m in h.exited)
    && (forall n: Name :: (n in active <==> (p, n) in h.active) && (n in active ==> active[n] == h.active[(p, n)]))
  }

  function ProviderOf(s: Step): nat {
    if s.Remove? then s.provider else s.machine.provider
  }

  lemma OtherBoot(h: Host, s: Step, m: Machine)
    requires Placed(h) && Enabled(h, s) && ProviderOf(s) != m.provider
    ensures var k := Next(h, s); (m in k.boots <==> m in h.boots) && (m in h.boots ==> k.boots[m] == h.boots[m])
  {}

  lemma OtherExit(h: Host, s: Step, m: Machine)
    requires Placed(h) && Enabled(h, s) && ProviderOf(s) != m.provider
    ensures m in Next(h, s).exited <==> m in h.exited
  {}

  lemma OtherVM(h: Host, s: Step, m: Machine)
    requires Placed(h) && Enabled(h, s) && ProviderOf(s) != m.provider
    ensures var k := Next(h, s); (m in k.vms <==> m in h.vms) && (m in h.vms ==> k.vms[m] == h.vms[m])
  {}

  lemma OtherName(h: Host, s: Step, p: nat, n: Name)
    requires Placed(h) && Enabled(h, s) && ProviderOf(s) != p
    ensures var k := Next(h, s);
            ((p, n) in k.active <==> (p, n) in h.active) && ((p, n) in h.active ==> k.active[(p, n)] == h.active[(p, n)])
  {}

  /** What one provider does leaves every other provider's records in agreement. */
  lemma OthersStillAgree(p: nat, boots: map<Machine, nat>, vms: map<Machine, VM>, active: map<Name, Machine>,
                         exited: set<Machine>, h: Host, s: Step, k: Host)
    requires Agrees(p, boots, vms, active, exited, h) && Placed(h) && Enabled(h, s) && ProviderOf(s) != p && k == Next(h, s)
    ensures Agrees(p, boots, vms, active, exited, k)
  {
    forall m: Machine | m.provider == p
      ensures (m in k.boots <==> m in h.boots) && (m in h.boots ==> k.boots[m] == h.boots[m])
      ensures (m in k.vms <==> m in h.vms) && (m in h.vms ==> k.vms[m] == h.vms[m])
      ensures m in k.exited <==> m in h.exited
    {
      OtherBoot(h, s, m);
      OtherExit(h, s, m);
      OtherVM(h, s, m);
    }
    forall n: Name
      ensures ((p, n) in k.active <==> (p, n) in h.active) && ((p, n) in h.active ==> k.active[(p, n)] == h.active[(p, n)])
    {
      OtherName(h, s, p, n);
    }
  }

  /** What the end of the stages makes of its provider's records. */
  lemma PrepareAgrees(p: nat, boots: map<Machine, nat>, vms: map<Machine, VM>, active: map<Name, Machine>,
                      exited: set<Machine>, h: Host, m: Machine, stages: Stages)
    requires Agrees(p, boots, vms, active, exited, h) && m in boots
    ensures var k := PrepareEnded(h, m, stages);
            && Agrees(p, if Prepared(stages) then boots else boots - {m}, vms, active, exited, k)
            && k.free == h.free + if Prepared(stages) then [] else [boots[m]]
  {}

  /** What a removal that goes through makes of its provider's records. */
  lemma RemovalAgrees(p: nat, boots: map<Machine, nat>, vms: map<Machine, VM>, active: map<Name, Machine>,
                      exited: set<Machine>, h: Host, n: Name, stopped: bool, deleted: bool)
    requires Agrees(p, boots, vms, active, exited, h) && Placed(h) && n in active
    requires KnownStopped(h, active[n], stopped, deleted)
    ensures active[n] in vms
    ensures var m, k := active[n], Removed(h, p, n, stopped, deleted);
            && Agrees(p, boots, vms[m := vms[m].(released := true)], active - {n}, exited, k)
            && k.free == h.free + if vms[m].released then [] else [vms[m].slot]
  {}

  lemma RemovalWaits(h: Host, p: nat, n: Name, stopped: bool, deleted: bool)
    requires (p, n) in h.active ==> !KnownStopped(h, h.active[(p, n)], stopped, deleted)
    ensures Removed(h, p, n, stopped, deleted) == h
  {}

  lemma RoomToRelease(h: Host, m: Machine)
    requires Conserved(h) && m in h.vms
    ensures !h.vms[m].released ==> |h.free| < h.limit
  {
    CountedSlots(h);
    if !h.vms[m].released {
      assert m in Holding(h);
    }
  }

  class Provider {
    const id: nat
    const coordinator: Coordinator
    var boots: map<Machine, nat>
    var vms: map<Machine, VM>
    var active: map<Name, Machine>
    var exited: set<Machine>

    ghost predicate Valid()
      reads this, coordinator
    {
      coordinator.Valid() && Agrees(id, boots, vms, active, exited, coordinator.host)
    }

    /** A provider that has not booted anything yet. */
    constructor (id: nat, coordinator: Coordinator)
      requires coordinator.Valid()
      requires Agrees(id, map[], map[], map[], {}, coordinator.host)
      ensures Valid() && this.id == id && this.coordinator == coordinator
    {
      this.id, this.coordinator, boots, vms, active, exited := id, coordinator, map[], map[], map[], {};
    }

    /** The first stage of a boot: waiting for a slot. */
    method BeginBoot(m: Machine) returns (begun: bool)
      requires Valid() && m.provider == id
      requires m !in coordinator.host.boots && m !in coordinator.host.vms && m !in coordinator.host.launched
      modifies this`boots, coordinator
      ensures Valid() && begun == (old(coordinator.slots) != [])
      ensures coordinator.host == if begun then Next(old(coordinator.host), Acquire(m)) else old(coordinator.host)
    {
      ghost var h := coordinator.host;
      var slot := coordinator.Acquire();
      begun := slot.Some?;
      if begun {
        StepIsConserved(h, Acquire(m));
        StepIsPlaced(h, Acquire(m));
        boots := boots[m := slot.value];
        coordinator.host := Next(h, Acquire(m));
      }
    }

    /** What every step of this provider does to the whole. */
    ghost method Record(s: Step)
      requires Sound(coordinator.host) && Enabled(coordinator.host, s)
      modifies coordinator`host
      ensures coordinator.host == Next(old(coordinator.host), s) && Sound(coordinator.host)
      ensures coordinator.host.limit == old(coordinator.host.limit)
    {
      StepIsConserved(coordinator.host, s);
      StepIsPlaced(coordinator.host, s);
      coordinator.host := Next(coordinator.host, s);
    }

    /** A boot that fails before its machine is run puts the slot back. */
    method FailBoot(m: Machine, ghost stages: Stages)
      requires Valid() && m.provider == id && m in boots && m !in coordinator.host.launched && !Prepared(stages)
      modifies this`boots, coordinator
      ensures Valid() && coordinator.host == Next(old(coordinator.host), Prepare(m, stages))
    {
      CountedSlots(coordinator.host);
      PrepareAgrees(id, boots, vms, active, exited, coordinator.host, m, stages);
      coordinator.Release(boots[m]);
      boots := boots - {m};
      Record(Prepare(m, stages));
    }

    /** The stages before the machine is run; each failure puts the slot back. */
    method PrepareBoot(m: Machine, stages: Stages) returns (run: bool)
      requires Valid() && m.provider == id && m in boots && m !in coordinator.host.launched
      modifies this`boots, coordinator
      ensures Valid() && run == Prepared(stages)
      ensures run <==> stages.cloned && (stages.configured ==> stages.resourcesSet) && (stages.bridged ==> stages.addressSet)
      ensures coordinator.host == Next(old(coordinator.host), Prepare(m, stages))
    {
      if !stages.cloned {
        FailBoot(m, stages);
        return false;
      }
      if stages.configured && !stages.resourcesSet {
        FailBoot(m, stages);
        return false;
      }
      if !stages.addressSet && stages.bridged {
        FailBoot(m, stages);
        return false;
      }
      PrepareAgrees(id, boots, vms, active, exited, coordinator.host, m, stages);
      Record(Prepare(m, stages));
      run := true;
    }

    /** The last stage: a machine whose agent answers is kept with its slot; one
        whose agent does not is stopped and deleted as well as that goes, and its
        slot put back. */
    method FinishBoot(m: Machine, ready: bool, stopped: bool, deleted: bool) returns (booted: bool)
      requires Valid() && m.provider == id && m in boots && m in coordinator.host.launched
      modifies this`boots, this`vms, coordinator
      ensures Valid() && booted == ready
      ensures coordinator.host == Next(old(coordinator.host), AwaitAgent(m, ready, stopped, deleted))
    {
      CountedSlots(coordinator.host);
      var slot := boots[m];
      Record(AwaitAgent(m, ready, stopped, deleted));
      boots := boots - {m};
      if !ready {
        coordinator.Release(slot);
        return false;
      }
      vms := vms[m := VM(slot, false, false)];
      booted := true;
    }

    /** The run command of a machine returns. */
    method RunReturns(m: Machine)
      requires Valid() && m.provider == id && m in coordinator.host.launched
      modifies this`exited, coordinator`host
      ensures Valid() && coordinator.host == Next(old(coordinator.host), Exit(m))
    {
      Record(Exit(m));
      exited := exited + {m};
    }

    /** Puts a machine's slot back, the first time only. */
    method ReleaseVM(m: Machine)
      requires m in vms && (!vms[m].released ==> |coordinator.slots| < coordinator.limit)
      modifies this`vms, coordinator`slots
      ensures vms == old(vms)[m := old(vms)[m].(released := true)]
      ensures coordinator.slots == old(coordinator.slots) + if old(vms)[m].released then [] else [vms[m].slot]
    {
      if !vms[m].released {
        var slot := vms[m].slot;
        vms := vms[m := vms[m].(released := true)];
        coordinator.Release(slot);
      }
    }

    method DestroyVM(m: Machine, stopped: bool, deleted: bool)
      requires Valid() && m.provider == id && m in vms
      modifies this`vms, coordinator
      ensures Valid() && coordinator.host == Next(old(coordinator.host), Destroy(m, stopped, deleted))
    {
      RoomToRelease(coordinator.host, m);
      Record(Destroy(m, stopped, deleted));
      if stopped || deleted || m in exited {
        ReleaseVM(m);
        return;
      }
      vms := vms[m := vms[m].(doomed := true)];
    }

    /** The waiter of a machine that could not be destroyed, once it has exited. */
    method LateReleaseVM(m: Machine)
      requires Valid() && m.provider == id && m in vms && vms[m].doomed && m in exited
      modifies this`vms, coordinator
      ensures Valid() && coordinator.host == Next(old(coordinator.host), LateRelease(m))
    {
      RoomToRelease(coordinator.host, m);
      Record(LateRelease(m));
      ReleaseVM(m);
    }

    /** A runner has been started in the machine. */
    method StoreActive(m: Machine, n: Name)
      requires Valid() && m.provider == id && m in vms
      modifies this`active, coordinator`host
      ensures Valid() && coordinator.host == Next(old(coordinator.host), Activate(m, n))
    {
      Record(Activate(m, n));
      active := active[n := m];
    }

    /** Forgets an instance whose machine has stopped, and puts its slot back. */
    method Forget(n: Name, ghost stopped: bool, ghost deleted: bool)
      requires Valid() && n in active && KnownStopped(coordinator.host, active[n], stopped, deleted)
      modifies this`active, this`vms, coordinator
      ensures Valid() && coordinator.host == Next(old(coordinator.host), Remove(id, n, stopped, deleted))
    {
      var m := active[n];
      RoomToRelease(coordinator.host, m);
      RemovalAgrees(id, boots, vms, active, exited, coordinator.host, n, stopped, deleted);
      active := active - {n};
      ReleaseVM(m);
      Record(Remove(id, n, stopped, deleted));
    }

    /** Stops and deletes a machine; an error is reported when it could not be deleted. */
    method RemoveInstance(n: Name, stopped: bool, deleted: bool) returns (failed: bool)
      requires Valid()
      modifies this`active, this`vms, coordinator
      ensures Valid() && coordinator.host == Next(old(coordinator.host), Remove(id, n, stopped, deleted))
      ensures failed == !deleted
    {
      var tracked := n in active;
      var knownStopped := stopped || deleted || (tracked && active[n] in exited);
      if tracked && knownStopped {
        Forget(n, stopped, deleted);
      } else {
        RemovalWaits(coordinator.host, id, n, stopped, deleted);
        Record(Remove(id, n, stopped, deleted));
      }
      failed := !deleted;
    }
  }
}
