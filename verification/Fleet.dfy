/** All scale sets of one process and the broker they share. Each step is a
    step of one controller together with what that step asks of the broker. */
module Fleet {
  import opened Instances
  import opened Lifecycle
  import opened Options
  import S = LifecycleSafety
  import C = Capacity
  import H = HostLimit
  import N = Counting

  datatype System = System(broker: C.State, controllers: map<string, Controller>)

  /** What a controller's step does to the broker; None when the broker would
      not let the step happen that way. */
  ghost function BrokerNext(b: C.State, g: string, c: Controller, s: Step): Option<C.State>
    requires C.Known(b) && g in b.groups
  {
    match s
    case Wait(Request(t)) => if t == b.next then Some(C.Arriving(b, g)) else None
    case Wait(Take) => if c.worker.Waiting? && c.worker.lease in b.live then Some(b) else None
    case Wait(Desist(granted)) =>
      if !c.worker.Waiting? || granted != (c.worker.lease in b.live) then None
      else Some(if granted then b else C.Abandoning(b, c.worker.lease))
    case Wait(GiveBack) => if c.worker.Returning? then Some(C.Releasing(b, c.worker.lease)) else None
    case Wait(Drop) => if c.worker.Dropping? then Some(C.Releasing(b, c.worker.lease)) else None
    case Remove(n, Free) =>
      if n in c.removals && c.removals[n].stage.Freeing? then Some(C.Releasing(b, c.removals[n].stage.lease)) else None
    case Tend(Undo(Free)) =>
      if c.worker.Undoing? && c.worker.removal.stage.Freeing?
      then Some(C.Releasing(b, c.worker.removal.stage.lease)) else None
    case _ => Some(b)
  }

  ghost function Next(f: System, g: string, s: Step): Option<System>
    requires C.Known(f.broker)
  {
    if g !in f.controllers || g !in f.broker.groups then None
    else
      match (Lifecycle.Next(f.controllers[g], s), BrokerNext(f.broker, g, f.controllers[g], s))
      case (Some(c), Some(b)) => Some(System(b, f.controllers[g := c]))
      case _ => None
  }

  // ------------------------------------------------------ who holds a lease

  datatype Holder = OfEntry(name: Name) | OfRemoval(name: Name) | OfWorker

  /** A lease the worker carries itself, or the ticket it waits with. */
  function Carried(w: Worker): Option<nat> {
    if w.Waiting? || w.Returning? || w.Unhooking? || w.Rechecking? || w.Recounting? || w.Regating? || w.Naming?
       || w.Dropping? || w.Orphaning?
    then Some(w.lease)
    else if w.Undoing? && w.removal.stage.Freeing? then Some(w.removal.stage.lease)
    else None
  }

  function LeaseOf(c: Controller, h: Holder): Option<nat> {
    match h
    case OfEntry(n) => if n in c.table then Some(c.table[n].lease) else None
    case OfRemoval(n) => if n in c.removals && c.removals[n].stage.Freeing? then Some(c.removals[n].stage.lease) else None
    case OfWorker => Carried(c.worker)
  }

  /** The broker has granted the ticket to the group, or still queues it. */
  predicate Out(b: C.State, g: string, t: nat) {
    (t in b.live && b.live[t] == g) || C.Waiter(t, g, false) in b.waiters
  }

  predicate Queues(b: C.State, g: string, t: nat) {
    C.Waiter(t, g, false) in b.waiters
  }

  /** What a group has out is exactly what its controller holds, each lease in
      one place; only the worker's own ticket may still be queued. */
  ghost predicate Matched(b: C.State, g: string, c: Controller) {
    && (forall h | LeaseOf(c, h).Some? :: Out(b, g, LeaseOf(c, h).value))
    && (forall t: nat | Out(b, g, t) :: exists h :: LeaseOf(c, h) == Some(t))
    && (forall h, k | LeaseOf(c, h).Some? && LeaseOf(c, h) == LeaseOf(c, k) :: h == k)
    && (forall t: nat | Queues(b, g, t) :: c.worker == Waiting(t))
  }

  // ------------------------------------------- what an operation has out

  lemma ServedOut(b: C.State, r: C.State, g: string, t: nat)
    requires C.Sound(b) && C.Served(b, r) && C.Quiescent(r)
    ensures Out(r, g, t) <==> Out(b, g, t)
    ensures Queues(r, g, t) ==> Queues(b, g, t)
  {}

  lemma ArrivedOut(b: C.State, g0: string, r: C.State)
    requires C.Sound(b) && C.Quiescent(b) && g0 in b.groups && r == C.Arriving(b, g0)
    ensures C.Sound(r) && C.Quiescent(r) && r.groups.Keys == b.groups.Keys && r.limit == b.limit
    ensures forall g, t :: Out(r, g, t) <==> Out(b, g, t) || (g == g0 && t == b.next)
    ensures forall g, t | Queues(r, g, t) :: Queues(b, g, t) || (g == g0 && t == b.next)
    ensures forall g, t | Out(b, g, t) :: t != b.next
  {
    C.ArriveKeepsSound(b, g0);
    C.DispatchKeepsSound(C.Joined(b, g0));
    forall g, t ensures Out(r, g, t) <==> Out(b, g, t) || (g == g0 && t == b.next)
      ensures Queues(r, g, t) ==> Queues(b, g, t) || (g == g0 && t == b.next)
    {
      ServedOut(C.Joined(b, g0), r, g, t);
    }
  }

  lemma WithoutLeaseOut(b: C.State, t0: nat, g: string, t: nat)
    requires C.Sound(b) && C.Quiescent(b) && t0 in b.live
    ensures Out(C.WithoutLease(b, t0), g, t) <==> Out(b, g, t) && t != t0
  {}

  lemma ReleasedOut(b: C.State, t0: nat, r: C.State)
    requires C.Sound(b) && C.Quiescent(b) && t0 in b.live && r == C.Releasing(b, t0)
    ensures C.Sound(r) && C.Quiescent(r) && r.groups.Keys == b.groups.Keys && r.limit == b.limit
    ensures forall g, t :: Out(r, g, t) <==> Out(b, g, t) && t != t0
    ensures forall g, t | Queues(r, g, t) :: Queues(b, g, t)
  {
    C.ReleaseKeepsSound(b, t0);
    C.ReleasingKeepsSound(b, t0);
    forall g, t ensures Out(r, g, t) <==> Out(b, g, t) && t != t0
      ensures Queues(r, g, t) ==> Queues(b, g, t)
    {
      ServedOut(C.WithoutLease(b, t0), r, g, t);
      WithoutLeaseOut(b, t0, g, t);
    }
  }

  lemma MarkedOut(b: C.State, t0: nat, g: string, t: nat)
    requires t0 !in b.live
    ensures Queues(b.(waiters := C.MarkCancelled(b.waiters, t0)), g, t) <==> Queues(b, g, t) && t != t0
  {
    var ws := C.MarkCancelled(b.waiters, t0);
    if Queues(b, g, t) && t != t0 {
      var i :| 0 <= i < |b.waiters| && b.waiters[i] == C.Waiter(t, g, false);
      assert ws[i] == b.waiters[i];
    }
  }

  lemma AbandonedOut(b: C.State, t0: nat, r: C.State)
    requires C.Sound(b) && C.Quiescent(b) && t0 !in b.live && r == C.Abandoning(b, t0)
    ensures C.Sound(r) && C.Quiescent(r) && r.groups.Keys == b.groups.Keys && r.limit == b.limit
    ensures forall g, t :: Out(r, g, t) <==> Out(b, g, t) && t != t0
    ensures forall g, t | Queues(r, g, t) :: Queues(b, g, t)
  {
    var m := b.(waiters := C.MarkCancelled(b.waiters, t0));
    C.CancelKeepsSound(b, t0);
    C.DispatchKeepsSound(m);
    forall g, t ensures Out(r, g, t) <==> Out(b, g, t) && t != t0
      ensures Queues(r, g, t) ==> Queues(b, g, t)
    {
      ServedOut(m, r, g, t);
      MarkedOut(b, t0, g, t);
    }
  }

  // ------------------------------------------------ how leases change hands

  ghost predicate SameHands(c: Controller, d: Controller) {
    forall h :: LeaseOf(d, h) == LeaseOf(c, h)
  }

  ghost predicate Moved(c: Controller, d: Controller, h: Holder, k: Holder) {
    && LeaseOf(c, h).Some? && LeaseOf(c, k).None?
    && LeaseOf(d, k) == LeaseOf(c, h) && LeaseOf(d, h).None?
    && forall x | x != h && x != k :: LeaseOf(d, x) == LeaseOf(c, x)
  }

  ghost predicate Let(c: Controller, d: Controller, h: Holder) {
    LeaseOf(c, h).Some? && LeaseOf(d, h).None? && forall x | x != h :: LeaseOf(d, x) == LeaseOf(c, x)
  }

  ghost predicate Took(c: Controller, d: Controller, t: nat) {
    && LeaseOf(c, OfWorker).None? && LeaseOf(d, OfWorker) == Some(t)
    && forall x | x != OfWorker :: LeaseOf(d, x) == LeaseOf(c, x)
  }

  ghost predicate SameOut(b: C.State, r: C.State, g: string) {
    forall t: nat :: (Out(r, g, t) <==> Out(b, g, t)) && (Queues(r, g, t) ==> Queues(b, g, t))
  }

  lemma SameIsMatched(b: C.State, r: C.State, g: string, c: Controller, d: Controller)
    requires Matched(b, g, c) && SameHands(c, d) && SameOut(b, r, g)
    requires forall t: nat | Queues(r, g, t) :: d.worker == Waiting(t)
    ensures Matched(r, g, d)
  {
    forall t: nat | Out(r, g, t) ensures exists h :: LeaseOf(d, h) == Some(t) {
      var h :| LeaseOf(c, h) == Some(t);
      assert LeaseOf(d, h) == Some(t);
    }
  }

  lemma MovedIsMatched(b: C.State, g: string, c: Controller, d: Controller, h: Holder, k: Holder)
    requires Matched(b, g, c) && Moved(c, d, h, k)
    requires forall t: nat | Queues(b, g, t) :: d.worker == Waiting(t)
    ensures Matched(b, g, d)
  {
    forall t: nat | Out(b, g, t) ensures exists x :: LeaseOf(d, x) == Some(t) {
      var x :| LeaseOf(c, x) == Some(t);
      assert LeaseOf(d, if x == h then k else x) == Some(t);
    }
  }

  lemma LetIsMatched(b: C.State, r: C.State, g: string, c: Controller, d: Controller, h: Holder)
    requires Matched(b, g, c) && Let(c, d, h)
    requires forall t: nat :: Out(r, g, t) <==> Out(b, g, t) && t != LeaseOf(c, h).value
    requires forall t: nat | Queues(r, g, t) :: d.worker == Waiting(t)
    ensures Matched(r, g, d)
  {
    forall t: nat | Out(r, g, t) ensures exists x :: LeaseOf(d, x) == Some(t) {
      var x :| LeaseOf(c, x) == Some(t);
      assert LeaseOf(d, x) == Some(t);
    }
    forall x | LeaseOf(d, x).Some? ensures Out(r, g, LeaseOf(d, x).value) {
      assert LeaseOf(c, x) == LeaseOf(d, x);
    }
  }

  lemma TookIsMatched(b: C.State, r: C.State, g: string, c: Controller, d: Controller, t0: nat)
    requires Matched(b, g, c) && Took(c, d, t0) && !Out(b, g, t0)
    requires forall t: nat :: Out(r, g, t) <==> Out(b, g, t) || t == t0
    requires forall t: nat | Queues(r, g, t) :: d.worker == Waiting(t)
    ensures Matched(r, g, d)
  {
    forall t: nat | Out(r, g, t) ensures exists x :: LeaseOf(d, x) == Some(t) {
      if t == t0 {
        assert LeaseOf(d, OfWorker) == Some(t);
      } else {
        var x :| LeaseOf(c, x) == Some(t);
        assert LeaseOf(d, x) == Some(t);
      }
    }
    forall x | LeaseOf(d, x).Some? ensures Out(r, g, LeaseOf(d, x).value) {
      assert x != OfWorker ==> LeaseOf(c, x) == LeaseOf(d, x);
    }
  }

  // ------------------------------------------- what each step does with them

  ghost predicate SameLeases(t: Table, u: Table) {
    forall n :: (n in u <==> n in t) && (n in t ==> u[n].lease == t[n].lease)
  }

  ghost predicate SameFreeing(c: Controller, d: Controller) {
    forall n :: LeaseOf(d, OfRemoval(n)) == LeaseOf(c, OfRemoval(n))
  }

  lemma HandsOf(c: Controller, d: Controller)
    requires SameLeases(c.table, d.table) && SameFreeing(c, d) && Carried(d.worker) == Carried(c.worker)
    ensures SameHands(c, d)
  {
    forall h ensures LeaseOf(d, h) == LeaseOf(c, h) {
      match h
      case OfEntry(n) =>
      case OfRemoval(n) => assert LeaseOf(d, OfRemoval(n)) == LeaseOf(c, OfRemoval(n));
      case OfWorker =>
    }
  }

  lemma ReportHands(c: Controller, r: Report, d: Controller)
    requires ReportNext(c, r).Some? && d == ReportNext(c, r).value
    ensures SameLeases(c.table, d.table) && d.removals == c.removals && d.worker == c.worker
  {}

  lemma DrainHands(c: Controller, e: DrainStep, d: Controller)
    requires DrainNext(c, e).Some? && d == DrainNext(c, e).value
    ensures SameLeases(c.table, d.table) && SameFreeing(c, d) && d.worker == c.worker
  {}

  lemma PassCarries(c: Controller, s: PassStep, d: Controller)
    requires PassNext(c, s).Some? && d == PassNext(c, s).value
    ensures Carried(c.worker).None? && Carried(d.worker).None?
  {}

  lemma PassHands(c: Controller, s: PassStep, d: Controller)
    requires PassNext(c, s).Some? && d == PassNext(c, s).value
    ensures SameLeases(c.table, d.table)
  {}

  lemma PassFreeing(c: Controller, s: PassStep, d: Controller)
    requires S.Safe(c) && PassNext(c, s).Some? && d == PassNext(c, s).value
    ensures SameFreeing(c, d)
  {
    if s.ClaimOne? {
      assert S.Sane(s.name, S.CellOf(c, s.name), c.world);
    }
  }

  /** Waiting: a ticket is taken on arrival, and given up by a withdrawal, a return or a drop. */
  lemma WaitHands(c: Controller, s: WaitStep, d: Controller)
    requires WaitNext(c, s).Some? && d == WaitNext(c, s).value
    ensures d.table == c.table && d.removals == c.removals
    ensures s.Request? ==> Carried(c.worker).None? && d.worker == Waiting(s.lease)
    ensures s.GiveBack? || s.Drop? || (s.Desist? && !s.granted) ==> Carried(c.worker) == Some(c.worker.lease) && Carried(d.worker).None?
    ensures !(s.Request? || s.GiveBack? || s.Drop? || (s.Desist? && !s.granted)) ==> Carried(d.worker) == Carried(c.worker)
    ensures c.worker.Waiting? <==> s.Take? || s.Desist?
    ensures !s.Request? ==> !d.worker.Waiting?
  {}

  /** Reserving a name moves the worker's lease into the entry; undoing it moves it back. */
  lemma PickHands(c: Controller, n: Name, d: Controller)
    requires S.Safe(c) && StartNext(c, Pick(n)).Some? && d == StartNext(c, Pick(n)).value
    ensures if n in c.table then SameHands(c, d) else Moved(c, d, OfWorker, OfEntry(n))
  {
    if n !in c.table {
      assert LeaseOf(c, OfWorker) == Some(c.worker.lease);
    }
  }

  lemma UnprovisionHands(c: Controller, d: Controller)
    requires S.Safe(c) && StartNext(c, Unprovision).Some? && d == StartNext(c, Unprovision).value
    ensures Moved(c, d, OfEntry(c.worker.name), OfWorker)
  {
    assert S.Sane(c.worker.name, S.CellOf(c, c.worker.name), c.world);
  }

  lemma StartCarries(c: Controller, s: StartStep, d: Controller)
    requires StartNext(c, s).Some? && d == StartNext(c, s).value && !s.Pick? && !s.Unprovision?
    ensures Carried(c.worker).None? && Carried(d.worker).None? && !d.worker.Waiting?
  {}

  lemma StartHands(c: Controller, s: StartStep, d: Controller)
    requires StartNext(c, s).Some? && d == StartNext(c, s).value && !s.Pick? && !s.Unprovision?
    ensures SameLeases(c.table, d.table) && d.removals == c.removals
  {}

  lemma RecordHands(c: Controller, observed: bool, d: Controller)
    requires S.Safe(c) && TendNext(c, Record(observed)).Some? && d == TendNext(c, Record(observed)).value
    ensures SameLeases(c.table, d.table) && d.removals == c.removals && Carried(c.worker).None? && Carried(d.worker).None?
  {
    assert S.Sane(c.worker.name, S.CellOf(c, c.worker.name), c.world);
  }

  lemma TendHands(c: Controller, s: TendStep, d: Controller)
    requires S.Safe(c) && TendNext(c, s).Some? && d == TendNext(c, s).value && !s.Record? && !s.Undo?
    ensures SameLeases(c.table, d.table) && d.removals == c.removals && Carried(c.worker).None? && Carried(d.worker).None?
  {}

  /** A removal's move leaves every lease where it is, but for the entry it forgets. */
  lemma AdvanceHands(t: Table, w: World, n: Name, r: Removal, m: Move, u: Table, v: World, p: Progress)
    requires Advance(t, w, n, r, m).Some? && (u, v, p) == Advance(t, w, n, r, m).value
    requires S.Under(n, t, r, w)
    ensures p.On? && p.stage.Freeing? ==> n in t && u == t - {n} && p.stage.lease == t[n].lease && !r.stage.Freeing?
    ensures !(p.On? && p.stage.Freeing?) ==> SameLeases(t, u)
    ensures p.Ended? <==> r.stage.Freeing?
    ensures m.Free? <==> r.stage.Freeing?
  {}

  lemma UndoneHands(c: Controller, u: Table, p: Progress, d: Controller)
    requires c.worker.Undoing? && d.table == u && d.removals == c.removals
    requires p.On? ==> d.worker == Undoing(c.worker.name, Removal(c.worker.removal.id, p.stage))
    requires !p.On? ==> Carried(d.worker).None?
    requires var n, r := c.worker.name, c.worker.removal;
      && (p.On? && p.stage.Freeing? ==>
           n in c.table && u == c.table - {n} && p.stage.lease == c.table[n].lease && !r.stage.Freeing?)
      && (!(p.On? && p.stage.Freeing?) ==> SameLeases(c.table, u))
      && (p.Ended? <==> r.stage.Freeing?)
    ensures if p.Ended? then Let(c, d, OfWorker)
            else if p.On? && p.stage.Freeing? then Moved(c, d, OfEntry(c.worker.name), OfWorker)
            else SameHands(c, d)
  {
    forall n ensures LeaseOf(d, OfRemoval(n)) == LeaseOf(c, OfRemoval(n)) {}
  }

  lemma UndoHands(c: Controller, m: Move, d: Controller)
    requires S.Safe(c) && TendNext(c, Undo(m)).Some? && d == TendNext(c, Undo(m)).value
    ensures if m.Free? then Let(c, d, OfWorker)
            else SameHands(c, d) || Moved(c, d, OfEntry(c.worker.name), OfWorker)
    ensures m.Free? ==> c.worker.removal.stage.Freeing? && LeaseOf(c, OfWorker) == Some(c.worker.removal.stage.lease)
  {
    var n, r := c.worker.name, c.worker.removal;
    assert S.Sane(n, S.CellOf(c, n), c.world);
    var (u, v, p) := Advance(c.table, c.world, n, r, m).value;
    S.UndoEffect(c, m, u, v, p, d);
    AdvanceHands(c.table, c.world, n, r, m, u, v, p);
    UndoneHands(c, u, p, d);
  }

  lemma RemovedHands(c: Controller, n: Name, u: Table, p: Progress, d: Controller)
    requires n in c.removals && d.worker == c.worker
    requires d.table == if p.Blocked? then RetryRemoval(u, n, c.removals[n].id, c.now) else u
    requires d.removals == if p.On? then c.removals[n := Removal(c.removals[n].id, p.stage)] else c.removals - {n}
    requires var r := c.removals[n];
      && (p.On? && p.stage.Freeing? ==>
           n in c.table && u == c.table - {n} && p.stage.lease == c.table[n].lease && !r.stage.Freeing?)
      && (!(p.On? && p.stage.Freeing?) ==> SameLeases(c.table, u))
      && (p.Ended? <==> r.stage.Freeing?)
    ensures if p.Ended? then Let(c, d, OfRemoval(n))
            else if p.On? && p.stage.Freeing? then Moved(c, d, OfEntry(n), OfRemoval(n))
            else SameHands(c, d)
  {}

  lemma RemovalHands(c: Controller, n: Name, m: Move, d: Controller)
    requires S.Safe(c) && RemovalNext(c, n, m).Some? && d == RemovalNext(c, n, m).value
    ensures if m.Free? then Let(c, d, OfRemoval(n))
            else SameHands(c, d) || Moved(c, d, OfEntry(n), OfRemoval(n))
    ensures m.Free? ==> c.removals[n].stage.Freeing? && LeaseOf(c, OfRemoval(n)) == Some(c.removals[n].stage.lease)
  {
    S.UnderWay(c, n);
    var (u, v, p) := Advance(c.table, c.world, n, c.removals[n], m).value;
    S.RemovalEffect(c, n, m, u, v, p, d);
    AdvanceHands(c.table, c.world, n, c.removals[n], m, u, v, p);
    RemovedHands(c, n, u, p, d);
  }

  // ------------------------------------------------- one step of the fleet

  ghost predicate WellHeld(b: C.State, g: string, c: Controller) {
    S.Safe(c) && S.Swept(c) && Matched(b, g, c)
  }

  ghost predicate AllHeld(b: C.State, controllers: map<string, Controller>) {
    forall g | g in controllers :: WellHeld(b, g, controllers[g])
  }

  /** The books of the process: the broker's own, and for each scale set exactly
      the leases its controller holds. */
  ghost predicate Balanced(f: System) {
    && C.Sound(f.broker) && C.Quiescent(f.broker)
    && f.controllers.Keys == f.broker.groups.Keys
    && AllHeld(f.broker, f.controllers)
  }

  /** A broker operation of group `g` went through and left the other groups alone. */
  ghost predicate Settles(b: C.State, r: C.State, g: string) {
    && C.Sound(r) && C.Quiescent(r) && r.groups.Keys == b.groups.Keys && r.limit == b.limit
    && forall k | k != g :: SameOut(b, r, k)
  }

  /** A holder that is not the waiting worker holds a lease granted to its group. */
  lemma HeldIsLive(b: C.State, g: string, c: Controller, h: Holder)
    requires C.Sound(b) && C.Quiescent(b) && Matched(b, g, c) && LeaseOf(c, h).Some?
    requires h == OfWorker ==> !c.worker.Waiting?
    ensures LeaseOf(c, h).value in b.live && b.live[LeaseOf(c, h).value] == g
  {
    var t := LeaseOf(c, h).value;
    assert Out(b, g, t);
    assert c.worker == Waiting(t) ==> LeaseOf(c, OfWorker) == Some(t);
  }

  lemma ReleaseSettles(b: C.State, g: string, c: Controller, h: Holder, d: Controller, r: C.State)
    requires C.Sound(b) && C.Quiescent(b) && Matched(b, g, c) && Let(c, d, h)
    requires h == OfWorker ==> !c.worker.Waiting? && !d.worker.Waiting?
    requires h != OfWorker ==> d.worker == c.worker
    requires r == C.Releasing(b, LeaseOf(c, h).value)
    ensures Settles(b, r, g) && Matched(r, g, d)
  {
    var t0 := LeaseOf(c, h).value;
    HeldIsLive(b, g, c, h);
    ReleasedOut(b, t0, r);
    forall k | k != g ensures SameOut(b, r, k) {
      assert !Out(b, k, t0);
    }
    LetIsMatched(b, r, g, c, d, h);
  }

  lemma QuietSettles(b: C.State, g: string, c: Controller, d: Controller)
    requires C.Sound(b) && C.Quiescent(b) && Matched(b, g, c)
    requires SameHands(c, d) || exists h, k :: Moved(c, d, h, k)
    requires d.worker == c.worker || !c.worker.Waiting? || c.worker.lease in b.live
    ensures Settles(b, b, g) && Matched(b, g, d)
  {
    if SameHands(c, d) {
      SameIsMatched(b, b, g, c, d);
    } else {
      var h, k :| Moved(c, d, h, k);
      MovedIsMatched(b, g, c, d, h, k);
    }
  }

  lemma ArrivalSettles(b: C.State, g: string, r: C.State)
    requires C.Sound(b) && C.Quiescent(b) && g in b.groups && r == C.Arriving(b, g)
    ensures Settles(b, r, g) && !Out(b, g, b.next)
    ensures forall t: nat :: Out(r, g, t) <==> Out(b, g, t) || t == b.next
    ensures forall t: nat | Queues(r, g, t) :: Queues(b, g, t) || t == b.next
  {
    ArrivedOut(b, g, r);
  }

  lemma RequestMatched(b: C.State, g: string, c: Controller, d: Controller, r: C.State)
    requires Matched(b, g, c) && Took(c, d, b.next) && d.worker == Waiting(b.next) && !Out(b, g, b.next)
    requires forall t: nat :: Out(r, g, t) <==> Out(b, g, t) || t == b.next
    requires forall t: nat | Queues(r, g, t) :: Queues(b, g, t) || t == b.next
    ensures Matched(r, g, d)
  {
    forall t: nat | Queues(r, g, t) ensures d.worker == Waiting(t) {
      assert c.worker == Waiting(t) ==> LeaseOf(c, OfWorker) == Some(t);
    }
    TookIsMatched(b, r, g, c, d, b.next);
  }

  lemma RequestSettles(b: C.State, g: string, c: Controller, d: Controller, r: C.State)
    requires C.Sound(b) && C.Quiescent(b) && g in b.groups && Matched(b, g, c)
    requires Took(c, d, b.next) && d.worker == Waiting(b.next) && r == C.Arriving(b, g)
    ensures Settles(b, r, g) && Matched(r, g, d)
  {
    ArrivalSettles(b, g, r);
    RequestMatched(b, g, c, d, r);
  }

  /** A ticket queued by one group is nothing to the others. */
  lemma OthersStillOut(b: C.State, g: string, t0: nat, r: C.State)
    requires C.Queued(b.waiters, b) && Queues(b, g, t0)
    requires forall k, t: nat :: Out(r, k, t) <==> Out(b, k, t) && t != t0
    requires forall k, t: nat | Queues(r, k, t) :: Queues(b, k, t)
    ensures forall k | k != g :: SameOut(b, r, k)
  {
    forall k | k != g ensures SameOut(b, r, k) {
      assert !Queues(b, k, t0);
    }
  }

  lemma WithdrawSettles(b: C.State, g: string, c: Controller, d: Controller, r: C.State)
    requires C.Sound(b) && C.Quiescent(b) && Matched(b, g, c)
    requires Let(c, d, OfWorker) && c.worker.Waiting? && !d.worker.Waiting?
    requires c.worker.lease !in b.live && r == C.Abandoning(b, c.worker.lease)
    ensures Settles(b, r, g) && Matched(r, g, d)
  {
    var t0 := c.worker.lease;
    assert LeaseOf(c, OfWorker) == Some(t0) && Out(b, g, t0);
    AbandonedOut(b, t0, r);
    OthersStillOut(b, g, t0, r);
    LetIsMatched(b, r, g, c, d, OfWorker);
  }

  /** The three ways a wait changes what the worker holds. */
  lemma WaitPurse(c: Controller, s: WaitStep, d: Controller)
    requires WaitNext(c, s).Some? && d == WaitNext(c, s).value
    ensures s.Request? ==> Took(c, d, s.lease)
    ensures s.GiveBack? || s.Drop? || (s.Desist? && !s.granted) ==> Let(c, d, OfWorker)
    ensures !(s.Request? || s.GiveBack? || s.Drop? || (s.Desist? && !s.granted)) ==> SameHands(c, d)
  {
    WaitHands(c, s, d);
    if !(s.Request? || s.GiveBack? || s.Drop? || (s.Desist? && !s.granted)) {
      HandsOf(c, d);
    }
  }

  lemma WaitOutcome(b: C.State, g: string, c: Controller, s: WaitStep, d: Controller, r: C.State)
    requires C.Sound(b) && C.Quiescent(b) && g in b.groups && Matched(b, g, c)
    requires BrokerNext(b, g, c, Wait(s)) == Some(r)
    requires c.worker.Waiting? <==> s.Take? || s.Desist?
    requires d.worker.Waiting? ==> s.Request? && d.worker.lease == s.lease
    requires s.Request? ==> Took(c, d, s.lease) && d.worker.Waiting?
    requires s.GiveBack? || s.Drop? || (s.Desist? && !s.granted) ==> Let(c, d, OfWorker)
    requires !(s.Request? || s.GiveBack? || s.Drop? || (s.Desist? && !s.granted)) ==> SameHands(c, d)
    ensures Settles(b, r, g) && Matched(r, g, d)
  {
    match s
    case Request(_) => RequestSettles(b, g, c, d, r);
    case Desist(granted) =>
      if granted {
        QuietSettles(b, g, c, d);
      } else {
        WithdrawSettles(b, g, c, d, r);
      }
    case GiveBack => ReleaseSettles(b, g, c, OfWorker, d, r);
    case Drop => ReleaseSettles(b, g, c, OfWorker, d, r);
    case _ => QuietSettles(b, g, c, d);
  }

  lemma WaitSettles(b: C.State, g: string, c: Controller, s: WaitStep, d: Controller, r: C.State)
    requires C.Sound(b) && C.Quiescent(b) && g in b.groups && Matched(b, g, c)
    requires WaitNext(c, s).Some? && d == WaitNext(c, s).value
    requires BrokerNext(b, g, c, Wait(s)) == Some(r)
    ensures Settles(b, r, g) && Matched(r, g, d)
  {
    WaitHands(c, s, d);
    WaitPurse(c, s, d);
    WaitOutcome(b, g, c, s, d, r);
  }

  lemma PassSettles(b: C.State, g: string, c: Controller, s: PassStep, d: Controller)
    requires C.Sound(b) && C.Quiescent(b) && Matched(b, g, c) && S.Safe(c)
    requires PassNext(c, s).Some? && d == PassNext(c, s).value
    ensures Settles(b, b, g) && Matched(b, g, d)
  {
    PassCarries(c, s, d);
    PassHands(c, s, d);
    PassFreeing(c, s, d);
    HandsOf(c, d);
    QuietSettles(b, g, c, d);
  }

  lemma StartSettles(b: C.State, g: string, c: Controller, s: StartStep, d: Controller)
    requires C.Sound(b) && C.Quiescent(b) && Matched(b, g, c) && S.Safe(c)
    requires StartNext(c, s).Some? && d == StartNext(c, s).value
    ensures Settles(b, b, g) && Matched(b, g, d)
  {
    match s {
      case Pick(n) => PickHands(c, n, d);
      case Unprovision => UnprovisionHands(c, d);
      case _ =>
        StartCarries(c, s, d);
        StartHands(c, s, d);
        HandsOf(c, d);
    }
    QuietSettles(b, g, c, d);
  }

  lemma TendSettles(b: C.State, g: string, c: Controller, s: TendStep, d: Controller, r: C.State)
    requires C.Sound(b) && C.Quiescent(b) && g in b.groups && Matched(b, g, c) && S.Safe(c)
    requires TendNext(c, s).Some? && d == TendNext(c, s).value
    requires BrokerNext(b, g, c, Tend(s)) == Some(r)
    ensures Settles(b, r, g) && Matched(r, g, d)
  {
    match s
    case Record(observed) =>
      RecordHands(c, observed, d);
      HandsOf(c, d);
      QuietSettles(b, g, c, d);
    case Undo(m) =>
      UndoHands(c, m, d);
      if m.Free? {
        ReleaseSettles(b, g, c, OfWorker, d, r);
      } else {
        QuietSettles(b, g, c, d);
      }
    case _ =>
      TendHands(c, s, d);
      HandsOf(c, d);
      QuietSettles(b, g, c, d);
  }

  lemma RemovalSettles(b: C.State, g: string, c: Controller, n: Name, m: Move, d: Controller, r: C.State)
    requires C.Sound(b) && C.Quiescent(b) && g in b.groups && Matched(b, g, c) && S.Safe(c)
    requires RemovalNext(c, n, m).Some? && d == RemovalNext(c, n, m).value
    requires BrokerNext(b, g, c, Remove(n, m)) == Some(r)
    ensures Settles(b, r, g) && Matched(r, g, d)
  {
    RemovalHands(c, n, m, d);
    if m.Free? {
      ReleaseSettles(b, g, c, OfRemoval(n), d, r);
    } else {
      QuietSettles(b, g, c, d);
    }
  }

  lemma TellSettles(b: C.State, g: string, c: Controller, p: Report, d: Controller)
    requires C.Sound(b) && C.Quiescent(b) && Matched(b, g, c)
    requires ReportNext(c, p).Some? && d == ReportNext(c, p).value
    ensures Settles(b, b, g) && Matched(b, g, d)
  {
    ReportHands(c, p, d);
    HandsOf(c, d);
    QuietSettles(b, g, c, d);
  }

  lemma OtherSettles(b: C.State, g: string, c: Controller, s: Step, d: Controller)
    requires C.Sound(b) && C.Quiescent(b) && Matched(b, g, c) && S.Safe(c)
    requires Lifecycle.Next(c, s).Some? && d == Lifecycle.Next(c, s).value
    requires s.Carry? || s.Occur? || s.Wind?
    ensures Settles(b, b, g) && Matched(b, g, d)
  {
    match s {
      case Carry(w, delay) => S.ChoreEffect(c, w, delay, d);
      case Occur(e) => S.EventEffect(c, e, d);
      case Wind(e) => DrainHands(c, e, d);
    }
    HandsOf(c, d);
    QuietSettles(b, g, c, d);
  }

  lemma StepSettles(b: C.State, g: string, c: Controller, s: Step, d: Controller, r: C.State)
    requires C.Sound(b) && C.Quiescent(b) && g in b.groups && Matched(b, g, c) && S.Safe(c)
    requires Lifecycle.Next(c, s).Some? && d == Lifecycle.Next(c, s).value
    requires BrokerNext(b, g, c, s) == Some(r)
    ensures Settles(b, r, g) && Matched(r, g, d)
  {
    match s
    case Pass(p) => PassSettles(b, g, c, p, d);
    case Wait(w) => WaitSettles(b, g, c, w, d, r);
    case Start(p) => StartSettles(b, g, c, p, d);
    case Tend(p) => TendSettles(b, g, c, p, d, r);
    case Remove(n, m) => RemovalSettles(b, g, c, n, m, d, r);
    case Tell(p) => TellSettles(b, g, c, p, d);
    case _ => OtherSettles(b, g, c, s, d);
  }

  lemma NextParts(f: System, g: string, s: Step, h: System)
    requires C.Known(f.broker) && Next(f, g, s) == Some(h)
    ensures g in f.controllers && g in f.broker.groups && g in h.controllers
    ensures Lifecycle.Next(f.controllers[g], s) == Some(h.controllers[g])
    ensures BrokerNext(f.broker, g, f.controllers[g], s) == Some(h.broker)
    ensures h.controllers == f.controllers[g := h.controllers[g]]
  {}

  lemma BystanderIsHeld(b: C.State, r: C.State, g: string, c: Controller)
    requires WellHeld(b, g, c) && SameOut(b, r, g)
    ensures WellHeld(r, g, c)
  {
    SameIsMatched(b, r, g, c, c);
  }

  lemma OneOfTheRest(f: System, g: string, h: System, k: string)
    requires Balanced(f) && g in f.controllers && g in h.controllers && k in h.controllers
    requires h.controllers == f.controllers[g := h.controllers[g]]
    requires Settles(f.broker, h.broker, g) && WellHeld(h.broker, g, h.controllers[g])
    ensures WellHeld(h.broker, k, h.controllers[k])
  {
    if k != g {
      BystanderIsHeld(f.broker, h.broker, k, f.controllers[k]);
    }
  }

  lemma RestIsHeld(f: System, g: string, h: System)
    requires Balanced(f) && g in f.controllers && g in h.controllers
    requires h.controllers == f.controllers[g := h.controllers[g]]
    requires Settles(f.broker, h.broker, g) && WellHeld(h.broker, g, h.controllers[g])
    ensures AllHeld(h.broker, h.controllers)
  {
    forall k | k in h.controllers ensures WellHeld(h.broker, k, h.controllers[k]) {
      OneOfTheRest(f, g, h, k);
    }
  }

  lemma OwnIsHeld(f: System, g: string, s: Step, h: System)
    requires Balanced(f) && Next(f, g, s) == Some(h)
    ensures g in h.controllers && Settles(f.broker, h.broker, g) && WellHeld(h.broker, g, h.controllers[g])
  {
    NextParts(f, g, s, h);
    StepSettles(f.broker, g, f.controllers[g], s, h.controllers[g], h.broker);
    S.StepIsSafe(f.controllers[g], s, h.controllers[g]);
    S.StepIsSwept(f.controllers[g], s, h.controllers[g]);
  }

  lemma StepIsBalanced(f: System, g: string, s: Step, h: System)
    requires Balanced(f) && Next(f, g, s) == Some(h)
    ensures Balanced(h)
  {
    NextParts(f, g, s, h);
    OwnIsHeld(f, g, s, h);
    RestIsHeld(f, g, h);
  }

  // -------------------------------------------------------------- every run

  /** Every scale set is registered and nothing has started. */
  ghost predicate Opening(f: System) {
    && C.Sound(f.broker) && C.Quiescent(f.broker) && f.broker.live == map[] && f.broker.waiters == []
    && f.controllers.Keys == f.broker.groups.Keys
    && forall g | g in f.controllers :: f.controllers[g] == Initial(f.controllers[g].config)
  }

  /** The fleet after some interleaving of the steps of its scale sets. */
  ghost predicate Reaches(f0: System, steps: seq<(string, Step)>, f: System)
    decreases |steps|
  {
    if steps == [] then f == f0
    else
      var last := steps[|steps| - 1];
      exists m :: Reaches(f0, steps[..|steps| - 1], m) && C.Known(m.broker) && Next(m, last.0, last.1) == Some(f)
  }

  lemma OpeningIsBalanced(f: System)
    requires Opening(f)
    ensures Balanced(f)
  {
    forall g | g in f.controllers ensures WellHeld(f.broker, g, f.controllers[g]) {
      S.FreshIsSafe(f.controllers[g].config);
    }
  }

  lemma {:induction false} RunIsBalanced(f0: System, steps: seq<(string, Step)>, f: System)
    requires Opening(f0) && Reaches(f0, steps, f)
    ensures Balanced(f)
    decreases |steps|
  {
    if steps == [] {
      OpeningIsBalanced(f0);
    } else {
      var last := steps[|steps| - 1];
      var m :| Reaches(f0, steps[..|steps| - 1], m) && C.Known(m.broker) && Next(m, last.0, last.1) == Some(f);
      RunIsBalanced(f0, steps[..|steps| - 1], m);
      StepIsBalanced(m, last.0, last.1, f);
    }
  }

  /** Within a fleet each controller goes through a run of its own, so all that
      holds of single controllers in every run holds here too. */
  lemma {:induction false} ControllersRun(f0: System, steps: seq<(string, Step)>, f: System, g: string) returns (own: seq<Step>)
    requires Opening(f0) && Reaches(f0, steps, f) && g in f0.controllers
    ensures g in f.controllers && S.Reaches(f0.controllers[g].config, own, f.controllers[g])
    decreases |steps|
  {
    if steps == [] {
      own := [];
    } else {
      var last := steps[|steps| - 1];
      var m :| Reaches(f0, steps[..|steps| - 1], m) && C.Known(m.broker) && Next(m, last.0, last.1) == Some(f);
      own := ControllersRun(f0, steps[..|steps| - 1], m, g);
      NextParts(m, last.0, last.1, f);
      if g == last.0 {
        S.OneMoreStep(f0.controllers[g].config, own, m.controllers[g], last.1, f.controllers[g]);
        own := own + [last.1];
      }
    }
  }

  // -------------------------------------------------------- what it comes to

  /** Removals that have forgotten their runner and not yet freed its lease. */
  function Leaving(c: Controller): map<Name, nat> {
    map n | n in c.removals && c.removals[n].stage.Freeing? :: c.removals[n].stage.lease
  }

  function Kept(c: Controller): map<Name, nat> {
    map n | n in c.table :: c.table[n].lease
  }

  function OwnLive(b: C.State, c: Controller): set<nat> {
    if Carried(c.worker).Some? && Carried(c.worker).value in b.live then {Carried(c.worker).value} else {}
  }

  lemma HolderOf(b: C.State, g: string, c: Controller, t: nat)
    requires C.Sound(b) && Matched(b, g, c) && t in C.Held(b.live, g)
    ensures t in Kept(c).Values || t in Leaving(c).Values || Carried(c.worker) == Some(t)
  {
    assert Out(b, g, t);
    var h :| LeaseOf(c, h) == Some(t);
    match h
    case OfEntry(n) => assert Kept(c)[n] == t;
    case OfRemoval(n) => assert Leaving(c)[n] == t;
    case OfWorker =>
  }

  lemma HeldHasAPlace(b: C.State, g: string, c: Controller)
    requires C.Sound(b) && C.Quiescent(b) && Matched(b, g, c)
    ensures C.Held(b.live, g) <= Kept(c).Values + Leaving(c).Values + OwnLive(b, c)
  {
    forall t | t in C.Held(b.live, g) ensures t in Kept(c).Values + Leaving(c).Values + OwnLive(b, c) {
      HolderOf(b, g, c, t);
    }
  }

  lemma HeldBy(b: C.State, g: string, c: Controller, t: nat)
    requires C.Sound(b) && C.Quiescent(b) && Matched(b, g, c)
    requires t in Kept(c).Values || t in Leaving(c).Values || (Carried(c.worker) == Some(t) && t in b.live)
    ensures t in C.Held(b.live, g)
  {
    if t in Kept(c).Values {
      var n :| n in Kept(c) && Kept(c)[n] == t;
      HeldIsLive(b, g, c, OfEntry(n));
    } else if t in Leaving(c).Values {
      var n :| n in Leaving(c) && Leaving(c)[n] == t;
      HeldIsLive(b, g, c, OfRemoval(n));
    } else {
      assert LeaseOf(c, OfWorker) == Some(t) && Out(b, g, t);
    }
  }

  lemma PlacesAreHeld(b: C.State, g: string, c: Controller)
    requires C.Sound(b) && C.Quiescent(b) && Matched(b, g, c)
    ensures Kept(c).Values + Leaving(c).Values + OwnLive(b, c) <= C.Held(b.live, g)
  {
    forall t | t in Kept(c).Values + Leaving(c).Values + OwnLive(b, c) ensures t in C.Held(b.live, g) {
      HeldBy(b, g, c, t);
    }
  }

  lemma Sizes(c: Controller)
    requires forall n, k | n in Kept(c) && k in Kept(c) && Kept(c)[n] == Kept(c)[k] :: n == k
    requires forall n, k | n in Leaving(c) && k in Leaving(c) && Leaving(c)[n] == Leaving(c)[k] :: n == k
    ensures |Kept(c).Values| == |c.table| && |Leaving(c).Values| == |Leaving(c)|
  {
    N.InjectiveSize(Kept(c));
    N.InjectiveSize(Leaving(c));
    assert Kept(c).Keys == c.table.Keys;
  }

  /** No lease is in two hands. */
  lemma KeptIsApart(b: C.State, g: string, c: Controller)
    requires Matched(b, g, c)
    ensures forall n, k | n in Kept(c) && k in Kept(c) && Kept(c)[n] == Kept(c)[k] :: n == k
    ensures forall n, k | n in Leaving(c) && k in Leaving(c) && Leaving(c)[n] == Leaving(c)[k] :: n == k
    ensures Kept(c).Values !! Leaving(c).Values
    ensures Carried(c.worker).Some? ==> Carried(c.worker).value !in Kept(c).Values + Leaving(c).Values
  {
    forall n, k | n in Kept(c) && k in Kept(c) && Kept(c)[n] == Kept(c)[k] ensures n == k {
      assert LeaseOf(c, OfEntry(n)) == LeaseOf(c, OfEntry(k));
    }
    forall n, k | n in Leaving(c) && k in Leaving(c) && Leaving(c)[n] == Leaving(c)[k] ensures n == k {
      assert LeaseOf(c, OfRemoval(n)) == LeaseOf(c, OfRemoval(k));
    }
    forall n, k | n in Kept(c) && k in Leaving(c) ensures Kept(c)[n] != Leaving(c)[k] {
      assert LeaseOf(c, OfEntry(n)).Some? && LeaseOf(c, OfRemoval(k)).Some?;
    }
    if Carried(c.worker).Some? {
      forall n | n in Kept(c) ensures Kept(c)[n] != Carried(c.worker).value {
        assert LeaseOf(c, OfEntry(n)).Some? && LeaseOf(c, OfWorker).Some?;
      }
      forall n | n in Leaving(c) ensures Leaving(c)[n] != Carried(c.worker).value {
        assert LeaseOf(c, OfRemoval(n)).Some? && LeaseOf(c, OfWorker).Some?;
      }
    }
  }

  lemma CountedOut(b: C.State, g: string, c: Controller)
    requires C.Sound(b) && C.Quiescent(b) && g in b.groups && Matched(b, g, c)
    ensures b.groups[g].inUse == |c.table| + |Leaving(c)| + |OwnLive(b, c)|
  {
    KeptIsApart(b, g, c);
    HeldHasAPlace(b, g, c);
    PlacesAreHeld(b, g, c);
    assert C.Held(b.live, g) == Kept(c).Values + Leaving(c).Values + OwnLive(b, c);
    Sizes(c);
    assert b.groups[g].inUse == |C.Held(b.live, g)|;
    N.ThreeParts(Kept(c).Values, Leaving(c).Values, OwnLive(b, c));
  }

  /** A scale set's share of the broker is one lease for each runner in its
      table, one for each removal about to free its own, and the one its worker
      carries. */
  lemma InUseIsHeld(f0: System, steps: seq<(string, Step)>, f: System, g: string)
    requires Opening(f0) && Reaches(f0, steps, f) && g in f.controllers
    ensures g in f.broker.groups
    ensures f.broker.groups[g].inUse ==
            |f.controllers[g].table| + |Leaving(f.controllers[g])| + |OwnLive(f.broker, f.controllers[g])|
  {
    RunIsBalanced(f0, steps, f);
    CountedOut(f.broker, g, f.controllers[g]);
  }

  lemma EmptyHandedWhenDone(c: Controller)
    requires S.Swept(c) && c.drain == Finished
    ensures c.table == map[] && Leaving(c) == map[] && Carried(c.worker).None?
  {}

  /** A drain that reports success leaves its scale set without a single lease. */
  lemma DrainedHoldsNothing(f0: System, steps: seq<(string, Step)>, f: System, g: string)
    requires Opening(f0) && Reaches(f0, steps, f) && g in f.controllers && f.controllers[g].drain == Finished
    ensures g in f.broker.groups && f.broker.groups[g].inUse == 0
  {
    RunIsBalanced(f0, steps, f);
    CountedOut(f.broker, g, f.controllers[g]);
    EmptyHandedWhenDone(f.controllers[g]);
  }

  function Runners(f: System): map<(string, Name), nat> {
    map g, n | g in f.controllers && n in f.controllers[g].table :: (g, n) := f.controllers[g].table[n].lease
  }

  lemma RunnerIsCounted(f: System, k: (string, Name))
    requires Balanced(f) && k in Runners(f)
    ensures Runners(f)[k] in f.broker.live && f.broker.live[Runners(f)[k]] == k.0
  {
    HeldIsLive(f.broker, k.0, f.controllers[k.0], OfEntry(k.1));
  }

  lemma RunnersApart(f: System, k: (string, Name), l: (string, Name))
    requires Balanced(f) && k in Runners(f) && l in Runners(f) && Runners(f)[k] == Runners(f)[l]
    ensures k == l
  {
    RunnerIsCounted(f, k);
    RunnerIsCounted(f, l);
    assert LeaseOf(f.controllers[k.0], OfEntry(k.1)) == LeaseOf(f.controllers[l.0], OfEntry(l.1));
  }

  lemma RunnersWithin(f: System)
    requires Balanced(f)
    ensures |Runners(f)| <= |f.broker.live|
  {
    forall k | k in Runners(f) ensures Runners(f)[k] in f.broker.live.Keys {
      RunnerIsCounted(f, k);
    }
    forall k, l | k in Runners(f) && l in Runners(f) && Runners(f)[k] == Runners(f)[l] ensures k == l {
      RunnersApart(f, k, l);
    }
    N.InjectiveSize(Runners(f));
    N.SubsetSize(Runners(f).Values, f.broker.live.Keys);
  }

  /** All scale sets together never track more runners than the process may run,
      and the broker counts every one of them. */
  lemma HostLimitHolds(f0: System, steps: seq<(string, Step)>, f: System)
    requires Opening(f0) && Reaches(f0, steps, f)
    ensures |Runners(f)| <= f.broker.inUse == |f.broker.live|
    ensures f.broker.limit > 0 ==> |Runners(f)| <= f.broker.limit
  {
    RunIsBalanced(f0, steps, f);
    RunnersWithin(f);
  }

  /** The scale set a lease was granted to holds it, and nobody else does. */
  lemma HolderIsOwner(f: System, t: nat, g: string, h: Holder)
    requires Balanced(f) && t in f.broker.live
    requires g in f.controllers && LeaseOf(f.controllers[g], h) == Some(t)
    ensures g == f.broker.live[t]
  {
    assert Out(f.broker, g, t);
  }

  /** Every lease the broker has out is held in exactly one place, by the scale set it was granted to. */
  lemma EveryLeaseHasOneHolder(f0: System, steps: seq<(string, Step)>, f: System, t: nat) returns (h: Holder)
    requires Opening(f0) && Reaches(f0, steps, f) && t in f.broker.live
    ensures f.broker.live[t] in f.controllers && LeaseOf(f.controllers[f.broker.live[t]], h) == Some(t)
    ensures forall g, k | g in f.controllers && LeaseOf(f.controllers[g], k) == Some(t) :: g == f.broker.live[t] && k == h
  {
    RunIsBalanced(f0, steps, f);
    var own := f.broker.live[t];
    assert Out(f.broker, own, t);
    h :| LeaseOf(f.controllers[own], h) == Some(t);
    forall g, k | g in f.controllers && LeaseOf(f.controllers[g], k) == Some(t) ensures g == own && k == h {
      HolderIsOwner(f, t, g, k);
    }
  }

  // -------------------------------------------- from configuration to grants

  function LimitOf(concurrent: nat, sets: seq<H.ScaleSet>): nat {
    if concurrent > 0 then concurrent else H.SumOfMaximums(sets)
  }

  /** A process started from an accepted configuration opens as the runs above begin. */
  lemma AcceptedConfigurationOpens(concurrent: nat, sets: seq<H.ScaleSet>, f0: System)
    requires H.Accepted(sets) && sets != [] && (concurrent == 0 || concurrent >= H.SumOfMinimums(sets))
    requires H.Registered(LimitOf(concurrent, sets), sets) == C.Registered(f0.broker)
    requires f0.controllers.Keys == f0.broker.groups.Keys
    requires forall g | g in f0.controllers :: f0.controllers[g] == Initial(f0.controllers[g].config)
    ensures Opening(f0) && f0.broker.limit > 0
  {
    H.AcceptedLimitFundsMinimums(concurrent, sets);
    H.RegistrationOwesMinimums(LimitOf(concurrent, sets), sets);
  }

  lemma GrantedOnRequest(b: C.State, g: string, c: Controller, r: C.State)
    requires C.Sound(b) && C.Quiescent(b) && g in b.groups && C.Below(b, g)
    requires BrokerNext(b, g, c, Wait(Request(b.next))) == Some(r)
    ensures b.next in r.live && r.live[b.next] == g && r.waiters == b.waiters
  {
    C.MinimumServedAtOnce(b, g);
  }

  /** At any time, a scale set below its minimum that asks for a slot has it when
      the request returns, whatever the others hold or wait for. */
  lemma MinimumNeverWaits(f0: System, steps: seq<(string, Step)>, f: System, g: string, h: System)
    requires Opening(f0) && Reaches(f0, steps, f) && C.Known(f.broker)
    requires Next(f, g, Wait(Request(f.broker.next))) == Some(h)
    requires g in f.broker.groups && C.Below(f.broker, g)
    ensures f.broker.next in h.broker.live && h.broker.live[f.broker.next] == g
    ensures h.broker.waiters == f.broker.waiters
  {
    RunIsBalanced(f0, steps, f);
    NextParts(f, g, Wait(Request(f.broker.next)), h);
    GrantedOnRequest(f.broker, g, f.controllers[g], h.broker);
  }
}
