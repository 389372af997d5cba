/** The process-wide capacity broker as a value: what one critical section of
    the broker does to its queue and counters, and what every run keeps.

    A request is known by its ticket, its place in the order of arrival. The
    lease a request is granted carries the same ticket, so `live` is the set of
    leases handed out and not yet released. */
module Capacity {

  datatype Group = Group(minimum: nat, inUse: int)

  datatype Waiter = Waiter(ticket: nat, group: string, cancelled: bool)

  /** One entry of the history of grants; `below` says whether the group was
      under its minimum at the moment of the grant. */
  datatype Grant = Grant(ticket: nat, group: string, below: bool)

  datatype State = State(
    limit: int,
    inUse: int,
    groups: map<string, Group>,
    waiters: seq<Waiter>,
    live: map<nat, string>,
    grants: seq<Grant>,
    next: nat)

  // ---------------------------------------------------------------- minimums

  function Deficit(g: Group): nat {
    if g.inUse < g.minimum then g.minimum - g.inUse else 0
  }

  /** The slots owed to one group, numbered from what it has to its minimum. */
  function Owed(name: string, g: Group): set<(string, int)> {
    set i | g.inUse <= i < g.minimum :: (name, i)
  }

  function OwedTo(groups: map<string, Group>): set<(string, int)> {
    set name, i | name in groups && groups[name].inUse <= i < groups[name].minimum :: (name, i)
  }

  /** The number of slots still owed to groups below their minimum. */
  ghost function Unmet(groups: map<string, Group>): nat {
    |OwedTo(groups)|
  }

  lemma {:induction false} OwedCount(name: string, g: Group)
    ensures |Owed(name, g)| == Deficit(g)
    decreases Deficit(g)
  {
    if g.inUse < g.minimum {
      OwedCount(name, g.(inUse := g.inUse + 1));
      assert Owed(name, g) == Owed(name, g.(inUse := g.inUse + 1)) + {(name, g.inUse)};
    } else {
      assert Owed(name, g) == {};
    }
  }

  lemma UnmetSplit(groups: map<string, Group>, g: string)
    requires g in groups
    ensures Unmet(groups) == Deficit(groups[g]) + Unmet(groups - {g})
  {
    OwedCount(g, groups[g]);
    assert OwedTo(groups) == Owed(g, groups[g]) + OwedTo(groups - {g});
  }

  lemma UnmetUpdate(groups: map<string, Group>, g: string, v: Group)
    requires g in groups
    ensures Unmet(groups[g := v]) == Unmet(groups) - Deficit(groups[g]) + Deficit(v)
  {
    UnmetSplit(groups, g);
    UnmetSplit(groups[g := v], g);
    assert groups[g := v] - {g} == groups - {g};
  }

  lemma {:induction false} UnmetZero(groups: map<string, Group>)
    requires Unmet(groups) == 0
    ensures forall g | g in groups :: groups[g].inUse >= groups[g].minimum
  {
    forall g | g in groups ensures groups[g].inUse >= groups[g].minimum {
      UnmetSplit(groups, g);
    }
  }

  // ---------------------------------------------------------------- dispatch

  predicate Known(b: State) {
    forall i | 0 <= i < |b.waiters| :: b.waiters[i].group in b.groups
  }

  predicate Below(b: State, g: string)
    requires g in b.groups
  {
    b.groups[g].inUse < b.groups[g].minimum
  }

  ghost predicate SurplusAvailable(b: State, g: string) {
    b.limit <= 0 || b.limit - b.inUse - 1 >= Unmet(b.groups - {g})
  }

  /** The filter the search for a waiter of one class applies. */
  ghost predicate Eligible(b: State, w: Waiter, minimum: bool)
    requires w.group in b.groups
  {
    && !w.cancelled
    && Below(b, w.group) == minimum
    && (minimum || SurplusAvailable(b, w.group))
  }

  ghost function FirstEligible(b: State, minimum: bool, from: nat): (i: int)
    requires Known(b)
    requires from <= |b.waiters|
    ensures -1 <= i < |b.waiters|
    ensures i >= 0 ==> from <= i && Eligible(b, b.waiters[i], minimum)
    ensures forall j | from <= j < (if i < 0 then |b.waiters| else i) :: !Eligible(b, b.waiters[j], minimum)
    decreases |b.waiters| - from
  {
    if from == |b.waiters| then -1
    else if Eligible(b, b.waiters[from], minimum) then from
    else FirstEligible(b, minimum, from + 1)
  }

  /** Minimum requests first, then surplus; -1 when nobody can be served. */
  ghost function Choose(b: State): (i: int)
    requires Known(b)
    ensures -1 <= i < |b.waiters|
  {
    var i := FirstEligible(b, true, 0);
    if i >= 0 then i else FirstEligible(b, false, 0)
  }

  predicate HasRoom(b: State) {
    b.limit <= 0 || b.inUse < b.limit
  }

  function GrantAt(b: State, i: nat): (r: State)
    requires Known(b)
    requires i < |b.waiters|
    ensures Known(r)
  {
    var w := b.waiters[i];
    var g := b.groups[w.group];
    b.(inUse := b.inUse + 1,
       groups := b.groups[w.group := g.(inUse := g.inUse + 1)],
       waiters := b.waiters[..i] + b.waiters[i + 1..],
       live := b.live[w.ticket := w.group],
       grants := b.grants + [Grant(w.ticket, w.group, Below(b, w.group))])
  }

  function Kept(ws: seq<Waiter>): (r: seq<Waiter>)
    ensures forall k | 0 <= k < |r| :: r[k] in ws && !r[k].cancelled
  {
    if ws == [] then []
    else
      var last := ws[|ws| - 1];
      Kept(ws[..|ws| - 1]) + if last.cancelled then [] else [last]
  }

  lemma CompactIsKnown(b: State)
    requires Known(b)
    ensures Known(b.(waiters := Kept(b.waiters)))
  {
    assert forall k | 0 <= k < |Kept(b.waiters)| :: Kept(b.waiters)[k].group in b.groups;
  }

  ghost function Dispatch(b: State): (r: State)
    requires Known(b)
    ensures Known(r)
    decreases |b.waiters|
  {
    if HasRoom(b) && Choose(b) >= 0 then Dispatch(GrantAt(b, Choose(b)))
    else
      CompactIsKnown(b);
      b.(waiters := Kept(b.waiters))
  }

  lemma DispatchUnrolls(b: State)
    requires Known(b)
    ensures Dispatch(b) == if HasRoom(b) && Choose(b) >= 0 then Dispatch(GrantAt(b, Choose(b)))
                           else b.(waiters := Kept(b.waiters))
  {}

  // -------------------------------------------------------------- operations

  datatype Op = Arrive(group: string) | Abandon(ticket: nat) | Release(ticket: nat)

  function Joined(b: State, g: string): (r: State)
    requires Known(b) && g in b.groups
    ensures Known(r)
  {
    b.(waiters := b.waiters + [Waiter(b.next, g, false)], next := b.next + 1)
  }

  /** The request joins the queue and the queue is served. */
  ghost function Arriving(b: State, g: string): State
    requires Known(b) && g in b.groups
  {
    Dispatch(Joined(b, g))
  }

  function MarkCancelled(ws: seq<Waiter>, ticket: nat): seq<Waiter> {
    seq(|ws|, i requires 0 <= i < |ws| =>
      if ws[i].ticket == ticket then ws[i].(cancelled := true) else ws[i])
  }

  function WithoutLease(b: State, t: nat): State
    requires t in b.live && b.live[t] in b.groups
  {
    var g := b.groups[b.live[t]];
    b.(inUse := b.inUse - 1,
       groups := b.groups[b.live[t] := g.(inUse := g.inUse - 1)],
       live := b.live - {t})
  }

  /** Releasing a lease twice, or one never granted, changes nothing. */
  ghost function Releasing(b: State, ticket: nat): State
    requires Known(b)
  {
    if ticket !in b.live || b.live[ticket] !in b.groups then b
    else Dispatch(WithoutLease(b, ticket))
  }

  /** A cancelled request gives back a lease it was granted in the meantime. */
  ghost function Abandoning(b: State, ticket: nat): State
    requires Known(b)
  {
    if ticket in b.live then Releasing(b, ticket)
    else Dispatch(b.(waiters := MarkCancelled(b.waiters, ticket)))
  }

  ghost function Step(b: State, op: Op): State
    requires Known(b)
    requires op.Arrive? ==> op.group in b.groups
  {
    match op
    case Arrive(g) => Arriving(b, g)
    case Abandon(t) => Abandoning(b, t)
    case Release(t) => Releasing(b, t)
  }

  // --------------------------------------------------------------- invariant

  /** The leases out to one group. */
  function Held(live: map<nat, string>, g: string): set<nat> {
    set t | t in live && live[t] == g
  }

  /** The counters are exactly the leases handed out, per group and in total. */
  ghost predicate Accounted(b: State) {
    && b.inUse == |b.live|
    && (forall t | t in b.live :: b.live[t] in b.groups && t < b.next)
    && (forall g | g in b.groups :: b.groups[g].inUse == |Held(b.live, g)|)
    && (b.limit > 0 ==> b.inUse <= b.limit)
  }

  /** What is free covers what is still owed to groups below their minimum. */
  ghost predicate Funded(b: State) {
    b.limit > 0 ==> b.limit - b.inUse >= Unmet(b.groups)
  }

  ghost predicate Ascending(ws: seq<Waiter>) {
    forall i, j | 0 <= i < j < |ws| :: ws[i].ticket < ws[j].ticket
  }

  /** The queue is in arrival order and apart from the leases. */
  ghost predicate Queued(ws: seq<Waiter>, b: State) {
    && Ascending(ws)
    && (forall i | 0 <= i < |ws| ::
         ws[i].ticket < b.next && ws[i].ticket !in b.live && ws[i].group in b.groups)
  }

  /** Grant `a` may not come after `ticket` of `group`: same group, or a surplus grant. */
  predicate Precedes(a: Grant, group: string, ticket: nat) {
    a.group == group || !a.below ==> a.ticket < ticket
  }

  /** Grants so far were in arrival order within a group, and a surplus grant
      never went ahead of an older request, granted later or still waiting. */
  ghost predicate InOrder(b: State) {
    && (forall i | 0 <= i < |b.grants| :: b.grants[i].ticket < b.next)
    && (forall i, k | 0 <= i < |b.grants| && 0 <= k < |b.waiters| && !b.waiters[k].cancelled ::
         Precedes(b.grants[i], b.waiters[k].group, b.waiters[k].ticket))
    && (forall i, j | 0 <= i < j < |b.grants| ::
         Precedes(b.grants[i], b.grants[j].group, b.grants[j].ticket))
  }

  /** Nothing servable is left waiting. */
  ghost predicate Quiescent(b: State) {
    && (b.limit <= 0 ==> b.waiters == [])
    && (b.waiters != [] ==> b.limit - b.inUse == Unmet(b.groups))
    && (forall k | 0 <= k < |b.waiters| ::
         var w := b.waiters[k];
         !w.cancelled && w.group in b.groups && !Below(b, w.group))
  }

  ghost predicate Sound(b: State) {
    Accounted(b) && Funded(b) && Queued(b.waiters, b) && InOrder(b)
  }

  // --------------------------------------------------- one grant, one dispatch

  lemma HeldAfterGrant(live: map<nat, string>, t: nat, g: string, h: string)
    requires t !in live
    ensures |Held(live[t := g], h)| == |Held(live, h)| + if g == h then 1 else 0
    ensures |live[t := g]| == |live| + 1
  {
    if g == h {
      assert Held(live[t := g], h) == Held(live, h) + {t};
    } else {
      assert Held(live[t := g], h) == Held(live, h);
    }
  }

  lemma HeldAfterRelease(live: map<nat, string>, t: nat, h: string)
    requires t in live
    ensures |Held(live - {t}, h)| == |Held(live, h)| - if live[t] == h then 1 else 0
    ensures |live - {t}| == |live| - 1
  {
    if live[t] == h {
      assert Held(live - {t}, h) == Held(live, h) - {t};
    } else {
      assert Held(live - {t}, h) == Held(live, h);
    }
    assert (live - {t}).Keys == live.Keys - {t};
  }

  /** An older request is passed over only by a group below its minimum, and
      only when the older request's own group is not. */
  lemma OvertakenOnlyByMinimum(b: State, j: nat)
    requires Known(b)
    requires j < Choose(b)
    requires !b.waiters[j].cancelled
    ensures Below(b, b.waiters[Choose(b)].group)
    ensures !Below(b, b.waiters[j].group)
    ensures b.waiters[j].group != b.waiters[Choose(b)].group
  {
    var i := Choose(b);
    var w, v := b.waiters[i], b.waiters[j];
    if FirstEligible(b, true, 0) < 0 {
      // both are surplus, and surplus is available to one exactly when it is to the other
      assert !Eligible(b, v, true);
      UnmetSplit(b.groups, w.group);
      UnmetSplit(b.groups, v.group);
      assert Eligible(b, v, false);
      assert false;
    }
  }

  /** The queue without its i-th request. */
  lemma WithoutAt(ws: seq<Waiter>, i: nat, k: nat)
    requires i < |ws| && k < |ws| - 1
    ensures (ws[..i] + ws[i + 1..])[k] == ws[if k < i then k else k + 1]
  {}

  /** A minimum request uses a slot that was owed; a surplus request leaves
      enough for everything owed. */
  lemma GrantKeepsFunded(b: State, i: nat)
    requires Known(b) && Funded(b) && i < |b.waiters|
    requires Eligible(b, b.waiters[i], true) || Eligible(b, b.waiters[i], false)
    ensures Funded(GrantAt(b, i))
  {
    var g := b.waiters[i].group;
    UnmetUpdate(b.groups, g, GrantAt(b, i).groups[g]);
    UnmetSplit(b.groups, g);
  }

  lemma GrantKeepsAccounts(b: State)
    requires Sound(b) && HasRoom(b) && Choose(b) >= 0
    ensures Accounted(GrantAt(b, Choose(b))) && Funded(GrantAt(b, Choose(b)))
  {
    var w := b.waiters[Choose(b)];
    var r := GrantAt(b, Choose(b));
    GrantKeepsFunded(b, Choose(b));
    forall h | h in b.groups ensures r.groups[h].inUse == |Held(r.live, h)| {
      HeldAfterGrant(b.live, w.ticket, w.group, h);
    }
    HeldAfterGrant(b.live, w.ticket, w.group, w.group);
  }

  /** The grant made comes before every request it leaves in the queue. */
  lemma ChosenPrecedes(b: State, k: nat)
    requires Known(b) && Ascending(b.waiters) && Choose(b) >= 0
    requires k < |b.waiters| && k != Choose(b) && !b.waiters[k].cancelled
    ensures var w := b.waiters[Choose(b)];
            Precedes(Grant(w.ticket, w.group, Below(b, w.group)), b.waiters[k].group, b.waiters[k].ticket)
  {
    if k < Choose(b) {
      OvertakenOnlyByMinimum(b, k);
    }
  }

  lemma OrderWithout(b: State, i: nat)
    requires Known(b) && Queued(b.waiters, b) && InOrder(b) && i < |b.waiters| && !b.waiters[i].cancelled
    requires var w := b.waiters[i];
             forall k | 0 <= k < |b.waiters| && k != i && !b.waiters[k].cancelled ::
               Precedes(Grant(w.ticket, w.group, Below(b, w.group)), b.waiters[k].group, b.waiters[k].ticket)
    ensures Queued(GrantAt(b, i).waiters, GrantAt(b, i)) && InOrder(GrantAt(b, i))
  {
    var ws := GrantAt(b, i).waiters;
    forall k | 0 <= k < |ws| ensures ws[k] == b.waiters[if k < i then k else k + 1] {
      WithoutAt(b.waiters, i, k);
    }
  }

  lemma GrantKeepsOrder(b: State)
    requires Sound(b) && Choose(b) >= 0
    ensures Queued(GrantAt(b, Choose(b)).waiters, GrantAt(b, Choose(b)))
    ensures InOrder(GrantAt(b, Choose(b)))
  {
    var i := Choose(b);
    forall k | 0 <= k < |b.waiters| && k != i && !b.waiters[k].cancelled
      ensures var w := b.waiters[i];
              Precedes(Grant(w.ticket, w.group, Below(b, w.group)), b.waiters[k].group, b.waiters[k].ticket)
    {
      ChosenPrecedes(b, k);
    }
    OrderWithout(b, i);
  }

  lemma GrantKeepsSound(b: State)
    requires Sound(b) && HasRoom(b) && Choose(b) >= 0
    ensures Sound(GrantAt(b, Choose(b)))
  {
    GrantKeepsAccounts(b);
    GrantKeepsOrder(b);
  }

  lemma {:induction false} KeptAscends(ws: seq<Waiter>)
    requires Ascending(ws)
    ensures Ascending(Kept(ws))
  {
    if ws != [] {
      var init := ws[..|ws| - 1];
      KeptAscends(init);
      forall j | 0 <= j < |Kept(init)| ensures Kept(init)[j].ticket < ws[|ws| - 1].ticket {
        var k :| 0 <= k < |init| && init[k] == Kept(init)[j];
      }
    }
  }

  lemma CompactKeepsSound(b: State)
    requires Sound(b)
    ensures Sound(b.(waiters := Kept(b.waiters)))
  {
    var ws := Kept(b.waiters);
    KeptAscends(b.waiters);
    forall k | 0 <= k < |ws| ensures exists j :: 0 <= j < |b.waiters| && b.waiters[j] == ws[k] {}
  }

  /** What serving the queue may change: queued requests become leases, and
      none that still waits is lost. */
  ghost predicate Served(b: State, r: State) {
    && r.next == b.next && r.limit == b.limit && r.groups.Keys == b.groups.Keys
    && (forall t | t in b.live :: t in r.live && r.live[t] == b.live[t])
    && (forall t | t in r.live && t !in b.live :: Waiter(t, r.live[t], false) in b.waiters)
    && (forall w | w in r.waiters :: w in b.waiters)
    && (forall w | w in b.waiters && !w.cancelled :: w in r.waiters || (w.ticket in r.live && r.live[w.ticket] == w.group))
  }

  lemma OthersStay(ws: seq<Waiter>, i: nat, v: Waiter)
    requires i < |ws| && v in ws && v != ws[i]
    ensures v in ws[..i] + ws[i + 1..]
  {
    assert ws == ws[..i] + [ws[i]] + ws[i + 1..];
  }

  lemma GrantServes(b: State)
    requires Sound(b) && Choose(b) >= 0
    ensures Served(b, GrantAt(b, Choose(b)))
  {
    var i := Choose(b);
    var w, r := b.waiters[i], GrantAt(b, i);
    assert w == Waiter(w.ticket, w.group, false) && w in b.waiters;
    forall v | v in r.waiters ensures v in b.waiters {
      var k :| 0 <= k < |r.waiters| && r.waiters[k] == v;
      WithoutAt(b.waiters, i, k);
    }
    forall v | v in b.waiters && v != w ensures v in r.waiters {
      OthersStay(b.waiters, i, v);
    }
  }

  lemma ServedTwice(b: State, m: State, r: State)
    requires Served(b, m) && Served(m, r)
    ensures Served(b, r)
  {}

  lemma {:induction false} KeptHas(ws: seq<Waiter>, w: Waiter)
    requires w in ws && !w.cancelled
    ensures w in Kept(ws)
  {
    if ws[|ws| - 1] != w {
      KeptHas(ws[..|ws| - 1], w);
    }
  }

  lemma CompactServes(b: State)
    ensures Served(b, b.(waiters := Kept(b.waiters)))
  {
    forall w | w in b.waiters && !w.cancelled ensures w in Kept(b.waiters) {
      KeptHas(b.waiters, w);
    }
  }

  /** A waiter nobody can serve is surplus, and all that is free is owed. */
  lemma Unservable(b: State, w: Waiter)
    requires Sound(b) && !(HasRoom(b) && Choose(b) >= 0)
    requires w in b.waiters && !w.cancelled
    ensures b.limit > 0 && w.group in b.groups && !Below(b, w.group)
    ensures b.limit - b.inUse == Unmet(b.groups)
  {
    UnmetSplit(b.groups, w.group);
    if HasRoom(b) {
      assert !Eligible(b, w, true) && !Eligible(b, w, false);
    } else {
      UnmetZero(b.groups);
    }
  }

  /** When serving stops, nothing servable is left. */
  lemma NothingServable(b: State)
    requires Sound(b) && !(HasRoom(b) && Choose(b) >= 0)
    ensures Quiescent(b.(waiters := Kept(b.waiters)))
  {
    var ws := Kept(b.waiters);
    forall k | 0 <= k < |ws|
      ensures b.limit > 0 && ws[k].group in b.groups && !Below(b, ws[k].group)
      ensures b.limit - b.inUse == Unmet(b.groups)
    {
      Unservable(b, ws[k]);
    }
    if ws != [] {
      assert ws[0] == Kept(b.waiters)[0];
    }
  }

  /** Serving the queue keeps the books and leaves nothing servable behind. */
  lemma {:induction false} DispatchKeepsSound(b: State)
    requires Sound(b)
    ensures Sound(Dispatch(b)) && Quiescent(Dispatch(b)) && Served(b, Dispatch(b))
    decreases |b.waiters|
  {
    if HasRoom(b) && Choose(b) >= 0 {
      var m := GrantAt(b, Choose(b));
      GrantKeepsSound(b);
      GrantServes(b);
      DispatchKeepsSound(m);
      ServedTwice(b, m, Dispatch(m));
    } else {
      CompactKeepsSound(b);
      NothingServable(b);
      CompactServes(b);
    }
  }

  // -------------------------------------------------------------- whole runs

  lemma ReleaseKeepsSound(b: State, t: nat)
    requires Sound(b) && t in b.live
    ensures Sound(WithoutLease(b, t))
  {
    var r := WithoutLease(b, t);
    UnmetUpdate(b.groups, b.live[t], r.groups[b.live[t]]);
    forall h | h in b.groups ensures r.groups[h].inUse == |Held(r.live, h)| {
      HeldAfterRelease(b.live, t, h);
    }
    HeldAfterRelease(b.live, t, b.live[t]);
  }

  lemma ReleasingKeepsSound(b: State, t: nat)
    requires Sound(b) && t in b.live
    ensures Sound(Releasing(b, t)) && Quiescent(Releasing(b, t)) && Served(WithoutLease(b, t), Releasing(b, t))
  {
    ReleaseKeepsSound(b, t);
    DispatchKeepsSound(WithoutLease(b, t));
  }

  lemma CancelKeepsSound(b: State, t: nat)
    requires Sound(b)
    ensures Sound(b.(waiters := MarkCancelled(b.waiters, t)))
  {}

  lemma ArriveKeepsSound(b: State, g: string)
    requires Sound(b) && g in b.groups
    ensures Sound(Joined(b, g))
  {}

  /** A request is neither waiting nor out; what others had is still theirs, waiting,
      granted or out. */
  ghost predicate Withdrawn(b: State, t: nat, r: State) {
    && t !in r.live && (forall w | w in r.waiters :: w.ticket != t)
    && (forall k | k in b.live && k != t :: k in r.live && r.live[k] == b.live[k])
    && (forall w | w in b.waiters && w.ticket != t && !w.cancelled ::
         w in r.waiters || (w.ticket in r.live && r.live[w.ticket] == w.group))
  }

  lemma ReturnedIsGone(b: State, t: nat)
    requires Sound(b) && t in b.live
    ensures Withdrawn(b, t, Releasing(b, t))
  {
    ReleasingKeepsSound(b, t);
  }

  lemma MarkedIsGone(b: State, t: nat, m: State, r: State)
    requires Sound(b) && t !in b.live && m == b.(waiters := MarkCancelled(b.waiters, t))
    requires Served(m, r) && Quiescent(r)
    ensures Withdrawn(b, t, r)
  {
    forall w | w in b.waiters && w.ticket != t ensures w in m.waiters {
      var i :| 0 <= i < |b.waiters| && b.waiters[i] == w;
      assert m.waiters[i] == w;
    }
    assert forall w | w in m.waiters && w.ticket == t :: w.cancelled;
  }

  /** A request is withdrawn for good, before or after its grant. */
  lemma WithdrawnIsGone(b: State, t: nat)
    requires Sound(b)
    ensures Withdrawn(b, t, Step(b, Abandon(t)))
  {
    if t in b.live {
      ReturnedIsGone(b, t);
    } else {
      var m := b.(waiters := MarkCancelled(b.waiters, t));
      CancelKeepsSound(b, t);
      DispatchKeepsSound(m);
      MarkedIsGone(b, t, m, Dispatch(m));
    }
  }

  /** Every operation keeps the books and leaves nothing servable waiting. */
  lemma StepKeepsSound(b: State, op: Op)
    requires Sound(b) && Quiescent(b)
    requires op.Arrive? ==> op.group in b.groups
    ensures Sound(Step(b, op)) && Quiescent(Step(b, op))
    ensures Step(b, op).groups.Keys == b.groups.Keys
    ensures Step(b, op).limit == b.limit
  {
    match op
    case Arrive(g) =>
      ArriveKeepsSound(b, g);
      DispatchKeepsSound(Joined(b, g));
    case Abandon(t) =>
      if t in b.live {
        ReleasingKeepsSound(b, t);
      } else {
        CancelKeepsSound(b, t);
        DispatchKeepsSound(b.(waiters := MarkCancelled(b.waiters, t)));
      }
    case Release(t) =>
      if t in b.live {
        ReleasingKeepsSound(b, t);
      }
  }

  ghost predicate Legal(b: State, ops: seq<Op>) {
    forall i | 0 <= i < |ops| && ops[i].Arrive? :: ops[i].group in b.groups
  }

  /** Any sequence of critical sections, in any order of arrival, cancellation and release. */
  ghost function Run(b: State, ops: seq<Op>): (r: State)
    requires Sound(b) && Quiescent(b) && Legal(b, ops)
    ensures Sound(r) && Quiescent(r) && r.groups.Keys == b.groups.Keys && r.limit == b.limit
    decreases |ops|
  {
    if ops == [] then b
    else
      StepKeepsSound(b, ops[0]);
      Run(Step(b, ops[0]), ops[1..])
  }

  /** Over a whole run, grants within one group follow arrival, and whoever
      was granted ahead of an older request was below its group's minimum. */
  lemma RunsGrantInArrivalOrder(b: State, ops: seq<Op>, i: nat, j: nat)
    requires Sound(b) && Quiescent(b) && Legal(b, ops)
    requires i < j < |Run(b, ops).grants|
    ensures var gs := Run(b, ops).grants;
            && (gs[i].group == gs[j].group ==> gs[i].ticket < gs[j].ticket)
            && (gs[i].ticket > gs[j].ticket ==> gs[i].below && gs[i].group != gs[j].group)
  {
    assert Precedes(Run(b, ops).grants[i], Run(b, ops).grants[j].group, Run(b, ops).grants[j].ticket);
  }

  /** The newcomer of a group below its minimum is the one chosen. */
  lemma NewcomerChosen(b: State, g: string)
    requires Sound(b) && Quiescent(b) && g in b.groups && Below(b, g)
    ensures HasRoom(Joined(b, g)) && Choose(Joined(b, g)) == |b.waiters|
  {
    var c := Joined(b, g);
    UnmetSplit(b.groups, g);
    assert Eligible(c, c.waiters[|b.waiters|], true);
    forall k | 0 <= k < |b.waiters| ensures !Below(c, c.waiters[k].group) {
      assert c.waiters[k] == b.waiters[k];
    }
  }

  /** Once the newcomer has its slot, the queue is as settled as before. */
  lemma NewcomerSettles(b: State, g: string)
    requires Sound(b) && Quiescent(b) && g in b.groups && Below(b, g)
    ensures var d := GrantAt(Joined(b, g), |b.waiters|);
            d.waiters == b.waiters && d.live == b.live[b.next := g] && Quiescent(d)
  {
    var d := GrantAt(Joined(b, g), |b.waiters|);
    assert d.waiters == b.waiters;
    UnmetUpdate(b.groups, g, d.groups[g]);
    UnmetSplit(b.groups, g);
  }

  lemma NothingToChoose(d: State)
    requires Known(d) && Quiescent(d) && HasRoom(d)
    ensures Choose(d) == -1
  {
    if Choose(d) >= 0 {
      UnmetSplit(d.groups, d.waiters[Choose(d)].group);
      assert false;
    }
  }

  lemma {:induction false} KeptAll(ws: seq<Waiter>)
    requires forall k | 0 <= k < |ws| :: !ws[k].cancelled
    ensures Kept(ws) == ws
  {
    if ws != [] {
      KeptAll(ws[..|ws| - 1]);
    }
  }

  /** Serving a queue that is already quiescent changes nothing. */
  lemma SettledStays(d: State)
    requires Known(d) && Quiescent(d)
    ensures Dispatch(d) == d
  {
    KeptAll(d.waiters);
    if HasRoom(d) {
      NothingToChoose(d);
    }
  }

  lemma ServedOnce(c: State, d: State)
    requires Known(c) && HasRoom(c) && Choose(c) >= 0 && d == GrantAt(c, Choose(c))
    requires Quiescent(d)
    ensures Dispatch(c) == d
  {
    SettledStays(d);
  }

  /** A request of a group below its minimum never waits: the whole effect of
      its arrival is its own grant. */
  lemma MinimumServedAtOnce(b: State, g: string)
    requires Sound(b) && Quiescent(b) && g in b.groups && Below(b, g)
    ensures Arriving(b, g) == GrantAt(Joined(b, g), |b.waiters|)
    ensures GrantAt(Joined(b, g), |b.waiters|).waiters == b.waiters
    ensures GrantAt(Joined(b, g), |b.waiters|).live == b.live[b.next := g]
  {
    NewcomerChosen(b, g);
    NewcomerSettles(b, g);
    ServedOnce(Joined(b, g), GrantAt(Joined(b, g), |b.waiters|));
  }

  // ------------------------------------------------------------ registration

  datatype Registration = Registered(state: State) | DuplicateName

  function Opened(limit: int): State {
    State(limit, 0, map[], [], map[], [], 0)
  }

  /** A negative minimum counts as none; a second registration of a name is refused. */
  function Register(b: State, name: string, minimum: int): Registration {
    if name in b.groups then DuplicateName
    else Registered(b.(groups := b.groups[name := Group(if minimum < 0 then 0 else minimum, 0)]))
  }

  /** A new group owes its minimum and holds nothing. */
  lemma RegisterKeepsAccounts(b: State, name: string, minimum: int)
    requires Accounted(b) && name !in b.groups
    ensures var r := Register(b, name, minimum).state;
            Accounted(r) && Unmet(r.groups) == Unmet(b.groups) + if minimum < 0 then 0 else minimum
  {
    var r := Register(b, name, minimum).state;
    assert Held(b.live, name) == {};
    UnmetSplit(r.groups, name);
    assert r.groups - {name} == b.groups;
  }

  lemma RegisterKeepsSound(b: State, name: string, minimum: int)
    requires Sound(b) && Quiescent(b) && b.waiters == [] && name !in b.groups
    requires b.limit > 0 ==> b.limit - b.inUse >= Unmet(b.groups) + if minimum < 0 then 0 else minimum
    ensures var r := Register(b, name, minimum);
            r.Registered? && Sound(r.state) && Quiescent(r.state)
  {
    RegisterKeepsAccounts(b, name, minimum);
  }
}
