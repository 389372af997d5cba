/** The capacity broker as the program runs it. Its counters, its group table
    and its queue are fields changed in place; each method is one critical
    section and is proved to be the step of the same name in Capacity. */
module CapacityBroker {
  import C = Capacity

  class Broker {
    const limit: int
    var inUse: int
    var groups: map<string, C.Group>
    var waiters: seq<C.Waiter>
    var live: map<nat, string>
    var next: nat
    ghost var grants: seq<C.Grant>

    ghost function View(): C.State
      reads this
    {
      C.State(limit, inUse, groups, waiters, live, grants, next)
    }

    ghost predicate Valid()
      reads this
    {
      C.Known(View()) && forall t | t in live :: live[t] in groups
    }

    constructor (limit: int)
      ensures Valid() && View() == C.Opened(limit)
    {
      this.limit, inUse, groups, waiters, live, next, grants := limit, 0, map[], [], map[], 0, [];
    }

    /** A second registration of a name is refused. */
    method Register(name: string, minimum: int) returns (registered: bool)
      requires Valid()
      modifies this
      ensures Valid()
      ensures registered <==> name !in old(groups)
      ensures registered ==> name in groups && groups[name].inUse == 0 && groups[name].minimum == (if minimum < 0 then 0 else minimum)
      ensures registered <==> C.Register(old(View()), name, minimum).Registered?
      ensures View() == if registered then C.Register(old(View()), name, minimum).state else old(View())
    {
      registered := name !in groups;
      if registered {
        groups := groups[name := C.Group(if minimum < 0 then 0 else minimum, 0)];
      }
    }

    method SurplusAvailable(requesting: string) returns (available: bool)
      requires Valid() && requesting in groups
      ensures available == C.SurplusAvailable(View(), requesting)
    {
      if limit <= 0 {
        return true;
      }
      var reservedForOthers := 0;
      var others := groups - {requesting};
      while others != map[]
        invariant others.Keys <= groups.Keys
        invariant reservedForOthers + C.Unmet(others) == C.Unmet(groups - {requesting})
        decreases |others|
      {
        var k :| k in others;
        C.UnmetSplit(others, k);
        if others[k].inUse < others[k].minimum {
          reservedForOthers := reservedForOthers + (others[k].minimum - others[k].inUse);
        }
        others := others - {k};
      }
      available := limit - inUse - 1 >= reservedForOthers;
    }

    method NextWaiter(minimum: bool) returns (idx: int)
      requires Valid()
      ensures idx == C.FirstEligible(View(), minimum, 0)
    {
      var i := 0;
      while i < |waiters|
        invariant 0 <= i <= |waiters|
        invariant C.FirstEligible(View(), minimum, 0) == C.FirstEligible(View(), minimum, i)
      {
        var w := waiters[i];
        if !w.cancelled {
          var g := groups[w.group];
          var belowMinimum := g.inUse < g.minimum;
          if belowMinimum == minimum {
            var eligible := belowMinimum;
            if !eligible {
              eligible := SurplusAvailable(w.group);
            }
            if eligible {
              return i;
            }
          }
        }
        i := i + 1;
      }
      idx := -1;
    }

    method CompactWaiters()
      requires Valid()
      modifies this`waiters
      ensures Valid() && waiters == C.Kept(old(waiters))
    {
      ghost var ws := waiters;
      var kept: seq<C.Waiter> := [];
      var i := 0;
      while i < |waiters|
        invariant waiters == ws && 0 <= i <= |ws|
        invariant kept == C.Kept(ws[..i])
      {
        assert ws[..i + 1][..i] == ws[..i];
        if !waiters[i].cancelled {
          kept := kept + [waiters[i]];
        }
        i := i + 1;
      }
      C.CompactIsKnown(View());
      assert ws[..i] == ws;
      waiters := kept;
      assert View() == old(View()).(waiters := C.Kept(ws));
    }

    /** Hands one slot to the waiter at `idx`. */
    method GrantAt(idx: nat)
      requires Valid() && idx < |waiters|
      modifies this`inUse, this`groups, this`waiters, this`live, this`grants
      ensures Valid() && View() == C.GrantAt(old(View()), idx)
    {
      var w := waiters[idx];
      var g := groups[w.group];
      waiters := waiters[..idx] + waiters[idx + 1..];
      inUse := inUse + 1;
      grants := grants + [C.Grant(w.ticket, w.group, g.inUse < g.minimum)];
      groups := groups[w.group := g.(inUse := g.inUse + 1)];
      live := live[w.ticket := w.group];
      assert View() == C.GrantAt(old(View()), idx);
    }

    /** Serves the queue: minimum requests first, then surplus in arrival order. */
    method Dispatch()
      requires Valid()
      modifies this`inUse, this`groups, this`waiters, this`live, this`grants
      ensures Valid() && View() == C.Dispatch(old(View()))
    {
      while limit <= 0 || inUse < limit
        invariant Valid()
        invariant C.Dispatch(View()) == C.Dispatch(old(View()))
        decreases |waiters|
      {
        var idx := NextWaiter(true);
        if idx < 0 {
          idx := NextWaiter(false);
        }
        if idx < 0 {
          break;
        }
        C.DispatchUnrolls(View());
        GrantAt(idx);
      }
      C.DispatchUnrolls(View());
      CompactWaiters();
    }

    /** The first critical section of an acquisition; the lease is granted at
        once exactly when the ticket is live afterwards. */
    method Enqueue(group: string) returns (ticket: nat, granted: bool)
      requires Valid() && group in groups
      modifies this
      ensures Valid() && View() == C.Arriving(old(View()), group)
      ensures ticket == old(next) && granted == (ticket in live)
    {
      ticket := next;
      waiters := waiters + [C.Waiter(next, group, false)];
      next := next + 1;
      assert View() == C.Joined(old(View()), group);
      Dispatch();
      granted := ticket in live;
    }

    /** The critical section of a cancelled acquisition. A lease granted in the
        meantime is left for its holder to release. */
    method Cancel(ticket: nat) returns (granted: bool)
      requires Valid()
      modifies this
      ensures Valid() && granted == (ticket in old(live))
      ensures View() == if granted then old(View()) else C.Abandoning(old(View()), ticket)
    {
      granted := ticket in live;
      if !granted {
        var i := 0;
        ghost var ws := waiters;
        while i < |waiters|
          invariant 0 <= i <= |waiters| == |ws|
          invariant forall k | 0 <= k < |ws| ::
                      waiters[k] == if k < i && ws[k].ticket == ticket then ws[k].(cancelled := true) else ws[k]
          invariant View() == old(View()).(waiters := waiters)
        {
          if waiters[i].ticket == ticket {
            waiters := waiters[i := waiters[i].(cancelled := true)];
          }
          i := i + 1;
        }
        assert waiters == C.MarkCancelled(ws, ticket);
        Dispatch();
      }
    }

    method Return(ticket: nat)
      requires Valid() && ticket in live
      modifies this
      ensures Valid() && View() == C.Releasing(old(View()), ticket)
    {
      var g := groups[live[ticket]];
      inUse := inUse - 1;
      groups := groups[live[ticket] := g.(inUse := g.inUse - 1)];
      live := live - {ticket};
      assert View() == C.WithoutLease(old(View()), ticket);
      Dispatch();
    }
  }

  /** One slot of the broker, given back at most once. */
  class Lease {
    const broker: Broker
    const ticket: nat
    var done: bool

    constructor (broker: Broker, ticket: nat)
      ensures this.broker == broker && this.ticket == ticket && !done
    {
      this.broker, this.ticket, done := broker, ticket, false;
    }

    method Release()
      requires broker.Valid()
      requires !done ==> ticket in broker.live
      modifies this, broker
      ensures broker.Valid() && done
      ensures broker.View() == if old(done) then old(broker.View()) else C.Releasing(old(broker.View()), ticket)
    {
      if !done {
        done := true;
        broker.Return(ticket);
      }
    }
  }
}
