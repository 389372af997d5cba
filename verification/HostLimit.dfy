/** The host-wide limit the configuration gives the broker, and why it is
    exactly what makes the broker's minimum reservations good. */
module HostLimit {
  import C = Capacity

  /** `key` is the broker name of the scale set; it carries the position in the
      configuration, so keys never repeat. */
  datatype ScaleSet = ScaleSet(key: string, minRunners: nat, maxRunners: nat)

  ghost predicate Accepted(sets: seq<ScaleSet>) {
    && (forall i | 0 <= i < |sets| :: sets[i].minRunners <= sets[i].maxRunners && sets[i].maxRunners >= 1)
    && (forall i, j | 0 <= i < j < |sets| :: sets[i].key != sets[j].key)
  }

  function SumOfMaximums(sets: seq<ScaleSet>): nat {
    if sets == [] then 0 else SumOfMaximums(sets[..|sets| - 1]) + sets[|sets| - 1].maxRunners
  }

  function SumOfMinimums(sets: seq<ScaleSet>): nat {
    if sets == [] then 0 else SumOfMinimums(sets[..|sets| - 1]) + sets[|sets| - 1].minRunners
  }

  /** Zero, or nothing configured, keeps the sum of every set's own maximum. */
  method EffectiveConcurrent(concurrent: int, sets: seq<ScaleSet>) returns (limit: int)
    ensures limit == if concurrent > 0 then concurrent else SumOfMaximums(sets)
  {
    if concurrent > 0 {
      return concurrent;
    }
    limit := 0;
    for i := 0 to |sets|
      invariant limit == SumOfMaximums(sets[..i])
    {
      assert sets[..i + 1][..i] == sets[..i];
      limit := limit + sets[i].maxRunners;
    }
    assert sets[..|sets|] == sets;
  }

  method ValidateConcurrent(concurrent: int, sets: seq<ScaleSet>) returns (accepted: bool)
    ensures accepted <==> concurrent == 0 || concurrent >= SumOfMinimums(sets)
  {
    if concurrent == 0 {
      return true;
    }
    var totalMin := 0;
    for i := 0 to |sets|
      invariant totalMin == SumOfMinimums(sets[..i])
    {
      assert sets[..i + 1][..i] == sets[..i];
      totalMin := totalMin + sets[i].minRunners;
    }
    assert sets[..|sets|] == sets;
    accepted := concurrent >= totalMin;
  }

  /** Every scale set registered in order, before any of them acquires. */
  function Registered(limit: int, sets: seq<ScaleSet>): C.Registration {
    if sets == [] then C.Registered(C.Opened(limit))
    else
      match Registered(limit, sets[..|sets| - 1])
      case DuplicateName => C.DuplicateName
      case Registered(b) => C.Register(b, sets[|sets| - 1].key, sets[|sets| - 1].minRunners)
  }

  lemma {:induction false} RegistrationOwesMinimums(limit: int, sets: seq<ScaleSet>)
    requires Accepted(sets)
    ensures var r := Registered(limit, sets);
            && r.Registered?
            && r.state == C.Opened(limit).(groups := r.state.groups)
            && C.Accounted(r.state)
            && C.Unmet(r.state.groups) == SumOfMinimums(sets)
            && r.state.groups.Keys == set i | 0 <= i < |sets| :: sets[i].key
  {
    if sets == [] {
      assert C.OwedTo(map[]) == {};
    } else {
      var init, last := sets[..|sets| - 1], sets[|sets| - 1];
      RegistrationOwesMinimums(limit, init);
      var b := Registered(limit, init).state;
      C.RegisterKeepsAccounts(b, last.key, last.minRunners);
      assert forall i | 0 <= i < |sets| :: sets[i].key == if i < |init| then init[i].key else last.key;
    }
  }

  lemma {:induction false} MaximumsCoverMinimums(sets: seq<ScaleSet>)
    requires Accepted(sets)
    ensures SumOfMinimums(sets) <= SumOfMaximums(sets)
    ensures sets != [] ==> SumOfMaximums(sets) >= 1
  {
    if sets != [] {
      MaximumsCoverMinimums(sets[..|sets| - 1]);
    }
  }

  /** The configuration check accepts a limit exactly when the broker it opens
      can honour every minimum; from then on every run keeps it so. */
  lemma AcceptedLimitFundsMinimums(concurrent: nat, sets: seq<ScaleSet>)
    requires Accepted(sets) && sets != []
    ensures var limit := if concurrent > 0 then concurrent else SumOfMaximums(sets);
            var r := Registered(limit, sets);
            && r.Registered? && limit > 0
            && (concurrent == 0 || concurrent >= SumOfMinimums(sets)
                <==> C.Sound(r.state) && C.Quiescent(r.state))
  {
    var limit := if concurrent > 0 then concurrent else SumOfMaximums(sets);
    RegistrationOwesMinimums(limit, sets);
    MaximumsCoverMinimums(sets);
  }
}
