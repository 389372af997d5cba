/** Free-space thresholds, and what a validated disk configuration promises. */
module DiskConfig {

  datatype Threshold = Threshold(percent: real, bytes: nat)

  /** An absolute size ignores the capacity; a percentage is scaled and cut off. */
  function BytesOf(t: Threshold, total: nat): (r: nat)
    requires t.percent >= 0.0
    ensures t.bytes != 0 ==> r == t.bytes
    ensures t.bytes == 0 ==> 100.0 * r as real <= t.percent * total as real < 100.0 * (r + 1) as real
  {
    if t.bytes != 0 then t.bytes
    else
      assert t.percent / 100.0 * total as real >= 0.0;
      (t.percent / 100.0 * total as real).Floor
  }

  /** A threshold as written, and what parsing it gives. */
  datatype Setting = Unset | Percentage(percent: real) | Size(bytes: nat) | Malformed

  predicate Parses(s: Setting) {
    s.Size? || (s.Percentage? && 0.0 <= s.percent <= 100.0)
  }

  function Parsed(s: Setting): Threshold
    requires Parses(s)
  {
    if s.Size? then Threshold(0.0, s.bytes) else Threshold(s.percent, 0)
  }

  datatype Config = Config(minFree: Setting, targetFree: Setting, maxTier: int)

  const DEFAULT_MIN_FREE := Percentage(10.0)
  const DEFAULT_TARGET_FREE := Percentage(20.0)
  const DEFAULT_MAX_TIER := 3

  /** Unset fields take their defaults before anything is compared. */
  function Resolved(c: Config): Config {
    Config(if c.minFree.Unset? then DEFAULT_MIN_FREE else c.minFree,
           if c.targetFree.Unset? then DEFAULT_TARGET_FREE else c.targetFree,
           if c.maxTier == 0 then DEFAULT_MAX_TIER else c.maxTier)
  }

  predicate Validate(c: Config) {
    var r := Resolved(c);
    && Parses(r.minFree) && Parses(r.targetFree)
    && (r.minFree.Percentage? <==> r.targetFree.Percentage?)
    && (if r.minFree.Percentage? then r.minFree.percent < r.targetFree.percent else r.minFree.bytes < r.targetFree.bytes)
    && 1 <= r.maxTier <= 4
  }

  lemma FloorIsMonotone(a: real, b: real)
    requires 0.0 <= a <= b
    ensures 0 <= a.Floor <= b.Floor
  {}

  lemma ProductIsMonotone(a: real, b: real, t: real)
    requires 0.0 <= a <= b && 0.0 <= t
    ensures 0.0 <= a * t <= b * t
  {
    assert (b - a) * t >= 0.0;
  }

  lemma ShareIsMonotone(p: real, q: real, total: nat)
    requires 0.0 <= p <= q
    ensures 0.0 <= p / 100.0 * total as real <= q / 100.0 * total as real
  {
    var t := total as real;
    assert p / 100.0 <= q / 100.0;
    ProductIsMonotone(p / 100.0, q / 100.0, t);
  }

  /** With a validated configuration the floor that triggers reclaiming never
      lies above the level reclaiming aims for, on any filesystem. */
  lemma ValidatedFloorBelowTarget(c: Config, total: nat)
    requires Validate(c)
    ensures var r := Resolved(c);
            BytesOf(Parsed(r.minFree), total) <= BytesOf(Parsed(r.targetFree), total)
  {
    var r := Resolved(c);
    if r.minFree.Percentage? {
      ShareIsMonotone(r.minFree.percent, r.targetFree.percent, total);
      FloorIsMonotone(r.minFree.percent / 100.0 * total as real, r.targetFree.percent / 100.0 * total as real);
    } else if r.minFree.bytes == 0 {
      assert 0.0 / 100.0 * total as real == 0.0;
    }
  }

  /** A threshold that parses asks for as many bytes as were written, or for the
      whole bytes in that share of the filesystem, and for neither more nor less. */
  lemma ThresholdIsExact(s: Setting, total: nat)
    requires Parses(s)
    ensures s.Size? && s.bytes != 0 ==> BytesOf(Parsed(s), total) == s.bytes
    ensures s.Percentage? ==> var r := BytesOf(Parsed(s), total);
              100.0 * r as real <= s.percent * total as real < 100.0 * (r + 1) as real
  {}

  /** A percentage never asks for more than there is. */
  lemma PercentageWithinCapacity(p: real, total: nat)
    requires 0.0 <= p <= 100.0
    ensures BytesOf(Threshold(p, 0), total) <= total
  {
    ShareIsMonotone(p, 100.0, total);
    assert 100.0 / 100.0 * total as real == total as real;
    FloorIsMonotone(p / 100.0 * total as real, total as real);
  }
}

/** The disk guard: the budget pass over every store, then for each filesystem
    under pressure the ladder of reclaim tiers. */
module DiskGuard {
  import DiskConfig
  import opened Options

  type Path = nat
  type FilesystemId = nat

  datatype Kind = Garbage | Cache | Scratch | Other

  datatype Store = Store(id: nat, kind: Kind, path: Path, budget: nat, onExceed: string)

  datatype Stat = Stat(id: FilesystemId, total: nat, free: nat)

  /** Every call the guard makes to the outside, in order. */
  datatype Event = Statted(path: Path) | Measured(store: Store) | Reclaimed(store: Store, tier: int)

  type Trace = seq<Event>

  /** What the outside answers, None for an error; an answer may depend on
      everything that happened before. */
  datatype World = World(stat: (Path, Trace) -> Option<Stat>, measure: (Store, Trace) -> Option<nat>)

  datatype Config = Config(enabled: bool, minFree: DiskConfig.Threshold, targetFree: DiskConfig.Threshold, maxTier: int)

  predicate Proper(c: Config) {
    c.minFree.percent >= 0.0 && c.targetFree.percent >= 0.0
  }

  datatype Group = Group(path: Path, stat: Stat, stores: seq<Store>)

  /** The tiers a kind of data may ever be reclaimed at. */
  function TiersFor(k: Kind): set<int> {
    match k
    case Garbage => {1}
    case Cache => {2, 4}
    case Scratch => {3}
    case Other => {}
  }

  /** A validated configuration climbs to a tier at which some kind is reclaimed. */
  lemma ValidatedTierExists(d: DiskConfig.Config)
    requires DiskConfig.Validate(d)
    ensures exists k :: DiskConfig.Resolved(d).maxTier in TiersFor(k)
  {
    var t := DiskConfig.Resolved(d).maxTier;
    assert t in TiersFor(if t == 1 then Garbage else if t == 3 then Scratch else Cache);
  }

  // ------------------------------------------------------------ the ladder

  predicate Healthy(c: Config, g: Group)
    requires Proper(c)
  {
    g.stat.free >= DiskConfig.BytesOf(c.minFree, g.stat.total)
  }

  function Target(c: Config, g: Group): nat
    requires Proper(c)
  {
    DiskConfig.BytesOf(c.targetFree, g.stat.total)
  }

  /** The admissible stores of a tier, in their order. */
  function TierPass(stores: seq<Store>, tier: int): Trace {
    if stores == [] then []
    else
      var last := stores[|stores| - 1];
      TierPass(stores[..|stores| - 1], tier) + if tier in TiersFor(last.kind) then [Reclaimed(last, tier)] else []
  }

  /** The calls of the tiers 1 to `k`, each followed by a look at the filesystem. */
  function Rungs(g: Group, k: nat): Trace {
    if k == 0 then [] else Rungs(g, k - 1) + TierPass(g.stores, k) + [Statted(g.path)]
  }

  /** What the filesystem looked like after tier `k`. */
  function StatAfter(w: World, g: Group, before: Trace, k: nat): Option<Stat>
    requires k >= 1
  {
    w.stat(g.path, before + Rungs(g, k - 1) + TierPass(g.stores, k))
  }

  /** After tier `k` the filesystem could be read and was still short. */
  predicate StillShort(w: World, c: Config, g: Group, before: Trace, k: nat)
    requires Proper(c) && k >= 1
  {
    StatAfter(w, g, before, k).Some? && StatAfter(w, g, before, k).value.free < Target(c, g)
  }

  /** The ladder stops at tier `k`: not at all on a healthy filesystem, else at
      the first tier that reached the target or left the filesystem unreadable,
      and at the highest tier allowed in any case. */
  ghost predicate StopsAt(w: World, c: Config, g: Group, before: Trace, k: nat)
    requires Proper(c)
  {
    if Healthy(c, g) then k == 0
    else
      && (forall j | 1 <= j < k :: StillShort(w, c, g, before, j))
      && (k > 0 ==> k <= c.maxTier)
      && (k < c.maxTier ==> k >= 1 && !StillShort(w, c, g, before, k))
  }

  datatype Outcome = WasHealthy | Reached | Unreadable | Short(shortfall: int)

  /** What the sweep of a filesystem reports when it stops at tier `k`. */
  function OutcomeAt(w: World, c: Config, g: Group, before: Trace, k: nat): Outcome
    requires Proper(c)
  {
    if Healthy(c, g) then WasHealthy
    else if k == 0 then Short(Target(c, g) - g.stat.free)
    else if StatAfter(w, g, before, k).None? then Unreadable
    else if StatAfter(w, g, before, k).value.free >= Target(c, g) then Reached
    else Short(Target(c, g) - StatAfter(w, g, before, k).value.free)
  }

  /** There is one tier at which the ladder stops. */
  lemma StopIsUnique(w: World, c: Config, g: Group, before: Trace, k: nat, l: nat)
    requires Proper(c) && StopsAt(w, c, g, before, k) && StopsAt(w, c, g, before, l)
    ensures k == l
  {}

  /** The look after tier `k` found at least, or less than, `target` bytes free. */
  predicate LookFinds(w: World, g: Group, before: Trace, k: nat, target: nat, met: bool)
    requires k >= 1
  {
    StatAfter(w, g, before, k).Some? && (StatAfter(w, g, before, k).value.free >= target <==> met)
  }

  /** What the outcome says: healthy, that the floor was kept and nothing climbed;
      reached, that the last look found the target met; short, that no tier is left
      and by how much the last look missed it. Every look before the last missed it. */
  lemma LadderEnds(w: World, c: Config, g: Group, before: Trace, k: nat)
    requires Proper(c) && StopsAt(w, c, g, before, k)
    ensures OutcomeAt(w, c, g, before, k).WasHealthy? <==> g.stat.free >= DiskConfig.BytesOf(c.minFree, g.stat.total)
    ensures OutcomeAt(w, c, g, before, k).WasHealthy? ==> k == 0
    ensures forall j | 1 <= j < k :: LookFinds(w, g, before, j, DiskConfig.BytesOf(c.targetFree, g.stat.total), false)
    ensures OutcomeAt(w, c, g, before, k).Reached? ==>
              1 <= k <= c.maxTier && LookFinds(w, g, before, k, DiskConfig.BytesOf(c.targetFree, g.stat.total), true)
    ensures OutcomeAt(w, c, g, before, k).Unreadable? ==> 1 <= k <= c.maxTier && StatAfter(w, g, before, k).None?
    ensures OutcomeAt(w, c, g, before, k).Short? ==>
              && k == (if c.maxTier > 0 then c.maxTier else 0)
              && (k > 0 ==> LookFinds(w, g, before, k, DiskConfig.BytesOf(c.targetFree, g.stat.total), false))
  {
    if !Healthy(c, g) {
      forall j | 1 <= j < k ensures LookFinds(w, g, before, j, DiskConfig.BytesOf(c.targetFree, g.stat.total), false) {
        assert StillShort(w, c, g, before, j);
      }
    }
  }

  /** The amount reported as missing is negative exactly when the ladder has no
      rung at all on a filesystem that already meets the target. */
  lemma ShortfallUnderflows(w: World, c: Config, g: Group, before: Trace, k: nat)
    requires Proper(c) && StopsAt(w, c, g, before, k) && OutcomeAt(w, c, g, before, k).Short?
    ensures OutcomeAt(w, c, g, before, k).shortfall < 0 <==> c.maxTier < 1 && g.stat.free > Target(c, g)
    ensures OutcomeAt(w, c, g, before, k).shortfall <= 0 <==> c.maxTier < 1 && g.stat.free >= Target(c, g)
  {
    if k >= 1 {
      assert StatAfter(w, g, before, k).value.free < Target(c, g);
    }
  }

  /** A floor of 20 bytes over a target of 5, no tier allowed, 10 of 100 bytes
      free: the amount reported as missing is five below zero. */
  lemma ShortfallCanUnderflow(w: World, before: Trace, stores: seq<Store>)
    ensures var c := Config(true, DiskConfig.Threshold(0.0, 20), DiskConfig.Threshold(0.0, 5), 0);
            var g := Group(0, Stat(0, 100, 10), stores);
            StopsAt(w, c, g, before, 0) && OutcomeAt(w, c, g, before, 0) == Short(-5)
  {}

  /** A validated configuration rules that out: what is missing is always positive. */
  lemma ValidatedShortfallIsPositive(d: DiskConfig.Config, w: World, g: Group, before: Trace, k: nat)
    requires DiskConfig.Validate(d)
    ensures var r := DiskConfig.Resolved(d);
            var c := Config(true, DiskConfig.Parsed(r.minFree), DiskConfig.Parsed(r.targetFree), r.maxTier);
            StopsAt(w, c, g, before, k) && OutcomeAt(w, c, g, before, k).Short? ==>
              OutcomeAt(w, c, g, before, k).shortfall > 0
  {
    var r := DiskConfig.Resolved(d);
    var c := Config(true, DiskConfig.Parsed(r.minFree), DiskConfig.Parsed(r.targetFree), r.maxTier);
    if StopsAt(w, c, g, before, k) && OutcomeAt(w, c, g, before, k).Short? {
      ShortfallUnderflows(w, c, g, before, k);
    }
  }

  // ------------------------------------------------- what the ladder touches

  /** A tier's pass reclaims exactly the admissible stores, each once, in order. */
  lemma {:induction false} PassIsExact(stores: seq<Store>, tier: int, s: Store)
    ensures Reclaimed(s, tier) in TierPass(stores, tier) <==> s in stores && tier in TiersFor(s.kind)
    ensures forall e | e in TierPass(stores, tier) :: e.Reclaimed? && e.tier == tier && e.store in stores
                                                      && tier in TiersFor(e.store.kind)
    ensures multiset(TierPass(stores, tier))[Reclaimed(s, tier)] ==
            if tier in TiersFor(s.kind) then multiset(stores)[s] else 0
  {
    if stores != [] {
      var init, last := stores[..|stores| - 1], stores[|stores| - 1];
      PassIsExact(init, tier, s);
      assert stores == init + [last];
    }
  }

  /** Climbing to tier `k` reclaims a store at a tier exactly when the tier has
      been climbed and the store's kind admits it. */
  lemma {:induction false} RungsAreExact(g: Group, k: nat, s: Store, tier: int)
    ensures Reclaimed(s, tier) in Rungs(g, k) <==> 1 <= tier <= k && s in g.stores && tier in TiersFor(s.kind)
  {
    if k > 0 {
      RungsAreExact(g, k - 1, s, tier);
      PassIsExact(g.stores, k, s);
    }
  }

  /** After every tier the filesystem is looked at once more, the last call of all. */
  lemma {:induction false} RungsLook(g: Group, k: nat)
    ensures multiset(Rungs(g, k))[Statted(g.path)] == k
    ensures k > 0 ==> Rungs(g, k) != [] && Rungs(g, k)[|Rungs(g, k)| - 1] == Statted(g.path)
  {
    if k > 0 {
      RungsLook(g, k - 1);
      PassIsExact(g.stores, k, Store(0, Other, 0, 0, ""));
      assert Statted(g.path) !in TierPass(g.stores, k);
      assert Rungs(g, k) == Rungs(g, k - 1) + TierPass(g.stores, k) + [Statted(g.path)];
    }
  }

  /** Tiers are climbed in ascending order. */
  lemma {:induction false} RungsAscend(g: Group, k: nat, i: nat, j: nat)
    requires i < j < |Rungs(g, k)| && Rungs(g, k)[i].Reclaimed? && Rungs(g, k)[j].Reclaimed?
    ensures Rungs(g, k)[i].tier <= Rungs(g, k)[j].tier
  {
    var below := Rungs(g, k - 1);
    if j < |below| {
      RungsAscend(g, k - 1, i, j);
    } else {
      var e, f := Rungs(g, k)[i], Rungs(g, k)[j];
      PassIsExact(g.stores, k, f.store);
      assert f in TierPass(g.stores, k);
      if i < |below| {
        assert e == Reclaimed(e.store, e.tier) && e in below;
        RungsAreExact(g, k - 1, e.store, e.tier);
      } else {
        assert e in TierPass(g.stores, k);
      }
    }
  }

  // ---------------------------------------------------------- the budget pass

  /** Over its budget, told to wipe, and of a kind that may be wiped. */
  predicate WipeDue(w: World, s: Store, before: Trace) {
    && s.budget != 0 && w.measure(s, before).Some? && w.measure(s, before).value > s.budget
    && s.onExceed == "wipe" && 4 in TiersFor(s.kind)
  }

  function BudgetOf(w: World, s: Store, before: Trace): Trace {
    if s.budget == 0 then []
    else [Measured(s)] + if WipeDue(w, s, before) then [Reclaimed(s, 4)] else []
  }

  function BudgetPass(w: World, stores: seq<Store>, before: Trace): Trace {
    if stores == [] then []
    else
      var init := BudgetPass(w, stores[..|stores| - 1], before);
      init + BudgetOf(w, stores[|stores| - 1], before + init)
  }

  lemma OneTurnMeasures(w: World, last: Store, before: Trace, s: Store)
    ensures multiset(BudgetOf(w, last, before))[Measured(s)] == if last == s && s.budget != 0 then 1 else 0
  {}

  lemma CountOfBoth<T>(a: seq<T>, b: seq<T>, x: T)
    ensures multiset(a + b)[x] == multiset(a)[x] + multiset(b)[x]
  {
    assert multiset(a + b) == multiset(a) + multiset(b);
  }

  lemma CountOfTurn(w: World, init: seq<Store>, last: Store, before: Trace, s: Store)
    ensures var done := BudgetPass(w, init, before);
            multiset(BudgetPass(w, init + [last], before))[Measured(s)] ==
            multiset(done)[Measured(s)] + multiset(BudgetOf(w, last, before + done))[Measured(s)]
  {
    var done := BudgetPass(w, init, before);
    assert (init + [last])[..|init|] == init;
    CountOfBoth(done, BudgetOf(w, last, before + done), Measured(s));
  }

  /** Every store with a budget is measured, as often as it is listed, and no other. */
  lemma {:induction false} BudgetMeasures(w: World, stores: seq<Store>, before: Trace, s: Store)
    ensures multiset(BudgetPass(w, stores, before))[Measured(s)] == if s.budget != 0 then multiset(stores)[s] else 0
  {
    if stores != [] {
      var init, last := stores[..|stores| - 1], stores[|stores| - 1];
      assert stores == init + [last];
      BudgetMeasures(w, init, before, s);
      OneTurnMeasures(w, last, before + BudgetPass(w, init, before), s);
      CountOfTurn(w, init, last, before, s);
      CountOfBoth(init, [last], s);
    }
  }

  /** A store's turn in the budget pass: it is wiped, right after it was measured,
      exactly when it is a cache found over a budget that asks for it. */
  lemma BudgetWipesWhatIsDue(w: World, stores: seq<Store>, before: Trace, i: nat)
    requires i < |stores| && stores[i].budget != 0
    ensures var s, done := stores[i], BudgetPass(w, stores[..i], before);
            var used := w.measure(s, before + done);
            BudgetPass(w, stores[..i + 1], before) ==
              done + [Measured(s)] +
              if used.Some? && used.value > s.budget && s.onExceed == "wipe" && s.kind == Cache then [Reclaimed(s, 4)] else []
  {
    assert stores[..i + 1][..i] == stores[..i];
  }

  /** The pass takes the stores in turn: what it did for the first of them stands. */
  lemma {:induction false} BudgetGoesOn(w: World, stores: seq<Store>, before: Trace, i: nat)
    requires i <= |stores|
    ensures BudgetPass(w, stores[..i], before) <= BudgetPass(w, stores, before)
    decreases |stores|
  {
    if i < |stores| {
      var m := |stores| - 1;
      BudgetGoesOn(w, stores[..m], before, i);
      assert stores[..m][..i] == stores[..i];
      var done := BudgetPass(w, stores[..m], before);
      assert BudgetPass(w, stores, before) == done + BudgetOf(w, stores[m], before + done);
    } else {
      assert stores[..i] == stores;
    }
  }

  // ----------------------------------------------- grouping by filesystem

  function Stats(stores: seq<Store>): Trace {
    seq(|stores|, i requires 0 <= i < |stores| => Statted(stores[i].path))
  }

  /** What the filesystem of the i-th store answered. */
  function Seen(w: World, stores: seq<Store>, before: Trace, i: nat): Option<Stat>
    requires i < |stores|
  {
    w.stat(stores[i].path, before + Stats(stores[..i]))
  }

  /** The stores whose look at their filesystem named `id`, in order. */
  function Members(w: World, stores: seq<Store>, before: Trace, id: FilesystemId): seq<Store> {
    if stores == [] then []
    else
      var k := |stores| - 1;
      var seen := Seen(w, stores, before, k);
      Members(w, stores[..k], before, id) + if seen.Some? && seen.value.id == id then [stores[k]] else []
  }

  predicate Names(w: World, stores: seq<Store>, before: Trace, id: FilesystemId, i: nat)
    requires i < |stores|
  {
    Seen(w, stores, before, i).Some? && Seen(w, stores, before, i).value.id == id
  }

  ghost predicate IsFirst(w: World, stores: seq<Store>, before: Trace, id: FilesystemId, i: nat, g: Group)
    requires i < |stores|
  {
    && Names(w, stores, before, id, i)
    && g.path == stores[i].path && g.stat == Seen(w, stores, before, i).value
    && forall j | 0 <= j < i :: !Names(w, stores, before, id, j)
  }

  /** The groups are the filesystems seen, each with its members and with the
      path and the reading of the first of them. */
  ghost predicate GroupedBy(w: World, stores: seq<Store>, before: Trace, groups: map<FilesystemId, Group>) {
    && (forall id | id in groups :: groups[id].stores == Members(w, stores, before, id))
    && (forall id | id in groups :: exists i :: 0 <= i < |stores| && IsFirst(w, stores, before, id, i, groups[id]))
    && (forall i | 0 <= i < |stores| && Seen(w, stores, before, i).Some? :: Seen(w, stores, before, i).value.id in groups)
  }

  lemma SeenInPrefix(w: World, stores: seq<Store>, before: Trace, k: nat, i: nat)
    requires i < k <= |stores|
    ensures Seen(w, stores[..k], before, i) == Seen(w, stores, before, i)
  {
    assert stores[..k][..i] == stores[..i];
  }

  /** A store whose filesystem answered is a member of exactly the filesystem named. */
  lemma {:induction false} MembersAreNamed(w: World, stores: seq<Store>, before: Trace, id: FilesystemId, s: Store)
    ensures s in Members(w, stores, before, id) <==>
            exists i :: 0 <= i < |stores| && stores[i] == s && Names(w, stores, before, id, i)
  {
    if stores != [] {
      var k := |stores| - 1;
      MembersAreNamed(w, stores[..k], before, id, s);
      forall i | 0 <= i < k ensures Names(w, stores[..k], before, id, i) == Names(w, stores, before, id, i) {
        SeenInPrefix(w, stores, before, k, i);
      }
      forall i | 0 <= i < k && stores[i] == s && Names(w, stores, before, id, i)
        ensures s in Members(w, stores[..k], before, id)
      {
        assert stores[..k][i] == s && Names(w, stores[..k], before, id, i);
      }
      if s in Members(w, stores[..k], before, id) {
        var i :| 0 <= i < k && stores[..k][i] == s && Names(w, stores[..k], before, id, i);
        assert stores[i] == s && Names(w, stores, before, id, i);
      }
    }
  }

  /** Looking at one more store changes nothing about those before it. */
  lemma PrefixNames(w: World, stores: seq<Store>, before: Trace, k: nat)
    requires k <= |stores|
    ensures forall i | 0 <= i < k :: Seen(w, stores[..k], before, i) == Seen(w, stores, before, i)
    ensures forall id, i | 0 <= i < k :: Names(w, stores[..k], before, id, i) == Names(w, stores, before, id, i)
  {
    forall i | 0 <= i < k ensures Seen(w, stores[..k], before, i) == Seen(w, stores, before, i) {
      SeenInPrefix(w, stores, before, k, i);
    }
  }

  function Joined(w: World, s: Store, st: Option<Stat>, was: map<FilesystemId, Group>): map<FilesystemId, Group> {
    if st.None? then was
    else
      var grp := if st.value.id in was then was[st.value.id] else Group(s.path, st.value, []);
      was[st.value.id := grp.(stores := grp.stores + [s])]
  }

  lemma {:induction false} NobodyNames(w: World, stores: seq<Store>, before: Trace, id: FilesystemId)
    requires forall i | 0 <= i < |stores| :: !Names(w, stores, before, id, i)
    ensures Members(w, stores, before, id) == []
  {
    if stores != [] {
      PrefixNames(w, stores, before, |stores| - 1);
      assert !Names(w, stores, before, id, |stores| - 1);
      NobodyNames(w, stores[..|stores| - 1], before, id);
    }
  }

  lemma FirstStays(w: World, stores: seq<Store>, before: Trace, was: map<FilesystemId, Group>, id: FilesystemId, g: Group)
    requires stores != [] && GroupedBy(w, stores[..|stores| - 1], before, was)
    requires id in Joined(w, stores[|stores| - 1], Seen(w, stores, before, |stores| - 1), was)
    requires g == Joined(w, stores[|stores| - 1], Seen(w, stores, before, |stores| - 1), was)[id]
    ensures exists i :: 0 <= i < |stores| && IsFirst(w, stores, before, id, i, g)
  {
    var k := |stores| - 1;
    PrefixNames(w, stores, before, k);
    if id in was {
      var i :| 0 <= i < k && IsFirst(w, stores[..k], before, id, i, was[id]);
      assert IsFirst(w, stores, before, id, i, g);
    } else {
      assert IsFirst(w, stores, before, id, k, g);
    }
  }

  /** One more store is looked at: it joins the group it names, or founds it. */
  lemma GroupsGrow(w: World, stores: seq<Store>, before: Trace, was: map<FilesystemId, Group>, groups: map<FilesystemId, Group>)
    requires stores != [] && GroupedBy(w, stores[..|stores| - 1], before, was)
    requires groups == Joined(w, stores[|stores| - 1], Seen(w, stores, before, |stores| - 1), was)
    ensures GroupedBy(w, stores, before, groups)
  {
    var k := |stores| - 1;
    PrefixNames(w, stores, before, k);
    forall id | id in groups ensures groups[id].stores == Members(w, stores, before, id) {
      if id !in was {
        NobodyNames(w, stores[..k], before, id);
      }
    }
    forall id | id in groups ensures exists i :: 0 <= i < |stores| && IsFirst(w, stores, before, id, i, groups[id]) {
      FirstStays(w, stores, before, was, id, groups[id]);
    }
  }

  lemma {:induction false} FirstLeads(w: World, stores: seq<Store>, before: Trace, id: FilesystemId, i: nat)
    requires i < |stores| && Names(w, stores, before, id, i) && forall j | 0 <= j < i :: !Names(w, stores, before, id, j)
    ensures Members(w, stores, before, id) != [] && Members(w, stores, before, id)[0] == stores[i]
  {
    var k := |stores| - 1;
    PrefixNames(w, stores, before, k);
    if i < k {
      FirstLeads(w, stores[..k], before, id, i);
    } else {
      NobodyNames(w, stores[..k], before, id);
    }
  }

  /** A group has members, and the path it is looked at by is the first one's. */
  lemma GroupIsLookedAtByFirst(w: World, stores: seq<Store>, before: Trace, groups: map<FilesystemId, Group>, id: FilesystemId)
    requires GroupedBy(w, stores, before, groups) && id in groups
    ensures groups[id].stores != [] && groups[id].path == groups[id].stores[0].path && groups[id].stat.id == id
  {
    var i :| 0 <= i < |stores| && IsFirst(w, stores, before, id, i, groups[id]);
    FirstLeads(w, stores, before, id, i);
  }

  // -------------------------------------------------------- a whole sweep

  predicate Distinct(order: seq<FilesystemId>) {
    forall i, j | 0 <= i < j < |order| :: order[i] != order[j]
  }

  ghost predicate Covers(order: seq<FilesystemId>, groups: map<FilesystemId, Group>) {
    Distinct(order) && forall id :: id in order <==> id in groups
  }

  /** The ladders of the filesystems in `order`, one after the other; `ks` says
      where each stopped. */
  ghost predicate Laddered(w: World, c: Config, groups: map<FilesystemId, Group>, order: seq<FilesystemId>, ks: seq<nat>,
                           before: Trace, after: Trace)
    requires Proper(c)
  {
    && |ks| == |order|
    && if order == [] then after == before
       else
         var m := |order| - 1;
         && order[m] in groups
         && exists mid ::
              && Laddered(w, c, groups, order[..m], ks[..m], before, mid)
              && StopsAt(w, c, groups[order[m]], mid, ks[m])
              && after == mid + Rungs(groups[order[m]], ks[m])
  }

  /** What a sweep does, from `before` to `after`: the budget pass, a look at
      every store's filesystem, and the ladder of each filesystem seen. */
  ghost predicate Swept(w: World, c: Config, stores: seq<Store>, before: Trace, after: Trace,
                        groups: map<FilesystemId, Group>, order: seq<FilesystemId>, ks: seq<nat>)
    requires Proper(c)
  {
    var budgeted := before + BudgetPass(w, stores, before);
    && GroupedBy(w, stores, budgeted, groups)
    && Covers(order, groups)
    && Laddered(w, c, groups, order, ks, budgeted + Stats(stores), after)
  }

  lemma LadderGrows(w: World, c: Config, groups: map<FilesystemId, Group>, order: seq<FilesystemId>, ks: seq<nat>,
                    before: Trace, mid: Trace, id: FilesystemId, k: nat)
    requires Proper(c) && Laddered(w, c, groups, order, ks, before, mid)
    requires id in groups && StopsAt(w, c, groups[id], mid, k)
    ensures Laddered(w, c, groups, order + [id], ks + [k], before, mid + Rungs(groups[id], k))
  {
    assert (order + [id])[..|order|] == order && (ks + [k])[..|ks|] == ks;
  }

  // -------------------------------------------------- the program's own form

  class Guard {
    const config: Config
    const stores: seq<Store>
    const world: World
    var trace: Trace
    var sweeping: bool

    constructor (config: Config, stores: seq<Store>, world: World)
      ensures this.config == config && this.stores == stores && this.world == world && trace == [] && !sweeping
    {
      this.config, this.stores, this.world := config, stores, world;
      trace, sweeping := [], false;
    }

    method StatFn(path: Path) returns (answer: Option<Stat>)
      modifies this`trace
      ensures answer == world.stat(path, old(trace)) && trace == old(trace) + [Statted(path)]
    {
      answer := world.stat(path, trace);
      trace := trace + [Statted(path)];
    }

    method Measure(s: Store) returns (answer: Option<nat>)
      modifies this`trace
      ensures answer == world.measure(s, old(trace)) && trace == old(trace) + [Measured(s)]
    {
      answer := world.measure(s, trace);
      trace := trace + [Measured(s)];
    }

    /** What a reclaim frees, or whether it fails, is never consulted. */
    method Reclaim(s: Store, tier: int)
      modifies this`trace
      ensures trace == old(trace) + [Reclaimed(s, tier)]
    {
      trace := trace + [Reclaimed(s, tier)];
    }

    method StatByFilesystem() returns (groups: map<FilesystemId, Group>)
      modifies this`trace
      ensures GroupedBy(world, stores, old(trace), groups)
      ensures trace == old(trace) + Stats(stores)
    {
      groups := map[];
      var i := 0;
      ghost var before := trace;
      while i < |stores|
        invariant 0 <= i <= |stores|
        invariant trace == before + Stats(stores[..i])
        invariant GroupedBy(world, stores[..i], before, groups)
      {
        var s := stores[i];
        var st := StatFn(s.path);
        assert stores[..i + 1][..i] == stores[..i];
        assert Stats(stores[..i + 1]) == Stats(stores[..i]) + [Statted(s.path)];
        assert st == Seen(world, stores[..i + 1], before, i);
        ghost var was := groups;
        if st.Some? {
          var id := st.value.id;
          var grp := if id in groups then groups[id] else Group(s.path, st.value, []);
          groups := groups[id := grp.(stores := grp.stores + [s])];
        }
        GroupsGrow(world, stores[..i + 1], before, was, groups);
        i := i + 1;
      }
      assert stores[..i] == stores;
    }

    /** One tier's pass over the stores of a filesystem. */
    method ReclaimTier(candidates: seq<Store>, tier: int)
      modifies this`trace
      ensures trace == old(trace) + TierPass(candidates, tier)
    {
      var i := 0;
      while i < |candidates|
        invariant 0 <= i <= |candidates|
        invariant trace == old(trace) + TierPass(candidates[..i], tier)
      {
        var s := candidates[i];
        assert candidates[..i + 1][..i] == candidates[..i];
        if tier in TiersFor(s.kind) {
          Reclaim(s, tier);
        }
        i := i + 1;
      }
      assert candidates[..i] == candidates;
    }

    /** Climbs the ladder of one filesystem and says how that ended. */
    method SweepFilesystem(grp: Group) returns (outcome: Outcome, ghost k: nat)
      requires Proper(config)
      modifies this`trace
      ensures StopsAt(world, config, grp, old(trace), k)
      ensures trace == old(trace) + Rungs(grp, k)
      ensures outcome == OutcomeAt(world, config, grp, old(trace), k)
    {
      k := 0;
      ghost var before := trace;
      var st := grp.stat;
      if st.free >= DiskConfig.BytesOf(config.minFree, st.total) {
        return WasHealthy, 0;
      }
      var targetBytes := DiskConfig.BytesOf(config.targetFree, st.total);
      var tier := 1;
      while tier <= config.maxTier
        invariant tier == k + 1 && (k > 0 ==> k <= config.maxTier)
        invariant trace == before + Rungs(grp, k)
        invariant forall j | 1 <= j <= k :: StillShort(world, config, grp, before, j)
        invariant k == 0 ==> st == grp.stat
        invariant k > 0 ==> StatAfter(world, grp, before, k) == Some(st)
      {
        ReclaimTier(grp.stores, tier);
        var newSt := StatFn(grp.path);
        k := k + 1;
        assert Rungs(grp, k) == Rungs(grp, k - 1) + TierPass(grp.stores, k) + [Statted(grp.path)];
        assert trace == before + Rungs(grp, k);
        assert newSt == StatAfter(world, grp, before, k);
        if newSt.None? {
          return Unreadable, k;
        }
        st := newSt.value;
        if st.free >= targetBytes {
          return Reached, k;
        }
        tier := tier + 1;
      }
      assert k > 0 ==> StillShort(world, config, grp, before, k);
      outcome := Short(targetBytes - st.free);
    }

    method EnforceBudgets()
      modifies this`trace
      ensures trace == old(trace) + BudgetPass(world, stores, old(trace))
    {
      var i := 0;
      ghost var before := trace;
      while i < |stores|
        invariant 0 <= i <= |stores|
        invariant trace == before + BudgetPass(world, stores[..i], before)
      {
        var s := stores[i];
        assert stores[..i + 1][..i] == stores[..i];
        i := i + 1;
        if s.budget == 0 {
          continue;
        }
        var used := Measure(s);
        if used.None? || used.value <= s.budget {
          continue;
        }
        if s.onExceed == "wipe" {
          if 4 !in TiersFor(s.kind) {
            continue;
          }
          Reclaim(s, 4);
        }
      }
      assert stores[..i] == stores;
    }

    /** Every filesystem once, in no particular order. */
    method SweepAll(all: map<FilesystemId, Group>) returns (ghost order: seq<FilesystemId>, ghost ks: seq<nat>)
      requires Proper(config)
      modifies this`trace
      ensures Covers(order, all) && Laddered(world, config, all, order, ks, old(trace), trace)
    {
      order, ks := [], [];
      var todo := all.Keys;
      while todo != {}
        invariant todo <= all.Keys
        invariant forall id :: id in order <==> id in all && id !in todo
        invariant Distinct(order)
        invariant Laddered(world, config, all, order, ks, old(trace), trace)
        decreases |todo|
      {
        var id :| id in todo;
        ghost var before := trace;
        var _, k := SweepFilesystem(all[id]);
        LadderGrows(world, config, all, order, ks, old(trace), before, id, k);
        order, ks := order + [id], ks + [k];
        todo := todo - {id};
      }
    }

    /** Budgets first, then the filesystems. A sweep that finds another in
        progress does nothing. */
    method Sweep() returns (ghost groups: map<FilesystemId, Group>, ghost order: seq<FilesystemId>, ghost ks: seq<nat>)
      requires Proper(config)
      modifies this
      ensures sweeping == old(sweeping)
      ensures !config.enabled || old(sweeping) ==> trace == old(trace)
      ensures config.enabled && !old(sweeping) ==> Swept(world, config, stores, old(trace), trace, groups, order, ks)
    {
      groups, order, ks := map[], [], [];
      if !config.enabled || sweeping {
        return;
      }
      sweeping := true;
      EnforceBudgets();
      var all := StatByFilesystem();
      groups := all;
      order, ks := SweepAll(all);
      sweeping := false;
    }
  }

  // ------------------------------------------------- what a sweep comes to

  /** The budget pass reclaims at the last tier only, and only stores over a
      budget of theirs that asks for it and of a kind that allows it. */
  lemma {:induction false} BudgetWipesOnlyCaches(w: World, stores: seq<Store>, before: Trace, e: Event)
    requires e in BudgetPass(w, stores, before) && e.Reclaimed?
    ensures e.tier == 4 && e.store in stores && e.store.kind == Cache
    ensures e.store.budget != 0 && e.store.onExceed == "wipe"
    ensures exists at :: w.measure(e.store, at).Some? && w.measure(e.store, at).value > e.store.budget
  {
    var k := |stores| - 1;
    var init := BudgetPass(w, stores[..k], before);
    if e in init {
      BudgetWipesOnlyCaches(w, stores[..k], before, e);
    } else {
      assert WipeDue(w, stores[k], before + init);
    }
  }

  /** The reclaim is one the ladder of an unhealthy filesystem makes up to tier `k`. */
  predicate Climbed(c: Config, g: Group, k: nat, e: Event)
    requires Proper(c)
  {
    && e.Reclaimed? && !Healthy(c, g) && 1 <= e.tier <= k && k <= c.maxTier
    && e.store in g.stores && e.tier in TiersFor(e.store.kind)
  }

  /** A reclaim on the way from `before` to `after` belongs to one of the
      filesystems in `order`, one that was under pressure, and to a tier its
      ladder climbed. */
  lemma {:induction false} LadderedReclaims(w: World, c: Config, groups: map<FilesystemId, Group>, order: seq<FilesystemId>,
                                            ks: seq<nat>, before: Trace, after: Trace)
    requires Proper(c) && Laddered(w, c, groups, order, ks, before, after)
    ensures before <= after
    ensures forall e | e in after[|before|..] && e.Reclaimed? ::
              exists i :: 0 <= i < |order| && order[i] in groups && Climbed(c, groups[order[i]], ks[i], e)
    decreases |order|
  {
    if order != [] {
      var m := |order| - 1;
      var mid :| && Laddered(w, c, groups, order[..m], ks[..m], before, mid)
                 && StopsAt(w, c, groups[order[m]], mid, ks[m])
                 && after == mid + Rungs(groups[order[m]], ks[m]);
      LadderedReclaims(w, c, groups, order[..m], ks[..m], before, mid);
      assert after[|before|..] == mid[|before|..] + Rungs(groups[order[m]], ks[m]);
      forall e | e in after[|before|..] && e.Reclaimed?
        ensures exists i :: 0 <= i < |order| && order[i] in groups && Climbed(c, groups[order[i]], ks[i], e)
      {
        if e in mid[|before|..] {
          var i :| 0 <= i < m && order[..m][i] in groups && Climbed(c, groups[order[..m][i]], ks[..m][i], e);
          assert Climbed(c, groups[order[i]], ks[i], e);
        } else {
          RungsAreExact(groups[order[m]], ks[m], e.store, e.tier);
          assert e == Reclaimed(e.store, e.tier) && Climbed(c, groups[order[m]], ks[m], e);
        }
      }
    }
  }

  lemma SinceSplits(before: Trace, pass: Trace, stats: Trace, after: Trace)
    requires before + pass + stats <= after
    ensures before <= after
    ensures forall e | e in after[|before|..] :: e in pass || e in stats || e in after[|before + pass + stats|..]
  {
    assert after == before + (pass + stats + after[|before + pass + stats|..]);
    assert after[|before|..] == pass + stats + after[|before + pass + stats|..];
  }

  /** Whatever a sweep reclaims, it reclaims in the budget pass or on a ladder. */
  lemma SweepReclaims(w: World, c: Config, stores: seq<Store>, before: Trace, after: Trace,
                      groups: map<FilesystemId, Group>, order: seq<FilesystemId>, ks: seq<nat>)
    requires Proper(c) && Swept(w, c, stores, before, after, groups, order, ks)
    ensures before <= after
    ensures forall e | e in after[|before|..] && e.Reclaimed? ::
              || e in BudgetPass(w, stores, before)
              || exists i :: 0 <= i < |order| && order[i] in groups && Climbed(c, groups[order[i]], ks[i], e)
  {
    var pass := BudgetPass(w, stores, before);
    var started := before + pass + Stats(stores);
    LadderedReclaims(w, c, groups, order, ks, started, after);
    SinceSplits(before, pass, Stats(stores), after);
  }

  lemma MembersAreStores(w: World, stores: seq<Store>, before: Trace, id: FilesystemId, s: Store)
    requires s in Members(w, stores, before, id)
    ensures s in stores
  {
    MembersAreNamed(w, stores, before, id, s);
  }

  /** A whole sweep never reclaims a store at a tier its kind forbids: live
      hand-off data sees the tier of expired files and nothing else, whatever the
      budgets, the pressure and the highest tier allowed. */
  lemma SweepRespectsKinds(w: World, c: Config, stores: seq<Store>, before: Trace, after: Trace,
                           groups: map<FilesystemId, Group>, order: seq<FilesystemId>, ks: seq<nat>, e: Event)
    requires Proper(c) && Swept(w, c, stores, before, after, groups, order, ks)
    requires before <= after && e in after[|before|..] && e.Reclaimed?
    ensures e.store in stores && e.tier in TiersFor(e.store.kind)
    ensures e.store.kind == Garbage ==> e.tier == 1
    ensures e.store.kind == Cache ==> e.tier == 2 || e.tier == 4
    ensures e.store.kind == Scratch ==> e.tier == 3
    ensures e.store.kind != Other
  {
    SweepReclaims(w, c, stores, before, after, groups, order, ks);
    if e in BudgetPass(w, stores, before) {
      BudgetWipesOnlyCaches(w, stores, before, e);
    } else {
      var i :| 0 <= i < |order| && order[i] in groups && Climbed(c, groups[order[i]], ks[i], e);
      MembersAreStores(w, stores, before + BudgetPass(w, stores, before), order[i], e.store);
    }
  }

  lemma {:induction false} NoWipes(w: World, stores: seq<Store>, before: Trace)
    requires forall s, at | s in stores :: !WipeDue(w, s, at)
    ensures forall e | e in BudgetPass(w, stores, before) :: !e.Reclaimed?
  {
    if stores != [] {
      NoWipes(w, stores[..|stores| - 1], before);
    }
  }

  /** Nothing at all is reclaimed when every filesystem is healthy and no store
      is over a budget that asks for a wipe. */
  lemma HealthyIsLeftAlone(w: World, c: Config, stores: seq<Store>, before: Trace, after: Trace,
                           groups: map<FilesystemId, Group>, order: seq<FilesystemId>, ks: seq<nat>)
    requires Proper(c) && Swept(w, c, stores, before, after, groups, order, ks)
    requires forall id | id in groups :: Healthy(c, groups[id])
    requires forall s, at | s in stores :: !WipeDue(w, s, at)
    ensures before <= after && forall e | e in after[|before|..] :: !e.Reclaimed?
  {
    SweepReclaims(w, c, stores, before, after, groups, order, ks);
    NoWipes(w, stores, before);
  }
}
