/** A scale set never has more runners than it may: only reserving a name raises
    the count, and a removal that has stopped counting never counts again. */
module LifecycleBounds {
  import opened Instances
  import opened Lifecycle
  import opened LifecycleSafety
  import opened Options
  import N = Counting

  predicate Within(count: nat, limit: int) {
    count == 0 || count <= limit
  }

  /** The worker's targets respect the limit, and about to name a runner it knows there is room. */
  ghost predicate Bounded(c: Controller) {
    && Within(Count(c.table), c.config.maxRunners)
    && (c.worker.Recounting? ==> c.worker.target <= c.config.maxRunners)
    && (c.worker.Regating? || c.worker.Naming? ==> Count(c.table) < c.config.maxRunners)
  }

  /** Reserving aside, a step does not raise the count; the worker may have looked
      at it, but not gained from it. */
  lemma SubsidingIsBounded(c: Controller, d: Controller)
    requires Bounded(c) && Subsides(c.table, d.table) && d.config == c.config
    requires d.worker.Recounting? ==> d.worker.target <= d.config.maxRunners
    requires d.worker.Regating? ==> c.worker.Regating? || Count(c.table) < c.config.maxRunners
    requires d.worker.Naming? ==> c.worker.Regating? || c.worker.Naming?
    ensures Bounded(d)
  {
    SubsidingLowersCount(c.table, d.table);
  }

  lemma ReportSubsides(c: Controller, r: Report, d: Controller)
    requires ReportNext(c, r).Some? && d == ReportNext(c, r).value
    ensures Subsides(c.table, d.table) && d.config == c.config && d.worker == c.worker
  {}

  lemma AdvanceSubsides(t: Table, w: World, n: Name, r: Removal, m: Move, u: Table)
    requires Advance(t, w, n, r, m).Some? && u == Advance(t, w, n, r, m).value.0
    ensures Subsides(t, u)
  {}

  lemma RemovalSubsides(c: Controller, n: Name, m: Move, d: Controller)
    requires RemovalNext(c, n, m).Some? && d == RemovalNext(c, n, m).value
    ensures Subsides(c.table, d.table) && d.config == c.config && d.worker == c.worker
  {
    var (u, v, p) := Advance(c.table, c.world, n, c.removals[n], m).value;
    AdvanceSubsides(c.table, c.world, n, c.removals[n], m, u);
  }

  lemma PassSubsides(c: Controller, s: PassStep, d: Controller)
    requires PassNext(c, s).Some? && d == PassNext(c, s).value
    ensures Subsides(c.table, d.table) && d.config == c.config
    ensures !d.worker.Recounting? && !d.worker.Regating? && !d.worker.Naming?
  {}

  lemma WaitSubsides(c: Controller, s: WaitStep, d: Controller)
    requires Bounded(c) && WaitNext(c, s).Some? && d == WaitNext(c, s).value
    ensures d.table == c.table && d.config == c.config
    ensures d.worker.Recounting? ==> d.worker.target <= d.config.maxRunners
    ensures d.worker.Regating? ==> Count(c.table) < c.config.maxRunners
    ensures d.worker.Naming? ==> c.worker.Regating?
  {}

  lemma StartSubsides(c: Controller, s: StartStep, d: Controller)
    requires StartNext(c, s).Some? && d == StartNext(c, s).value && !s.Pick?
    ensures Subsides(c.table, d.table) && d.config == c.config
    ensures !d.worker.Recounting? && !d.worker.Regating? && !d.worker.Naming?
  {}

  /** The one step that raises the count, taken only with room to spare. */
  lemma PickIsBounded(c: Controller, n: Name, d: Controller)
    requires Bounded(c) && StartNext(c, Pick(n)).Some? && d == StartNext(c, Pick(n)).value
    ensures Bounded(d)
  {
    if n !in c.table {
      ReserveRaisesCountByOne(c.table, n, c.worker.lease);
    }
  }

  lemma RecordSubsides(c: Controller, observed: bool, d: Controller)
    requires TendNext(c, Record(observed)).Some? && d == TendNext(c, Record(observed)).value
    ensures Subsides(c.table, d.table) && d.config == c.config
    ensures !d.worker.Recounting? && !d.worker.Regating? && !d.worker.Naming?
  {}

  lemma TendSubsides(c: Controller, s: TendStep, d: Controller)
    requires TendNext(c, s).Some? && d == TendNext(c, s).value
    ensures Subsides(c.table, d.table) && d.config == c.config
    ensures !d.worker.Recounting? && !d.worker.Regating? && !d.worker.Naming?
  {
    match s
    case Record(observed) => RecordSubsides(c, observed, d);
    case Undo(m) => AdvanceSubsides(c.table, c.world, c.worker.name, c.worker.removal, m, d.table);
    case _ =>
  }

  lemma DrainSubsides(c: Controller, e: DrainStep, d: Controller)
    requires DrainNext(c, e).Some? && d == DrainNext(c, e).value
    ensures Subsides(c.table, d.table) && d.config == c.config && d.worker == c.worker
  {}

  lemma StepIsBounded(c: Controller, s: Step, d: Controller)
    requires Bounded(c) && Next(c, s).Some? && d == Next(c, s).value
    ensures Bounded(d) && d.config == c.config
  {
    match s
    case Pass(p) => PassSubsides(c, p, d); SubsidingIsBounded(c, d);
    case Wait(w) => WaitSubsides(c, w, d); SubsidingIsBounded(c, d);
    case Start(p) =>
      if p.Pick? {
        PickIsBounded(c, p.name, d);
      } else {
        StartSubsides(c, p, d);
        SubsidingIsBounded(c, d);
      }
    case Tend(p) => TendSubsides(c, p, d); SubsidingIsBounded(c, d);
    case Remove(n, m) => RemovalSubsides(c, n, m, d); SubsidingIsBounded(c, d);
    case Tell(r) => ReportSubsides(c, r, d); SubsidingIsBounded(c, d);
    case Carry(w, delay) => ChoreEffect(c, w, delay, d); SubsidingIsBounded(c, d);
    case Occur(e) => EventEffect(c, e, d); SubsidingIsBounded(c, d);
    case Wind(e) => DrainSubsides(c, e, d); SubsidingIsBounded(c, d);
  }

  lemma FreshIsBounded(config: Config)
    ensures Bounded(Initial(config))
  {
    assert CountedNames(Initial(config).table) == {};
  }

  lemma {:induction false} RunIsBounded(config: Config, steps: seq<Step>, c: Controller)
    requires Reaches(config, steps, c)
    ensures Bounded(c) && c.config == config
    decreases |steps|
  {
    if steps == [] {
      FreshIsBounded(config);
    } else {
      var b, s := LastStep(config, steps, c);
      RunIsBounded(config, steps[..|steps| - 1], b);
      StepIsBounded(b, s, c);
    }
  }

  /** Under every interleaving the runners that may still serve work stay within
      the configured maximum, and so do the busy ones. */
  lemma NeverAboveMaximum(config: Config, steps: seq<Step>, c: Controller)
    requires Reaches(config, steps, c)
    ensures Within(Count(c.table), config.maxRunners)
    ensures Within(|InPhase(c.table, Busy)|, config.maxRunners)
  {
    RunIsBounded(config, steps, c);
    N.SubsetSize(InPhase(c.table, Busy), CountedNames(c.table));
  }

  // ---------------------------------------------- what GitHub has handed out

  /** The running instances whose runner GitHub has given a job not yet finished. */
  function Working(v: World): set<Id> {
    set id | id in v.owner && id !in v.gone && v.owner[id] in v.github && v.github[v.owner[id]] == Assigned
  }

  /** A working instance is that of a counted entry, and the only one of its runner. */
  lemma WorkingIsCounted(c: Controller, id: Id)
    requires Safe(c) && id in Working(c.world)
    ensures c.world.owner[id] in CountedNames(c.table)
    ensures forall k | k in Working(c.world) && c.world.owner[k] == c.world.owner[id] :: k == id
  {
    var n := c.world.owner[id];
    assert IsOwner(c.world.owner, n, id) && Sane(n, CellOf(c, n), c.world);
    forall k | k in Working(c.world) && c.world.owner[k] == n ensures k == id {
      assert IsOwner(c.world.owner, n, k);
    }
  }

  lemma {:induction false} NoMoreThanImages(ids: set<Id>, owner: map<Id, Name>, names: set<Name>)
    requires ids <= owner.Keys
    requires forall id | id in ids :: owner[id] in names
    requires forall id, k | id in ids && k in ids && owner[id] == owner[k] :: id == k
    ensures |ids| <= |names|
    decreases |ids|
  {
    if ids != {} {
      var id :| id in ids;
      NoMoreThanImages(ids - {id}, owner, names - {owner[id]});
    }
  }

  /** Even by GitHub's own account, never more jobs run than the maximum. */
  lemma JobsWithinMaximum(config: Config, steps: seq<Step>, c: Controller)
    requires Reaches(config, steps, c)
    ensures Within(|Working(c.world)|, config.maxRunners)
  {
    RunIsSafe(config, steps, c);
    RunIsBounded(config, steps, c);
    forall id | id in Working(c.world)
      ensures c.world.owner[id] in CountedNames(c.table)
      ensures forall k | k in Working(c.world) && c.world.owner[k] == c.world.owner[id] :: k == id
    {
      WorkingIsCounted(c, id);
    }
    NoMoreThanImages(Working(c.world), c.world.owner, CountedNames(c.table));
  }
}
