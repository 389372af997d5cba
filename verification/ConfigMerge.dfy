/** Inheritance between configuration tables: merging one over another, and
    where each setting of a resolved scale set comes from. */
module ConfigMerge {
  import opened Options

  /** A configuration value: a table, or anything else as an opaque leaf. */
  datatype Value = Leaf(scalar: int) | Table(entries: map<string, Value>)

  type Path = p: seq<string> | p != [] witness ["retry"]

  // ----------------------------------------------------------------- merging

  predicate BothTables(base: map<string, Value>, override: map<string, Value>, k: string) {
    k in base && base[k].Table? && k in override && override[k].Table?
  }

  /** The override wins key by key; tables on both sides are merged in turn. */
  function Merge(base: map<string, Value>, override: map<string, Value>): map<string, Value>
    decreases Table(override), 1
  {
    map k | k in base.Keys + override.Keys :: MergeAt(base, override, k)
  }

  function MergeAt(base: map<string, Value>, override: map<string, Value>, k: string): Value
    requires k in base || k in override
    decreases Table(override), 0
  {
    if k !in override then base[k]
    else if BothTables(base, override, k) then Table(Merge(base[k].entries, override[k].entries))
    else override[k]
  }

  method Clone(base: map<string, Value>) returns (out: map<string, Value>)
    ensures out == base
  {
    out := map[];
    var todo := base.Keys;
    while todo != {}
      invariant todo <= base.Keys && out.Keys == base.Keys - todo
      invariant forall k | k in out :: out[k] == base[k]
      decreases |todo|
    {
      var k :| k in todo;
      out := out[k := base[k]];
      todo := todo - {k};
    }
  }

  /** The part of a merge done so far: `todo` are the override's keys not yet laid over. */
  predicate MergedBut(base: map<string, Value>, override: map<string, Value>, todo: set<string>, out: map<string, Value>) {
    && out.Keys == base.Keys + (override.Keys - todo)
    && forall k | k in out :: out[k] == if k in todo then base[k] else MergeAt(base, override, k)
  }

  lemma MergedOneMore(base: map<string, Value>, override: map<string, Value>, todo: set<string>, out: map<string, Value>,
                      k: string)
    requires MergedBut(base, override, todo, out) && k in todo && todo <= override.Keys
    ensures MergedBut(base, override, todo - {k}, out[k := MergeAt(base, override, k)])
    ensures (k in out && out[k].Table? && override[k].Table?) <==> BothTables(base, override, k)
    ensures k in out ==> k in base && out[k] == base[k]
  {}

  lemma MergedWhole(base: map<string, Value>, override: map<string, Value>, out: map<string, Value>)
    requires MergedBut(base, override, {}, out)
    ensures out == Merge(base, override)
  {}

  method DeepMerge(base: map<string, Value>, override: map<string, Value>) returns (out: map<string, Value>)
    ensures out == Merge(base, override)
    decreases Table(override)
  {
    out := Clone(base);
    var todo := override.Keys;
    while todo != {}
      invariant todo <= override.Keys && MergedBut(base, override, todo, out)
      decreases |todo|
    {
      var k :| k in todo;
      MergedOneMore(base, override, todo, out, k);
      if k in out && out[k].Table? && override[k].Table? {
        var merged := DeepMerge(out[k].entries, override[k].entries);
        out := out[k := Table(merged)];
      } else {
        out := out[k := override[k]];
      }
      todo := todo - {k};
    }
    MergedWhole(base, override, out);
  }

  // ------------------------------------------------------- reading by path

  function Lookup(t: map<string, Value>, p: Path): Option<Value>
    decreases |p|
  {
    if p[0] !in t then None
    else if |p| == 1 then Some(t[p[0]])
    else if t[p[0]].Table? then Lookup(t[p[0]].entries, p[1..])
    else None
  }

  /** The table holds a leaf where the path would have to go on. */
  predicate Blocks(t: map<string, Value>, p: Path)
    decreases |p|
  {
    |p| > 1 && p[0] in t && (t[p[0]].Leaf? || Blocks(t[p[0]].entries, p[1..]))
  }

  /** What two values at the same path come to when one is laid over the other. */
  function Over(base: Option<Value>, override: Option<Value>): Option<Value> {
    if override.None? then base
    else if override.value.Table? && base.Some? && base.value.Table?
    then Some(Table(Merge(base.value.entries, override.value.entries)))
    else override
  }

  lemma {:induction false} BlockedIsAbsent(t: map<string, Value>, p: Path)
    requires Blocks(t, p)
    ensures Lookup(t, p) == None
    decreases |p|
  {
    if t[p[0]].Table? {
      BlockedIsAbsent(t[p[0]].entries, p[1..]);
    }
  }

  /** At any depth, what is found at a path depends only on what the two tables
      hold there, and on whether the override has put a leaf in the way. */
  lemma {:induction false} LookupOfMerge(base: map<string, Value>, override: map<string, Value>, p: Path)
    ensures Lookup(Merge(base, override), p) ==
            if Blocks(override, p) then None else Over(Lookup(base, p), Lookup(override, p))
    decreases |p|
  {
    if |p| > 1 && BothTables(base, override, p[0]) {
      LookupOfMerge(base[p[0]].entries, override[p[0]].entries, p[1..]);
    } else if |p| > 1 && p[0] in override && override[p[0]].Table? {
      if Blocks(override[p[0]].entries, p[1..]) {
        BlockedIsAbsent(override[p[0]].entries, p[1..]);
      }
    }
  }

  // ----------------------------------------- where a setting comes from

  /** A leaf of the override wins at any depth, whatever its value. */
  lemma OverrideLeafWins(base: map<string, Value>, override: map<string, Value>, p: Path)
    requires Lookup(override, p).Some? && Lookup(override, p).value.Leaf?
    ensures Lookup(Merge(base, override), p) == Lookup(override, p)
  {
    LookupOfMerge(base, override, p);
    if Blocks(override, p) {
      BlockedIsAbsent(override, p);
    }
  }

  /** What the override does not touch survives, at any depth. */
  lemma UntouchedSurvives(base: map<string, Value>, override: map<string, Value>, p: Path)
    requires Lookup(override, p).None? && !Blocks(override, p)
    ensures Lookup(Merge(base, override), p) == Lookup(base, p)
  {
    LookupOfMerge(base, override, p);
  }

  const GLOBAL_ONLY_KEYS: seq<string> :=
    ["log-level", "log-format", "log-file", "health-port", "health-address", "dry-run", "drain-timeout", "concurrent", "diagnostics"]

  const IDENTITY_KEYS: seq<string> := ["url", "name", "token", "github-app", "labels", "min-runners"]

  const BUILTIN_KEYS: set<string> := {"runner-image", "runner-group", "max-runners", "provider", "retry", "docker"}

  predicate Inherited(k: string) {
    k !in GLOBAL_ONLY_KEYS && k !in IDENTITY_KEYS
  }

  lemma BuiltinsAreInherited(k: string)
    requires k in BUILTIN_KEYS
    ensures Inherited(k)
  {}

  /** The top-level settings without what a scale set must never inherit. */
  function Inheritable(settings: map<string, Value>): map<string, Value> {
    map k | k in settings && Inherited(k) :: settings[k]
  }

  method DeleteAll(settings: map<string, Value>, keys: seq<string>) returns (out: map<string, Value>)
    ensures forall k :: k in out <==> k in settings && k !in keys
    ensures forall k | k in out :: out[k] == settings[k]
  {
    out := settings;
    for i := 0 to |keys|
      invariant forall k :: k in out <==> k in settings && k !in keys[..i]
      invariant forall k | k in out :: out[k] == settings[k]
    {
      out := out - {keys[i]};
    }
  }

  method ScalesetDefaults(settings: map<string, Value>) returns (out: map<string, Value>)
    ensures out == Inheritable(settings)
  {
    out := Clone(settings);
    out := DeleteAll(out, GLOBAL_ONLY_KEYS);
    out := DeleteAll(out, IDENTITY_KEYS);
  }

  /** One scale set's entry over the top-level settings over the built-in ones. */
  function Resolved(builtin: map<string, Value>, settings: map<string, Value>, entry: map<string, Value>): map<string, Value> {
    Merge(Merge(builtin, Inheritable(settings)), entry)
  }

  /** As the configuration is loaded: retry defaults are laid under the top-level
      settings before anything is inherited from them. */
  method Resolve(builtin: map<string, Value>, retry: Value, top: map<string, Value>, entry: map<string, Value>)
    returns (resolved: map<string, Value>)
    ensures resolved == Resolved(builtin, Merge(map["retry" := retry], top), entry)
  {
    var settings := DeepMerge(map["retry" := retry], top);
    var inherited := ScalesetDefaults(settings);
    var base := DeepMerge(builtin, inherited);
    resolved := DeepMerge(base, entry);
  }

  lemma InheritableLookup(settings: map<string, Value>, p: Path)
    ensures Lookup(Inheritable(settings), p) == if Inherited(p[0]) then Lookup(settings, p) else None
    ensures Blocks(Inheritable(settings), p) <==> Inherited(p[0]) && Blocks(settings, p)
  {}

  /** What identifies a scale set, and what configures only the process, comes
      from the entry itself and from nowhere else. */
  lemma IdentityComesFromEntry(builtin: map<string, Value>, settings: map<string, Value>, entry: map<string, Value>, p: Path)
    requires builtin.Keys <= BUILTIN_KEYS && !Inherited(p[0])
    ensures Lookup(Resolved(builtin, settings, entry), p) == Lookup(entry, p)
  {
    if p[0] in builtin {
      BuiltinsAreInherited(p[0]);
    }
    LookupOfMerge(builtin, Inheritable(settings), p);
    InheritableLookup(settings, p);
    LookupOfMerge(Merge(builtin, Inheritable(settings)), entry, p);
    if Blocks(entry, p) {
      BlockedIsAbsent(entry, p);
    }
  }

  /** In particular a scale set's address, name, credentials, labels and minimum,
      and the process's concurrency limit and diagnostics. */
  lemma CredentialsAreNotInherited(builtin: map<string, Value>, settings: map<string, Value>, entry: map<string, Value>, p: Path)
    requires builtin.Keys <= BUILTIN_KEYS
    requires p[0] in {"url", "name", "token", "github-app", "labels", "min-runners", "concurrent", "diagnostics"}
    ensures Lookup(Resolved(builtin, settings, entry), p) == Lookup(entry, p)
  {
    assert IDENTITY_KEYS[0] == "url" && IDENTITY_KEYS[1] == "name" && IDENTITY_KEYS[2] == "token";
    assert IDENTITY_KEYS[3] == "github-app" && IDENTITY_KEYS[4] == "labels" && IDENTITY_KEYS[5] == "min-runners";
    assert GLOBAL_ONLY_KEYS[7] == "concurrent" && GLOBAL_ONLY_KEYS[8] == "diagnostics";
    IdentityComesFromEntry(builtin, settings, entry, p);
  }

  predicate Leafy(t: map<string, Value>, p: Path) {
    Lookup(t, p).Some? && Lookup(t, p).value.Leaf?
  }

  predicate Untouched(t: map<string, Value>, p: Path) {
    Lookup(t, p).None? && !Blocks(t, p)
  }

  /** Every other setting comes from the entry, else from the top level, else
      from the built-in defaults; a zero value set explicitly is a value. */
  lemma OthersComeFromFirstThatSets(builtin: map<string, Value>, settings: map<string, Value>, entry: map<string, Value>, p: Path)
    requires Inherited(p[0])
    ensures Leafy(entry, p) ==> Lookup(Resolved(builtin, settings, entry), p) == Lookup(entry, p)
    ensures Untouched(entry, p) && Leafy(settings, p) ==> Lookup(Resolved(builtin, settings, entry), p) == Lookup(settings, p)
    ensures Untouched(entry, p) && Untouched(settings, p) ==> Lookup(Resolved(builtin, settings, entry), p) == Lookup(builtin, p)
  {
    var base := Merge(builtin, Inheritable(settings));
    InheritableLookup(settings, p);
    if Leafy(entry, p) {
      OverrideLeafWins(base, entry, p);
    } else if Untouched(entry, p) {
      UntouchedSurvives(base, entry, p);
      if Leafy(settings, p) {
        OverrideLeafWins(builtin, Inheritable(settings), p);
      } else if Untouched(settings, p) {
        UntouchedSurvives(builtin, Inheritable(settings), p);
      }
    }
  }

  /** A retry setting the top level leaves alone keeps its default, and one it sets wins. */
  lemma RetryDefaultsLieBelow(retry: map<string, Value>, top: map<string, Value>, k: string)
    ensures var settings := Merge(map["retry" := Table(retry)], top);
            && (Leafy(top, ["retry", k]) ==> Lookup(settings, ["retry", k]) == Lookup(top, ["retry", k]))
            && (Untouched(top, ["retry", k]) ==>
                 Lookup(settings, ["retry", k]) == if k in retry then Some(retry[k]) else None)
  {
    var p: Path := ["retry", k];
    var base := map["retry" := Table(retry)];
    if Leafy(top, p) {
      OverrideLeafWins(base, top, p);
    } else if Untouched(top, p) {
      UntouchedSurvives(base, top, p);
      assert p[1..] == [k];
    }
  }
}
