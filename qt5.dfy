/**
 * The Qt5 detector: one pkg-config probe per requested module (named `Qt5` followed by the
 * module), and the `moc` and `uic` tools.
 */
module Qt5 {
  import opened Outcome
  import opened PyStr
  import opened Options
  import opened Environment
  import opened PkgConfig
  import opened Detectors

  const Qt5Root := "/usr"

  /** What a constructed Qt5 detector holds. */
  datatype Qt5State = Qt5State(modules: seq<PkgConfigState>, moc: ExternalProgram, uic: ExternalProgram)

  // ---------------------------------------------------------------- construction

  /**
   * The values `for module in kwargs.get('modules', [])` visits: nothing when the option is
   * absent, the one-character strings of a string, the items of a list; a boolean or an
   * integer is not iterable.
   */
  function ModuleItems(kwargs: Kwargs): (r: Result<seq<Value>>)
    ensures r.Fail? <==> "modules" in kwargs && (kwargs["modules"].Bool? || kwargs["modules"].Int?)
    ensures r.Fail? ==> ClassOf(r.error) == TypeError
  {
    if "modules" !in kwargs then Ok([])
    else match kwargs["modules"]
      case Str(s) => Ok(seq(|s|, i requires 0 <= i < |s| => Str([s[i]])))
      case List(items) => Ok(items)
      case _ => Fail(NotIterable)
  }

  /** One round of the probing loop: `'Qt5' + item` fails unless the item is a string, then the probe, not required. */
  function ItemProbe(toolFound: bool, run: Query -> ProbeResult, item: Value): Step<PkgConfigState> {
    if !item.Str? then Step(Fail(NotConcatenable), toolFound, [])
    else Probe(toolFound, run, "Qt5" + item.s, false)
  }

  /** The rounds of the probing loop as one function of the flag and the item. */
  function ItemProbes(run: Query -> ProbeResult): (bool, Value) -> Step<PkgConfigState> {
    (toolFound, item) => ItemProbe(toolFound, run, item)
  }

  /**
   * `probe` is the round of the probing loop that runs `run`. Stated item by item, so that
   * what one round does is brought in only where that round is looked at.
   */
  ghost predicate ProbesWith(probe: (bool, Value) -> Step<PkgConfigState>, run: Query -> ProbeResult) {
    forall toolFound, item {:trigger ItemProbe(toolFound, run, item)} :: probe(toolFound, item) == ItemProbe(toolFound, run, item)
  }

  lemma ItemProbesProbe(run: Query -> ProbeResult)
    ensures ProbesWith(ItemProbes(run), run)
  {
  }

  /**
   * The probing loop of `Qt5Dependency.__init__` with the round `probe` (for the detector,
   * `ItemProbes(run)`): each item in order, stopping at the first round that raises.
   * Defined on the items visited so far, so that each round adds the last one.
   */
  function ProbeModules(toolFound: bool, probe: (bool, Value) -> Step<PkgConfigState>, items: seq<Value>): (s: Step<seq<PkgConfigState>>)
    ensures s.result.Ok? ==> |s.result.value| == |items|
    ensures items == [] ==> s == Step(Ok([]), toolFound, [])
    decreases |items|
  {
    if items == [] then Step(Ok([]), toolFound, [])
    else
      var done := ProbeModules(toolFound, probe, items[..|items| - 1]);
      if done.result.Fail? then done
      else
        var p := probe(done.toolFound, items[|items| - 1]);
        Step(if p.result.Fail? then Fail(p.result.error) else Ok(done.result.value + [p.result.value]),
             p.toolFound, done.queries + p.queries)
  }

  /** One more round of the probing loop, after rounds that all succeeded. */
  lemma ProbeModulesSnoc(toolFound: bool, probe: (bool, Value) -> Step<PkgConfigState>, items: seq<Value>, i: nat,
                         states: seq<PkgConfigState>, found: bool, queries: seq<Query>)
    requires i < |items|
    requires ProbeModules(toolFound, probe, items[..i]) == Step(Ok(states), found, queries)
    ensures var p := probe(found, items[i]);
      ProbeModules(toolFound, probe, items[..i + 1]) ==
        Step(if p.result.Fail? then Fail(p.result.error) else Ok(states + [p.result.value]), p.toolFound, queries + p.queries)
  {
    assert items[..i + 1][..i] == items[..i];
  }

  /** Once the loop has raised, the later items change nothing. */
  lemma {:induction false} ProbeModulesStops(toolFound: bool, probe: (bool, Value) -> Step<PkgConfigState>, items: seq<Value>, k: nat)
    requires k <= |items|
    requires ProbeModules(toolFound, probe, items[..k]).result.Fail?
    ensures ProbeModules(toolFound, probe, items) == ProbeModules(toolFound, probe, items[..k])
    decreases |items| - k
  {
    if k < |items| {
      var init := items[..|items| - 1];
      assert init[..k] == items[..k];
      ProbeModulesStops(toolFound, probe, init, k);
    } else {
      assert items[..k] == items;
    }
  }

  /**
   * A successful probing loop probed every item, each a string: the `i`-th state is the
   * probe of `Qt5` + item `i`, found exactly when pkg-config knows that package.
   */
  lemma {:induction false} ProbeModulesProbes(toolFound: bool, run: Query -> ProbeResult, items: seq<Value>)
    requires ProbeModules(toolFound, ItemProbes(run), items).result.Ok?
    ensures var ms := ProbeModules(toolFound, ItemProbes(run), items).result.value;
      forall i :: 0 <= i < |items| ==>
        && items[i].Str?
        && ms[i].name == "Qt5" + items[i].s
        && (ms[i].isFound <==> run(ModVersion("Qt5" + items[i].s)).exitCode == 0)
    decreases |items|
  {
    if items != [] {
      var init := items[..|items| - 1];
      var done := ProbeModules(toolFound, ItemProbes(run), init);
      ProbeModulesProbes(toolFound, run, init);
      var last := items[|items| - 1];
      var p := ItemProbe(done.toolFound, run, last);
      var ms := ProbeModules(toolFound, ItemProbes(run), items).result.value;
      assert ms == done.result.value + [p.result.value];
      forall i | 0 <= i < |items|
        ensures items[i].Str? && ms[i].name == "Qt5" + items[i].s &&
          (ms[i].isFound <==> run(ModVersion("Qt5" + items[i].s)).exitCode == 0)
      {
        if i < |init| {
          assert items[i] == init[i] && ms[i] == done.result.value[i];
        }
      }
    }
  }

  /** However many modules are probed, `pkg-config --version` runs at most once, and never when the flag was set. */
  lemma {:induction false} ProbeModulesChecksOnce(toolFound: bool, run: Query -> ProbeResult, items: seq<Value>)
    ensures ChecksOnce(toolFound, ProbeModules(toolFound, ItemProbes(run), items))
    decreases |items|
  {
    if items != [] {
      var done := ProbeModules(toolFound, ItemProbes(run), items[..|items| - 1]);
      ProbeModulesChecksOnce(toolFound, run, items[..|items| - 1]);
      var item := items[|items| - 1];
      if done.result.Ok? {
        var p := ItemProbe(done.toolFound, run, item);
        if item.Str? {
          ProbeChecksOnce(done.toolFound, run, "Qt5" + item.s, false);
        }
        ToolChecksAppend(done.queries, p.queries);
      }
    }
  }

  /** The end of `Qt5Dependency.__init__` once the modules are probed: an empty list raises, otherwise the tools are located. */
  function Complete(host: Host, p: Step<seq<PkgConfigState>>): Step<Qt5State> {
    if p.result.Fail? then Step(Fail(p.result.error), p.toolFound, p.queries)
    else if p.result.value == [] then Step(Fail(NoQt5Modules), p.toolFound, p.queries)
    else Step(Ok(Qt5State(p.result.value, Locate(host, "moc"), Locate(host, "uic"))), p.toolFound, p.queries)
  }

  /** `Qt5Dependency(kwargs)` when the process-wide pkg-config flag is `toolFound`. */
  function Qt5Spec(toolFound: bool, host: Host, kwargs: Kwargs): (s: Step<Qt5State>)
    ensures ModuleItems(kwargs) == Ok([]) ==> s == Step(Fail(NoQt5Modules), toolFound, [])
    ensures s.result.Ok? ==> ModuleItems(kwargs).Ok? && |s.result.value.modules| == |ModuleItems(kwargs).value| > 0
    ensures s.result.Ok? ==> s.result.value.moc == Locate(host, "moc") && s.result.value.uic == Locate(host, "uic")
  {
    var items := ModuleItems(kwargs);
    if items.Fail? then Step(Fail(items.error), toolFound, [])
    else Complete(host, ProbeModules(toolFound, ItemProbes(host.pkgConfig), items.value))
  }

  lemma Qt5SpecChecksOnce(toolFound: bool, host: Host, kwargs: Kwargs)
    ensures ChecksOnce(toolFound, Qt5Spec(toolFound, host, kwargs))
  {
    if ModuleItems(kwargs).Ok? {
      ProbeModulesChecksOnce(toolFound, host.pkgConfig, ModuleItems(kwargs).value);
    }
  }

  /** A module list given as one string is iterated character by character: `"Gui"` probes `Qt5G`, `Qt5u` and `Qt5i`. */
  lemma StringModulesAreCharacters(kwargs: Kwargs, m: string)
    requires "modules" in kwargs && kwargs["modules"] == Str(m)
    ensures ModuleItems(kwargs).Ok? && |ModuleItems(kwargs).value| == |m|
    ensures forall i :: 0 <= i < |m| ==> ModuleItems(kwargs).value[i] == Str([m[i]])
  {
  }

  // ---------------------------------------------------------------- accessors

  /** `found()`: both tools located and every module probe found. */
  predicate Qt5Found(q: Qt5State) {
    ProgramFound(q.moc) && ProgramFound(q.uic) && forall i :: 0 <= i < |q.modules| ==> q.modules[i].isFound
  }

  /** A constructed detector is found exactly when `moc` and `uic` are on the search path and pkg-config knows every `Qt5` module. */
  lemma Qt5FoundExactly(toolFound: bool, host: Host, kwargs: Kwargs)
    requires Qt5Spec(toolFound, host, kwargs).result.Ok?
    ensures var items := ModuleItems(kwargs).value;
      Qt5Found(Qt5Spec(toolFound, host, kwargs).result.value) <==>
        "moc" in host.searchPath && "uic" in host.searchPath &&
        forall i :: 0 <= i < |items| ==> items[i].Str? && host.pkgConfig(ModVersion("Qt5" + items[i].s)).exitCode == 0
  {
    var items := ModuleItems(kwargs).value;
    var p := ProbeModules(toolFound, ItemProbes(host.pkgConfig), items);
    assert Qt5Spec(toolFound, host, kwargs) == Complete(host, p);
    ProbeModulesProbes(toolFound, host.pkgConfig, items);
    assert Qt5Spec(toolFound, host, kwargs).result.value.modules == p.result.value;
  }

  /** `xss[0] + xss[1] + ...`: the lists concatenated in order. */
  function Flatten(xss: seq<seq<string>>): seq<string> {
    if xss == [] then [] else Flatten(xss[..|xss| - 1]) + xss[|xss| - 1]
  }

  lemma {:induction false} FlattenAppend(a: seq<seq<string>>, b: seq<seq<string>>)
    ensures Flatten(a + b) == Flatten(a) + Flatten(b)
    decreases |b|
  {
    if b != [] {
      assert (a + b)[..|a + b| - 1] == a + b[..|b| - 1];
      FlattenAppend(a, b[..|b| - 1]);
    } else {
      assert a + b == a;
    }
  }

  /** A string is in the concatenation exactly when it is in one of the lists. */
  lemma {:induction false} FlattenMember(xss: seq<seq<string>>, f: string)
    ensures f in Flatten(xss) <==> exists i :: 0 <= i < |xss| && f in xss[i]
    decreases |xss|
  {
    if xss != [] {
      var init := xss[..|xss| - 1];
      FlattenMember(init, f);
      if f in Flatten(xss) && f !in xss[|xss| - 1] {
        var i :| 0 <= i < |init| && f in init[i];
        assert xss[i] == init[i];
      }
      if exists i :: 0 <= i < |xss| && f in xss[i] {
        var i :| 0 <= i < |xss| && f in xss[i];
        if i < |init| {
          assert init[i] == xss[i];
        }
      }
    }
  }

  function CflagLists(ms: seq<PkgConfigState>): seq<seq<string>> {
    seq(|ms|, i requires 0 <= i < |ms| => ms[i].cflags)
  }

  function LibLists(ms: seq<PkgConfigState>): seq<seq<string>> {
    seq(|ms|, i requires 0 <= i < |ms| => ms[i].libs)
  }

  /** `get_compile_flags`: the compile flags of the module probes, concatenated in module order. */
  function CompileFlags(q: Qt5State): seq<string> {
    Flatten(CflagLists(q.modules))
  }

  /** `get_link_flags`, returning the list it builds: the link flags of the module probes, concatenated in module order. */
  function LinkFlags(q: Qt5State): seq<string> {
    Flatten(LibLists(q.modules))
  }

  function Sources(q: Qt5State): seq<string> {
    []
  }

  /** `get_version`, calling the probe's version accessor: the version of the first module. */
  function Version(q: Qt5State): string
    requires q.modules != []
  {
    q.modules[0].modversion
  }

  lemma CompileFlagsMember(q: Qt5State, f: string)
    ensures f in CompileFlags(q) <==> exists i :: 0 <= i < |q.modules| && f in q.modules[i].cflags
  {
    FlattenMember(CflagLists(q.modules), f);
    if f in CompileFlags(q) {
      var i :| 0 <= i < |CflagLists(q.modules)| && f in CflagLists(q.modules)[i];
      assert f in q.modules[i].cflags;
    }
    if exists i :: 0 <= i < |q.modules| && f in q.modules[i].cflags {
      var i :| 0 <= i < |q.modules| && f in q.modules[i].cflags;
      assert CflagLists(q.modules)[i] == q.modules[i].cflags;
    }
  }

  lemma LinkFlagsMember(q: Qt5State, f: string)
    ensures f in LinkFlags(q) <==> exists i :: 0 <= i < |q.modules| && f in q.modules[i].libs
  {
    FlattenMember(LibLists(q.modules), f);
    if f in LinkFlags(q) {
      var i :| 0 <= i < |LibLists(q.modules)| && f in LibLists(q.modules)[i];
      assert f in q.modules[i].libs;
    }
    if exists i :: 0 <= i < |q.modules| && f in q.modules[i].libs {
      var i :| 0 <= i < |q.modules| && f in q.modules[i].libs;
      assert LibLists(q.modules)[i] == q.modules[i].libs;
    }
  }

  /** The flags of a detector with one more module are the old flags followed by that module's. */
  lemma FlagsOfAddedModule(q: Qt5State, m: PkgConfigState)
    ensures CompileFlags(q.(modules := q.modules + [m])) == CompileFlags(q) + m.cflags
    ensures LinkFlags(q.(modules := q.modules + [m])) == LinkFlags(q) + m.libs
  {
    var ms := q.modules + [m];
    assert CflagLists(ms) == CflagLists(q.modules) + [m.cflags];
    assert LibLists(ms) == LibLists(q.modules) + [m.libs];
    FlattenAppend(CflagLists(q.modules), [m.cflags]);
    FlattenAppend(LibLists(q.modules), [m.libs]);
    assert Flatten([m.cflags]) == m.cflags by {
      assert [m.cflags][..0] == [];
    }
    assert Flatten([m.libs]) == m.libs by {
      assert [m.libs][..0] == [];
    }
  }

  // ---------------------------------------------------------------- the code as written

  /**
   * Construction as written: the probe is called without its `required` argument, so the
   * first module that is a string raises a TypeError before any query; a non-string module
   * fails the concatenation first.
   */
  function Qt5InitAsWritten(kwargs: Kwargs): (r: Result<Qt5State>)
    ensures r.Fail? && ClassOf(r.error) in {TypeError, DependencyException}
  {
    var items := ModuleItems(kwargs);
    if items.Fail? then Fail(items.error)
    else if items.value == [] then Fail(NoQt5Modules)
    else if !items.value[0].Str? then Fail(NotConcatenable)
    else Fail(MissingRequiredArgument)
  }

  /**
   * As written, `Qt5Dependency(kwargs)` with `modules` a list of strings raises a TypeError
   * without querying pkg-config, whereas with the argument supplied it constructs a detector
   * whenever pkg-config runs and answers every query.
   */
  lemma Qt5InitAsWrittenRaises(kwargs: Kwargs, host: Host, m: string)
    requires "modules" in kwargs && kwargs["modules"] == List([Str(m)])
    requires forall q :: host.pkgConfig(q).exitCode == 0
    ensures Qt5InitAsWritten(kwargs) == Fail(MissingRequiredArgument)
    ensures Qt5Spec(false, host, kwargs).result.Ok?
  {
    var items := [Str(m)];
    ProbePresent(false, host.pkgConfig, "Qt5" + m, false);
    assert items[..0] == [];
    assert ProbeModules(false, ItemProbes(host.pkgConfig), items).result.Ok?;
  }

  /** `found()` as written: `moc` and `uic` are built without a full path, so they are never found. */
  predicate Qt5FoundAsWritten(modules: seq<PkgConfigState>) {
    Qt5Found(Qt5State(modules, ExternalProgram("moc", None), ExternalProgram("uic", None)))
  }

  /**
   * As written the detector is never found, even when every module is; with the tools
   * located on the search path it is found.
   */
  lemma Qt5NeverFoundAsWritten(modules: seq<PkgConfigState>, host: Host)
    requires forall i :: 0 <= i < |modules| ==> modules[i].isFound
    requires "moc" in host.searchPath && "uic" in host.searchPath
    ensures !Qt5FoundAsWritten(modules)
    ensures Qt5Found(Qt5State(modules, Locate(host, "moc"), Locate(host, "uic")))
  {
  }

  /** `get_link_flags` as written: the list is built and then dropped, so the call returns None. */
  function Qt5LinkFlagsAsWritten(q: Qt5State): Option<seq<string>> {
    None
  }

  /** As written no link flag reaches the caller, even when a module has some. */
  lemma Qt5LinkFlagsAsWrittenDropped(q: Qt5State, k: nat, f: string)
    requires k < |q.modules| && f in q.modules[k].libs
    ensures Qt5LinkFlagsAsWritten(q) == None
    ensures f in LinkFlags(q)
  {
    LinkFlagsMember(q, f);
  }

  /** `get_version` as written: the probe defines no `get_version`, so the call raises an AttributeError. */
  function Qt5VersionAsWritten(q: Qt5State): Result<string> {
    Fail(NoGetVersion)
  }

  /** As written the version is never available; read from the first module it is that module's version. */
  lemma Qt5VersionAsWrittenRaises(q: Qt5State)
    requires q.modules != []
    ensures Qt5VersionAsWritten(q).Fail? && ClassOf(Qt5VersionAsWritten(q).error) == AttributeError
    ensures Version(q) == q.modules[0].modversion
  {
  }

  // ---------------------------------------------------------------- the detector object

  /** The Qt5 detector object: its module probes, created one by one, and the two tools. */
  class Qt5Dependency {
    const root: string
    var modules: seq<PkgConfigDependency>
    var moc: ExternalProgram
    var uic: ExternalProgram

    function State(): Qt5State
      reads this
    {
      Qt5State(States(modules), moc, uic)
    }

    constructor (modules: seq<PkgConfigDependency>, moc: ExternalProgram, uic: ExternalProgram)
      ensures root == Qt5Root && this.modules == modules && this.moc == moc && this.uic == uic
    {
      root := Qt5Root;
      this.modules := modules;
      this.moc := moc;
      this.uic := uic;
    }

    /** One round of the probing loop of `Qt5Dependency(kwargs)`. */
    static method ProbeItem(session: Session, item: Value) returns (r: Result<PkgConfigDependency>)
      modifies session
      ensures var s := ItemProbe(old(session.pkgconfigFound), session.host.pkgConfig, item);
        session.pkgconfigFound == s.toolFound &&
        session.issued == old(session.issued) + s.queries &&
        (r.Fail? <==> s.result.Fail?) &&
        (r.Fail? ==> r.error == s.result.error) &&
        (r.Ok? ==> fresh(r.value) && r.value.State() == s.result.value)
    {
      if !item.Str? {
        assert session.issued == session.issued + [];
        return Fail(NotConcatenable);
      }
      r := PkgConfigDependency.New(session, "Qt5" + item.s, false);
    }

    /**
     * One round of the probing loop: given the detectors created for the items before `i`,
     * the detectors for one more item, or the error that ends the loop.
     */
    static method ProbeNext(session: Session, items: seq<Value>, i: nat, modules: seq<PkgConfigDependency>,
                            ghost probe: (bool, Value) -> Step<PkgConfigState>, ghost toolFound: bool, ghost queries: seq<Query>)
      returns (r: Result<seq<PkgConfigDependency>>, ghost issued: seq<Query>)
      requires i < |items| && ProbesWith(probe, session.host.pkgConfig)
      requires ProbeModules(toolFound, probe, items[..i]) == Step(Ok(States(modules)), session.pkgconfigFound, queries)
      modifies session
      ensures session.issued == old(session.issued) + issued
      ensures r.Ok? ==>
        ProbeModules(toolFound, probe, items[..i + 1]) ==
        Step(Ok(States(r.value)), session.pkgconfigFound, queries + issued)
      ensures r.Fail? ==>
        ProbeModules(toolFound, probe, items) ==
        Step(Fail(r.error), session.pkgconfigFound, queries + issued)
    {
      ghost var p := ItemProbe(session.pkgconfigFound, session.host.pkgConfig, items[i]);
      ProbeModulesSnoc(toolFound, probe, items, i, States(modules), session.pkgconfigFound, queries);
      var d := ProbeItem(session, items[i]);
      issued := p.queries;
      if d.Fail? {
        ProbeModulesStops(toolFound, probe, items, i + 1);
        return Fail(d.error), issued;
      }
      StatesSnoc(modules, d.value);
      r := Ok(modules + [d.value]);
    }

    /** The probing loop of `Qt5Dependency(kwargs)`: creates the module probes in order. */
    static method ProbeAll(session: Session, items: seq<Value>, ghost probe: (bool, Value) -> Step<PkgConfigState>)
      returns (r: Result<seq<PkgConfigDependency>>)
      requires ProbesWith(probe, session.host.pkgConfig)
      modifies session
      ensures var s := ProbeModules(old(session.pkgconfigFound), probe, items);
        session.pkgconfigFound == s.toolFound &&
        session.issued == old(session.issued) + s.queries &&
        (r.Fail? <==> s.result.Fail?) &&
        (r.Fail? ==> r.error == s.result.error) &&
        (r.Ok? ==> States(r.value) == s.result.value)
    {
      ghost var toolFound := session.pkgconfigFound;
      ghost var queries: seq<Query> := [];
      var modules: seq<PkgConfigDependency> := [];
      var i := 0;
      while i < |items|
        invariant 0 <= i <= |items|
        invariant session.issued == old(session.issued) + queries
        invariant ProbeModules(toolFound, probe, items[..i]) == Step(Ok(States(modules)), session.pkgconfigFound, queries)
      {
        var next, issued := ProbeNext(session, items, i, modules, probe, toolFound, queries);
        queries := queries + issued;
        if next.Fail? {
          return Fail(next.error);
        }
        modules := next.value;
        i := i + 1;
      }
      assert items[..i] == items;
      r := Ok(modules);
    }

    /** `Qt5Dependency(kwargs)`: a new object, or the error its construction raises. */
    static method New(session: Session, kwargs: Kwargs) returns (r: Result<Qt5Dependency>)
      modifies session
      ensures var s := Qt5Spec(old(session.pkgconfigFound), session.host, kwargs);
        session.pkgconfigFound == s.toolFound &&
        session.issued == old(session.issued) + s.queries &&
        (r.Fail? <==> s.result.Fail?) &&
        (r.Fail? ==> r.error == s.result.error) &&
        (r.Ok? ==> fresh(r.value) && r.value.State() == s.result.value)
    {
      var items := ModuleItems(kwargs);
      if items.Fail? {
        return Fail(items.error);
      }
      ghost var spec := ProbeModules(session.pkgconfigFound, ItemProbes(session.host.pkgConfig), items.value);
      assert Qt5Spec(session.pkgconfigFound, session.host, kwargs) == Complete(session.host, spec);
      ItemProbesProbe(session.host.pkgConfig);
      var modules := ProbeAll(session, items.value, ItemProbes(session.host.pkgConfig));
      if modules.Fail? {
        return Fail(modules.error);
      }
      if |modules.value| == 0 {
        return Fail(NoQt5Modules);
      }
      ghost var states := States(modules.value);
      var q := new Qt5Dependency(modules.value, Locate(session.host, "moc"), Locate(session.host, "uic"));
      assert States(q.modules) == states;
      r := Ok(q);
    }

    /** `found()`: checks the two tools, then each module in turn, stopping at the first not found. */
    method Found() returns (b: bool)
      ensures b == Qt5Found(State())
    {
      if !ProgramFound(moc) {
        return false;
      }
      if !ProgramFound(uic) {
        return false;
      }
      var i := 0;
      StatesAt(modules);
      while i < |modules|
        invariant 0 <= i <= |modules|
        invariant forall j :: 0 <= j < i ==> modules[j].isFound
      {
        if !modules[i].isFound {
          assert !State().modules[i].isFound;
          return false;
        }
        i := i + 1;
      }
      b := true;
    }

    /** `get_compile_flags`: appends the compile flags of each module in turn. */
    method GetCompileFlags() returns (flags: seq<string>)
      ensures flags == CompileFlags(State())
    {
      ghost var lists := CflagLists(States(modules));
      StatesAt(modules);
      flags := [];
      var i := 0;
      while i < |modules|
        invariant 0 <= i <= |modules|
        invariant flags == Flatten(lists[..i])
      {
        assert lists[..i + 1][..i] == lists[..i];
        flags := flags + modules[i].cflags;
        i := i + 1;
      }
      assert lists[..i] == lists;
    }

    /** `get_link_flags`, returning what it builds: appends the link flags of each module in turn. */
    method GetLinkFlags() returns (flags: seq<string>)
      ensures flags == LinkFlags(State())
    {
      ghost var lists := LibLists(States(modules));
      StatesAt(modules);
      flags := [];
      var i := 0;
      while i < |modules|
        invariant 0 <= i <= |modules|
        invariant flags == Flatten(lists[..i])
      {
        assert lists[..i + 1][..i] == lists[..i];
        flags := flags + modules[i].libs;
        i := i + 1;
      }
      assert lists[..i] == lists;
    }

    /** `get_version`, reading the version of the first module. */
    method GetVersion() returns (v: string)
      requires modules != []
      ensures v == Version(State())
    {
      StatesAt(modules);
      v := modules[0].modversion;
    }
  }
}
