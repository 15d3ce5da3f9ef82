/**
 * The entry point `find_external_dependency`: the `packages` table of custom detectors, the
 * `PackageDependency` adapter that forwards to them, and the pkg-config probe for every
 * other name.
 */
module Registry {
  import opened Outcome
  import opened Options
  import opened Environment
  import opened PkgConfig
  import opened Detectors
  import Boost
  import Qt5

  // ---------------------------------------------------------------- the detectors, as values

  /** The custom detector classes of the `packages` table. */
  datatype DetectorKind = BoostKind | GTestKind | GMockKind | Qt5Kind

  /** `packages`: the names with a custom detector. */
  const Packages: map<string, DetectorKind> :=
    map["boost" := BoostKind, "gtest" := GTestKind, "gmock" := GMockKind, "qt5" := Qt5Kind]

  /** The table registers exactly four names, each with its own detector class. */
  lemma PackagesTable()
    ensures Packages.Keys == {"boost", "gtest", "gmock", "qt5"}
    ensures Packages["boost"] == BoostKind && Packages["gtest"] == GTestKind
    ensures Packages["gmock"] == GMockKind && Packages["qt5"] == Qt5Kind
    ensures forall a, b :: a in Packages && b in Packages && Packages[a] == Packages[b] ==> a == b
  {
  }

  /** A constructed custom detector. */
  datatype Custom =
    | BoostDep(boost: Boost.BoostState)
    | GTestDep(gtest: GTestDependency)
    | GMockDep(gmock: GMockDependency)
    | Qt5Dep(qt5: Qt5.Qt5State)

  /** What `find_external_dependency` returns: a wrapped custom detector or a pkg-config probe. */
  datatype Dependency =
    | PackageDependency(dep: Custom)
    | PkgConfigDep(probe: PkgConfigState)

  function KindOf(c: Custom): DetectorKind {
    match c
    case BoostDep(_) => BoostKind
    case GTestDep(_) => GTestKind
    case GMockDep(_) => GMockKind
    case Qt5Dep(_) => Qt5Kind
  }

  /** `found()` of a custom detector; GTest and GMock look at the paths that exist. */
  function CustomFound(c: Custom, existing: set<string>): bool {
    match c
    case BoostDep(b) => Boost.Found(b)
    case GTestDep(g) => GTestFound(g, existing)
    case GMockDep(m) => GMockFound(m, existing)
    case Qt5Dep(q) => Qt5.Qt5Found(q)
  }

  function CustomCompileFlags(c: Custom): seq<string> {
    match c
    case BoostDep(b) => Boost.CompileFlags(b)
    case GTestDep(g) => GTestCompileFlags(g)
    case GMockDep(m) => GMockCompileFlags(m)
    case Qt5Dep(q) => Qt5.CompileFlags(q)
  }

  function CustomLinkFlags(c: Custom): seq<string> {
    match c
    case BoostDep(b) => Boost.BoostLinkFlags(b)
    case GTestDep(g) => GTestLinkFlags(g)
    case GMockDep(m) => GMockLinkFlags(m)
    case Qt5Dep(q) => Qt5.LinkFlags(q)
  }

  function CustomSources(c: Custom): seq<string> {
    match c
    case BoostDep(b) => Boost.Sources(b)
    case GTestDep(g) => GTestSources(g)
    case GMockDep(m) => GMockSources(m)
    case Qt5Dep(q) => Qt5.Sources(q)
  }

  /** `found()`: the adapter forwards; a probe reports `is_found`. */
  function Found(d: Dependency, existing: set<string>): bool {
    match d
    case PackageDependency(c) => CustomFound(c, existing)
    case PkgConfigDep(p) => p.isFound
  }

  function CompileFlags(d: Dependency): seq<string> {
    match d
    case PackageDependency(c) => CustomCompileFlags(c)
    case PkgConfigDep(p) => p.cflags
  }

  function LinkFlags(d: Dependency): seq<string> {
    match d
    case PackageDependency(c) => CustomLinkFlags(c)
    case PkgConfigDep(p) => p.libs
  }

  /** `get_sources()`: the adapter forwards; a probe inherits the empty list of `Dependency`. */
  function Sources(d: Dependency): seq<string> {
    match d
    case PackageDependency(c) => CustomSources(c)
    case PkgConfigDep(_) => []
  }

  // ---------------------------------------------------------------- dispatch

  /** `packages[name](kwargs)`: constructs the custom detector; only Qt5 runs pkg-config. */
  function Construct(kind: DetectorKind, toolFound: bool, host: Host, kwargs: Kwargs): (s: Step<Custom>)
    ensures s.result.Ok? ==> KindOf(s.result.value) == kind
    ensures kind != Qt5Kind ==> s.toolFound == toolFound && s.queries == []
    ensures kind == BoostKind ==> (s.result.Fail? <==> Boost.BoostSpec(kwargs, host).Fail?)
    ensures kind == GTestKind || kind == GMockKind ==> s.result.Ok?
  {
    match kind
    case BoostKind =>
      var b := Boost.BoostSpec(kwargs, host);
      Step(if b.Fail? then Fail(b.error) else Ok(BoostDep(b.value)), toolFound, [])
    case GTestKind => Step(Ok(GTestDep(NewGTest())), toolFound, [])
    case GMockKind => Step(Ok(GMockDep(NewGMock())), toolFound, [])
    case Qt5Kind =>
      var q := Qt5.Qt5Spec(toolFound, host, kwargs);
      Step(if q.result.Fail? then Fail(q.result.error) else Ok(Qt5Dep(q.result.value)), q.toolFound, q.queries)
  }

  /**
   * `find_external_dependency(name, kwargs)` when the process-wide pkg-config flag is
   * `toolFound`: a registered custom detector, wrapped, and refused when it is required but
   * not found; otherwise a pkg-config probe of `name` itself.
   */
  function Resolve(toolFound: bool, host: Host, name: string, kwargs: Kwargs): (s: Step<Dependency>)
    ensures s.result.Ok? && Required(kwargs) ==> Found(s.result.value, host.existing)
    ensures s.result.Ok? ==> (s.result.value.PackageDependency? <==> name in Packages)
    ensures s.result.Ok? && name in Packages ==> KindOf(s.result.value.dep) == Packages[name]
    ensures s.result.Ok? && name !in Packages ==> s.result.value.probe.name == name
  {
    if name in Packages then
      Wrap(name, Required(kwargs), host.existing, Construct(Packages[name], toolFound, host, kwargs))
    else
      var p := Probe(toolFound, host.pkgConfig, name, Required(kwargs));
      Step(if p.result.Fail? then Fail(p.result.error) else Ok(PkgConfigDep(p.result.value)), p.toolFound, p.queries)
  }

  /** The registered branch once the detector `c` is constructed: refused when required and not found, otherwise wrapped. */
  function Wrap(name: string, required: bool, existing: set<string>, c: Step<Custom>): (s: Step<Dependency>)
    ensures s.toolFound == c.toolFound && s.queries == c.queries
    ensures s.result.Ok? <==> c.result.Ok? && (required ==> CustomFound(c.result.value, existing))
    ensures s.result.Ok? ==> s.result.value == PackageDependency(c.result.value)
    ensures c.result.Fail? ==> s.result == Fail(c.result.error)
    ensures c.result.Ok? && required && !CustomFound(c.result.value, existing) ==> s.result == Fail(DependencyNotFound(name))
  {
    if c.result.Fail? then Step(Fail(c.result.error), c.toolFound, c.queries)
    else if required && !CustomFound(c.result.value, existing) then
      Step(Fail(DependencyNotFound(name)), c.toolFound, c.queries)
    else Step(Ok(PackageDependency(c.result.value)), c.toolFound, c.queries)
  }

  /** An unregistered name is probed through pkg-config under that very name, required as `kwargs` says. */
  lemma UnregisteredIsProbed(toolFound: bool, host: Host, name: string, kwargs: Kwargs)
    requires name !in Packages
    ensures var s := Resolve(toolFound, host, name, kwargs);
      var p := Probe(toolFound, host.pkgConfig, name, Required(kwargs));
      s.toolFound == p.toolFound && s.queries == p.queries &&
      (s.result.Fail? <==> p.result.Fail?) &&
      (s.result.Fail? ==> s.result.error == p.result.error) &&
      (s.result.Ok? ==> s.result.value == PkgConfigDep(p.result.value))
  {
  }

  /** `required` defaults to false: leaving it out is the same as passing `False`. */
  lemma RequiredDefaultsToFalse(toolFound: bool, host: Host, name: string, kwargs: Kwargs)
    requires "required" !in kwargs
    ensures Resolve(toolFound, host, name, kwargs) == Resolve(toolFound, host, name, kwargs["required" := Bool(false)])
  {
    var k := kwargs["required" := Bool(false)];
    assert !Required(k) && !Required(kwargs);
    if name in Packages {
      ConstructIgnoresRequired(Packages[name], toolFound, host, kwargs, Bool(false));
    }
  }

  /** The custom detectors never read `required`: constructing one does not depend on it. */
  lemma ConstructIgnoresRequired(kind: DetectorKind, toolFound: bool, host: Host, kwargs: Kwargs, v: Value)
    ensures Construct(kind, toolFound, host, kwargs["required" := v]) == Construct(kind, toolFound, host, kwargs)
  {
    var k := kwargs["required" := v];
    match kind
    case BoostKind =>
      assert Boost.GetRequested(k) == Boost.GetRequested(kwargs);
    case Qt5Kind =>
      assert Qt5.ModuleItems(k) == Qt5.ModuleItems(kwargs);
    case _ =>
  }

  /** A registered detector that is required but constructed not found raises a DependencyException naming the package. */
  lemma RequiredNotFoundRaises(toolFound: bool, host: Host, name: string, kwargs: Kwargs)
    requires name in Packages && Required(kwargs)
    requires var c := Construct(Packages[name], toolFound, host, kwargs);
      c.result.Ok? && !CustomFound(c.result.value, host.existing)
    ensures Resolve(toolFound, host, name, kwargs).result == Fail(DependencyNotFound(name))
    ensures ClassOf(DependencyNotFound(name)) == DependencyException
  {
  }

  /** Without `required`, a registered detector is returned wrapped, found or not. */
  lemma OptionalIsWrapped(toolFound: bool, host: Host, name: string, kwargs: Kwargs)
    requires name in Packages && !Required(kwargs)
    requires Construct(Packages[name], toolFound, host, kwargs).result.Ok?
    ensures Resolve(toolFound, host, name, kwargs).result ==
      Ok(PackageDependency(Construct(Packages[name], toolFound, host, kwargs).result.value))
  {
  }

  /**
   * An unusable Boost `modules` option raises whatever `required` says, and whether or not a
   * version is found: InvalidArguments, or a TypeError when the option is not iterable.
   */
  lemma BoostArgumentErrorIgnoresRequired(toolFound: bool, host: Host, kwargs: Kwargs, v: Value)
    requires host.boostVersionHeader.Some?
    requires Boost.GetRequested(kwargs).Fail?
    ensures Resolve(toolFound, host, "boost", kwargs).result == Fail(Boost.GetRequested(kwargs).error)
    ensures "modules" !in kwargs || kwargs["modules"].Str? || kwargs["modules"].List? ==>
      ClassOf(Resolve(toolFound, host, "boost", kwargs).result.error) == InvalidArguments
    ensures Resolve(toolFound, host, "boost", kwargs["required" := v]) == Resolve(toolFound, host, "boost", kwargs)
  {
    var k := kwargs["required" := v];
    assert Boost.GetRequested(k) == Boost.GetRequested(kwargs);
  }

  /** A bare module string and the one-element list resolve alike for Boost. */
  lemma BoostBareStringLikeList(toolFound: bool, host: Host, kwargs: Kwargs, x: string)
    ensures Resolve(toolFound, host, "boost", kwargs["modules" := Str(x)]) ==
            Resolve(toolFound, host, "boost", kwargs["modules" := List([Str(x)])])
  {
    Boost.BareStringDetectsLikeList(kwargs, host, x);
    var a := kwargs["modules" := Str(x)];
    var b := kwargs["modules" := List([Str(x)])];
    assert Required(a) == Required(b);
  }

  /**
   * Not found means no flags for a pkg-config probe and for Boost's link flags; GTest and
   * GMock are the exception (see `GTestNotFoundKeepsFlags`).
   */
  lemma NotFoundNoFlags(toolFound: bool, host: Host, name: string, kwargs: Kwargs)
    requires var s := Resolve(toolFound, host, name, kwargs);
      s.result.Ok? && !Found(s.result.value, host.existing) &&
      (s.result.value.PkgConfigDep? || s.result.value.dep.BoostDep?)
    ensures var d := Resolve(toolFound, host, name, kwargs).result.value;
      LinkFlags(d) == [] && CompileFlags(d) == [] && Sources(d) == []
  {
  }

  /** An optional GTest that is not found still reports its link flag and its two sources. */
  lemma GTestNotFoundKeepsFlags(toolFound: bool, host: Host, kwargs: Kwargs)
    requires !Required(kwargs)
    requires PathJoin(GTestSrcDir, "gtest-all.cc") !in host.existing
    ensures var s := Resolve(toolFound, host, "gtest", kwargs);
      s.result.Ok? && !Found(s.result.value, host.existing) &&
      LinkFlags(s.result.value) == ["-lpthread"] && |Sources(s.result.value)| == 2
  {
    GTestFlagsWithoutDetection(host.existing);
  }

  /** The adapter forwards each accessor of the detector it wraps, unchanged. */
  lemma AdapterForwards(c: Custom, existing: set<string>)
    ensures Found(PackageDependency(c), existing) == CustomFound(c, existing)
    ensures CompileFlags(PackageDependency(c)) == CustomCompileFlags(c)
    ensures LinkFlags(PackageDependency(c)) == CustomLinkFlags(c)
    ensures Sources(PackageDependency(c)) == CustomSources(c)
  {
  }

  /** One call of the entry point runs `pkg-config --version` at most once, and not at all once the flag is set. */
  lemma ResolveChecksOnce(toolFound: bool, host: Host, name: string, kwargs: Kwargs)
    ensures ChecksOnce(toolFound, Resolve(toolFound, host, name, kwargs))
  {
    if name in Packages {
      if Packages[name] == Qt5Kind {
        Qt5.Qt5SpecChecksOnce(toolFound, host, kwargs);
      }
    } else {
      ProbeChecksOnce(toolFound, host.pkgConfig, name, Required(kwargs));
    }
  }

  // ---------------------------------------------------------------- a run of the build description

  /** One `dependency(name, kwargs...)` request of the build description. */
  datatype Request = Request(name: string, kwargs: Kwargs)

  /**
   * The requests of one run resolved in order, the pkg-config flag carried from each to the
   * next; the first error ends the run.
   */
  function ResolveAll(toolFound: bool, host: Host, requests: seq<Request>): (s: Step<seq<Dependency>>)
    ensures s.result.Ok? ==> |s.result.value| == |requests|
    decreases |requests|
  {
    if requests == [] then Step(Ok([]), toolFound, [])
    else
      var done := ResolveAll(toolFound, host, requests[..|requests| - 1]);
      if done.result.Fail? then done
      else
        var last := requests[|requests| - 1];
        var d := Resolve(done.toolFound, host, last.name, last.kwargs);
        Step(if d.result.Fail? then Fail(d.result.error) else Ok(done.result.value + [d.result.value]),
             d.toolFound, done.queries + d.queries)
  }

  /** A run that succeeds succeeded on each of its prefixes, with the prefix of its results. */
  lemma {:induction false} ResolveAllPrefix(toolFound: bool, host: Host, requests: seq<Request>, k: nat)
    requires k <= |requests| && ResolveAll(toolFound, host, requests).result.Ok?
    ensures ResolveAll(toolFound, host, requests[..k]).result.Ok?
    ensures ResolveAll(toolFound, host, requests[..k]).result.value == ResolveAll(toolFound, host, requests).result.value[..k]
    decreases |requests|
  {
    if k == |requests| {
      assert requests[..k] == requests;
    } else {
      var init := requests[..|requests| - 1];
      ResolveAllLast(toolFound, host, requests);
      ResolveAllPrefix(toolFound, host, init, k);
      assert init[..k] == requests[..k];
    }
  }

  /**
   * In a run that succeeds, the `i`-th result is request `i` resolved with the pkg-config flag
   * left by the requests before it.
   */
  lemma ResolveAllAt(toolFound: bool, host: Host, requests: seq<Request>, i: nat)
    requires i < |requests| && ResolveAll(toolFound, host, requests).result.Ok?
    ensures var before := ResolveAll(toolFound, host, requests[..i]);
      before.result.Ok? &&
      Resolve(before.toolFound, host, requests[i].name, requests[i].kwargs).result ==
        Ok(ResolveAll(toolFound, host, requests).result.value[i])
  {
    ResolveAllPrefix(toolFound, host, requests, i + 1);
    var pre := requests[..i + 1];
    ResolveAllLast(toolFound, host, pre);
    assert pre[..i] == requests[..i];
  }

  /**
   * A run that succeeds extends the run of all but its last request by one result: the last
   * request resolved after the others.
   */
  lemma ResolveAllLast(toolFound: bool, host: Host, requests: seq<Request>)
    requires requests != [] && ResolveAll(toolFound, host, requests).result.Ok?
    ensures var before := ResolveAll(toolFound, host, requests[..|requests| - 1]);
      var last := requests[|requests| - 1];
      before.result.Ok? &&
      before.result.value == ResolveAll(toolFound, host, requests).result.value[..|requests| - 1] &&
      Resolve(before.toolFound, host, last.name, last.kwargs).result ==
        Ok(ResolveAll(toolFound, host, requests).result.value[|requests| - 1])
  {
  }

  /** Two steps in a row, each checking once, check once together. */
  lemma ChecksOnceCompose<T, U, V>(toolFound: bool, a: Step<T>, b: Step<U>, c: Step<V>)
    requires ChecksOnce(toolFound, a) && a.result.Ok?
    requires ChecksOnce(a.toolFound, b)
    requires c.toolFound == b.toolFound && c.queries == a.queries + b.queries
    requires c.result.Ok? ==> b.result.Ok?
    ensures ChecksOnce(toolFound, c)
  {
    ToolChecksAppend(a.queries, b.queries);
  }

  /**
   * Over a whole run, however many packages are requested, `pkg-config --version` runs at
   * most once, and never when the flag was already set: once it succeeds the flag stays set.
   */
  lemma {:induction false} ResolveAllChecksOnce(toolFound: bool, host: Host, requests: seq<Request>)
    ensures ChecksOnce(toolFound, ResolveAll(toolFound, host, requests))
    ensures ToolChecks(ResolveAll(toolFound, host, requests).queries) <= 1
    decreases |requests|
  {
    if requests != [] {
      var init := requests[..|requests| - 1];
      var done := ResolveAll(toolFound, host, init);
      ResolveAllChecksOnce(toolFound, host, init);
      if done.result.Ok? {
        var last := requests[|requests| - 1];
        ResolveChecksOnce(done.toolFound, host, last.name, last.kwargs);
        ChecksOnceCompose(toolFound, done, Resolve(done.toolFound, host, last.name, last.kwargs),
                          ResolveAll(toolFound, host, requests));
      }
    }
  }

  // ---------------------------------------------------------------- the objects

  /** A constructed custom detector object. */
  datatype CustomObject =
    | BoostObject(boost: Boost.BoostDependency)
    | GTestObject(gtest: GTestDependency)
    | GMockObject(gmock: GMockDependency)
    | Qt5Object(qt5: Qt5.Qt5Dependency)

  /** What `find_external_dependency` returns, as objects. */
  datatype DependencyObject =
    | PackageObject(dep: CustomObject)
    | PkgConfigObject(probe: PkgConfigDependency)

  /** The objects whose fields a custom detector's state is read from. */
  function CustomFootprint(c: CustomObject): set<object> {
    match c
    case BoostObject(b) => {b}
    case Qt5Object(q) => {q}
    case _ => {}
  }

  function CustomAbs(c: CustomObject): Custom
    reads CustomFootprint(c)
  {
    match c
    case BoostObject(b) => BoostDep(b.State())
    case GTestObject(g) => GTestDep(g)
    case GMockObject(m) => GMockDep(m)
    case Qt5Object(q) => Qt5Dep(q.State())
  }

  function Footprint(d: DependencyObject): set<object> {
    match d
    case PackageObject(c) => CustomFootprint(c)
    case PkgConfigObject(_) => {}
  }

  function Abs(d: DependencyObject): Dependency
    reads Footprint(d)
  {
    match d
    case PackageObject(c) => PackageDependency(CustomAbs(c))
    case PkgConfigObject(p) => PkgConfigDep(p.State())
  }

  /** `packages[name](kwargs)` on objects. */
  method NewCustom(session: Session, kind: DetectorKind, kwargs: Kwargs) returns (r: Result<CustomObject>)
    modifies session
    ensures var s := Construct(kind, old(session.pkgconfigFound), session.host, kwargs);
      session.pkgconfigFound == s.toolFound &&
      session.issued == old(session.issued) + s.queries &&
      (r.Fail? <==> s.result.Fail?) &&
      (r.Fail? ==> r.error == s.result.error) &&
      (r.Ok? ==> fresh(CustomFootprint(r.value)) && CustomAbs(r.value) == s.result.value)
  {
    match kind
    case BoostKind =>
      var b := Boost.BoostDependency.New(kwargs, session.host);
      if b.Fail? {
        return Fail(b.error);
      }
      r := Ok(BoostObject(b.value));
    case GTestKind =>
      r := Ok(GTestObject(NewGTest()));
    case GMockKind =>
      r := Ok(GMockObject(NewGMock()));
    case Qt5Kind =>
      var q := Qt5.Qt5Dependency.New(session, kwargs);
      if q.Fail? {
        return Fail(q.error);
      }
      r := Ok(Qt5Object(q.value));
  }

  /** `dep.found()` on a custom detector object. */
  method CustomObjectFound(c: CustomObject, existing: set<string>) returns (b: bool)
    ensures b == CustomFound(CustomAbs(c), existing)
  {
    match c
    case BoostObject(d) =>
      b := Boost.Found(d.State());
    case GTestObject(g) =>
      b := GTestFound(g, existing);
    case GMockObject(m) =>
      b := GMockFound(m, existing);
    case Qt5Object(q) =>
      b := q.Found();
  }

  /**
   * The registered branch of `find_external_dependency` once `packages[name](kwargs)` has
   * run (its outcome as a value: `c`): refuse when required and not found, otherwise wrap.
   */
  method WrapPackage(name: string, required: bool, existing: set<string>, dep: Result<CustomObject>, ghost c: Step<Custom>)
    returns (r: Result<DependencyObject>)
    requires dep.Fail? <==> c.result.Fail?
    requires dep.Fail? ==> dep.error == c.result.error
    requires dep.Ok? ==> CustomAbs(dep.value) == c.result.value
    ensures var s := Wrap(name, required, existing, c);
      (r.Fail? <==> s.result.Fail?) &&
      (r.Fail? ==> r.error == s.result.error) &&
      (r.Ok? ==> r == Ok(PackageObject(dep.value)) && Abs(r.value) == s.result.value)
  {
    if dep.Fail? {
      return Fail(dep.error);
    }
    var found := CustomObjectFound(dep.value, existing);
    if required && !found {
      return Fail(DependencyNotFound(name));
    }
    r := Ok(PackageObject(dep.value));
  }

  /** `find_external_dependency(name, kwargs)`: a new detector object, or the error that stops the run. */
  method FindExternalDependency(session: Session, name: string, kwargs: Kwargs) returns (r: Result<DependencyObject>)
    modifies session
    ensures var s := Resolve(old(session.pkgconfigFound), session.host, name, kwargs);
      session.pkgconfigFound == s.toolFound &&
      session.issued == old(session.issued) + s.queries &&
      (r.Fail? <==> s.result.Fail?) &&
      (r.Fail? ==> r.error == s.result.error) &&
      (r.Ok? ==> fresh(Footprint(r.value)) && Abs(r.value) == s.result.value)
  {
    var required := Required(kwargs);
    if name in Packages {
      ghost var c := Construct(Packages[name], session.pkgconfigFound, session.host, kwargs);
      var dep := NewCustom(session, Packages[name], kwargs);
      r := WrapPackage(name, required, session.host.existing, dep, c);
      return;
    }
    var p := PkgConfigDependency.New(session, name, required);
    if p.Fail? {
      return Fail(p.error);
    }
    r := Ok(PkgConfigObject(p.value));
  }

  /** `found()` on a returned object, forwarded through the adapter. */
  method DependencyFound(d: DependencyObject, existing: set<string>) returns (b: bool)
    ensures b == Found(Abs(d), existing)
  {
    match d
    case PackageObject(c) =>
      b := CustomObjectFound(c, existing);
    case PkgConfigObject(p) =>
      b := p.isFound;
  }

  /** `get_compile_flags()` on a returned object, forwarded through the adapter. */
  method GetCompileFlags(d: DependencyObject) returns (flags: seq<string>)
    ensures flags == CompileFlags(Abs(d))
  {
    match d
    case PackageObject(c) =>
      match c {
        case BoostObject(b) =>
          flags := Boost.CompileFlags(b.State());
        case GTestObject(g) =>
          flags := GTestCompileFlags(g);
        case GMockObject(m) =>
          flags := GMockCompileFlags(m);
        case Qt5Object(q) =>
          flags := q.GetCompileFlags();
      }
    case PkgConfigObject(p) =>
      flags := p.cflags;
  }

  /** `get_link_flags()` on a returned object, forwarded through the adapter. */
  method GetLinkFlags(d: DependencyObject) returns (flags: seq<string>)
    ensures flags == LinkFlags(Abs(d))
  {
    match d
    case PackageObject(c) =>
      match c {
        case BoostObject(b) =>
          flags := b.GetLinkFlags();
        case GTestObject(g) =>
          flags := GTestLinkFlags(g);
        case GMockObject(m) =>
          flags := GMockLinkFlags(m);
        case Qt5Object(q) =>
          flags := q.GetLinkFlags();
      }
    case PkgConfigObject(p) =>
      flags := p.libs;
  }
}
