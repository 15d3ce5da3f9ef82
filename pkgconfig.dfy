/**
 * The generic detector: three pkg-config queries per package, preceded, until it first
 * succeeds in the process, by a check that pkg-config itself runs.
 */
module PkgConfig {
  import opened Outcome
  import opened PyStr
  import opened Environment

  /**
   * What a constructed PkgConfigDependency holds: `is_found`, `modversion`, `cflags` and
   * `libs`. The object keeps no `name`; it is recorded here only so that contracts can say
   * which package a state belongs to.
   */
  datatype PkgConfigState = PkgConfigState(
    name: string,
    isFound: bool,
    modversion: string,
    cflags: seq<string>,
    libs: seq<string>)

  /**
   * The outcome of a detection step, the process-wide "pkg-config found" flag after it,
   * and the pkg-config invocations it issued, in order.
   */
  datatype Step<T> = Step(result: Result<T>, toolFound: bool, queries: seq<Query>)

  /** How many times a list of invocations runs `pkg-config --version`. */
  function ToolChecks(queries: seq<Query>): nat {
    if queries == [] then 0
    else ToolChecks(queries[..|queries| - 1]) + (if queries[|queries| - 1] == ToolVersion then 1 else 0)
  }

  lemma {:induction false} NoToolChecks(queries: seq<Query>)
    requires forall i :: 0 <= i < |queries| ==> queries[i] != ToolVersion
    ensures ToolChecks(queries) == 0
    decreases |queries|
  {
    if queries != [] {
      NoToolChecks(queries[..|queries| - 1]);
    }
  }

  lemma {:induction false} ToolChecksAppend(a: seq<Query>, b: seq<Query>)
    ensures ToolChecks(a + b) == ToolChecks(a) + ToolChecks(b)
    decreases |b|
  {
    if b == [] {
      assert a + b == a;
    } else {
      assert (a + b)[..|a + b| - 1] == a + b[..|b| - 1];
      ToolChecksAppend(a, b[..|b| - 1]);
    }
  }

  /**
   * Over one detection step started with the process-wide flag `toolFound`: the pkg-config
   * check ran at most once, and not at all when the flag was set; the flag is never unset;
   * and a step that succeeded without setting the flag ran no check.
   */
  predicate ChecksOnce<T>(toolFound: bool, s: Step<T>) {
    && ToolChecks(s.queries) <= (if toolFound then 0 else 1)
    && (toolFound ==> s.toolFound)
    && (s.result.Ok? && !s.toolFound ==> ToolChecks(s.queries) == 0)
  }

  /** A package absent from pkg-config and not required: not found, version 'none', no flags. */
  function NotFound(name: string): PkgConfigState {
    PkgConfigState(name, false, "none", [], [])
  }

  /** The flag queries of `PkgConfigDependency.__init__`, once the version query has succeeded with `modversion`. */
  function FlagQueries(run: Query -> ProbeResult, name: string, modversion: string): (s: Step<PkgConfigState>)
    ensures s.queries == [Cflags(name)] || s.queries == [Cflags(name), Libs(name)]
    ensures |s.queries| == 2 <==> run(Cflags(name)).exitCode == 0
    ensures run(Cflags(name)).exitCode != 0 ==> s.result == Fail(CflagsFailed(name))
    ensures run(Cflags(name)).exitCode == 0 && run(Libs(name)).exitCode != 0 ==> s.result == Fail(LibsFailed(name))
    ensures s.result.Ok? <==> run(Cflags(name)).exitCode == 0 && run(Libs(name)).exitCode == 0
    ensures s.result.Ok? ==>
      s.result.value == PkgConfigState(name, true, modversion, Split(run(Cflags(name)).stdout), Split(run(Libs(name)).stdout))
  {
    var cflags := run(Cflags(name));
    if cflags.exitCode != 0 then
      Step(Fail(CflagsFailed(name)), true, [Cflags(name)])
    else
      var libs := run(Libs(name));
      Step(if libs.exitCode != 0 then Fail(LibsFailed(name))
           else Ok(PkgConfigState(name, true, modversion, Split(cflags.stdout), Split(libs.stdout))),
           true, [Cflags(name), Libs(name)])
  }

  /** The three package queries of `PkgConfigDependency.__init__`, once pkg-config is known to run. */
  function PackageQueries(run: Query -> ProbeResult, name: string, required: bool): (s: Step<PkgConfigState>)
    ensures forall i :: 0 <= i < |s.queries| ==> s.queries[i] != ToolVersion
  {
    var version := run(ModVersion(name));
    if version.exitCode != 0 then
      Step(if required then Fail(RequiredDependencyNotFound(name)) else Ok(NotFound(name)), true, [ModVersion(name)])
    else
      var f := FlagQueries(run, name, Strip(version.stdout));
      Step(f.result, true, [ModVersion(name)] + f.queries)
  }

  /** Construction of `PkgConfigDependency(name, required)` when the process-wide flag is `toolFound`. */
  function Probe(toolFound: bool, run: Query -> ProbeResult, name: string, required: bool): (s: Step<PkgConfigState>)
    ensures s.toolFound <==> toolFound || run(ToolVersion).exitCode == 0
    ensures s.result.Ok? ==> s.result.value.name == name
    ensures s.result.Ok? ==> (s.result.value.isFound <==> run(ModVersion(name)).exitCode == 0)
    ensures s.result.Ok? && !s.result.value.isFound ==> s.result.value == NotFound(name)
    ensures required && s.result.Ok? ==> s.result.value.isFound
  {
    if toolFound then
      PackageQueries(run, name, required)
    else if run(ToolVersion).exitCode != 0 then
      Step(Fail(PkgConfigMissing), false, [ToolVersion])
    else
      var q := PackageQueries(run, name, required);
      Step(q.result, true, [ToolVersion] + q.queries)
  }

  /**
   * Each probe runs `pkg-config --version` exactly once while the flag is unset and never
   * once it is set.
   */
  lemma ProbeChecksOnce(toolFound: bool, run: Query -> ProbeResult, name: string, required: bool)
    ensures var s := Probe(toolFound, run, name, required);
      ToolChecks(s.queries) == (if toolFound then 0 else 1) && ChecksOnce(toolFound, s)
  {
    var q := PackageQueries(run, name, required);
    NoToolChecks(q.queries);
    ToolChecksAppend([ToolVersion], q.queries);
  }

  /** pkg-config itself missing: the first probe of the process fails with a RuntimeError and asks nothing about the package. */
  lemma ProbeToolMissing(run: Query -> ProbeResult, name: string, required: bool)
    requires run(ToolVersion).exitCode != 0
    ensures Probe(false, run, name, required) == Step(Fail(PkgConfigMissing), false, [ToolVersion])
    ensures ClassOf(PkgConfigMissing) == RuntimeError
  {
  }

  /**
   * A failed version query: a DependencyException when required, with no further query;
   * otherwise not found, version 'none' and no flags.
   */
  lemma ProbeAbsent(toolFound: bool, run: Query -> ProbeResult, name: string, required: bool)
    requires toolFound || run(ToolVersion).exitCode == 0
    requires run(ModVersion(name)).exitCode != 0
    ensures var s := Probe(toolFound, run, name, required);
      s.toolFound &&
      s.queries == (if toolFound then [] else [ToolVersion]) + [ModVersion(name)] &&
      s.result == (if required then Fail(RequiredDependencyNotFound(name)) else Ok(NotFound(name)))
    ensures ClassOf(RequiredDependencyNotFound(name)) == DependencyException
  {
  }

  /** All three queries succeed: found, the stripped version text, and the whitespace-split flags. */
  lemma ProbePresent(toolFound: bool, run: Query -> ProbeResult, name: string, required: bool)
    requires toolFound || run(ToolVersion).exitCode == 0
    requires run(ModVersion(name)).exitCode == 0
    requires run(Cflags(name)).exitCode == 0 && run(Libs(name)).exitCode == 0
    ensures Probe(toolFound, run, name, required).result ==
      Ok(PkgConfigState(name, true, Strip(run(ModVersion(name)).stdout),
                        Split(run(Cflags(name)).stdout), Split(run(Libs(name)).stdout)))
  {
  }

  /** A flag query failing after the version query succeeded is a RuntimeError, whatever `required` says. */
  lemma ProbeToolingFault(toolFound: bool, run: Query -> ProbeResult, name: string, required: bool)
    requires toolFound || run(ToolVersion).exitCode == 0
    requires run(ModVersion(name)).exitCode == 0
    requires run(Cflags(name)).exitCode != 0 || run(Libs(name)).exitCode != 0
    ensures var r := Probe(toolFound, run, name, required).result;
      r.Fail? && ClassOf(r.error) == RuntimeError &&
      r.error == (if run(Cflags(name)).exitCode != 0 then CflagsFailed(name) else LibsFailed(name))
  {
  }

  /** Flags printed by pkg-config as space-separated tokens, with a trailing newline, are read back exactly. */
  lemma ProbeReadsPrintedFlags(toolFound: bool, run: Query -> ProbeResult, name: string,
                               version: string, cflags: seq<string>, libs: seq<string>)
    requires toolFound || run(ToolVersion).exitCode == 0
    requires IsWord(version)
    requires forall i :: 0 <= i < |cflags| ==> IsWord(cflags[i])
    requires forall i :: 0 <= i < |libs| ==> IsWord(libs[i])
    requires run(ModVersion(name)) == ProbeResult(0, version + "\n")
    requires run(Cflags(name)) == ProbeResult(0, Join(cflags) + "\n")
    requires run(Libs(name)) == ProbeResult(0, Join(libs) + "\n")
    ensures Probe(toolFound, run, name, false).result == Ok(PkgConfigState(name, true, version, cflags, libs))
  {
    StripPadded("", version, "\n");
    assert "" + version + "\n" == version + "\n";
    SplitJoin(cflags, "\n");
    SplitJoin(libs, "\n");
  }

  /**
   * The process that resolves dependencies: the class-level `pkgconfig_found` flag, the
   * machine it runs on, and (ghost) the pkg-config invocations issued so far.
   */
  class Session {
    const host: Host
    var pkgconfigFound: bool
    ghost var issued: seq<Query>

    constructor (host: Host)
      ensures this.host == host && !pkgconfigFound && issued == []
    {
      this.host := host;
      pkgconfigFound := false;
      issued := [];
    }

    /** Runs one pkg-config invocation and returns its exit status and output. */
    method Run(q: Query) returns (p: ProbeResult)
      modifies this`issued
      ensures p == host.pkgConfig(q) && issued == old(issued) + [q]
    {
      p := host.pkgConfig(q);
      issued := issued + [q];
    }

    /** `check_pkgconfig`: fails when `pkg-config --version` fails, otherwise sets the flag for good. */
    method CheckPkgconfig() returns (err: Option<Error>)
      modifies this`issued, this`pkgconfigFound
      ensures issued == old(issued) + [ToolVersion]
      ensures err.None? <==> host.pkgConfig(ToolVersion).exitCode == 0
      ensures err.Some? ==> err.value == PkgConfigMissing && pkgconfigFound == old(pkgconfigFound)
      ensures err.None? ==> pkgconfigFound
    {
      var p := Run(ToolVersion);
      if p.exitCode != 0 {
        return Some(PkgConfigMissing);
      }
      pkgconfigFound := true;
      err := None;
    }
  }

  lemma AppendAssoc<T>(a: seq<T>, b: seq<T>, c: seq<T>)
    ensures a + b + c == a + (b + c)
  {
  }

  /** The states of a list of detectors, in order. */
  function States(ds: seq<PkgConfigDependency>): (r: seq<PkgConfigState>)
    ensures |r| == |ds|
  {
    if ds == [] then [] else States(ds[..|ds| - 1]) + [ds[|ds| - 1].State()]
  }

  lemma StatesSnoc(ds: seq<PkgConfigDependency>, d: PkgConfigDependency)
    ensures States(ds + [d]) == States(ds) + [d.State()]
  {
    assert (ds + [d])[..|ds|] == ds;
  }

  /** The `i`-th state is the state of the `i`-th detector. */
  lemma {:induction false} StatesAt(ds: seq<PkgConfigDependency>)
    ensures forall i :: 0 <= i < |ds| ==> States(ds)[i] == ds[i].State()
    decreases |ds|
  {
    if ds != [] {
      StatesAt(ds[..|ds| - 1]);
    }
  }

  /**
   * A package detected through pkg-config. Its attributes are all set while it is being
   * constructed and never change afterwards.
   */
  class PkgConfigDependency {
    const name: string
    const isFound: bool
    const modversion: string
    const cflags: seq<string>
    const libs: seq<string>

    function State(): PkgConfigState {
      PkgConfigState(name, isFound, modversion, cflags, libs)
    }

    constructor (s: PkgConfigState)
      ensures State() == s
    {
      name := s.name;
      isFound := s.isFound;
      modversion := s.modversion;
      cflags := s.cflags;
      libs := s.libs;
    }

    /** The flag queries of `PkgConfigDependency.__init__`, once the version query has succeeded. */
    static method QueryFlags(session: Session, name: string, modversion: string) returns (r: Result<PkgConfigState>)
      modifies session`issued
      ensures var s := FlagQueries(session.host.pkgConfig, name, modversion);
        session.issued == old(session.issued) + s.queries && r == s.result
    {
      var p := session.Run(Cflags(name));
      if p.exitCode != 0 {
        return Fail(CflagsFailed(name));
      }
      var cflags := Split(p.stdout);
      p := session.Run(Libs(name));
      if p.exitCode != 0 {
        return Fail(LibsFailed(name));
      }
      var libs := Split(p.stdout);
      r := Ok(PkgConfigState(name, true, modversion, cflags, libs));
    }

    /** The package queries of `PkgConfigDependency.__init__`, attribute by attribute. */
    static method QueryPackage(session: Session, name: string, required: bool) returns (r: Result<PkgConfigState>)
      requires session.pkgconfigFound
      modifies session`issued
      ensures var s := PackageQueries(session.host.pkgConfig, name, required);
        session.issued == old(session.issued) + s.queries && r == s.result
    {
      ghost var before := session.issued;
      var p := session.Run(ModVersion(name));
      if p.exitCode != 0 {
        if required {
          return Fail(RequiredDependencyNotFound(name));
        }
        return Ok(NotFound(name));
      }
      ghost var f := FlagQueries(session.host.pkgConfig, name, Strip(p.stdout));
      assert PackageQueries(session.host.pkgConfig, name, required) == Step(f.result, true, [ModVersion(name)] + f.queries);
      r := QueryFlags(session, name, Strip(p.stdout));
      AppendAssoc(before, [ModVersion(name)], f.queries);
    }

    /** The probing part of `PkgConfigDependency.__init__`: the pkg-config check while the flag is unset, then the queries. */
    static method Detect(session: Session, name: string, required: bool) returns (r: Result<PkgConfigState>)
      modifies session
      ensures var s := Probe(old(session.pkgconfigFound), session.host.pkgConfig, name, required);
        session.pkgconfigFound == s.toolFound &&
        session.issued == old(session.issued) + s.queries &&
        r == s.result
    {
      ghost var q := PackageQueries(session.host.pkgConfig, name, required);
      if !session.pkgconfigFound {
        ghost var before := session.issued;
        var err := session.CheckPkgconfig();
        if err.Some? {
          return Fail(err.value);
        }
        r := QueryPackage(session, name, required);
        AppendAssoc(before, [ToolVersion], q.queries);
      } else {
        r := QueryPackage(session, name, required);
      }
    }

    /** `PkgConfigDependency(name, required)`: a new object, or the error its construction raises. */
    static method New(session: Session, name: string, required: bool) returns (r: Result<PkgConfigDependency>)
      modifies session
      ensures var s := Probe(old(session.pkgconfigFound), session.host.pkgConfig, name, required);
        session.pkgconfigFound == s.toolFound &&
        session.issued == old(session.issued) + s.queries &&
        (r.Fail? <==> s.result.Fail?) &&
        (r.Fail? ==> r.error == s.result.error) &&
        (r.Ok? ==> fresh(r.value) && r.value.State() == s.result.value)
    {
      var s := Detect(session, name, required);
      if s.Fail? {
        return Fail(s.error);
      }
      var d := new PkgConfigDependency(s.value);
      r := Ok(d);
    }
  }
}
