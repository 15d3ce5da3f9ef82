/**
 * The Boost detector: the version from the version header, the header-only modules from the
 * header tree, the compiled modules from the library directory, and one link flag per
 * requested compiled module.
 */
module Boost {
  import opened Outcome
  import opened PyStr
  import opened Options
  import opened Environment

  const IncDir: string := "/usr/include/boost"
  const LibDir: string := "/usr/lib"

  /** What a constructed BoostDependency holds. */
  datatype BoostState = BoostState(
    version: Option<string>,
    srcModules: set<string>,
    libModules: set<string>,
    requestedModules: seq<string>)

  // ---------------------------------------------------------------- the `modules` option

  /** The strings of a list of option values, or None when one of them is not a string. */
  function Strings(items: seq<Value>): (r: Option<seq<string>>)
    ensures r.Some? <==> forall i :: 0 <= i < |items| ==> items[i].Str?
    ensures r.Some? ==> |r.value| == |items| && forall i :: 0 <= i < |items| ==> r.value[i] == items[i].s
  {
    if items == [] then Some([])
    else if !items[0].Str? then None
    else
      var rest := Strings(items[1..]);
      if rest.None? then None else Some([items[0].s] + rest.value)
  }

  /** `get_requested`: a bare string is one module, a list must hold only strings, and the keyword is mandatory. */
  function GetRequested(kwargs: Kwargs): (r: Result<seq<string>>)
    ensures "modules" !in kwargs ==> r == Fail(ModulesKeywordMissing)
    ensures "modules" in kwargs && kwargs["modules"].Str? ==> r == Ok([kwargs["modules"].s])
    ensures "modules" in kwargs && kwargs["modules"].List? ==>
      var items := kwargs["modules"].items;
      (r.Ok? <==> forall i :: 0 <= i < |items| ==> items[i].Str?) &&
      (r.Ok? ==> |r.value| == |items| && forall i :: 0 <= i < |items| ==> r.value[i] == items[i].s) &&
      (r.Fail? ==> r.error == ModuleNotString)
    ensures "modules" in kwargs && (kwargs["modules"].Bool? || kwargs["modules"].Int?) ==> r == Fail(NotIterable)
  {
    if "modules" !in kwargs then Fail(ModulesKeywordMissing)
    else
      match kwargs["modules"]
      case Str(s) => Ok([s])
      case List(items) =>
        (match Strings(items)
         case Some(ms) => Ok(ms)
         case None => Fail(ModuleNotString))
      case _ => Fail(NotIterable)
  }

  /** Requesting `x` as a bare string is the same as requesting the one-element list `[x]`. */
  lemma BareStringIsSingletonList(kwargs: Kwargs, x: string)
    ensures GetRequested(kwargs["modules" := Str(x)]) == GetRequested(kwargs["modules" := List([Str(x)])])
  {
    var items := [Str(x)];
    assert items[1..] == [];
    var rest := Strings(items[1..]);
    assert rest == Some([]);
    assert Strings(items) == Some([items[0].s] + rest.value);
    assert [items[0].s] + rest.value == [x];
  }

  // ---------------------------------------------------------------- validation

  /** `validate_requested`: None when every requested module has a header directory, otherwise the first one that has none. */
  function ValidateRequested(requested: seq<string>, src: set<string>): (r: Option<Error>)
    ensures r.None? <==> forall i :: 0 <= i < |requested| ==> requested[i] in src
    ensures r.Some? ==> ClassOf(r.value) == InvalidArguments
  {
    if requested == [] then None
    else if requested[0] !in src then Some(BoostModuleNotFound(requested[0]))
    else ValidateRequested(requested[1..], src)
  }

  /** The error names the first requested module without a header directory. */
  lemma {:induction false} ValidateNamesFirstMissing(requested: seq<string>, src: set<string>, k: nat)
    requires k < |requested| && requested[k] !in src
    requires forall j :: 0 <= j < k ==> requested[j] in src
    ensures ValidateRequested(requested, src) == Some(BoostModuleNotFound(requested[k]))
    decreases k
  {
    if k > 0 {
      ValidateNamesFirstMissing(requested[1..], src, k - 1);
    }
  }

  // ---------------------------------------------------------------- the version header

  /** A line that sets the version: it starts with `#define` and mentions `BOOST_LIB_VERSION`. */
  predicate IsVersionLine(line: string) {
    StartsWith(line, "#define") && Contains(line, "BOOST_LIB_VERSION")
  }

  /** The version a matching line sets: its last token without its first and last characters, `_` read as `.`. */
  function VersionOf(line: string): (v: string)
    requires IsVersionLine(line)
    ensures '_' !in v
  {
    assert line[0] == "#define"[0];
    var words := Split(line);
    Replace(Inner(words[|words| - 1]), '_', '.')
  }

  /** `detect_version` on the lines of the header: the version of the first matching line, if any. */
  function ParseVersion(lines: seq<string>): (v: Option<string>)
    ensures v.None? <==> forall i :: 0 <= i < |lines| ==> !IsVersionLine(lines[i])
  {
    if lines == [] then None
    else if IsVersionLine(lines[0]) then Some(VersionOf(lines[0]))
    else ParseVersion(lines[1..])
  }

  /** The first matching line decides the version; later lines are never read. */
  lemma {:induction false} ParseVersionFirstMatch(lines: seq<string>, k: nat)
    requires k < |lines| && IsVersionLine(lines[k])
    requires forall j :: 0 <= j < k ==> !IsVersionLine(lines[j])
    ensures ParseVersion(lines) == Some(VersionOf(lines[k]))
    ensures ParseVersion(lines[..k + 1]) == ParseVersion(lines)
    decreases k
  {
    if k > 0 {
      assert lines[..k + 1][1..] == lines[1..][..k];
      ParseVersionFirstMatch(lines[1..], k - 1);
    }
  }

  /** Three words separated by single spaces and ended by a newline split back into the three words. */
  lemma SplitThreeWords(x: string, y: string, z: string)
    requires IsWord(x) && IsWord(y) && IsWord(z)
    ensures Split(x + " " + y + " " + z + "\n") == [x, y, z]
  {
    var words := [x, y, z];
    assert Join(words[2..]) == z;
    assert Join(words[1..]) == y + " " + z;
    assert x + " " + y + " " + z + "\n" == Join(words) + "\n";
    assert AllSpace("\n");
    SplitJoin(words, "\n");
  }

  lemma DirectiveWords()
    ensures IsWord("#define") && IsWord("BOOST_LIB_VERSION")
  {
  }

  /** A line that starts with `#define BOOST_LIB_VERSION ` is a version line. */
  lemma DirectiveIsVersionLine(rest: string)
    ensures IsVersionLine("#define BOOST_LIB_VERSION " + rest)
  {
    var line := "#define BOOST_LIB_VERSION " + rest;
    assert line[..7] == "#define";
    assert line == "#define " + "BOOST_LIB_VERSION" + (" " + rest);
    ContainsMiddle("#define ", "BOOST_LIB_VERSION", " " + rest);
  }

  /** The line `#define BOOST_LIB_VERSION <value>` sets the version to `value` without its quotes, `_` read as `.`. */
  lemma VersionOfDirective(value: string)
    requires IsWord(value)
    ensures IsVersionLine("#define BOOST_LIB_VERSION " + value + "\n")
    ensures VersionOf("#define BOOST_LIB_VERSION " + value + "\n") == Replace(Inner(value), '_', '.')
  {
    var line := "#define BOOST_LIB_VERSION " + value + "\n";
    assert line == "#define BOOST_LIB_VERSION " + (value + "\n");
    DirectiveIsVersionLine(value + "\n");
    DirectiveWords();
    assert line == "#define" + " " + "BOOST_LIB_VERSION" + " " + value + "\n";
    SplitThreeWords("#define", "BOOST_LIB_VERSION", value);
  }

  // ---------------------------------------------------------------- the header tree

  /** `detect_src_modules`: the names of the entries of the header root that are directories. */
  function DirNames(entries: seq<DirEntry>): set<string> {
    if entries == [] then {}
    else
      var last := entries[|entries| - 1];
      DirNames(entries[..|entries| - 1]) + (if last.isDir then {last.name} else {})
  }

  lemma {:induction false} DirNamesMembers(entries: seq<DirEntry>, m: string)
    ensures m in DirNames(entries) <==> exists j :: 0 <= j < |entries| && entries[j].isDir && entries[j].name == m
    decreases |entries|
  {
    if entries != [] {
      var init := entries[..|entries| - 1];
      DirNamesMembers(init, m);
      if m in DirNames(init) {
        var j :| 0 <= j < |init| && init[j].isDir && init[j].name == m;
        assert entries[j] == init[j];
      }
      if exists j :: 0 <= j < |entries| && entries[j].isDir && entries[j].name == m {
        var j :| 0 <= j < |entries| && entries[j].isDir && entries[j].name == m;
        if j < |init| {
          assert init[j] == entries[j];
        }
      }
    }
  }

  // ---------------------------------------------------------------- the library directory

  /** A file name that `glob('libboost_*.so')` selects. */
  predicate MatchesLibGlob(name: string) {
    |name| >= 12 && StartsWith(name, "libboost_") && EndsWith(name, ".so")
  }

  /** A file the library scan turns into a module: it matches the glob and is not a `-mt.so` variant. */
  predicate IsModuleLibrary(name: string) {
    MatchesLibGlob(name) && !EndsWith(name, "-mt.so")
  }

  /** `lib.split('.')[0].split('_', 1)[-1]`. */
  function LibModuleName(name: string): string {
    AfterFirst(BeforeFirst(name, '.'), '_')
  }

  lemma FirstIndexIs(s: string, c: char, i: nat)
    requires i <= |s|
    requires forall j :: 0 <= j < i ==> s[j] != c
    requires i < |s| ==> s[i] == c
    ensures FirstIndex(s, c) == i
  {
  }

  /** For a file the glob selects, the module is what lies between `libboost_` and the first `.`. */
  lemma LibModuleNameStripsAffixes(name: string)
    requires MatchesLibGlob(name)
    ensures LibModuleName(name) == BeforeFirst(name[9..], '.')
  {
    assert name[..9] == "libboost_";
    var i := FirstIndex(name, '.');
    assert forall j :: 0 <= j < 9 ==> name[j] == "libboost_"[j];
    var head := name[..i];
    assert head[..9] == "libboost_";
    FirstIndexIs(head, '_', 8);
    assert AfterFirst(head, '_') == name[9..i];
    var tail := name[9..];
    forall j | 0 <= j < i - 9
      ensures tail[j] != '.'
    {
      assert tail[j] == name[9 + j];
    }
    FirstIndexIs(tail, '.', i - 9);
  }

  /** A library file `libboost_<m>.so`, for a module name `m` without `.` or `-`, is kept and names module `m`. */
  lemma LibraryFileModule(m: string)
    requires '.' !in m && '-' !in m
    ensures IsModuleLibrary("libboost_" + m + ".so")
    ensures LibModuleName("libboost_" + m + ".so") == m
  {
    var name := "libboost_" + m + ".so";
    assert name[..9] == "libboost_";
    assert name[|name| - 3..] == ".so";
    if |m| >= 3 {
      assert name[|name| - 6] == m[|m| - 3];
    } else {
      assert name[|name| - 6] == "libboost_"[6 + |m|];
    }
    assert name[|name| - 6..][0] == name[|name| - 6];
    LibModuleNameStripsAffixes(name);
    assert name[9..] == m + ".so";
    FirstIndexIs(m + ".so", '.', |m|);
    assert (m + ".so")[..|m|] == m;
  }

  /** The `-mt.so` variant of a library file is selected by the glob and then skipped. */
  lemma MtVariantSkipped(m: string)
    ensures MatchesLibGlob("libboost_" + m + "-mt.so")
    ensures !IsModuleLibrary("libboost_" + m + "-mt.so")
  {
    var name := "libboost_" + m + "-mt.so";
    assert name[..9] == "libboost_";
    assert name[|name| - 3..] == ".so";
    assert name[|name| - 6..] == "-mt.so";
  }

  /** `detect_lib_modules`: the module names of the library files, skipping the `-mt.so` variants. */
  function LibModules(names: seq<string>): set<string> {
    if names == [] then {}
    else
      var last := names[|names| - 1];
      LibModules(names[..|names| - 1]) + (if IsModuleLibrary(last) then {LibModuleName(last)} else {})
  }

  lemma {:induction false} LibModulesMembers(names: seq<string>, m: string)
    ensures m in LibModules(names) <==>
      exists j :: 0 <= j < |names| && IsModuleLibrary(names[j]) && LibModuleName(names[j]) == m
    decreases |names|
  {
    if names != [] {
      var init := names[..|names| - 1];
      LibModulesMembers(init, m);
      if m in LibModules(init) {
        var j :| 0 <= j < |init| && IsModuleLibrary(init[j]) && LibModuleName(init[j]) == m;
        assert names[j] == init[j];
      }
      if exists j :: 0 <= j < |names| && IsModuleLibrary(names[j]) && LibModuleName(names[j]) == m {
        var j :| 0 <= j < |names| && IsModuleLibrary(names[j]) && LibModuleName(names[j]) == m;
        if j < |init| {
          assert init[j] == names[j];
        }
      }
    }
  }

  // ---------------------------------------------------------------- link flags

  /** `get_link_flags`: `-lboost_<m>` for each requested module `m` that has a library, in request order. */
  function LinkFlags(requested: seq<string>, lib: set<string>): (r: seq<string>)
    ensures |r| <= |requested|
  {
    if requested == [] then []
    else
      var last := requested[|requested| - 1];
      LinkFlags(requested[..|requested| - 1], lib) + (if last in lib then ["-lboost_" + last] else [])
  }

  /** A flag is produced exactly for a requested module with a library; header-only modules give none. */
  lemma {:induction false} LinkFlagsMembers(requested: seq<string>, lib: set<string>, f: string)
    ensures f in LinkFlags(requested, lib) <==>
      exists j :: 0 <= j < |requested| && requested[j] in lib && f == "-lboost_" + requested[j]
    decreases |requested|
  {
    if requested != [] {
      var init := requested[..|requested| - 1];
      LinkFlagsMembers(init, lib, f);
      if f in LinkFlags(init, lib) {
        var j :| 0 <= j < |init| && init[j] in lib && f == "-lboost_" + init[j];
        assert requested[j] == init[j];
      }
      if exists j :: 0 <= j < |requested| && requested[j] in lib && f == "-lboost_" + requested[j] {
        var j :| 0 <= j < |requested| && requested[j] in lib && f == "-lboost_" + requested[j];
        if j < |init| {
          assert init[j] == requested[j];
        }
      }
    }
  }

  /** The flags keep the request order: those of a concatenated request are the concatenated flags. */
  lemma {:induction false} LinkFlagsAppend(a: seq<string>, b: seq<string>, lib: set<string>)
    ensures LinkFlags(a + b, lib) == LinkFlags(a, lib) + LinkFlags(b, lib)
    decreases |b|
  {
    if b != [] {
      var init := b[..|b| - 1];
      assert (a + b)[..|a + b| - 1] == a + init;
      LinkFlagsAppend(a, init, lib);
    } else {
      assert a + b == a;
    }
  }

  /** When every requested module has a library, there is one flag per module, in order. */
  lemma {:induction false} LinkFlagsAllLinked(requested: seq<string>, lib: set<string>)
    requires forall i :: 0 <= i < |requested| ==> requested[i] in lib
    ensures var r := LinkFlags(requested, lib);
      |r| == |requested| && forall i :: 0 <= i < |r| ==> r[i] == "-lboost_" + requested[i]
    decreases |requested|
  {
    if requested != [] {
      LinkFlagsAllLinked(requested[..|requested| - 1], lib);
    }
  }

  /** With no library modules there are no link flags. */
  lemma {:induction false} LinkFlagsNoLibraries(requested: seq<string>)
    ensures LinkFlags(requested, {}) == []
    decreases |requested|
  {
    if requested != [] {
      LinkFlagsNoLibraries(requested[..|requested| - 1]);
    }
  }

  /**
   * For a module such as `thread`: `libboost_thread-mt.so` gives no module, `libboost_thread.so`
   * gives `thread`, and requesting `thread` then gives the one flag `-lboost_thread`.
   */
  lemma ModuleLinkFlag(m: string)
    requires '.' !in m && '-' !in m
    ensures LibModules(["libboost_" + m + "-mt.so"]) == {}
    ensures LibModules(["libboost_" + m + ".so"]) == {m}
    ensures LinkFlags([m], LibModules(["libboost_" + m + ".so"])) == ["-lboost_" + m]
  {
    MtVariantSkipped(m);
    LibraryFileModule(m);
    assert ["libboost_" + m + "-mt.so"][..0] == [];
    assert ["libboost_" + m + ".so"][..0] == [];
    assert [m][..0] == [];
  }

  // ---------------------------------------------------------------- the whole detector

  function Found(b: BoostState): bool {
    b.version.Some?
  }

  function CompileFlags(b: BoostState): seq<string> {
    []
  }

  function BoostLinkFlags(b: BoostState): seq<string> {
    LinkFlags(b.requestedModules, b.libModules)
  }

  function Sources(b: BoostState): seq<string> {
    []
  }

  /** `BoostDependency(kwargs)` on the given machine. */
  function BoostSpec(kwargs: Kwargs, host: Host): (r: Result<BoostState>)
    ensures host.boostVersionHeader.None? ==> r == Fail(VersionHeaderMissing)
    ensures r.Ok? ==> GetRequested(kwargs) == Ok(r.value.requestedModules)
    ensures r.Ok? && Found(r.value) ==>
      forall i :: 0 <= i < |r.value.requestedModules| ==> r.value.requestedModules[i] in r.value.srcModules
    ensures r.Ok? && !Found(r.value) ==> BoostLinkFlags(r.value) == []
  {
    if host.boostVersionHeader.None? then Fail(VersionHeaderMissing)
    else
      var version := ParseVersion(host.boostVersionHeader.value);
      var requested := GetRequested(kwargs);
      if requested.Fail? then Fail(requested.error)
      else if version.None? then
        LinkFlagsNoLibraries(requested.value);
        Ok(BoostState(None, {}, {}, requested.value))
      else
        var src := DirNames(host.boostIncludeEntries);
        var invalid := ValidateRequested(requested.value, src);
        if invalid.Some? then Fail(invalid.value)
        else Ok(BoostState(version, src, LibModules(host.libEntries), requested.value))
  }

  /** A requested module without a header directory is an InvalidArguments error once a version is found, whatever `required` says. */
  lemma UnknownModuleIsFatal(kwargs: Kwargs, host: Host, k: nat, v: Value)
    requires host.boostVersionHeader.Some? && ParseVersion(host.boostVersionHeader.value).Some?
    requires GetRequested(kwargs).Ok? && k < |GetRequested(kwargs).value|
    requires GetRequested(kwargs).value[k] !in DirNames(host.boostIncludeEntries)
    ensures BoostSpec(kwargs, host).Fail? && ClassOf(BoostSpec(kwargs, host).error) == InvalidArguments
    ensures BoostSpec(kwargs["required" := v], host) == BoostSpec(kwargs, host)
  {
    assert GetRequested(kwargs["required" := v]) == GetRequested(kwargs);
  }

  /** Without a version line the detector is not found, without error, and the modules are not checked. */
  lemma NoVersionLineNotFound(kwargs: Kwargs, host: Host)
    requires host.boostVersionHeader.Some?
    requires forall i :: 0 <= i < |host.boostVersionHeader.value| ==> !IsVersionLine(host.boostVersionHeader.value[i])
    requires GetRequested(kwargs).Ok?
    ensures BoostSpec(kwargs, host) == Ok(BoostState(None, {}, {}, GetRequested(kwargs).value))
  {
  }

  /**
   * What a constructed detector holds: the version of the header's first version line, found
   * exactly when there is one, and then the header modules and library modules of the machine.
   */
  lemma BoostFoundExactly(kwargs: Kwargs, host: Host)
    requires BoostSpec(kwargs, host).Ok?
    ensures host.boostVersionHeader.Some?
    ensures var b := BoostSpec(kwargs, host).value;
      var header := host.boostVersionHeader.value;
      && b.version == ParseVersion(header)
      && (Found(b) <==> exists i :: 0 <= i < |header| && IsVersionLine(header[i]))
      && (Found(b) ==> b.srcModules == DirNames(host.boostIncludeEntries) && b.libModules == LibModules(host.libEntries))
  {
  }

  /** A version line and only requested modules that have header directories: the detector is constructed and found. */
  lemma BoostValidSucceeds(kwargs: Kwargs, host: Host)
    requires host.boostVersionHeader.Some? && ParseVersion(host.boostVersionHeader.value).Some?
    requires GetRequested(kwargs).Ok?
    requires forall i :: 0 <= i < |GetRequested(kwargs).value| ==> GetRequested(kwargs).value[i] in DirNames(host.boostIncludeEntries)
    ensures BoostSpec(kwargs, host) ==
      Ok(BoostState(ParseVersion(host.boostVersionHeader.value), DirNames(host.boostIncludeEntries),
                    LibModules(host.libEntries), GetRequested(kwargs).value))
    ensures Found(BoostSpec(kwargs, host).value)
  {
  }

  /** A bare module string and the one-element list behave the same for the whole detector. */
  lemma BareStringDetectsLikeList(kwargs: Kwargs, host: Host, x: string)
    ensures BoostSpec(kwargs["modules" := Str(x)], host) == BoostSpec(kwargs["modules" := List([Str(x)])], host)
  {
    BareStringIsSingletonList(kwargs, x);
  }

  /** The Boost detector, filled in step by step during construction. */
  class BoostDependency {
    const incdir: string
    const libdir: string
    var srcModules: set<string>
    var libModules: set<string>
    var version: Option<string>
    var requestedModules: seq<string>

    function State(): BoostState
      reads this
    {
      BoostState(version, srcModules, libModules, requestedModules)
    }

    constructor ()
      ensures incdir == IncDir && libdir == LibDir
      ensures State() == BoostState(None, {}, {}, [])
    {
      incdir := IncDir;
      libdir := LibDir;
      srcModules := {};
      libModules := {};
      version := None;
      requestedModules := [];
    }

    /** `detect_version`: reads the header line by line and stops at the first directive. */
    method DetectVersion(header: Option<seq<string>>) returns (err: Option<Error>)
      modifies this`version
      ensures header.None? ==> err == Some(VersionHeaderMissing) && version == old(version)
      ensures header.Some? ==> err.None? && version == ParseVersion(header.value)
    {
      if header.None? {
        return Some(VersionHeaderMissing);
      }
      var lines := header.value;
      var i := 0;
      while i < |lines|
        invariant 0 <= i <= |lines|
        invariant ParseVersion(lines[i..]) == ParseVersion(lines)
      {
        assert lines[i..][1..] == lines[i + 1..];
        if IsVersionLine(lines[i]) {
          version := Some(VersionOf(lines[i]));
          return None;
        }
        i := i + 1;
      }
      version := None;
      err := None;
    }

    /** `detect_src_modules`: records every directory entry of the header root. */
    method DetectSrcModules(entries: seq<DirEntry>)
      modifies this`srcModules
      ensures srcModules == old(srcModules) + DirNames(entries)
    {
      var i := 0;
      while i < |entries|
        invariant 0 <= i <= |entries|
        invariant srcModules == old(srcModules) + DirNames(entries[..i])
      {
        assert entries[..i + 1][..i] == entries[..i];
        if entries[i].isDir {
          srcModules := srcModules + {entries[i].name};
        }
        i := i + 1;
      }
      assert entries[..i] == entries;
    }

    /** `detect_lib_modules`: records the module of every selected library file. */
    method DetectLibModules(names: seq<string>)
      modifies this`libModules
      ensures libModules == old(libModules) + LibModules(names)
    {
      var i := 0;
      while i < |names|
        invariant 0 <= i <= |names|
        invariant libModules == old(libModules) + LibModules(names[..i])
      {
        assert names[..i + 1][..i] == names[..i];
        if MatchesLibGlob(names[i]) {
          if !EndsWith(names[i], "-mt.so") {
            libModules := libModules + {LibModuleName(names[i])};
          }
        }
        i := i + 1;
      }
      assert names[..i] == names;
    }

    /** `get_link_flags`: appends one flag per requested module that has a library. */
    method GetLinkFlags() returns (flags: seq<string>)
      ensures flags == LinkFlags(requestedModules, libModules)
    {
      flags := [];
      var i := 0;
      while i < |requestedModules|
        invariant 0 <= i <= |requestedModules|
        invariant flags == LinkFlags(requestedModules[..i], libModules)
      {
        assert requestedModules[..i + 1][..i] == requestedModules[..i];
        if requestedModules[i] in libModules {
          flags := flags + ["-lboost_" + requestedModules[i]];
        }
        i := i + 1;
      }
      assert requestedModules[..i] == requestedModules;
    }

    /** `BoostDependency(kwargs)`: a new object, or the error its construction raises. */
    static method New(kwargs: Kwargs, host: Host) returns (r: Result<BoostDependency>)
      ensures BoostSpec(kwargs, host).Fail? ==> r == Fail(BoostSpec(kwargs, host).error)
      ensures BoostSpec(kwargs, host).Ok? ==>
        r.Ok? && fresh(r.value) && r.value.State() == BoostSpec(kwargs, host).value
    {
      ghost var spec := BoostSpec(kwargs, host);
      var b := new BoostDependency();
      var err := b.DetectVersion(host.boostVersionHeader);
      if err.Some? {
        return Fail(err.value);
      }
      ghost var version := ParseVersion(host.boostVersionHeader.value);
      assert b.version == version;
      var requested := GetRequested(kwargs);
      if requested.Fail? {
        assert spec == Fail(requested.error);
        return Fail(requested.error);
      }
      b.requestedModules := requested.value;
      if b.version.Some? {
        b.DetectSrcModules(host.boostIncludeEntries);
        b.DetectLibModules(host.libEntries);
        assert b.srcModules == DirNames(host.boostIncludeEntries);
        assert b.libModules == LibModules(host.libEntries);
        var invalid := ValidateRequested(b.requestedModules, b.srcModules);
        if invalid.Some? {
          assert spec == Fail(invalid.value);
          return Fail(invalid.value);
        }
        assert spec == Ok(b.State());
      } else {
        assert spec == Ok(b.State());
      }
      r := Ok(b);
    }
  }
}
