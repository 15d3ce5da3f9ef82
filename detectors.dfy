/** The detectors without probing logic: external programs and libraries, GTest and GMock. */
module Detectors {
  import opened Outcome
  import opened Environment

  // ---------------------------------------------------------------- external programs and libraries

  /** An executable, with the full path it was found at, if any. */
  datatype ExternalProgram = ExternalProgram(name: string, fullpath: Option<string>)

  /** `ExternalProgram.found`: a program is found exactly when it has a full path. */
  function ProgramFound(p: ExternalProgram): bool
  {
    p.fullpath.Some?
  }

  /** `ExternalProgram.get_command`: the full path, which is present exactly when the program is found. */
  function ProgramCommand(p: ExternalProgram): (c: Option<string>)
    ensures c.Some? <==> ProgramFound(p)
    ensures c.Some? ==> c == p.fullpath
  {
    p.fullpath
  }

  /** The program `name` as the search path locates it: found exactly when the search path knows it. */
  function Locate(host: Host, name: string): (p: ExternalProgram)
    ensures p.name == name
    ensures ProgramFound(p) <==> name in host.searchPath
    ensures ProgramFound(p) ==> ProgramCommand(p) == Some(host.searchPath[name])
  {
    ExternalProgram(name, if name in host.searchPath then Some(host.searchPath[name]) else None)
  }

  /** A library given by its full path, if any. */
  datatype ExternalLibrary = ExternalLibrary(name: string, fullpath: Option<string>)

  function LibraryFound(l: ExternalLibrary): bool
  {
    l.fullpath.Some?
  }

  /** `ExternalLibrary.get_link_flags`: the full path alone when found, nothing otherwise. */
  function LibraryLinkFlags(l: ExternalLibrary): (r: seq<string>)
    ensures LibraryFound(l) ==> r == [l.fullpath.value]
    ensures !LibraryFound(l) ==> r == []
  {
    if LibraryFound(l) then [l.fullpath.value] else []
  }

  /** `get_compile_flags`, inherited from `Dependency`: a library adds no compile flags. */
  function LibraryCompileFlags(l: ExternalLibrary): seq<string> {
    []
  }

  /** `get_sources`, inherited from `Dependency`: a library adds no sources. */
  function LibrarySources(l: ExternalLibrary): seq<string> {
    []
  }

  /** A library has link flags exactly when it is found, and then exactly one. */
  lemma LibraryFlagsIffFound(l: ExternalLibrary)
    ensures |LibraryLinkFlags(l)| <= 1
    ensures LibraryLinkFlags(l) != [] <==> LibraryFound(l)
  {
  }

  // ---------------------------------------------------------------- GTest

  const GTestIncludeDir := "/usr/include"
  const GTestSrcIncludeDir := "/usr/src/gtest"
  const GTestSrcDir := "/usr/src/gtest/src"

  /** The paths a GTest detector holds; the sources are compiled into the test target. */
  datatype GTestDependency = GTestDependency(
    includeDir: string,
    srcIncludeDir: string,
    srcDir: string,
    allSrc: string,
    mainSrc: string)

  /** `GTestDependency(kwargs)`: the fixed paths; the keyword options are ignored. */
  function NewGTest(): (g: GTestDependency)
    ensures g.includeDir == GTestIncludeDir && g.srcIncludeDir == GTestSrcIncludeDir
    ensures g.allSrc == PathJoin(GTestSrcDir, "gtest-all.cc") && g.mainSrc == PathJoin(GTestSrcDir, "gtest_main.cc")
  {
    GTestDependency(GTestIncludeDir, GTestSrcIncludeDir, GTestSrcDir,
                    PathJoin(GTestSrcDir, "gtest-all.cc"), PathJoin(GTestSrcDir, "gtest_main.cc"))
  }

  /** GTest is found exactly when its all-in-one source file exists. */
  function GTestFound(g: GTestDependency, existing: set<string>): bool
  {
    g.allSrc in existing
  }

  /**
   * The source include directory always, preceded by the include directory when it is not
   * the system default.
   */
  function GTestCompileFlags(g: GTestDependency): (r: seq<string>)
    ensures 1 <= |r| <= 2 && r[|r| - 1] == "-I" + g.srcIncludeDir
    ensures |r| == 2 <==> g.includeDir != GTestIncludeDir
    ensures |r| == 2 ==> r[0] == "-I" + g.includeDir
  {
    (if g.includeDir != GTestIncludeDir then ["-I" + g.includeDir] else []) + ["-I" + g.srcIncludeDir]
  }

  function GTestLinkFlags(g: GTestDependency): seq<string> {
    ["-lpthread"]
  }

  function GTestSources(g: GTestDependency): seq<string> {
    [g.allSrc, g.mainSrc]
  }

  /**
   * A constructed GTest detector: the system include directory adds no flag, so the one
   * compile flag names the source include directory; the sources are the two files of the
   * source directory.
   */
  lemma GTestConstructed()
    ensures GTestCompileFlags(NewGTest()) == ["-I" + GTestSrcIncludeDir]
    ensures GTestSources(NewGTest()) == [GTestSrcDir + "/gtest-all.cc", GTestSrcDir + "/gtest_main.cc"]
  {
    assert PathJoin(GTestSrcDir, "gtest-all.cc") == GTestSrcDir + "/gtest-all.cc";
    assert PathJoin(GTestSrcDir, "gtest_main.cc") == GTestSrcDir + "/gtest_main.cc";
  }

  /**
   * GTest reports link flags and sources even when it is not found: "not found" does not
   * imply "no flags" for this detector.
   */
  lemma GTestFlagsWithoutDetection(existing: set<string>)
    requires PathJoin(GTestSrcDir, "gtest-all.cc") !in existing
    ensures !GTestFound(NewGTest(), existing)
    ensures GTestLinkFlags(NewGTest()) == ["-lpthread"] && |GTestSources(NewGTest())| == 2
  {
  }

  // ---------------------------------------------------------------- GMock

  /** The library a GMock detector looks for. */
  datatype GMockDependency = GMockDependency(libdir: string, libname: string)

  /** `GMockDependency(kwargs)`: `libgmock.so` in `/usr/lib`; the keyword options are ignored. */
  function NewGMock(): (g: GMockDependency)
    ensures PathJoin(g.libdir, g.libname) == "/usr/lib" + "/" + "libgmock.so"
  {
    GMockDependency("/usr/lib", "libgmock.so")
  }

  /** GMock is found exactly when its shared library exists. */
  function GMockFound(g: GMockDependency, existing: set<string>): bool
  {
    PathJoin(g.libdir, g.libname) in existing
  }

  function GMockCompileFlags(g: GMockDependency): seq<string> {
    []
  }

  function GMockLinkFlags(g: GMockDependency): seq<string> {
    ["-lgmock"]
  }

  function GMockSources(g: GMockDependency): seq<string> {
    []
  }

  /** GMock, too, reports its link flag whether or not the library exists. */
  lemma GMockFlagsWithoutDetection(existing: set<string>)
    requires "/usr/lib/libgmock.so" !in existing
    ensures !GMockFound(NewGMock(), existing)
    ensures GMockLinkFlags(NewGMock()) == ["-lgmock"]
  {
    assert PathJoin("/usr/lib", "libgmock.so") == "/usr/lib/libgmock.so";
  }
}
