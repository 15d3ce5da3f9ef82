# Dependency detection of an early meson

This project is a Dafny model of `dependencies.py`, the module that finds the external
dependencies a build description asks for, and of the properties its code promises.

The entry point `find_external_dependency(name, kwargs)` works in one of two ways:

- **Registered names** (`boost`, `gtest`, `gmock`, `qt5`) get a custom detector. That
  detector is wrapped in an adapter that forwards `found`, `get_compile_flags`,
  `get_link_flags` and `get_sources`. A detector that is `required` but not found raises.
- **Every other name** is probed through `pkg-config`. The probe asks `--modversion`,
  `--cflags` and `--libs`. Before that, it checks once per process that `pkg-config --version`
  runs. A class-level flag remembers that this check succeeded.

How the model is built:

- **Spec functions.** Each detector's construction is a pure function. `PkgConfig.Probe`,
  `Qt5.Qt5Spec` and `Registry.Resolve` each return a `Step`. A `Step` holds the result or the
  error raised, the process-wide pkg-config flag afterwards, and the pkg-config invocations
  issued in order. `Boost.BoostSpec` runs no pkg-config and returns a plain `Result`.
- **Classes and methods.** The detectors with control flow (pkg-config, Boost, Qt5) are
  classes whose methods follow the code's control flow. Each method's `ensures` ties its new
  state and result to the spec function. GTest, GMock, `ExternalProgram` and
  `ExternalLibrary` only hold fixed fields, so they are datatypes whose accessors are
  functions. The Qt5 methods follow the corrected behaviour listed under "## Findings": each module is
  probed with `required` false, and `moc` and `uic` are looked up on the search path.
  - `PkgConfig.Session` holds the class-level flag. It also holds a ghost log of the
    invocations issued.
  - `Boost.BoostDependency` fills its fields step by step.
  - `Qt5.Qt5Dependency` creates its module probes in a loop.
  - `Registry.FindExternalDependency` is the entry point on objects.
- **The machine as a value.** The machine is a value of type `Environment.Host`. It holds:
  - what each pkg-config invocation returns;
  - the lines of the Boost version header;
  - the entries of the Boost header root and of the library directory;
  - the paths that exist;
  - the executables on the search path.
- **Python built-ins.** The Python string operations the code relies on are modelled in
  `PyStr`: `split()`, `split` on a separator (`split('.')[0]`, `split('_', 1)[-1]`), `strip()`,
  `startswith`, `endswith`, `in`, `replace` and slicing.

Errors are values of `Outcome.Error`. `Outcome.ClassOf` maps each one to the Python exception
class that is raised.

## Model

| member | source | states |
|---|---|---|
| Options.Required | dependencies.py:157 | `kwargs.get('required', False)` taken as a condition |
| Outcome.ClassOf | dependencies.py:83-118 | the exception class each error raises |
| Environment.PathJoin | dependencies.py:245-246 | `os.path.join` of a fixed directory and a name |
| PyStr.Split | dependencies.py:95 | `str.split()`: the result holds only words, non-empty and free of whitespace |
| PyStr.SplitJoin | dependencies.py:95 | words joined by single spaces and followed by trailing whitespace split back into exactly those words |
| PyStr.Strip | dependencies.py:89 | `str.strip()`: the result neither starts nor ends with whitespace |
| PyStr.StripPadded | dependencies.py:89 | a trimmed text padded with whitespace on both sides strips back to itself |
| PyStr.StartsWith | dependencies.py:208 | `line.startswith("#define")`: the text begins with the prefix |
| PyStr.Contains | dependencies.py:208 | `'BOOST_LIB_VERSION' in line`: the piece occurs in the text |
| PyStr.EndsWith | dependencies.py:224 | `entry.endswith('-mt.so')`: the text ends with the suffix |
| PyStr.Inner | dependencies.py:210 | `ver[1:-1]`: the text without its first and last character |
| PyStr.BeforeFirst | dependencies.py:227 | `lib.split('.')[0]`: the text before the first `.` |
| PyStr.AfterFirst | dependencies.py:227 | `split('_', 1)[-1]`: the text after the first `_`, or all of it when there is none |
| PyStr.Replace | dependencies.py:211 | `str.replace` of one character: same length, every occurrence replaced, every other character kept |
| PyStr.ContainsMiddle | dependencies.py:208 | a text contains any piece placed inside it |
| PyStr.ContainsExactly | dependencies.py:208 | `t in s` holds exactly when `t` occurs in `s` at some position |
| PkgConfig.FlagQueries | dependencies.py:90-102 | `--libs` is asked only after `--cflags` succeeded; a result is a found package of that name |
| PkgConfig.PackageQueries | dependencies.py:77-102 | the package queries never include `pkg-config --version` |
| PkgConfig.NotFound | dependencies.py:84-86 | a probe that is not found: version `none`, no flags |
| PkgConfig.Probe | dependencies.py:72-102 | the flag ends set exactly when it was set or the check succeeds; the probe carries the name; found exactly when `--modversion` succeeds; not found means version `none` and no flags; a required probe that succeeds is found |
| PkgConfig.ProbeChecksOnce | dependencies.py:74-75 | a probe runs `pkg-config --version` exactly once while the flag is unset and never once it is set |
| PkgConfig.ProbeToolMissing | dependencies.py:113-118 | a failing `pkg-config --version` raises a RuntimeError and asks nothing about the package |
| PkgConfig.ProbeAbsent | dependencies.py:81-86 | a failed version query raises a DependencyException when required, with no further query; otherwise it gives not found, version `none` and no flags |
| PkgConfig.ProbePresent | dependencies.py:87-102 | three successful queries give found, the stripped version and the whitespace-split flags |
| PkgConfig.ProbeToolingFault | dependencies.py:93-101 | a failing `--cflags` or `--libs` after a successful version query is a RuntimeError naming that query, whatever `required` says |
| PkgConfig.ProbeReadsPrintedFlags | dependencies.py:87-102 | a version and flags printed as space-separated words with a newline are read back exactly |
| PkgConfig.ToolChecksAppend | dependencies.py:113-120 | the number of `--version` checks in a concatenated log is the sum of the two parts |
| PkgConfig.Session.constructor | dependencies.py:70 | a new process starts with the flag unset and no invocation issued |
| PkgConfig.Session.Run | dependencies.py:78-80 | an invocation returns what the machine answers and is appended to the log |
| PkgConfig.Session.CheckPkgconfig | dependencies.py:113-120 | fails exactly when `pkg-config --version` fails, leaving the flag as it was; otherwise it sets the flag |
| PkgConfig.PkgConfigDependency.constructor | dependencies.py:72-102 | the object holds exactly the detected state |
| PkgConfig.PkgConfigDependency.QueryFlags | dependencies.py:90-102 | issues exactly the queries of `FlagQueries` and returns its result: the error names the failed query, otherwise found with the split flags |
| PkgConfig.PkgConfigDependency.QueryPackage | dependencies.py:77-102 | issues exactly the package queries of `PackageQueries` and returns its result |
| PkgConfig.PkgConfigDependency.Detect | dependencies.py:72-102 | flag, log and result are those of `Probe` from the old flag |
| PkgConfig.PkgConfigDependency.New | dependencies.py:72-123 | a fresh object whose state is `Probe`'s result, or `Probe`'s error; flag and log as `Probe` says |
| PkgConfig.StatesAt | dependencies.py:288-290 | the `i`-th state of a list of probes is the state of the `i`-th probe |
| Boost.GetRequested | dependencies.py:182-192 | a missing keyword raises InvalidArguments; a bare string is one module; a list must hold only strings (otherwise InvalidArguments) and then gives its strings in order; a boolean or integer is not iterable (TypeError) |
| Boost.Strings | dependencies.py:189-192 | the strings of a list exactly when every item is a string, item by item |
| Boost.BareStringIsSingletonList | dependencies.py:187-188 | requesting `x` is the same as requesting `[x]` |
| Boost.ValidateRequested | dependencies.py:194-197 | no error exactly when every requested module has a header directory; the error is InvalidArguments |
| Boost.ValidateNamesFirstMissing | dependencies.py:195-197 | the error names the first requested module without a header directory |
| Boost.VersionOf | dependencies.py:209-211 | the version read from a matching line contains no `_` |
| Boost.ParseVersion | dependencies.py:205-213 | no version exactly when no line starts with `#define` and mentions `BOOST_LIB_VERSION` |
| Boost.ParseVersionFirstMatch | dependencies.py:207-212 | the first matching line decides the version and later lines are never read |
| Boost.VersionOfDirective | dependencies.py:208-211 | `#define BOOST_LIB_VERSION <value>` is a version line setting `value` without its quotes, `_` read as `.` |
| Boost.IsVersionLine | dependencies.py:208 | a line that starts with `#define` and mentions `BOOST_LIB_VERSION` |
| Boost.DirNames | dependencies.py:215-219 | the names of the entries of the header root that are directories |
| Boost.DirNamesMembers | dependencies.py:215-219 | a name is a header module exactly when some directory entry of the header root has it |
| Boost.MatchesLibGlob | dependencies.py:222-223 | a file name that the glob `libboost_*.so` selects |
| Boost.IsModuleLibrary | dependencies.py:223-225 | a selected file name that does not end with `-mt.so` |
| Boost.LibModuleName | dependencies.py:226-227 | the module name of a library file: before the first `.`, after the first `_` |
| Boost.LibModules | dependencies.py:221-227 | the module names of the selected, non-`-mt` library files |
| Boost.LibModuleNameStripsAffixes | dependencies.py:226-227 | for a file the glob selects, the module is what lies between `libboost_` and the first `.` |
| Boost.LibraryFileModule | dependencies.py:222-227 | `libboost_<m>.so` is kept and names module `m` |
| Boost.MtVariantSkipped | dependencies.py:224-225 | the `-mt.so` variant is selected by the glob and then skipped |
| Boost.LibModulesMembers | dependencies.py:221-227 | a name is a library module exactly when some selected, non-`-mt` file yields it |
| Boost.LinkFlags | dependencies.py:229-235 | at most one flag per requested module |
| Boost.LinkFlagsMembers | dependencies.py:229-235 | a flag is produced exactly for a requested module that has a library, as `-lboost_<m>` |
| Boost.LinkFlagsAppend | dependencies.py:231-234 | flags keep request order: the flags of a concatenated request are the concatenated flags |
| Boost.LinkFlagsAllLinked | dependencies.py:229-235 | when every requested module has a library there is one flag per module, in order |
| Boost.LinkFlagsNoLibraries | dependencies.py:229-235 | no library modules, no link flags |
| Boost.ModuleLinkFlag | dependencies.py:221-235 | `libboost_<m>.so` makes a request for `m` give exactly `-lboost_<m>`; the `-mt` variant gives nothing |
| Boost.Found | dependencies.py:199-200 | found exactly when a version was read |
| Boost.CompileFlags | dependencies.py:179-180 | Boost has no compile flags |
| Boost.BoostLinkFlags | dependencies.py:229-235 | `LinkFlags` of the requested and library modules |
| Boost.Sources | dependencies.py:237-238 | Boost has no sources |
| Boost.BoostSpec | dependencies.py:166-177 | an unreadable header raises OSError; a detector holds the parsed requested modules; a found detector has a header directory for every requested module; a detector that is not found has no link flags |
| Boost.BoostFoundExactly | dependencies.py:199-227 | a detector is found exactly when the header has a version line; its version is `ParseVersion` of the header; a found detector holds exactly the header directories and the library modules |
| Boost.BoostValidSucceeds | dependencies.py:166-177 | a header with a version line and a request for existing modules only gives a found detector with exactly those tables and the requested modules |
| Boost.UnknownModuleIsFatal | dependencies.py:174-177 | once a version is found, a requested module without a header directory raises InvalidArguments, whatever `required` says |
| Boost.NoVersionLineNotFound | dependencies.py:174-177 | without a version line the detector is not found, without error, and nothing is scanned |
| Boost.BareStringDetectsLikeList | dependencies.py:166-177 | the whole detector treats `x` and `[x]` alike |
| Boost.BoostDependency.constructor | dependencies.py:167-170 | the fixed directories and empty module tables |
| Boost.BoostDependency.DetectVersion | dependencies.py:205-213 | an unreadable header fails with no version set; otherwise the version is `ParseVersion` of its lines |
| Boost.BoostDependency.DetectSrcModules | dependencies.py:215-219 | adds exactly the directory names of the header root |
| Boost.BoostDependency.DetectLibModules | dependencies.py:221-227 | adds exactly the module names of the selected library files |
| Boost.BoostDependency.GetLinkFlags | dependencies.py:229-235 | returns `LinkFlags` of the requested and library modules |
| Boost.BoostDependency.New | dependencies.py:166-177 | a fresh object whose state is `BoostSpec`'s, or `BoostSpec`'s error |
| Detectors.ProgramFound | dependencies.py:130-131 | a program is found exactly when it has a full path |
| Detectors.ProgramCommand | dependencies.py:130-134 | the command is present exactly when the program is found, and is its full path |
| Detectors.Locate | dependencies.py:293-294 | the corrected lookup of the Findings row for lines 293-294: a program located on the search path is found exactly when the search path knows it, with that full path |
| Detectors.LibraryFound | dependencies.py:145-146 | a library is found exactly when it has a full path |
| Detectors.LibraryLinkFlags | dependencies.py:145-154 | the full path alone when found, nothing otherwise |
| Detectors.LibraryCompileFlags | dependencies.py:36-37 | the compile flags `ExternalLibrary` inherits from `Dependency`: none |
| Detectors.LibrarySources | dependencies.py:45-48 | the sources `ExternalLibrary` inherits from `Dependency`: none |
| Detectors.LibraryFlagsIffFound | dependencies.py:151-154 | a library has link flags exactly when it is found, and then one |
| Detectors.NewGTest | dependencies.py:241-246 | the fixed GTest directories; the sources are the two files of the source directory |
| Detectors.GTestCompileFlags | dependencies.py:250-255 | the source include flag last, preceded by the include flag exactly when the include directory is not `/usr/include` |
| Detectors.GTestFound | dependencies.py:248-249 | found exactly when `gtest-all.cc` exists |
| Detectors.GTestLinkFlags | dependencies.py:257-258 | always `-lpthread` |
| Detectors.GTestSources | dependencies.py:261-262 | the two GTest source files |
| Detectors.GTestConstructed | dependencies.py:241-262 | a new GTest detector has the one compile flag `-I/usr/src/gtest` and the two sources |
| Detectors.GTestFlagsWithoutDetection | dependencies.py:248-262 | GTest reports `-lpthread` and its sources even when it is not found |
| Detectors.NewGMock | dependencies.py:265-267 | GMock looks for `/usr/lib/libgmock.so` |
| Detectors.GMockFound | dependencies.py:281-283 | found exactly when `/usr/lib/libgmock.so` exists |
| Detectors.GMockCompileFlags | dependencies.py:272-273 | GMock has no compile flags |
| Detectors.GMockSources | dependencies.py:275-276 | GMock has no sources |
| Detectors.GMockLinkFlags | dependencies.py:278-279 | always `-lgmock` |
| Detectors.GMockFlagsWithoutDetection | dependencies.py:278-283 | GMock reports `-lgmock` even when the library is missing |
| Qt5.ModuleItems | dependencies.py:289 | iterating `modules` fails exactly for a boolean or an integer, with a TypeError |
| Qt5.ItemProbe | dependencies.py:290 | one round, corrected: a non-string item raises a TypeError; a string is probed as `Qt5` + item, not required |
| Qt5.ProbeModules | dependencies.py:289-290 | a successful probing loop gives one probe per item; no items means no probe and no query |
| Qt5.ProbeModulesSnoc | dependencies.py:289-290 | one more round after successful rounds adds that round's probe and queries |
| Qt5.ProbeModulesStops | dependencies.py:289-290 | once a round raises, later items change nothing |
| Qt5.ProbeModulesProbes | dependencies.py:289-290 | after a successful loop, every item was a string, the `i`-th probe is `Qt5` + item `i`, and it is found exactly when pkg-config knows that package |
| Qt5.ProbeModulesChecksOnce | dependencies.py:289-290 | however many modules are probed, `pkg-config --version` runs at most once |
| Qt5.Complete | dependencies.py:291-294 | after the loop: no modules raises a DependencyException; otherwise `moc` and `uic` are located on the search path |
| Qt5.Qt5Spec | dependencies.py:286-294 | no modules raises a DependencyException with no query; a detector has one probe per module and at least one; `moc` and `uic` are located on the search path |
| Qt5.Qt5SpecChecksOnce | dependencies.py:286-294 | construction runs `pkg-config --version` at most once |
| Qt5.StringModulesAreCharacters | dependencies.py:289 | a string given as `modules` is iterated one character at a time |
| Qt5.Qt5Found | dependencies.py:313-321 | found exactly when both tools and every module probe are found |
| Qt5.Qt5FoundExactly | dependencies.py:313-321 | found exactly when `moc` and `uic` are on the search path and pkg-config knows every `Qt5` module |
| Qt5.CompileFlags | dependencies.py:299-303 | the modules' compile flags, concatenated in module order |
| Qt5.LinkFlags | dependencies.py:308-311 | corrected: the modules' link flags, concatenated in module order, returned |
| Qt5.Sources | dependencies.py:305-306 | Qt5 has no sources |
| Qt5.Version | dependencies.py:296-297 | corrected: the version of the first module |
| Qt5.Flatten | dependencies.py:300-303 | the `flags += ...` loops: the modules' lists concatenated in order |
| Qt5.FlattenAppend | dependencies.py:300-303 | concatenating the lists of two module runs is concatenating their flags |
| Qt5.FlattenMember | dependencies.py:300-303 | a flag is in the concatenation exactly when it is in one module's list |
| Qt5.CompileFlagsMember | dependencies.py:299-303 | a compile flag is reported exactly when some module has it |
| Qt5.LinkFlagsMember | dependencies.py:308-311 | a link flag is in the built list exactly when some module has it |
| Qt5.FlagsOfAddedModule | dependencies.py:299-311 | one more module appends that module's compile and link flags |
| Qt5.Qt5InitAsWritten | dependencies.py:286-292 | construction as written always raises, a TypeError or a DependencyException |
| Qt5.Qt5InitAsWrittenRaises | dependencies.py:290 | with one string module, the code as written raises a TypeError where the corrected construction succeeds |
| Qt5.Qt5FoundAsWritten | dependencies.py:313-321 | `found()` as written, with `moc` and `uic` built without a full path at lines 293-294 |
| Qt5.Qt5LinkFlagsAsWritten | dependencies.py:308-311 | `get_link_flags` as written: the built list is dropped and None is returned |
| Qt5.Qt5VersionAsWritten | dependencies.py:296-297 | `get_version` as written: an AttributeError |
| Qt5.Qt5NeverFoundAsWritten | dependencies.py:293-294 | as written the detector is never found, even when every module is; with the tools located it is found |
| Qt5.Qt5LinkFlagsAsWrittenDropped | dependencies.py:308-311 | as written no link flag reaches the caller, though the built list holds every module's flags |
| Qt5.Qt5VersionAsWrittenRaises | dependencies.py:296-297 | as written `get_version` raises an AttributeError; corrected, it is the first module's version |
| Qt5.Qt5Dependency.constructor | dependencies.py:287-294 | the object holds the given probes and tools, rooted at `/usr` |
| Qt5.Qt5Dependency.ProbeItem | dependencies.py:290 | one round: flag, log and probe as `ItemProbe` says |
| Qt5.Qt5Dependency.ProbeNext | dependencies.py:289-290 | one round after successful rounds extends the loop's spec by that round's probe, or ends it with that round's error |
| Qt5.Qt5Dependency.ProbeAll | dependencies.py:288-290 | the loop issues exactly the queries of `ProbeModules` and gives its probes or its error |
| Qt5.Qt5Dependency.New | dependencies.py:286-294 | a fresh object whose state is `Qt5Spec`'s, or `Qt5Spec`'s error; flag and log as `Qt5Spec` says |
| Qt5.Qt5Dependency.Found | dependencies.py:313-321 | the early-returning checks compute `Qt5Found` of the object's state |
| Qt5.Qt5Dependency.GetCompileFlags | dependencies.py:299-303 | returns every module's compile flags, concatenated in module order |
| Qt5.Qt5Dependency.GetLinkFlags | dependencies.py:308-311 | returns every module's link flags, concatenated in module order |
| Qt5.Qt5Dependency.GetVersion | dependencies.py:296-297 | returns the first module's version |
| Registry.PackagesTable | dependencies.py:325-329 | exactly four registered names, each with its own detector class |
| Registry.KindOf | dependencies.py:158-159 | the detector class of a constructed detector |
| Registry.Found | dependencies.py:61-62 | the adapter forwards `found`; a probe reports `is_found` |
| Registry.CompileFlags | dependencies.py:58-59 | the adapter forwards `get_compile_flags`; a probe reports its cflags |
| Registry.LinkFlags | dependencies.py:55-56 | the adapter forwards `get_link_flags`; a probe reports its libs |
| Registry.Sources | dependencies.py:64-65 | the adapter forwards `get_sources`; a probe has none |
| Registry.CustomFound | dependencies.py:160 | `found()` of each custom detector |
| Registry.CustomCompileFlags | dependencies.py:55-65 | `get_compile_flags` of each custom detector (Boost 179-180, GTest 250-255, GMock 272-273, Qt5 299-303) |
| Registry.CustomLinkFlags | dependencies.py:55-65 | `get_link_flags` of each custom detector (Boost 229-235, GTest 257-258, GMock 278-279, Qt5 308-311 corrected) |
| Registry.CustomSources | dependencies.py:55-65 | `get_sources` of each custom detector (Boost 237-238, GTest 261-262, GMock 275-276, Qt5 305-306) |
| Registry.Construct | dependencies.py:159 | a constructed detector has the registered kind; only the (corrected) Qt5 detector runs pkg-config; Boost fails exactly when `BoostSpec` fails; GTest and GMock never fail |
| Registry.Resolve | dependencies.py:156-163 | a required dependency that is returned is found; the adapter is returned exactly for a registered name, of the registered kind; any other name is probed under that name |
| Registry.Wrap | dependencies.py:159-162 | returned exactly when constructed and (if required) found; a required detector that is not found raises DependencyException naming the package |
| Registry.UnregisteredIsProbed | dependencies.py:163 | an unregistered name is exactly the pkg-config probe of that name, `required` as given |
| Registry.RequiredDefaultsToFalse | dependencies.py:157 | leaving out `required` is the same as passing `False` |
| Registry.ConstructIgnoresRequired | dependencies.py:159 | the custom detectors do not read `required` |
| Registry.RequiredNotFoundRaises | dependencies.py:160-161 | a required registered detector that is not found raises a DependencyException naming it |
| Registry.OptionalIsWrapped | dependencies.py:162 | an optional registered detector is returned wrapped, found or not |
| Registry.BoostArgumentErrorIgnoresRequired | dependencies.py:172 | an unusable Boost `modules` option raises InvalidArguments (TypeError when not iterable), whatever `required` says |
| Registry.BoostBareStringLikeList | dependencies.py:156-162 | `boost` with `x` or `[x]` resolves alike |
| Registry.NotFoundNoFlags | dependencies.py:55-65 | a pkg-config probe or a Boost detector that is not found reports no flags and no sources |
| Registry.GTestNotFoundKeepsFlags | dependencies.py:248-262 | an optional GTest that is not found still reports `-lpthread` and two sources |
| Registry.AdapterForwards | dependencies.py:50-65 | the adapter forwards each accessor unchanged |
| Registry.ResolveChecksOnce | dependencies.py:156-163 | one call runs `pkg-config --version` at most once, and never once the flag is set |
| Registry.ResolveAll | dependencies.py:156-163 | a run that succeeds resolves every request |
| Registry.ResolveAllPrefix | dependencies.py:156-163 | a run that succeeds succeeded on each prefix, with the prefix of its results |
| Registry.ResolveAllLast | dependencies.py:156-163 | a run that succeeds is the run of all but its last request, extended by the last request resolved with the flag the others left |
| Registry.ResolveAllAt | dependencies.py:156-163 | in a run that succeeds, result `i` is request `i` resolved with the pkg-config flag the earlier requests left |
| Registry.ChecksOnceCompose | dependencies.py:70-75 | two steps that each check at most once check at most once together |
| Registry.ResolveAllChecksOnce | dependencies.py:70-75 | over a whole run `pkg-config --version` runs at most once, and never after the flag was set |
| Registry.NewCustom | dependencies.py:159 | a fresh detector object whose state is `Construct`'s, or `Construct`'s error |
| Registry.CustomObjectFound | dependencies.py:62 | `found()` of a detector object is `found` of its state |
| Registry.WrapPackage | dependencies.py:160-162 | the object-level adapter step agrees with `Wrap` |
| Registry.FindExternalDependency | dependencies.py:156-163 | a fresh object whose state is `Resolve`'s, or `Resolve`'s error; flag and log as `Resolve` says |
| Registry.DependencyFound | dependencies.py:61-62 | `found()` on a returned object is `Found` of its state |
| Registry.GetCompileFlags | dependencies.py:58-59 | `get_compile_flags()` on a returned object is `CompileFlags` of its state |
| Registry.GetLinkFlags | dependencies.py:55-56 | `get_link_flags()` on a returned object is `LinkFlags` of its state |

## Left out

- **Subprocesses, files, directory listings, `stat`, `glob` and `os.path.exists`.** These are
  not run. Their answers are fields of `Environment.Host`, fixed for the run.
- **A missing `pkg-config` executable.** `Popen` would raise OSError. The model treats this
  like an invocation with a nonzero exit code.
- **Byte decoding.** Invocation output and the Boost version header's lines are taken as
  already-decoded text. A UnicodeDecodeError from reading the header is not modelled.
- **The message printed at line 119.** It is output only.
- **Exception messages.** An error carries the name it mentions, not the formatted text.
- **The constructor of `DependencyException` at lines 28-30.** It calls its base class wrongly.
  The model raises the exception class without modelling that call. `coredata.MesonException`
  and `interpreter.InvalidArguments` are not part of this model.
- **`os.path.join`.** It is modelled as joining with `/`. All its directory arguments are fixed
  paths without a trailing separator.
- **The Boost glob.** The glob and the `-mt.so` test are applied to the file names of the
  library directory. This is equivalent because the directory is fixed.
- **Accessors that only return a field.** `get_version` of Boost, `get_modversion` and
  `get_name` are read from the state values. They are not separate members.
- **`get_version` of GTest and GMock (lines 259-260, 269-270).** Each returns a fixed
  placeholder string. The adapter never forwards a version, so nothing in the model reads it.
- Registry.Construct, Registry.Resolve, Registry.FindExternalDependency: a `qt5` request goes
  to the corrected Qt5 detector (`Qt5.Qt5Spec`). As written, every such request raises a
  TypeError at line 290 (`Qt5.Qt5InitAsWritten`). "Only Qt5 runs pkg-config" holds of the
  corrected detector.
- Boost.DirNames, Boost.BoostDependency.DetectSrcModules: an entry is recorded only by whether
  `stat` reports a directory. The OSError that `os.stat` at line 218 raises for a dangling
  entry is not modelled, nor is a failing `os.listdir` at line 216.
- **`PackageDependency` has no `get_version`.** The model keeps that: a returned adapter offers
  no version.
- **The base class `Dependency` (lines 32-48).** Its defaults appear only through the accessors
  that subclasses do not override: the empty sources of a pkg-config probe
  (`Registry.Sources`), and the empty compile flags and sources of `ExternalLibrary`
  (`Detectors.LibraryCompileFlags`, `Detectors.LibrarySources`).
- **A detector that is not found has no flags.** This is documented for every detector, but it
  holds only for pkg-config probes and for Boost. GTest, GMock and Qt5 report flags whether or
  not they are found. The model follows the code (`Registry.NotFoundNoFlags`,
  `Registry.GTestNotFoundKeepsFlags`).
- Qt5.Qt5Dependency.ProbeAll: states the probes' states and the queries issued. It does not
  state that the probe objects are freshly allocated.
- PkgConfig.PkgConfigDependency.New: the attributes are computed first and then assigned to the
  new object at once. The source sets them one by one during construction, and nothing reads
  them before construction ends.

## Findings

| source | as written | input that shows it | evidently intended | confidence | as-written member | corrected member |
|---|---|---|---|---|---|---|
| dependencies.py:290 | `PkgConfigDependency('Qt5' + module)` omits the `required` argument, so it raises a TypeError | `modules: ['Core']` | probe each module, not required | not executed | Qt5.Qt5InitAsWrittenRaises | Qt5.Qt5Spec |
| dependencies.py:293-294 | `ExternalProgram('moc')` and `ExternalProgram('uic')` are built without a full path, so they are never found | any constructed detector, every module found, `moc` and `uic` installed | locate both tools on the search path | not executed | Qt5.Qt5NeverFoundAsWritten | Qt5.Qt5FoundExactly |
| dependencies.py:308-311 | `get_link_flags` builds the list but never returns it, so the caller gets None | a module whose `--libs` prints `-lQt5Core` | return the concatenated link flags | not executed | Qt5.Qt5LinkFlagsAsWrittenDropped | Qt5.Qt5Dependency.GetLinkFlags |
| dependencies.py:296-297 | `get_version` calls `get_version` on a pkg-config probe, which has no such method, so it raises an AttributeError | any constructed detector | the first module's `get_modversion()` | not executed | Qt5.Qt5VersionAsWrittenRaises | Qt5.Qt5Dependency.GetVersion |
