/** The keyword options a detector receives from the build description. */
module Options {

  /** The option values the build description can pass: strings, booleans, integers and lists. */
  datatype Value = Str(s: string) | Bool(b: bool) | Int(i: int) | List(items: seq<Value>)

  type Kwargs = map<string, Value>

  /** Python truthiness of an option value. */
  predicate Truthy(v: Value) {
    match v
    case Str(s) => s != ""
    case Bool(b) => b
    case Int(i) => i != 0
    case List(items) => items != []
  }

  /** `kwargs.get('required', False)`, used as a condition. */
  predicate Required(kwargs: Kwargs) {
    "required" in kwargs && Truthy(kwargs["required"])
  }
}

/** What the detectors observe of the machine: the results of the subprocesses and of the filesystem calls. */
module Environment {
  import opened Outcome

  /** The pkg-config invocations: `--version`, `--modversion NAME`, `--cflags NAME`, `--libs NAME`. */
  datatype Query = ToolVersion | ModVersion(name: string) | Cflags(name: string) | Libs(name: string)

  /** Exit status and decoded standard output of one invocation. */
  datatype ProbeResult = ProbeResult(exitCode: int, stdout: string)

  /** One name listed in a directory, with whether `stat` reports it as a directory. */
  datatype DirEntry = DirEntry(name: string, isDir: bool)

  /** The machine the detectors run on. Each subprocess and filesystem answer is fixed for the whole run. */
  datatype Host = Host(
    pkgConfig: Query -> ProbeResult,             // what each pkg-config invocation returns
    boostVersionHeader: Option<seq<string>>,     // the lines of /usr/include/boost/version.hpp; None when it cannot be opened
    boostIncludeEntries: seq<DirEntry>,          // the entries of /usr/include/boost
    libEntries: seq<string>,                     // the file names in /usr/lib
    existing: set<string>,                       // the paths that exist
    searchPath: map<string, string>)             // executables found on the search path, by name

  /** `os.path.join(dir, name)` for a directory without a trailing separator. */
  function PathJoin(dir: string, name: string): string {
    dir + "/" + name
  }
}
