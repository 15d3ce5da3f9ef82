/** Results and errors of dependency detection. */
module Outcome {

  datatype Option<T> = None | Some(value: T)

  /** The Python exception classes that the detectors raise. */
  datatype ExceptionClass =
    | DependencyException
    | InvalidArguments
    | RuntimeError
    | TypeError
    | OSError
    | AttributeError

  /** One constructor per place where detection fails, explicit `raise` or implicit Python error. */
  datatype Error =
    | PkgConfigMissing                          // `pkg-config --version` failed
    | RequiredDependencyNotFound(name: string)  // pkg-config probe of a required package failed
    | CflagsFailed(name: string)                // `pkg-config --cflags` failed after the version query succeeded
    | LibsFailed(name: string)                  // `pkg-config --libs` failed after the version query succeeded
    | DependencyNotFound(name: string)          // a registered detector was required but not found
    | ModulesKeywordMissing                     // Boost without a `modules` keyword
    | ModuleNotString                           // a Boost module argument that is not a string
    | BoostModuleNotFound(moduleName: string)     // a requested Boost module without a header directory
    | NoQt5Modules                              // Qt5 with an empty module list
    | NotIterable                               // iterating an option value that is neither a string nor a list
    | NotConcatenable                           // `'Qt5' + module` with a module that is not a string
    | VersionHeaderMissing                      // `open` of the Boost version header failed
    | MissingRequiredArgument                   // a constructor called without its `required` argument
    | NoGetVersion                              // a call of a method the object does not define

  function ClassOf(e: Error): ExceptionClass {
    match e
    case PkgConfigMissing => RuntimeError
    case RequiredDependencyNotFound(_) => DependencyException
    case CflagsFailed(_) => RuntimeError
    case LibsFailed(_) => RuntimeError
    case DependencyNotFound(_) => DependencyException
    case ModulesKeywordMissing => InvalidArguments
    case ModuleNotString => InvalidArguments
    case BoostModuleNotFound(_) => InvalidArguments
    case NoQt5Modules => DependencyException
    case NotIterable => TypeError
    case NotConcatenable => TypeError
    case VersionHeaderMissing => OSError
    case MissingRequiredArgument => TypeError
    case NoGetVersion => AttributeError
  }

  /** A value, or the error raised while computing it. */
  datatype Result<T> = Ok(value: T) | Fail(error: Error)
}
