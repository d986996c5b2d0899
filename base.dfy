/** Shared vocabulary of the codec: optional values, results, error kinds and paths. */
module Base {

  /** A value that may be absent. For JavaScript values `None` stands for `undefined`. */
  datatype Option<+T> = None | Some(value: T)

  /** A path relative to `path.join(__dirname, '..')`, the parent of the scripts' folder, one name per segment. */
  type Path = seq<string>

  /** The ways an export or an import run can stop. Each one ends the JavaScript process. */
  datatype Error =
    | TypeError(what: string)       // a JavaScript TypeError (property read on null or undefined, a non-string path argument, ...)
    | UnexpectedResponse            // the backend answered without the expected payload
    | MkdirFailed(path: Path)       // mkdirSync: a file stands where a directory is needed
    | WriteFailed(path: Path)       // writeFileSync: the target is a directory, or its directory is missing
    | ReadFailed(path: Path)        // readdirSync / readFileSync on a missing entry or one of the wrong kind
    | ParseFailure(path: Path)      // js-yaml could not parse the file
    | ReferenceError(name: string)  // a JavaScript ReferenceError: `name` is not declared

  /** A computation that either yields a value or stops with an error. */
  datatype Result<+T> = Ok(value: T) | Err(error: Error) {
    predicate IsFailure() { Err? }

    function PropagateFailure<U>(): Result<U>
      requires Err?
    {
      Err(error)
    }

    function Extract(): T
      requires Ok?
    {
      value
    }
  }

  /** Appends a segment the way path.join does: an empty segment adds nothing. */
  function Join(dir: Path, segment: string): Path {
    if segment == "" then dir else dir + [segment]
  }

  /** `prefix` is a (not necessarily proper) prefix of `p`. */
  predicate Under(p: Path, prefix: Path) {
    |prefix| <= |p| && p[..|prefix|] == prefix
  }
}
