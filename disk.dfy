/**
 * The directory tree the exporter writes into, as the few `fs` calls of json_yaml.js see it:
 * `mkdirSync(p, { recursive: true })`, `writeFileSync`, `existsSync` and
 * `rmSync(p, { recursive: true, force: true })`. Paths are relative to `path.join(__dirname, '..')`,
 * the parent of the folder holding the script. A file holds the value js-yaml dumped into it; `None` is the
 * empty document that `yaml.dump(undefined)` produces.
 */
module Disk {
  import opened Base
  import opened JsonValues

  datatype Fs = Fs(files: map<Path, Option<Json>>, dirs: set<Path>)

  /**
   * A tree the operating system could hold: the root is a directory, every prefix of a
   * directory is one, every file sits in a directory, and nothing is both.
   */
  ghost predicate Valid(fs: Fs) {
    && [] in fs.dirs
    && (forall d, k :: d in fs.dirs && 0 <= k <= |d| ==> d[..k] in fs.dirs)
    && (forall p :: p in fs.files ==> p != [] && p[..|p| - 1] in fs.dirs)
    && fs.files.Keys !! fs.dirs
  }

  /** The directories `mkdirSync(p, { recursive: true })` makes sure of: `p` and its prefixes. */
  function Prefixes(p: Path): set<Path> {
    set k | 0 <= k <= |p| :: p[..k]
  }

  /** `mkdirSync(p, { recursive: true })`: fails when a file stands on the way to `p` or at `p`. */
  function MkdirP(fs: Fs, p: Path): (r: Result<Fs>)
    ensures r.Err? <==> exists k :: 0 <= k <= |p| && p[..k] in fs.files
    ensures r.Ok? ==> r.value.files == fs.files && r.value.dirs == fs.dirs + Prefixes(p)
  {
    if exists k :: 0 <= k <= |p| && p[..k] in fs.files then Err(MkdirFailed(p))
    else Ok(fs.(dirs := fs.dirs + Prefixes(p)))
  }

  /** `writeFileSync(p, content)`: fails on a directory or when the parent directory is missing. */
  function WriteFile(fs: Fs, p: Path, content: Option<Json>): (r: Result<Fs>)
    ensures r.Err? <==> p in fs.dirs || p == [] || p[..|p| - 1] !in fs.dirs
    ensures r.Ok? ==> r.value.dirs == fs.dirs && r.value.files == fs.files[p := content]
  {
    if p in fs.dirs || p == [] || p[..|p| - 1] !in fs.dirs then Err(WriteFailed(p))
    else Ok(fs.(files := fs.files[p := content]))
  }

  /** `existsSync(p)`. */
  predicate Exists(fs: Fs, p: Path) {
    p in fs.files || p in fs.dirs
  }

  /** `rmSync(p, { recursive: true, force: true })`: `p` and everything below it disappear. */
  function RemoveTree(fs: Fs, p: Path): (r: Fs)
    ensures forall q :: q in r.files <==> q in fs.files && !Under(q, p)
    ensures forall q :: q in r.files ==> r.files[q] == fs.files[q]
    ensures forall q :: q in r.dirs <==> q in fs.dirs && !Under(q, p)
  {
    Fs(map q | q in fs.files && !Under(q, p) :: fs.files[q], set q | q in fs.dirs && !Under(q, p))
  }

  // ---- The operations keep a tree well formed ----

  lemma PrefixesClosed(p: Path)
    ensures forall d, k :: d in Prefixes(p) && 0 <= k <= |d| ==> d[..k] in Prefixes(p)
  {
    forall d, k | d in Prefixes(p) && 0 <= k <= |d| ensures d[..k] in Prefixes(p) {
      var j :| 0 <= j <= |p| && d == p[..j];
      assert d[..k] == p[..k];
    }
  }

  lemma MkdirPValid(fs: Fs, p: Path)
    requires Valid(fs) && MkdirP(fs, p).Ok?
    ensures Valid(MkdirP(fs, p).value)
  {
    PrefixesClosed(p);
    assert p[..0] == [];
  }

  lemma WriteFileValid(fs: Fs, p: Path, content: Option<Json>)
    requires Valid(fs) && WriteFile(fs, p, content).Ok?
    ensures Valid(WriteFile(fs, p, content).value)
  {
  }

  lemma RemoveTreeValid(fs: Fs, p: Path)
    requires Valid(fs) && p != []
    ensures Valid(RemoveTree(fs, p))
  {
    assert !Under([], p);
  }

  /**
   * The tree as the exporter mutates it. Each method changes the fields exactly as the
   * corresponding function says and signals a failure through its result.
   */
  class FileSystem {
    var files: map<Path, Option<Json>>
    var dirs: set<Path>

    function State(): Fs
      reads this
    {
      Fs(files, dirs)
    }

    constructor (initial: Fs)
      ensures State() == initial
    {
      files := initial.files;
      dirs := initial.dirs;
    }

    method Mkdir(p: Path) returns (err: Option<Error>)
      modifies this
      ensures MkdirP(old(State()), p).Ok? ==> err.None? && State() == MkdirP(old(State()), p).value
      ensures MkdirP(old(State()), p).Err? ==> err == Some(MkdirFailed(p)) && State() == old(State())
    {
      if exists k :: 0 <= k <= |p| && p[..k] in files {
        return Some(MkdirFailed(p));
      }
      dirs := dirs + Prefixes(p);
      return None;
    }

    method Write(p: Path, content: Option<Json>) returns (err: Option<Error>)
      modifies this
      ensures WriteFile(old(State()), p, content).Ok? ==> err.None? && State() == WriteFile(old(State()), p, content).value
      ensures WriteFile(old(State()), p, content).Err? ==> err == Some(WriteFailed(p)) && State() == old(State())
    {
      if p in dirs || p == [] || p[..|p| - 1] !in dirs {
        return Some(WriteFailed(p));
      }
      files := files[p := content];
      return None;
    }

    method Present(p: Path) returns (b: bool)
      ensures b == Exists(State(), p)
    {
      b := p in files || p in dirs;
    }

    method Remove(p: Path)
      modifies this
      ensures State() == RemoveTree(old(State()), p)
    {
      files := map q | q in files && !Under(q, p) :: files[q];
      dirs := set q | q in dirs && !Under(q, p);
    }
  }
}
