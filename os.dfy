/** The part of Python's `os` and `os.path` that the log-file resolver relies on,
    over an abstract filesystem: which directories exist, which files exist with
    what contents, and three oracles that stand for permissions the model does not
    spell out (which existing files may be written, which directories `makedirs`
    refuses, which directories refuse a new file). */
module Os {

  type Path = string

  /** A single path component: what `os.path.join(dir, name)` appends. A NUL
      character is excluded because the operating system refuses it in any path. */
  predicate PlainComponent(name: string)
  {
    name != "" && name != "." && name != ".." && '/' !in name && '\0' !in name
  }

  /** `os.path.join(dir, name)` for a plain component `name`: a separator is
      inserted unless `dir` is empty or already ends in one. */
  function Join(dir: Path, name: string): (p: Path)
    requires PlainComponent(name)
    ensures |p| == |dir| + |name| || (|p| == |dir| + |name| + 1 && p[|dir|] == '/')
    ensures p[..|dir|] == dir && p[|p| - |name|..] == name
    ensures |p| == |dir| + |name| <==> (dir == "" || dir[|dir| - 1] == '/')
    ensures p != "" && p != dir
  {
    if dir == "" || dir[|dir| - 1] == '/' then dir + name else dir + "/" + name
  }

  /** A snapshot of the filesystem. */
  datatype FsState = FsState(
    dirs: set<Path>,              // existing directories
    files: map<Path, string>,     // existing regular files and their contents
    appendable: set<Path>,        // existing files the process may open for writing ('a' or 'w')
    mkdirRefused: set<Path>,      // directories that `os.makedirs` refuses to create
    createRefused: set<Path>)     // directories in which a new file cannot be created
  {
    /** No path is both a directory and a file, and the empty path names nothing. */
    predicate Valid()
    {
      dirs !! files.Keys && "" !in dirs && "" !in files
    }

    /** `os.path.exists(p)`: true for directories as well as for files. */
    predicate Exists(p: Path)
    {
      p in dirs || p in files
    }

    /** Whether `open(p, 'a')` on an existing path succeeds: only a regular file
        can be opened, and only when permissions allow it. Opening an existing
        file for append and closing it at once changes nothing. */
    predicate OpenAppendSucceeds(p: Path)
      ensures OpenAppendSucceeds(p) ==> Exists(p)
      ensures Valid() && p in dirs ==> !OpenAppendSucceeds(p)
      ensures p !in appendable ==> !OpenAppendSucceeds(p)
    {
      p in files && p in appendable
    }
  }

  /** The result of one filesystem operation: the new state and whether it succeeded. */
  datatype Effect = Effect(fs: FsState, ok: bool)

  /** `t` is `s` with at most some directories and files added: nothing is
      removed, no existing file's contents change, and the permission oracles
      are the same. */
  predicate Grows(s: FsState, t: FsState)
  {
    && s.dirs <= t.dirs
    && (forall p :: p in s.files ==> p in t.files && t.files[p] == s.files[p])
    && t.appendable == s.appendable
    && t.mkdirRefused == s.mkdirRefused
    && t.createRefused == s.createRefused
  }

  /** `os.makedirs(d)`: fails (an OSError) when `d` is empty, already exists
      (as a directory or a file) or is refused; otherwise `d` is a directory
      afterwards. */
  function MakedirsOutcome(s: FsState, d: Path): (r: Effect)
    ensures r.ok <==> d != "" && !s.Exists(d) && d !in s.mkdirRefused
    ensures r.ok ==> d in r.fs.dirs
    ensures !r.ok ==> r.fs == s
    ensures s.Exists(d) || d in s.mkdirRefused ==> !r.ok
    ensures r.fs.files == s.files && r.fs.dirs <= s.dirs + {d}
    ensures Grows(s, r.fs)
    ensures s.Valid() ==> r.fs.Valid()
  {
    if d == "" || s.Exists(d) || d in s.mkdirRefused then Effect(s, false)
    else Effect(s.(dirs := s.dirs + {d}), true)
  }

  /** `open(os.path.join(dir, name), 'w')` followed by a close: fails (an
      OSError) when `dir` is not an existing directory or the target is a
      directory; an existing file must be one the process may write, and a new
      file needs a directory that accepts new files. Otherwise the target is an
      empty file afterwards, truncated if it existed. */
  function OpenWriteOutcome(s: FsState, dir: Path, name: string): (r: Effect)
    requires PlainComponent(name)
    ensures r.ok <==> && dir in s.dirs && Join(dir, name) !in s.dirs
                      && (Join(dir, name) in s.files ==> Join(dir, name) in s.appendable)
                      && (Join(dir, name) !in s.files ==> dir !in s.createRefused)
    ensures r.ok ==> Join(dir, name) in r.fs.files && r.fs.files[Join(dir, name)] == ""
    ensures !r.ok ==> r.fs == s
    ensures r.fs.dirs == s.dirs && r.fs.files.Keys <= s.files.Keys + {Join(dir, name)}
    ensures forall p :: p in s.files && p != Join(dir, name) ==> p in r.fs.files && r.fs.files[p] == s.files[p]
    ensures s.Valid() ==> r.fs.Valid()
  {
    var path := Join(dir, name);
    if && dir in s.dirs && path !in s.dirs
       && (path in s.files ==> path in s.appendable)
       && (path !in s.files ==> dir !in s.createRefused)
    then
      Effect(s.(files := s.files[path := ""]), true)
    else
      Effect(s, false)
  }

  /** The filesystem the process runs against, updated in place. */
  class FileSystem {
    var dirs: set<Path>
    var files: map<Path, string>
    var appendable: set<Path>
    var mkdirRefused: set<Path>
    var createRefused: set<Path>

    function State(): FsState
      reads this
    {
      FsState(dirs, files, appendable, mkdirRefused, createRefused)
    }

    constructor (s: FsState)
      ensures State() == s
    {
      dirs, files, appendable := s.dirs, s.files, s.appendable;
      mkdirRefused, createRefused := s.mkdirRefused, s.createRefused;
    }

    /** `os.makedirs(d)`, reporting success instead of raising. */
    method MakeDirs(d: Path) returns (ok: bool)
      modifies this
      ensures Effect(State(), ok) == MakedirsOutcome(old(State()), d)
    {
      if d == "" || d in dirs || d in files || d in mkdirRefused {
        return false;
      }
      dirs := dirs + {d};
      return true;
    }

    /** `open(os.path.join(dir, name), 'w')` and close, reporting success
        instead of raising. */
    method OpenWrite(dir: Path, name: string) returns (ok: bool)
      requires PlainComponent(name)
      modifies this
      ensures Effect(State(), ok) == OpenWriteOutcome(old(State()), dir, name)
    {
      var path := Join(dir, name);
      if || dir !in dirs || path in dirs
         || (path in files && path !in appendable)
         || (path !in files && dir in createRefused)
      {
        return false;
      }
      files := files[path := ""];
      return true;
    }
  }
}
