/** reboot_button/log_file.py: choosing where the log file lives, and the
    standard-stream logger the module itself reports through.

    The resolver works against an `Os.FileSystem`. Every record the module
    writes to its own logger is appended, with its level, to a `Journal`; the
    order in which candidate paths were tried is read off that journal. */
module LogFile {
  import opened Os
  import opened Logging

  /** The records log_file.py issues, one constructor per logging call. */
  datatype Event =
    | LogFileExists(path: Path)
    | LogFileWritable(path: Path)
    | LogFileNotWritable(path: Path)
    | LogFileMissing(path: Path)
    | DirectoryMissing(dir: Path, file: string)
    | DirectoryCreateFailed(dir: Path, file: string)
    | DirectoryCreated(dir: Path, file: string)
    | LogFileCreated(path: Path)
    | LogFileCreateFailed(path: Path)
    | InitializingFileLogger
    | SystemWideLogFileReady(path: Path)
    | UserLogFileReady(path: Path)
    | LogFileSetupFailed

  datatype Line = Line(level: int, event: Event)

  /** The output of the module's logger, as an append-only sequence of records. */
  class Journal {
    var lines: seq<Line>

    constructor ()
      ensures lines == []
    {
      lines := [];
    }

    /** One `logger.info` or `logger.error` call: the record is appended. */
    method Emit(level: int, e: Event)
      modifies this
      ensures lines == old(lines) + [Line(level, e)]
    {
      lines := lines + [Line(level, e)];
    }
  }

  /** Whether a record is the first one a call of `check_and_create_log_file`
      issues: the report of whether its path exists. */
  predicate Announces(l: Line)
  {
    l.event.LogFileExists? || l.event.LogFileMissing?
  }

  /** The log file paths whose check a journal records, in order. */
  function Attempts(log: seq<Line>): (r: seq<Path>)
  {
    if log == [] then []
    else (if Announces(log[0]) then [log[0].event.path] else []) + Attempts(log[1..])
  }

  lemma {:induction false} QuietAttempts(log: seq<Line>)
    requires forall i :: 0 <= i < |log| ==> !Announces(log[i])
    ensures Attempts(log) == []
  {
    if log != [] {
      QuietAttempts(log[1..]);
    }
  }

  lemma {:induction false} AttemptsAppend(a: seq<Line>, b: seq<Line>)
    ensures Attempts(a + b) == Attempts(a) + Attempts(b)
  {
    if a == [] {
      assert a + b == b;
    } else {
      assert (a + b)[0] == a[0];
      assert (a + b)[1..] == a[1..] + b;
      AttemptsAppend(a[1..], b);
    }
  }

  // ---------------------------------------------------------------------
  // Queries

  /** `is_log_path_exists(p)`: whether `p` exists, as a file or as a directory. */
  function IsLogPathExists(s: FsState, p: Path): (r: bool)
    ensures r <==> p in s.dirs || p in s.files
    ensures s.Valid() && p == "" ==> !r
  {
    s.Exists(p)
  }

  /** `is_log_file_writable(p)`: a missing path is not writable; an existing
      one is writable exactly when opening it for append succeeds. Being a
      function of the state, it cannot change any file. */
  function IsLogFileWritable(s: FsState, p: Path): (r: bool)
    ensures !s.Exists(p) ==> !r
    ensures s.Exists(p) ==> (r <==> s.OpenAppendSucceeds(p))
    ensures r ==> p in s.files && p in s.appendable
    ensures s.Valid() && p in s.dirs ==> !r
  {
    if !IsLogPathExists(s, p) then false
    else s.OpenAppendSucceeds(p)
  }

  // ---------------------------------------------------------------------
  // Specification of the resolver

  /** One call of `check_and_create_log_file`: the filesystem afterwards, the
      result, and the records it issued. */
  datatype Attempt = Attempt(fs: FsState, ok: bool, log: seq<Line>)

  /** `check_and_create_log_file(dir, name)`. */
  function CheckAndCreateOutcome(s: FsState, dir: Path, name: string): (r: Attempt)
    requires PlainComponent(name)
    ensures r.ok ==> Join(dir, name) in r.fs.files
    ensures !r.ok ==> r.fs.files == s.files
    ensures r.fs.files.Keys <= s.files.Keys + {Join(dir, name)}
    ensures Grows(s, r.fs)
    ensures s.Valid() ==> r.fs.Valid()
    ensures |r.log| >= 2
    ensures r.log[0] == Line(INFO, if s.Exists(Join(dir, name)) then LogFileExists(Join(dir, name))
                                   else LogFileMissing(Join(dir, name)))
    ensures forall i :: 1 <= i < |r.log| ==> !Announces(r.log[i])
  {
    var path := Join(dir, name);
    if IsLogPathExists(s, path) then
      var log := [Line(INFO, LogFileExists(path))];
      if IsLogFileWritable(s, path) then
        Attempt(s, true, log + [Line(INFO, LogFileWritable(path))])
      else
        Attempt(s, false, log + [Line(ERROR, LogFileNotWritable(path))])
    else
      var log := [Line(INFO, LogFileMissing(path))];
      if !IsLogPathExists(s, dir) then
        var made := MakedirsOutcome(s, dir);
        var log' := log + [Line(INFO, DirectoryMissing(dir, name))];
        if !made.ok then
          Attempt(s, false, log' + [Line(ERROR, DirectoryCreateFailed(dir, name))])
        else
          CreateOutcome(made.fs, dir, name, log' + [Line(INFO, DirectoryCreated(dir, name))])
      else
        CreateOutcome(s, dir, name, log)
  }

  /** The last step of `check_and_create_log_file`: `open(path, 'w')`,
      reported after the records `log` already issued. */
  function CreateOutcome(s: FsState, dir: Path, name: string, log: seq<Line>): (r: Attempt)
    requires PlainComponent(name)
    ensures r.ok == OpenWriteOutcome(s, dir, name).ok
    ensures r.fs == OpenWriteOutcome(s, dir, name).fs
    ensures |r.log| == |log| + 1 && r.log[..|log|] == log && !Announces(r.log[|log|])
    ensures r.log[|log|] == if r.ok then Line(INFO, LogFileCreated(Join(dir, name)))
                            else Line(ERROR, LogFileCreateFailed(Join(dir, name)))
  {
    var path := Join(dir, name);
    var written := OpenWriteOutcome(s, dir, name);
    if written.ok then Attempt(written.fs, true, log + [Line(INFO, LogFileCreated(path))])
    else Attempt(written.fs, false, log + [Line(ERROR, LogFileCreateFailed(path))])
  }

  /** The dictionary `initialize_log_file` returns. */
  datatype LogFileSetup = LogFileSetup(success: bool, logFilePath: Path)

  /** One call of `initialize_log_file`: the filesystem afterwards, the result,
      and the records issued. */
  datatype Resolution = Resolution(fs: FsState, result: LogFileSetup, log: seq<Line>)

  /** `initialize_log_file(root, home, name)`: the root directory first, the
      home directory only if that fails. On success the file now exists and is
      one of the two candidates; on failure no file was created. */
  function InitializeOutcome(s: FsState, root: Path, home: Path, name: string): (r: Resolution)
    requires PlainComponent(name)
    ensures r.result.success ==>
      && (r.result.logFilePath == Join(root, name) || r.result.logFilePath == Join(home, name))
      && r.result.logFilePath in r.fs.files
    ensures !r.result.success ==> r.result.logFilePath == "" && r.fs.files == s.files
    ensures Grows(s, r.fs)
    ensures s.Valid() ==> r.fs.Valid()
  {
    var start := [Line(INFO, InitializingFileLogger)];
    var atRoot := CheckAndCreateOutcome(s, root, name);
    if atRoot.ok then
      Resolution(atRoot.fs, LogFileSetup(true, Join(root, name)),
                 start + atRoot.log + [Line(INFO, SystemWideLogFileReady(Join(root, name)))])
    else
      var atHome := CheckAndCreateOutcome(atRoot.fs, home, name);
      if atHome.ok then
        Resolution(atHome.fs, LogFileSetup(true, Join(home, name)),
                   start + atRoot.log + atHome.log + [Line(INFO, UserLogFileReady(Join(home, name)))])
      else
        Resolution(atHome.fs, LogFileSetup(false, ""),
                   start + atRoot.log + atHome.log + [Line(ERROR, LogFileSetupFailed)])
  }

  // ---------------------------------------------------------------------
  // Properties of the resolver

  /** Each call of `check_and_create_log_file` tries exactly its own path. */
  lemma CheckAndCreateTriesOnePath(s: FsState, dir: Path, name: string)
    requires PlainComponent(name)
    ensures Attempts(CheckAndCreateOutcome(s, dir, name).log) == [Join(dir, name)]
  {
    var log := CheckAndCreateOutcome(s, dir, name).log;
    assert log == [log[0]] + log[1..];
    AttemptsAppend([log[0]], log[1..]);
    QuietAttempts(log[1..]);
  }

  /** An existing path, file or directory, is only checked: the result is its
      writability, nothing is created and no contents change. */
  lemma ExistingPathIsOnlyChecked(s: FsState, dir: Path, name: string)
    requires PlainComponent(name)
    requires s.Exists(Join(dir, name))
    ensures CheckAndCreateOutcome(s, dir, name).fs == s
    ensures CheckAndCreateOutcome(s, dir, name).ok == IsLogFileWritable(s, Join(dir, name))
    ensures s.Valid() && Join(dir, name) in s.dirs ==> !CheckAndCreateOutcome(s, dir, name).ok
  {
  }

  /** When neither the file nor its directory exists and the directory cannot
      be made, the call fails and creates nothing. */
  lemma DirectoryRefusedCreatesNothing(s: FsState, dir: Path, name: string)
    requires PlainComponent(name)
    requires !s.Exists(Join(dir, name)) && !s.Exists(dir)
    requires !MakedirsOutcome(s, dir).ok
    ensures !CheckAndCreateOutcome(s, dir, name).ok
    ensures CheckAndCreateOutcome(s, dir, name).fs == s
  {
  }

  /** When the file is missing and its directory exists or has just been made,
      the result is that of creating the file; success leaves an empty file at
      the joined path and every other file as it was, failure leaves the files
      as they were. */
  lemma MissingFileIsCreated(s: FsState, dir: Path, name: string)
    requires PlainComponent(name)
    requires !s.Exists(Join(dir, name))
    requires s.Exists(dir) || MakedirsOutcome(s, dir).ok
    ensures var r := CheckAndCreateOutcome(s, dir, name);
      var ready := if s.Exists(dir) then s else MakedirsOutcome(s, dir).fs;
      && r.ok == OpenWriteOutcome(ready, dir, name).ok
      && (r.ok ==> r.fs.files == s.files[Join(dir, name) := ""])
      && (!r.ok ==> r.fs.files == s.files)
  {
  }

  /** If the root directory works, the result points there, it is the only
      path tried, and the home directory is never touched. */
  lemma RootSucceeds(s: FsState, root: Path, home: Path, name: string)
    requires PlainComponent(name)
    requires CheckAndCreateOutcome(s, root, name).ok
    ensures var r := InitializeOutcome(s, root, home, name);
      && r.result == LogFileSetup(true, Join(root, name))
      && r.fs == CheckAndCreateOutcome(s, root, name).fs
      && Attempts(r.log) == [Join(root, name)]
  {
    var atRoot := CheckAndCreateOutcome(s, root, name);
    var start := [Line(INFO, InitializingFileLogger)];
    var ready := [Line(INFO, SystemWideLogFileReady(Join(root, name)))];
    CheckAndCreateTriesOnePath(s, root, name);
    AttemptsAppend(start, atRoot.log);
    AttemptsAppend(start + atRoot.log, ready);
  }

  /** If the root directory fails and the home directory works, the result
      points at home, and both were tried, root first. */
  lemma HomeFallback(s: FsState, root: Path, home: Path, name: string)
    requires PlainComponent(name)
    requires !CheckAndCreateOutcome(s, root, name).ok
    requires CheckAndCreateOutcome(CheckAndCreateOutcome(s, root, name).fs, home, name).ok
    ensures var r := InitializeOutcome(s, root, home, name);
      && r.result == LogFileSetup(true, Join(home, name))
      && Attempts(r.log) == [Join(root, name), Join(home, name)]
  {
    var atRoot := CheckAndCreateOutcome(s, root, name);
    var atHome := CheckAndCreateOutcome(atRoot.fs, home, name);
    var start := [Line(INFO, InitializingFileLogger)];
    var ready := [Line(INFO, UserLogFileReady(Join(home, name)))];
    CheckAndCreateTriesOnePath(s, root, name);
    CheckAndCreateTriesOnePath(atRoot.fs, home, name);
    AttemptsAppend(start, atRoot.log);
    AttemptsAppend(start + atRoot.log, atHome.log);
    AttemptsAppend(start + atRoot.log + atHome.log, ready);
  }

  /** If both directories fail, the result is a failure with an empty path,
      both were tried, root first, and no file was created. */
  lemma BothFail(s: FsState, root: Path, home: Path, name: string)
    requires PlainComponent(name)
    requires !CheckAndCreateOutcome(s, root, name).ok
    requires !CheckAndCreateOutcome(CheckAndCreateOutcome(s, root, name).fs, home, name).ok
    ensures var r := InitializeOutcome(s, root, home, name);
      && r.result == LogFileSetup(false, "")
      && r.fs.files == s.files
      && Attempts(r.log) == [Join(root, name), Join(home, name)]
  {
    var atRoot := CheckAndCreateOutcome(s, root, name);
    var atHome := CheckAndCreateOutcome(atRoot.fs, home, name);
    var start := [Line(INFO, InitializingFileLogger)];
    var failed := [Line(ERROR, LogFileSetupFailed)];
    CheckAndCreateTriesOnePath(s, root, name);
    CheckAndCreateTriesOnePath(atRoot.fs, home, name);
    AttemptsAppend(start, atRoot.log);
    AttemptsAppend(start + atRoot.log, atHome.log);
    AttemptsAppend(start + atRoot.log + atHome.log, failed);
  }

  /** The root directory is always tried, and always first. */
  lemma RootTriedFirst(s: FsState, root: Path, home: Path, name: string)
    requires PlainComponent(name)
    ensures var tried := Attempts(InitializeOutcome(s, root, home, name).log);
      1 <= |tried| <= 2 && tried[0] == Join(root, name)
  {
    if CheckAndCreateOutcome(s, root, name).ok {
      RootSucceeds(s, root, home, name);
    } else if CheckAndCreateOutcome(CheckAndCreateOutcome(s, root, name).fs, home, name).ok {
      HomeFallback(s, root, home, name);
    } else {
      BothFail(s, root, home, name);
    }
  }

  // ---------------------------------------------------------------------
  // The operations, against the live filesystem and journal

  /** `is_create_directory(dir)`: `os.makedirs`, reporting the outcome. */
  method IsCreateDirectory(fs: FileSystem, logDirName: Path) returns (ok: bool)
    modifies fs
    ensures Effect(fs.State(), ok) == MakedirsOutcome(old(fs.State()), logDirName)
  {
    ok := fs.MakeDirs(logDirName);
  }

  /** `check_and_create_log_file(log_dir_name, log_file_name)`. */
  method CheckAndCreateLogFile(fs: FileSystem, out: Journal, logDirName: Path, logFileName: string)
    returns (ok: bool)
    requires PlainComponent(logFileName)
    modifies fs, out
    ensures var r := CheckAndCreateOutcome(old(fs.State()), logDirName, logFileName);
      fs.State() == r.fs && ok == r.ok && out.lines == old(out.lines) + r.log
  {
    var path := Join(logDirName, logFileName);
    ghost var log: seq<Line>;
    if IsLogPathExists(fs.State(), path) {
      out.Emit(INFO, LogFileExists(path));
      log := [Line(INFO, LogFileExists(path))];
      if IsLogFileWritable(fs.State(), path) {
        out.Emit(INFO, LogFileWritable(path));
        Snoc(old(out.lines), log, Line(INFO, LogFileWritable(path)));
        return true;
      }
      out.Emit(ERROR, LogFileNotWritable(path));
      Snoc(old(out.lines), log, Line(ERROR, LogFileNotWritable(path)));
      return false;
    }
    out.Emit(INFO, LogFileMissing(path));
    log := [Line(INFO, LogFileMissing(path))];
    if !IsLogPathExists(fs.State(), logDirName) {
      out.Emit(INFO, DirectoryMissing(logDirName, logFileName));
      Snoc(old(out.lines), log, Line(INFO, DirectoryMissing(logDirName, logFileName)));
      log := log + [Line(INFO, DirectoryMissing(logDirName, logFileName))];
      var created := IsCreateDirectory(fs, logDirName);
      if !created {
        out.Emit(ERROR, DirectoryCreateFailed(logDirName, logFileName));
        Snoc(old(out.lines), log, Line(ERROR, DirectoryCreateFailed(logDirName, logFileName)));
        return false;
      }
      out.Emit(INFO, DirectoryCreated(logDirName, logFileName));
      Snoc(old(out.lines), log, Line(INFO, DirectoryCreated(logDirName, logFileName)));
      log := log + [Line(INFO, DirectoryCreated(logDirName, logFileName))];
    }
    var written := fs.OpenWrite(logDirName, logFileName);
    if written {
      out.Emit(INFO, LogFileCreated(path));
      Snoc(old(out.lines), log, Line(INFO, LogFileCreated(path)));
      return true;
    }
    out.Emit(ERROR, LogFileCreateFailed(path));
    Snoc(old(out.lines), log, Line(ERROR, LogFileCreateFailed(path)));
    return false;
  }

  /** A record appended after `log` extends the block `log`. The three
      regrouping lemmas spell out sequence associativity for the journal; without
      their calls `CheckAndCreateLogFile` and `InitializeLogFile` run out of the
      solver's resource limit. */
  lemma Snoc(before: seq<Line>, log: seq<Line>, l: Line)
    ensures before + log + [l] == before + (log + [l])
  {
  }

  /** Records appended call after call form one block after the earlier ones. */
  lemma Regroup(before: seq<Line>, a: seq<Line>, b: seq<Line>, c: seq<Line>)
    ensures before + a + b + c == before + (a + b + c)
  {
  }

  /** The same as `Regroup`, for the four blocks the home attempt leaves. */
  lemma Regroup4(before: seq<Line>, a: seq<Line>, b: seq<Line>, c: seq<Line>, d: seq<Line>)
    ensures before + a + b + c + d == before + (a + b + c + d)
  {
  }

  /** `initialize_log_file(log_dir_root, log_dir_home, log_file_name)`. */
  method InitializeLogFile(fs: FileSystem, out: Journal, logDirRoot: Path, logDirHome: Path, logFileName: string)
    returns (setup: LogFileSetup)
    requires PlainComponent(logFileName)
    modifies fs, out
    ensures var r := InitializeOutcome(old(fs.State()), logDirRoot, logDirHome, logFileName);
      fs.State() == r.fs && setup == r.result && out.lines == old(out.lines) + r.log
  {
    ghost var start := old(out.lines) + [Line(INFO, InitializingFileLogger)];
    ghost var rootRun := CheckAndCreateOutcome(old(fs.State()), logDirRoot, logFileName);
    out.Emit(INFO, InitializingFileLogger);
    var atRoot := CheckAndCreateLogFile(fs, out, logDirRoot, logFileName);
    assert out.lines == start + rootRun.log;
    if atRoot {
      out.Emit(INFO, SystemWideLogFileReady(Join(logDirRoot, logFileName)));
      Regroup(old(out.lines), [Line(INFO, InitializingFileLogger)], rootRun.log,
              [Line(INFO, SystemWideLogFileReady(Join(logDirRoot, logFileName)))]);
      return LogFileSetup(true, Join(logDirRoot, logFileName));
    }
    ghost var homeRun := CheckAndCreateOutcome(rootRun.fs, logDirHome, logFileName);
    var atHome := CheckAndCreateLogFile(fs, out, logDirHome, logFileName);
    assert out.lines == start + rootRun.log + homeRun.log;
    if atHome {
      out.Emit(INFO, UserLogFileReady(Join(logDirHome, logFileName)));
      Regroup4(old(out.lines), [Line(INFO, InitializingFileLogger)], rootRun.log, homeRun.log,
              [Line(INFO, UserLogFileReady(Join(logDirHome, logFileName)))]);
      return LogFileSetup(true, Join(logDirHome, logFileName));
    }
    out.Emit(ERROR, LogFileSetupFailed);
    Regroup4(old(out.lines), [Line(INFO, InitializingFileLogger)], rootRun.log, homeRun.log,
            [Line(ERROR, LogFileSetupFailed)]);
    return LogFileSetup(false, "");
  }

  // ---------------------------------------------------------------------
  // The module's own logger

  /** `configure_stdout_logger(name="stdout_logger")`: the same guard as the
      file logger set-up, with `logging.StreamHandler()`, whose stream is
      standard error. */
  method ConfigureStdoutLogger(reg: Registry, name: string := "stdout_logger") returns (lg: Logger)
    modifies reg
    ensures reg.loggers == AttachOnce(old(reg.loggers), name, StreamHandler(Stderr))
    ensures name in reg.loggers && lg == reg.loggers[name]
  {
    lg := reg.GetLogger(name);
    if !reg.HasHandlersFor(name) {
      reg.AddHandler(name, StreamHandler(Stderr));
      reg.SetLevel(name, INFO);
    }
    lg := reg.loggers[name];
  }

  /** A logger without handlers gets exactly the one stream handler and level
      INFO; one with handlers keeps its handlers and level. */
  lemma StdoutLoggerGuard(m: map<string, Logger>, name: string)
    ensures var r := AttachOnce(m, name, StreamHandler(Stderr));
      && (!HasHandlers(m, name) ==> r[name].handlers == [StreamHandler(Stderr)] && r[name].level == INFO)
      && (HasHandlers(m, name) ==> r[name] == m[name] && r == m)
  {
  }
}
