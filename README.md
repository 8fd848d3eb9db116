# Reboot button: log destination and logger set-up

A verified Dafny model of the two pieces of the `reboot_button` daemon that make
decisions before the button is watched:

- **The log-destination resolver** (`reboot_button/log_file.py`).
  `check_and_create_log_file(dir, name)` makes sure the log file
  `os.path.join(dir, name)` can be used:
  - If the path exists (a file or a directory), the result is whether it can be
    opened for append.
  - Otherwise it creates the directory when it is missing, then creates an empty
    file with `open(path, 'w')`.

  `initialize_log_file(root, home, name)` tries the system-wide directory first,
  then the user's home directory. It returns `{success, log_file_path}`, with an
  empty path when both fail.
- **The idempotent logger set-up** (`reboot_button/logger_config.py` and
  `configure_stdout_logger` in `log_file.py`). The named logger gets one handler
  and level INFO, but only when it has no handlers yet.

## Structure

- `os.dfy`, module `Os`: the file system the resolver works on.
  - `Join` is `os.path.join` with a single plain component.
  - `FsState` is a snapshot of the file system. It holds:
    - the existing directories;
    - the existing files with their contents;
    - three permission oracles: which existing files the process may write
      (with `'a'` or `'w'`), which directories `os.makedirs` refuses, and which
      directories refuse a new file.
  - `MakedirsOutcome` and `OpenWriteOutcome` specify `os.makedirs` and
    `open(path, 'w')`.
  - The class `FileSystem` holds the same state in fields. Its methods `MakeDirs`
    and `OpenWrite` change that state in place and are proved against the two
    functions.
- `logging.dfy`, module `Logging`: the `logging` registry.
  - A class `Registry` holds a `map` from logger names to `Logger` values. Each
    value has a handler sequence and a numeric level (NOTSET 0, INFO 20, ERROR 40).
  - The methods are `getLogger`, `addHandler` and `setLevel`, with `hasHandlers`
    as a predicate.
  - `AttachOnce` is the shared specification of the guard.
- `log_file.dfy`, module `LogFile`: the functions of `log_file.py`.
  - Each stateful operation is a method over a `FileSystem` and a `Journal`. It is
    proved equal to a specification function: `CheckAndCreateOutcome` or
    `InitializeOutcome`.
  - The lemmas state the resolver's properties.
  - Every `logger.info` and `logger.error` call of the module appends a
    `Line(level, event)` to the `Journal`. So the journal is the module's log
    output in order.
  - `Attempts(journal)` gives the paths checked, in order: each call of
    `check_and_create_log_file` first reports whether its path exists.
- `logger_config.dfy`, module `LoggerConfig`: `setup_file_logger`.

Where the tests and the code disagree, the model follows the code:

- The tests refer to `append_or_create_log_file` and `setup_log_file`. The code
  calls these `check_and_create_log_file` and `initialize_log_file`.
- The tests also expect `setup_log_file` to call `setup_file_logger`, but
  `initialize_log_file` does not. The model follows the code.

`configure_stdout_logger` attaches `logging.StreamHandler()`. With no stream
argument, that handler writes to standard error, not standard output, although
the function's name and docstring say otherwise. The model records the stream as
`Stderr`.

## Model

| member | source | states |
|---|---|---|
| `Os.Join` | reboot_button/log_file.py:95 | the joined path is `dir`, then `name`; a `/` sits between them exactly when `dir` is non-empty and does not already end in one; the path is never empty and never `dir` itself |
| `Os.MakedirsOutcome` | reboot_button/log_file.py:77-81 | `makedirs` succeeds exactly on a non-empty path that does not exist and is not refused, and then the directory exists; on failure nothing changes; files are never touched; the state only grows |
| `Os.OpenWriteOutcome` | reboot_button/log_file.py:118-125 | `open(path, 'w')` succeeds exactly when the directory exists, the path is not a directory, and either the path is an existing file the process may write or it is missing and the directory accepts new files; on success the path holds an empty file and no other file changes; on failure nothing changes |
| `Os.FsState.OpenAppendSucceeds` | reboot_button/log_file.py:43-48 | `open(p, 'a')` succeeds only on an existing path that permissions allow, and never on a directory |
| `Os.FileSystem.MakeDirs` | reboot_button/log_file.py:78 | the in-place `os.makedirs` leaves the state and result that `MakedirsOutcome` gives |
| `Os.FileSystem.OpenWrite` | reboot_button/log_file.py:119-120 | the in-place `open(path, 'w')` leaves the state and result that `OpenWriteOutcome` gives |
| `LogFile.Journal.Emit` | reboot_button/log_file.py:97-152 | each `logger.info` / `logger.error` call appends exactly its record, with its level, and leaves the earlier records in place |
| `LogFile.IsLogPathExists` | reboot_button/log_file.py:51-64 | true exactly for an existing directory or file; false for the empty path on a valid state |
| `LogFile.IsLogFileWritable` | reboot_button/log_file.py:31-48 | false for a missing path; for an existing path, true exactly when an append-open succeeds; true only for a regular file, never for a directory; it reads the state and changes no file |
| `LogFile.IsCreateDirectory` | reboot_button/log_file.py:67-81 | the result and new state are those of `os.makedirs`, with the error reported as `false` |
| `LogFile.CheckAndCreateOutcome` | reboot_button/log_file.py:84-125 | success means the file now exists at `join(dir, name)`; failure leaves the set of files unchanged; at most that one file is added; no file or directory disappears and no existing file's contents change; the call first reports whether the path exists and makes no other such report |
| `LogFile.CreateOutcome` | reboot_button/log_file.py:118-125 | the result and new state are those of `open(path, 'w')`; the records issued so far are kept and exactly one more follows, which reports the outcome: `LogFileCreated` at INFO on success, `LogFileCreateFailed` at ERROR on failure; it does not announce a new path |
| `LogFile.CheckAndCreateLogFile` | reboot_button/log_file.py:84-125 | the method's new file system, result and appended log lines are exactly those of `CheckAndCreateOutcome` |
| `LogFile.CheckAndCreateTriesOnePath` | reboot_button/log_file.py:96-103 | each call checks exactly one path, `join(dir, name)` |
| `LogFile.ExistingPathIsOnlyChecked` | reboot_button/log_file.py:96-102 | if the path exists, the result is its writability and the file system is unchanged (existing contents kept); an existing directory at the path gives `false` |
| `LogFile.DirectoryRefusedCreatesNothing` | reboot_button/log_file.py:104-116 | if neither the file nor its directory exists and `makedirs` fails, the result is `false` and nothing is created |
| `LogFile.MissingFileIsCreated` | reboot_button/log_file.py:117-125 | if the file is missing and its directory exists or was just made, the result is the outcome of the create; success leaves an empty file at the path and every other file as it was; failure adds no file |
| `LogFile.InitializeOutcome` | reboot_button/log_file.py:128-153 | on success the returned path is `join(root, name)` or `join(home, name)` and is now a file; on failure the path is `""` and no file was created; existing files keep their contents |
| `LogFile.InitializeLogFile` | reboot_button/log_file.py:128-153 | the method's new file system, returned dictionary and appended log lines are exactly those of `InitializeOutcome` |
| `LogFile.RootSucceeds` | reboot_button/log_file.py:140-145 | if root succeeds, the result is `{true, join(root, name)}`, only the root path was tried, and the file system is what the root attempt left (home untouched) |
| `LogFile.HomeFallback` | reboot_button/log_file.py:146-151 | if root fails and home succeeds, the result is `{true, join(home, name)}`, and both paths were tried, root first |
| `LogFile.BothFail` | reboot_button/log_file.py:152-153 | if both fail, the result is `{false, ""}`, both paths were tried, root first, and no file was created |
| `LogFile.RootTriedFirst` | reboot_button/log_file.py:140-151 | in every run the root path is tried first, and at most two paths are tried |
| `LogFile.ConfigureStdoutLogger` | reboot_button/log_file.py:7-24 | the registry afterwards is the guarded attach of one standard-error stream handler with level INFO; the returned logger is the registry's entry for `name` (default `"stdout_logger"`) |
| `LogFile.StdoutLoggerGuard` | reboot_button/log_file.py:17-24 | a logger without handlers ends with exactly the stream handler and level INFO; a logger with handlers keeps its handlers and level, and the registry is unchanged |
| `Logging.Registered` | reboot_button/logger_config.py:17 | `getLogger` keeps every existing logger and adds a fresh one (no handlers, NOTSET) only for an unknown name, so it never changes whether the logger has handlers |
| `Logging.HasHandlers` | reboot_button/logger_config.py:18 | `hasHandlers()` holds only for a registered logger with at least one handler |
| `Logging.Registry.HasHandlersFor` | reboot_button/log_file.py:18 | `hasHandlers()` on the live registry holds only for a registered logger with at least one handler, and never for an unknown name |
| `Logging.AttachOnce` | reboot_button/logger_config.py:17-23 | afterwards the logger has handlers; if it had handlers, nothing changes; otherwise it holds exactly the new handler and level INFO; no other logger changes |
| `Logging.AttachOnceIdempotent` | reboot_button/logger_config.py:18-24 | a second guarded set-up for the same name, with any handler, gives the same registry as the first |
| `Logging.AttachOnceHandlerCount` | reboot_button/logger_config.py:18-22 | the set-up leaves one handler on a logger that had none and does not change the handler count of one that had some |
| `Logging.Registry.GetLogger` | reboot_button/logger_config.py:17 | the registry becomes `Registered(old, name)` and the returned logger is its entry for `name` |
| `Logging.Registry.AddHandler` | reboot_button/logger_config.py:22 | the handler is appended to that logger's sequence; nothing else changes |
| `Logging.Registry.SetLevel` | reboot_button/logger_config.py:23 | that logger's level is set; nothing else changes |
| `LoggerConfig.SetupFileLogger` | reboot_button/logger_config.py:6-24 | the registry afterwards is the guarded attach of one file handler bound to `log_file_path`; the returned logger is the registry's entry for `name` (default `"reboot_button"`); other loggers are unchanged |
| `LoggerConfig.SetupOnFreshLogger` | reboot_button/logger_config.py:17-23 | a logger without handlers ends with exactly one file handler for the path and level INFO |
| `LoggerConfig.SetupOnConfiguredLogger` | reboot_button/logger_config.py:18 | a logger that already has handlers is left as it is, and no file handler is added |
| `LoggerConfig.SetupTwiceIsSetupOnce` | reboot_button/logger_config.py:18-24 | two set-up calls for one name, with any paths, leave the registry as the first call did |
| `LoggerConfig.SetupFileLoggerTwice` | reboot_button/logger_config.py:6-24 | two successive calls on one registry return the same logger, and the registry is as after one call |

## Left out

- Logging output formats are not modelled: the formatter string, timestamps,
  level filtering, and the stdout logger that `log_file.py` configures when it is
  imported (lines 27-28). The journal records each issued record's level and what
  it reports, without the exception text.
- `LoggerConfig.SetupFileLogger`: the case where `logging.FileHandler(path)`
  raises is not modelled. The model assumes that the handler's file opens.
  In the source, the constructor opens (and may create) the file. It raises
  OSError when the directory is missing, permission is denied or the path is a
  directory. That exception leaves `setup_file_logger` after `getLogger` has
  registered the logger, and the logger keeps no handlers. A later call with a
  different path then attaches that path's handler. So on that path,
  `SetupTwiceIsSetupOnce` and `SetupFileLoggerTwice` promise more than the
  source gives. The creation of the file by the handler is not modelled either.
- The logger hierarchy is not modelled. `hasHandlers` also looks at ancestor
  loggers (the root logger) through propagation; the model treats it as "this
  logger has handlers". `logging.getLogger("")` (and `"root"`) returns the
  root logger, which always exists with level WARNING; the model treats every
  name, these two included, as an ordinary logger that starts fresh with no
  handlers at NOTSET.
- Loggers and handlers are values, not shared objects. The `Logger` that
  `SetupFileLogger` and `ConfigureStdoutLogger` return is a snapshot of the
  registry entry. In Python it is the shared logger object, so handlers added
  later are visible through it. The model also does not capture that
  `addHandler` skips a handler object that is already attached.
- File-system detail is abstracted. Permissions appear only as the three oracle
  sets; `appendable` stands for write permission on an existing file, which
  both `open(p, 'a')` and `open(p, 'w')` need. The model does not distinguish
  `OSError` subclasses, and `os.makedirs` creating missing parents is out as
  well. Path normalisation is also out: trailing slashes, `..` and symbolic
  links are not resolved, and two different strings are two different paths.
- `os.path.join` is modelled only for a single plain component `name`: not
  empty, `.` or `..`, and with no `/` or NUL character. An absolute or
  multi-part name is outside the model. Every file name the repository uses is
  such a component: `reboot_button.log` (reboot_button/config.py:12) and the
  names the tests pass.
- Exceptions that are not OSError are not modelled. A NUL character in the
  directory makes `os.makedirs` and `open` raise ValueError. Neither
  `check_and_create_log_file` nor `initialize_log_file` catches that, so the
  error propagates and the home directory is never tried. The model only
  covers directories whose failures are OSError: refusal, absence, or a file
  in the way.
- Opening with `'a'` would create a missing file. `is_log_file_writable` only
  opens paths it has just seen exist, so the model treats the append probe as a
  read-only query.
- reboot_button/button_handler.py is not part of this model. It holds the GPIO
  set-up, `sudo reboot`, the journald handler and the sleep loop with its
  clean-up. All of these are hardware or operating-system plumbing.
- reboot_button/main.py and reboot_button/config.py are not part of this
  model. They are wiring and constants read from the environment.
