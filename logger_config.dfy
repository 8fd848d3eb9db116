/** reboot_button/logger_config.py: the file logger set-up. */
module LoggerConfig {
  import opened Logging

  /** `setup_file_logger(log_file_path, name="reboot_button")`: a logger that
      has no handlers gets one file handler bound to `logFilePath` and level
      INFO; a logger that already has handlers is left as it is, and no file
      handler is made. The registry's logger for `name` is returned. */
  method SetupFileLogger(reg: Registry, logFilePath: string, name: string := "reboot_button")
    returns (lg: Logger)
    modifies reg
    ensures reg.loggers == AttachOnce(old(reg.loggers), name, FileHandler(logFilePath))
    ensures name in reg.loggers && lg == reg.loggers[name]
  {
    lg := reg.GetLogger(name);
    if !reg.HasHandlersFor(name) {
      reg.AddHandler(name, FileHandler(logFilePath));
      reg.SetLevel(name, INFO);
    }
    lg := reg.loggers[name];
  }

  /** What one call of `setup_file_logger` leaves on a logger without handlers. */
  lemma SetupOnFreshLogger(m: map<string, Logger>, logFilePath: string, name: string)
    requires !HasHandlers(m, name)
    ensures AttachOnce(m, name, FileHandler(logFilePath))[name] == Logger([FileHandler(logFilePath)], INFO)
  {
  }

  /** On a logger that already has handlers, `setup_file_logger` changes nothing,
      in particular adds no file handler. */
  lemma SetupOnConfiguredLogger(m: map<string, Logger>, logFilePath: string, name: string)
    requires HasHandlers(m, name)
    ensures AttachOnce(m, name, FileHandler(logFilePath)) == m
  {
  }

  /** Calling `setup_file_logger` twice for one name, with any paths, leaves
      what the first call left. */
  lemma SetupTwiceIsSetupOnce(m: map<string, Logger>, path1: string, path2: string, name: string)
    ensures AttachOnce(AttachOnce(m, name, FileHandler(path1)), name, FileHandler(path2))
         == AttachOnce(m, name, FileHandler(path1))
  {
    AttachOnceIdempotent(m, name, FileHandler(path1), FileHandler(path2));
  }

  /** The two calls run in sequence against one registry: the second call
      returns the logger the first one configured. */
  method SetupFileLoggerTwice(reg: Registry, path1: string, path2: string, name: string)
    returns (first: Logger, second: Logger)
    modifies reg
    ensures reg.loggers == AttachOnce(old(reg.loggers), name, FileHandler(path1))
    ensures second == first && first.handlers != []
  {
    first := SetupFileLogger(reg, path1, name);
    second := SetupFileLogger(reg, path2, name);
    SetupTwiceIsSetupOnce(old(reg.loggers), path1, path2, name);
  }
}
