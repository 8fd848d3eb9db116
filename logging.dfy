/** The part of Python's `logging` package that the set-up functions rely on: a
    process-wide registry of named loggers, each with a list of handlers and a
    level, and the "attach a handler only if there is none" guard both set-up
    functions apply. */
module Logging {

  /** Python's numeric logging levels. */
  const NOTSET: int := 0
  const INFO: int := 20
  const ERROR: int := 40

  datatype Stream = Stdout | Stderr

  /** `logging.StreamHandler(stream)` and `logging.FileHandler(path)`. */
  datatype Handler = StreamHandler(stream: Stream) | FileHandler(path: string)

  /** One named logger: its handlers in the order they were added, and its level. */
  datatype Logger = Logger(handlers: seq<Handler>, level: int)

  /** What `logging.getLogger` creates for a name it has not seen. */
  const FreshLogger: Logger := Logger([], NOTSET)

  /** The registry after `logging.getLogger(name)`: an entry for `name` exists,
      and is a fresh logger if there was none. */
  function Registered(m: map<string, Logger>, name: string): (r: map<string, Logger>)
    ensures name in r && r.Keys == m.Keys + {name}
    ensures name in m ==> r == m
    ensures name !in m ==> r[name] == FreshLogger
    ensures forall k :: k in m ==> r[k] == m[k]
    ensures HasHandlers(r, name) <==> HasHandlers(m, name)
  {
    if name in m then m else m[name := FreshLogger]
  }

  /** `logger.hasHandlers()` for the logger registered under `name`. */
  predicate HasHandlers(m: map<string, Logger>, name: string)
    ensures HasHandlers(m, name) ==> name in m && |m[name].handlers| >= 1
  {
    name in m && m[name].handlers != []
  }

  /** The guard of both set-up functions: get the logger `name`, and only if it
      has no handlers, add `h` and set its level to INFO. */
  function AttachOnce(m: map<string, Logger>, name: string, h: Handler): (r: map<string, Logger>)
    ensures name in r && HasHandlers(r, name)
    ensures HasHandlers(m, name) ==> r == m
    ensures !HasHandlers(m, name) ==> r[name] == Logger([h], INFO)
    ensures r.Keys == m.Keys + {name}
    ensures forall k :: k in m && k != name ==> r[k] == m[k]
  {
    var m' := Registered(m, name);
    if HasHandlers(m', name) then m'
    else m'[name := m'[name].(handlers := m'[name].handlers + [h], level := INFO)]
  }

  /** However often the guard runs for one name, and with whatever handler, the
      outcome is that of the first run. */
  lemma AttachOnceIdempotent(m: map<string, Logger>, name: string, h: Handler, h': Handler)
    ensures AttachOnce(AttachOnce(m, name, h), name, h') == AttachOnce(m, name, h)
  {
  }

  /** The guard never leaves more than one handler on a logger that had none,
      and never adds one to a logger that had some. */
  lemma AttachOnceHandlerCount(m: map<string, Logger>, name: string, h: Handler)
    ensures var r := AttachOnce(m, name, h);
      |r[name].handlers| == if HasHandlers(m, name) then |m[name].handlers| else 1
  {
  }

  /** The registry `logging.getLogger` consults. */
  class Registry {
    var loggers: map<string, Logger>

    constructor ()
      ensures loggers == map[]
    {
      loggers := map[];
    }

    /** `logging.getLogger(name)`: the registered logger, created if absent. */
    method GetLogger(name: string) returns (lg: Logger)
      modifies this
      ensures loggers == Registered(old(loggers), name)
      ensures lg == loggers[name]
    {
      if name !in loggers {
        loggers := loggers[name := FreshLogger];
      }
      lg := loggers[name];
    }

    /** `logger.hasHandlers()`. */
    predicate HasHandlersFor(name: string)
      reads this
      ensures HasHandlersFor(name) ==> name in loggers && |loggers[name].handlers| >= 1
      ensures name !in loggers ==> !HasHandlersFor(name)
    {
      HasHandlers(loggers, name)
    }

    /** `logger.addHandler(h)`: appends `h` to the handlers of `name`. */
    method AddHandler(name: string, h: Handler)
      requires name in loggers
      modifies this
      ensures loggers == old(loggers)[name := old(loggers)[name].(handlers := old(loggers)[name].handlers + [h])]
    {
      loggers := loggers[name := loggers[name].(handlers := loggers[name].handlers + [h])];
    }

    /** `logger.setLevel(level)`. */
    method SetLevel(name: string, level: int)
      requires name in loggers
      modifies this
      ensures loggers == old(loggers)[name := old(loggers)[name].(level := level)]
    {
      loggers := loggers[name := loggers[name].(level := level)];
    }
  }
}
