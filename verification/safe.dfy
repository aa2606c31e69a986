/** The `safe` decorator: run the wrapped call inside a context manager
    whose try/except/finally logs a caught exception, hands it to an
    optional `on_error` callback, re-raises or suppresses it, and always
    runs an optional `on_finally` callback. The model follows one call of
    the decorated function: what it returns or raises, and the ordered
    trace of the effects the handler produces. The callbacks and the
    logger are observed only through that trace. */
module Safe {
  import opened PyValues
  import opened AsciiCase

  /** A Python exception: the names of its class and of every base class
      (its method resolution order), and `str(e)`. */
  datatype Exc = Exc(classes: seq<string>, message: string)

  /** `except catch as e:` matches `e` when one of its classes is among the
      caught types (`isinstance` against a type or a tuple of types). */
  predicate Catches(catch: set<string>, e: Exc) {
    exists i :: 0 <= i < |e.classes| && e.classes[i] in catch
  }

  /** The record levels the logger's methods write at. */
  datatype Level = Debug | Info | Warning | Error | Critical

  /** `getattr(logger, name)` for the logging methods of a `logging.Logger`:
      the level the selected method writes at, or `None` when the logger has
      no attribute of that name. */
  function LoggerMethod(name: string): (r: Option<Level>)
    ensures r == Some(Debug) <==> name == "debug"
    ensures r == Some(Info) <==> name == "info"
    ensures r == Some(Error) <==> name == "error" || name == "exception"
    ensures r == Some(Critical) <==> name == "critical" || name == "fatal"
    ensures r == Some(Warning) <==> name == "warning" || name == "warn"
    ensures r.None? <==> name !in {"debug", "info", "warning", "warn", "error", "exception", "critical", "fatal"}
  {
    match name
    case "debug" => Some(Debug)
    case "info" => Some(Info)
    case "warning" => Some(Warning)
    case "warn" => Some(Warning)
    case "error" => Some(Error)
    case "exception" => Some(Error)
    case "critical" => Some(Critical)
    case "fatal" => Some(Critical)
    case _ => None
  }

  /** The exception `getattr` raises for a name the logger does not have. */
  function MissingLoggerMethod(name: string): Exc {
    Exc(["AttributeError", "Exception", "BaseException"],
        "'Logger' object has no attribute '" + name + "'")
  }

  /** `log_level and log_level.upper() != "NONE"`. */
  predicate LoggingEnabled(logLevel: Option<string>) {
    logLevel.Some? && logLevel.value != "" && Upper(logLevel.value) != "NONE"
  }

  /** Logging is switched off by `None`, by the empty string and by "NONE"
      spelt in any mix of cases, and by nothing else. */
  lemma LoggingEnabledIff(logLevel: Option<string>)
    ensures LoggingEnabled(logLevel)
        <==> logLevel.Some? && logLevel.value != "" && !EqualIgnoringCase(logLevel.value, "NONE")
  {
  }

  /** The logging step fails: logging is on but `log_level.lower()` names no
      logging method, so `getattr` raises. */
  predicate LevelLookupFails(logLevel: Option<string>) {
    LoggingEnabled(logLevel) && LoggerMethod(Lower(logLevel.value)).None?
  }

  /** `f"Error in {wrapped.__name__}: {str(e)}"`. */
  function ErrorMessage(name: string, e: Exc): string {
    "Error in " + name + ": " + e.message
  }

  /** What the handler does that can be observed from outside: a log
      record (written with the traceback attached), a call of `on_error`
      with the exception, a call of `on_finally`. */
  datatype Effect = Log(level: Level, msg: string) | OnError(exc: Exc) | OnFinally

  /** How the wrapped call itself ends (for a coroutine: how awaiting it ends). */
  datatype CallResult<V> = Returned(value: V) | Threw(exc: Exc)

  /** How the decorated call ends for its caller. `ReturnsNone` is the
      `None` a suppressed exception leaves behind. */
  datatype Outcome<V> = Returns(value: V) | ReturnsNone | Raises(exc: Exc)

  /** The keyword arguments of `safe`; the two callbacks are present or absent. */
  datatype Config = Config(
    catch: set<string>,
    logLevel: Option<string>,
    reRaise: bool,
    onError: bool,
    onFinally: bool)

  /** `catch=Exception, log_level="ERROR", re_raise=True`, no callbacks. */
  const Defaults: Config := Config({"Exception"}, Some("ERROR"), true, false, false)

  /** How a block of the handler ends: normally, or raising an exception;
      either way with the effects it produced on the way. */
  datatype Flow = Completed(trace: seq<Effect>) | Raising(exc: Exc, trace: seq<Effect>)

  /** The effects of the `finally` clause. */
  function FinallyTrace(cfg: Config): seq<Effect> {
    if cfg.onFinally then [OnFinally] else []
  }

  /** `on_finally` runs exactly when it is given, once, and as the last effect. */
  predicate FinallyRunsLastOnce(trace: seq<Effect>, onFinally: bool) {
    if onFinally then
      |trace| > 0 && trace[|trace| - 1] == OnFinally
      && forall i :: 0 <= i < |trace| - 1 ==> trace[i] != OnFinally
    else
      forall i :: 0 <= i < |trace| ==> trace[i] != OnFinally
  }

  /** The `except` clause of `_handle_exception` for a caught `e`: log,
      then `on_error`, then re-raise or fall through. */
  function ExceptClause(cfg: Config, name: string, e: Exc): (f: Flow)
    ensures LevelLookupFails(cfg.logLevel) ==>
      f == Raising(MissingLoggerMethod(Lower(cfg.logLevel.value)), [])
    ensures !LevelLookupFails(cfg.logLevel) ==> (f.Raising? <==> cfg.reRaise)
    ensures f.Raising? && !LevelLookupFails(cfg.logLevel) ==> f.exc == e
    ensures |f.trace| <= 2
    ensures forall i :: 0 <= i < |f.trace| ==> f.trace[i] != OnFinally
    ensures forall i :: 0 <= i < |f.trace| && f.trace[i].Log? ==>
      && i == 0 && LoggingEnabled(cfg.logLevel)
      && f.trace[i] == Log(LoggerMethod(Lower(cfg.logLevel.value)).value, ErrorMessage(name, e))
    ensures forall i :: 0 <= i < |f.trace| && f.trace[i].OnError? ==>
      i == |f.trace| - 1 && f.trace[i].exc == e && cfg.onError
    ensures !LevelLookupFails(cfg.logLevel) && cfg.onError ==> OnError(e) in f.trace
    ensures !LevelLookupFails(cfg.logLevel) && LoggingEnabled(cfg.logLevel) ==> |f.trace| >= 1 && f.trace[0].Log?
  {
    var logged :=
      if LoggingEnabled(cfg.logLevel) then
        match LoggerMethod(Lower(cfg.logLevel.value))
        case None => Raising(MissingLoggerMethod(Lower(cfg.logLevel.value)), [])
        case Some(level) => Completed([Log(level, ErrorMessage(name, e))])
      else
        Completed([]);
    if logged.Raising? then
      logged
    else
      var notified := logged.trace + (if cfg.onError then [OnError(e)] else []);
      if cfg.reRaise then Raising(e, notified) else Completed(notified)
  }

  /** One call of a function decorated with `safe(...)`: the try/except/finally
      of `_handle_exception` around the wrapped call, seen from the caller. */
  function Handle<V>(cfg: Config, name: string, call: CallResult<V>): (r: (Outcome<V>, seq<Effect>))
    // on every path on_finally runs exactly once when given, and last
    ensures FinallyRunsLastOnce(r.1, cfg.onFinally)
    // a normal return passes through untouched: no log, no on_error
    ensures call.Returned? ==> r.0 == Returns(call.value) && r.1 == FinallyTrace(cfg)
    // an exception outside `catch` propagates unchanged: no log, no on_error
    ensures call.Threw? && !Catches(cfg.catch, call.exc) ==>
      r.0 == Raises(call.exc) && r.1 == FinallyTrace(cfg)
    // a caught exception is re-raised as the very same exception, or suppressed
    ensures call.Threw? && Catches(cfg.catch, call.exc) && !LevelLookupFails(cfg.logLevel) ==>
      r.0 == (if cfg.reRaise then Raises(call.exc) else ReturnsNone)
    // an unknown level name makes the logging step itself raise
    ensures call.Threw? && Catches(cfg.catch, call.exc) && LevelLookupFails(cfg.logLevel) ==>
      r.0 == Raises(MissingLoggerMethod(Lower(cfg.logLevel.value))) && r.1 == FinallyTrace(cfg)
    // the log record comes first, for a caught exception, when logging is on
    ensures forall i :: 0 <= i < |r.1| && r.1[i].Log? ==>
      && i == 0 && call.Threw? && Catches(cfg.catch, call.exc) && LoggingEnabled(cfg.logLevel)
      && r.1[i] == Log(LoggerMethod(Lower(cfg.logLevel.value)).value, ErrorMessage(name, call.exc))
    ensures (call.Threw? && Catches(cfg.catch, call.exc) && LoggingEnabled(cfg.logLevel)
             && !LevelLookupFails(cfg.logLevel)) ==> |r.1| >= 1 && r.1[0].Log?
    // on_error gets the caught exception after the log and before anything but on_finally
    ensures forall i :: 0 <= i < |r.1| && r.1[i].OnError? ==>
      && call.Threw? && Catches(cfg.catch, call.exc) && cfg.onError && r.1[i].exc == call.exc
      && (forall j :: 0 <= j < i ==> r.1[j].Log?)
      && (forall j :: i < j < |r.1| ==> r.1[j] == OnFinally)
    ensures (call.Threw? && Catches(cfg.catch, call.exc) && cfg.onError
             && !LevelLookupFails(cfg.logLevel)) ==> OnError(call.exc) in r.1
  {
    match call
    case Returned(v) => (Returns(v), FinallyTrace(cfg))
    case Threw(e) =>
      if !Catches(cfg.catch, e) then
        (Raises(e), FinallyTrace(cfg))
      else
        match ExceptClause(cfg, name, e)
        case Completed(t) => (ReturnsNone, t + FinallyTrace(cfg))
        case Raising(x, t) => (Raises(x), t + FinallyTrace(cfg))
  }

  /** The default level "ERROR" turns logging on and selects `logger.error`. */
  lemma DefaultLevelIsError()
    ensures LoggingEnabled(Defaults.logLevel)
    ensures LoggerMethod(Lower(Defaults.logLevel.value)) == Some(Error)
  {
  }

  /** With the defaults, an `Exception` is logged at ERROR and re-raised,
      and nothing else happens. */
  lemma DefaultsLogAndReraise<V>(name: string, e: Exc)
    requires "Exception" in e.classes
    ensures Handle<V>(Defaults, name, Threw(e)) == (Raises(e), [Log(Error, ErrorMessage(name, e))])
  {
    var i :| 0 <= i < |e.classes| && e.classes[i] == "Exception";
    assert Catches(Defaults.catch, e);
    DefaultLevelIsError();
    assert ExceptClause(Defaults, name, e) == Raising(e, [Log(Error, ErrorMessage(name, e))]);
  }

  /** With the defaults, an exception outside the `Exception` hierarchy
      (a `KeyboardInterrupt`, say) is not touched. */
  lemma DefaultsIgnoreBaseExceptions<V>(name: string, e: Exc)
    requires "Exception" !in e.classes
    ensures Handle<V>(Defaults, name, Threw(e)) == (Raises(e), [])
  {
  }

  /** The decorated function `wrapt` builds around `wrapped`. */
  datatype Wrapper = Wrapper(name: string, cfg: Config)

  /** What `safe(...)` returns: the decorator still waiting for its function
      (`safe(**options)`), or the decorated function (`safe(func, **options)`). */
  datatype SafeResult = Decorator(cfg: Config) | Decorated(wrapper: Wrapper)

  /** Applying the decorator returned by `safe(**options)` to a function. */
  function Decorate(cfg: Config, name: string): (w: Wrapper)
    ensures w.name == name && w.cfg == cfg
  {
    Wrapper(name, cfg)
  }

  /** `safe(func, **options)`: without a function, the decorator to apply
      later; with one, that decorator applied to it at once. */
  function SafeEntry(func: Option<string>, cfg: Config): (r: SafeResult)
    ensures r.Decorated? <==> func.Some?
    ensures r.Decorator? ==> r.cfg == cfg
    ensures r.Decorated? ==> r.wrapper == Decorate(cfg, func.value)
  {
    if func.None? then Decorator(cfg) else Decorated(Decorate(cfg, func.value))
  }

  /** Whether the wrapped function is a coroutine function. */
  datatype CallKind = Sync | Async

  /** Calling a decorated function. For a coroutine function the wrapper
      returns a coroutine that awaits the wrapped call inside the same
      handler; `call` is then how that await ends, and the outcome is how
      awaiting the wrapper ends. */
  function Invoke<V>(w: Wrapper, kind: CallKind, call: CallResult<V>): (r: (Outcome<V>, seq<Effect>))
    ensures r == Handle(w.cfg, w.name, call)
  {
    match kind
    case Sync => Handle(w.cfg, w.name, call)
    case Async => Handle(w.cfg, w.name, call)
  }

  /** Bare `@safe` and `@safe()` decorate a function the same way. */
  lemma BareAndCalledDecoratorAgree<V>(name: string, kind: CallKind, call: CallResult<V>)
    ensures SafeEntry(Some(name), Defaults).Decorated?
    ensures SafeEntry(None, Defaults).Decorator?
    ensures Invoke(SafeEntry(Some(name), Defaults).wrapper, kind, call)
         == Invoke(Decorate(SafeEntry(None, Defaults).cfg, name), kind, call)
  {
  }
}
