/** A second, independent account of `_handle_exception`: a small
    interpreter for the Python statements the handler is written with
    (`try`/`except`/`finally`, `if`, bare `raise`, the generator's single
    `yield`), the handler's body written as a program of that language, and
    the `with` statement that `contextlib.contextmanager` turns it into.
    The lemma at the end proves that running this program gives exactly
    what `Safe.Handle` states. */
module HandlerProgram {
  import opened PyValues
  import opened AsciiCase
  import opened Safe

  /** The conditions the handler tests; each reads one keyword argument of `safe`. */
  datatype Cond =
    | LevelEnabled      // log_level and log_level.upper() != "NONE"
    | OnErrorGiven      // on_error
    | ReRaiseSet        // re_raise
    | OnFinallyGiven    // on_finally

  /** The statements the handler is made of. The `except` clause of a
      `TryExceptFinally` catches the types in `safe`'s `catch`. */
  datatype Stmt =
    | Pass
    | Yield                                  // the with-block: the wrapped call
    | Seq(first: Stmt, second: Stmt)
    | If(cond: Cond, body: Stmt)
    | LogCaught                              // getattr(logger, log_level.lower())(log_msg, exc_info=True)
    | CallOnError                            // on_error(e)
    | CallOnFinally                          // on_finally()
    | Reraise                                // raise
    | TryExceptFinally(body: Stmt, handler: Stmt, final: Stmt)

  /** What a statement runs against: the options of `safe`, the wrapped
      function's name, how the with-block ends (the exception it raises, if
      any) and the exception the enclosing `except` clause is handling. */
  datatype Env = Env(cfg: Config, name: string, resume: Option<Exc>, handling: Option<Exc>)

  /** A built-in exception class directly below `Exception`. */
  function BuiltinError(cls: string, message: string): Exc {
    Exc([cls, "Exception", "BaseException"], message)
  }

  predicate Holds(c: Cond, cfg: Config) {
    match c
    case LevelEnabled => LoggingEnabled(cfg.logLevel)
    case OnErrorGiven => cfg.onError
    case ReRaiseSet => cfg.reRaise
    case OnFinallyGiven => cfg.onFinally
  }

  /** Effects produced before a block are kept in front of the block's own. */
  function Prefixed(t: seq<Effect>, f: Flow): (g: Flow)
    ensures g.trace == t + f.trace
    ensures g.Raising? <==> f.Raising?
    ensures g.Raising? ==> g.exc == f.exc
  {
    match f
    case Completed(u) => Completed(t + u)
    case Raising(x, u) => Raising(x, t + u)
  }

  /** Effects produced after a block are kept behind the block's own, and
      the block still ends the way it did. */
  function Suffixed(f: Flow, t: seq<Effect>): (g: Flow)
    ensures g.trace == f.trace + t
    ensures g.Raising? <==> f.Raising?
    ensures g.Raising? ==> g.exc == f.exc
  {
    match f
    case Completed(u) => Completed(u + t)
    case Raising(x, u) => Raising(x, u + t)
  }

  /** Python's meaning of each statement. */
  function Exec(s: Stmt, env: Env): Flow
    decreases s
  {
    match s
    case Pass => Completed([])
    case Yield =>
      if env.resume.Some? then Raising(env.resume.value, []) else Completed([])
    case Seq(first, second) =>
      var f := Exec(first, env);
      if f.Raising? then f else Prefixed(f.trace, Exec(second, env))
    case If(cond, body) =>
      if Holds(cond, env.cfg) then Exec(body, env) else Completed([])
    case LogCaught =>
      if env.handling.None? then
        Raising(Exc(["UnboundLocalError", "NameError", "Exception", "BaseException"],
                    "cannot access local variable 'e' where it is not associated with a value"), [])
      else if env.cfg.logLevel.None? then
        Raising(BuiltinError("AttributeError", "'NoneType' object has no attribute 'lower'"), [])
      else
        (match LoggerMethod(Lower(env.cfg.logLevel.value))
         case None => Raising(MissingLoggerMethod(Lower(env.cfg.logLevel.value)), [])
         case Some(level) => Completed([Log(level, ErrorMessage(env.name, env.handling.value))]))
    case CallOnError =>
      if env.handling.None? then
        Raising(Exc(["UnboundLocalError", "NameError", "Exception", "BaseException"],
                    "cannot access local variable 'e' where it is not associated with a value"), [])
      else if !env.cfg.onError then
        Raising(BuiltinError("TypeError", "'NoneType' object is not callable"), [])
      else
        Completed([OnError(env.handling.value)])
    case CallOnFinally =>
      if !env.cfg.onFinally then
        Raising(BuiltinError("TypeError", "'NoneType' object is not callable"), [])
      else
        Completed([OnFinally])
    case Reraise =>
      if env.handling.None? then
        Raising(BuiltinError("RuntimeError", "No active exception to reraise"), [])
      else
        Raising(env.handling.value, [])
    case TryExceptFinally(body, handler, final) =>
      var b := Exec(body, env);
      var h :=
        if b.Raising? && Catches(env.cfg.catch, b.exc) then
          Prefixed(b.trace, Exec(handler, env.(handling := Some(b.exc))))
        else
          b;
      var f := Exec(final, env);
      if f.Raising? then Raising(f.exc, h.trace + f.trace) else Suffixed(h, f.trace)
  }

  /** The `finally` clause of a try statement always runs, after everything
      else, and an exception it raises replaces whatever was pending. */
  lemma FinallyRunsLast(body: Stmt, handler: Stmt, final: Stmt, env: Env)
    ensures var t := Exec(TryExceptFinally(body, handler, final), env);
            var f := Exec(final, env);
            |t.trace| >= |f.trace| && t.trace[|t.trace| - |f.trace|..] == f.trace
            && (f.Raising? ==> t == Raising(f.exc, t.trace))
  {
  }

  /** The `except catch as e:` clause of `_handle_exception`. */
  const ExceptBody: Stmt :=
    Seq(If(LevelEnabled, LogCaught),
        Seq(If(OnErrorGiven, CallOnError),
            If(ReRaiseSet, Reraise)))

  /** The `finally:` clause of `_handle_exception`. */
  const FinallyBody: Stmt := If(OnFinallyGiven, CallOnFinally)

  /** The body of `_handle_exception`, statement for statement. */
  const HandleException: Stmt := TryExceptFinally(Yield, ExceptBody, FinallyBody)

  /** How the with-block's exception, if any, is handed to the generator. */
  function ResumeWith<V>(call: CallResult<V>): (r: Option<Exc>)
    ensures r.Some? <==> call.Threw?
    ensures r.Some? ==> r.value == call.exc
  {
    match call
    case Returned(_) => None
    case Threw(e) => Some(e)
  }

  /** `with _handle_exception(): return wrapped(...)`: an exception leaving
      the generator propagates; a generator that finishes after the
      with-block raised suppresses that exception, so the function falls off
      its end and returns None; otherwise the wrapped call's value is
      returned. */
  function WithStatement<V>(call: CallResult<V>, generator: Flow): (r: Outcome<V>)
    ensures generator.Raising? ==> r == Raises(generator.exc)
    ensures generator.Completed? && call.Returned? ==> r == Returns(call.value)
    ensures generator.Completed? && call.Threw? ==> r == ReturnsNone
  {
    match generator
    case Raising(x, _) => Raises(x)
    case Completed(_) =>
      match call
      case Returned(v) => Returns(v)
      case Threw(_) => ReturnsNone
  }

  /** The `except` clause as a program does what `Safe.ExceptClause` states. */
  lemma ExceptBodyIsExceptClause(cfg: Config, name: string, resume: Option<Exc>, e: Exc)
    ensures Exec(ExceptBody, Env(cfg, name, resume, Some(e))) == ExceptClause(cfg, name, e)
  {
  }

  /** The `finally` clause as a program never raises and produces
      `Safe.FinallyTrace`. */
  lemma FinallyBodyIsFinallyTrace(env: Env)
    ensures Exec(FinallyBody, env) == Completed(FinallyTrace(env.cfg))
  {
  }

  /** Running the handler program around the wrapped call gives exactly the
      outcome and the effect trace `Safe.Handle` states. */
  lemma {:induction false} HandleMatchesProgram<V>(cfg: Config, name: string, call: CallResult<V>)
    ensures var g := Exec(HandleException, Env(cfg, name, ResumeWith(call), None));
            Handle(cfg, name, call) == (WithStatement(call, g), g.trace)
  {
    var env := Env(cfg, name, ResumeWith(call), None);
    var g := Exec(HandleException, env);
    FinallyBodyIsFinallyTrace(env);
    match call
    case Returned(v) =>
      assert Exec(Yield, env) == Completed([]);
      assert [] + FinallyTrace(cfg) == FinallyTrace(cfg);
      assert g == Completed(FinallyTrace(cfg));
    case Threw(e) =>
      assert Exec(Yield, env) == Raising(e, []);
      if Catches(cfg.catch, e) {
        var x := ExceptClause(cfg, name, e);
        ExceptBodyIsExceptClause(cfg, name, ResumeWith(call), e);
        assert Exec(ExceptBody, env.(handling := Some(e))) == x;
        assert [] + x.trace == x.trace;
        assert g == Suffixed(x, FinallyTrace(cfg));
      } else {
        assert g == Raising(e, FinallyTrace(cfg));
      }
  }
}
