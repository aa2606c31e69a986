# pedros: progress-bar backend selection and the `safe` decorator, in Dafny

pedros is a small Python convenience package. This project models its two
pieces of decision logic and proves what they promise.

**`progbar`** (`src/pedros/progress_bar.py`) wraps an iterable in a progress
bar. The caller asks for a backend by name: "auto", "rich", "tqdm" or "none".
`progbar` checks the name and looks at which optional library is installed.
It then hands the iterable to `rich.progress.track`, to `tqdm`, or back
unchanged, and logs warnings on the way. For `tqdm` it renames the keyword
`description` to `desc`. The model is the function `ProgressBar.Progbar`. Its
inputs are the iterable, the positional and keyword arguments, the backend
name and the two installed flags. It returns the display path taken
(`RichTrack`, `TqdmBar` or `Plain`) and the ordered list of warnings.

**`safe`** (`src/pedros/decorators/safe.py`) wraps a function in a context
manager. That context manager logs a caught exception and calls an optional
`on_error` callback. It then re-raises or suppresses the exception, and always
calls an optional `on_finally` callback. The model is `Safe.Handle`. Its
inputs are the options of `safe`, the wrapped function's name and how the
wrapped call ended. It returns how the decorated call ends for its caller
(`Returns(v)`, `ReturnsNone` or `Raises(e)`). It also returns the ordered
trace of effects: `Log(level, msg)`, `OnError(e)` and `OnFinally`.

`HandlerProgram` gives a second, independent account of the same handler. It
is a small interpreter for the Python statements the handler uses:
try/except/finally, `if`, bare `raise` and the generator's `yield`. The
handler's body is written as a program in that language, and the
context-manager `with` statement is modelled too. `HandlerProgram.HandleMatchesProgram`
proves that running this program gives exactly what `Safe.Handle` states.

Modules:
- `PyValues` (py_values.dfy): `X | None`, keyword-argument values, truthiness, `dict.get`.
- `AsciiCase` (ascii_case.dfy): `str.upper()` / `str.lower()` on ASCII letters.
- `ProgressBar` (progress_bar.py → progress_bar.dfy).
- `Safe` (safe.py → safe.dfy) and `HandlerProgram` (handler_program.dfy).

Some members are building blocks whose contracts only split their bodies
into cases; they carry no row of their own below, and the lemmas that use
them state what they are for:
- `PyValues.DictGet` (`kwargs.get(key)`) is used by `ProgressBar.TqdmKwargs`.
- `Safe.Decorate`, `Safe.SafeEntry` (`safe(func, **options)`) and
  `Safe.Invoke` (calling the decorated function, sync or async) are tied
  together by `Safe.BareAndCalledDecoratorAgree`. The sync and async paths
  run the same handler by construction.
- `HandlerProgram.ResumeWith` (resuming the generator at `yield`) and
  `HandlerProgram.WithStatement` (the `with` statement around the generator)
  are checked by `HandlerProgram.HandleMatchesProgram`.

## Model

| member | source | states |
|---|---|---|
| `ProgressBar.WarningText` | src/pedros/progress_bar.py:70-111 | the rejected backend name can be read back from the text of the invalid-name warning |
| `ProgressBar.WarningTextInjective` | src/pedros/progress_bar.py:70-111 | different warnings are logged with different texts |
| `AsciiCase.LowerChar` | src/pedros/decorators/safe.py:85 | a lower-cased character is never an upper-case letter. Other characters are left alone, and upper-casing undoes lower-casing on an upper-case letter |
| `ProgressBar.TqdmKwargs` | src/pedros/progress_bar.py:81-88 | with a truthy `description` and no `desc`, the result has `desc` = the old `description` and no `description` key. Every other key is unchanged and the key count is kept. Otherwise the map is passed on unchanged. A truthy `description` always leaves a `desc` |
| `ProgressBar.TqdmKwargsIdempotent` | src/pedros/progress_bar.py:83-88 | rewriting an already rewritten map changes nothing |
| `ProgressBar.NormaliseBackend` | src/pedros/progress_bar.py:68-71 | the name used afterwards is always allowed. A valid name is kept with no warning. An invalid one gets exactly one `InvalidBackend` warning naming it |
| `ProgressBar.Dispatch` | src/pedros/progress_bar.py:90-112 | "none" never draws a bar. An explicit "rich" or "tqdm" uses that library exactly when it is installed and never falls back to the other one. "auto" picks rich whenever it is installed and tqdm only when rich is absent. Rich receives the kwargs unchanged and tqdm receives `TqdmKwargs(kwargs)`. A warning is logged exactly on a fallback to no bar, and it is the warning for that case |
| `ProgressBar.Progbar` | src/pedros/progress_bar.py:36-112 | "none" returns the iterable itself with no warning. An invalid name is warned about exactly once, first. There are no warnings exactly when a valid name was met as asked, and never more than two |
| `ProgressBar.InvalidBackendActsAsAuto` | src/pedros/progress_bar.py:68-71 | an invalid name gives the display "auto" gives, with one `InvalidBackend` warning in front of auto's warnings |
| `AsciiCase.Upper` | src/pedros/decorators/safe.py:83 | `upper()` keeps the length and upper-cases each character on its own |
| `AsciiCase.Lower` | src/pedros/decorators/safe.py:85 | `lower()` keeps the length and lower-cases each character on its own |
| `AsciiCase.UpperEqualIffEqualIgnoringCase` | src/pedros/decorators/safe.py:83 | two strings have the same `upper()` exactly when they agree ignoring case |
| `Safe.LoggerMethod` | src/pedros/decorators/safe.py:85 | `getattr(logger, name)` selects DEBUG for "debug", INFO for "info", WARNING for "warning" and "warn", ERROR for "error" and "exception", and CRITICAL for "critical" and "fatal". Every other name has no logging method |
| `Safe.LoggingEnabledIff` | src/pedros/decorators/safe.py:83 | logging is off for `None`, for "" and for "NONE" in any letter case, and on for every other level |
| `Safe.DefaultLevelIsError` | src/pedros/decorators/safe.py:36-44 | the default level "ERROR" turns logging on and selects `logger.error` |
| `Safe.ExceptClause` | src/pedros/decorators/safe.py:82-91 | an unknown level name makes the clause raise `AttributeError` with no effects. Otherwise the clause raises exactly when `re_raise` is set, and it raises the caught exception itself. The log record comes first, only when logging is on, at the level `log_level` selects and with message "Error in <name>: <str(e)>". `on_error` gets the caught exception, after the log and last |
| `Safe.Handle` | src/pedros/decorators/safe.py:78-94 | `on_finally` runs exactly once when given, as the last effect, on every path. A normal return passes the value through with no log and no `on_error`. An exception outside `catch` propagates unchanged with no log and no `on_error`. A caught exception is re-raised as itself with `re_raise`, or suppressed to `None`. The log comes first and `on_error` comes after it and before `on_finally` |
| `Safe.DefaultsLogAndReraise` | src/pedros/decorators/safe.py:36-44 | with the defaults, an `Exception` is logged once at ERROR and then re-raised, with nothing else happening |
| `Safe.DefaultsIgnoreBaseExceptions` | src/pedros/decorators/safe.py:36-44 | with the defaults, an exception outside the `Exception` hierarchy propagates untouched with no effects |
| `Safe.BareAndCalledDecoratorAgree` | src/pedros/decorators/safe.py:106-108 | bare `@safe` and `@safe()` decorate a function the same way, sync or async |
| `HandlerProgram.ExceptBodyIsExceptClause` | src/pedros/decorators/safe.py:82-91 | the `except` clause run as Python statements does what `Safe.ExceptClause` states |
| `HandlerProgram.FinallyBodyIsFinallyTrace` | src/pedros/decorators/safe.py:92-94 | the `finally` clause never raises and calls `on_finally` exactly when it is given |
| `HandlerProgram.FinallyRunsLast` | src/pedros/decorators/safe.py:80-94 | in any try/except/finally, the `finally` clause's effects come last, and an exception it raises replaces any pending one |
| `HandlerProgram.HandleMatchesProgram` | src/pedros/decorators/safe.py:78-104 | running the handler program inside the `with` statement gives exactly the outcome and effect trace of `Safe.Handle`, for every configuration and every call result |

## Left out

- Rendering by `rich.progress.track` and `tqdm`: these are foreign libraries. The model records only which one is called and with what arguments.
- `check_dependency` (`pedros.dependency_check`) is not part of this model. Its answers are the two `Installed` flags, which are taken to be stable across the repeated probes (the probe caches them).
- Python dict order and identity: keyword maps are values. The caller's map is never altered, because `_tqdm` renames on a copy. Aliasing between the caller's map and the one passed to `rich` or `tqdm` is not modelled.
- Truthiness of arbitrary objects: a `description` value that is not `None`, bool, int, str or list is taken as truthy. Objects that define `__bool__` or `__len__` are not modelled.
- The logger (`src/pedros/logger.py`) and the logging configuration: log records are effects in a trace. The `exc_info=True` traceback attached to the record is not modelled.
- `Safe.LoggerMethod`: the other lower-case attributes of a logger (`log`, `handle`, `filter`, `name`, ...) are treated like missing ones. In Python they would be called or fail with a different error.
- Non-ASCII case mapping: `upper()`/`lower()` only map ASCII letters. This decides the "NONE" test and the method lookup exactly as Python does. The text of the `AttributeError` message can differ for non-ASCII level names.
- A wrapped callable without `__name__` (a `functools.partial`, say) makes building the log message raise `AttributeError` before logging and before `on_error`. The model takes the name as a string and does not capture that path.
- Exceptions raised by `on_error` or `on_finally` themselves, and the values those callbacks return.
- `on_error` and `on_finally` are present or absent. A callable whose truth value is false is not modelled.
- `wrapt` instance binding, `inspect.iscoroutinefunction` and async scheduling. `Safe.Invoke` takes the sync/async distinction as an input, and the coroutine is modelled by how awaiting it ends.
- `src/pedros/decorators/universal_decorator.py`, `src/pedros/__init__.py` and `src/pedros/__main__.py`: a pass-through decorator template, imports, and start-up logging.
- The timing decorator and its duration formatting: its source is not part of this model.
- The progress-bar tests call `progbar()` with no arguments. The modelled signature does not accept that, so the tests are not reflected.
