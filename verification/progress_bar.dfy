/** `progbar`: wrap an iterable in a progress bar drawn by `rich` or by
    `tqdm`, or hand it back untouched. The rendering libraries are opaque:
    the model says which of them is called and with which positional and
    keyword arguments, and which warnings are logged on the way. Whether a
    library is installed (the dependency probe) is an input. */
module ProgressBar {
  import opened PyValues

  /** The backend names `progbar` accepts. */
  const Allowed: set<string> := {"auto", "rich", "tqdm", "none"}

  /** What the dependency probe reports for the two optional libraries. */
  datatype Installed = Installed(rich: bool, tqdm: bool)

  /** The warnings `progbar` logs. */
  datatype Warning =
    | InvalidBackend(requested: string)
    | RichMissing
    | TqdmMissing
    | NoLibrary

  /** The text each warning is logged with. The rejected name can be read
      back from the text of an `InvalidBackend` warning. */
  function WarningText(w: Warning): (msg: string)
    ensures w.InvalidBackend? ==> |msg| == 17 + |w.requested| + 24 && msg[17..|msg| - 24] == w.requested
  {
    match w
    case InvalidBackend(requested) => "Invalid backend '" + requested + "'. Using 'auto' instead."
    case RichMissing => "backend='rich' requested but 'rich' is not installed. Falling back to 'none'."
    case TqdmMissing => "backend='tqdm' requested but 'tqdm' is not installed. Falling back to 'none'."
    case NoLibrary => "No progress bar library found. Install either 'rich' or 'tqdm'."
  }

  /** What `progbar` returns: the iterable handed to `rich.progress.track`,
      the iterable handed to `tqdm`, or the iterable itself. */
  datatype Display<T> =
    | RichTrack(items: T, args: seq<Value>, kwargs: map<string, Value>)
    | TqdmBar(items: T, args: seq<Value>, kwargs: map<string, Value>)
    | Plain(items: T)

  /** The condition under which `_tqdm` renames `description` to `desc`:
      a truthy `description` and no `desc` of the caller's own. */
  predicate RenamesDescription(kwargs: map<string, Value>) {
    Truthy(DictGet(kwargs, "description")) && "desc" !in kwargs
  }

  /** The keyword arguments `_tqdm` passes on to `tqdm`. On a rename the
      result is a fresh map, so the caller's map is left as it was. */
  function TqdmKwargs(kwargs: map<string, Value>): (r: map<string, Value>)
    ensures RenamesDescription(kwargs) ==>
      && "description" !in r
      && "desc" in r && r["desc"] == kwargs["description"]
      && r.Keys == kwargs.Keys - {"description"} + {"desc"}
      && |r| == |kwargs|
      && forall k :: k in r && k != "desc" ==> k in kwargs && r[k] == kwargs[k]
    ensures !RenamesDescription(kwargs) ==> r == kwargs
    ensures Truthy(DictGet(kwargs, "description")) ==> "desc" in r
  {
    if RenamesDescription(kwargs) then
      var copy := kwargs - {"description"};
      copy["desc" := kwargs["description"]]
    else
      kwargs
  }

  /** progress_bar.py lines 68-71: a name outside `Allowed` is replaced by "auto", with a warning. */
  function NormaliseBackend(backend: string): (r: (string, seq<Warning>))
    ensures r.0 in Allowed
    ensures backend in Allowed ==> r.0 == backend
    ensures r.1 == [] <==> backend in Allowed
    ensures forall w :: w in r.1 ==> w == InvalidBackend(backend)
    ensures |r.1| <= 1
  {
    if backend !in Allowed then ("auto", [InvalidBackend(backend)]) else (backend, [])
  }

  /** progress_bar.py lines 90-112: dispatch on a backend name that has been validated. */
  function Dispatch<T>(iterable: T, args: seq<Value>, backend: string, installed: Installed,
                       kwargs: map<string, Value>): (r: (Display<T>, seq<Warning>))
    requires backend in Allowed
    // what each display path receives
    ensures r.0.Plain? ==> r.0.items == iterable
    ensures r.0.RichTrack? ==> r.0 == RichTrack(iterable, args, kwargs) && installed.rich
    ensures r.0.TqdmBar? ==> r.0 == TqdmBar(iterable, args, TqdmKwargs(kwargs)) && installed.tqdm
    // "none" never draws a bar, whatever is installed
    ensures backend == "none" ==> r.0.Plain?
    // an explicit request is met by that library or by nothing: never by the other one
    ensures backend == "rich" ==> !r.0.TqdmBar? && (r.0.RichTrack? <==> installed.rich)
    ensures backend == "tqdm" ==> !r.0.RichTrack? && (r.0.TqdmBar? <==> installed.tqdm)
    // "auto" prefers rich and takes tqdm only when rich is absent
    ensures backend == "auto" ==> (r.0.RichTrack? <==> installed.rich)
    ensures backend == "auto" ==> (r.0.TqdmBar? <==> !installed.rich && installed.tqdm)
    // a warning is logged exactly on a fallback to no bar
    ensures r.1 == [] <==> (r.0.Plain? ==> backend == "none")
    ensures r.1 != [] ==> r.1 == [if backend == "rich" then RichMissing
                                  else if backend == "tqdm" then TqdmMissing
                                  else NoLibrary]
  {
    if backend == "none" then
      (Plain(iterable), [])
    else if backend == "rich" then
      if !installed.rich then (Plain(iterable), [RichMissing])
      else (RichTrack(iterable, args, kwargs), [])
    else if backend == "tqdm" then
      if !installed.tqdm then (Plain(iterable), [TqdmMissing])
      else (TqdmBar(iterable, args, TqdmKwargs(kwargs)), [])
    else if installed.rich then
      (RichTrack(iterable, args, kwargs), [])
    else if installed.tqdm then
      (TqdmBar(iterable, args, TqdmKwargs(kwargs)), [])
    else
      (Plain(iterable), [NoLibrary])
  }

  /** `progbar(iterable, *args, backend=backend, **kwargs)`: the display it
      returns and the warnings it logs, in order. */
  function Progbar<T>(iterable: T, args: seq<Value>, backend: string, installed: Installed,
                      kwargs: map<string, Value>): (r: (Display<T>, seq<Warning>))
    ensures r.0.Plain? ==> r.0.items == iterable
    ensures r.0.RichTrack? ==> r.0 == RichTrack(iterable, args, kwargs)
    ensures r.0.TqdmBar? ==> r.0 == TqdmBar(iterable, args, TqdmKwargs(kwargs))
    ensures backend == "none" ==> r == (Plain(iterable), [])
    // an invalid name is reported once, first, and only then
    ensures backend !in Allowed ==> |r.1| >= 1 && r.1[0] == InvalidBackend(backend)
    ensures forall i :: 0 <= i < |r.1| && r.1[i].InvalidBackend? ==> i == 0 && backend !in Allowed
    // no warning at all exactly when a valid name was met as asked
    ensures r.1 == [] <==> backend in Allowed && (r.0.Plain? ==> backend == "none")
    ensures |r.1| <= 2
  {
    var (name, invalid) := NormaliseBackend(backend);
    var (display, fallback) := Dispatch(iterable, args, name, installed, kwargs);
    (display, invalid + fallback)
  }

  /** An invalid backend name costs one warning and is otherwise "auto". */
  lemma InvalidBackendActsAsAuto<T>(iterable: T, args: seq<Value>, backend: string,
                                    installed: Installed, kwargs: map<string, Value>)
    requires backend !in Allowed
    ensures Progbar(iterable, args, backend, installed, kwargs).0
         == Progbar(iterable, args, "auto", installed, kwargs).0
    ensures Progbar(iterable, args, backend, installed, kwargs).1
         == [InvalidBackend(backend)] + Progbar(iterable, args, "auto", installed, kwargs).1
  {
  }

  /** Rewriting the keyword arguments a second time changes nothing: after
      a rename `desc` is present, so `_tqdm` leaves the map alone. */
  lemma TqdmKwargsIdempotent(kwargs: map<string, Value>)
    ensures TqdmKwargs(TqdmKwargs(kwargs)) == TqdmKwargs(kwargs)
  {
  }

  /** Different warnings are logged with different texts, so the log tells
      every warning, and every rejected name, apart. */
  lemma WarningTextInjective(w1: Warning, w2: Warning)
    ensures WarningText(w1) == WarningText(w2) ==> w1 == w2
  {
  }
}
