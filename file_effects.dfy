/** The filesystem side of the save routines, as effects. What the filesystem
    does with a request is an input: a function that says which exception, if
    any, attempting an effect raises. A run of a save routine is the list of
    effects it attempted, the handler that caught an exception (if one did),
    and how the call ended. */
module FileEffects {
  import opened PyRuntime
  import opened UserModel

  datatype Effect =
    /** `Path(file).parent.mkdir(parents=True, exist_ok=True)` */
    | MakeParentDirs(file: string)
    /** `os.makedirs(dir, exist_ok=True)` */
    | MakeDirs(dir: string)
    /** `open(file, 'w')` and `json.dump(payload, f, indent=2)` */
    | WriteJson(file: string, payload: seq<FieldMap>)

  /** What attempting each effect raises, `None` when it succeeds. */
  type FileSystem = Effect -> Option<Exc>

  predicate AllSucceed(steps: seq<Effect>, fs: FileSystem) {
    forall k :: 0 <= k < |steps| ==> fs(steps[k]).None?
  }

  datatype Attempted = Attempted(ran: seq<Effect>, failure: Option<Exc>)

  /** Attempting `steps[from..]` in order, the steps before `from` having
      succeeded. */
  function AttemptFrom(steps: seq<Effect>, fs: FileSystem, from: nat): (a: Attempted)
    requires from <= |steps|
    requires forall k :: 0 <= k < from ==> fs(steps[k]).None?
    ensures a.ran <= steps
    ensures a.failure.None? <==> AllSucceed(steps, fs)
    ensures a.failure.None? ==> a.ran == steps
    ensures a.failure.Some? ==>
      |a.ran| > 0 && fs(a.ran[|a.ran| - 1]) == a.failure && AllSucceed(a.ran[..|a.ran| - 1], fs)
    decreases |steps| - from
  {
    if from == |steps| then Attempted(steps, None)
    else match fs(steps[from])
      case Some(e) => Attempted(steps[..from + 1], Some(e))
      case None => AttemptFrom(steps, fs, from + 1)
  }

  /** Attempting `steps` in order inside one `try`: the first one that raises
      ends the block. */
  function Attempt(steps: seq<Effect>, fs: FileSystem): (a: Attempted)
    ensures a.ran <= steps
    ensures a.failure.None? <==> AllSucceed(steps, fs)
    ensures a.failure.None? ==> a.ran == steps
    ensures a.failure.Some? ==>
      |a.ran| > 0 && fs(a.ran[|a.ran| - 1]) == a.failure && AllSucceed(a.ran[..|a.ran| - 1], fs)
  {
    AttemptFrom(steps, fs, 0)
  }

  /** How a save routine's call ended, with the handler that caught an
      exception inside its `try` and that exception. */
  datatype Run = Run(effects: seq<Effect>, caught: Option<(Handler, Exc)>, outcome: Outcome)

  /** The file written by a run, with its payload, when the write succeeded. */
  predicate Wrote(run: Run, file: string, payload: seq<FieldMap>) {
    run.outcome.Normal? && run.caught.None? && |run.effects| > 0
    && run.effects[|run.effects| - 1] == WriteJson(file, payload)
  }
}
