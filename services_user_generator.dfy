/** `src/services/user_generator.py`: the batch generator and the save routine
    the command-line front end calls. The save routine checks `count` before
    its `try`, and inside the `try` it turns every exception into an
    `IOError` or a bare `Exception` carrying the original message. */
module UserGenerator {
  import opened PyRuntime
  import opened UserModel
  import opened FileEffects

  const DEFAULT_USER_COUNT: int := 10
  const DEFAULT_OUTPUT_FILE: string := "users.json"

  const COUNT_ERROR: string := "Count must be a positive integer"

  /** `generate_faker_users(count)`: a non-positive count raises `ValueError`
      before any record is built; otherwise exactly `count` fresh records,
      the i-th built from the i-th draw. */
  function GenerateFakerUsers(count: int := DEFAULT_USER_COUNT, draw: nat -> Draw): (r: Result<seq<User>>)
    ensures r.Err? <==> count <= 0
    ensures r.Err? ==> r.exc == ValueError(COUNT_ERROR)
    ensures r.Ok? ==> |r.value| == count
    ensures r.Ok? ==> forall i :: 0 <= i < count ==> r.value[i] == FakerUser(draw(i)) && Invariant(CONFIG, r.value[i])
  {
    if count <= 0 then Err(ValueError(COUNT_ERROR))
    else Ok(Batch(CONFIG, count, draw))
  }

  /** `generate_faker_users()` with no argument builds DEFAULT_USER_COUNT = 10 records. */
  lemma DefaultCountIsTen(draw: nat -> Draw)
    ensures GenerateFakerUsers(draw := draw).Ok?
    ensures |GenerateFakerUsers(draw := draw).value| == 10
  {
  }

  /** The exception the save routine raises in place of `e`. */
  function Wrap(e: Exc): (w: Exc)
    ensures HandlerFor(e) == IOErrorHandler ==> w == IOError("Error saving user data: " + Str(e))
    ensures HandlerFor(e) == GenericHandler ==> w == Exception("Unexpected error: " + Str(e))
  {
    match HandlerFor(e)
    case IOErrorHandler => IOError("Error saving user data: " + Str(e))
    case GenericHandler => Exception("Unexpected error: " + Str(e))
  }

  /** The effects the `try` block attempts for a payload: the parent
      directory first, then the one write of the payload. */
  function SaveSteps(outputFile: string, payload: seq<FieldMap>): (steps: seq<Effect>)
    ensures |steps| == 2 && steps[|steps| - 1] == WriteJson(outputFile, payload)
    ensures forall k :: 0 <= k < |steps| - 1 ==> steps[k] == MakeParentDirs(outputFile)
  {
    [MakeParentDirs(outputFile), WriteJson(outputFile, payload)]
  }

  /** `save_users_to_file(count, output_file)`. */
  function SaveUsersToFile(count: int, outputFile: string := DEFAULT_OUTPUT_FILE, draw: nat -> Draw, fs: FileSystem): (run: Run)
    // the ValueError escapes unwrapped and nothing is touched
    ensures count <= 0 ==> run == Run([], None, Raised(ValueError(COUNT_ERROR)))
    // inside the try nothing escapes unwrapped
    ensures count > 0 && run.outcome.Raised? ==>
      run.caught.Some? && run.outcome.exc == Wrap(run.caught.value.1)
      && (run.outcome.exc.IOError? || run.outcome.exc.Exception?)
    // what is caught is what the last attempted effect raised
    ensures count > 0 && run.caught.Some? ==>
      |run.effects| > 0 && fs(run.effects[|run.effects| - 1]) == Some(run.caught.value.1)
      && run.caught.value.0 == HandlerFor(run.caught.value.1)
    ensures count > 0 ==> run.effects <= SaveSteps(outputFile, Payload(Batch(CONFIG, count, draw)))
    ensures count > 0 ==>
      (run.outcome.Normal? <==> AllSucceed(SaveSteps(outputFile, Payload(Batch(CONFIG, count, draw))), fs))
    // a normal return has made the directory and written the whole payload
    ensures count > 0 && run.outcome.Normal? ==>
      run.caught.None? && run.effects == SaveSteps(outputFile, Payload(Batch(CONFIG, count, draw)))
    // the try stops at the first effect that raises
    ensures count > 0 && |run.effects| > 0 ==> AllSucceed(run.effects[..|run.effects| - 1], fs)
  {
    if count <= 0 then
      Run([], None, Raised(ValueError(COUNT_ERROR)))
    else
      match GenerateFakerUsers(count, draw)
      case Err(e) => Run([], Some((HandlerFor(e), e)), Raised(Wrap(e)))
      case Ok(users) =>
        var a := Attempt(SaveSteps(outputFile, Payload(users)), fs);
        match a.failure
        case None => Run(a.ran, None, Normal)
        case Some(e) => Run(a.ran, Some((HandlerFor(e), e)), Raised(Wrap(e)))
  }

  /** The payload the routine writes: one field map per generated record, in
      generation order, and reading it back gives those records. */
  lemma SavedPayload(count: nat, draw: nat -> Draw)
    ensures var p := Payload(Batch(CONFIG, count, draw));
      && |p| == count
      && (forall i :: 0 <= i < count ==> p[i] == GetJson(FakerUser(draw(i))))
      && ParsePayload(p) == Some(Batch(CONFIG, count, draw))
  {
    PayloadRoundTrip(Batch(CONFIG, count, draw));
  }

  /** When the filesystem accepts every request, the routine creates the
      parent directory and then writes the payload. */
  lemma SaveWritesEveryUser(count: int, outputFile: string, draw: nat -> Draw, fs: FileSystem)
    requires count > 0
    requires forall e :: fs(e).None?
    ensures SaveUsersToFile(count, outputFile, draw, fs)
      == Run([MakeParentDirs(outputFile), WriteJson(outputFile, Payload(Batch(CONFIG, count, draw)))], None, Normal)
  {
    assert AllSucceed(SaveSteps(outputFile, Payload(Batch(CONFIG, count, draw))), fs);
  }

  /** `save_users_to_file(10)`, the call the command-line front end makes
      with its own default count: ten users written to the default file,
      `users.json`. */
  lemma TenUsersToDefaultFile(draw: nat -> Draw, fs: FileSystem)
    requires forall e :: fs(e).None?
    ensures var run := SaveUsersToFile(10, draw := draw, fs := fs);
      Wrote(run, "users.json", Payload(Batch(CONFIG, 10, draw)))
  {
    SaveWritesEveryUser(10, DEFAULT_OUTPUT_FILE, draw, fs);
  }
}
