/** `src/user.py`: the older stand-alone script. Its record class writes the
    constants as literals, its generator has no type check, and its save
    routine checks `count` inside the `try`, creates a directory only for a
    path that has one, and reports every exception without re-raising it. */
module UserScript {
  import opened PyRuntime
  import opened PyText
  import opened UserModel
  import opened FileEffects

  /** The literals the constructor samples with. */
  const CONFIG: Config := Config(18, 99, 12, ["male", "female", "other"])

  const COUNT_ERROR: string := "Count must be a positive integer"
  const DEFAULT_OUTPUT_FILE: string := "user_fake.json"
  const MAIN_USER_COUNT: int := 10

  /** This file's `FakerUser()`. */
  function FakerUser(d: Draw): (u: User)
    ensures Invariant(CONFIG, u)
    ensures 18 <= u.age <= 99 && u.gender in ["male", "female", "other"] && |u.password| == 12
  {
    NewUser(CONFIG, d)
  }

  /** The literals are the constants of `src/models/user.py`, so this copy
      builds the same record from the same draw. */
  lemma CopiesAgree(d: Draw)
    ensures FakerUser(d) == UserModel.FakerUser(d)
  {
  }

  /** `generate_faker_users(count)`: only `count <= 0` is rejected. */
  function GenerateFakerUsers(count: int := 10, draw: nat -> Draw): (r: Result<seq<User>>)
    ensures r.Err? <==> count <= 0
    ensures r.Err? ==> r.exc == ValueError(COUNT_ERROR)
    ensures r.Ok? ==> |r.value| == count
    ensures r.Ok? ==> forall i :: 0 <= i < count ==> r.value[i] == FakerUser(draw(i)) && Invariant(CONFIG, r.value[i])
  {
    if count <= 0 then Err(ValueError(COUNT_ERROR))
    else Ok(Batch(CONFIG, count, draw))
  }

  /** `generate_faker_users()` with no argument builds the default count, 10, records. */
  lemma DefaultCountIsTen(draw: nat -> Draw)
    ensures GenerateFakerUsers(draw := draw).Ok?
    ensures |GenerateFakerUsers(draw := draw).value| == 10
  {
  }

  /** The effects the `try` block attempts: `os.makedirs` only when the path
      names a directory, then the write. */
  function SaveSteps(outputFile: string, payload: seq<FieldMap>): (steps: seq<Effect>)
    ensures 0 < |steps| <= 2 && steps[|steps| - 1] == WriteJson(outputFile, payload)
    ensures |steps| == 2 <==> '/' in outputFile
    ensures |steps| == 2 ==> steps[0] == MakeDirs(Dirname(outputFile)) && Dirname(outputFile) != []
  {
    var dir := Dirname(outputFile);
    if dir != [] then [MakeDirs(dir), WriteJson(outputFile, payload)]
    else [WriteJson(outputFile, payload)]
  }

  /** `input_user_data(count, output_file)`: nothing escapes it. */
  function InputUserData(count: int, outputFile: string := DEFAULT_OUTPUT_FILE, draw: nat -> Draw, fs: FileSystem): (run: Run)
    ensures run.outcome == Normal
    // the count check raises inside the try and the generic handler reports it
    ensures count <= 0 ==> run == Run([], Some((GenericHandler, ValueError(COUNT_ERROR))), Normal)
    ensures count > 0 ==> run.effects <= SaveSteps(outputFile, Payload(Batch(CONFIG, count, draw)))
    ensures count > 0 ==>
      (run.caught.None? <==> AllSucceed(SaveSteps(outputFile, Payload(Batch(CONFIG, count, draw))), fs))
    // nothing reported means every planned effect was attempted
    ensures count > 0 && run.caught.None? ==>
      run.effects == SaveSteps(outputFile, Payload(Batch(CONFIG, count, draw)))
    // the try stops at the first effect that raises
    ensures count > 0 && |run.effects| > 0 ==> AllSucceed(run.effects[..|run.effects| - 1], fs)
    // what is reported is what the last attempted effect raised
    ensures count > 0 && run.caught.Some? ==>
      |run.effects| > 0 && fs(run.effects[|run.effects| - 1]) == Some(run.caught.value.1)
      && run.caught.value.0 == HandlerFor(run.caught.value.1)
  {
    if count <= 0 then
      var e := ValueError(COUNT_ERROR);
      Run([], Some((HandlerFor(e), e)), Normal)
    else
      match GenerateFakerUsers(count, draw)
      case Err(e) => Run([], Some((HandlerFor(e), e)), Normal)
      case Ok(users) =>
        var a := Attempt(SaveSteps(outputFile, Payload(users)), fs);
        match a.failure
        case None => Run(a.ran, None, Normal)
        case Some(e) => Run(a.ran, Some((HandlerFor(e), e)), Normal)
  }

  /** A directory is created exactly when the output path has a directory
      part, and then it is the first thing attempted. */
  lemma MakesDirsOnlyForSubdirectory(count: int, outputFile: string, draw: nat -> Draw, fs: FileSystem)
    requires count > 0
    ensures var run := InputUserData(count, outputFile, draw, fs);
      && |run.effects| > 0
      && (run.effects[0] == MakeDirs(Dirname(outputFile)) <==> '/' in outputFile)
      && (forall k :: 0 <= k < |run.effects| && run.effects[k].MakeDirs? ==> k == 0 && '/' in outputFile)
  {
    var steps := SaveSteps(outputFile, Payload(Batch(CONFIG, count, draw)));
    var run := InputUserData(count, outputFile, draw, fs);
    assert run.effects <= steps;
    if run.caught.None? {
      assert run.effects == steps;
    }
  }

  /** `main()`: ten users to `user_fake.json` in the working directory; it
      never raises and never creates a directory. */
  function RunMain(draw: nat -> Draw, fs: FileSystem): (run: Run)
    ensures run.outcome == Normal
    ensures run.effects == [WriteJson(DEFAULT_OUTPUT_FILE, Payload(Batch(CONFIG, 10, draw)))]
    ensures run.caught.None? <==> fs(WriteJson(DEFAULT_OUTPUT_FILE, Payload(Batch(CONFIG, 10, draw)))).None?
  {
    assert '/' !in DEFAULT_OUTPUT_FILE;
    var run := InputUserData(MAIN_USER_COUNT, draw := draw, fs := fs);
    assert |run.effects| > 0 by {
      MakesDirsOnlyForSubdirectory(MAIN_USER_COUNT, DEFAULT_OUTPUT_FILE, draw, fs);
    }
    run
  }
}
