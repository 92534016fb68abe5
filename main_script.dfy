/** `src/main.py`: the interactive script. It keeps its own copy of the record
    class and the batch generator, a save routine that checks `count` before
    its `try` and re-raises whatever the `try` raised, and `main`, which asks
    for a count until it gets a positive integer, then for a file name. */
module MainScript {
  import opened PyRuntime
  import opened PyText
  import opened UserModel
  import opened FileEffects

  const DEFAULT_OUTPUT_FILE: string := "user_fake.json"
  const DEFAULT_USER_COUNT: int := 10
  const MIN_AGE: int := 18
  const MAX_AGE: int := 99
  const PASSWORD_LENGTH: nat := 12
  const GENDER_OPTIONS: seq<string> := ["male", "female", "other"]

  const CONFIG: Config := Config(MIN_AGE, MAX_AGE, PASSWORD_LENGTH, GENDER_OPTIONS)

  const COUNT_ERROR: string := "Count must be a positive integer"
  const JSON_SUFFIX: string := ".json"

  /** This file's `FakerUser()`, sampling with this file's constants. */
  function FakerUser(d: Draw): (u: User)
    ensures Invariant(CONFIG, u)
    ensures 18 <= u.age <= 99 && u.gender in ["male", "female", "other"] && |u.password| == 12
  {
    NewUser(CONFIG, d)
  }

  /** This copy samples with the same constants as `src/models/user.py`, so it
      builds the same record from the same draw. */
  lemma CopiesAgree(d: Draw)
    ensures FakerUser(d) == UserModel.FakerUser(d)
  {
  }

  /** `generate_faker_users(count)`: a non-positive count raises `ValueError`;
      otherwise exactly `count` fresh records. */
  function GenerateFakerUsers(count: int := DEFAULT_USER_COUNT, draw: nat -> Draw): (r: Result<seq<User>>)
    ensures r.Err? <==> count <= 0
    ensures r.Err? ==> r.exc == ValueError(COUNT_ERROR)
    ensures r.Ok? ==> |r.value| == count
    ensures r.Ok? ==> forall i :: 0 <= i < count ==> r.value[i] == FakerUser(draw(i)) && Invariant(CONFIG, r.value[i])
  {
    if count <= 0 then Err(ValueError(COUNT_ERROR))
    else Ok(Batch(CONFIG, count, draw))
  }

  /** `generate_faker_users()` with no argument builds DEFAULT_USER_COUNT = 10 records. */
  lemma DefaultCountIsTen(draw: nat -> Draw)
    ensures GenerateFakerUsers(draw := draw).Ok?
    ensures |GenerateFakerUsers(draw := draw).value| == 10
  {
  }

  /** The effects the `try` block attempts: the parent directory first, then
      the one write of the payload. */
  function SaveSteps(outputFile: string, payload: seq<FieldMap>): (steps: seq<Effect>)
    ensures |steps| == 2 && steps[|steps| - 1] == WriteJson(outputFile, payload)
    ensures forall k :: 0 <= k < |steps| - 1 ==> steps[k] == MakeParentDirs(outputFile)
  {
    [MakeParentDirs(outputFile), WriteJson(outputFile, payload)]
  }

  /** `input_user_data(count, output_file)`: the count check raises before the
      `try`; inside it, either handler reports the exception and re-raises it
      unchanged. */
  function InputUserData(count: int, outputFile: string := DEFAULT_OUTPUT_FILE, draw: nat -> Draw, fs: FileSystem): (run: Run)
    ensures count <= 0 ==> run == Run([], None, Raised(ValueError(COUNT_ERROR)))
    // re-raised as caught, by the handler its class selects
    ensures count > 0 && run.outcome.Raised? ==>
      run.caught == Some((HandlerFor(run.outcome.exc), run.outcome.exc))
      && |run.effects| > 0 && fs(run.effects[|run.effects| - 1]) == Some(run.outcome.exc)
    ensures count > 0 ==> run.outcome.Normal? ==> run.caught.None?
    ensures count > 0 ==> run.effects <= SaveSteps(outputFile, Payload(Batch(CONFIG, count, draw)))
    ensures count > 0 ==>
      (run.outcome.Normal? <==> AllSucceed(SaveSteps(outputFile, Payload(Batch(CONFIG, count, draw))), fs))
    // a normal return has made the directory and written the whole payload
    ensures count > 0 && run.outcome.Normal? ==>
      run.caught.None? && run.effects == SaveSteps(outputFile, Payload(Batch(CONFIG, count, draw)))
    // the try stops at the first effect that raises
    ensures count > 0 && |run.effects| > 0 ==> AllSucceed(run.effects[..|run.effects| - 1], fs)
  {
    if count <= 0 then
      Run([], None, Raised(ValueError(COUNT_ERROR)))
    else
      match GenerateFakerUsers(count, draw)
      case Err(e) => Run([], Some((HandlerFor(e), e)), Raised(e))
      case Ok(users) =>
        var a := Attempt(SaveSteps(outputFile, Payload(users)), fs);
        match a.failure
        case None => Run(a.ran, None, Normal)
        case Some(e) => Run(a.ran, Some((HandlerFor(e), e)), Raised(e))
  }

  /** Past the count check, the first effect attempted is creating the
      parent directory of the output file. */
  lemma SaveStartsWithParentDirs(count: int, outputFile: string, draw: nat -> Draw, fs: FileSystem)
    requires count > 0
    ensures var run := InputUserData(count, outputFile, draw, fs);
      |run.effects| > 0 && run.effects[0] == MakeParentDirs(outputFile)
  {
    var steps := SaveSteps(outputFile, Payload(Batch(CONFIG, count, draw)));
    var run := InputUserData(count, outputFile, draw, fs);
    assert run.effects <= steps;
    if run.outcome.Normal? {
      assert run.effects == steps;
    }
  }

  /** One line of standard input, with what `int()` makes of it: `None` when
      `int()` raises `ValueError`. */
  datatype Line = Line(text: string, asInt: Option<int>)

  /** The prompt loop stops at a line that parses to a positive integer. */
  predicate Accepts(l: Line) {
    l.asInt.Some? && l.asInt.value > 0
  }

  /** Where the first acceptable answer at or after line `from` is, if there
      is one. */
  function FirstAcceptedFrom(lines: seq<Line>, from: nat): (r: Option<nat>)
    requires from <= |lines|
    ensures r.Some? ==> from <= r.value < |lines| && Accepts(lines[r.value])
    ensures r.Some? ==> forall j :: from <= j < r.value ==> !Accepts(lines[j])
    ensures r.None? ==> forall j :: from <= j < |lines| ==> !Accepts(lines[j])
    decreases |lines| - from
  {
    if from == |lines| then None
    else if Accepts(lines[from]) then Some(from)
    else FirstAcceptedFrom(lines, from + 1)
  }

  /** Where the first acceptable answer is, if there is one. */
  function FirstAccepted(lines: seq<Line>): (r: Option<nat>)
    ensures r.Some? ==> r.value < |lines| && Accepts(lines[r.value])
    ensures r.Some? ==> forall j :: 0 <= j < r.value ==> !Accepts(lines[j])
    ensures r.None? ==> forall j :: 0 <= j < |lines| ==> !Accepts(lines[j])
  {
    FirstAcceptedFrom(lines, 0)
  }

  /** The count prompt of `main`: reads answers until one is a positive
      integer, skipping unparseable and non-positive ones. Returns the count,
      or `None` when the input runs out first, and how many lines it read. */
  method ReadCount(lines: seq<Line>) returns (count: Option<int>, consumed: nat)
    ensures consumed <= |lines|
    ensures count.Some? <==> FirstAccepted(lines).Some?
    ensures count.Some? ==>
      consumed == FirstAccepted(lines).value + 1 && count == lines[consumed - 1].asInt && count.value > 0
    ensures count.None? ==> consumed == |lines|
  {
    count, consumed := None, 0;
    while count.None? && consumed < |lines|
      invariant consumed <= |lines|
      invariant count.None? ==> forall j :: 0 <= j < consumed ==> !Accepts(lines[j])
      invariant count.Some? ==>
        consumed > 0 && FirstAccepted(lines) == Some(consumed - 1) && count == lines[consumed - 1].asInt
        && Accepts(lines[consumed - 1])
      decreases |lines| - consumed
    {
      var line := lines[consumed];
      consumed := consumed + 1;
      match line.asInt
      case None =>
        // "Invalid input": ask again
      case Some(n) =>
        if n > 0 {
          count := Some(n);
        }
        // otherwise "Please enter a positive integer.": ask again
    }
  }

  lemma DefaultIsJson()
    ensures EndsWith(DEFAULT_OUTPUT_FILE, JSON_SUFFIX)
  {
    EndsWithConcat("user_fake", JSON_SUFFIX);
    assert "user_fake" + JSON_SUFFIX == DEFAULT_OUTPUT_FILE;
  }

  /** The output-file prompt: a blank answer gives the default name, a name
      without the `.json` suffix gets it appended, anything else is kept. */
  function ChooseOutputFile(answer: string): (file: string)
    ensures AllSpace(answer) ==> file == DEFAULT_OUTPUT_FILE
    ensures !AllSpace(answer) && EndsWith(Strip(answer), JSON_SUFFIX) ==> file == Strip(answer)
    ensures !AllSpace(answer) && !EndsWith(Strip(answer), JSON_SUFFIX) ==> file == Strip(answer) + JSON_SUFFIX
    ensures EndsWith(file, JSON_SUFFIX)
  {
    var name := Strip(answer);
    if name == [] then
      DefaultIsJson();
      DEFAULT_OUTPUT_FILE
    else if !EndsWith(name, JSON_SUFFIX) then
      EndsWithConcat(name, JSON_SUFFIX);
      name + JSON_SUFFIX
    else name
  }

  /** Giving the chosen name back to the prompt chooses it again. */
  lemma ChooseOutputFileIdempotent(answer: string)
    ensures ChooseOutputFile(ChooseOutputFile(answer)) == ChooseOutputFile(answer)
  {
    var file := ChooseOutputFile(answer);
    assert file[|file| - 1] == 'n';
    if AllSpace(answer) {
      assert file[0] == 'u';
    } else {
      assert file[0] == Strip(answer)[0];
    }
    StripTrimmed(file);
  }

  /** What `main()` does with its standard input: the count prompt, the
      file-name prompt, then the save routine. Running out of input at either
      prompt raises EOFError, which the outer handler reports and re-raises.
      Once a count and a name are read, the count check passes: the run
      starts by creating the parent directory of the chosen `.json` file. */
  function MainRun(lines: seq<Line>, draw: nat -> Draw, fs: FileSystem): (run: Run)
    ensures FirstAccepted(lines).None? || FirstAccepted(lines).value + 1 == |lines| ==>
      run == Run([], None, Raised(EOFError(EOF_MESSAGE)))
    ensures FirstAccepted(lines).Some? && FirstAccepted(lines).value + 1 < |lines| ==>
      var file := ChooseOutputFile(lines[FirstAccepted(lines).value + 1].text);
      && EndsWith(file, JSON_SUFFIX)
      && |run.effects| > 0 && run.effects[0] == MakeParentDirs(file)
    // and the run is the save with the accepted count and the chosen name
    ensures FirstAccepted(lines).Some? && FirstAccepted(lines).value + 1 < |lines| ==>
      run == InputUserData(lines[FirstAccepted(lines).value].asInt.value,
                           ChooseOutputFile(lines[FirstAccepted(lines).value + 1].text), draw, fs)
  {
    var first := FirstAccepted(lines);
    if first.None? || first.value + 1 == |lines| then
      Run([], None, Raised(EOFError(EOF_MESSAGE)))
    else
      var count := lines[first.value].asInt.value;
      var file := ChooseOutputFile(lines[first.value + 1].text);
      SaveStartsWithParentDirs(count, file, draw, fs);
      InputUserData(count, file, draw, fs)
  }

  /** `main()` over its standard input. */
  method MainProgram(lines: seq<Line>, draw: nat -> Draw, fs: FileSystem) returns (run: Run)
    ensures run == MainRun(lines, draw, fs)
  {
    var count, consumed := ReadCount(lines);
    if count.None? || consumed == |lines| {
      // input() at end of input
      run := Run([], None, Raised(EOFError(EOF_MESSAGE)));
    } else {
      ghost var k := consumed - 1;
      assert FirstAccepted(lines) == Some(k);
      assert count.value == lines[k].asInt.value;
      var outputFile := ChooseOutputFile(lines[consumed].text);
      assert outputFile == ChooseOutputFile(lines[k + 1].text);
      run := InputUserData(count.value, outputFile, draw, fs);
    }
  }
}
