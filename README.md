# forger, modelled in Dafny

forger generates synthetic user records and writes them to a JSON file. A record
holds a uuid, first, middle and last names sampled by Faker, an email derived
from the first and last names, a 12-character password, a gender from
`male`/`female`/`other`, an age in [18, 99], an `is_active` flag that is always
true, and two creation-time timestamps. The repository has three copies of the
record class and of the batch generator, which differ slightly:

- `src/models/user.py` with `src/services/user_generator.py`. This is the
  library path. Its save routine checks `count` before its `try`. Inside the
  `try`, every exception becomes an `IOError` or a bare `Exception`.
- `src/main.py`, an interactive script. Its `main` asks for a count until it
  gets a positive integer, then asks for a file name. Its save routine checks
  `count` before its `try` and re-raises whatever the `try` raised.
- `src/user.py`, an older script. It checks `count` inside its `try`. It
  creates a directory only for a path that has one. It reports every exception
  without re-raising it, so nothing escapes.

Each copy has its own module: `UserModel`, `UserGenerator`, `MainScript` and
`UserScript`. Four helper modules sit beside them:

- `PyRuntime`: exception classes, the `except` clause that catches an
  exception, and how a call ends.
- `PyText`: `lower`, `strip`, `endswith` and `os.path.dirname`, over ASCII.
- `FakerOracle`: stand-ins for the Faker calls. The random number each call
  draws is an input to it.
- `FileEffects`: filesystem requests as effects. What the filesystem answers
  to each request is an input.

A record is built from a `Draw`, which holds the values one `FakerUser()`
samples. The constructor `NewUser` takes a `Config`, the constant table that
each copy samples with. A batch takes `draw: nat -> Draw`, where the i-th
record of a call comes from `draw(i)`. A save routine returns a `Run`. A `Run`
lists the effects attempted, the handler that caught an exception and that
exception, and whether the call returned or raised.

In `src/user.py`, `input_user_data` raises the count's `ValueError` inside its
`try` (src/user.py:66-68), and its generic handler only prints it
(src/user.py:84-85), so an invalid count returns normally there
(`UserScript.InputUserData`).

## Model

| member | source | states |
|---|---|---|
| `PyRuntime.HandlerFor` | src/services/user_generator.py:54-57 | `except (IOError, json.JSONDecodeError)` catches exactly the IOError and JSONDecodeError classes; every other exception goes to `except Exception` |
| `PyText.Lower` | src/models/user.py:41 | `lower()` keeps the length and folds each capital to its small letter, leaving other characters alone |
| `PyText.Strip` | src/main.py:141 | `strip()` gives the slice of the answer between a blank prefix and a blank suffix; it is empty exactly when the answer is all whitespace, and otherwise starts and ends with a non-space character |
| `PyText.StripIdempotent` | src/main.py:141 | stripping the stripped text changes nothing |
| `PyText.EndsWith` | src/main.py:144 | `endswith(suffix)` holds exactly when the text is some prefix followed by `suffix` |
| `PyText.Dirname` | src/user.py:74 | `os.path.dirname` gives the path's head up to its last '/', with the trailing slashes removed unless the head is all slashes; it is empty exactly when the path has no '/' |
| `FakerOracle.RandomInt` | src/models/user.py:45 | `random_int(min, max)` returns a value within the inclusive bounds |
| `FakerOracle.RandomIntCovers` | src/models/user.py:45 | every value within the bounds can be drawn |
| `FakerOracle.RandomElement` | src/models/user.py:44 | `random_element(elements)` returns one of the elements |
| `FakerOracle.RandomElementCovers` | src/models/user.py:44 | every element can be drawn |
| `FakerOracle.Password` | src/models/user.py:43 | `password(length=n)` has exactly n characters, all from the password alphabet |
| `FakerOracle.PasswordCovers` | src/models/user.py:43 | every string of alphabet characters is the password of its length for some seed |
| `UserModel.NewUser` | src/models/user.py:34-48 | the record keeps the sampled uuid, names and clock readings; its email is lower(name) + "." + lower(last_name) + "@example.com"; its age is within the configured bounds; its gender is one of the configured options; its password has the configured length; `is_active` is true |
| `UserModel.FakerUser` | src/models/user.py:7-10 | with this file's constants: age in [18, 99], gender in (male, female, other), password length 12, plus the email rule and `is_active` |
| `UserModel.Email` | src/models/user.py:41-42 | the address is the lowered first name, a dot, the lowered last name and "@example.com", in that order |
| `UserModel.EmailShape` | src/models/user.py:41-42 | the email ends in "@example.com", is as long as both names plus 13, and has no capital letter |
| `UserModel.EmailIgnoresCase` | src/models/user.py:41-42 | lowering the names first does not change the email |
| `UserModel.EmailIgnoresOtherSamples` | src/models/user.py:38-42 | two draws with the same first and last names give the same email, whatever the middle name and the other samples |
| `UserModel.GetJson` | src/models/user.py:56-68 | the field map has exactly the keys id, name, middle_name, last_name, email, password, gender, age, is_active, created_at, updated_at |
| `UserModel.GetJsonHasElevenKeys` | src/models/user.py:56-68 | the field map has eleven keys |
| `UserModel.GetJsonRoundTrip` | src/models/user.py:56-69 | reading the field map back gives every field unchanged, the timestamps as their ISO-8601 text |
| `UserModel.Batch` | src/services/user_generator.py:25 | the comprehension yields exactly `count` records; the i-th comes from the i-th draw and satisfies the record invariant |
| `UserModel.Payload` | src/services/user_generator.py:45 | one field map per user, in the users' order |
| `UserModel.PayloadRoundTrip` | src/services/user_generator.py:44-52 | reading the written payload back gives exactly the generated users, in order |
| `FileEffects.Attempt` | src/services/user_generator.py:43-52 | the steps of the `try` run in order until one raises; the steps attempted are a prefix of the planned ones; no failure happens exactly when every step succeeds; a failure is what the last attempted step raised |
| `UserGenerator.GenerateFakerUsers` | src/services/user_generator.py:7-25 | `count` defaults to DEFAULT_USER_COUNT; a non-positive count raises ValueError("Count must be a positive integer"); otherwise exactly `count` fresh records satisfying the invariant |
| `UserGenerator.DefaultCountIsTen` | src/services/user_generator.py:7-11 | called with no count, the generator builds ten records |
| `UserGenerator.Wrap` | src/services/user_generator.py:54-57 | IOError/JSONDecodeError becomes IOError("Error saving user data: …"); any other exception becomes Exception("Unexpected error: …") |
| `UserGenerator.SaveSteps` | src/services/user_generator.py:48-52 | the `try` plans two effects: the output file's parent directory, then the single write of the payload |
| `UserGenerator.SaveUsersToFile` | src/services/user_generator.py:28-57 | `output_file` defaults to users.json; a bad count raises ValueError unwrapped and touches nothing; otherwise the effects are a prefix of "make the parent directory, write the payload" that stops at the first effect that raises; the call returns exactly when both succeed, and then it has attempted both; what is caught is what the last attempted step raised, by the handler its class selects; a raised exception is always the wrapped IOError or Exception of it |
| `UserGenerator.SavedPayload` | src/services/user_generator.py:44-45 | the written payload has `count` maps, the i-th being `get_json` of the i-th user, and reads back as the generated users |
| `UserGenerator.SaveWritesEveryUser` | src/services/user_generator.py:43-52 | when the filesystem accepts every request, the run creates the parent directory, writes the payload and returns |
| `UserGenerator.TenUsersToDefaultFile` | src/services/user_generator.py:28-52 | `save_users_to_file(10)`, the call the command-line front end makes with its own default count, writes ten users' field maps to users.json, the default file, when the filesystem accepts every request |
| `MainScript.FakerUser` | src/main.py:38-52 | with this file's constants: the same invariants as the library copy |
| `MainScript.CopiesAgree` | src/main.py:11-14 | this file's constants equal those of src/models/user.py, so both copies build the same record from the same draw |
| `MainScript.GenerateFakerUsers` | src/main.py:76-90 | `count` defaults to DEFAULT_USER_COUNT; a non-positive count raises ValueError; otherwise exactly `count` records satisfying the invariant |
| `MainScript.DefaultCountIsTen` | src/main.py:76 | called with no count, the generator builds ten records |
| `MainScript.InputUserData` | src/main.py:93-125 | `output_file` defaults to user_fake.json; a bad count raises ValueError before the `try` and touches nothing; inside the `try`, the exception is caught by the handler its class selects and re-raised unchanged; it is what the last attempted step raised, every earlier step having succeeded; the call returns exactly when both steps succeed, and then it has attempted both |
| `MainScript.SaveStartsWithParentDirs` | src/main.py:113-114 | past the count check, the first effect attempted is creating the output file's parent directory |
| `MainScript.FirstAccepted` | src/main.py:131-139 | the index of the first answer that parses to a positive integer, with no such answer before it; `None` when there is none |
| `MainScript.ReadCount` | src/main.py:131-139 | the loop returns the first positive parsed answer, skipping unparseable and non-positive ones, and reads exactly up to it; it reads everything when there is none |
| `MainScript.ChooseOutputFile` | src/main.py:141-145 | a blank answer gives user_fake.json; a stripped name ending in .json is kept; otherwise .json is appended; the result always ends in .json |
| `MainScript.ChooseOutputFileIdempotent` | src/main.py:141-145 | feeding the chosen name back to the prompt chooses it again |
| `MainScript.MainProgram` | src/main.py:128-150 | the prompt loop and the save call give the run `MainRun` describes: EOFError when the input runs out before a count and a name are read; otherwise `input_user_data` with the first accepted count and the name chosen from the next answer |
| `MainScript.MainRun` | src/main.py:128-150 | running out of input before a count and a name are read raises EOFError and touches nothing; once both are read, the run is exactly `input_user_data` with the first accepted count and the name chosen from the next answer, so its writes and re-raises are those of `MainScript.InputUserData`; that name ends in .json, and the run gets past the count check: its first effect creates that file's parent directory |
| `MainScript.SaveSteps` | src/main.py:113-117 | the `try` plans two effects: the output file's parent directory, then the single write of the payload |
| `UserScript.FakerUser` | src/user.py:11-25 | with literal constants: age in [18, 99], gender in (male, female, other), password length 12, the email rule and `is_active` |
| `UserScript.CopiesAgree` | src/user.py:20-22 | the literals equal the constants of src/models/user.py |
| `UserScript.GenerateFakerUsers` | src/user.py:45-56 | `count` defaults to 10; only count <= 0 raises ValueError; otherwise exactly `count` records |
| `UserScript.DefaultCountIsTen` | src/user.py:45 | called with no count, the generator builds ten records |
| `UserScript.SaveSteps` | src/user.py:73-79 | the `try` plans `makedirs` of the path's directory part only when the path has a '/', then the single write of the payload |
| `UserScript.InputUserData` | src/user.py:59-85 | `output_file` defaults to user_fake.json; never raises; a bad count is raised inside the `try` and reported by the generic handler, and nothing is touched; otherwise the effects are a prefix of the plan that stops at the first effect that raises; nothing is reported exactly when every step succeeds, and then every planned effect was attempted; what is reported is what the last attempted step raised |
| `UserScript.MakesDirsOnlyForSubdirectory` | src/user.py:73-76 | a directory is created exactly when the output path has a '/', and only as the first step |
| `UserScript.RunMain` | src/user.py:88-94 | `main`, calling `input_user_data(10)` with the default file, writes ten users to user_fake.json, never creates a directory and never raises |

## Left out

- Faker: uuid4 and the names are taken as given. For random_int, random_element and password, the random number drawn is an input. The password stand-in does not guarantee that each character class appears, as the library's default flags do.
- `id` uniqueness: it is not enforced by the code. Two records may share any field.
- `datetime.now()` and `isoformat()`: a clock reading is represented by its ISO-8601 text. The two readings in a record are separate inputs.
- JSON text: `json.dumps`, `json.loads` and `json.dump`, the 2-space indent, and UTF-8 encoding. `json.loads(json.dumps(m))` is taken to give `m` back, so the payload is a sequence of field maps.
- Filesystem semantics: what `mkdir`, `makedirs`, `open` and the write do, and pathlib's computation of a parent directory. Each is an effect whose outcome comes from an input function. Implicit exception chaining (`__context__`) is not modelled.
- Console output (`print`) and Python's `int()` parsing rules. Each input line comes with its parsed value, or none when `int()` would raise.
- Unicode: `lower()` folds only ASCII capitals, and `strip()` removes only ASCII whitespace.
- Windows paths: `os.path.dirname` is modelled as POSIX `posixpath.dirname`, splitting only on '/'. On Windows `ntpath` also splits on `\`, so src/user.py:74-76 would create `out` for `out\u.json`; the model attempts no directory there.
- Python's dynamic typing: `count` is an `int`, so the `isinstance` guards in src/services/user_generator.py and src/main.py are not modelled. The bool-is-int quirk is not modelled either.
- Exceptions outside `Exception`, such as KeyboardInterrupt, escape every handler. They are not modelled.
- src/cli.py (the Typer/Rich front end) is not part of this model. Its `.json` suffix rule is the same as the one in `MainScript.ChooseOutputFile`. Its exit code is UI.
