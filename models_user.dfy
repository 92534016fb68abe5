/** The user record of `src/models/user.py`: its constant table, the
    constructor that assembles one record from Faker samples and two clock
    readings, and `get_json`, the record's field map. The other two copies of
    the class (in `src/main.py` and `src/user.py`) build the same record from
    their own constant tables through `NewUser`. */
module UserModel {
  import opened PyRuntime
  import opened PyText
  import FakerOracle

  /** The constants a copy of the record class samples with. */
  datatype Config = Config(minAge: int, maxAge: int, passwordLength: nat, genders: seq<string>) {
    predicate WellFormed() {
      minAge <= maxAge && |genders| > 0
    }
  }

  const MIN_AGE: int := 18
  const MAX_AGE: int := 99
  const PASSWORD_LENGTH: nat := 12
  const GENDER_OPTIONS: seq<string> := ["male", "female", "other"]

  const CONFIG: Config := Config(MIN_AGE, MAX_AGE, PASSWORD_LENGTH, GENDER_OPTIONS)

  /** A clock reading, represented by the ISO-8601 text `isoformat()` gives for it. */
  datatype Timestamp = Timestamp(iso: string)

  /** What one construction draws: the library's uuid and names as returned,
      the random numbers behind password, gender and age, and the two
      `datetime.now()` readings. */
  datatype Draw = Draw(
    uuid: string,
    firstName: string,
    middleName: string,
    lastName: string,
    passwordSeed: nat,
    genderPick: nat,
    agePick: nat,
    createdAt: Timestamp,
    updatedAt: Timestamp)

  datatype User = User(
    id: string,
    name: string,
    middleName: string,
    lastName: string,
    email: string,
    password: string,
    gender: string,
    age: int,
    isActive: bool,
    createdAt: Timestamp,
    updatedAt: Timestamp)

  const EMAIL_DOMAIN: string := "@example.com"

  /** The address a user with these names gets: the lowered first name, a
      dot, the lowered last name and the domain, in that order. */
  function Email(name: string, lastName: string): (e: string)
    ensures |e| == |name| + 1 + |lastName| + |EMAIL_DOMAIN|
    ensures e[..|name|] == Lower(name) && e[|name|] == '.'
    ensures e[|name| + 1..|name| + 1 + |lastName|] == Lower(lastName)
    ensures e[|name| + 1 + |lastName|..] == EMAIL_DOMAIN
  {
    Lower(name) + "." + Lower(lastName) + EMAIL_DOMAIN
  }

  /** What holds of every freshly constructed record. */
  predicate Invariant(cfg: Config, u: User) {
    && u.email == Email(u.name, u.lastName)
    && cfg.minAge <= u.age <= cfg.maxAge
    && u.gender in cfg.genders
    && |u.password| == cfg.passwordLength
    && u.isActive
  }

  /** `FakerUser()`: one record assembled from one draw. */
  function NewUser(cfg: Config, d: Draw): (u: User)
    requires cfg.WellFormed()
    ensures Invariant(cfg, u)
    ensures u.id == d.uuid && u.name == d.firstName && u.middleName == d.middleName && u.lastName == d.lastName
    ensures u.createdAt == d.createdAt && u.updatedAt == d.updatedAt
  {
    User(
      id := d.uuid,
      name := d.firstName,
      middleName := d.middleName,
      lastName := d.lastName,
      email := Email(d.firstName, d.lastName),
      password := FakerOracle.Password(cfg.passwordLength, d.passwordSeed),
      gender := FakerOracle.RandomElement(cfg.genders, d.genderPick),
      age := FakerOracle.RandomInt(cfg.minAge, cfg.maxAge, d.agePick),
      isActive := true,
      createdAt := d.createdAt,
      updatedAt := d.updatedAt)
  }

  /** `FakerUser()` of this file, sampling with the constants above. */
  function FakerUser(d: Draw): (u: User)
    ensures Invariant(CONFIG, u)
    ensures 18 <= u.age <= 99 && u.gender in ["male", "female", "other"] && |u.password| == 12
  {
    NewUser(CONFIG, d)
  }

  /** The address is the lowered first name, a dot, the lowered last name and
      the fixed domain; it has no capitals and its length is fixed by the names. */
  lemma EmailShape(name: string, lastName: string)
    ensures EndsWith(Email(name, lastName), EMAIL_DOMAIN)
    ensures |Email(name, lastName)| == |name| + |lastName| + 13
    ensures HasNoUpper(Email(name, lastName))
  {
    var e := Email(name, lastName);
    var dot := |name|;
    var domain := dot + 1 + |lastName|;
    assert HasNoUpper(EMAIL_DOMAIN);
    forall i | 0 <= i < |e| ensures !IsAsciiUpper(e[i]) {
      if i < dot {
        assert e[i] == Lower(name)[i];
      } else if dot < i < domain {
        assert e[i] == Lower(lastName)[i - dot - 1];
      } else if domain <= i {
        assert e[i] == EMAIL_DOMAIN[i - domain];
      }
    }
  }

  /** The address ignores the case of the names. */
  lemma EmailIgnoresCase(name: string, lastName: string)
    ensures Email(Lower(name), Lower(lastName)) == Email(name, lastName)
  {
    LowerIdempotent(name);
    LowerIdempotent(lastName);
  }

  /** The address depends on the first and last names alone: two draws with
      the same first and last names give the same address, whatever the
      middle name or any other sample. */
  lemma EmailIgnoresOtherSamples(cfg: Config, d1: Draw, d2: Draw)
    requires cfg.WellFormed()
    requires d1.firstName == d2.firstName && d1.lastName == d2.lastName
    ensures NewUser(cfg, d1).email == NewUser(cfg, d2).email
  {
  }

  /** A JSON value of the kinds a field map holds. */
  datatype Json = JString(s: string) | JInt(n: int) | JBool(b: bool)

  type FieldMap = map<string, Json>

  const FIELD_NAMES: set<string> := {
    "id", "name", "middle_name", "last_name", "email", "password",
    "gender", "age", "is_active", "created_at", "updated_at"
  }

  /** `get_json()` as `json.loads` reads it back: each field under its key,
      the timestamps as their ISO-8601 text. */
  function GetJson(u: User): (m: FieldMap)
    ensures m.Keys == FIELD_NAMES
  {
    map[
      "id" := JString(u.id),
      "name" := JString(u.name),
      "middle_name" := JString(u.middleName),
      "last_name" := JString(u.lastName),
      "email" := JString(u.email),
      "password" := JString(u.password),
      "gender" := JString(u.gender),
      "age" := JInt(u.age),
      "is_active" := JBool(u.isActive),
      "created_at" := JString(u.createdAt.iso),
      "updated_at" := JString(u.updatedAt.iso)
    ]
  }

  /** The field map has exactly eleven keys. */
  lemma GetJsonHasElevenKeys(u: User)
    ensures |GetJson(u).Keys| == 11
  {
    assert |FIELD_NAMES| == 11;
  }

  predicate HasString(m: FieldMap, key: string) {
    key in m && m[key].JString?
  }

  /** Reading a record back from a field map, as a consumer of the output
      file would; `None` when a field is missing or of the wrong kind. */
  function ParseUser(m: FieldMap): Option<User> {
    if && HasString(m, "id") && HasString(m, "name") && HasString(m, "middle_name")
       && HasString(m, "last_name") && HasString(m, "email") && HasString(m, "password")
       && HasString(m, "gender") && "age" in m && m["age"].JInt?
       && "is_active" in m && m["is_active"].JBool?
       && HasString(m, "created_at") && HasString(m, "updated_at")
    then
      Some(User(
        m["id"].s, m["name"].s, m["middle_name"].s, m["last_name"].s, m["email"].s,
        m["password"].s, m["gender"].s, m["age"].n, m["is_active"].b,
        Timestamp(m["created_at"].s), Timestamp(m["updated_at"].s)))
    else
      None
  }

  /** The field map loses nothing: every field comes back unchanged. */
  lemma GetJsonRoundTrip(u: User)
    ensures ParseUser(GetJson(u)) == Some(u)
  {
  }

  /** `[FakerUser() for _ in range(count)]` with the constants `cfg`: the
      i-th record is built from the i-th draw. */
  function Batch(cfg: Config, count: nat, draw: nat -> Draw): (users: seq<User>)
    requires cfg.WellFormed()
    ensures |users| == count
    ensures forall i :: 0 <= i < count ==> users[i] == NewUser(cfg, draw(i)) && Invariant(cfg, users[i])
  {
    seq(count, i requires 0 <= i < count => NewUser(cfg, draw(i)))
  }

  /** `[json.loads(user.get_json()) for user in users]`. */
  function Payload(users: seq<User>): (p: seq<FieldMap>)
    ensures |p| == |users|
    ensures forall i :: 0 <= i < |users| ==> p[i] == GetJson(users[i])
  {
    seq(|users|, i requires 0 <= i < |users| => GetJson(users[i]))
  }

  /** Reading the whole output back, record by record. */
  function ParsePayload(p: seq<FieldMap>): Option<seq<User>> {
    if p == [] then Some([])
    else match (ParseUser(p[0]), ParsePayload(p[1..]))
      case (Some(u), Some(rest)) => Some([u] + rest)
      case _ => None
  }

  /** Reading the written payload back gives exactly the generated records,
      in generation order. */
  lemma {:induction false} PayloadRoundTrip(users: seq<User>)
    ensures ParsePayload(Payload(users)) == Some(users)
  {
    if users != [] {
      PayloadRoundTrip(users[1..]);
      assert Payload(users)[1..] == Payload(users[1..]);
      GetJsonRoundTrip(users[0]);
      assert [users[0]] + users[1..] == users;
    }
  }
}
