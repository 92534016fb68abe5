/** Stand-ins for the Faker calls the record constructor makes. The library's
    randomness is an input: each call receives the random number it would have
    drawn (a "pick" or a "seed") and returns a value that honours the request
    the way the library documents it. Which pick the library draws is not
    modelled; that every value a call may return is produced by some pick or
    seed is proved for each of the three calls. */
module FakerOracle {

  /** `fake.random_int(min=lo, max=hi)`: an integer in the inclusive range. */
  function RandomInt(lo: int, hi: int, pick: nat): (r: int)
    requires lo <= hi
    ensures lo <= r <= hi
  {
    lo + pick % (hi - lo + 1)
  }

  /** Every value of the range is drawn by some pick. */
  lemma RandomIntCovers(lo: int, hi: int, v: int)
    requires lo <= v <= hi
    ensures RandomInt(lo, hi, v - lo) == v
  {
    assert (v - lo) % (hi - lo + 1) == v - lo;
  }

  /** `fake.random_element(elements=options)`: one of the options. */
  function RandomElement<T>(options: seq<T>, pick: nat): (r: T)
    requires |options| > 0
    ensures r in options
  {
    options[pick % |options|]
  }

  /** Every option is drawn by some pick. */
  lemma RandomElementCovers<T>(options: seq<T>, k: nat)
    requires k < |options|
    ensures RandomElement(options, k) == options[k]
  {
    assert k % |options| == k;
  }

  /** The characters `fake.password()` draws from with its default flags:
      special characters, digits, capitals and small letters. */
  const PASSWORD_ALPHABET: string :=
    "!@#$%^&*()_+" + "0123456789" + "ABCDEFGHIJKLMNOPQRSTUVWXYZ" + "abcdefghijklmnopqrstuvwxyz"

  /** `fake.password(length=n)`: `n` characters of the alphabet, chosen by
      the base-|alphabet| digits of the seed. */
  function Password(length: nat, seed: nat): (p: string)
    ensures |p| == length
    ensures forall i :: 0 <= i < |p| ==> p[i] in PASSWORD_ALPHABET
  {
    if length == 0 then []
    else [PASSWORD_ALPHABET[seed % |PASSWORD_ALPHABET|]] + Password(length - 1, seed / |PASSWORD_ALPHABET|)
  }

  /** The lowest base-74 digit of `k + 74 * rest` is `k`, and the others
      are those of `rest`. */
  lemma DigitSplit(k: nat, rest: nat)
    requires k < 74
    ensures (k + 74 * rest) % 74 == k && (k + 74 * rest) / 74 == rest
  {
  }

  /** Every password of alphabet characters is produced by some seed: the
      seed whose base-|alphabet| digits index its characters. */
  lemma {:induction false} PasswordCovers(p: string)
    requires forall i :: 0 <= i < |p| ==> p[i] in PASSWORD_ALPHABET
    ensures exists seed: nat :: Password(|p|, seed) == p
  {
    if p != [] {
      PasswordCovers(p[1..]);
      var rest: nat :| Password(|p| - 1, rest) == p[1..];
      var k :| 0 <= k < |PASSWORD_ALPHABET| && PASSWORD_ALPHABET[k] == p[0];
      assert |PASSWORD_ALPHABET| == 74;
      var seed := k + 74 * rest;
      DigitSplit(k, rest);
      assert Password(|p|, seed) == [p[0]] + p[1..];
    } else {
      assert Password(0, 0) == p;
    }
  }
}
