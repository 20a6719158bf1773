/**
 * The bcrypt collaborator, modelled symbolically. A password field holds
 * either the text a user typed or a bcrypt hash string; `Hashed(input, salt)`
 * stands for `bcrypt.hash(input, salt)`, so a hash records exactly what was
 * hashed and `compare(p, hash(p))` holds while `compare(p, hash(q))` for
 * another `q` does not.
 */
module Bcrypt {
  import opened Wrappers
  import opened JsStrings

  datatype Secret = Plain(text: string) | Hashed(input: Secret, salt: nat)

  /** Every bcrypt hash string is 60 characters long. */
  const HashLength: nat := 60

  /** The `length` of the string a field holds. */
  function Length(s: Secret): nat {
    match s
    case Plain(text) => JsLength(text)
    case Hashed(_, _) => HashLength
  }

  /** JavaScript truthiness of the field: only the empty string is falsy. */
  predicate Truthy(s: Secret) {
    Length(s) > 0
  }

  /** `bcrypt.hash(input, salt)`. */
  function Hash(input: Secret, salt: nat): Secret {
    Hashed(input, salt)
  }

  /** bcryptjs rejects a comparison whose hash argument is not a string
      ("Illegal arguments: string, undefined"). */
  datatype CompareError = IllegalArguments

  /** `bcrypt.compare(candidate, stored)`, where `stored` is absent when the
      field was not loaded. A string that is not a hash never matches. */
  function Compare(candidate: string, stored: Option<Secret>): (r: Result<bool, CompareError>)
    ensures r.Err? <==> stored.None?
    ensures r == Ok(true) <==> (stored.Some? && stored.value.Hashed? && stored.value.input == Plain(candidate))
  {
    match stored
    case None => Err(IllegalArguments)
    case Some(Plain(_)) => Ok(false)
    case Some(Hashed(input, _)) => Ok(input == Plain(candidate))
  }

  /** `compare(p, hash(p))` holds, whatever the salt. */
  lemma CompareAcceptsOwnHash(p: string, salt: nat)
    ensures Compare(p, Some(Hash(Plain(p), salt))) == Ok(true)
  {
  }

  /** A hash of one password does not accept another. */
  lemma CompareRejectsOtherPassword(p: string, q: string, salt: nat)
    requires p != q
    ensures Compare(p, Some(Hash(Plain(q), salt))) == Ok(false)
  {
  }

  /** A hash of a hash never accepts a typed password. */
  lemma CompareRejectsDoubleHash(p: string, q: string, salt1: nat, salt2: nat)
    ensures Compare(p, Some(Hash(Hash(Plain(q), salt1), salt2))) == Ok(false)
  {
  }
}
