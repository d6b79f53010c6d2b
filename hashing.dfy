/**
 * Password hashing. The service uses bcrypt; here the hash is an abstract
 * one-way tag whose only observable behaviour is the comparison relation:
 * a password matches a stored hash exactly when that hash was made from it.
 */
module Hashing {

  /** A stored password hash (the `users.password` column). */
  datatype PasswordHash = Digest(source: string)

  /** `bcrypt.hash(password, 12)`; salt and cost factor are not modelled. */
  function Hash(password: string): (h: PasswordHash)
    ensures forall other :: Compare(other, h) <==> other == password
  {
    Digest(password)
  }

  /** `bcrypt.compare(password, hash)`: the hash was made from this password. */
  predicate Compare(password: string, hash: PasswordHash)
  {
    hash.source == password
  }
}
