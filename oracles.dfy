/**
 * A stand-in for `bcrypt`: a hash records its cost, its random salt and a digest of the
 * password.  The digest is symbolic (the password itself), so `Compare` accepts exactly the
 * password that was hashed.
 */
module Bcrypt {

  /** The cost passed to `bcrypt.hash(password, 10)`. */
  const SaltRounds: nat := 10

  datatype PasswordHash = PasswordHash(rounds: nat, salt: nat, digest: string)

  /** `bcrypt.compare(password, hash)`. */
  predicate Compare(password: string, h: PasswordHash) {
    h.digest == password
  }

  /** `bcrypt.hash(password, 10)` with the random salt `salt`: the hash accepts the password it
      was made from and no other. */
  function Hash(password: string, salt: nat): (h: PasswordHash)
    ensures Compare(password, h)
    ensures forall other :: Compare(other, h) ==> other == password
    ensures h.rounds == SaltRounds
  {
    PasswordHash(SaltRounds, salt, password)
  }
}

/**
 * The object-storage client, as the handlers see it: `uploadOnCloudinary(localFilePath)`
 * answers `null` when no path is given, and otherwise whatever the provider answered
 * (`null` when the upload threw).  The provider's answer is a parameter.
 */
module Storage {
  import opened Common
  import opened JsText

  /** The fields of an upload response the handlers read. */
  datatype Upload = Upload(url: string, secureUrl: string, publicId: string, duration: Option<real>)

  function UploadOnCloudinary(localPath: Option<string>, response: Option<Upload>): (r: Option<Upload>)
    ensures r.Some? ==> Truthy(localPath)
  {
    if !Truthy(localPath) then None else response
  }
}
