/**
 * The Encrypter's two entry points as the manager sees them. The cipher
 * itself (an MD5 key of the salt, TripleDES in ECB mode with PKCS7 padding,
 * Base64 text) is not modelled: it is the `transform` parameter, applied
 * with a non-null salt. What is modelled is the null salt: hashing it into a
 * key needs its UTF-8 bytes, which a null string does not have, so it throws.
 */
module Encrypter {
  import opened Wrappers

  /** Encrypt: None when it throws, which is exactly when the salt is null. */
  function Encrypt(transform: (string, string) -> string, plain: string, salt: Option<string>): (encrypted: Option<string>)
    ensures salt.None? ==> encrypted.None?
    ensures salt.Some? ==> encrypted == Some(transform(plain, salt.value))
  {
    match salt
    case None => None
    case Some(key) => Some(transform(plain, key))
  }

  /**
   * Decrypt: throws on a null salt, and otherwise whenever the cipher does
   * (bad Base64, bad padding).
   */
  function Decrypt(transform: (string, string) -> Option<string>, encrypted: string, salt: Option<string>): (plain: Option<string>)
    ensures salt.None? ==> plain.None?
    ensures salt.Some? ==> plain == transform(encrypted, salt.value)
  {
    match salt
    case None => None
    case Some(key) => transform(encrypted, key)
  }
}
