/**
 * The foreign services the manager calls, kept abstract, and the two
 * pipelines built from them: what Save writes for a value, and what Load
 * makes of the bytes it finds.
 *
 * The formatters (BinaryFormatter, XmlSerializer), JsonUtility and the
 * cipher are not modelled; a `Platform` carries them as functions, so
 * every statement here holds for every choice of them. Laws about them
 * (round trips, rejecting a wrong key) are predicates that the lemmas
 * below take as hypotheses.
 */
module Codec {
  import opened Wrappers
  import opened FileUtils
  import Encrypter

  /**
   * The `object` a formatter writes or reads: the record itself, or, with
   * encryption on, the cipher text as a string.
   */
  datatype Boxed<T> = Record(value: T) | Text(text: string)

  /**
   * What a formatter's Serialize leaves in a freshly truncated stream: all
   * of the encoding, or the part written before it threw.
   */
  datatype Written = Complete(bytes: Bytes) | Aborted(partial: Bytes)

  /** The services of the runtime for one record type `T`. */
  datatype Platform<!T> = Platform(
    defaultValue: T,                                    // default(DataFileT)
    serialize: (FileType, Boxed<T>) -> Written,         // Binary or XML formatter
    deserialize: (FileType, Bytes) -> Option<Boxed<T>>, // None: it threw
    toJson: T -> string,                                // JsonUtility.ToJson
    fromJson: string -> Option<T>,                      // JsonUtility.FromJson; None: it threw
    encrypt: (string, string) -> string,                // Encrypter.Encrypt with a non-null salt
    decrypt: (string, string) -> Option<string>)        // Encrypter.Decrypt with a non-null salt; None: it threw

  /** Why an operation threw instead of returning. */
  datatype Cause =
    | UndefinedFileType   // the `default` branch of the Save switch
    | NullSalt            // the cipher's key derivation was given a null salt
    | SerializerFailed    // the formatter threw while writing
    | DecryptFailed       // Decrypt threw (bad Base64, bad padding, null salt)
    | JsonParseFailed     // FromJson threw on the decrypted text

  /** How a call of Save or Load ended: normally, or with an exception that escapes to the caller. */
  datatype Exit = Returned | Threw(cause: Cause)

  /**
   * The object Save hands to the formatter: the record itself, or the
   * encryption of its JSON text; None when the encryption throws.
   */
  function DataToWrite<T>(platform: Platform<T>, useEncryption: bool, salt: Option<string>, data: T): (obj: Option<Boxed<T>>)
    ensures obj.None? <==> useEncryption && salt.None?
    ensures !useEncryption ==> obj == Some(Record(data))
    ensures useEncryption && salt.Some? ==> obj == Some(Text(platform.encrypt(platform.toJson(data), salt.value)))
  {
    if !useEncryption then Some(Record(data))
    else
      match Encrypter.Encrypt(platform.encrypt, platform.toJson(data), salt)
      case None => None
      case Some(cipher) => Some(Text(cipher))
  }

  /** The bytes Save leaves at the target path and how the call ended. */
  datatype Saved = Saved(contents: Bytes, exit: Exit)

  /**
   * Save's pipeline after the target file has been truncated: build the
   * object to write, then let the configured formatter write it.
   */
  function Encode<T>(platform: Platform<T>, fileType: FileType, useEncryption: bool, salt: Option<string>, data: T): (r: Saved)
    // an undefined file type throws with the file left empty
    ensures fileType == Other ==> r.contents == [] && r.exit.Threw?
    // encryption without a salt throws before anything is written
    ensures useEncryption && salt.None? ==> r == Saved([], Threw(NullSalt))
    // Save returns normally exactly when the format is defined, the cipher has a key and the formatter completes
    ensures r.exit == Returned <==>
              fileType != Other && DataToWrite(platform, useEncryption, salt, data).Some? &&
              platform.serialize(fileType, DataToWrite(platform, useEncryption, salt, data).value).Complete?
    // and then the file holds the formatter's complete encoding of the object
    ensures r.exit == Returned ==>
              platform.serialize(fileType, DataToWrite(platform, useEncryption, salt, data).value) == Complete(r.contents)
    // the only causes Save can throw with
    ensures r.exit.Threw? ==> r.exit.cause in {UndefinedFileType, NullSalt, SerializerFailed}
  {
    match DataToWrite(platform, useEncryption, salt, data)
    case None => Saved([], Threw(NullSalt))
    case Some(obj) =>
      if fileType == Other then Saved([], Threw(UndefinedFileType))
      else
        match platform.serialize(fileType, obj)
        case Complete(bytes) => Saved(bytes, Returned)
        case Aborted(partial) => Saved(partial, Threw(SerializerFailed))
  }

  /** What Load makes of the bytes it finds. */
  datatype Loaded<T> =
    | Decoded(value: T)      // success: the held record is replaced by `value`
    | Rejected               // an exception was caught: success is false
    | Escaped(cause: Cause)  // an exception escapes Load

  /**
   * The guarded part of Load: deserialize with the configured formatter and
   * cast to the expected type (the cipher text string with encryption on,
   * the record otherwise). None when any of it throws; the handlers catch
   * every exception there.
   */
  function ReadGuarded<T>(platform: Platform<T>, fileType: FileType, useEncryption: bool, contents: Bytes): (obj: Option<Boxed<T>>)
    ensures fileType == Other ==> obj.None?
    // an object is read only when the formatter produced it and it has the type the cast expects
    ensures obj.Some? ==> (obj.value.Text? <==> useEncryption)
    ensures obj.Some? ==> platform.deserialize(fileType, contents) == obj
    // and every such object is read
    ensures fileType != Other && platform.deserialize(fileType, contents).Some? &&
            (platform.deserialize(fileType, contents).value.Text? <==> useEncryption) ==>
              obj == platform.deserialize(fileType, contents)
  {
    if fileType == Other then None
    else
      match platform.deserialize(fileType, contents)
      case None => None
      case Some(obj) => if obj.Text? == useEncryption then Some(obj) else None
  }

  /**
   * Load's pipeline once the file is known to exist. Decryption and JSON
   * parsing come after the guarded part, so their exceptions escape.
   */
  function Decode<T>(platform: Platform<T>, fileType: FileType, useEncryption: bool, salt: Option<string>, contents: Bytes): (r: Loaded<T>)
    // an undefined file type is caught
    ensures fileType == Other ==> r == Rejected
    // only the decryption stage lets an exception escape
    ensures r.Escaped? ==> useEncryption && r.cause in {DecryptFailed, JsonParseFailed}
    // without encryption, success means the formatter produced a record, which is the result
    ensures !useEncryption ==>
              (r.Decoded? <==> fileType != Other && platform.deserialize(fileType, contents).Some? &&
                               platform.deserialize(fileType, contents).value.Record?)
    ensures !useEncryption && r.Decoded? ==> platform.deserialize(fileType, contents) == Some(Record(r.value))
    // whatever the guarded part does not read is caught
    ensures ReadGuarded(platform, fileType, useEncryption, contents).None? ==> r == Rejected
    // with encryption, the cipher text read is decrypted and parsed outside the guarded part:
    // a failing Decrypt or FromJson escapes, and otherwise the parsed record is the result
    ensures useEncryption && fileType != Other && platform.deserialize(fileType, contents).Some? &&
            platform.deserialize(fileType, contents).value.Text? ==>
              var json := Encrypter.Decrypt(platform.decrypt, platform.deserialize(fileType, contents).value.text, salt);
              if json.None? then r == Escaped(DecryptFailed)
              else if platform.fromJson(json.value).None? then r == Escaped(JsonParseFailed)
              else r == Decoded(platform.fromJson(json.value).value)
  {
    match ReadGuarded(platform, fileType, useEncryption, contents)
    case None => Rejected
    case Some(Record(v)) => Decoded(v)
    case Some(Text(cipher)) =>
      match Encrypter.Decrypt(platform.decrypt, cipher, salt)
      case None => Escaped(DecryptFailed)
      case Some(json) =>
        match platform.fromJson(json)
        case None => Escaped(JsonParseFailed)
        case Some(v) => Decoded(v)
  }

  /** Each formatter reads back exactly what it wrote completely. */
  ghost predicate SerializerRoundTrips<T(!new)>(platform: Platform<T>)
  {
    forall fileType, obj :: fileType != Other && platform.serialize(fileType, obj).Complete? ==>
      platform.deserialize(fileType, platform.serialize(fileType, obj).bytes) == Some(obj)
  }

  /** Decrypting with the key used to encrypt gives the plain text back. */
  ghost predicate CipherRoundTrips<T>(platform: Platform<T>)
  {
    forall plain, key :: platform.decrypt(platform.encrypt(plain, key), key) == Some(plain)
  }

  /**
   * Decrypting with any other key either throws or gives text that JSON
   * parsing rejects. PKCS7 padding is no integrity check: about one wrong
   * key in 256 passes it and yields garbage, which is left to the parser.
   */
  ghost predicate CipherRejectsOtherKeys<T>(platform: Platform<T>)
  {
    forall plain, key, other :: key != other ==>
      var decrypted := platform.decrypt(platform.encrypt(plain, key), other);
      decrypted.None? || platform.fromJson(decrypted.value).None?
  }

  /** JSON parsing of a value's JSON text gives the value back. */
  ghost predicate JsonRoundTrips<T(!new)>(platform: Platform<T>)
  {
    forall v :: platform.fromJson(platform.toJson(v)) == Some(v)
  }

  /**
   * Whatever Save writes without throwing, Load decodes to the saved value,
   * with or without encryption, given the round-trip laws of the services.
   */
  lemma RoundTrip<T(!new)>(platform: Platform<T>, fileType: FileType, useEncryption: bool, salt: Option<string>, data: T)
    requires SerializerRoundTrips(platform)
    requires useEncryption ==> CipherRoundTrips(platform) && JsonRoundTrips(platform)
    requires Encode(platform, fileType, useEncryption, salt, data).exit == Returned
    ensures Decode(platform, fileType, useEncryption, salt, Encode(platform, fileType, useEncryption, salt, data).contents)
            == Decoded(data)
  {
  }

  /**
   * Loading an encrypted file with encryption still on but a salt other than
   * the one it was saved with (another non-empty salt, or the null salt) does
   * not report failure: Decrypt, or the parsing of its garbage, throws
   * outside the guarded part and the exception escapes Load.
   */
  lemma OtherSaltEscapes<T(!new)>(platform: Platform<T>, fileType: FileType, salt: string, other: Option<string>, data: T)
    requires SerializerRoundTrips(platform) && CipherRejectsOtherKeys(platform)
    requires other != Some(salt) && other != Some("")
    requires Encode(platform, fileType, true, Some(salt), data).exit == Returned
    ensures Decode(platform, fileType, true, other, Encode(platform, fileType, true, Some(salt), data).contents).Escaped?
  {
  }

  /**
   * Loading an encrypted file with the empty salt, which turns encryption
   * off, is caught instead: the formatter reads a string where the cast
   * expects a record, and Load reports failure.
   */
  lemma EmptySaltRejects<T(!new)>(platform: Platform<T>, fileType: FileType, salt: string, data: T)
    requires SerializerRoundTrips(platform)
    requires Encode(platform, fileType, true, Some(salt), data).exit == Returned
    ensures Decode(platform, fileType, false, Some(""), Encode(platform, fileType, true, Some(salt), data).contents) == Rejected
  {
  }
}
