# A verified model of the Unity save system's data file manager

This project models the core of a small Unity save system: the generic
`DataFileManager<DataFileT>`, which owns one in-memory record, saves it to a
file, loads it back, and deletes it. A save can use the binary formatter or
the XML serializer, with optional encryption. Each operation fires
before/after events. The model also covers the naming rule that turns a file
name and a `FileType` into a storage path, and the `DataFile` metadata record
that applications stamp before saving.

Files:

- `file_utils.dfy` (module `FileUtils`): `FileType`, the extension rule and
  file existence.
- `encrypter.dfy` (module `Encrypter`): the Encrypter's entry points, where
  the cipher transform is a parameter and a null salt throws.
- `codec.dfy` (module `Codec`): the runtime services as one `Platform<T>`
  value, plus the two pure pipelines built from them. These are `Encode`,
  what Save writes, and `Decode`, what Load makes of a file. Round-trip
  lemmas connect the two.
- `data_file_manager.dfy` (module `Manager`): the class `DataFileManager<T>`.
  Its fields are the record `data`, the disk as a map `files` from path to
  bytes, and the append-only event `trace`. Its configuration is held in
  `const` fields.
- `data_file.dfy` (module `Metadata`): the class `DataFile` and its 32-bit
  save counter.
- `wrappers.dfy`: `Option`, where `None` stands for `null`.

The foreign services are fields of `Platform<T>`. These are the binary and
XML formatters, `JsonUtility` and the cipher. The model proves every
statement for all choices of them. The laws they are expected to obey are
predicates, and the lemmas take them as hypotheses:
`SerializerRoundTrips`, `CipherRoundTrips`, `CipherRejectsOtherKeys` and
`JsonRoundTrips`.

Behaviour of the code that the model keeps:

- Only the empty salt turns encryption off. The constructor's default null
  salt turns it on (`Runtime/DataFileManager.cs:68`). Encrypting then hashes
  a null salt (`Runtime/Encrypter.cs:14`), which throws. So `Save` on a
  manager built without a salt throws after it has truncated its file
  (`NullSaltSaveThrows`). The sample's settings manager is built this way.
- `Save` never fires `AfterSave(false)`. Every failure escapes as an
  exception, and by then the target file has already been created or
  truncated.
- In `Load`, decryption and JSON parsing run outside the `try`. A wrong salt
  or corrupt cipher text therefore escapes as an exception, and `AfterLoad`
  does not fire. `OtherSaltEscapes` proves this for any other non-empty salt
  (or the null salt) whose garbage the JSON parser rejects. The empty salt
  turns encryption off, so its manager reads the stored string where it
  expects a record. That failure is caught and reported as `false`
  (`EmptySaltRejects`). A missing file still fires
  `AfterLoad(false)`.
- `FileType` values other than `Binary` and `XML`, such as `JSON`, reach the
  `default` branches. Save then throws with an empty file: `UndefinedFileType`
  when encryption is off or a salt is given, but `NullSalt` first when the
  salt is the default null, because encryption runs before the `switch`.
  Load catches the same case and reports `false`. The path of such a file
  ends in `fileName + "."`.

Where the source's own documentation and its code disagree, the model follows
the code. The comment on `OnAfterSave` (`Runtime/DataFileManager.cs:41-43`)
says it reports whether the save succeeded, yet `Save` (`:77-110`) never
reports false. The constructor comment (`:59-60`) says a salt turns
encryption on when one is entered, yet `:68` turns it on for the null
default as well.

Save is idempotent on disk because of how `Save`'s contract is stated: the
bytes it leaves at the path depend only on the configuration and the record,
never on what the file held before.

## Model

| member | source | states |
|---|---|---|
| `FileUtils.GetFileExtensionFromType` | Runtime/FileUtils.cs:48-59 | Binary maps to "bin", XML to "xml", and exactly the other types map to null |
| `FileUtils.FileExists` | Runtime/FileUtils.cs:45-46 | a file exists exactly when its path is in the filesystem; nothing changes |
| `Encrypter.Encrypt` | Runtime/Encrypter.cs:9-28 | a null salt makes encryption throw; otherwise the result is the cipher transform of the plain text under the salt |
| `Encrypter.Decrypt` | Runtime/Encrypter.cs:30-49 | a null salt always makes decryption throw; otherwise the result is the cipher's |
| `Codec.DataToWrite` | Runtime/DataFileManager.cs:86-89 | without encryption Save writes the record itself; with it, the encryption of the record's JSON; it throws exactly when encryption is on and the salt is null |
| `Codec.Encode` | Runtime/DataFileManager.cs:84-104 | an undefined type throws and leaves an empty file; a null salt with encryption throws before writing; Save returns exactly when the type is defined, a key exists and the formatter completes, and the file then holds the complete encoding; only three causes can be thrown |
| `Codec.ReadGuarded` | Runtime/DataFileManager.cs:146-182 | the guarded part yields an object exactly when the type is defined and the formatter produced an object of the type the cast expects (string with encryption, record without), and that object is what it yields |
| `Codec.Decode` | Runtime/DataFileManager.cs:146-185 | an undefined type, and anything the guarded part does not read, is caught; without encryption success means exactly that the formatter produced a record, and that record is the result; with encryption the string read is decrypted and parsed outside the guard: a failing Decrypt escapes as DecryptFailed, a failing FromJson escapes as JsonParseFailed, and otherwise the parsed record is the result; nothing else escapes |
| `Codec.RoundTrip` | Runtime/DataFileManager.cs:84-185 | under the services' round-trip laws, whatever Save writes without throwing, Load decodes to the saved record, with or without encryption |
| `Codec.OtherSaltEscapes` | Runtime/DataFileManager.cs:184-185 | loading an encrypted file with any other non-empty salt (or the null salt) does not report failure: assuming a wrong key either fails to decrypt or yields text the JSON parser rejects, the exception escapes Load |
| `Codec.EmptySaltRejects` | Runtime/DataFileManager.cs:155-182 | loading an encrypted file with the empty salt, which turns encryption off, is caught: the cast of the stored string to a record fails and Load reports failure |
| `Manager.StoragePath` | Runtime/DataFileManager.cs:222-230 | the path is base + "/" + name + "." + "bin", "xml" or nothing, by file type |
| `Manager.StoragePathInjective` | Runtime/DataFileManager.cs:222-230 | in one base directory two managers have the same path string exactly when they have the same file name and type, so Binary and XML files of one name have distinct paths |
| `Manager.NullSaltSaveThrows` | Runtime/DataFileManager.cs:61-89 | a manager with the default null salt has encryption on, and its Save throws with the target file emptied |
| `Manager.DataFileManager.constructor` | Runtime/DataFileManager.cs:61-70 | the configuration is stored; encryption is on exactly when the salt is not the empty string; the record is the default; no events yet |
| `Manager.DataFileManager.GetFileNameWithExtension` | Runtime/DataFileManager.cs:222-225 | the name is the file name followed by ".bin", ".xml" or, for an undefined type, "." alone |
| `Manager.DataFileManager.GetFileNameWithPathAndExtension` | Runtime/DataFileManager.cs:227-230 | the one path every operation touches is the storage path of the configuration |
| `Manager.DataFileManager.ThisFileExists` | Runtime/DataFileManager.cs:232-235 | true exactly when the storage path is in the filesystem |
| `Manager.DataFileManager.Save` | Runtime/DataFileManager.cs:77-110 | only the target path changes, and it holds what `Encode` leaves; the record is unchanged; the trace gains BeforeSave, then AfterSave(true) exactly when Save returns normally |
| `Manager.DataFileManager.Load` | Runtime/DataFileManager.cs:117-195 | the disk is unchanged; a missing file keeps the record and fires BeforeLoad, AfterLoad(false); otherwise, per `Decode`, a success replaces the record and fires AfterLoad(true), a caught failure keeps it and fires AfterLoad(false), and an escaping failure keeps it, throws and fires no AfterLoad |
| `Manager.DataFileManager.Delete` | Runtime/DataFileManager.cs:202-220 | the target file is removed and no other changes; afterwards it does not exist; the record is the default; the trace gains BeforeDelete, AfterDelete(whether the file existed) |
| `Metadata.Increment` | Runtime/DataFile.cs:23 | `++` on a C# int adds one below the maximum and wraps the maximum to the minimum |
| `Metadata.DataFile.constructor` | Runtime/DataFile.cs:11-14 | a fresh record has version "undefined", no test build, counter 0 and the minimal date |
| `Metadata.DataFile.SetFileInformation` | Runtime/DataFile.cs:19-27 | the version and test flag are overwritten, the counter is incremented by one, and the last save is the clock reading |
| `Metadata.DataFile.TryGenerateBackup` | Runtime/DataFile.cs:29-32 | nothing changes |
| `Metadata.SaveCounterCountsCalls` | Runtime/DataFile.cs:13-23 | after n calls on a fresh record, for n up to the largest int, the counter is n |
| `Metadata.SetFileInformationRepeatedly` | Runtime/DataFile.cs:13-24 | n calls of SetFileInformation on a record with counter 0 leave the counter at the n-fold increment, which is n up to the largest int, and leave the last call's version, flag and time |
| `Metadata.SaveCounterWraps` | Runtime/DataFile.cs:23 | one call beyond that wraps the counter to the smallest int |

## Left out

- The formatters (BinaryFormatter, XmlSerializer), JsonUtility and the cipher
  (MD5 key derivation, TripleDES in ECB mode with PKCS7 padding, Base64) are
  not modelled. They are function fields of `Platform<T>`, and their laws
  are hypotheses, not proofs. The case of XML with encryption, where the
  serializer built for the record type is given a string, is left to the
  `serialize` function like every other case.
- The `Load(SerializationBinder)` overload's binder is left out.
  `Manager.DataFileManager.Load` models the binder-free path.
- File streams are not modelled. Opening, closing and `File.Delete` become
  updates of the `files` map. On the exception paths of Save and Load the
  source does not close its stream; the model makes no claim about it.
  I/O failures such as a missing directory or a locked file are not
  modelled either. That lock can be the program's own: a stream left open
  by a Save or Load that threw (opened with the default `FileShare.Read`)
  can make the next Save, Load or Delete of the same path fail with a
  sharing violation until it is finalized. The contracts of `Save`, `Load`
  and `Delete` assume the path is free.
- Logging (progress, warnings, errors, and the "successfully loaded"
  message) is left out.
- `Application.persistentDataPath` is the constructor parameter
  `dataSavePath`, fixed for the manager's lifetime.
- `GetFileNameWithoutExtension`, `GetFileSize` and `GetFileSizeInBytes` are
  left out: they are thin wrappers over .NET path, file-size and formatting
  helpers that the manager does not use.
- `_fileVersion` is stored by the constructor and never read, so the model
  does not take it.
- `DateTime.Now` in `SetFileInformation` is the parameter `now`. The unused
  `_lastBackup`, the backup prefix and `GetLastBackup` are left out.
- Event observers are entries of `trace`. Observer code, re-entrancy and
  concurrent use are not modelled.
- Codec.Boxed separates the record from the cipher-text string and has no
  null reference. So the model cannot express two cases where both casts
  after deserialization succeed. One is a record type that is itself
  `string`. The other is a formatter that returns null, for instance for a
  nil record written while `Data` was still the default null. As written,
  an encrypting manager then passes null to Decrypt, which throws and
  escapes Load. The model instead reads a record where a string is expected
  and reports `AfterLoad(false)`.
- Codec.RoundTrip: its hypothesis `JsonRoundTrips` does not hold for every
  record type. Unity's JSON utility does not serialize `System.DateTime`.
  An encrypted save and load of a record derived from `DataFile` therefore
  does not restore `LastSave`, and the lemma says nothing about such
  records.
- Codec.OtherSaltEscapes: it assumes that a wrong key never yields text the
  JSON parser accepts as a record. PKCS7 padding does not rule this out,
  and such a load would then succeed with garbage.
- Path normalisation is not modelled: paths are compared as strings. On a
  filesystem that ignores case, or with `..` segments, two different path
  strings can name one file. `StoragePathInjective` speaks only of path
  strings.
- The file name is a `string`, never null. In the source a null file name is
  interpolated as "" (`Runtime/DataFileManager.cs:224`), so a manager named
  null uses the same path as one named "".
