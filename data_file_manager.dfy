/**
 * The manager of one data file: it owns the in-memory record, derives the
 * storage path from its configuration, and saves, loads and deletes the
 * file, announcing each operation to its observers before and after.
 *
 * The disk is the map `files` from full path to stored bytes; the
 * observers are the append-only `trace` of the events fired so far.
 */
module Manager {
  import opened Wrappers
  import opened FileUtils
  import opened Codec
  import Encrypter

  /** The lifecycle events; the After events carry the success flag. */
  datatype Event =
    | BeforeSave | AfterSave(success: bool)
    | BeforeLoad | AfterLoad(success: bool)
    | BeforeDelete | AfterDelete(success: bool)

  /**
   * The full path of a data file: base directory, "/", file name, "." and the
   * extension of its type, where an undefined type contributes nothing.
   */
  function StoragePath(dataSavePath: string, fileName: string, fileType: FileType): (path: string)
    ensures fileType == Binary ==> path == dataSavePath + "/" + fileName + ".bin"
    ensures fileType == XML ==> path == dataSavePath + "/" + fileName + ".xml"
    ensures fileType == Other ==> path == dataSavePath + "/" + fileName + "."
  {
    dataSavePath + "/" + fileName + "." + Interpolated(GetFileExtensionFromType(fileType))
  }

  /**
   * Within one base directory, two managers use the same path exactly when
   * they have the same file name and the same file type. In particular a
   * Binary and an XML manager of the same name never use the same path.
   */
  lemma {:induction false} StoragePathInjective(dataSavePath: string, name1: string, type1: FileType, name2: string, type2: FileType)
    ensures StoragePath(dataSavePath, name1, type1) == StoragePath(dataSavePath, name2, type2)
            <==> name1 == name2 && type1 == type2
  {
    var p1, p2 := StoragePath(dataSavePath, name1, type1), StoragePath(dataSavePath, name2, type2);
    if p1 == p2 {
      var prefix := dataSavePath + "/";
      var ext1, ext2 := Interpolated(GetFileExtensionFromType(type1)), Interpolated(GetFileExtensionFromType(type2));
      assert p1 == prefix + (name1 + "." + ext1);
      assert p2 == prefix + (name2 + "." + ext2);
      var tail1, tail2 := name1 + "." + ext1, name2 + "." + ext2;
      assert tail1 == p1[|prefix|..] == tail2;
      // the last character tells the type: 'n' for bin, 'l' for xml, '.' for none
      assert tail1[|tail1| - 1] == tail2[|tail2| - 1];
      assert type1 == type2;
      assert name1 == tail1[..|name1|] == tail2[..|name2|] == name2;
    }
  }

  class DataFileManager<T> {
    /** The record; application code reads and writes it directly. */
    var data: T
    /** The disk: the bytes stored at each full path. */
    var files: map<string, Bytes>
    /** Every event fired so far, oldest first. */
    var trace: seq<Event>

    const fileName: string
    const fileType: FileType
    /** None is the null salt, the default of the constructor. */
    const salt: Option<string>
    /** Only the empty salt turns encryption off; the null salt turns it on. */
    const useEncryption: bool := salt != Some("")
    const platform: Platform<T>
    /** The base directory of all data files (the persistent data path). */
    const dataSavePath: string

    constructor (fileName: string, fileType: FileType, salt: Option<string>,
                 platform: Platform<T>, dataSavePath: string, files: map<string, Bytes>)
      ensures this.fileName == fileName && this.fileType == fileType && this.salt == salt
      ensures this.platform == platform && this.dataSavePath == dataSavePath
      ensures useEncryption <==> salt != Some("")
      ensures data == platform.defaultValue
      ensures this.files == files && trace == []
    {
      this.fileName := fileName;
      this.fileType := fileType;
      this.salt := salt;
      this.platform := platform;
      this.dataSavePath := dataSavePath;
      data := platform.defaultValue;
      this.files := files;
      trace := [];
    }

    function GetFileNameWithExtension(): (name: string)
      ensures fileType == Binary ==> name == fileName + ".bin"
      ensures fileType == XML ==> name == fileName + ".xml"
      ensures fileType == Other ==> name == fileName + "."
    {
      fileName + "." + Interpolated(GetFileExtensionFromType(fileType))
    }

    /** The one path that Save, Load and Delete touch. */
    function GetFileNameWithPathAndExtension(): (path: string)
      ensures path == StoragePath(dataSavePath, fileName, fileType)
    {
      dataSavePath + "/" + GetFileNameWithExtension()
    }

    predicate ThisFileExists()
      reads this
      ensures ThisFileExists() <==> StoragePath(dataSavePath, fileName, fileType) in files
    {
      FileExists(files, GetFileNameWithPathAndExtension())
    }

    /**
     * Fires BeforeSave, creates or truncates the target file, and writes the
     * record (or, with encryption on, the encryption of its JSON text) with
     * the configured formatter. Only a normal return fires AfterSave, and
     * then always with true: failures escape as exceptions, leaving the
     * truncated or partly written file behind.
     */
    method Save() returns (exit: Exit)
      modifies this
      ensures exit == Encode(platform, fileType, useEncryption, salt, data).exit
      ensures files == old(files)[GetFileNameWithPathAndExtension() := Encode(platform, fileType, useEncryption, salt, data).contents]
      ensures data == old(data)
      ensures trace == old(trace) + [BeforeSave] + (if exit == Returned then [AfterSave(true)] else [])
    {
      trace := trace + [BeforeSave];
      var success := false;
      var path := GetFileNameWithPathAndExtension();
      files := files[path := []];
      var dataToWrite: Boxed<T> := Record(data);
      if useEncryption {
        var cipher := Encrypter.Encrypt(platform.encrypt, platform.toJson(data), salt);
        if cipher.None? {
          return Threw(NullSalt);
        }
        dataToWrite := Text(cipher.value);
      }
      if fileType == Other {
        return Threw(UndefinedFileType);
      }
      match platform.serialize(fileType, dataToWrite) {
        case Complete(bytes) =>
          files := files[path := bytes];
        case Aborted(partial) =>
          files := files[path := partial];
          return Threw(SerializerFailed);
      }
      success := true;
      trace := trace + [AfterSave(success)];
      exit := Returned;
    }

    /**
     * Fires BeforeLoad; when the target file exists, deserializes it and,
     * with encryption on, decrypts and parses the result. A missing file or
     * a caught failure keeps the record and fires AfterLoad(false); a
     * success replaces the record and fires AfterLoad(true); a failure of
     * decryption or parsing escapes and fires no AfterLoad. The disk is
     * only read.
     */
    method Load() returns (exit: Exit)
      modifies this
      ensures files == old(files)
      ensures var path := GetFileNameWithPathAndExtension();
              path !in files ==>
                exit == Returned && data == old(data) && trace == old(trace) + [BeforeLoad, AfterLoad(false)]
      ensures var path := GetFileNameWithPathAndExtension();
              path in files ==>
                match Decode(platform, fileType, useEncryption, salt, files[path])
                case Decoded(v) =>
                  exit == Returned && data == v && trace == old(trace) + [BeforeLoad, AfterLoad(true)]
                case Rejected =>
                  exit == Returned && data == old(data) && trace == old(trace) + [BeforeLoad, AfterLoad(false)]
                case Escaped(cause) =>
                  exit == Threw(cause) && data == old(data) && trace == old(trace) + [BeforeLoad]
    {
      trace := trace + [BeforeLoad];
      var success := false;
      if ThisFileExists() {
        var contents := files[GetFileNameWithPathAndExtension()];
        var loadedData := platform.defaultValue;
        var loadedEncryptedData := "";
        // the guarded part: every exception in it is caught and leaves success false
        if fileType != Other {
          match platform.deserialize(fileType, contents) {
            case None =>
            case Some(obj) =>
              if useEncryption && obj.Text? {
                loadedEncryptedData := obj.text;
                success := true;
              } else if !useEncryption && obj.Record? {
                loadedData := obj.value;
                success := true;
              }
          }
        }
        if useEncryption && success {
          match Encrypter.Decrypt(platform.decrypt, loadedEncryptedData, salt) {
            case None =>
              return Threw(DecryptFailed);
            case Some(json) =>
              match platform.fromJson(json) {
                case None =>
                  return Threw(JsonParseFailed);
                case Some(v) =>
                  loadedData := v;
              }
          }
        }
        if success {
          data := loadedData;
        }
      }
      trace := trace + [AfterLoad(success)];
      exit := Returned;
    }

    /**
     * Fires BeforeDelete, removes the target file when it exists, resets the
     * record to its default in every case, and fires AfterDelete with
     * whether a file was removed.
     */
    method Delete()
      modifies this
      ensures var path := GetFileNameWithPathAndExtension();
              files == old(files) - {path} &&
              trace == old(trace) + [BeforeDelete, AfterDelete(path in old(files))]
      ensures !ThisFileExists()
      ensures data == platform.defaultValue
    {
      trace := trace + [BeforeDelete];
      var success := false;
      if ThisFileExists() {
        files := files - {GetFileNameWithPathAndExtension()};
        success := true;
      }
      data := platform.defaultValue;
      trace := trace + [AfterDelete(success)];
    }
  }

  /**
   * A manager built with the default null salt has encryption on, and its
   * Save cannot derive a key: it throws with the target file truncated to
   * nothing, whatever the file type and the record.
   */
  lemma NullSaltSaveThrows<T>(m: DataFileManager<T>)
    requires m.salt == None
    ensures m.useEncryption
    ensures Encode(m.platform, m.fileType, m.useEncryption, m.salt, m.data) == Saved([], Threw(NullSalt))
  {
  }
}
