/**
 * The file-type naming rule and the file-existence query of the save system.
 * The filesystem is abstract: a map from full path to the bytes stored there.
 */
module FileUtils {
  import opened Wrappers

  type Bytes = seq<bv8>

  /**
   * The serialisation formats a manager can be configured with. `Binary` and
   * `XML` are the two the save and load switches handle; `Other` stands for
   * every remaining value of the enumeration (for instance `JSON`), which
   * falls into the `default` branches.
   */
  datatype FileType = Binary | XML | Other

  /** The extension for a file type; `None` is the `null` the default branch returns. */
  function GetFileExtensionFromType(fileType: FileType): (ext: Option<string>)
    ensures fileType == Binary <==> ext == Some("bin")
    ensures fileType == XML <==> ext == Some("xml")
    ensures fileType == Other <==> ext == None
  {
    match fileType
    case Binary => Some("bin")
    case XML => Some("xml")
    case Other => None
  }

  /** How string interpolation renders an optional string: `null` becomes "". */
  function Interpolated(s: Option<string>): (text: string)
  {
    match s
    case None => ""
    case Some(text) => text
  }

  /** Existence of a file is membership of its path in the filesystem; nothing is changed. */
  function FileExists(files: map<string, Bytes>, path: string): (present: bool)
    ensures present <==> path in files
  {
    path in files
  }
}
