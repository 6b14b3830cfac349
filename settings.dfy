/** Configuration records, bound from the application settings and never mutated. */
module Settings {
  import opened Wrappers

  /** ExportInfo: the export root (`Patch`) and whether to clear directories before writing (`ClearPatch`). */
  datatype ExportInfo = ExportInfo(patch: string, clearPatch: bool)

  /**
   * ConnectionInfo: the server to connect to and the databases to script.
   * `databases` is a string array that may be null; login and password only
   * reach the scripting library's connection and are not part of this model.
   */
  datatype ConnectionInfo = ConnectionInfo(server: string, databases: Option<seq<string>>)
}
