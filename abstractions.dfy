/**
 * The record every extractor produces and every exporter consumes
 * (IScriptInfo, implemented by MssqlScriptInfo). All its properties have
 * public setters in the source, so every string may be null; `None` models null.
 */
module Abstractions {
  import opened Wrappers

  /** ScriptInfoLocation: the server and, for database-level objects, the database. */
  datatype ScriptInfoLocation = ScriptInfoLocation(serverName: Option<string>, databaseName: Option<string>)

  /**
   * One script record. `kind` is the source's `Type` property (the object kind
   * tag, such as "Table" or "JobStep"); `body` is the script text.
   */
  datatype ScriptInfo = ScriptInfo(
    location: ScriptInfoLocation,
    kind: Option<string>,
    schema: Option<string>,
    name: string,
    body: Option<string>)
}
