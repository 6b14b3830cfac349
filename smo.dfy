/**
 * What the scripting library (SQL Server Management Objects) shows the
 * extraction service, reduced to plain values: every scriptable object is its
 * flags, names and the lines its `Script(...)` call returns. A script may be
 * null (`None`), as a StringCollection may be.
 */
module Smo {
  import opened Wrappers

  /** The lines `Script(options)` returns for one object, or null. */
  type ScriptLines = Option<seq<string>>

  /**
   * A scriptable object of one of the simple kinds. `schema` is read only by
   * kinds that have a schema, `owner` only by endpoints and schemas.
   */
  datatype DbObject = DbObject(
    isSystemObject: bool,
    schema: string,
    owner: string,
    name: string,
    script: ScriptLines)

  /** A named sub-object with its own script: a foreign key, trigger, job step or job schedule. */
  datatype NamedScript = NamedScript(name: string, script: ScriptLines)

  /** A table index; clustered ones are scripted into the table's own body. */
  datatype Index = Index(name: string, isClustered: bool, script: ScriptLines)

  /** A table with its check constraints, foreign keys, triggers and indexes, in collection order. */
  datatype Table = Table(
    isSystemObject: bool,
    schema: string,
    name: string,
    script: ScriptLines,
    checks: seq<ScriptLines>,
    foreignKeys: seq<NamedScript>,
    triggers: seq<NamedScript>,
    indexes: seq<Index>)

  /** An Agent job with its steps and schedules. */
  datatype Job = Job(category: string, name: string, script: ScriptLines, steps: seq<NamedScript>, schedules: seq<NamedScript>)

  /**
   * The object collections the service enumerates, other than tables, jobs
   * and endpoints. The Service Broker kinds are the collections under
   * `Database.ServiceBroker`.
   */
  datatype ObjectKind =
    | Endpoints
    | Schemas
    | Views
    | Synonyms
    | StoredProcedures
    | UserDefinedAggregates
    | UserDefinedDataTypes
    | UserDefinedFunctions
    | UserDefinedTableTypes
    | UserDefinedTypes
    | Assemblies
    | PartitionFunctions
    | PartitionSchemes
    | MessageTypes
    | ServiceContracts
    | Queues
    | BrokerServices
    | Routes
    | RemoteServiceBindings
    | Sequences

  /**
   * One database: its tables and, per object kind, the objects of that kind
   * in collection order (a kind the map does not list has no objects).
   */
  datatype Database = Database(tables: seq<Table>, collections: map<ObjectKind, seq<DbObject>>)

  /** The objects of kind `k` in database `db`. */
  function Collection(db: Database, k: ObjectKind): seq<DbObject>
  {
    if k in db.collections then db.collections[k] else []
  }

  /**
   * The server as one connection sees it: `NetName`, `VersionMajor`, the
   * endpoints, the Agent jobs and the databases by name.
   */
  datatype Server = Server(
    netName: string,
    versionMajor: int,
    endpoints: seq<DbObject>,
    jobs: seq<Job>,
    databases: map<string, Database>)

  /**
   * The server together with the databases a connection cannot be opened
   * for (unreachable, refused login): every call into such a unit throws.
   */
  datatype Provider = Provider(server: Server, unreachable: set<string>)
}
