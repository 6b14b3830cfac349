/**
 * MssqlScriptService: for every configured database one unit of work opens
 * its own connection, runs the fixed, version-gated sequence of extractors
 * and returns the records; the outcomes are then collected, failed units
 * contributing nothing. Each extractor is a loop over one SMO collection that
 * filters system objects and the excluded schemas and appends records.
 */
module MsSql {
  import opened Wrappers
  import opened Abstractions
  import opened Settings
  import opened Smo

  /** `Environment.NewLine` on the Windows hosts the tool targets. */
  const NewLine: string := "\r\n"

  /** The schemas no extractor scripts (`_schemaExcluded`), compared after lower-casing. */
  const SchemaExcluded: seq<string> := ["sys", "information_schema"]

  // ---------------------------------------------------------------------------
  // MapToString
  // ---------------------------------------------------------------------------

  /** The text one script line becomes: the line, a newline, `GO` and a blank line. */
  function Batch(entry: string): string
  {
    entry + NewLine + "GO" + NewLine + NewLine
  }

  /** The batches of all lines, in order. */
  function Batches(entries: seq<string>): string
  {
    if entries == [] then ""
    else Batches(entries[..|entries| - 1]) + Batch(entries[|entries| - 1])
  }

  /** What MapToString returns for a collection: null for a null or empty one, else its batches. */
  function ScriptText(collection: ScriptLines): Option<string>
  {
    if collection.None? || |collection.value| == 0 then None else Some(Batches(collection.value))
  }

  /**
   * MapToString: null for a null or empty collection; otherwise every line
   * followed by a newline, `GO`, a newline and an empty line, in order.
   */
  method MapToString(collection: ScriptLines) returns (r: Option<string>)
    ensures r.None? <==> collection.None? || |collection.value| == 0
    ensures r.Some? ==> r.value == Batches(collection.value)
  {
    if collection.None? || |collection.value| <= 0 {
      return None;
    }
    var lines := collection.value;
    var resultString := "";
    for i := 0 to |lines|
      invariant resultString == Batches(lines[..i])
    {
      assert lines[..i + 1][..i] == lines[..i];
      resultString := resultString + lines[i] + NewLine;
      resultString := resultString + "GO" + NewLine + NewLine;
    }
    assert lines[..|lines|] == lines;
    return Some(resultString);
  }

  /** `StringBuilder.AppendLine(s)`: the text followed by a newline; a null text adds only the newline. */
  function Line(s: Option<string>): string
  {
    s.GetOr("") + NewLine
  }

  // ---------------------------------------------------------------------------
  // The schema filter
  // ---------------------------------------------------------------------------

  /** ASCII lower-casing of one character. */
  function LowerChar(c: char): char
  {
    if 'A' <= c <= 'Z' then (c as int + 32) as char else c
  }

  /** `ToLower`, restricted to ASCII letters. */
  function AsciiLower(s: string): string
  {
    seq(|s|, i requires 0 <= i < |s| => LowerChar(s[i]))
  }

  /** `_schemaExcluded.Contains(schema.ToLower())`. */
  predicate IsExcludedSchema(schema: string)
  {
    AsciiLower(schema) in SchemaExcluded
  }

  // ---------------------------------------------------------------------------
  // The simple extractors, as data
  // ---------------------------------------------------------------------------

  /** Where a record's `Schema` comes from: the object's schema, its owner, or nowhere (null). */
  datatype SchemaSource = FromSchema | FromOwner | NoSchema

  /**
   * What distinguishes one simple extractor from another: the `Type` tag it
   * writes, whether it skips system objects, whether it skips the excluded
   * schemas, and what it puts in `Schema`.
   */
  datatype KindRule = KindRule(tag: string, skipSystem: bool, skipExcluded: bool, schemaSource: SchemaSource)

  /** The rule each `Get*` extractor follows, as its loop is written. */
  function RuleOf(k: ObjectKind): KindRule
  {
    match k
    case Endpoints => KindRule("Endpoint", true, false, FromOwner)
    case Schemas => KindRule("Schema", true, false, FromOwner)
    case Views => KindRule("View", true, true, FromSchema)
    case Synonyms => KindRule("Synonym", false, true, FromSchema)
    case StoredProcedures => KindRule("StoredProcedure", true, true, FromSchema)
    case UserDefinedAggregates => KindRule("UserDefinedAggregate", false, true, FromSchema)
    case UserDefinedDataTypes => KindRule("UserDefinedDataType", false, true, FromSchema)
    case UserDefinedFunctions => KindRule("UserDefinedFunction", true, true, FromSchema)
    case UserDefinedTableTypes => KindRule("UserDefinedTableType", false, true, FromSchema)
    // GetUserDefinedTypes tags its records with the table-type tag.
    case UserDefinedTypes => KindRule("UserDefinedTableType", false, true, FromSchema)
    case Assemblies => KindRule("Assembly", true, false, NoSchema)
    case PartitionFunctions => KindRule("PartitionFunction", false, false, NoSchema)
    case PartitionSchemes => KindRule("PartitionScheme", false, false, NoSchema)
    case MessageTypes => KindRule("ServiceBrokerMessageType", true, false, NoSchema)
    case ServiceContracts => KindRule("ServiceBrokerServiceContract", true, false, NoSchema)
    case Queues => KindRule("ServiceBrokerQueues", true, true, FromSchema)
    case BrokerServices => KindRule("ServiceBrokerService", true, false, NoSchema)
    case Routes => KindRule("ServiceBrokerRoute", false, false, NoSchema)
    case RemoteServiceBindings => KindRule("ServiceBrokerRemoteBinding", false, false, NoSchema)
    case Sequences => KindRule("Sequence", false, true, FromSchema)
  }

  /** Whether an object passes the extractor's filters. */
  predicate Survives(rule: KindRule, o: DbObject)
  {
    !(rule.skipSystem && o.isSystemObject) && !(rule.skipExcluded && IsExcludedSchema(o.schema))
  }

  /** The record an extractor makes for one object that passed its filters. */
  function RecordOf(rule: KindRule, o: DbObject, location: ScriptInfoLocation): ScriptInfo
  {
    var schema := match rule.schemaSource
      case FromSchema => Some(o.schema)
      case FromOwner => Some(o.owner)
      case NoSchema => None;
    ScriptInfo(location, Some(rule.tag), schema, o.name, ScriptText(o.script))
  }

  /** The records a simple extractor returns for a collection. */
  function ObjectRecords(rule: KindRule, objects: seq<DbObject>, location: ScriptInfoLocation): seq<ScriptInfo>
  {
    if objects == [] then []
    else
      var last := objects[|objects| - 1];
      ObjectRecords(rule, objects[..|objects| - 1], location) +
      (if Survives(rule, last) then [RecordOf(rule, last, location)] else [])
  }

  /** One simple `Get*` extractor: a loop over the collection that filters and appends. */
  method ExtractObjects(rule: KindRule, objects: seq<DbObject>, location: ScriptInfoLocation)
    returns (scriptCollection: seq<ScriptInfo>)
    ensures scriptCollection == ObjectRecords(rule, objects, location)
  {
    scriptCollection := [];
    for i := 0 to |objects|
      invariant scriptCollection == ObjectRecords(rule, objects[..i], location)
    {
      assert objects[..i + 1][..i] == objects[..i];
      var o := objects[i];
      if rule.skipSystem && o.isSystemObject {
        continue;
      }
      if rule.skipExcluded && IsExcludedSchema(o.schema) {
        continue;
      }
      var body := MapToString(o.script);
      var schema := match rule.schemaSource
        case FromSchema => Some(o.schema)
        case FromOwner => Some(o.owner)
        case NoSchema => None;
      scriptCollection := scriptCollection + [ScriptInfo(location, Some(rule.tag), schema, o.name, body)];
    }
    assert objects[..|objects|] == objects;
  }

  // ---------------------------------------------------------------------------
  // Jobs
  // ---------------------------------------------------------------------------

  /** The records of a job's steps or schedules: all tagged "JobStep", with the job's name as schema. */
  function JobPartRecords(job: Job, parts: seq<NamedScript>, location: ScriptInfoLocation): seq<ScriptInfo>
  {
    if parts == [] then []
    else
      var last := parts[|parts| - 1];
      JobPartRecords(job, parts[..|parts| - 1], location) +
      [ScriptInfo(location, Some("JobStep"), Some(job.name), last.name, ScriptText(last.script))]
  }

  /** A job's records: the job itself (schema = its category), then its steps, then its schedules. */
  function JobRecords(job: Job, location: ScriptInfoLocation): seq<ScriptInfo>
  {
    [ScriptInfo(location, Some("Job"), Some(job.category), job.name, ScriptText(job.script))] +
    JobPartRecords(job, job.steps, location) + JobPartRecords(job, job.schedules, location)
  }

  /** The records of all jobs, in order. */
  function JobsRecords(jobs: seq<Job>, location: ScriptInfoLocation): seq<ScriptInfo>
  {
    if jobs == [] then []
    else JobsRecords(jobs[..|jobs| - 1], location) + JobRecords(jobs[|jobs| - 1], location)
  }

  /** The step or schedule loop inside GetServerJob. */
  method AddJobParts(job: Job, parts: seq<NamedScript>, location: ScriptInfoLocation, scriptCollection: seq<ScriptInfo>)
    returns (result: seq<ScriptInfo>)
    ensures result == scriptCollection + JobPartRecords(job, parts, location)
  {
    result := scriptCollection;
    for k := 0 to |parts|
      invariant result == scriptCollection + JobPartRecords(job, parts[..k], location)
    {
      assert parts[..k + 1][..k] == parts[..k];
      var body := MapToString(parts[k].script);
      result := result + [ScriptInfo(location, Some("JobStep"), Some(job.name), parts[k].name, body)];
    }
    assert parts[..|parts|] == parts;
  }

  /** GetServerJob: every job, each followed by its steps and its schedules. */
  method GetServerJob(jobs: seq<Job>, location: ScriptInfoLocation) returns (scriptCollection: seq<ScriptInfo>)
    ensures scriptCollection == JobsRecords(jobs, location)
  {
    scriptCollection := [];
    for i := 0 to |jobs|
      invariant scriptCollection == JobsRecords(jobs[..i], location)
    {
      assert jobs[..i + 1][..i] == jobs[..i];
      var job := jobs[i];
      var body := MapToString(job.script);
      scriptCollection := scriptCollection + [ScriptInfo(location, Some("Job"), Some(job.category), job.name, body)];
      scriptCollection := AddJobParts(job, job.steps, location, scriptCollection);
      scriptCollection := AddJobParts(job, job.schedules, location, scriptCollection);
    }
    assert jobs[..|jobs|] == jobs;
  }

  // ---------------------------------------------------------------------------
  // Tables
  // ---------------------------------------------------------------------------

  /** The schema of a table's child records: `<table schema>.<table name>`. */
  function ChildSchema(table: Table): string
  {
    table.schema + "." + table.name
  }

  /** The records of a table's foreign keys or triggers; each body is its script plus a newline. */
  function ChildRecords(tag: string, table: Table, children: seq<NamedScript>, location: ScriptInfoLocation): seq<ScriptInfo>
  {
    if children == [] then []
    else
      var last := children[|children| - 1];
      ChildRecords(tag, table, children[..|children| - 1], location) +
      [ScriptInfo(location, Some(tag), Some(ChildSchema(table)), last.name, Some(Line(ScriptText(last.script))))]
  }

  /** The records of a table's non-clustered indexes; clustered ones make none. */
  function IndexRecords(table: Table, indexes: seq<Index>, location: ScriptInfoLocation): seq<ScriptInfo>
  {
    if indexes == [] then []
    else IndexRecords(table, indexes[..|indexes| - 1], location) + IndexContribution(table, indexes[|indexes| - 1], location)
  }

  /** What one index adds to the records: nothing when clustered, else its own record. */
  function IndexContribution(table: Table, index: Index, location: ScriptInfoLocation): seq<ScriptInfo>
  {
    if index.isClustered then []
    else [ScriptInfo(location, Some("Index"), Some(ChildSchema(table)), index.name, Some(Line(ScriptText(index.script))))]
  }

  /** The check constraints' lines of a table body. */
  function CheckLines(checks: seq<ScriptLines>): string
  {
    if checks == [] then ""
    else CheckLines(checks[..|checks| - 1]) + Line(ScriptText(checks[|checks| - 1]))
  }

  /** The clustered indexes' lines of a table body; non-clustered ones add nothing. */
  function ClusteredLines(indexes: seq<Index>): string
  {
    if indexes == [] then ""
    else ClusteredLines(indexes[..|indexes| - 1]) + ClusteredContribution(indexes[|indexes| - 1])
  }

  /** What one index adds to the table body: its script when clustered, else nothing. */
  function ClusteredContribution(index: Index): string
  {
    if index.isClustered then Line(ScriptText(index.script)) else ""
  }

  /** A table's own body: its script, then every check, then every clustered index. */
  function TableBody(table: Table): string
  {
    Line(ScriptText(table.script)) + CheckLines(table.checks) + ClusteredLines(table.indexes)
  }

  /** Whether GetTables skips a table: a system table, or one in an excluded schema. */
  predicate SkipTable(table: Table)
  {
    table.isSystemObject || IsExcludedSchema(table.schema)
  }

  /** The records of one scripted table: foreign keys, triggers, non-clustered indexes, then the table. */
  function TableRecords(table: Table, location: ScriptInfoLocation): seq<ScriptInfo>
  {
    ChildRecords("ForeignKey", table, table.foreignKeys, location) +
    ChildRecords("Trigger", table, table.triggers, location) +
    IndexRecords(table, table.indexes, location) +
    [ScriptInfo(location, Some("Table"), Some(table.schema), table.name, Some(TableBody(table)))]
  }

  /** The records GetTables returns. */
  function TablesRecords(tables: seq<Table>, location: ScriptInfoLocation): seq<ScriptInfo>
  {
    if tables == [] then []
    else
      var last := tables[|tables| - 1];
      TablesRecords(tables[..|tables| - 1], location) + TableContribution(last, location)
  }

  /** What one table adds to GetTables' list: nothing when it is skipped, else its records. */
  function TableContribution(table: Table, location: ScriptInfoLocation): seq<ScriptInfo>
  {
    if SkipTable(table) then [] else TableRecords(table, location)
  }

  /** The foreign-key or trigger loop inside GetTables. */
  method AddChildren(tag: string, table: Table, children: seq<NamedScript>, location: ScriptInfoLocation, scriptCollection: seq<ScriptInfo>)
    returns (result: seq<ScriptInfo>)
    ensures result == scriptCollection + ChildRecords(tag, table, children, location)
  {
    result := scriptCollection;
    for k := 0 to |children|
      invariant result == scriptCollection + ChildRecords(tag, table, children[..k], location)
    {
      assert children[..k + 1][..k] == children[..k];
      var childScript := MapToString(children[k].script);
      result := result + [ScriptInfo(location, Some(tag), Some(table.schema + "." + table.name), children[k].name, Some(Line(childScript)))];
    }
    assert children[..|children|] == children;
  }

  /** Check `k` contributes its line right after those of the checks before it. */
  lemma CheckStep(checks: seq<ScriptLines>, k: int)
    requires 0 <= k < |checks|
    ensures CheckLines(checks[..k + 1]) == CheckLines(checks[..k]) + Line(ScriptText(checks[k]))
  {
    assert checks[..k + 1][..k] == checks[..k];
  }

  /** The start of a table body: the table's script, then the check constraints' scripts. */
  method ScriptTableAndChecks(table: Table) returns (tableScript: string)
    ensures tableScript == Line(ScriptText(table.script)) + CheckLines(table.checks)
  {
    var script := MapToString(table.script);
    assert script == ScriptText(table.script);
    tableScript := Line(script);
    ghost var head := tableScript;
    var checks := table.checks;
    for k := 0 to |checks|
      invariant tableScript == head + CheckLines(checks[..k])
    {
      CheckStep(checks, k);
      ghost var lines := CheckLines(checks[..k]);
      var checkScript := MapToString(checks[k]);
      assert checkScript == ScriptText(checks[k]);
      tableScript := tableScript + Line(checkScript);
      assert tableScript == head + (lines + Line(ScriptText(checks[k])));
    }
    assert checks[..|checks|] == checks;
  }

  /** One pass of the index loop: a clustered index joins the table body, any other one becomes a record. */
  method ScriptIndex(table: Table, index: Index, location: ScriptInfoLocation, scriptCollection: seq<ScriptInfo>, tableScript: string)
    returns (result: seq<ScriptInfo>, body: string)
    ensures result == scriptCollection + IndexContribution(table, index, location)
    ensures body == tableScript + ClusteredContribution(index)
  {
    var indexScript := MapToString(index.script);
    assert indexScript == ScriptText(index.script);
    if index.isClustered {
      result, body := scriptCollection, tableScript + Line(indexScript);
      assert scriptCollection + [] == scriptCollection;
    } else {
      result := scriptCollection + [ScriptInfo(location, Some("Index"), Some(table.schema + "." + table.name), index.name, Some(Line(indexScript)))];
      body := tableScript;
      assert tableScript + "" == tableScript;
    }
  }

  /** Index `k` contributes right after the indexes before it. */
  lemma IndexStep(table: Table, indexes: seq<Index>, k: int, location: ScriptInfoLocation)
    requires 0 <= k < |indexes|
    ensures IndexRecords(table, indexes[..k + 1], location) ==
      IndexRecords(table, indexes[..k], location) + IndexContribution(table, indexes[k], location)
    ensures ClusteredLines(indexes[..k + 1]) == ClusteredLines(indexes[..k]) + ClusteredContribution(indexes[k])
  {
    assert indexes[..k + 1][..k] == indexes[..k];
  }

  /** One pass of the index loop keeps the loop's invariant. */
  lemma IndexLoopStep(table: Table, indexes: seq<Index>, k: int, location: ScriptInfoLocation,
                      scriptCollection: seq<ScriptInfo>, tableScript: string,
                      before: seq<ScriptInfo>, beforeBody: string, after: seq<ScriptInfo>, afterBody: string)
    requires 0 <= k < |indexes|
    requires before == scriptCollection + IndexRecords(table, indexes[..k], location)
    requires beforeBody == tableScript + ClusteredLines(indexes[..k])
    requires after == before + IndexContribution(table, indexes[k], location)
    requires afterBody == beforeBody + ClusteredContribution(indexes[k])
    ensures after == scriptCollection + IndexRecords(table, indexes[..k + 1], location)
    ensures afterBody == tableScript + ClusteredLines(indexes[..k + 1])
  {
    IndexStep(table, indexes, k, location);
    AppendAssoc(scriptCollection, IndexRecords(table, indexes[..k], location), IndexContribution(table, indexes[k], location));
    AppendAssoc(tableScript, ClusteredLines(indexes[..k]), ClusteredContribution(indexes[k]));
  }

  /** Appending two lists in turn is appending their concatenation. */
  lemma AppendAssoc<T>(a: seq<T>, b: seq<T>, c: seq<T>)
    ensures a + b + c == a + (b + c)
  {
  }

  /** The index loop inside GetTables. */
  method AddIndexes(table: Table, location: ScriptInfoLocation, scriptCollection: seq<ScriptInfo>, tableScript: string)
    returns (result: seq<ScriptInfo>, body: string)
    ensures result == scriptCollection + IndexRecords(table, table.indexes, location)
    ensures body == tableScript + ClusteredLines(table.indexes)
  {
    result, body := scriptCollection, tableScript;
    var indexes := table.indexes;
    for k := 0 to |indexes|
      invariant result == scriptCollection + IndexRecords(table, indexes[..k], location)
      invariant body == tableScript + ClusteredLines(indexes[..k])
    {
      ghost var before, beforeBody := result, body;
      result, body := ScriptIndex(table, indexes[k], location, result, body);
      IndexLoopStep(table, indexes, k, location, scriptCollection, tableScript, before, beforeBody, result, body);
    }
    assert indexes[..|indexes|] == indexes;
  }

  /** The body of GetTables' loop for a table that passed the filters. */
  method ScriptTable(table: Table, location: ScriptInfoLocation, scriptCollection: seq<ScriptInfo>)
    returns (result: seq<ScriptInfo>)
    ensures result == scriptCollection + TableRecords(table, location)
  {
    var tableScript := ScriptTableAndChecks(table);
    result := AddChildren("ForeignKey", table, table.foreignKeys, location, scriptCollection);
    result := AddChildren("Trigger", table, table.triggers, location, result);
    result, tableScript := AddIndexes(table, location, result, tableScript);
    result := result + [ScriptInfo(location, Some("Table"), Some(table.schema), table.name, Some(tableScript))];
    JoinFive(scriptCollection, ChildRecords("ForeignKey", table, table.foreignKeys, location),
             ChildRecords("Trigger", table, table.triggers, location), IndexRecords(table, table.indexes, location),
             [ScriptInfo(location, Some("Table"), Some(table.schema), table.name, Some(TableBody(table)))]);
  }

  /** Appending four lists in turn is appending their concatenation. */
  lemma JoinFive<T>(a: seq<T>, b: seq<T>, c: seq<T>, d: seq<T>, e: seq<T>)
    ensures a + b + c + d + e == a + (b + c + d + e)
  {
  }

  /** Table `k` contributes right after the tables before it. */
  lemma TableStep(tables: seq<Table>, k: int, location: ScriptInfoLocation)
    requires 0 <= k < |tables|
    ensures TablesRecords(tables[..k + 1], location) == TablesRecords(tables[..k], location) + TableContribution(tables[k], location)
  {
    assert tables[..k + 1][..k] == tables[..k];
  }

  /** GetTables: every table outside the system and the excluded schemas, as child records then the table record. */
  method GetTables(tables: seq<Table>, location: ScriptInfoLocation) returns (scriptCollection: seq<ScriptInfo>)
    ensures scriptCollection == TablesRecords(tables, location)
  {
    scriptCollection := [];
    for i := 0 to |tables|
      invariant scriptCollection == TablesRecords(tables[..i], location)
    {
      TableStep(tables, i, location);
      var table := tables[i];
      if table.isSystemObject {
        assert scriptCollection + [] == scriptCollection;
        continue;
      }
      if IsExcludedSchema(table.schema) {
        assert scriptCollection + [] == scriptCollection;
        continue;
      }
      scriptCollection := ScriptTable(table, location, scriptCollection);
    }
    assert tables[..|tables|] == tables;
  }

  // ---------------------------------------------------------------------------
  // One unit of work and the aggregation
  // ---------------------------------------------------------------------------

  /** The location of server-level records: the server's `NetName` and no database. */
  function ServerLocation(server: Server): ScriptInfoLocation
  {
    ScriptInfoLocation(Some(server.netName), None)
  }

  /** The location of database-level records. */
  function DatabaseLocation(server: Server, databaseName: string): ScriptInfoLocation
  {
    ScriptInfoLocation(Some(server.netName), Some(databaseName))
  }

  /** The records of one simple kind in one database. */
  function KindRecords(server: Server, databaseName: string, db: Database, k: ObjectKind): seq<ScriptInfo>
  {
    ObjectRecords(RuleOf(k), Collection(db, k), DatabaseLocation(server, databaseName))
  }

  /** The server-level records every unit starts with: endpoints, then jobs. */
  function ServerRecords(server: Server): seq<ScriptInfo>
  {
    ObjectRecords(RuleOf(Endpoints), server.endpoints, ServerLocation(server)) +
    JobsRecords(server.jobs, ServerLocation(server))
  }

  /** The first database-level records: schemas, tables, views, synonyms and stored procedures. */
  function SchemaObjectRecords(server: Server, databaseName: string, db: Database): seq<ScriptInfo>
  {
    KindRecords(server, databaseName, db, Schemas) +
    TablesRecords(db.tables, DatabaseLocation(server, databaseName)) +
    KindRecords(server, databaseName, db, Views) +
    KindRecords(server, databaseName, db, Synonyms) +
    KindRecords(server, databaseName, db, StoredProcedures)
  }

  /** The user-defined aggregates, data types, functions, table types and types. */
  function UserDefinedRecords(server: Server, databaseName: string, db: Database): seq<ScriptInfo>
  {
    KindRecords(server, databaseName, db, UserDefinedAggregates) +
    KindRecords(server, databaseName, db, UserDefinedDataTypes) +
    KindRecords(server, databaseName, db, UserDefinedFunctions) +
    KindRecords(server, databaseName, db, UserDefinedTableTypes) +
    KindRecords(server, databaseName, db, UserDefinedTypes)
  }

  /** The database-level records every version gets, in extraction order. */
  function DatabaseRecords(server: Server, databaseName: string, db: Database): seq<ScriptInfo>
  {
    SchemaObjectRecords(server, databaseName, db) + UserDefinedRecords(server, databaseName, db)
  }

  /** Assemblies, partition functions and partition schemes. */
  function AssemblyAndPartitionRecords(server: Server, databaseName: string, db: Database): seq<ScriptInfo>
  {
    KindRecords(server, databaseName, db, Assemblies) +
    KindRecords(server, databaseName, db, PartitionFunctions) +
    KindRecords(server, databaseName, db, PartitionSchemes)
  }

  /** The six Service Broker kinds. */
  function ServiceBrokerRecords(server: Server, databaseName: string, db: Database): seq<ScriptInfo>
  {
    KindRecords(server, databaseName, db, MessageTypes) +
    KindRecords(server, databaseName, db, ServiceContracts) +
    KindRecords(server, databaseName, db, Queues) +
    KindRecords(server, databaseName, db, BrokerServices) +
    KindRecords(server, databaseName, db, Routes) +
    KindRecords(server, databaseName, db, RemoteServiceBindings)
  }

  /** The records extracted only from SQL Server 2005 (major version 9) on. */
  function Since2005Records(server: Server, databaseName: string, db: Database): seq<ScriptInfo>
  {
    AssemblyAndPartitionRecords(server, databaseName, db) + ServiceBrokerRecords(server, databaseName, db)
  }

  /** The records extracted only from SQL Server 2012 (major version 11) on. */
  function Since2012Records(server: Server, databaseName: string, db: Database): seq<ScriptInfo>
  {
    KindRecords(server, databaseName, db, Sequences)
  }

  /** All records of one successful unit, in the fixed extraction order. */
  function UnitRecords(server: Server, databaseName: string, db: Database): seq<ScriptInfo>
  {
    ServerRecords(server) + DatabaseRecords(server, databaseName, db) +
    (if server.versionMajor >= 9 then Since2005Records(server, databaseName, db) else []) +
    (if server.versionMajor >= 11 then Since2012Records(server, databaseName, db) else [])
  }

  /** How a unit's task ended: with its list, or faulted. */
  datatype UnitOutcome = Success(records: seq<ScriptInfo>) | Failure

  /**
   * Whether a unit throws: its connection cannot be opened, or the database
   * is not on the server (`server.Databases[name]` is null and the first
   * database-level extractor dereferences it).
   */
  predicate UnitFails(provider: Provider, databaseName: string)
  {
    databaseName in provider.unreachable || databaseName !in provider.server.databases
  }

  /** The outcome of the unit for one database. */
  function OutcomeOf(provider: Provider, databaseName: string): UnitOutcome
  {
    if UnitFails(provider, databaseName) then Failure
    else Success(UnitRecords(provider.server, databaseName, provider.server.databases[databaseName]))
  }

  /** Lines 80-81 of a unit: the endpoints, then the jobs. */
  method GetServerLevel(server: Server) returns (records: seq<ScriptInfo>)
    ensures records == ServerRecords(server)
  {
    var serverLocation := ScriptInfoLocation(Some(server.netName), None);
    records := ExtractObjects(RuleOf(Endpoints), server.endpoints, serverLocation);
    var part := GetServerJob(server.jobs, serverLocation);
    records := records + part;
  }

  /** Lines 83-87 of a unit: schemas, tables, views, synonyms, stored procedures. */
  method GetSchemaObjects(server: Server, databaseName: string, database: Database) returns (records: seq<ScriptInfo>)
    ensures records == SchemaObjectRecords(server, databaseName, database)
  {
    var location := ScriptInfoLocation(Some(server.netName), Some(databaseName));
    var part;
    records := ExtractObjects(RuleOf(Schemas), Collection(database, Schemas), location);
    part := GetTables(database.tables, location);
    records := records + part;
    part := ExtractObjects(RuleOf(Views), Collection(database, Views), location);
    records := records + part;
    part := ExtractObjects(RuleOf(Synonyms), Collection(database, Synonyms), location);
    records := records + part;
    part := ExtractObjects(RuleOf(StoredProcedures), Collection(database, StoredProcedures), location);
    records := records + part;
  }

  /** Lines 88-92 of a unit: the user-defined kinds. */
  method GetUserDefined(server: Server, databaseName: string, database: Database) returns (records: seq<ScriptInfo>)
    ensures records == UserDefinedRecords(server, databaseName, database)
  {
    var location := ScriptInfoLocation(Some(server.netName), Some(databaseName));
    var part;
    records := ExtractObjects(RuleOf(UserDefinedAggregates), Collection(database, UserDefinedAggregates), location);
    part := ExtractObjects(RuleOf(UserDefinedDataTypes), Collection(database, UserDefinedDataTypes), location);
    records := records + part;
    part := ExtractObjects(RuleOf(UserDefinedFunctions), Collection(database, UserDefinedFunctions), location);
    records := records + part;
    part := ExtractObjects(RuleOf(UserDefinedTableTypes), Collection(database, UserDefinedTableTypes), location);
    records := records + part;
    part := ExtractObjects(RuleOf(UserDefinedTypes), Collection(database, UserDefinedTypes), location);
    records := records + part;
  }

  /** Lines 96-98 of a unit: assemblies and partitions, from major version 9 on. */
  method GetAssembliesAndPartitions(server: Server, databaseName: string, database: Database) returns (records: seq<ScriptInfo>)
    ensures records == AssemblyAndPartitionRecords(server, databaseName, database)
  {
    var location := ScriptInfoLocation(Some(server.netName), Some(databaseName));
    var part;
    records := ExtractObjects(RuleOf(Assemblies), Collection(database, Assemblies), location);
    part := ExtractObjects(RuleOf(PartitionFunctions), Collection(database, PartitionFunctions), location);
    records := records + part;
    part := ExtractObjects(RuleOf(PartitionSchemes), Collection(database, PartitionSchemes), location);
    records := records + part;
  }

  /** Lines 99-104 of a unit: the Service Broker kinds, from major version 9 on. */
  method GetServiceBroker(server: Server, databaseName: string, database: Database) returns (records: seq<ScriptInfo>)
    ensures records == ServiceBrokerRecords(server, databaseName, database)
  {
    var location := ScriptInfoLocation(Some(server.netName), Some(databaseName));
    var part;
    records := ExtractObjects(RuleOf(MessageTypes), Collection(database, MessageTypes), location);
    part := ExtractObjects(RuleOf(ServiceContracts), Collection(database, ServiceContracts), location);
    records := records + part;
    part := ExtractObjects(RuleOf(Queues), Collection(database, Queues), location);
    records := records + part;
    part := ExtractObjects(RuleOf(BrokerServices), Collection(database, BrokerServices), location);
    records := records + part;
    part := ExtractObjects(RuleOf(Routes), Collection(database, Routes), location);
    records := records + part;
    part := ExtractObjects(RuleOf(RemoteServiceBindings), Collection(database, RemoteServiceBindings), location);
    records := records + part;
  }

  /** The body of one unit's task: the extractors in their fixed order, gated by version. */
  method RunUnit(provider: Provider, databaseName: string) returns (outcome: UnitOutcome)
    ensures outcome.Failure? <==> UnitFails(provider, databaseName)
    ensures outcome.Success? ==>
      outcome.records == UnitRecords(provider.server, databaseName, provider.server.databases[databaseName])
  {
    if UnitFails(provider, databaseName) {
      return Failure;
    }
    var server := provider.server;
    var database := server.databases[databaseName];
    var taskListScriptInfo := GetServerLevel(server);
    var part := GetSchemaObjects(server, databaseName, database);
    var more := GetUserDefined(server, databaseName, database);
    taskListScriptInfo := taskListScriptInfo + (part + more);
    if server.versionMajor >= 9 {
      part := GetAssembliesAndPartitions(server, databaseName, database);
      more := GetServiceBroker(server, databaseName, database);
      taskListScriptInfo := taskListScriptInfo + (part + more);
    }
    if server.versionMajor >= 11 {
      part := ExtractObjects(RuleOf(Sequences), Collection(database, Sequences), ScriptInfoLocation(Some(server.netName), Some(databaseName)));
      taskListScriptInfo := taskListScriptInfo + part;
    }
    return Success(taskListScriptInfo);
  }

  /** The outcomes of the units, one per database, in `Databases` order. */
  function Outcomes(provider: Provider, databases: seq<string>): (tasks: seq<UnitOutcome>)
    ensures |tasks| == |databases|
    ensures forall k :: 0 <= k < |databases| ==> tasks[k] == OutcomeOf(provider, databases[k])
  {
    if databases == [] then []
    else Outcomes(provider, databases[..|databases| - 1]) + [OutcomeOf(provider, databases[|databases| - 1])]
  }

  /** The post-join loop: the lists of the successful units, in order; failed units add nothing. */
  function Collected(tasks: seq<UnitOutcome>): seq<ScriptInfo>
  {
    if tasks == [] then []
    else
      var last := tasks[|tasks| - 1];
      Collected(tasks[..|tasks| - 1]) + (if last.Success? then last.records else [])
  }

  /** Whether every unit completed successfully, so that `Task.WaitAll` returns normally. */
  predicate AllSucceeded(tasks: seq<UnitOutcome>)
  {
    forall k :: 0 <= k < |tasks| ==> tasks[k].Success?
  }

  /** The `foreach` over `Databases`: start one unit per database, in order. */
  method RunUnits(provider: Provider, databases: seq<string>) returns (tasks: seq<UnitOutcome>)
    ensures tasks == Outcomes(provider, databases)
  {
    tasks := [];
    for i := 0 to |databases|
      invariant tasks == Outcomes(provider, databases[..i])
    {
      var task := RunUnit(provider, databases[i]);
      assert task == OutcomeOf(provider, databases[i]);
      assert databases[..i + 1][..i] == databases[..i];
      tasks := tasks + [task];
    }
    assert databases[..|databases|] == databases;
  }

  /** The loop after the join: the lists of the successful units, in order; a faulted unit is logged and adds nothing. */
  method CollectResults(tasks: seq<UnitOutcome>) returns (listScriptInfo: seq<ScriptInfo>)
    ensures listScriptInfo == Collected(tasks)
  {
    listScriptInfo := [];
    for i := 0 to |tasks|
      invariant listScriptInfo == Collected(tasks[..i])
    {
      assert tasks[..i + 1][..i] == tasks[..i];
      if tasks[i].Success? {
        listScriptInfo := listScriptInfo + tasks[i].records;
      }
    }
    assert tasks[..|tasks|] == tasks;
  }

  /**
   * GetScriptInfoAsync, as written: one unit per configured database, then
   * `Task.WaitAll`, which throws when any unit faulted, so the collecting
   * loop only ever sees successful units. A null `Databases` throws too;
   * both throws are `None`. An empty `Databases` gives an empty list.
   */
  method GetScriptInfoAsync(connectionInfo: ConnectionInfo, provider: Provider) returns (result: Option<seq<ScriptInfo>>)
    ensures result.None? <==>
      connectionInfo.databases.None? || !AllSucceeded(Outcomes(provider, connectionInfo.databases.value))
    ensures result.Some? ==> result.value == Collected(Outcomes(provider, connectionInfo.databases.value))
  {
    if connectionInfo.databases.None? {
      return None;
    }
    var tasks := RunUnits(provider, connectionInfo.databases.value);
    if !AllSucceeded(tasks) {
      return None;
    }
    var listScriptInfo := CollectResults(tasks);
    return Some(listScriptInfo);
  }

  /**
   * GetScriptInfoAsync as its collecting loop intends it: the join does not
   * throw, a faulted unit is only logged, and the successful units' lists
   * are returned in order. Only a null `Databases` throws.
   */
  method GetScriptInfoIsolated(connectionInfo: ConnectionInfo, provider: Provider) returns (result: Option<seq<ScriptInfo>>)
    ensures result.None? <==> connectionInfo.databases.None?
    ensures result.Some? ==> result.value == Collected(Outcomes(provider, connectionInfo.databases.value))
  {
    if connectionInfo.databases.None? {
      return None;
    }
    var tasks := RunUnits(provider, connectionInfo.databases.value);
    var listScriptInfo := CollectResults(tasks);
    return Some(listScriptInfo);
  }
}
