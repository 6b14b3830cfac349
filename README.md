# SqlScriptTools generator, modelled in Dafny

SqlScriptTools.Generator is a console tool. It connects to a Microsoft SQL
Server and scripts the objects of every configured database: endpoints,
Agent jobs, schemas, tables with their child objects, views, procedures,
user-defined types and the version-gated kinds. It writes one `.sql` file
per object under `root\server\database\type`.

This project models the four parts of that pipeline that carry behaviour:

- **MssqlScriptService** (modules `MsSql` and `MsSqlProperties`). Each
  `Get*` extractor is modelled as a loop over a collection. The loop filters
  system objects and the excluded schemas `sys` and `information_schema`,
  and appends one record per surviving object.
  - `GetTables` fans a table out into foreign-key, trigger and
    non-clustered-index records. The check constraints and clustered
    indexes are folded into the table's own body.
  - `GetServerJob` emits a job record, then its steps, then its schedules.
  - `MapToString` turns script lines into `GO`-separated batches.
  - One unit of work runs per database. It runs the extractors in a fixed
    order, gated on `VersionMajor >= 9` and `>= 11`.
  - The units are joined with `Task.WaitAll`, which throws when any unit
    faulted; otherwise their lists are concatenated in `Databases` order.
    The collecting loop after the join is written to skip a failed unit,
    and that intended behaviour is modelled beside the code as written
    (see Findings).
  - The scripting library (SMO) is replaced by plain values (module `Smo`):
    objects, their flags and names, and the script lines `Script()` would
    return.
- **FileExporter** (module `Exporters`). It runs over an abstract
  filesystem: a set of directories, a file map per directory, and the
  faults the real filesystem can raise.
  - The exporter is a class. Its state is the filesystem and the
    clear-once memo `_clearDirectoryList`.
  - `Export` is proved equal to the state-transition function `ExportStep`.
  - The file-name sanitiser `GetCurrentPath` is a pure function.
- **StringExtension.ParseToDictionary** (module `Extensions`). It is a
  loop over `key=value` arguments, proved to build the dictionary
  `Parsed`. `Parsed` is defined through `String.Split`, which is modelled
  with its round trip through `Join`.
- **ConsoleClientGenerator** (module `ClientGenerator`). It fetches the
  records once, then exports them in order. An exception from an export
  ends the loop. `ExportAll` is the fold of `ExportStep` over the records
  and specifies the loop.

The records themselves are `Abstractions.ScriptInfo` values. A C# `null`
is written as `None`, via `Wrappers.Option`.

## Model

| member | source | states |
|---|---|---|
| Extensions.Split | SqlScriptTools.Generator/Extensions/StringExtension.cs:23 | `String.Split(char)` always returns at least one segment, and no segment contains the delimiter |
| Extensions.JoinSplit | SqlScriptTools.Generator/Extensions/StringExtension.cs:23 | joining the segments with the delimiter gives back the original argument, so Split loses nothing |
| Extensions.SplitJoin | SqlScriptTools.Generator/Extensions/StringExtension.cs:23 | splitting the join of delimiter-free segments gives back exactly those segments |
| Extensions.SplitAfterWord | SqlScriptTools.Generator/Extensions/StringExtension.cs:23 | a delimiter-free prefix stays part of the first segment of the text that follows it |
| Extensions.SplitHead | SqlScriptTools.Generator/Extensions/StringExtension.cs:23 | the first segment is the prefix before the first delimiter; there is one segment exactly when the delimiter is absent; otherwise the rest splits as the text after that delimiter |
| Extensions.ArgumentShape | SqlScriptTools.Generator/Extensions/StringExtension.cs:23-29 | the key is the text before the first delimiter; the value is null exactly when there is no delimiter, and otherwise is the text between the first and the second delimiter |
| Extensions.ParseToDictionary | SqlScriptTools.Generator/Extensions/StringExtension.cs:15-32 | null for a null or empty argument array; otherwise the dictionary `Parsed` that the loop builds, each argument overwriting its key |
| Extensions.ParsedKeys | SqlScriptTools.Generator/Extensions/StringExtension.cs:20-30 | the dictionary's keys are exactly the keys of the arguments; no argument is skipped |
| Extensions.ParsedSize | SqlScriptTools.Generator/Extensions/StringExtension.cs:20-30 | the dictionary has at most `args.Length` entries |
| Extensions.ParsedLastWins | SqlScriptTools.Generator/Extensions/StringExtension.cs:26-29 | for a repeated key, the value of its last occurrence is the one kept |
| Extensions.DefaultDelimiterExample | SqlScriptTools.Generator/Extensions/StringExtension.cs:17-29 | with the default `'='`, `k=v1=extra` keeps only `v1`, a bare flag maps to null, and a later `k=v2` overwrites `k` |
| Exporters.GetCurrentPath | SqlScriptTools.Generator/Exporters/FileExporter.cs:90-94 | each of the nine forbidden characters (backslash, slash, colon, star, question mark, double quote, both angle brackets, vertical bar) is replaced and every other character is kept in place; with a one-character replacement the length is kept; a clean replacement gives a clean result |
| Exporters.GetCurrentPathOfClean | SqlScriptTools.Generator/Exporters/FileExporter.cs:90-94 | a string without forbidden characters is returned unchanged |
| Exporters.GetCurrentPathIdempotent | SqlScriptTools.Generator/Exporters/FileExporter.cs:90-94 | sanitising twice equals sanitising once |
| Exporters.GetCurrentPathMerges | SqlScriptTools.Generator/Exporters/FileExporter.cs:90-94 | the sanitiser is not injective: `a/b` and `a_b` give the same file stem |
| Exporters.CreateDirectoryEffect | SqlScriptTools.Generator/Exporters/FileExporter.cs:62-63 | a missing directory that can be created appears, empty; an existing one is kept; a missing one that cannot be created (the case where `CreateDirectory` throws) stays missing; no directory disappears, no existing listing changes, and the filesystem stays well formed |
| Exporters.FileSystem.Exists | SqlScriptTools.Generator/Exporters/FileExporter.cs:62 | `Directory.Exists` is true exactly for an existing directory |
| Exporters.FileSystem.CreateDirectory | SqlScriptTools.Generator/Exporters/FileExporter.cs:63 | throws exactly when the directory is missing and cannot be created, changing nothing then; otherwise the directory exists afterwards, empty if it is new |
| Exporters.FileSystem.GetFiles | SqlScriptTools.Generator/Exporters/FileExporter.cs:76-77 | lists the files directly in the directory, or throws for an unlistable one |
| Exporters.FileSystem.Delete | SqlScriptTools.Generator/Exporters/FileExporter.cs:79 | removes exactly one file and touches nothing else |
| Exporters.FileSystem.WriteAllText | SqlScriptTools.Generator/Exporters/FileExporter.cs:53 | creates or replaces exactly one file, or throws for an unwritable file and changes nothing |
| Exporters.ClearEffect | SqlScriptTools.Generator/Exporters/FileExporter.cs:68-88 | clearing keeps the filesystem well formed |
| Exporters.ExportStep | SqlScriptTools.Generator/Exporters/FileExporter.cs:33-59 | one Export call as a transition of the filesystem and the memo; a target directory that cannot be created throws with nothing changed; it keeps the filesystem well formed and never removes a directory |
| Exporters.FileExporter.Init | SqlScriptTools.Generator/Exporters/FileExporter.cs:14-28 | a new exporter starts with an empty clear-once memo over the given filesystem and settings |
| Exporters.FileExporter.Create | SqlScriptTools.Generator/Exporters/FileExporter.cs:23-32 | the constructor creates the export root when it is missing, and fails (the creation throws) exactly when the root is missing and cannot be created; otherwise the root exists and the memo is empty |
| Exporters.FileExporter.CheckPath | SqlScriptTools.Generator/Exporters/FileExporter.cs:60-65 | throws exactly when the directory is missing and cannot be created; otherwise creates it when missing and answers true, the directory then existing |
| Exporters.FileExporter.ClearDirectory | SqlScriptTools.Generator/Exporters/FileExporter.cs:68-88 | without `ClearPatch`, or for a path already in the memo, nothing changes; otherwise the directory's files are all deleted and `true` recorded, or `false` recorded when listing throws |
| Exporters.FileExporter.Export | SqlScriptTools.Generator/Exporters/FileExporter.cs:33-59 | the result, the new filesystem and memo, and the normalised record are exactly those of `ExportStep` |
| Exporters.ExportNullIsNoOp | SqlScriptTools.Generator/Exporters/FileExporter.cs:35-36 | `Export(null)` returns false and changes neither the filesystem nor the memo |
| Exporters.NormalizeReplacesOnlyNulls | SqlScriptTools.Generator/Exporters/FileExporter.cs:38-41 | `??=` sets exactly the null server name, database name and type to "", keeps all other fields, and changes neither the target directory nor the file name |
| Exporters.ExportThrowsWhen | SqlScriptTools.Generator/Exporters/FileExporter.cs:38-57 | a record's export never returns false: it throws exactly when the target directory is missing and cannot be created or the file cannot be written; when the directory cannot be created nothing is cleared, written or recorded |
| Exporters.ExportSucceedsWhen | SqlScriptTools.Generator/Exporters/FileExporter.cs:43-57 | Export returns true exactly when the target directory exists or can be created and the file can be written |
| Exporters.SuccessfulExportDisk | SqlScriptTools.Generator/Exporters/FileExporter.cs:43-57 | after a successful Export the target directory holds its previous files, or none when this call cleared it, plus the record's file; every other directory is unchanged |
| Exporters.ExportWritesOneFile | SqlScriptTools.Generator/Exporters/FileExporter.cs:47-57 | after a successful Export, `<sanitised stem>.sql` in the target directory holds the body, overwriting any earlier content; a null body gives an empty file |
| Exporters.ExportKeepsOtherDirectories | SqlScriptTools.Generator/Exporters/FileExporter.cs:53-57 | a successful Export changes no file outside the target directory |
| Exporters.ExportClearsOrKeepsSiblings | SqlScriptTools.Generator/Exporters/FileExporter.cs:45 | the other files of the target directory are gone exactly when this call cleared it, and are kept otherwise |
| Exporters.ExportPathExample | SqlScriptTools.Generator/Exporters/FileExporter.cs:38-53 | a record with schema and name is written to `root\S\D\Table\schema.name.sql` |
| Exporters.SchemaLessExample | SqlScriptTools.Generator/Exporters/FileExporter.cs:38-49 | an empty schema gives the stem `Name`, and a null database name becomes an empty path segment |
| Exporters.ExportMemo | SqlScriptTools.Generator/Exporters/FileExporter.cs:70-86 | the memo is untouched without `ClearPatch`, for a directory that cannot be created, or for a directory seen before; otherwise the first export records whether listing worked |
| Exporters.ClearAtMostOnce | SqlScriptTools.Generator/Exporters/FileExporter.cs:72-73 | a directory already in the memo is never cleared again, whatever was recorded |
| Exporters.ReexportIsIdempotent | SqlScriptTools.Generator/Exporters/FileExporter.cs:33-59 | exporting the same record again right after a success changes nothing and returns the same result |
| MsSql.MapToString | SqlScriptTools.Generator/Services/MsSql/MssqlScriptService.cs:828-841 | null exactly for a null or empty collection; otherwise the batches of all lines in order |
| MsSql.ExtractObjects | SqlScriptTools.Generator/Services/MsSql/MssqlScriptService.cs:135-160 | a simple `Get*` loop returns exactly `ObjectRecords`: one record per object that passes the kind's filters, in collection order |
| MsSql.AddJobParts | SqlScriptTools.Generator/Services/MsSql/MssqlScriptService.cs:180-205 | the step or schedule loop appends one "JobStep" record per part, in order |
| MsSql.GetServerJob | SqlScriptTools.Generator/Services/MsSql/MssqlScriptService.cs:161-209 | returns exactly `JobsRecords`: each job's record, followed by its steps and then its schedules |
| MsSql.AddChildren | SqlScriptTools.Generator/Services/MsSql/MssqlScriptService.cs:318-346 | the foreign-key or trigger loop appends one record per child, in order |
| MsSql.ScriptTableAndChecks | SqlScriptTools.Generator/Services/MsSql/MssqlScriptService.cs:311-315 | the table body starts with the table's script line, then one line per check constraint |
| MsSql.ScriptIndex | SqlScriptTools.Generator/Services/MsSql/MssqlScriptService.cs:351-367 | a clustered index adds its line to the table body and no record; any other index adds one "Index" record and nothing to the body |
| MsSql.AddIndexes | SqlScriptTools.Generator/Services/MsSql/MssqlScriptService.cs:349-368 | the index loop appends `IndexRecords` and extends the body with `ClusteredLines` |
| MsSql.ScriptTable | SqlScriptTools.Generator/Services/MsSql/MssqlScriptService.cs:311-378 | one surviving table appends exactly `TableRecords` |
| MsSql.GetTables | SqlScriptTools.Generator/Services/MsSql/MssqlScriptService.cs:290-384 | returns exactly `TablesRecords`: the tables that are neither system tables nor in an excluded schema, each fanned out in collection order |
| MsSql.GetServerLevel | SqlScriptTools.Generator/Services/MsSql/MssqlScriptService.cs:80-81 | endpoints then jobs, equal to `ServerRecords` |
| MsSql.GetSchemaObjects | SqlScriptTools.Generator/Services/MsSql/MssqlScriptService.cs:83-87 | schemas, tables, views, synonyms and stored procedures, in that order |
| MsSql.GetUserDefined | SqlScriptTools.Generator/Services/MsSql/MssqlScriptService.cs:88-92 | the five user-defined kinds, in that order |
| MsSql.GetAssembliesAndPartitions | SqlScriptTools.Generator/Services/MsSql/MssqlScriptService.cs:96-98 | assemblies, partition functions and partition schemes, in that order |
| MsSql.GetServiceBroker | SqlScriptTools.Generator/Services/MsSql/MssqlScriptService.cs:99-104 | the six Service Broker kinds, in that order |
| MsSql.RunUnit | SqlScriptTools.Generator/Services/MsSql/MssqlScriptService.cs:71-113 | a unit fails exactly when its database is unreachable or missing; otherwise it returns `UnitRecords`, the fixed extraction sequence under the version gates |
| MsSql.Outcomes | SqlScriptTools.Generator/Services/MsSql/MssqlScriptService.cs:69-115 | one task per configured database, in `Databases` order, each the outcome of that database alone |
| MsSql.RunUnits | SqlScriptTools.Generator/Services/MsSql/MssqlScriptService.cs:69-115 | the loop over `Databases` starts one unit per database and yields exactly `Outcomes` |
| MsSql.CollectResults | SqlScriptTools.Generator/Services/MsSql/MssqlScriptService.cs:119-127 | the collecting loop returns exactly `Collected`: the successful units' lists in order, a failed unit adding nothing |
| MsSql.GetScriptInfoAsync | SqlScriptTools.Generator/Services/MsSql/MssqlScriptService.cs:61-131 | as written: no list (a throw) exactly when `Databases` is null or any unit failed, since `Task.WaitAll` throws then; otherwise every unit's list, concatenated in `Databases` order |
| MsSql.GetScriptInfoIsolated | SqlScriptTools.Generator/Services/MsSql/MssqlScriptService.cs:117-127 | as the collecting loop intends: only a null `Databases` throws; otherwise the successful units' lists in `Databases` order, a failed unit skipped |
| MsSqlProperties.BatchesAppend | SqlScriptTools.Generator/Services/MsSql/MssqlScriptService.cs:834-838 | the text of two runs of lines is the text of the first followed by that of the second |
| MsSqlProperties.BatchesCons | SqlScriptTools.Generator/Services/MsSql/MssqlScriptService.cs:834-838 | the first line's batch comes first, followed by the rest, in order |
| MsSqlProperties.BatchesShape | SqlScriptTools.Generator/Services/MsSql/MssqlScriptService.cs:834-840 | every line adds at least its eight separator characters, and non-empty output ends with `GO`, a newline and a blank line |
| MsSqlProperties.AsciiLowerIdempotent | SqlScriptTools.Generator/Services/MsSql/MssqlScriptService.cs:306 | lower-casing twice is lower-casing once |
| MsSqlProperties.ExcludedSchemaIgnoresCase | SqlScriptTools.Generator/Services/MsSql/MssqlScriptService.cs:20 | the excluded-schema test does not depend on letter case |
| MsSqlProperties.ExcludedSchemaExamples | SqlScriptTools.Generator/Services/MsSql/MssqlScriptService.cs:20 | `SYS`, `Sys` and `INFORMATION_SCHEMA` are excluded and `dbo` is not |
| MsSqlProperties.KindFilters | SqlScriptTools.Generator/Services/MsSql/MssqlScriptService.cs:135-822 | exactly which kinds skip system objects and which skip the excluded schemas, and that user-defined types share the "UserDefinedTableType" tag (line 658) |
| MsSqlProperties.ObjectRecordsAppend | SqlScriptTools.Generator/Services/MsSql/MssqlScriptService.cs:393-411 | extraction distributes over the collection, so records keep the collection's order |
| MsSqlProperties.ObjectRecordsSound | SqlScriptTools.Generator/Services/MsSql/MssqlScriptService.cs:393-411 | every record comes from an object that passed the filters and carries the kind's tag and location; a schema-filtering kind never yields an excluded schema |
| MsSqlProperties.ObjectRecordsComplete | SqlScriptTools.Generator/Services/MsSql/MssqlScriptService.cs:393-411 | every object that passes the filters yields its record; never more records than objects; exactly one each when all pass, none when none pass |
| MsSqlProperties.ChildRecordsAt | SqlScriptTools.Generator/Services/MsSql/MssqlScriptService.cs:318-346 | one record per foreign key or trigger, in order, with the child's name, schema `<schema>.<table>` and the body script plus a newline |
| MsSqlProperties.IndexRecordsSound | SqlScriptTools.Generator/Services/MsSql/MssqlScriptService.cs:349-368 | each "Index" record comes from a non-clustered index and has schema `<schema>.<table>`; all clustered gives no records; none clustered gives one record each and no body lines |
| MsSqlProperties.IndexRecordsAppend | SqlScriptTools.Generator/Services/MsSql/MssqlScriptService.cs:349-368 | the index records of two joined index lists are those of the first list followed by those of the second, so every index contributes exactly once, in order |
| MsSqlProperties.ClusteredLinesAppend | SqlScriptTools.Generator/Services/MsSql/MssqlScriptService.cs:349-368 | the clustered lines of the table body distribute the same way over two joined index lists |
| MsSqlProperties.IndexRecordsExact | SqlScriptTools.Generator/Services/MsSql/MssqlScriptService.cs:349-368 | there is exactly one "Index" record per non-clustered index, in list order, named after it, with schema `<schema>.<table>` and the index script as body |
| MsSqlProperties.TableRecordsShape | SqlScriptTools.Generator/Services/MsSql/MssqlScriptService.cs:311-378 | foreign keys, then triggers, then non-clustered indexes, each with the composite schema; then the "Table" record with the plain schema and the body of script, checks and clustered indexes |
| MsSqlProperties.TablesRecordsSingle | SqlScriptTools.Generator/Services/MsSql/MssqlScriptService.cs:300-309 | a system table or one in an excluded schema yields nothing; any other table yields its records |
| MsSqlProperties.TablesRecordsAppend | SqlScriptTools.Generator/Services/MsSql/MssqlScriptService.cs:290-384 | the records of two joined table lists are those of the first list followed by those of the second, so each table contributes its own records in list order |
| MsSqlProperties.TableRecordsSound | SqlScriptTools.Generator/Services/MsSql/MssqlScriptService.cs:318-378 | a table's records are at its location and tagged ForeignKey, Trigger, Index or Table |
| MsSqlProperties.TablesRecordsSound | SqlScriptTools.Generator/Services/MsSql/MssqlScriptService.cs:290-384 | all of GetTables' records are at its location and tagged ForeignKey, Trigger, Index or Table |
| MsSqlProperties.JobPartRecordsAt | SqlScriptTools.Generator/Services/MsSql/MssqlScriptService.cs:180-205 | one record per step or schedule, in order, tagged "JobStep" (schedules too, line 199), with the job's name as schema |
| MsSqlProperties.JobRecordsShape | SqlScriptTools.Generator/Services/MsSql/MssqlScriptService.cs:167-205 | the "Job" record with its category as schema, then its steps, then its schedules |
| MsSqlProperties.JobsRecordsSound | SqlScriptTools.Generator/Services/MsSql/MssqlScriptService.cs:161-209 | all job records are at the server location and tagged Job or JobStep |
| MsSqlProperties.VersionGates | SqlScriptTools.Generator/Services/MsSql/MssqlScriptService.cs:93-110 | below 9 the unit has no gated kinds; from 9 it adds the 2005 kinds; from 11 it also adds sequences |
| MsSqlProperties.KindRecordsTags | SqlScriptTools.Generator/Services/MsSql/MssqlScriptService.cs:385-822 | one kind's records carry that kind's tag and the unit's database location |
| MsSqlProperties.SchemaObjectRecordsSound | SqlScriptTools.Generator/Services/MsSql/MssqlScriptService.cs:83-87 | these records are at the unit's database, with ungated tags |
| MsSqlProperties.UserDefinedRecordsSound | SqlScriptTools.Generator/Services/MsSql/MssqlScriptService.cs:88-92 | these records are at the unit's database, with ungated tags |
| MsSqlProperties.DatabaseRecordsSound | SqlScriptTools.Generator/Services/MsSql/MssqlScriptService.cs:83-92 | every ungated database-level record is at the unit's database and has an ungated tag |
| MsSqlProperties.AssemblyAndPartitionRecordsSound | SqlScriptTools.Generator/Services/MsSql/MssqlScriptService.cs:96-98 | these records are at the unit's database, with 2005 tags |
| MsSqlProperties.ServiceBrokerRecordsSound | SqlScriptTools.Generator/Services/MsSql/MssqlScriptService.cs:99-104 | these records are at the unit's database, with 2005 tags |
| MsSqlProperties.Since2005RecordsSound | SqlScriptTools.Generator/Services/MsSql/MssqlScriptService.cs:94-105 | every 2005-gated record is at the unit's database and has a 2005 tag |
| MsSqlProperties.Since2012RecordsSound | SqlScriptTools.Generator/Services/MsSql/MssqlScriptService.cs:107-110 | sequence records are at the unit's database and tagged "Sequence" |
| MsSqlProperties.ServerRecordsSound | SqlScriptTools.Generator/Services/MsSql/MssqlScriptService.cs:80-81 | endpoint and job records carry the server name and no database name, and are tagged Endpoint, Job or JobStep |
| MsSqlProperties.TagGroupsDisjoint | SqlScriptTools.Generator/Services/MsSql/MssqlScriptService.cs:80-110 | no ungated extractor writes a gated tag |
| MsSqlProperties.AssembledGates | SqlScriptTools.Generator/Services/MsSql/MssqlScriptService.cs:94-110 | in any unit list assembled under version `v`, a 2005 tag implies `v >= 9` and a "Sequence" tag implies `v >= 11` |
| MsSqlProperties.GatedKindsNeedVersion | SqlScriptTools.Generator/Services/MsSql/MssqlScriptService.cs:94-110 | a unit yields a 2005 kind only when `VersionMajor >= 9`, and a sequence only when `VersionMajor >= 11` |
| MsSqlProperties.UnitParts | SqlScriptTools.Generator/Services/MsSql/MssqlScriptService.cs:80-110 | a unit's list is its server, database, 2005 and 2012 parts joined, each tagged within its own group |
| MsSqlProperties.UnitIsAssembled | SqlScriptTools.Generator/Services/MsSql/MssqlScriptService.cs:80-110 | the unit's list is the four groups joined in extraction order under the gates |
| MsSqlProperties.AssembledLocations | SqlScriptTools.Generator/Services/MsSql/MssqlScriptService.cs:80-110 | an assembled list starts with the server part at the server location, and everything after it is at the database location |
| MsSqlProperties.UnitLocations | SqlScriptTools.Generator/Services/MsSql/MssqlScriptService.cs:80-110 | a unit's list starts with the endpoint and job records, which carry only the server name; every later record also carries the unit's database name |
| MsSqlProperties.CollectedAppend | SqlScriptTools.Generator/Services/MsSql/MssqlScriptService.cs:119-127 | collecting distributes over the list of outcomes, so units contribute in `Databases` order |
| MsSqlProperties.FailureIsolation | SqlScriptTools.Generator/Services/MsSql/MssqlScriptService.cs:119-127 | in the collecting loop (the result of `GetScriptInfoIsolated`) a failed unit contributes nothing and leaves its neighbours' lists intact; a successful unit contributes exactly its list, in its place |
| MsSqlProperties.CollectedAllFailed | SqlScriptTools.Generator/Services/MsSql/MssqlScriptService.cs:119-127 | in the collecting loop, when every unit fails the result is empty |
| MsSqlProperties.OutcomesAppend | SqlScriptTools.Generator/Services/MsSql/MssqlScriptService.cs:69-115 | the outcomes of two lists of databases are the outcomes of each list, joined |
| MsSqlProperties.CollectedTwo | SqlScriptTools.Generator/Services/MsSql/MssqlScriptService.cs:119-127 | collecting two outcomes keeps each success's list, in order |
| MsSqlProperties.CollectedThree | SqlScriptTools.Generator/Services/MsSql/MssqlScriptService.cs:119-127 | collecting three outcomes keeps each success's list, in order |
| MsSqlProperties.OutcomesThree | SqlScriptTools.Generator/Services/MsSql/MssqlScriptService.cs:69-115 | three databases give their three outcomes, in order |
| MsSqlProperties.ThreeUnitsOneFails | SqlScriptTools.Generator/Services/MsSql/MssqlScriptService.cs:119-127 | with the middle of three databases failing, the collecting loop (and `GetScriptInfoIsolated`) gives the first unit's full list followed by the third's |
| MsSqlProperties.AllSucceededExact | SqlScriptTools.Generator/Services/MsSql/MssqlScriptService.cs:117 | `Task.WaitAll` returns normally exactly when no configured database is unreachable or missing |
| MsSqlProperties.OneFailureVoidsAll | SqlScriptTools.Generator/Services/MsSql/MssqlScriptService.cs:117-127 | as written, one failing database among three makes `Task.WaitAll` throw, so `GetScriptInfoAsync` gives nothing, although the other two lists are complete and the collecting loop would return them in order |
| MsSqlProperties.ServerRecordsPerUnit | SqlScriptTools.Generator/Services/MsSql/MssqlScriptService.cs:80-81 | every successful unit starts with the same endpoint and job records, so two units report them twice |
| ClientGenerator.ExportAll | SqlScriptTools.Generator/ClientGenerator/ConsoleClientGenerator.cs:28 | the exporter folded over the records; never more records attempted than given; all of them attempted unless an export threw; no directory disappears |
| ClientGenerator.ConsoleClientGenerator.constructor | SqlScriptTools.Generator/ClientGenerator/ConsoleClientGenerator.cs:14-22 | keeps the given service settings and exporter |
| ClientGenerator.ConsoleClientGenerator.SendExporter | SqlScriptTools.Generator/ClientGenerator/ConsoleClientGenerator.cs:31-38 | one Export call; its false result is ignored, and a thrown exception is passed on |
| ClientGenerator.ConsoleClientGenerator.ExportEach | SqlScriptTools.Generator/ClientGenerator/ConsoleClientGenerator.cs:28 | the loop leaves the exporter in the state `ExportAll` gives, and faults exactly when the fold aborted |
| ClientGenerator.ConsoleClientGenerator.GenerateAsync | SqlScriptTools.Generator/ClientGenerator/ConsoleClientGenerator.cs:24-29 | fetches once; a null `Databases` or any failing unit faults the run with nothing exported; otherwise every fetched record is exported in order until one throws |
| ClientGenerator.ExportAllStep | SqlScriptTools.Generator/ClientGenerator/ConsoleClientGenerator.cs:28-33 | after a prefix that did not abort, the next record is exported exactly once, next in order |
| ClientGenerator.AbortPersists | SqlScriptTools.Generator/ClientGenerator/ConsoleClientGenerator.cs:28-38 | once an export has thrown, the remaining records change nothing |
| ClientGenerator.StopsAtFirstThrow | SqlScriptTools.Generator/ClientGenerator/ConsoleClientGenerator.cs:28-38 | the run is exactly that of the records it attempted; when it aborted, the last attempted record threw after a prefix that did not abort |
| ClientGenerator.NoWriteFaultsExportsAll | SqlScriptTools.Generator/ClientGenerator/ConsoleClientGenerator.cs:33-37 | when no write can throw and every target directory exists or can be created, no export throws: every record is attempted and the run does not fault |
| ClientGenerator.LastRecordWritten | SqlScriptTools.Generator/ClientGenerator/ConsoleClientGenerator.cs:28-33 | when the last record's export succeeds after a prefix that did not abort, its file holds its body at the end |
| ClientGenerator.EmptyConfigurationExportsNothing | SqlScriptTools.Generator/ClientGenerator/ConsoleClientGenerator.cs:24-29 | an empty `Databases` list fetches no record, exports nothing and does not fault |

## Left out

- The scripting library is not modelled: connections, `Server`, `Script(options)`, `GetConnection` and credentials. Its results are given as plain values (module `Smo`). A unit that cannot connect is one named in `Provider.unreachable`.
- `Task.Run`/`Task.WaitAll` concurrency is not modelled. The units run one after another. `Task.WaitAll` is modelled by its outcome only: it throws when any unit faulted (see Findings).
- Logging is not modelled; it has no effect on results.
- Program.cs, the two installers, IEnumerableExtension.cs (`ForEach` is modelled as a loop) and ConsoleExporter.cs (console output, clock and thread id) are not part of this model.
- The real filesystem is not modelled: encodings, case-insensitive paths, path normalisation and the characters Windows refuses in a path (such a path is one outside `Faults.creatable`).
- Deletion never fails in the model. The partial clear the code can leave behind, with some files deleted and the memo then set to false (FileExporter.cs:77-86), is not modelled. A directory whose listing throws is not cleared at all. `WriteAllText` throws for exactly the files named in `Faults.unwritable`.
- Export's `return false` after `CheckPath` (FileExporter.cs:43-44) is never taken: `CreateDirectory` throws first, so `CheckPath` either throws or answers true.
- `ToLower` is ASCII only; culture-specific case mapping is not modelled.
- The `??=` assignments on the record are not an update in place. Export returns the normalised record as a second result, and callers that share the record would see the change there.
- A null record list or a null `ConnectionInfo` cannot occur in this model.
- Records keep `Databases` order across units (`Collected`), and within a unit the fixed extraction order of the code.
- An empty `Databases` gives an empty list; there is no single-database mode.
- A database missing from `server.Databases` makes the unit throw, because the first database-level extractor dereferences null. Its outcome is `Failure`.
- MsSqlProperties.TablesRecordsSound: states only locations and tags for GetTables as a whole. The exact layout is stated per table (`TableRecordsShape`, `TablesRecordsSingle`) and distributed over the list by `TablesRecordsAppend`, not as one closed formula for a whole list.

## Findings

| source | as written | input that shows it | evidently intended | confidence | as-written member | corrected member |
|---|---|---|---|---|---|---|
| SqlScriptTools.Generator/Services/MsSql/MssqlScriptService.cs:117-127 | `Task.WaitAll` throws an `AggregateException` when any unit faulted, so the collecting loop, which checks `IsCompletedSuccessfully` and logs the faulted tasks, never runs and the whole fetch fails | `Databases` `[A, B, C]` where `B` is not on the server: no record is returned and `GenerateAsync` exports nothing | the failed unit is logged and the lists of `A` and `C` are returned in order | not executed | MsSqlProperties.OneFailureVoidsAll | MsSql.GetScriptInfoIsolated |
