/**
 * What the extraction service promises about the records it returns:
 * MapToString's batch layout, the schema and system-object filters, the
 * table and job fan-out, the version gates, the locations of the records,
 * and failure-isolating aggregation.
 */
module MsSqlProperties {
  import opened Wrappers
  import opened Abstractions
  import opened Smo
  import opened MsSql

  /** Every record is at `location`. */
  predicate AllAt(records: seq<ScriptInfo>, location: ScriptInfoLocation)
  {
    forall r :: r in records ==> r.location == location
  }

  /** Every record carries a `Type` tag from `tags`. */
  predicate KindsIn(records: seq<ScriptInfo>, tags: set<string>)
  {
    forall r :: r in records ==> r.kind.Some? && r.kind.value in tags
  }

  // ---------------------------------------------------------------------------
  // MapToString
  // ---------------------------------------------------------------------------

  /** The batches of two runs of lines are the batches of the first followed by those of the second. */
  lemma {:induction false} BatchesAppend(a: seq<string>, b: seq<string>)
    ensures Batches(a + b) == Batches(a) + Batches(b)
    decreases |b|
  {
    if b == [] {
      assert a + b == a;
    } else {
      var init, last := b[..|b| - 1], b[|b| - 1];
      assert (a + b)[..|a + b| - 1] == a + init;
      assert (a + b)[|a + b| - 1] == last;
      BatchesAppend(a, init);
      assert Batches(b) == Batches(init) + Batch(last);
    }
  }

  /** Read from the front: the first line's batch comes first, then the rest, in order. */
  lemma BatchesCons(entry: string, rest: seq<string>)
    ensures Batches([entry] + rest) == Batch(entry) + Batches(rest)
  {
    BatchesAppend([entry], rest);
    assert [entry][..0] == [];
  }

  /**
   * Every line adds at least its eight separator characters, and a non-empty
   * collection's text ends with `GO` and a blank line.
   */
  lemma {:induction false} BatchesShape(entries: seq<string>)
    ensures |Batches(entries)| >= 8 * |entries|
    ensures entries != [] ==>
      Batches(entries)[|Batches(entries)| - 6..] == "GO" + NewLine + NewLine
    decreases |entries|
  {
    if entries != [] {
      var init := entries[..|entries| - 1];
      BatchesShape(init);
      var b := Batch(entries[|entries| - 1]);
      assert b[|b| - 6..] == "GO" + NewLine + NewLine;
      var all := Batches(init) + b;
      assert all[|all| - 6..] == b[|b| - 6..];
    }
  }

  // ---------------------------------------------------------------------------
  // The filters
  // ---------------------------------------------------------------------------

  /** Lower-casing twice is lower-casing once. */
  lemma AsciiLowerIdempotent(s: string)
    ensures AsciiLower(AsciiLower(s)) == AsciiLower(s)
  {
    var once := AsciiLower(s);
    assert forall i :: 0 <= i < |once| ==> LowerChar(once[i]) == once[i];
  }

  /** The schema test ignores letter case: a schema is excluded exactly when its lower-cased form is. */
  lemma ExcludedSchemaIgnoresCase(schema: string)
    ensures IsExcludedSchema(schema) <==> IsExcludedSchema(AsciiLower(schema))
  {
    AsciiLowerIdempotent(schema);
  }

  /** `SYS` and `INFORMATION_SCHEMA` are excluded whatever their case; `dbo` is not. */
  lemma ExcludedSchemaExamples()
    ensures IsExcludedSchema("SYS") && IsExcludedSchema("Sys") && IsExcludedSchema("INFORMATION_SCHEMA")
    ensures !IsExcludedSchema("dbo")
  {
    assert AsciiLower("SYS") == "sys";
    assert AsciiLower("Sys") == "sys";
    assert AsciiLower("INFORMATION_SCHEMA") == "information_schema";
    assert AsciiLower("dbo") == "dbo";
  }

  /**
   * The filters of each kind, as the extractors are written: which skip
   * system objects, which skip the excluded schemas, and the tag that
   * GetUserDefinedTypes shares with GetUserDefinedTableTypes.
   */
  lemma KindFilters(k: ObjectKind)
    ensures RuleOf(k).skipSystem <==>
      k in {Endpoints, Schemas, Views, StoredProcedures, UserDefinedFunctions, Assemblies,
            MessageTypes, ServiceContracts, Queues, BrokerServices}
    ensures RuleOf(k).skipExcluded <==>
      k in {Views, Synonyms, StoredProcedures, UserDefinedAggregates, UserDefinedDataTypes,
            UserDefinedFunctions, UserDefinedTableTypes, UserDefinedTypes, Queues, Sequences}
    ensures RuleOf(k).skipExcluded ==> RuleOf(k).schemaSource == FromSchema
    ensures RuleOf(UserDefinedTypes).tag == RuleOf(UserDefinedTableTypes).tag == "UserDefinedTableType"
  {
  }

  /** Extraction distributes over the collection: the records keep the collection's order. */
  lemma {:induction false} ObjectRecordsAppend(rule: KindRule, a: seq<DbObject>, b: seq<DbObject>, location: ScriptInfoLocation)
    ensures ObjectRecords(rule, a + b, location) == ObjectRecords(rule, a, location) + ObjectRecords(rule, b, location)
    decreases |b|
  {
    if b == [] {
      assert a + b == a;
    } else {
      assert (a + b)[..|a + b| - 1] == a + b[..|b| - 1];
      ObjectRecordsAppend(rule, a, b[..|b| - 1], location);
    }
  }

  /**
   * Every record of a simple extractor comes from an object that passed the
   * filters: it carries the extractor's tag and location, and, for a kind
   * that filters schemas, a schema that is not excluded.
   */
  lemma {:induction false} ObjectRecordsSound(rule: KindRule, objects: seq<DbObject>, location: ScriptInfoLocation)
    ensures AllAt(ObjectRecords(rule, objects, location), location)
    ensures KindsIn(ObjectRecords(rule, objects, location), {rule.tag})
    ensures forall r :: r in ObjectRecords(rule, objects, location) ==>
      exists o :: o in objects && Survives(rule, o) && r == RecordOf(rule, o, location)
    ensures rule.skipExcluded && rule.schemaSource == FromSchema ==>
      forall r :: r in ObjectRecords(rule, objects, location) ==> r.schema.Some? && !IsExcludedSchema(r.schema.value)
    decreases |objects|
  {
    if objects != [] {
      var init := objects[..|objects| - 1];
      var last := objects[|objects| - 1];
      ObjectRecordsSound(rule, init, location);
      forall r | r in ObjectRecords(rule, objects, location)
        ensures exists o :: o in objects && Survives(rule, o) && r == RecordOf(rule, o, location)
      {
        if r in ObjectRecords(rule, init, location) {
          var o :| o in init && Survives(rule, o) && r == RecordOf(rule, o, location);
          assert o in objects;
        } else {
          assert last in objects;
        }
      }
    }
  }

  /**
   * Every object that passes the filters yields a record, and when every
   * object passes there is exactly one record per object; never more
   * records than objects.
   */
  lemma {:induction false} ObjectRecordsComplete(rule: KindRule, objects: seq<DbObject>, location: ScriptInfoLocation)
    ensures forall o :: o in objects && Survives(rule, o) ==> RecordOf(rule, o, location) in ObjectRecords(rule, objects, location)
    ensures |ObjectRecords(rule, objects, location)| <= |objects|
    ensures (forall o :: o in objects ==> Survives(rule, o)) ==> |ObjectRecords(rule, objects, location)| == |objects|
    ensures (forall o :: o in objects ==> !Survives(rule, o)) ==> ObjectRecords(rule, objects, location) == []
    decreases |objects|
  {
    if objects != [] {
      var init := objects[..|objects| - 1];
      ObjectRecordsComplete(rule, init, location);
      assert forall o :: o in objects ==> o in init || o == objects[|objects| - 1];
      assert forall o :: o in init ==> o in objects;
    }
  }

  // ---------------------------------------------------------------------------
  // Tables
  // ---------------------------------------------------------------------------

  /** Foreign-key and trigger records: one per child, in order, with the child's name and the table's composite schema. */
  lemma {:induction false} ChildRecordsAt(tag: string, table: Table, children: seq<NamedScript>, location: ScriptInfoLocation)
    ensures AllAt(ChildRecords(tag, table, children, location), location)
    ensures KindsIn(ChildRecords(tag, table, children, location), {tag})
    ensures var rs := ChildRecords(tag, table, children, location);
      |rs| == |children| &&
      forall k :: 0 <= k < |children| ==>
        rs[k] == ScriptInfo(location, Some(tag), Some(table.schema + "." + table.name), children[k].name,
                            Some(Line(ScriptText(children[k].script))))
    decreases |children|
  {
    if children != [] {
      ChildRecordsAt(tag, table, children[..|children| - 1], location);
    }
  }

  /** Non-clustered index records: at most one per index, each for a non-clustered index, with the composite schema. */
  lemma {:induction false} IndexRecordsSound(table: Table, indexes: seq<Index>, location: ScriptInfoLocation)
    ensures |IndexRecords(table, indexes, location)| <= |indexes|
    ensures AllAt(IndexRecords(table, indexes, location), location)
    ensures forall r :: r in IndexRecords(table, indexes, location) ==>
      r.kind == Some("Index") && r.schema == Some(table.schema + "." + table.name) &&
      exists i :: i in indexes && !i.isClustered && r.name == i.name
    ensures (forall i :: i in indexes ==> i.isClustered) ==> IndexRecords(table, indexes, location) == []
    ensures (forall i :: i in indexes ==> !i.isClustered) ==>
      |IndexRecords(table, indexes, location)| == |indexes| && ClusteredLines(indexes) == ""
    decreases |indexes|
  {
    if indexes != [] {
      var init := indexes[..|indexes| - 1];
      IndexRecordsSound(table, init, location);
      assert forall i :: i in init ==> i in indexes;
      assert indexes[|indexes| - 1] in indexes;
    }
  }

  /**
   * The index loop distributes over a split of the index list: the records
   * of `a + b` are those of `a` followed by those of `b`, so each index
   * contributes exactly once, in list order.
   */
  lemma {:induction false} IndexRecordsAppend(table: Table, a: seq<Index>, b: seq<Index>, location: ScriptInfoLocation)
    ensures IndexRecords(table, a + b, location) == IndexRecords(table, a, location) + IndexRecords(table, b, location)
    decreases |b|
  {
    if b == [] {
      assert a + b == a;
    } else {
      var init, last := b[..|b| - 1], b[|b| - 1];
      assert (a + b)[..|a + b| - 1] == a + init;
      assert (a + b)[|a + b| - 1] == last;
      IndexRecordsAppend(table, a, init, location);
      AppendAssoc(IndexRecords(table, a, location), IndexRecords(table, init, location), IndexContribution(table, last, location));
    }
  }

  /** The same for the clustered lines of the table body. */
  lemma {:induction false} ClusteredLinesAppend(a: seq<Index>, b: seq<Index>)
    ensures ClusteredLines(a + b) == ClusteredLines(a) + ClusteredLines(b)
    decreases |b|
  {
    if b == [] {
      assert a + b == a;
    } else {
      var init, last := b[..|b| - 1], b[|b| - 1];
      assert (a + b)[..|a + b| - 1] == a + init;
      assert (a + b)[|a + b| - 1] == last;
      ClusteredLinesAppend(a, init);
      AppendAssoc(ClusteredLines(a), ClusteredLines(init), ClusteredContribution(last));
    }
  }

  /** The non-clustered indexes of a list, in list order. */
  function NonClustered(indexes: seq<Index>): (r: seq<Index>)
    ensures |r| <= |indexes|
    ensures forall k :: 0 <= k < |r| ==> !r[k].isClustered
  {
    if indexes == [] then []
    else
      var last := indexes[|indexes| - 1];
      NonClustered(indexes[..|indexes| - 1]) + (if last.isClustered then [] else [last])
  }

  /**
   * Exactly one index record per non-clustered index, in list order, named
   * after it, with the composite schema and the index's script as body.
   */
  lemma {:induction false} IndexRecordsExact(table: Table, indexes: seq<Index>, location: ScriptInfoLocation)
    ensures var rs, nc := IndexRecords(table, indexes, location), NonClustered(indexes);
      |rs| == |nc| &&
      forall k :: 0 <= k < |rs| ==>
        rs[k] == ScriptInfo(location, Some("Index"), Some(table.schema + "." + table.name), nc[k].name,
                            Some(Line(ScriptText(nc[k].script))))
    decreases |indexes|
  {
    if indexes != [] {
      IndexRecordsExact(table, indexes[..|indexes| - 1], location);
    }
  }

  /**
   * One scripted table: its foreign keys, then its triggers, then its
   * non-clustered indexes, each with schema `<schema>.<name>`, then the table
   * record itself with its plain schema and the body made of its script,
   * its checks and its clustered indexes.
   */
  lemma TableRecordsShape(table: Table, location: ScriptInfoLocation)
    ensures var rs := TableRecords(table, location);
      var fks := |table.foreignKeys|;
      var trs := |table.triggers|;
      |rs| == fks + trs + |IndexRecords(table, table.indexes, location)| + 1 &&
      AllAt(rs, location) &&
      (forall k :: 0 <= k < fks ==> rs[k].kind == Some("ForeignKey") && rs[k].name == table.foreignKeys[k].name) &&
      (forall k :: fks <= k < fks + trs ==> rs[k].kind == Some("Trigger") && rs[k].name == table.triggers[k - fks].name) &&
      (forall k :: 0 <= k < |rs| - 1 ==> rs[k].schema == Some(table.schema + "." + table.name)) &&
      rs[|rs| - 1] == ScriptInfo(location, Some("Table"), Some(table.schema), table.name,
        Some(Line(ScriptText(table.script)) + CheckLines(table.checks) + ClusteredLines(table.indexes)))
  {
    var fk := ChildRecords("ForeignKey", table, table.foreignKeys, location);
    var tr := ChildRecords("Trigger", table, table.triggers, location);
    var ix := IndexRecords(table, table.indexes, location);
    var last := ScriptInfo(location, Some("Table"), Some(table.schema), table.name, Some(TableBody(table)));
    ChildRecordsAt("ForeignKey", table, table.foreignKeys, location);
    ChildRecordsAt("Trigger", table, table.triggers, location);
    IndexRecordsSound(table, table.indexes, location);
    PartsShape(fk, tr, ix, last, table, location);
    assert TableRecords(table, location) == fk + tr + ix + [last];
  }

  /** The shape of a table's records, from the shapes of its parts. */
  lemma PartsShape(fk: seq<ScriptInfo>, tr: seq<ScriptInfo>, ix: seq<ScriptInfo>, last: ScriptInfo,
                   table: Table, location: ScriptInfoLocation)
    requires |fk| == |table.foreignKeys| && |tr| == |table.triggers|
    requires AllAt(fk, location) && AllAt(tr, location) && AllAt(ix, location) && last.location == location
    requires forall k :: 0 <= k < |fk| ==>
      fk[k].kind == Some("ForeignKey") && fk[k].name == table.foreignKeys[k].name &&
      fk[k].schema == Some(table.schema + "." + table.name)
    requires forall k :: 0 <= k < |tr| ==>
      tr[k].kind == Some("Trigger") && tr[k].name == table.triggers[k].name &&
      tr[k].schema == Some(table.schema + "." + table.name)
    requires forall r :: r in ix ==> r.schema == Some(table.schema + "." + table.name)
    ensures var rs := fk + tr + ix + [last];
      var fks := |table.foreignKeys|;
      var trs := |table.triggers|;
      |rs| == fks + trs + |ix| + 1 &&
      AllAt(rs, location) &&
      (forall k :: 0 <= k < fks ==> rs[k].kind == Some("ForeignKey") && rs[k].name == table.foreignKeys[k].name) &&
      (forall k :: fks <= k < fks + trs ==> rs[k].kind == Some("Trigger") && rs[k].name == table.triggers[k - fks].name) &&
      (forall k :: 0 <= k < |rs| - 1 ==> rs[k].schema == Some(table.schema + "." + table.name)) &&
      rs[|rs| - 1] == last
  {
    var rs := fk + tr + ix + [last];
    JoinAt(fk, tr, location);
    JoinAt(fk + tr, ix, location);
    JoinAt(fk + tr + ix, [last], location);
    forall k | |fk| + |tr| <= k < |rs| - 1 ensures rs[k].schema == Some(table.schema + "." + table.name) {
      assert rs[k] == ix[k - |fk| - |tr|];
      assert ix[k - |fk| - |tr|] in ix;
    }
  }

  /** Joining two lists at one location gives a list at that location. */
  lemma JoinAt(a: seq<ScriptInfo>, b: seq<ScriptInfo>, location: ScriptInfoLocation)
    requires AllAt(a, location) && AllAt(b, location)
    ensures AllAt(a + b, location)
  {
  }

  /** A system table or one in an excluded schema yields no record; any other table yields its records. */
  lemma TablesRecordsSingle(table: Table, location: ScriptInfoLocation)
    ensures TablesRecords([table], location) == if SkipTable(table) then [] else TableRecords(table, location)
  {
    assert [table][..0] == [];
  }

  /**
   * GetTables distributes over a split of the table list: the records of
   * `a + b` are those of `a` followed by those of `b`, so with
   * `TablesRecordsSingle` every table contributes its own records, in order.
   */
  lemma {:induction false} TablesRecordsAppend(a: seq<Table>, b: seq<Table>, location: ScriptInfoLocation)
    ensures TablesRecords(a + b, location) == TablesRecords(a, location) + TablesRecords(b, location)
    decreases |b|
  {
    if b == [] {
      assert a + b == a;
    } else {
      var init, last := b[..|b| - 1], b[|b| - 1];
      assert (a + b)[..|a + b| - 1] == a + init;
      assert (a + b)[|a + b| - 1] == last;
      TablesRecordsAppend(a, init, location);
      AppendAssoc(TablesRecords(a, location), TablesRecords(init, location), TableContribution(last, location));
    }
  }

  /** All records of one scripted table are at its location and tagged ForeignKey, Trigger, Index or Table. */
  lemma TableRecordsSound(table: Table, location: ScriptInfoLocation)
    ensures AllAt(TableRecords(table, location), location)
    ensures KindsIn(TableRecords(table, location), {"ForeignKey", "Trigger", "Index", "Table"})
  {
    ChildRecordsAt("ForeignKey", table, table.foreignKeys, location);
    ChildRecordsAt("Trigger", table, table.triggers, location);
    IndexRecordsSound(table, table.indexes, location);
  }

  /** All of GetTables' records are at its location and tagged ForeignKey, Trigger, Index or Table. */
  lemma {:induction false} TablesRecordsSound(tables: seq<Table>, location: ScriptInfoLocation)
    ensures AllAt(TablesRecords(tables, location), location)
    ensures KindsIn(TablesRecords(tables, location), {"ForeignKey", "Trigger", "Index", "Table"})
    decreases |tables|
  {
    if tables != [] {
      var last := tables[|tables| - 1];
      TablesRecordsSound(tables[..|tables| - 1], location);
      TableRecordsSound(last, location);
    }
  }

  // ---------------------------------------------------------------------------
  // Jobs
  // ---------------------------------------------------------------------------

  /** Step and schedule records: one per part, in order, tagged "JobStep" with the job's name as schema. */
  lemma {:induction false} JobPartRecordsAt(job: Job, parts: seq<NamedScript>, location: ScriptInfoLocation)
    ensures AllAt(JobPartRecords(job, parts, location), location)
    ensures KindsIn(JobPartRecords(job, parts, location), {"JobStep"})
    ensures var rs := JobPartRecords(job, parts, location);
      |rs| == |parts| &&
      forall k :: 0 <= k < |parts| ==>
        rs[k] == ScriptInfo(location, Some("JobStep"), Some(job.name), parts[k].name, ScriptText(parts[k].script))
    decreases |parts|
  {
    if parts != [] {
      JobPartRecordsAt(job, parts[..|parts| - 1], location);
    }
  }

  /**
   * One job: the "Job" record with the category as schema, then one
   * "JobStep" record per step, then one "JobStep" record per schedule, each
   * with the job's name as schema.
   */
  lemma JobRecordsShape(job: Job, location: ScriptInfoLocation)
    ensures var rs := JobRecords(job, location);
      var n := |job.steps|;
      |rs| == 1 + n + |job.schedules| &&
      rs[0] == ScriptInfo(location, Some("Job"), Some(job.category), job.name, ScriptText(job.script)) &&
      (forall k :: 1 <= k < |rs| ==> rs[k].kind == Some("JobStep") && rs[k].schema == Some(job.name) && rs[k].location == location) &&
      (forall k :: 0 <= k < n ==> rs[1 + k].name == job.steps[k].name) &&
      (forall k :: 0 <= k < |job.schedules| ==> rs[1 + n + k].name == job.schedules[k].name)
  {
    JobPartRecordsAt(job, job.steps, location);
    JobPartRecordsAt(job, job.schedules, location);
  }

  /** All job records are at their location and tagged Job or JobStep. */
  lemma {:induction false} JobsRecordsSound(jobs: seq<Job>, location: ScriptInfoLocation)
    ensures AllAt(JobsRecords(jobs, location), location)
    ensures KindsIn(JobsRecords(jobs, location), {"Job", "JobStep"})
    decreases |jobs|
  {
    if jobs != [] {
      var last := jobs[|jobs| - 1];
      JobsRecordsSound(jobs[..|jobs| - 1], location);
      JobPartRecordsAt(last, last.steps, location);
      JobPartRecordsAt(last, last.schedules, location);
    }
  }

  // ---------------------------------------------------------------------------
  // One unit
  // ---------------------------------------------------------------------------

  /** The tags of the kinds extracted from major version 9 on. */
  const Since2005Tags: set<string> := {
    "Assembly", "PartitionFunction", "PartitionScheme", "ServiceBrokerMessageType",
    "ServiceBrokerServiceContract", "ServiceBrokerQueues", "ServiceBrokerService",
    "ServiceBrokerRoute", "ServiceBrokerRemoteBinding"}

  /** The tags of the server-level records. */
  const ServerTags: set<string> := {"Endpoint", "Job", "JobStep"}

  /** The tags of the ungated database-level kinds. */
  const DatabaseTags: set<string> := {
    "Schema", "ForeignKey", "Trigger", "Index", "Table", "View", "Synonym", "StoredProcedure",
    "UserDefinedAggregate", "UserDefinedDataType", "UserDefinedFunction", "UserDefinedTableType"}

  /** The version gates: below 9 no gated kind, from 9 the 2005 kinds, from 11 also sequences. */
  lemma VersionGates(server: Server, databaseName: string, db: Database)
    ensures var base := ServerRecords(server) + DatabaseRecords(server, databaseName, db);
      var unit := UnitRecords(server, databaseName, db);
      (server.versionMajor < 9 ==> unit == base) &&
      (9 <= server.versionMajor < 11 ==> unit == base + Since2005Records(server, databaseName, db)) &&
      (11 <= server.versionMajor ==>
        unit == base + Since2005Records(server, databaseName, db) + Since2012Records(server, databaseName, db))
  {
  }

  /** The records of a list of simple kinds carry those kinds' tags. */
  lemma KindRecordsTags(server: Server, databaseName: string, db: Database, k: ObjectKind)
    ensures KindsIn(KindRecords(server, databaseName, db, k), {RuleOf(k).tag})
    ensures AllAt(KindRecords(server, databaseName, db, k), DatabaseLocation(server, databaseName))
  {
    ObjectRecordsSound(RuleOf(k), Collection(db, k), DatabaseLocation(server, databaseName));
  }

  /** Joining two lists at one location whose tags lie in one set gives such a list. */
  lemma JoinSound(a: seq<ScriptInfo>, b: seq<ScriptInfo>, location: ScriptInfoLocation, tags: set<string>)
    requires AllAt(a, location) && AllAt(b, location) && KindsIn(a, tags) && KindsIn(b, tags)
    ensures AllAt(a + b, location) && KindsIn(a + b, tags)
  {
  }

  /** A list whose tags lie in `small` has its tags in any superset of it. */
  lemma KindsWiden(records: seq<ScriptInfo>, small: set<string>, big: set<string>)
    requires small <= big && KindsIn(records, small)
    ensures KindsIn(records, big)
  {
  }

  /** The records of one simple kind whose tag lies in `tags`, at the unit's database. */
  lemma KindRecordsIn(server: Server, databaseName: string, db: Database, k: ObjectKind, tags: set<string>)
    requires RuleOf(k).tag in tags
    ensures KindsIn(KindRecords(server, databaseName, db, k), tags)
    ensures AllAt(KindRecords(server, databaseName, db, k), DatabaseLocation(server, databaseName))
  {
    KindRecordsTags(server, databaseName, db, k);
  }

  /** Three simple kinds whose tags lie in `tags`, joined in order. */
  lemma ThreeKindsSound(server: Server, databaseName: string, db: Database, k1: ObjectKind, k2: ObjectKind, k3: ObjectKind,
                        tags: set<string>)
    requires RuleOf(k1).tag in tags && RuleOf(k2).tag in tags && RuleOf(k3).tag in tags
    ensures var rs := KindRecords(server, databaseName, db, k1) + KindRecords(server, databaseName, db, k2) +
                      KindRecords(server, databaseName, db, k3);
      AllAt(rs, DatabaseLocation(server, databaseName)) && KindsIn(rs, tags)
  {
    var at := DatabaseLocation(server, databaseName);
    var r1, r2, r3 := KindRecords(server, databaseName, db, k1), KindRecords(server, databaseName, db, k2),
                      KindRecords(server, databaseName, db, k3);
    KindRecordsIn(server, databaseName, db, k1, tags);
    KindRecordsIn(server, databaseName, db, k2, tags);
    KindRecordsIn(server, databaseName, db, k3, tags);
    JoinSound(r1, r2, at, tags);
    JoinSound(r1 + r2, r3, at, tags);
  }

  /** Schemas, tables, views, synonyms and stored procedures are at the unit's database, with ungated tags. */
  lemma SchemaObjectRecordsSound(server: Server, databaseName: string, db: Database)
    ensures AllAt(SchemaObjectRecords(server, databaseName, db), DatabaseLocation(server, databaseName))
    ensures KindsIn(SchemaObjectRecords(server, databaseName, db), DatabaseTags)
  {
    var tags, at := DatabaseTags, DatabaseLocation(server, databaseName);
    var schemas := KindRecords(server, databaseName, db, Schemas);
    KindRecordsIn(server, databaseName, db, Schemas, tags);
    var tables := TablesRecords(db.tables, at);
    TablesRecordsSound(db.tables, at);
    KindsWiden(tables, {"ForeignKey", "Trigger", "Index", "Table"}, tags);
    var views := KindRecords(server, databaseName, db, Views);
    KindRecordsIn(server, databaseName, db, Views, tags);
    var synonyms := KindRecords(server, databaseName, db, Synonyms);
    KindRecordsIn(server, databaseName, db, Synonyms, tags);
    var storedProcedures := KindRecords(server, databaseName, db, StoredProcedures);
    KindRecordsIn(server, databaseName, db, StoredProcedures, tags);
    JoinSound(schemas, tables, at, tags);
    JoinSound(schemas + tables, views, at, tags);
    JoinSound(schemas + tables + views, synonyms, at, tags);
    JoinSound(schemas + tables + views + synonyms, storedProcedures, at, tags);
  }

  /** The user-defined kinds' records are at the unit's database, with ungated tags. */
  lemma UserDefinedRecordsSound(server: Server, databaseName: string, db: Database)
    ensures AllAt(UserDefinedRecords(server, databaseName, db), DatabaseLocation(server, databaseName))
    ensures KindsIn(UserDefinedRecords(server, databaseName, db), DatabaseTags)
  {
    var tags, at := DatabaseTags, DatabaseLocation(server, databaseName);
    var userDefinedAggregates := KindRecords(server, databaseName, db, UserDefinedAggregates);
    KindRecordsIn(server, databaseName, db, UserDefinedAggregates, tags);
    var userDefinedDataTypes := KindRecords(server, databaseName, db, UserDefinedDataTypes);
    KindRecordsIn(server, databaseName, db, UserDefinedDataTypes, tags);
    var userDefinedFunctions := KindRecords(server, databaseName, db, UserDefinedFunctions);
    KindRecordsIn(server, databaseName, db, UserDefinedFunctions, tags);
    var userDefinedTableTypes := KindRecords(server, databaseName, db, UserDefinedTableTypes);
    KindRecordsIn(server, databaseName, db, UserDefinedTableTypes, tags);
    var userDefinedTypes := KindRecords(server, databaseName, db, UserDefinedTypes);
    KindRecordsIn(server, databaseName, db, UserDefinedTypes, tags);
    JoinSound(userDefinedAggregates, userDefinedDataTypes, at, tags);
    JoinSound(userDefinedAggregates + userDefinedDataTypes, userDefinedFunctions, at, tags);
    JoinSound(userDefinedAggregates + userDefinedDataTypes + userDefinedFunctions, userDefinedTableTypes, at, tags);
    JoinSound(userDefinedAggregates + userDefinedDataTypes + userDefinedFunctions + userDefinedTableTypes, userDefinedTypes, at, tags);
  }

  /** Every ungated database-level record is at the unit's database and has an ungated tag. */
  lemma DatabaseRecordsSound(server: Server, databaseName: string, db: Database)
    ensures AllAt(DatabaseRecords(server, databaseName, db), DatabaseLocation(server, databaseName))
    ensures KindsIn(DatabaseRecords(server, databaseName, db), DatabaseTags)
  {
    SchemaObjectRecordsSound(server, databaseName, db);
    UserDefinedRecordsSound(server, databaseName, db);
  }

  /** Assembly and partition records are at the unit's database, with 2005 tags. */
  lemma AssemblyAndPartitionRecordsSound(server: Server, databaseName: string, db: Database)
    ensures AllAt(AssemblyAndPartitionRecords(server, databaseName, db), DatabaseLocation(server, databaseName))
    ensures KindsIn(AssemblyAndPartitionRecords(server, databaseName, db), Since2005Tags)
  {
    var tags, at := Since2005Tags, DatabaseLocation(server, databaseName);
    var assemblies := KindRecords(server, databaseName, db, Assemblies);
    KindRecordsIn(server, databaseName, db, Assemblies, tags);
    var partitionFunctions := KindRecords(server, databaseName, db, PartitionFunctions);
    KindRecordsIn(server, databaseName, db, PartitionFunctions, tags);
    var partitionSchemes := KindRecords(server, databaseName, db, PartitionSchemes);
    KindRecordsIn(server, databaseName, db, PartitionSchemes, tags);
    JoinSound(assemblies, partitionFunctions, at, tags);
    JoinSound(assemblies + partitionFunctions, partitionSchemes, at, tags);
  }

  /** Service Broker records are at the unit's database, with 2005 tags. */
  lemma ServiceBrokerRecordsSound(server: Server, databaseName: string, db: Database)
    ensures AllAt(ServiceBrokerRecords(server, databaseName, db), DatabaseLocation(server, databaseName))
    ensures KindsIn(ServiceBrokerRecords(server, databaseName, db), Since2005Tags)
  {
    var at := DatabaseLocation(server, databaseName);
    ThreeKindsSound(server, databaseName, db, MessageTypes, ServiceContracts, Queues, Since2005Tags);
    ThreeKindsSound(server, databaseName, db, BrokerServices, Routes, RemoteServiceBindings, Since2005Tags);
    JoinSound(KindRecords(server, databaseName, db, MessageTypes) + KindRecords(server, databaseName, db, ServiceContracts) +
              KindRecords(server, databaseName, db, Queues),
              KindRecords(server, databaseName, db, BrokerServices) + KindRecords(server, databaseName, db, Routes) +
              KindRecords(server, databaseName, db, RemoteServiceBindings), at, Since2005Tags);
  }

  /** Every 2005-gated record is at the unit's database and has a 2005 tag. */
  lemma Since2005RecordsSound(server: Server, databaseName: string, db: Database)
    ensures AllAt(Since2005Records(server, databaseName, db), DatabaseLocation(server, databaseName))
    ensures KindsIn(Since2005Records(server, databaseName, db), Since2005Tags)
  {
    AssemblyAndPartitionRecordsSound(server, databaseName, db);
    ServiceBrokerRecordsSound(server, databaseName, db);
  }

  /** Endpoint and job records carry the server name and no database name. */
  lemma ServerRecordsSound(server: Server)
    ensures AllAt(ServerRecords(server), ServerLocation(server))
    ensures KindsIn(ServerRecords(server), ServerTags)
  {
    ObjectRecordsSound(RuleOf(Endpoints), server.endpoints, ServerLocation(server));
    JobsRecordsSound(server.jobs, ServerLocation(server));
  }

  /** A unit's list, from its four parts, as UnitRecords joins them. */
  function Assemble(serverPart: seq<ScriptInfo>, databasePart: seq<ScriptInfo>, part2005: seq<ScriptInfo>,
                    part2012: seq<ScriptInfo>, versionMajor: int): seq<ScriptInfo>
  {
    serverPart + databasePart + (if versionMajor >= 9 then part2005 else []) + (if versionMajor >= 11 then part2012 else [])
  }

  /** Gating over the four parts of a unit, whatever their contents. */
  lemma {:induction false} AssembledGates(serverPart: seq<ScriptInfo>, databasePart: seq<ScriptInfo>, part2005: seq<ScriptInfo>,
                                          part2012: seq<ScriptInfo>, versionMajor: int)
    requires KindsIn(serverPart, ServerTags) && KindsIn(databasePart, DatabaseTags)
    requires KindsIn(part2005, Since2005Tags) && KindsIn(part2012, {"Sequence"})
    ensures var rs := Assemble(serverPart, databasePart, part2005, part2012, versionMajor);
      forall r :: r in rs && r.kind.Some? && r.kind.value in Since2005Tags ==> versionMajor >= 9
    ensures var rs := Assemble(serverPart, databasePart, part2005, part2012, versionMajor);
      forall r :: r in rs && r.kind == Some("Sequence") ==> versionMajor >= 11
  {
    TagGroupsDisjoint();
  }

  /** No tag belongs to two groups: the gated tags are never produced by the ungated extractors. */
  lemma TagGroupsDisjoint()
    ensures ServerTags !! Since2005Tags && DatabaseTags !! Since2005Tags
    ensures "Sequence" !in ServerTags + DatabaseTags + Since2005Tags
  {
    assert ServerTags !! Since2005Tags;
    assert DatabaseTags !! Since2005Tags;
  }

  /**
   * A gated kind appears in a unit's records only when the server's major
   * version allows it: the 2005 kinds need 9, sequences need 11.
   */
  lemma GatedKindsNeedVersion(server: Server, databaseName: string, db: Database)
    ensures forall r :: r in UnitRecords(server, databaseName, db) && r.kind.Some? && r.kind.value in Since2005Tags ==>
      server.versionMajor >= 9
    ensures forall r :: r in UnitRecords(server, databaseName, db) && r.kind == Some("Sequence") ==>
      server.versionMajor >= 11
  {
    var rs, v := UnitRecords(server, databaseName, db), server.versionMajor;
    var sp, dp, p5, p11 := UnitParts(server, databaseName, db);
    AssembledGates(sp, dp, p5, p11, v);
  }

  /** `rs` is the four parts joined under version `v`, each part with the tags of its group. */
  predicate TaggedParts(rs: seq<ScriptInfo>, v: int, sp: seq<ScriptInfo>, dp: seq<ScriptInfo>, p5: seq<ScriptInfo>, p11: seq<ScriptInfo>)
  {
    && rs == Assemble(sp, dp, p5, p11, v)
    && KindsIn(sp, ServerTags) && KindsIn(dp, DatabaseTags) && KindsIn(p5, Since2005Tags) && KindsIn(p11, {"Sequence"})
  }

  /** A unit's list is its four parts joined, each with the tags of its group. */
  lemma UnitParts(server: Server, databaseName: string, db: Database)
    returns (sp: seq<ScriptInfo>, dp: seq<ScriptInfo>, p5: seq<ScriptInfo>, p11: seq<ScriptInfo>)
    ensures TaggedParts(UnitRecords(server, databaseName, db), server.versionMajor, sp, dp, p5, p11)
  {
    sp, dp := ServerRecords(server), DatabaseRecords(server, databaseName, db);
    p5, p11 := Since2005Records(server, databaseName, db), Since2012Records(server, databaseName, db);
    ServerRecordsSound(server);
    DatabaseRecordsSound(server, databaseName, db);
    Since2005RecordsSound(server, databaseName, db);
    Since2012RecordsSound(server, databaseName, db);
    UnitIsAssembled(server, databaseName, db);
  }

  /** Sequence records are at the unit's database and tagged "Sequence". */
  lemma Since2012RecordsSound(server: Server, databaseName: string, db: Database)
    ensures AllAt(Since2012Records(server, databaseName, db), DatabaseLocation(server, databaseName))
    ensures KindsIn(Since2012Records(server, databaseName, db), {"Sequence"})
  {
    KindRecordsTags(server, databaseName, db, Sequences);
    assert {RuleOf(Sequences).tag} == {"Sequence"};
  }

  /** UnitRecords is Assemble over the unit's four groups. */
  lemma UnitIsAssembled(server: Server, databaseName: string, db: Database)
    ensures UnitRecords(server, databaseName, db) ==
      Assemble(ServerRecords(server), DatabaseRecords(server, databaseName, db),
               Since2005Records(server, databaseName, db), Since2012Records(server, databaseName, db), server.versionMajor)
  {
  }

  /** Locations over the four parts of a unit, whatever their contents. */
  lemma {:induction false} AssembledLocations(serverPart: seq<ScriptInfo>, databasePart: seq<ScriptInfo>, part2005: seq<ScriptInfo>,
                                              part2012: seq<ScriptInfo>, versionMajor: int,
                                              serverLocation: ScriptInfoLocation, location: ScriptInfoLocation)
    requires AllAt(serverPart, serverLocation) && AllAt(databasePart, location)
    requires AllAt(part2005, location) && AllAt(part2012, location)
    ensures var rs := Assemble(serverPart, databasePart, part2005, part2012, versionMajor);
      var n := |serverPart|;
      n <= |rs| && rs[..n] == serverPart &&
      (forall k :: 0 <= k < n ==> rs[k].location == serverLocation) &&
      (forall k :: n <= k < |rs| ==> rs[k].location == location)
  {
    var rs := Assemble(serverPart, databasePart, part2005, part2012, versionMajor);
    var tail := databasePart + (if versionMajor >= 9 then part2005 else []) + (if versionMajor >= 11 then part2012 else []);
    assert rs == serverPart + tail;
    assert AllAt(tail, location);
    forall k | 0 <= k < |serverPart| ensures rs[k].location == serverLocation {
      assert rs[k] == serverPart[k];
      assert serverPart[k] in serverPart;
    }
    forall k | |serverPart| <= k < |rs| ensures rs[k].location == location {
      assert rs[k] == tail[k - |serverPart|];
      assert tail[k - |serverPart|] in tail;
    }
  }

  /**
   * The locations of a unit's records: the endpoint and job records that
   * open it carry only the server name; every later record also carries the
   * unit's database name.
   */
  lemma UnitLocations(server: Server, databaseName: string, db: Database)
    ensures var rs := UnitRecords(server, databaseName, db);
      var n := |ServerRecords(server)|;
      n <= |rs| && rs[..n] == ServerRecords(server) &&
      (forall k :: 0 <= k < n ==> rs[k].location == ScriptInfoLocation(Some(server.netName), None)) &&
      (forall k :: n <= k < |rs| ==> rs[k].location == ScriptInfoLocation(Some(server.netName), Some(databaseName)))
  {
    var sp, dp := ServerRecords(server), DatabaseRecords(server, databaseName, db);
    var p5, p11 := Since2005Records(server, databaseName, db), Since2012Records(server, databaseName, db);
    ServerRecordsSound(server);
    DatabaseRecordsSound(server, databaseName, db);
    Since2005RecordsSound(server, databaseName, db);
    KindRecordsTags(server, databaseName, db, Sequences);
    AssembledLocations(sp, dp, p5, p11, server.versionMajor, ServerLocation(server), DatabaseLocation(server, databaseName));
    assert UnitRecords(server, databaseName, db) == Assemble(sp, dp, p5, p11, server.versionMajor);
  }

  // ---------------------------------------------------------------------------
  // Aggregation
  // ---------------------------------------------------------------------------

  /** Collecting distributes over the list of outcomes: units contribute in `Databases` order. */
  lemma {:induction false} CollectedAppend(a: seq<UnitOutcome>, b: seq<UnitOutcome>)
    ensures Collected(a + b) == Collected(a) + Collected(b)
    decreases |b|
  {
    if b == [] {
      assert a + b == a;
    } else {
      assert (a + b)[..|a + b| - 1] == a + b[..|b| - 1];
      CollectedAppend(a, b[..|b| - 1]);
    }
  }

  /**
   * Failure isolation: a failed unit contributes nothing and leaves its
   * siblings' lists intact; a successful unit contributes exactly its list,
   * between those of the units before and after it.
   */
  lemma FailureIsolation(before: seq<UnitOutcome>, records: seq<ScriptInfo>, after: seq<UnitOutcome>)
    ensures Collected(before + [Failure] + after) == Collected(before) + Collected(after)
    ensures Collected(before + [Success(records)] + after) == Collected(before) + records + Collected(after)
  {
    CollectedAppend(before + [Failure], after);
    CollectedAppend(before, [Failure]);
    CollectedAppend(before + [Success(records)], after);
    CollectedAppend(before, [Success(records)]);
    assert [Failure][..0] == [] && [Success(records)][..0] == [];
  }

  /** When every unit fails the result is empty, and nothing is raised. */
  lemma {:induction false} CollectedAllFailed(tasks: seq<UnitOutcome>)
    requires forall k :: 0 <= k < |tasks| ==> tasks[k].Failure?
    ensures Collected(tasks) == []
    decreases |tasks|
  {
    if tasks != [] {
      CollectedAllFailed(tasks[..|tasks| - 1]);
    }
  }

  /** Each database's outcome depends only on that database: the lists are indexed like `Databases`. */
  lemma OutcomesAppend(provider: Provider, a: seq<string>, b: seq<string>)
    ensures Outcomes(provider, a + b) == Outcomes(provider, a) + Outcomes(provider, b)
  {
    var whole, parts := Outcomes(provider, a + b), Outcomes(provider, a) + Outcomes(provider, b);
    forall k | 0 <= k < |whole|
      ensures whole[k] == parts[k]
    {
      if k < |a| {
        assert (a + b)[k] == a[k];
      } else {
        assert (a + b)[k] == b[k - |a|];
      }
    }
  }

  /** Every unit succeeds exactly when no configured database fails. */
  lemma AllSucceededExact(provider: Provider, databases: seq<string>)
    ensures AllSucceeded(Outcomes(provider, databases)) <==>
      forall k :: 0 <= k < |databases| ==> !UnitFails(provider, databases[k])
  {
    var tasks := Outcomes(provider, databases);
    if !AllSucceeded(tasks) {
      var k :| 0 <= k < |tasks| && !tasks[k].Success?;
      assert UnitFails(provider, databases[k]);
    }
  }

  /**
   * As written, one failing database voids the whole fetch: with `[a, b, c]`
   * where only `b` fails, `Task.WaitAll` throws, so GetScriptInfoAsync
   * returns nothing, although the lists of `a` and `c` are complete and the
   * collecting loop would return them in order.
   */
  lemma OneFailureVoidsAll(provider: Provider, a: string, b: string, c: string)
    requires !UnitFails(provider, a) && UnitFails(provider, b) && !UnitFails(provider, c)
    ensures !AllSucceeded(Outcomes(provider, [a, b, c]))
    ensures Collected(Outcomes(provider, [a, b, c])) ==
      UnitRecords(provider.server, a, provider.server.databases[a]) +
      UnitRecords(provider.server, c, provider.server.databases[c])
  {
    OutcomesThree(provider, a, b, c);
    assert Outcomes(provider, [a, b, c])[1] == Failure;
    ThreeUnitsOneFails(provider, a, b, c);
  }

  /** Collecting three outcomes, in terms of the outcomes alone. */
  lemma CollectedThree(x: UnitOutcome, y: UnitOutcome, z: UnitOutcome)
    ensures Collected([x, y, z]) ==
      (if x.Success? then x.records else []) + (if y.Success? then y.records else []) +
      (if z.Success? then z.records else [])
  {
    assert [x, y, z][..2] == [x, y];
    CollectedTwo(x, y);
  }

  /** Three databases give three outcomes, in order. */
  lemma OutcomesThree(provider: Provider, a: string, b: string, c: string)
    ensures Outcomes(provider, [a, b, c]) == [OutcomeOf(provider, a), OutcomeOf(provider, b), OutcomeOf(provider, c)]
  {
    var databases := [a, b, c];
    var tasks := Outcomes(provider, databases);
    assert databases[0] == a && databases[1] == b && databases[2] == c;
    assert tasks == [tasks[0], tasks[1], tasks[2]];
  }

  /**
   * Three databases where the middle one fails: the result is the first
   * unit's full list followed by the third's, and nothing escapes.
   */
  lemma ThreeUnitsOneFails(provider: Provider, a: string, b: string, c: string)
    requires !UnitFails(provider, a) && UnitFails(provider, b) && !UnitFails(provider, c)
    ensures Collected(Outcomes(provider, [a, b, c])) ==
      UnitRecords(provider.server, a, provider.server.databases[a]) +
      UnitRecords(provider.server, c, provider.server.databases[c])
  {
    var x, y, z := OutcomeOf(provider, a), OutcomeOf(provider, b), OutcomeOf(provider, c);
    OutcomesThree(provider, a, b, c);
    CollectedThree(x, y, z);
  }

  /** Collecting two outcomes, in terms of the outcomes alone. */
  lemma CollectedTwo(x: UnitOutcome, y: UnitOutcome)
    ensures Collected([x, y]) == (if x.Success? then x.records else []) + (if y.Success? then y.records else [])
  {
    assert [x, y][..1] == [x];
    assert [x][..0] == [];
    assert Collected([x]) == Collected([]) + (if x.Success? then x.records else []);
  }

  /**
   * Endpoints and jobs are server-level but extracted inside every unit:
   * each successful unit's list starts with the same server-level records,
   * so two successful units report them twice.
   */
  lemma ServerRecordsPerUnit(provider: Provider, a: string, b: string)
    requires !UnitFails(provider, a) && !UnitFails(provider, b)
    ensures var server := provider.server;
      var n := |ServerRecords(server)|;
      var all := Collected(Outcomes(provider, [a, b]));
      var ra := UnitRecords(server, a, server.databases[a]);
      all == ra + UnitRecords(server, b, server.databases[b]) &&
      all[..n] == ServerRecords(server) && all[|ra|..|ra| + n] == ServerRecords(server)
  {
    var server := provider.server;
    var ra := UnitRecords(server, a, server.databases[a]);
    var rb := UnitRecords(server, b, server.databases[b]);
    UnitStartsWithServer(server, a, server.databases[a]);
    UnitStartsWithServer(server, b, server.databases[b]);
    assert Outcomes(provider, [a, b]) == [OutcomeOf(provider, a), OutcomeOf(provider, b)];
    CollectedTwo(OutcomeOf(provider, a), OutcomeOf(provider, b));
    PrefixOfBoth(ra, rb, ServerRecords(server));
  }

  /** Every successful unit's list starts with the server-level records. */
  lemma UnitStartsWithServer(server: Server, databaseName: string, db: Database)
    ensures var rs, sp := UnitRecords(server, databaseName, db), ServerRecords(server);
      |sp| <= |rs| && rs[..|sp|] == sp
  {
    UnitLocations(server, databaseName, db);
  }

  /** A common prefix of two sequences starts their join and reappears where the second begins. */
  lemma PrefixOfBoth<T>(x: seq<T>, y: seq<T>, p: seq<T>)
    requires |p| <= |x| && x[..|p|] == p
    requires |p| <= |y| && y[..|p|] == p
    ensures (x + y)[..|p|] == p && (x + y)[|x|..|x| + |p|] == p
  {
    assert (x + y)[..|p|] == x[..|p|];
    assert (x + y)[|x|..|x| + |p|] == y[..|p|];
  }
}
