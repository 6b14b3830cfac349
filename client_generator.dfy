/**
 * The console client generator: it asks the script service for every record
 * once, then hands the records to the exporter one by one, in list order.
 * An export that returns false is ignored; an exception from an export ends
 * the loop and faults the whole run.
 */
module ClientGenerator {
  import opened Wrappers
  import opened Abstractions
  import opened Settings
  import opened Smo
  import opened MsSql
  import opened Exporters

  /**
   * Where exporting a list of records got to: the exporter's state, whether an
   * exception ended the loop, and how many records were handed to the exporter.
   */
  datatype ExportRun = ExportRun(state: ExporterState, aborted: bool, attempted: nat)

  /**
   * `ForEach(SendExporter)` over `records`: every record is exported in order
   * until an export throws; the records after it are never exported.
   */
  function ExportAll(setting: ExportInfo, f: Faults, st: ExporterState, records: seq<ScriptInfo>): (run: ExportRun)
    requires WellFormed(st.disk)
    ensures WellFormed(run.state.disk)
    ensures run.attempted <= |records|
    ensures !run.aborted ==> run.attempted == |records|
    ensures records == [] ==> run == ExportRun(st, false, 0)
    ensures st.disk.dirs <= run.state.disk.dirs
    decreases |records|
  {
    if records == [] then ExportRun(st, false, 0)
    else
      var previous := ExportAll(setting, f, st, records[..|records| - 1]);
      if previous.aborted then previous
      else
        var step := ExportStep(setting, f, previous.state, Some(records[|records| - 1]));
        ExportRun(step.state, step.result.Thrown?, previous.attempted + 1)
  }

  /** ConsoleClientGenerator: the script service (its connection settings and server) and the exporter. */
  class ConsoleClientGenerator {
    const connectionInfo: ConnectionInfo
    const provider: Provider
    const exporter: FileExporter

    constructor (connectionInfo: ConnectionInfo, provider: Provider, exporter: FileExporter)
      ensures this.connectionInfo == connectionInfo && this.provider == provider && this.exporter == exporter
    {
      this.connectionInfo := connectionInfo;
      this.provider := provider;
      this.exporter := exporter;
    }

    /** SendExporter: export one record; a false result is ignored, an exception is reported as `thrown`. */
    method SendExporter(scriptInfo: ScriptInfo) returns (thrown: bool)
      requires exporter.Valid()
      modifies exporter, exporter.fs
      ensures exporter.Valid()
      ensures var step := ExportStep(exporter.exportSetting, exporter.fs.faults, old(exporter.State()), Some(scriptInfo));
        exporter.State() == step.state && thrown == step.result.Thrown?
    {
      var result, _ := exporter.Export(Some(scriptInfo));
      thrown := result.Thrown?;
    }

    /** `ForEach(SendExporter)`: export the records in order; an exception ends the loop and is reported as `faulted`. */
    method ExportEach(records: seq<ScriptInfo>) returns (faulted: bool)
      requires exporter.Valid()
      modifies exporter, exporter.fs
      ensures exporter.Valid()
      ensures var run := ExportAll(exporter.exportSetting, exporter.fs.faults, old(exporter.State()), records);
        exporter.State() == run.state && faulted == run.aborted
    {
      ghost var setting, f, start := exporter.exportSetting, exporter.fs.faults, exporter.State();
      for i := 0 to |records|
        invariant exporter.Valid()
        invariant ExportAll(setting, f, start, records[..i]) == ExportRun(exporter.State(), false, i)
      {
        ghost var before := exporter.State();
        var thrown := SendExporter(records[i]);
        ExportAllStep(setting, f, start, records, i, before);
        if thrown {
          AbortPersists(setting, f, start, records[..i + 1], records[i + 1..]);
          assert records[..i + 1] + records[i + 1..] == records;
          return true;
        }
      }
      assert records[..|records|] == records;
      return false;
    }

    /**
     * GenerateAsync: fetch the records once, then export them in order. The
     * run faults when fetching throws (no `Databases` configured, or any unit
     * faulted: nothing is exported) or when an export throws (the records
     * after it are skipped).
     */
    method GenerateAsync() returns (faulted: bool)
      requires exporter.Valid()
      modifies exporter, exporter.fs
      ensures exporter.Valid()
      ensures connectionInfo.databases.None? || !AllSucceeded(Outcomes(provider, connectionInfo.databases.value)) ==>
        faulted && exporter.State() == old(exporter.State())
      ensures connectionInfo.databases.Some? && AllSucceeded(Outcomes(provider, connectionInfo.databases.value)) ==>
        var run := ExportAll(exporter.exportSetting, exporter.fs.faults, old(exporter.State()),
                             Collected(Outcomes(provider, connectionInfo.databases.value)));
        exporter.State() == run.state && faulted == run.aborted
    {
      var exportScriptResult := GetScriptInfoAsync(connectionInfo, provider);
      if exportScriptResult.None? {
        return true;
      }
      faulted := ExportEach(exportScriptResult.value);
    }
  }

  // ---------------------------------------------------------------------------
  // Properties of the export loop
  // ---------------------------------------------------------------------------

  /** Exporting one more record after a run that has not aborted. */
  lemma ExportAllStep(setting: ExportInfo, f: Faults, st: ExporterState, records: seq<ScriptInfo>, i: int, before: ExporterState)
    requires WellFormed(st.disk) && 0 <= i < |records|
    requires ExportAll(setting, f, st, records[..i]) == ExportRun(before, false, i)
    ensures var step := ExportStep(setting, f, before, Some(records[i]));
      ExportAll(setting, f, st, records[..i + 1]) == ExportRun(step.state, step.result.Thrown?, i + 1)
  {
    assert records[..i + 1][..i] == records[..i];
  }

  /** Once an export has thrown, the records after it change nothing. */
  lemma {:induction false} AbortPersists(setting: ExportInfo, f: Faults, st: ExporterState,
                                         done: seq<ScriptInfo>, rest: seq<ScriptInfo>)
    requires WellFormed(st.disk)
    requires ExportAll(setting, f, st, done).aborted
    ensures ExportAll(setting, f, st, done + rest) == ExportAll(setting, f, st, done)
    decreases |rest|
  {
    if rest == [] {
      assert done + rest == done;
    } else {
      assert (done + rest)[..|done + rest| - 1] == done + rest[..|rest| - 1];
      AbortPersists(setting, f, st, done, rest[..|rest| - 1]);
    }
  }

  /**
   * The loop stops at the first exception: the run's outcome is that of the
   * records it attempted, and when it aborted the last of those threw.
   */
  lemma {:induction false} StopsAtFirstThrow(setting: ExportInfo, f: Faults, st: ExporterState, records: seq<ScriptInfo>)
    requires WellFormed(st.disk)
    ensures var run := ExportAll(setting, f, st, records);
      ExportAll(setting, f, st, records[..run.attempted]) == run
    ensures var run := ExportAll(setting, f, st, records);
      run.aborted ==> 0 < run.attempted
    ensures var run := ExportAll(setting, f, st, records);
      run.aborted && 0 < run.attempted ==>
        var before := ExportAll(setting, f, st, records[..run.attempted - 1]);
        !before.aborted && ExportStep(setting, f, before.state, Some(records[run.attempted - 1])).result == Thrown
    decreases |records|
  {
    if records != [] {
      var init := records[..|records| - 1];
      var previous := ExportAll(setting, f, st, init);
      StopsAtFirstThrow(setting, f, st, init);
      if previous.aborted {
        assert records[..previous.attempted] == init[..previous.attempted];
        assert records[..previous.attempted - 1] == init[..previous.attempted - 1];
      } else {
        assert records[..|records|] == records;
        assert records[..|records| - 1] == init;
      }
    }
  }

  /**
   * With no file that refuses writing and every target directory present or
   * creatable, no export throws and every record is exported.
   */
  lemma {:induction false} NoWriteFaultsExportsAll(setting: ExportInfo, f: Faults, st: ExporterState, records: seq<ScriptInfo>)
    requires WellFormed(st.disk)
    requires f.unwritable == {}
    requires forall r :: r in records ==> !CreateFails(f, st.disk, ExportDirectory(setting, r))
    ensures var run := ExportAll(setting, f, st, records);
      !run.aborted && run.attempted == |records|
    decreases |records|
  {
    if records != [] {
      var init, last := records[..|records| - 1], records[|records| - 1];
      assert forall r :: r in init ==> r in records;
      NoWriteFaultsExportsAll(setting, f, st, init);
      var previous := ExportAll(setting, f, st, init);
      ExportThrowsWhen(setting, f, previous.state, last);
    }
  }

  /**
   * After a run without exceptions whose last export succeeded, that
   * record's file holds its body (an absent body gives an empty file).
   */
  lemma LastRecordWritten(setting: ExportInfo, f: Faults, st: ExporterState, records: seq<ScriptInfo>, last: ScriptInfo)
    requires WellFormed(st.disk)
    requires var before := ExportAll(setting, f, st, records);
      !before.aborted && ExportStep(setting, f, before.state, Some(last)).result == Completed(true)
    ensures var run := ExportAll(setting, f, st, records + [last]);
      !run.aborted && run.attempted == |records| + 1 &&
      FileAt(run.state.disk, ExportDirectory(setting, last), FileName(last)) == Some(last.body.GetOr(""))
  {
    assert (records + [last])[..|records|] == records;
    var before := ExportAll(setting, f, st, records);
    ExportWritesOneFile(setting, f, before.state, last);
  }

  /**
   * Faulted fetch: with no `Databases` configured the generator exports
   * nothing; with an empty list it exports nothing and does not fault.
   */
  lemma EmptyConfigurationExportsNothing(setting: ExportInfo, f: Faults, st: ExporterState, provider: Provider)
    requires WellFormed(st.disk)
    ensures ExportAll(setting, f, st, Collected(Outcomes(provider, []))) == ExportRun(st, false, 0)
  {
    assert Outcomes(provider, []) == [];
  }
}
