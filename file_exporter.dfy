/**
 * The file-destination exporter (FileExporter) over an abstract filesystem.
 * The filesystem is a set of directories and, per directory, a map from file
 * name to content; the ways the real one can fail are given up front as Faults.
 */
module Exporters {
  import opened Wrappers
  import opened Abstractions
  import opened Settings

  // ---------------------------------------------------------------------------
  // The file-name sanitiser (GetCurrentPath)
  // ---------------------------------------------------------------------------

  /** The characters matched by the sanitiser's character class `[\\/:*?"<>|]`. */
  predicate IsForbidden(c: char)
  {
    c == '\\' || c == '/' || c == ':' || c == '*' || c == '?' || c == '"' || c == '<' || c == '>' || c == '|'
  }

  /** A string holding none of the forbidden characters. */
  predicate IsClean(s: string)
  {
    forall i :: 0 <= i < |s| ==> !IsForbidden(s[i])
  }

  /**
   * GetCurrentPath: every forbidden character of `path` is replaced by
   * `replaceString` (default "_"), everything else is kept in order. With a
   * one-character replacement the result has the input's length and differs
   * from it exactly at the forbidden characters.
   */
  function GetCurrentPath(path: string, replaceString: string := "_"): (r: string)
    ensures IsClean(replaceString) ==> IsClean(r)
    ensures |replaceString| == 1 ==> |r| == |path|
    ensures |replaceString| == 1 ==> forall i :: 0 <= i < |path| ==>
      r[i] == if IsForbidden(path[i]) then replaceString[0] else path[i]
    decreases |path|
  {
    if path == [] then []
    else
      var head := if IsForbidden(path[0]) then replaceString else [path[0]];
      var rest := GetCurrentPath(path[1..], replaceString);
      assert IsClean(replaceString) ==> IsClean(head + rest) by {
        if IsClean(replaceString) {
          forall i | 0 <= i < |head + rest| ensures !IsForbidden((head + rest)[i]) {
            if i >= |head| {
              assert (head + rest)[i] == rest[i - |head|];
            }
          }
        }
      }
      head + rest
  }

  /** A clean string is left as it is, whatever the replacement. */
  lemma {:induction false} GetCurrentPathOfClean(path: string, replaceString: string)
    requires IsClean(path)
    ensures GetCurrentPath(path, replaceString) == path
    decreases |path|
  {
    if path != [] {
      assert IsClean(path[1..]) by {
        forall i | 0 <= i < |path[1..]| ensures !IsForbidden(path[1..][i]) {
          assert path[1..][i] == path[i + 1];
        }
      }
      GetCurrentPathOfClean(path[1..], replaceString);
      assert path == [path[0]] + path[1..];
    }
  }

  /** Sanitising twice is sanitising once (for a replacement that is itself clean, such as "_"). */
  lemma GetCurrentPathIdempotent(path: string, replaceString: string)
    requires IsClean(replaceString)
    ensures GetCurrentPath(GetCurrentPath(path, replaceString), replaceString) == GetCurrentPath(path, replaceString)
  {
    GetCurrentPathOfClean(GetCurrentPath(path, replaceString), replaceString);
  }

  /** The sanitiser is not injective: distinct stems can name the same file. */
  lemma GetCurrentPathMerges()
    ensures GetCurrentPath("a/b") == GetCurrentPath("a_b") == "a_b"
  {
    var r := GetCurrentPath("a/b");
    assert r[0] == 'a' && r[1] == '_' && r[2] == 'b';
    assert r == "a_b";
    GetCurrentPathOfClean("a_b", "_");
  }

  // ---------------------------------------------------------------------------
  // The abstract filesystem
  // ---------------------------------------------------------------------------

  /** A snapshot of the filesystem: existing directories and the files directly inside each. */
  datatype Disk = Disk(dirs: set<string>, files: map<string, map<string, string>>)

  /** Every existing directory has a file listing, and nothing else has one. */
  predicate WellFormed(d: Disk)
  {
    d.files.Keys == d.dirs
  }

  /**
   * How the filesystem refuses: the directories `CreateDirectory` can make
   * (it throws for any other missing one), the directories whose file
   * listing throws, and the files whose write throws.
   */
  datatype Faults = Faults(creatable: set<string>, unlistable: set<string>, unwritable: set<(string, string)>)

  /** The content of file `name` in directory `dir`, or None. */
  function FileAt(d: Disk, dir: string, name: string): Option<string>
  {
    if dir in d.files && name in d.files[dir] then Some(d.files[dir][name]) else None
  }

  /** Whether Directory.CreateDirectory throws for `path`: it is missing and cannot be created. */
  predicate CreateFails(f: Faults, d: Disk, path: string)
  {
    path !in d.dirs && path !in f.creatable
  }

  /**
   * Directory.CreateDirectory: a missing path that can be created appears,
   * empty; an existing one is left as it is; otherwise it throws and nothing
   * changes. No directory ever disappears and no file changes.
   */
  function CreateDirectoryEffect(f: Faults, d: Disk, path: string): (d': Disk)
    requires WellFormed(d)
    ensures WellFormed(d')
    ensures path in d'.dirs <==> !CreateFails(f, d, path)
    ensures d'.dirs == if CreateFails(f, d, path) then d.dirs else d.dirs + {path}
    ensures forall p :: p in d.files ==> p in d'.files && d'.files[p] == d.files[p]
  {
    if path in d.dirs || path !in f.creatable then d
    else Disk(d.dirs + {path}, d.files[path := map[]])
  }

  class FileSystem {
    var dirs: set<string>
    var files: map<string, map<string, string>>
    const faults: Faults

    ghost predicate Valid()
      reads this
    {
      files.Keys == dirs
    }

    function Snapshot(): Disk
      reads this
    {
      Disk(dirs, files)
    }

    constructor (dirs: set<string>, files: map<string, map<string, string>>, faults: Faults)
      requires files.Keys == dirs
      ensures Valid() && Snapshot() == Disk(dirs, files) && this.faults == faults
    {
      this.dirs := dirs;
      this.files := files;
      this.faults := faults;
    }

    /** Directory.Exists */
    method Exists(path: string) returns (b: bool)
      ensures b == (path in dirs)
    {
      b := path in dirs;
    }

    /** Directory.CreateDirectory; for a path it cannot create it throws and changes nothing. */
    method CreateDirectory(path: string) returns (threw: bool)
      requires Valid()
      modifies this
      ensures Valid()
      ensures threw == CreateFails(faults, old(Snapshot()), path)
      ensures Snapshot() == CreateDirectoryEffect(faults, old(Snapshot()), path)
    {
      threw := path !in dirs && path !in faults.creatable;
      if path !in dirs && path in faults.creatable {
        dirs := dirs + {path};
        files := files[path := map[]];
      }
    }

    /** DirectoryInfo.GetFiles: the names of the files directly inside `path`, or an exception. */
    method GetFiles(path: string) returns (names: set<string>, threw: bool)
      requires Valid() && path in dirs
      ensures threw == (path in faults.unlistable)
      ensures !threw ==> names == files[path].Keys
    {
      threw := path in faults.unlistable;
      names := if threw then {} else files[path].Keys;
    }

    /** FileInfo.Delete */
    method Delete(dir: string, name: string)
      requires Valid() && dir in dirs
      modifies this
      ensures Valid() && dirs == old(dirs)
      ensures files == old(files)[dir := old(files)[dir] - {name}]
    {
      files := files[dir := files[dir] - {name}];
    }

    /** File.WriteAllText: creates or replaces the file, or throws. */
    method WriteAllText(dir: string, name: string, contents: string) returns (threw: bool)
      requires Valid() && dir in dirs
      modifies this
      ensures Valid() && dirs == old(dirs)
      ensures threw == ((dir, name) in faults.unwritable)
      ensures files == if threw then old(files) else old(files)[dir := old(files)[dir][name := contents]]
    {
      threw := (dir, name) in faults.unwritable;
      if !threw {
        files := files[dir := files[dir][name := contents]];
      }
    }
  }

  // ---------------------------------------------------------------------------
  // The exporter, as a function on its state
  // ---------------------------------------------------------------------------

  /** What Export does: it returns false or true, or an exception escapes it. */
  datatype ExportResult = Completed(ok: bool) | Thrown

  /** The filesystem together with the exporter's `_clearDirectoryList` memo. */
  datatype ExporterState = ExporterState(disk: Disk, memo: map<string, bool>)

  /** One Export call: its result, the state after it and the record after its `??=` assignments. */
  datatype ExportStepResult = StepResult(result: ExportResult, state: ExporterState, record: Option<ScriptInfo>)

  /** The record after Export's `??=`: null server name, database name and type become "". */
  function Normalize(info: ScriptInfo): ScriptInfo
  {
    info.(location := ScriptInfoLocation(Some(info.location.serverName.GetOr("")),
                                         Some(info.location.databaseName.GetOr(""))),
          kind := Some(info.kind.GetOr("")))
  }

  /** The target directory `root\server\database\type`; the segments are not sanitised. */
  function ExportDirectory(setting: ExportInfo, info: ScriptInfo): string
  {
    setting.patch + "\\" + info.location.serverName.GetOr("") + "\\" +
    info.location.databaseName.GetOr("") + "\\" + info.kind.GetOr("")
  }

  /** The unsanitised file stem: `Name`, or `Schema.Name` when the schema is neither null nor empty. */
  function RawStem(info: ScriptInfo): string
  {
    if info.schema.None? || info.schema.value == "" then info.name else info.schema.value + "." + info.name
  }

  /** The file name: the sanitised stem followed by ".sql". */
  function FileName(info: ScriptInfo): string
  {
    GetCurrentPath(RawStem(info)) + ".sql"
  }

  /** Whether this Export call deletes the files of `dir`: clearing is on, `dir` was never seen, its listing works. */
  predicate ClearsNow(setting: ExportInfo, f: Faults, st: ExporterState, dir: string)
  {
    setting.clearPatch && dir !in st.memo && dir !in f.unlistable
  }

  /** ClearDirectory: at most once per path, deleting the files directly inside and recording the outcome. */
  function ClearEffect(setting: ExportInfo, f: Faults, st: ExporterState, path: string): (st': ExporterState)
    requires WellFormed(st.disk) && path in st.disk.dirs
    ensures WellFormed(st'.disk)
  {
    if !setting.clearPatch || path in st.memo then st
    else if path in f.unlistable then st.(memo := st.memo[path := false])
    else ExporterState(st.disk.(files := st.disk.files[path := map[]]), st.memo[path := true])
  }

  /** Export, step by step as the source runs it. */
  function ExportStep(setting: ExportInfo, f: Faults, st: ExporterState, scriptInfo: Option<ScriptInfo>): (step: ExportStepResult)
    requires WellFormed(st.disk)
    ensures WellFormed(step.state.disk)
    ensures st.disk.dirs <= step.state.disk.dirs
  {
    if scriptInfo.None? then StepResult(Completed(false), st, None)
    else
      var info := Normalize(scriptInfo.value);
      var dir := ExportDirectory(setting, info);
      if CreateFails(f, st.disk, dir) then StepResult(Thrown, st, Some(info))
      else
        var cleared := ClearEffect(setting, f, st.(disk := CreateDirectoryEffect(f, st.disk, dir)), dir);
        var name := FileName(info);
        if (dir, name) in f.unwritable then StepResult(Thrown, cleared, Some(info))
        else
          var files := cleared.disk.files[dir := cleared.disk.files[dir][name := info.body.GetOr("")]];
          StepResult(Completed(true), cleared.(disk := cleared.disk.(files := files)), Some(info))
  }

  // ---------------------------------------------------------------------------
  // The exporter object
  // ---------------------------------------------------------------------------

  class FileExporter {
    const exportSetting: ExportInfo
    const fs: FileSystem
    var clearDirectoryList: map<string, bool>

    ghost predicate Valid()
      reads this, fs
    {
      fs.Valid()
    }

    /** The abstract state: the filesystem and the memo. */
    function State(): ExporterState
      reads this, fs
    {
      ExporterState(fs.Snapshot(), clearDirectoryList)
    }

    constructor Init(exportSetting: ExportInfo, fs: FileSystem)
      requires fs.Valid()
      ensures Valid() && this.exportSetting == exportSetting && this.fs == fs && clearDirectoryList == map[]
    {
      this.exportSetting := exportSetting;
      this.fs := fs;
      clearDirectoryList := map[];
    }

    /**
     * The public constructor: it makes sure the export root exists and fails
     * (the exception CreateDirectory throws, here None) when it cannot.
     */
    static method Create(exportSetting: ExportInfo, fs: FileSystem) returns (exporter: Option<FileExporter>)
      requires fs.Valid()
      modifies fs
      ensures fs.Valid()
      ensures fs.Snapshot() == CreateDirectoryEffect(fs.faults, old(fs.Snapshot()), exportSetting.patch)
      ensures exporter.Some? <==> exportSetting.patch in fs.dirs
      ensures exporter.None? <==> CreateFails(fs.faults, old(fs.Snapshot()), exportSetting.patch)
      ensures exporter.Some? ==>
        fresh(exporter.value) && exporter.value.Valid() && exporter.value.fs == fs &&
        exporter.value.exportSetting == exportSetting && exporter.value.clearDirectoryList == map[]
    {
      var ok, threw := CheckPath(fs, exportSetting.patch);
      if threw {
        return None;
      }
      var e := new FileExporter.Init(exportSetting, fs);
      return Some(e);
    }

    /**
     * CheckPath: create the directory when it is missing, then report whether
     * it exists. When the creation throws, the exception leaves CheckPath
     * (`threw`) and no answer is given; otherwise the answer is always true.
     */
    static method CheckPath(fs: FileSystem, path: string) returns (ok: bool, threw: bool)
      requires fs.Valid()
      modifies fs
      ensures fs.Valid()
      ensures fs.Snapshot() == CreateDirectoryEffect(fs.faults, old(fs.Snapshot()), path)
      ensures threw == CreateFails(fs.faults, old(fs.Snapshot()), path)
      ensures !threw ==> ok && path in fs.dirs
    {
      threw := false;
      var present := fs.Exists(path);
      if !present {
        threw := fs.CreateDirectory(path);
        if threw {
          return false, true;
        }
      }
      ok := fs.Exists(path);
    }

    /** ClearDirectory: delete the files directly inside `path` the first time it is seen. */
    method ClearDirectory(path: string)
      requires Valid() && path in fs.dirs
      modifies this, fs
      ensures Valid()
      ensures State() == ClearEffect(exportSetting, fs.faults, old(State()), path)
    {
      if !exportSetting.clearPatch {
        return;
      }
      if path in clearDirectoryList {
        return;
      }
      var names, threw := fs.GetFiles(path);
      if threw {
        clearDirectoryList := clearDirectoryList[path := false];
        return;
      }
      ghost var before := fs.files;
      assert before[path := before[path] - (names - names)] == before by {
        assert before[path] - (names - names) == before[path];
      }
      var pending := names;
      while pending != {}
        invariant fs.Valid() && fs.dirs == old(fs.dirs)
        invariant clearDirectoryList == old(clearDirectoryList)
        invariant pending <= names
        invariant fs.files == before[path := before[path] - (names - pending)]
        decreases pending
      {
        var n :| n in pending;
        fs.Delete(path, n);
        assert before[path] - (names - pending) - {n} == before[path] - (names - (pending - {n}));
        pending := pending - {n};
      }
      assert before[path] - (names - {}) == map[];
      assert fs.files == old(fs.files)[path := map[]];
      clearDirectoryList := clearDirectoryList[path := true];
    }

    /**
     * Export: a null record is refused; otherwise the nulls in the location
     * and type become "", the target directory is made sure of, cleared once
     * when clearing is on, and the body written to `<stem>.sql` in it.
     */
    method Export(scriptInfo: Option<ScriptInfo>) returns (result: ExportResult, normalized: Option<ScriptInfo>)
      requires Valid()
      modifies this, fs
      ensures Valid()
      ensures StepResult(result, State(), normalized) == ExportStep(exportSetting, fs.faults, old(State()), scriptInfo)
    {
      if scriptInfo.None? {
        return Completed(false), None;
      }
      var info := scriptInfo.value;
      var serverName := info.location.serverName.GetOr("");
      var databaseName := info.location.databaseName.GetOr("");
      var kind := info.kind.GetOr("");
      info := info.(location := ScriptInfoLocation(Some(serverName), Some(databaseName)), kind := Some(kind));
      normalized := Some(info);
      var exportDirectory := exportSetting.patch + "\\" + serverName + "\\" + databaseName + "\\" + kind;

      // CheckPath either throws or answers true, so its `false` branch is never taken.
      var ok, threw := CheckPath(fs, exportDirectory);
      if threw {
        return Thrown, normalized;
      }
      ClearDirectory(exportDirectory);

      var exportFile := GetCurrentPath(if info.schema.None? || info.schema.value == "" then info.name
                                       else info.schema.value + "." + info.name);
      threw := fs.WriteAllText(exportDirectory, exportFile + ".sql", info.body.GetOr(""));
      if threw {
        return Thrown, normalized;
      }
      return Completed(true), normalized;
    }
  }

  // ---------------------------------------------------------------------------
  // Properties of one Export call
  // ---------------------------------------------------------------------------

  /** Export(null) returns false and changes neither the filesystem nor the memo. */
  lemma ExportNullIsNoOp(setting: ExportInfo, f: Faults, st: ExporterState)
    requires WellFormed(st.disk)
    ensures ExportStep(setting, f, st, None) == StepResult(Completed(false), st, None)
  {
  }

  /**
   * `??=` replaces exactly the null server name, database name and type with "",
   * keeps every value that was set, and the target path does not depend on it.
   */
  lemma NormalizeReplacesOnlyNulls(setting: ExportInfo, info: ScriptInfo)
    ensures var n := Normalize(info);
      n.location.serverName == Some(info.location.serverName.GetOr("")) &&
      n.location.databaseName == Some(info.location.databaseName.GetOr("")) &&
      n.kind == Some(info.kind.GetOr("")) &&
      n.schema == info.schema && n.name == info.name && n.body == info.body &&
      (info.location.serverName.Some? && info.location.databaseName.Some? && info.kind.Some? ==> n == info) &&
      ExportDirectory(setting, n) == ExportDirectory(setting, info) && FileName(n) == FileName(info)
  {
  }

  /**
   * Export of a record never returns false: it throws exactly when its target
   * directory is missing and cannot be created, or its file cannot be
   * written. When the directory cannot be created nothing is cleared,
   * written or recorded.
   */
  lemma ExportThrowsWhen(setting: ExportInfo, f: Faults, st: ExporterState, info: ScriptInfo)
    requires WellFormed(st.disk)
    ensures var dir := ExportDirectory(setting, info);
      var step := ExportStep(setting, f, st, Some(info));
      step.result != Completed(false) &&
      (step.result == Thrown <==> CreateFails(f, st.disk, dir) || (dir, FileName(info)) in f.unwritable) &&
      (CreateFails(f, st.disk, dir) ==> step.result == Thrown && step.state == st)
  {
    NormalizeReplacesOnlyNulls(setting, info);
  }

  /**
   * Export of a record returns true exactly when its target directory exists
   * or can be created and its file can be written.
   */
  lemma ExportSucceedsWhen(setting: ExportInfo, f: Faults, st: ExporterState, info: ScriptInfo)
    requires WellFormed(st.disk)
    ensures var dir := ExportDirectory(setting, info);
      ExportStep(setting, f, st, Some(info)).result == Completed(true) <==>
        !CreateFails(f, st.disk, dir) && (dir, FileName(info)) !in f.unwritable
  {
    NormalizeReplacesOnlyNulls(setting, info);
  }

  /**
   * The disk after a successful Export: the target directory exists, emptied
   * first when this call clears it, with the record's file written into it.
   */
  lemma SuccessfulExportDisk(setting: ExportInfo, f: Faults, st: ExporterState, info: ScriptInfo)
    requires WellFormed(st.disk)
    requires ExportStep(setting, f, st, Some(info)).result == Completed(true)
    ensures var dir := ExportDirectory(setting, info);
      var after := ExportStep(setting, f, st, Some(info)).state.disk;
      var before := if dir in st.disk.dirs then st.disk.files[dir] else map[];
      var kept := if ClearsNow(setting, f, st, dir) then map[] else before;
      dir in after.dirs && after.files == st.disk.files[dir := kept[FileName(info) := info.body.GetOr("")]]
  {
    var n := Normalize(info);
    var dir, name := ExportDirectory(setting, info), FileName(info);
    assert ExportDirectory(setting, n) == dir && FileName(n) == name by {
      assert RawStem(n) == RawStem(info);
    }
    assert !CreateFails(f, st.disk, dir);
    var disk := CreateDirectoryEffect(f, st.disk, dir);
    var before := if dir in st.disk.dirs then st.disk.files[dir] else map[];
    assert disk.files == st.disk.files[dir := before];
    var cleared := ClearEffect(setting, f, st.(disk := disk), dir);
    var kept := if ClearsNow(setting, f, st, dir) then map[] else before;
    assert cleared.disk.files == st.disk.files[dir := kept];
    var body := info.body.GetOr("");
    var after := ExportStep(setting, f, st, Some(info)).state.disk;
    assert after.files == cleared.disk.files[dir := kept[name := body]];
    UpdateTwice(st.disk.files, dir, kept, kept[name := body]);
  }

  /** A second update of the same key overrides the first. */
  lemma UpdateTwice<K, V>(m: map<K, V>, k: K, a: V, b: V)
    ensures m[k := a][k := b] == m[k := b]
  {
    assert m[k := a][k := b].Keys == m[k := b].Keys;
  }

  /**
   * A successful Export leaves the file `<stem>.sql` in the target directory
   * holding the body (an existing file is overwritten; a null body gives an
   * empty file).
   */
  lemma ExportWritesOneFile(setting: ExportInfo, f: Faults, st: ExporterState, info: ScriptInfo)
    requires WellFormed(st.disk)
    requires ExportStep(setting, f, st, Some(info)).result == Completed(true)
    ensures var dir := ExportDirectory(setting, info);
      var after := ExportStep(setting, f, st, Some(info)).state.disk;
      dir in after.dirs && FileAt(after, dir, FileName(info)) == Some(info.body.GetOr(""))
  {
    SuccessfulExportDisk(setting, f, st, info);
  }

  /** A successful Export changes no file outside its target directory. */
  lemma ExportKeepsOtherDirectories(setting: ExportInfo, f: Faults, st: ExporterState, info: ScriptInfo)
    requires WellFormed(st.disk)
    requires ExportStep(setting, f, st, Some(info)).result == Completed(true)
    ensures var after := ExportStep(setting, f, st, Some(info)).state.disk;
      forall d, n :: d != ExportDirectory(setting, info) ==> FileAt(after, d, n) == FileAt(st.disk, d, n)
  {
    SuccessfulExportDisk(setting, f, st, info);
  }

  /**
   * After a successful Export the other files of the target directory are
   * gone exactly when this call cleared it, and are kept otherwise.
   */
  lemma ExportClearsOrKeepsSiblings(setting: ExportInfo, f: Faults, st: ExporterState, info: ScriptInfo)
    requires WellFormed(st.disk)
    requires ExportStep(setting, f, st, Some(info)).result == Completed(true)
    ensures var dir := ExportDirectory(setting, info);
      var after := ExportStep(setting, f, st, Some(info)).state.disk;
      forall n :: n != FileName(info) ==>
        FileAt(after, dir, n) == if ClearsNow(setting, f, st, dir) then None else FileAt(st.disk, dir, n)
  {
    SuccessfulExportDisk(setting, f, st, info);
  }

  /**
   * A record `S`/`D`/Table with a clean schema and name (such as `dbo` and
   * `Orders`) is written to `<root>\S\D\Table\<schema>.<name>.sql`.
   */
  lemma ExportPathExample(root: string, schema: string, name: string, body: string)
    requires schema != "" && IsClean(schema) && IsClean(name)
    ensures var info := ScriptInfo(ScriptInfoLocation(Some("S"), Some("D")), Some("Table"), Some(schema), name, Some(body));
      ExportDirectory(ExportInfo(root, false), info) == root + "\\S\\D\\Table" &&
      FileName(info) == schema + "." + name + ".sql"
  {
    assert root + "\\" + "S" + "\\" + "D" + "\\" + "Table" == root + "\\S\\D\\Table";
    var stem := schema + "." + name;
    assert IsClean(stem) by {
      forall i | 0 <= i < |stem| ensures !IsForbidden(stem[i]) {
        if i < |schema| { assert stem[i] == schema[i]; }
        else if i > |schema| { assert stem[i] == name[i - |schema| - 1]; }
      }
    }
    GetCurrentPathOfClean(stem, "_");
  }

  /**
   * A server-level record with an empty schema and a clean name (such as
   * `Login1`) gets the stem `Name`, not `.Name`; the null database becomes an
   * empty path segment.
   */
  lemma SchemaLessExample(root: string, name: string, body: string)
    requires IsClean(name)
    ensures var info := ScriptInfo(ScriptInfoLocation(Some("S"), None), Some("Login"), Some(""), name, Some(body));
      ExportDirectory(ExportInfo(root, false), info) == root + "\\S\\\\Login" &&
      FileName(info) == name + ".sql"
  {
    assert root + "\\" + "S" + "\\" + "" + "\\" + "Login" == root + "\\S\\\\Login";
    GetCurrentPathOfClean(name, "_");
  }

  /**
   * The memo: untouched without ClearPatch or when the directory is missing;
   * with ClearPatch the first export to a directory records whether its
   * listing worked, and any later export to it leaves the memo alone.
   */
  lemma ExportMemo(setting: ExportInfo, f: Faults, st: ExporterState, info: ScriptInfo)
    requires WellFormed(st.disk)
    ensures var dir := ExportDirectory(setting, info);
      var step := ExportStep(setting, f, st, Some(info));
      var reachable := !CreateFails(f, st.disk, dir);
      (!setting.clearPatch || !reachable || dir in st.memo ==> step.state.memo == st.memo) &&
      (setting.clearPatch && reachable && dir !in st.memo ==>
        step.state.memo == st.memo[dir := dir !in f.unlistable])
  {
  }

  /** Once a directory is in the memo, Export never clears it again, whatever was recorded. */
  lemma ClearAtMostOnce(setting: ExportInfo, f: Faults, st: ExporterState, path: string)
    requires WellFormed(st.disk) && path in st.disk.dirs && path in st.memo
    ensures ClearEffect(setting, f, st, path) == st
  {
  }

  /** Exporting the same record again right after a success changes nothing: the same file is rewritten with the same text. */
  lemma ReexportIsIdempotent(setting: ExportInfo, f: Faults, st: ExporterState, info: ScriptInfo)
    requires WellFormed(st.disk)
    requires ExportStep(setting, f, st, Some(info)).result == Completed(true)
    ensures var first := ExportStep(setting, f, st, Some(info));
      ExportStep(setting, f, first.state, Some(info)) == first
  {
    var first := ExportStep(setting, f, st, Some(info));
    var n := Normalize(info);
    assert Normalize(n) == n;
    var dir := ExportDirectory(setting, n);
    var name := FileName(n);
    var files := first.state.disk.files;
    assert dir in first.state.disk.dirs && (dir in first.state.memo || !setting.clearPatch);
    assert files[dir][name := info.body.GetOr("")] == files[dir];
    assert files[dir := files[dir]] == files;
  }
}
