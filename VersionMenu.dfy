/**
 The data-switching logic of the VersionMenu form: installing a catalog
 database, importing a custom database and saving the Data folder as one.
 The form's state is the game's Data folder, the temporary `Data.zip`
 beside it and the two loader configuration files.
 */
module Menu {
  import opened NameOrder
  import opened FileTree
  import opened Catalog
  import opened Install
  import opened Relocation
  import opened RelocationLemmas
  import opened Export

  /** What a switch does, in order: one install of a database, or one
      loader configuration file written. */
  datatype Event = DataCopied(database: Database) | ConfigWritten(file: ConfigFile)

  const LoadedSuffix: string := " database successfully loaded!"
  const CustomLoaded: string := "Custom database successfully loaded!"
  const NoValidDatabase: string := "No valid database found!"

  /** The install of the prerequisite, when the database has one. */
  function PrerequisiteEvents(db: Database): seq<Event>
  {
    match db.prerequisite
    case None => []
    case Some(pre) => [DataCopied(pre)]
  }

  /** The lines a configuration file holds, if it exists. */
  function CurrentLines(configs: map<ConfigFile, Lines>, file: ConfigFile): Option<Lines>
  {
    if file in configs then Some(configs[file]) else None
  }

  class VersionMenu {
    /** Helper.Databases, the catalog. */
    const databases: seq<Database>
    /** Helper.PlayerSetupFilename. */
    const playerSetup: Name
    /** Helper.GetDefaultConfigFileLines. */
    const configLines: ConfigGenerator
    /** Helper.CustomDatabase; the import sets its archive. */
    var customDatabase: Database
    var dataFolderExists: bool
    var data: Tree
    /** The temporary `Data.zip` next to the Data folder. */
    var dataZip: Option<Archive>
    var configs: map<ConfigFile, Lines>
    ghost var history: seq<Event>

    ghost predicate Valid()
      reads this
    {
      FileTree.Valid(data) && (!dataFolderExists ==> data == Empty)
    }

    constructor (databases: seq<Database>, playerSetup: Name, configLines: ConfigGenerator,
                 customDatabase: Database, dataFolderExists: bool, data: Tree,
                 configs: map<ConfigFile, Lines>)
      requires FileTree.Valid(data) && (!dataFolderExists ==> data == Empty)
      ensures Valid()
      ensures this.databases == databases && this.playerSetup == playerSetup
      ensures this.configLines == configLines && this.customDatabase == customDatabase
      ensures this.dataFolderExists == dataFolderExists && this.data == data
      ensures this.configs == configs && dataZip == None && history == []
    {
      this.databases := databases;
      this.playerSetup := playerSetup;
      this.configLines := configLines;
      this.customDatabase := customDatabase;
      this.dataFolderExists := dataFolderExists;
      this.data := data;
      this.dataZip := None;
      this.configs := configs;
      this.history := [];
    }

    // The file-system calls the form makes.

    /** File.WriteAllBytes(DataFolder + ".zip", …). */
    method WriteDataZip(a: Archive)
      modifies this`dataZip
      ensures dataZip == Some(a)
    {
      dataZip := Some(a);
    }

    /** File.Delete(DataFolder + ".zip"). */
    method DeleteDataZip()
      modifies this`dataZip
      ensures dataZip == None
    {
      dataZip := None;
    }

    /** Directory.CreateDirectory(DataFolder). */
    method CreateDataFolder()
      modifies this`dataFolderExists
      ensures dataFolderExists
    {
      dataFolderExists := true;
    }

    /** FastZip.ExtractZip of `Data.zip` into the Data folder. */
    method ExtractDataZip()
      requires dataZip.Some? && Fits(data, dataZip.value)
      modifies this`data
      ensures data == Extract(old(data), dataZip.value)
    {
      data := Extract(data, dataZip.value);
    }

    /** File.Delete(p): fails when `p` is a folder. */
    method FileDelete(p: Path)
      requires p !in data.dirs
      modifies this`data
      ensures data == DeleteFile(old(data), p)
    {
      data := DeleteFile(data, p);
    }

    /** Directory.Delete(d, true). */
    method DirectoryDelete(d: Path)
      requires d in data.dirs
      modifies this`data
      ensures data == DeleteDirectory(old(data), d)
    {
      data := DeleteDirectory(data, d);
    }

    /** Directory.Move(src, dst): fails when `dst` already exists. */
    method DirectoryMove(src: Path, dst: Path)
      requires src in data.dirs && dst != [] && dst !in data.dirs && dst !in data.files
      modifies this`data
      ensures data == MoveDirectory(old(data), src, dst)
    {
      data := MoveDirectory(data, src, dst);
    }

    /** File.Copy(src, dst, true): fails when `dst` is a folder. */
    method FileCopy(src: Path, dst: Path)
      requires src in data.files && dst !in data.dirs
      modifies this`data
      ensures data == WriteFile(old(data), dst, old(data).files[src])
    {
      data := WriteFile(data, dst, data.files[src]);
    }

    /** WriteToFile(lines, p) on a file of the Data folder. */
    method WriteDataFile(lines: seq<string>, p: Path)
      requires p !in data.dirs
      modifies this`data
      ensures data == WriteFile(old(data), p, Text(lines))
    {
      data := WriteFile(data, p, Text(lines));
    }

    /** WriteToFile(lines, file) on a loader configuration file. */
    method WriteConfig(file: ConfigFile, lines: Lines)
      modifies this`configs, this`history
      ensures configs == old(configs)[file := lines]
      ensures history == old(history) + [ConfigWritten(file)]
    {
      configs := configs[file := lines];
      history := history + [ConfigWritten(file)];
    }

    // The form's own operations.

    /** UpdateConfigFiles: both loader configuration files are regenerated
        for `db`, the default one first, each from its own current lines. */
    method UpdateConfigFiles(db: Database)
      modifies this`configs, this`history
      ensures configs == old(configs)
        [CmLoaderConfig := configLines(CmLoaderConfig, CurrentLines(old(configs), CmLoaderConfig), db, false)]
        [CmLoaderCustomConfig :=
           configLines(CmLoaderCustomConfig, CurrentLines(old(configs), CmLoaderCustomConfig), db, false)]
      ensures history == old(history) + [ConfigWritten(CmLoaderConfig), ConfigWritten(CmLoaderCustomConfig)]
    {
      var defaultLines := configLines(CmLoaderConfig, CurrentLines(configs, CmLoaderConfig), db, false);
      WriteConfig(CmLoaderConfig, defaultLines);
      var customLines := configLines(CmLoaderCustomConfig, CurrentLines(configs, CmLoaderCustomConfig), db, false);
      WriteConfig(CmLoaderCustomConfig, customLines);
    }

    /** DeleteDatabaseDetectorFiles: deletes every catalog database's
        detector file, one database at a time. */
    method DeleteDatabaseDetectorFiles()
      requires DetectorPaths(databases) !! data.dirs
      modifies this`data
      ensures data == WithoutDetectors(old(data), databases)
    {
      ghost var t0 := data;
      WithoutDetectorsNone(t0);
      assert databases[..0] == [];
      for i := 0 to |databases|
        invariant data == WithoutDetectors(t0, databases[..i])
      {
        WithoutDetectorsStep(t0, databases, i);
        assert DetectorPath(databases[i]) in DetectorPaths(databases);
        FileDelete(DetectorPath(databases[i]));
      }
      assert databases[..|databases|] == databases;
    }

    /** The first loop of the wiping branch of CopyDataToGame: every
        subfolder of the Data folder is deleted with all it holds. */
    method DeleteRootFolders()
      requires FileTree.Valid(data)
      modifies this`data
      ensures data == PruneRootFolders(old(data), {})
    {
      ghost var t0 := data;
      var folders := ChildDirs(data, []);
      PruneRootFoldersNone(t0, folders);
      while folders != {}
        invariant folders <= ChildDirs(t0, [])
        invariant data == PruneRootFolders(t0, folders)
        decreases folders
      {
        var n := FirstName(folders);
        RootFolder(t0, n);
        PruneRootFoldersStep(t0, folders, n);
        assert [n][0] == n;
        DirectoryDelete([n]);
        folders := folders - {n};
      }
    }

    /** The second loop of the wiping branch: every file left in the Data
        folder is deleted. */
    method DeleteRootFiles()
      requires data.dirs == {} && forall q :: q in data.files ==> |q| == 1
      modifies this`data
      ensures data == Empty
    {
      var files := ChildFiles(data, []);
      forall q | q in data.files
        ensures q[0] in files
      {
        assert q == [] + [q[0]];
      }
      while files != {}
        invariant data.dirs == {}
        invariant forall q :: q in data.files ==> |q| == 1 && q[0] in files
        decreases files
      {
        var n := FirstName(files);
        FileDelete([n]);
        forall q | q in data.files
          ensures q[0] != n
        {
          assert q == [q[0]];
        }
        files := files - {n};
      }
      assert data.files == map[];
    }

    /** CopyDataToGame(db): writes `Data.zip`, prepares the Data folder
        (creates it, wipes it, or deletes the detector files), extracts the
        archive into it and deletes `Data.zip`. */
    method CopyDataToGame(db: Database)
      requires Valid() && CanInstall(dataFolderExists, data, db, databases)
      modifies this`data, this`dataZip, this`dataFolderExists, this`history
      ensures Valid()
      ensures data == Installed(old(dataFolderExists), old(data), db, databases)
      ensures dataFolderExists && dataZip == None
      ensures history == old(history) + [DataCopied(db)]
    {
      ghost var t0 := data;
      ghost var existed := dataFolderExists;
      WriteDataZip(db.dataFile);
      if dataFolderExists {
        if db.deleteDataFolder {
          DeleteRootFolders();
          DeleteRootFiles();
        } else {
          DeleteDatabaseDetectorFiles();
        }
      } else {
        CreateDataFolder();
      }
      assert data == Prepared(existed, t0, db, databases);
      ExtractDataZip();
      DeleteDataZip();
      history := history + [DataCopied(db)];
      InstallKeepsValid(existed, t0, db, databases);
    }

    /** SetupDatabase(db): installs the prerequisite, if any, then `db`, then
        regenerates both loader configuration files. */
    method SetupDatabase(db: Database)
      requires Valid() && CanSwitch(dataFolderExists, data, db, databases)
      modifies this`data, this`dataZip, this`dataFolderExists, this`configs, this`history
      ensures Valid()
      ensures data == Switched(old(dataFolderExists), old(data), db, databases)
      ensures dataFolderExists && dataZip == None
      ensures configs == old(configs)
        [CmLoaderConfig := configLines(CmLoaderConfig, CurrentLines(old(configs), CmLoaderConfig), db, false)]
        [CmLoaderCustomConfig :=
           configLines(CmLoaderCustomConfig, CurrentLines(old(configs), CmLoaderCustomConfig), db, false)]
      ensures history == old(history) + PrerequisiteEvents(db)
        + [DataCopied(db), ConfigWritten(CmLoaderConfig), ConfigWritten(CmLoaderCustomConfig)]
    {
      if db.prerequisite.Some? {
        CopyDataToGame(db.prerequisite.value);
      }
      CopyDataToGame(db);
      UpdateConfigFiles(db);
    }

    /** SwitchDatabase_Click: switches to the catalog database named after
        the button and reports it by its label. */
    method SwitchDatabase(buttonName: Name) returns (message: string)
      requires Valid()
      requires FindByName(databases, buttonName).Some?
      requires CanSwitch(dataFolderExists, data, FindByName(databases, buttonName).value, databases)
      modifies this`data, this`dataZip, this`dataFolderExists, this`configs, this`history
      ensures var db := FindByName(databases, buttonName).value;
        && Valid()
        && data == Switched(old(dataFolderExists), old(data), db, databases)
        && dataFolderExists && dataZip == None
        && configs == old(configs)
             [CmLoaderConfig := configLines(CmLoaderConfig, CurrentLines(old(configs), CmLoaderConfig), db, false)]
             [CmLoaderCustomConfig :=
                configLines(CmLoaderCustomConfig, CurrentLines(old(configs), CmLoaderCustomConfig), db, false)]
        && history == old(history) + PrerequisiteEvents(db)
             + [DataCopied(db), ConfigWritten(CmLoaderConfig), ConfigWritten(CmLoaderCustomConfig)]
        && message == db.buttonLabel + LoadedSuffix
    {
      var db := FindByName(databases, buttonName).value;
      SetupDatabase(db);
      message := db.buttonLabel + LoadedSuffix;
    }

    /** SaveDatabaseDialog_FileOk, offered only when the Data folder exists:
        deletes the catalog detector files, writes the custom database's
        detector file holding the chosen name, and returns what is zipped. */
    method SaveDatabase(databaseName: string) returns (exported: Archive)
      requires Valid() && dataFolderExists && DetectorPath(customDatabase) !in data.dirs
      requires DetectorPaths(databases) !! data.dirs
      modifies this`data
      ensures Valid()
      ensures data == Exported(old(data), databases, customDatabase, databaseName)
      ensures exported == data.files
    {
      ghost var t0 := data;
      DeleteDatabaseDetectorFiles();
      WriteDataFile([databaseName], DetectorPath(customDatabase));
      exported := data.files;
      ExportKeepsValid(t0, databases, customDatabase, databaseName);
    }

    /** The first loop of the relocation: every subfolder of `base` is moved
        to the Data folder. */
    method MoveBaseSubfolders(base: Path)
      requires FileTree.Valid(data) && base in data.dirs && CanRelocate(data, base)
      modifies this`data
      ensures data == MoveSubfolders(old(data), base, ChildDirs(old(data), base))
    {
      ghost var t0 := data;
      var todo := ChildDirs(data, base);
      ghost var done: set<Name> := {};
      MoveSubfoldersNone(t0, base);
      while todo != {}
        invariant done + todo == ChildDirs(t0, base) && done !! todo
        invariant data == MoveSubfolders(t0, base, done)
        decreases todo
      {
        var n := FirstName(todo);
        assert base + [n] in data.dirs && [n] !in data.dirs && [n] !in data.files
          && MoveDirectory(data, base + [n], [n]) == MoveSubfolders(t0, base, done + {n}) by {
          MovePending(t0, base, done, n);
          MoveSubfoldersStep(t0, base, done, n);
        }
        DirectoryMove(base + [n], [n]);
        VisitOne(done, todo, n);
        todo := todo - {n};
        done := done + {n};
      }
    }

    /** The second loop of the relocation: every file of `base` is copied
        to the Data folder, overwriting. */
    method CopyBaseFiles(base: Path)
      requires base != []
      requires forall n :: n in ChildFiles(data, base) ==> [n] !in data.dirs
      modifies this`data
      ensures data == CopyFilesUp(old(data), base, ChildFiles(old(data), base))
    {
      ghost var t0 := data;
      var todo := ChildFiles(data, base);
      ghost var done: set<Name> := {};
      CopyFilesUpNone(t0, base);
      while todo != {}
        invariant done + todo == ChildFiles(t0, base) && done !! todo
        invariant data == CopyFilesUp(t0, base, done)
        decreases todo
      {
        var n := FirstName(todo);
        CopyFilesUpStep(t0, base, done, n);
        FileCopy(base + [n], [n]);
        VisitOne(done, todo, n);
        todo := todo - {n};
        done := done + {n};
      }
    }

    /** The third loop of the relocation: every subfolder of the Data folder
        but "Fonts" is deleted. */
    method DeleteLeftoverFolders()
      requires FileTree.Valid(data)
      modifies this`data
      ensures data == PruneRootFolders(old(data), {ProtectedFolder})
    {
      ghost var t0 := data;
      var todo := ChildDirs(data, []);
      PruneRootFoldersNone(t0, {ProtectedFolder} + todo);
      while todo != {}
        invariant todo <= ChildDirs(t0, [])
        invariant data == PruneRootFolders(t0, {ProtectedFolder} + todo)
        decreases todo
      {
        var n := FirstName(todo);
        VisitKept(ProtectedFolder, todo, n);
        if n != ProtectedFolder {
          RootFolder(t0, n);
          assert [n][0] == n;
          PruneRootFoldersStep(t0, {ProtectedFolder} + todo, n);
          DirectoryDelete([n]);
        }
        todo := todo - {n};
      }
      assert {ProtectedFolder} + todo == {ProtectedFolder};
    }

    /** The relocation block of the import, for the folder `base` the
        search found. */
    method RelocateToDataFolder(base: Path)
      requires FileTree.Valid(data) && base in data.dirs && CanRelocate(data, base)
      modifies this`data
      ensures FileTree.Valid(data)
      ensures data == Relocated(old(data), base)
    {
      RelocatedKeepsValid(data, base);
      MoveBaseSubfolders(base);
      CopyBaseFiles(base);
      DeleteLeftoverFolders();
    }

    /** The search and relocation block of the import: when the folder
        holding the player-setup file is nested, its contents are moved up
        to the Data folder. */
    method NormaliseDataFolder()
      requires FileTree.Valid(data)
      requires var base := FindFolderContainingData(data, playerSetup, []);
        base != [] ==> CanRelocate(data, base)
      modifies this`data
      ensures FileTree.Valid(data)
      ensures data == Normalised(old(data), playerSetup)
    {
      var base := FindFolderContainingData(data, playerSetup, []);
      if base != [] {
        RelocateToDataFolder(base);
      }
    }

    /** The first half of LoadDatabaseDialog_FileOk: the chosen archive
        becomes the custom database's archive, which SetupDatabase then
        installs. */
    method InstallCustomArchive(archive: Archive)
      requires Valid()
      requires CanSwitch(dataFolderExists, data, customDatabase.(dataFile := archive), databases)
      modifies this`customDatabase, this`data, this`dataZip, this`dataFolderExists, this`configs, this`history
      ensures customDatabase == old(customDatabase).(dataFile := archive)
      ensures Valid()
      ensures data == Switched(old(dataFolderExists), old(data), customDatabase, databases)
      ensures dataFolderExists && dataZip == None
      ensures configs == old(configs)
        [CmLoaderConfig :=
           configLines(CmLoaderConfig, CurrentLines(old(configs), CmLoaderConfig), customDatabase, false)]
        [CmLoaderCustomConfig :=
           configLines(CmLoaderCustomConfig, CurrentLines(old(configs), CmLoaderCustomConfig), customDatabase, false)]
      ensures history == old(history) + PrerequisiteEvents(customDatabase)
        + [DataCopied(customDatabase), ConfigWritten(CmLoaderConfig), ConfigWritten(CmLoaderCustomConfig)]
    {
      var db := customDatabase.(dataFile := archive);
      assert CanSwitch(dataFolderExists, data, db, databases);
      customDatabase := db;
      SetupDatabase(db);
    }

    /** LoadDatabaseDialog_FileOk: installs `archive` as the custom
        database, moves the folder holding the player-setup file up to the
        Data folder when it is nested, and reports whether the Data folder
        now holds the player-setup file. */
    method LoadCustomDatabase(archive: Archive) returns (message: string)
      requires Valid()
      requires CanSwitch(dataFolderExists, data, customDatabase.(dataFile := archive), databases)
      requires var s := Switched(dataFolderExists, data, customDatabase.(dataFile := archive), databases);
        var base := FindFolderContainingData(s, playerSetup, []);
        base != [] ==> CanRelocate(s, base)
      modifies this`customDatabase, this`data, this`dataZip, this`dataFolderExists, this`configs, this`history
      ensures customDatabase == old(customDatabase).(dataFile := archive)
      ensures Valid()
      ensures data == Normalised(Switched(old(dataFolderExists), old(data), customDatabase, databases), playerSetup)
      ensures dataFolderExists && dataZip == None
      ensures configs == old(configs)
        [CmLoaderConfig :=
           configLines(CmLoaderConfig, CurrentLines(old(configs), CmLoaderConfig), customDatabase, false)]
        [CmLoaderCustomConfig :=
           configLines(CmLoaderCustomConfig, CurrentLines(old(configs), CmLoaderCustomConfig), customDatabase, false)]
      ensures history == old(history) + PrerequisiteEvents(customDatabase)
        + [DataCopied(customDatabase), ConfigWritten(CmLoaderConfig), ConfigWritten(CmLoaderCustomConfig)]
      ensures message == if [playerSetup] in data.files then CustomLoaded else NoValidDatabase
    {
      InstallCustomArchive(archive);
      NormaliseDataFolder();
      message := if [playerSetup] in data.files then CustomLoaded else NoValidDatabase;
    }
  }
}
