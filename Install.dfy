/**
 What installing a database does to the Data folder: CopyDataToGame
 (VersionMenu.cs:57-78), DeleteDatabaseDetectorFiles (VersionMenu.cs:51-55)
 and the two installs of SetupDatabase (VersionMenu.cs:80-89), as functions
 of the folder before the install.
 */
module Install {
  import opened NameOrder
  import opened FileTree
  import opened Catalog

  /** The Data folder after DeleteDatabaseDetectorFiles: every catalog
      database's detector file is gone, nothing else changes. */
  function WithoutDetectors(t: Tree, databases: seq<Database>): (r: Tree)
    ensures r.dirs == t.dirs
    ensures forall p {:trigger p in r.files} :: p in r.files <==> p in t.files && p !in DetectorPaths(databases)
    ensures forall p {:trigger r.files[p]} :: p in r.files ==> r.files[p] == t.files[p]
  {
    Tree(map p | p in t.files && p !in DetectorPaths(databases) :: t.files[p], t.dirs)
  }

  lemma WithoutDetectorsNone(t: Tree)
    ensures WithoutDetectors(t, []) == t
  {
    assert WithoutDetectors(t, []).files == t.files;
  }

  /** One more turn of the loop of DeleteDatabaseDetectorFiles deletes the
      next database's detector file. */
  lemma WithoutDetectorsStep(t: Tree, databases: seq<Database>, i: nat)
    requires i < |databases|
    ensures DeleteFile(WithoutDetectors(t, databases[..i]), DetectorPath(databases[i]))
            == WithoutDetectors(t, databases[..i + 1])
  {
  }

  /** The Data folder just before CopyDataToGame extracts the archive: newly
      created, emptied because the database asks for it, or stripped of the
      detector files. */
  function Prepared(folderExists: bool, t: Tree, db: Database, databases: seq<Database>): Tree
  {
    if !folderExists then Empty
    else if db.deleteDataFolder then Empty
    else WithoutDetectors(t, databases)
  }

  /** Neither File.Delete of a detector file (which throws on a folder) nor
      the extraction onto the prepared folder fails. */
  ghost predicate CanInstall(folderExists: bool, t: Tree, db: Database, databases: seq<Database>)
  {
    && (folderExists && !db.deleteDataFolder ==> DetectorPaths(databases) !! t.dirs)
    && Fits(Prepared(folderExists, t, db, databases), db.dataFile)
  }

  /** The Data folder after CopyDataToGame(db). A wiping install (or one
      into a folder that did not exist) leaves exactly the archive's files;
      an overlay keeps every earlier file except the detector files, and the
      archive wins where both have a file. Either way a detector file is
      there afterwards exactly when the archive carries it. */
  function Installed(folderExists: bool, t: Tree, db: Database, databases: seq<Database>): (r: Tree)
    ensures !folderExists || db.deleteDataFolder ==> r.files == db.dataFile && r.dirs == ArchiveDirs(db.dataFile)
    ensures folderExists && !db.deleteDataFolder ==> r.dirs == t.dirs + ArchiveDirs(db.dataFile)
    ensures folderExists && !db.deleteDataFolder ==>
      forall p {:trigger p in r.files} :: p in r.files <==> p in db.dataFile || (p in t.files && p !in DetectorPaths(databases))
    ensures forall p {:trigger r.files[p]} :: p in r.files ==>
      r.files[p] == if p in db.dataFile then db.dataFile[p] else t.files[p]
    ensures forall p {:trigger p in r.files} :: p in DetectorPaths(databases) ==> (p in r.files <==> p in db.dataFile)
  {
    Extract(Prepared(folderExists, t, db, databases), db.dataFile)
  }

  lemma InstallKeepsValid(folderExists: bool, t: Tree, db: Database, databases: seq<Database>)
    requires Valid(t) && CanInstall(folderExists, t, db, databases)
    ensures Valid(Installed(folderExists, t, db, databases))
  {
    ExtractKeepsValid(Prepared(folderExists, t, db, databases), db.dataFile);
  }

  /** The Data folder after SetupDatabase(db): the prerequisite, if any, is
      installed with its own wipe flag, then the database itself. The
      prerequisite's own prerequisite is not looked at. */
  function Switched(folderExists: bool, t: Tree, db: Database, databases: seq<Database>): (r: Tree)
    ensures forall p {:trigger p in r.files} :: p in DetectorPaths(databases) ==> (p in r.files <==> p in db.dataFile)
    ensures db.deleteDataFolder ==> r.files == db.dataFile && r.dirs == ArchiveDirs(db.dataFile)
  {
    match db.prerequisite
    case None => Installed(folderExists, t, db, databases)
    case Some(pre) => Installed(true, Installed(folderExists, t, pre, databases), db, databases)
  }

  ghost predicate CanSwitch(folderExists: bool, t: Tree, db: Database, databases: seq<Database>)
  {
    match db.prerequisite
    case None => CanInstall(folderExists, t, db, databases)
    case Some(pre) =>
      CanInstall(folderExists, t, pre, databases)
      && CanInstall(true, Installed(folderExists, t, pre, databases), db, databases)
  }

  lemma SwitchKeepsValid(folderExists: bool, t: Tree, db: Database, databases: seq<Database>)
    requires Valid(t) && CanSwitch(folderExists, t, db, databases)
    ensures Valid(Switched(folderExists, t, db, databases))
  {
    match db.prerequisite
    case None =>
      InstallKeepsValid(folderExists, t, db, databases);
    case Some(pre) =>
      InstallKeepsValid(folderExists, t, pre, databases);
      InstallKeepsValid(true, Installed(folderExists, t, pre, databases), db, databases);
  }

  /** Switching to a database that overlays a prerequisite: the target's
      files win, then the prerequisite's, then whatever the folder held
      before (only if the prerequisite did not wipe it); no detector file
      survives unless the target's archive carries it. */
  lemma SwitchLayersPrerequisite(folderExists: bool, t: Tree, db: Database, pre: Database,
                                 databases: seq<Database>)
    requires db.prerequisite == Some(pre) && !db.deleteDataFolder
    ensures var r := Switched(folderExists, t, db, databases);
      && (forall p :: p in r.files <==>
            || p in db.dataFile
            || (p !in DetectorPaths(databases)
                && (p in pre.dataFile || (folderExists && !pre.deleteDataFolder && p in t.files))))
      && (forall p :: p in r.files ==>
            r.files[p] == if p in db.dataFile then db.dataFile[p]
                          else if p in pre.dataFile then pre.dataFile[p]
                          else t.files[p])
  {
  }
}
