/**
 The detector-file bookkeeping of saving the Data folder as a custom
 database (VersionMenu.cs:127-132).
 */
module Export {
  import opened FileTree
  import opened Catalog
  import opened Install

  /** The Data folder as it is zipped: every catalog detector file removed,
      then the custom database's detector file written with the one line
      `databaseName`. Nothing else changes. */
  function Exported(t: Tree, databases: seq<Database>, custom: Database, databaseName: string): (r: Tree)
    ensures r.dirs == t.dirs
    ensures DetectorPath(custom) in r.files && r.files[DetectorPath(custom)] == Text([databaseName])
    ensures forall p :: p in DetectorPaths(databases) && p != DetectorPath(custom) ==> p !in r.files
    ensures forall p :: p !in DetectorPaths(databases) && p != DetectorPath(custom) ==>
      (p in r.files <==> p in t.files) && (p in t.files ==> r.files[p] == t.files[p])
  {
    WriteFile(WithoutDetectors(t, databases), DetectorPath(custom), Text([databaseName]))
  }

  lemma ExportKeepsValid(t: Tree, databases: seq<Database>, custom: Database, databaseName: string)
    requires Valid(t) && DetectorPath(custom) !in t.dirs
    ensures Valid(Exported(t, databases, custom, databaseName))
  {
    WriteFileKeepsValid(WithoutDetectors(t, databases), DetectorPath(custom), Text([databaseName]));
  }
}
