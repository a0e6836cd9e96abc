/**
 The catalog of game databases, their detector files and the two loader
 configuration files.
 */
module Catalog {
  import opened NameOrder
  import opened FileTree

  datatype Option<T> = None | Some(value: T)

  /** One installable game database: a zip archive and how to install it.
      The prerequisite, when present, is installed just before it. */
  datatype Database = Database(
    name: Name,
    buttonLabel: string,
    dataFile: Archive,
    deleteDataFolder: bool,
    prerequisite: Option<Database>)

  /** `Data\<name>.txt`, the file that tells which database is installed. */
  function DetectorPath(db: Database): Path
  {
    [db.name + ".txt"]
  }

  /** The detector files of every database of the catalog. */
  function DetectorPaths(databases: seq<Database>): set<Path>
  {
    set db | db in databases :: DetectorPath(db)
  }

  /** `Databases.Where(v => v.Name == name).FirstOrDefault()`: the first
      database of the catalog with that name, if any. */
  function FindByName(databases: seq<Database>, name: Name): (r: Option<Database>)
    ensures r.None? <==> forall i :: 0 <= i < |databases| ==> databases[i].name != name
    ensures r.Some? ==> r.value in databases && r.value.name == name
    ensures forall i :: 0 <= i < |databases| && databases[i].name == name
                        && (forall j :: 0 <= j < i ==> databases[j].name != name)
                        ==> r == Some(databases[i])
  {
    if databases == [] then None
    else if databases[0].name == name then Some(databases[0])
    else
      var r := FindByName(databases[1..], name);
      assert forall i :: 0 < i < |databases| ==> databases[i] == databases[1..][i - 1];
      r
  }

  /** The loader configuration files in the game folder. */
  datatype ConfigFile = CmLoaderConfig | CmLoaderCustomConfig

  type Lines = seq<string>

  /** Helper.GetDefaultConfigFileLines, which is not part of this model:
      given a config file, its current lines (if it exists), the database
      being installed and a flag, the lines to write back. */
  type ConfigGenerator = (ConfigFile, Option<Lines>, Database, bool) -> Lines
}
