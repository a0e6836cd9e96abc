# Data switching of the CM0102 Starter Kit, modelled in Dafny

The Starter Kit's "Data Updates" menu (`VersionMenu.cs`) swaps the
contents of the game's `Data` folder. This project models that logic.

- **Catalog switch** (`SwitchDatabase_Click`, `SetupDatabase`). The menu
  installs the database's prerequisite (one level only), then the database
  itself, then regenerates the two loader configuration files.
- **Install** (`CopyDataToGame`). The menu writes the database's zip next to
  the Data folder. It then prepares the Data folder:
  - creates the folder if it is missing;
  - wipes it if the database says so;
  - otherwise deletes only the per-database detector files `<name>.txt`.

  It then extracts the zip into the folder and deletes the zip.
- **Custom import** (`LoadDatabaseDialog_FileOk`). The menu installs the
  chosen archive as the custom database. It then searches for the folder
  that holds the player-setup file, always descending into the first
  subfolder (`FindFolderContainingData`). When that folder is nested, the
  menu:
  - moves its subfolders up;
  - copies its files up;
  - deletes every subfolder of the Data folder except `Fonts`.

  Finally it reports whether the Data folder now holds the player-setup
  file.
- **Custom export** (`SaveDatabaseDialog_FileOk`). The menu clears the
  catalog detector files, writes the custom database's detector file
  holding the chosen name, and zips the Data folder.

How the model is built:

- The Data folder is a value `Tree`: a map from paths to file contents plus
  a set of folders. Paths are relative to the Data folder.
- A zip archive is the map of the files it holds.
- Each file-system call is a function on trees (`FileTree`).
- Each loop of the source is a method of the class `Menu.VersionMenu`. Its
  fields are the Data folder, `Data.zip`, the configuration files, the custom
  database and a ghost history of installs and configuration writes. Each
  loop is proved against a function of the tree as it was before the loop
  (`Install`, `Relocation`). The properties that matter are then lemmas
  about those functions.

`Directory.GetDirectories` and `Directory.GetFiles` list entries in an
order the file system chooses. The model fixes one such order: ordinal
lexicographic order on names (`NameOrder`). "The first subfolder" means
the least name in that order.

The code and the intended design disagree in four places. The model
follows the code in each:

- **Detector files.** The intended design has a switch write the installed
  database's detector file. The code never writes one on a catalog install;
  it only deletes them. After a switch, a detector file is present exactly
  when the installed archive carries it (`Install.Switched`).
- **Prerequisites.** Only one level of prerequisite is installed. A
  prerequisite's own prerequisite is ignored.
- **Which folder the search finds.** The search returns the shallowest
  folder on the first-subfolder chain that holds the player-setup file, not
  the deepest (`Relocation.FindFolderContainingDataFromRoot`).
- **Leftover folders.** Subfolders moved up to the Data folder are then
  deleted unless they are named `Fonts`.

## Model

| member | source | states |
|---|---|---|
| NameOrder.FirstName | VersionMenu.cs:95-96 | The first name listed is a member of the folder's subfolder names and comes before every other one in the enumeration order. |
| FileTree.Children | VersionMenu.cs:63-66 | A name is listed among a folder's entries exactly when the folder has an entry of that name. |
| FileTree.MoveDirectory | VersionMenu.cs:162 | After Directory.Move, every file and folder that was at or below `src` is at the same place below `dst`, with the same contents. Everything not below `src` stays where it was. |
| FileTree.DeleteFileKeepsValid | VersionMenu.cs:53 | Deleting a file keeps the Data folder well formed. |
| FileTree.DeleteDirectoryKeepsValid | VersionMenu.cs:64 | Deleting a folder recursively keeps the Data folder well formed. |
| FileTree.WriteFileKeepsValid | VersionMenu.cs:131-132 | Writing a file whose enclosing folders exist and which is no folder keeps the Data folder well formed. |
| FileTree.ExtractKeepsValid | VersionMenu.cs:76 | Extracting an archive whose entries clash with no folder or file keeps the Data folder well formed. |
| Catalog.FindByName | VersionMenu.cs:106 | The lookup fails exactly when no database has the button's name. Otherwise it returns the first database in the catalog with that name. |
| Install.WithoutDetectors | VersionMenu.cs:51-55 | Exactly the catalog's detector files are gone. Every other file keeps its contents, and every folder stays. |
| Install.WithoutDetectorsStep | VersionMenu.cs:52-53 | One turn of the loop deletes the next database's detector file and nothing else. |
| Install.WithoutDetectorsNone | VersionMenu.cs:51-52 | Before the loop has visited any database, the Data folder is unchanged. |
| Install.Installed | VersionMenu.cs:57-78 | A wiping install, or one into a missing Data folder, leaves exactly the archive's files and exactly the folders its entries lie in. An overlay keeps every earlier file except the detector files, with the archive's contents winning on a shared path, and keeps every earlier folder alongside the archive's. A detector file is present afterwards exactly when the archive carries it. |
| Install.InstallKeepsValid | VersionMenu.cs:57-78 | An install whose archive fits keeps the Data folder well formed. |
| Install.Switched | VersionMenu.cs:80-89 | After a switch, a detector file is present exactly when the target's archive carries it. A wiping target leaves exactly its own archive's files and folders, whatever the prerequisite did, so no earlier subfolder remains. |
| Install.SwitchKeepsValid | VersionMenu.cs:80-89 | A switch whose two installs fit keeps the Data folder well formed. |
| Install.SwitchLayersPrerequisite | VersionMenu.cs:81-85 | With an overlaying target, a file is present when the target's archive has it. Failing that, it is present when it is no detector file and either the prerequisite's archive has it or the earlier folder had it and the prerequisite did not wipe. The contents come from the target's archive first, then the prerequisite's, then the earlier folder. |
| Export.Exported | VersionMenu.cs:127-132 | The custom database's detector file holds the single chosen name. No other catalog detector file remains. Every other file and folder is unchanged. |
| Export.ExportKeepsValid | VersionMenu.cs:127-132 | Writing the detector file keeps the Data folder well formed. |
| Relocation.FirstSubfolder | VersionMenu.cs:95-96 | The first subfolder is a folder directly inside the given one, and its name comes first among its siblings. |
| Relocation.DescendantsShrink | VersionMenu.cs:95-96 | The first subfolder has strictly fewer folders below it than its parent, so the search terminates. |
| Relocation.FindFolderContainingData | VersionMenu.cs:91-99 | The result is either the Data folder, or a folder at or below the start that directly holds the player-setup file. |
| Relocation.FindFollowsFirstChain | VersionMenu.cs:91-99 | Starting on the first-subfolder chain, the result stays on that chain. No chain folder between the start and the result, the Data folder excepted, holds the player-setup file. |
| Relocation.FindFolderContainingDataFromRoot | VersionMenu.cs:158 | From the Data folder, the result is the Data folder exactly when no folder on the first-subfolder chain holds the player-setup file. Otherwise the result is the first chain folder that does. |
| Relocation.LiftedOut | VersionMenu.cs:162 | The lifted paths are exactly those whose first name is one of the moved subfolders and that exist below the base folder. |
| Relocation.MoveSubfolders | VersionMenu.cs:160-163 | After the moves, everything inside the moved subfolders of the base folder sits at the same place below the Data folder, with the same contents. Everything else is unchanged. |
| Relocation.CopyFilesUp | VersionMenu.cs:164-166 | After the copies, every copied file of the base folder is also at the root with its contents, overwriting. Folders and all other files are unchanged. |
| Relocation.PruneRootFolders | VersionMenu.cs:168-172 | Root files stay. Folders and files survive exactly when they lie inside a kept subfolder. Contents are unchanged. |
| RelocationLemmas.MoveSubfoldersStep | VersionMenu.cs:160-163 | Moving one more subfolder up with Directory.Move extends the moves done so far. |
| RelocationLemmas.MoveSubfoldersKeepsValid | VersionMenu.cs:160-163 | When no subfolder name clashes with a root entry, the moves keep the Data folder well formed. |
| RelocationLemmas.CopyFilesUpStep | VersionMenu.cs:164-166 | Copying one more file up with File.Copy extends the copies done so far. |
| RelocationLemmas.CopyFilesUpKeepsValid | VersionMenu.cs:164-166 | When no copied name is a root folder, the copies keep the Data folder well formed. |
| RelocationLemmas.PruneRootFoldersNone | VersionMenu.cs:168 | Keeping every root subfolder changes nothing. |
| RelocationLemmas.PruneRootFoldersStep | VersionMenu.cs:168-172 | Deleting one more root subfolder with Directory.Delete extends the deletions done so far. |
| RelocationLemmas.PruneRootFoldersKeepsValid | VersionMenu.cs:168-172 | Deleting root subfolders keeps the Data folder well formed. |
| RelocationLemmas.MovePending | VersionMenu.cs:160-162 | Before a subfolder is moved, it is still inside the base folder and its name is free at the root, so Directory.Move cannot collide. |
| RelocationLemmas.MoveSubfoldersKeepsBaseFiles | VersionMenu.cs:160-166 | The moves leave the base folder's own files and their contents alone. |
| RelocationLemmas.MoveSubfoldersKeepsRootFiles | VersionMenu.cs:160-163 | The moves leave the root's own files and their contents alone. |
| RelocationLemmas.RelocatedKeepsValid | VersionMenu.cs:158-173 | Each of the three relocation loops keeps the Data folder well formed. |
| RelocationLemmas.RelocatedFacts | VersionMenu.cs:158-173 | After relocation, every file that was directly in the base folder is at the root with its contents. Every other root file is unchanged, and no other file appears at the root. The only folder left is `Fonts`, and every file is at the root or under `Fonts`. |
| Menu.VersionMenu.constructor | VersionMenu.cs:18-22 | The shared helper state (catalog, player-setup file name, configuration generator, custom database, Data folder and configuration files) is taken as parameters. The absence of `Data.zip` and the empty history are starting assumptions, not something the source's constructor does. |
| Menu.VersionMenu.WriteDataZip | VersionMenu.cs:58-59 | `Data.zip` holds the database's archive. |
| Menu.VersionMenu.DeleteDataZip | VersionMenu.cs:77 | `Data.zip` is gone. |
| Menu.VersionMenu.CreateDataFolder | VersionMenu.cs:74 | The Data folder exists. |
| Menu.VersionMenu.ExtractDataZip | VersionMenu.cs:76 | The Data folder is overlaid with the archive in `Data.zip`. |
| Menu.VersionMenu.FileDelete | VersionMenu.cs:53 | Exactly that file is gone. The path must not be a folder, on which File.Delete throws. |
| Menu.VersionMenu.DirectoryDelete | VersionMenu.cs:64 | That folder and everything below it are gone. |
| Menu.VersionMenu.DirectoryMove | VersionMenu.cs:162 | That folder is moved to an unused name. |
| Menu.VersionMenu.FileCopy | VersionMenu.cs:165 | The destination holds the source's contents, overwriting. |
| Menu.VersionMenu.WriteDataFile | VersionMenu.cs:131-132 | The file holds exactly the given lines. |
| Menu.VersionMenu.WriteConfig | VersionMenu.cs:44 | The configuration file holds exactly the given lines, and the write is recorded in the history. |
| Menu.VersionMenu.UpdateConfigFiles | VersionMenu.cs:41-49 | Both configuration files are regenerated for the database with the flag `false`, each from its own previous lines, the default one first. |
| Menu.VersionMenu.DeleteDatabaseDetectorFiles | VersionMenu.cs:51-55 | The Data folder is the earlier one without the catalog's detector files, provided no detector path is a folder. |
| Menu.VersionMenu.DeleteRootFolders | VersionMenu.cs:63-65 | Every subfolder and everything below it is gone, and root files stay. |
| Menu.VersionMenu.DeleteRootFiles | VersionMenu.cs:66-68 | With no subfolders left, deleting every listed file empties the Data folder. |
| Menu.VersionMenu.CopyDataToGame | VersionMenu.cs:57-78 | The Data folder is as `Install.Installed` describes. It exists and stays well formed, `Data.zip` is gone, and the install is appended to the history. |
| Menu.VersionMenu.SetupDatabase | VersionMenu.cs:80-89 | The Data folder is as `Install.Switched` describes. The history grows by the prerequisite's install (if any), then the target's install, then the two configuration writes, in that order. |
| Menu.VersionMenu.SwitchDatabase | VersionMenu.cs:101-112 | The database named after the button is switched to, and the message is its label followed by " database successfully loaded!". |
| Menu.VersionMenu.SaveDatabase | VersionMenu.cs:114-140 | The Data folder is as `Export.Exported` describes and stays well formed. What is zipped is exactly its files. |
| Menu.VersionMenu.MoveBaseSubfolders | VersionMenu.cs:160-163 | The loop's result is `Relocation.MoveSubfolders` over all subfolders of the base folder. |
| Menu.VersionMenu.CopyBaseFiles | VersionMenu.cs:164-166 | The loop's result is `Relocation.CopyFilesUp` over all files of the base folder. |
| Menu.VersionMenu.DeleteLeftoverFolders | VersionMenu.cs:168-172 | The loop's result is `Relocation.PruneRootFolders` keeping only `Fonts`. |
| Menu.VersionMenu.RelocateToDataFolder | VersionMenu.cs:159-173 | The three loops together give `Relocation.Relocated`, and the Data folder stays well formed. |
| Menu.VersionMenu.NormaliseDataFolder | VersionMenu.cs:156-173 | The Data folder is relocated when the search finds a nested folder, and is unchanged otherwise. It stays well formed. |
| Menu.VersionMenu.InstallCustomArchive | VersionMenu.cs:152-154 | The custom database now carries the chosen archive and is switched to, as SetupDatabase describes. |
| Menu.VersionMenu.LoadCustomDatabase | VersionMenu.cs:147-181 | The Data folder is the normalised result of switching to the custom database. The message is "No valid database found!" exactly when the Data folder lacks the player-setup file, and "Custom database successfully loaded!" otherwise. |

## Left out

- Windows Forms plumbing is not modelled: the constructor's layout, `GetButtons`, progress windows, dialogs, `DisplayMessage` and `Application.Exit`. The dialog's file name reaches `SaveDatabase` already stripped of its extension, because `Path.GetFileNameWithoutExtension` is a library call.
- `SaveDatabase_Click` only opens the save dialog when the Data folder exists. That guard is the precondition `dataFolderExists` of `SaveDatabase`. The reminder message shown otherwise is not modelled.
- The zip format is not modelled. SharpZipLib's `ExtractZip` and `CreateZip` act on the map of files an archive holds. `CreateZip` is the snapshot of the Data folder's files that `SaveDatabase` returns.
- Configuration file contents are not modelled. `GetDefaultConfigFileLines` and `WriteToFile` live in a helper that is not part of this model. The generator is a function the menu is given, so only its arguments and the order of the writes are modelled.
- I/O failures are preconditions rather than error results. These cover an archive entry landing on a folder, `Directory.Move` onto an existing name, `File.Copy` onto a folder, `File.Delete` of a detector path that is a folder (during an overlay install and before an export), the custom detector file's path being a folder, and the missing-name lookup behind the button (a null dereference in the source). Partial failure and rollback are therefore not modelled.
- Names are compared exactly, with upper and lower case distinct, although Windows matches file and folder names regardless of case. The model therefore does not capture that an archive entry `data\x` lands in an existing `Data` folder, that `File.Exists` finds a player-setup file whose name differs only in case, that `File.Delete` removes `APRIL.TXT` for a database named `april`, or that `Directory.Move` collides with a name differing only in case. The `Fonts` test of the clean-up loop is case-sensitive in the source too, so that one is faithful.
- The file-system enumeration order is fixed to ordinal name order. Which subfolder is first on a real file system may differ.
- `CustomDatabase` is a shared object that the import mutates in place. The model keeps it as a value field and assigns the updated value, so aliasing is not modelled.
