/**
 An in-memory model of the game's Data folder and of the file-system calls
 that VersionMenu makes on it.

 Paths are relative to the Data folder: `[]` is the Data folder itself,
 `["Fonts", "a.ttf"]` is `Data\Fonts\a.ttf`. A tree is the set of folders
 below the Data folder together with the files and their contents.
 */
module FileTree {
  import opened NameOrder

  type Path = seq<Name>

  /** What a file holds: raw bytes (archive entries) or lines of text
      (what WriteToFile writes). */
  datatype FileData = Binary(bytes: seq<bv8>) | Text(lines: seq<string>)

  /** A zip archive, seen as the files it holds, keyed by relative path. */
  type Archive = map<Path, FileData>

  datatype Tree = Tree(files: map<Path, FileData>, dirs: set<Path>)

  /** An existing Data folder with nothing in it. */
  const Empty: Tree := Tree(map[], {})

  ghost predicate AncestorsAreDirs(p: Path, dirs: set<Path>)
  {
    forall k :: 0 < k < |p| ==> p[..k] in dirs
  }

  /** A well-formed tree: the Data folder itself is neither a file nor a
      subfolder, nothing is both a file and a folder, and every entry's
      enclosing folders exist. */
  ghost predicate Valid(t: Tree)
  {
    && [] !in t.files
    && [] !in t.dirs
    && (forall p :: p in t.files ==> p !in t.dirs && AncestorsAreDirs(p, t.dirs))
    && (forall p :: p in t.dirs ==> AncestorsAreDirs(p, t.dirs))
  }

  /** The names directly inside `folder` among `paths`. */
  function Children(paths: set<Path>, folder: Path): (r: set<Name>)
    ensures forall n {:trigger n in r} :: n in r <==> folder + [n] in paths
  {
    ChildrenMembers(paths, folder);
    set q | q in paths && |q| == |folder| + 1 && q[..|folder|] == folder :: q[|folder|]
  }

  lemma ChildrenMembers(paths: set<Path>, folder: Path)
    ensures forall n ::
      n in (set q | q in paths && |q| == |folder| + 1 && q[..|folder|] == folder :: q[|folder|])
      <==> folder + [n] in paths
  {
    forall q | q in paths && |q| == |folder| + 1 && q[..|folder|] == folder
      ensures q == folder + [q[|folder|]]
    {
    }
  }

  /** Directory.GetDirectories(folder), as names. */
  function ChildDirs(t: Tree, folder: Path): set<Name>
  {
    Children(t.dirs, folder)
  }

  /** Directory.GetFiles(folder), as names. */
  function ChildFiles(t: Tree, folder: Path): set<Name>
  {
    Children(t.files.Keys, folder)
  }

  /** A subfolder of the Data folder is a folder, so not a file. */
  lemma RootFolder(t: Tree, n: Name)
    requires Valid(t) && n in ChildDirs(t, [])
    ensures [n] in t.dirs && [n] !in t.files
  {
    assert [] + [n] == [n];
  }

  /** File.Delete: removes the file if there is one. */
  function DeleteFile(t: Tree, p: Path): Tree
  {
    Tree(t.files - {p}, t.dirs)
  }

  /** Directory.Delete(d, true): removes `d` and everything below it. */
  function DeleteDirectory(t: Tree, d: Path): Tree
  {
    Tree(map q | q in t.files && !(d <= q) :: t.files[q], set q | q in t.dirs && !(d <= q))
  }

  /** File.Copy(…, true) and WriteToFile: creates or replaces one file. */
  function WriteFile(t: Tree, p: Path, c: FileData): Tree
  {
    Tree(t.files[p := c], t.dirs)
  }

  /** The folders an archive's entries lie in. */
  function ArchiveDirs(a: Archive): set<Path>
  {
    set p, k | p in a && 0 < k < |p| :: p[..k]
  }

  /** FastZip.ExtractZip: writes every entry, replacing a file at the same
      path, and creates the folders on the way. */
  function Extract(t: Tree, a: Archive): Tree
  {
    Tree(t.files + a, t.dirs + ArchiveDirs(a))
  }

  /** Extraction succeeds: no entry lands on a folder or on the Data folder
      itself, and no entry's enclosing folder is a file. */
  ghost predicate Fits(t: Tree, a: Archive)
  {
    && (forall p {:trigger p in a} :: p in a ==> p != [] && p !in t.dirs)
    && (forall p, k {:trigger p[..k]} :: p in a && 0 < k < |p| ==> p[..k] !in t.files && p[..k] !in a)
  }

  /** The paths of `paths` at or below `src`, re-rooted at `dst`. */
  function Rehomed(paths: set<Path>, src: Path, dst: Path): (r: set<Path>)
    ensures forall q {:trigger q in r} :: q in r <==> dst <= q && src + q[|dst|..] in paths
  {
    RehomedMembers(paths, src, dst);
    set q | q in paths && src <= q :: dst + q[|src|..]
  }

  lemma RehomedMembers(paths: set<Path>, src: Path, dst: Path)
    ensures forall q ::
      q in (set q | q in paths && src <= q :: dst + q[|src|..])
      <==> dst <= q && src + q[|dst|..] in paths
  {
    forall q | dst <= q && src + q[|dst|..] in paths
      ensures q in (set q | q in paths && src <= q :: dst + q[|src|..])
    {
      var q0 := src + q[|dst|..];
      assert q0[|src|..] == q[|dst|..];
      assert dst + q0[|src|..] == q;
    }
    forall q0 | q0 in paths && src <= q0
      ensures src + (dst + q0[|src|..])[|dst|..] == q0
    {
      assert (dst + q0[|src|..])[|dst|..] == q0[|src|..];
      assert q0 == q0[..|src|] + q0[|src|..];
    }
  }

  /** Directory.Move(src, dst): everything at or below `src` now lies at
      or below `dst`. */
  function MoveDirectory(t: Tree, src: Path, dst: Path): (r: Tree)
    ensures forall q {:trigger q in r.files} :: q in r.files <==>
      (q in t.files && !(src <= q)) || (dst <= q && src + q[|dst|..] in t.files)
    ensures forall q {:trigger r.files[q]} :: q in r.files ==>
      r.files[q] == if q in t.files && !(src <= q) then t.files[q] else t.files[src + q[|dst|..]]
    ensures forall q {:trigger q in r.dirs} :: q in r.dirs <==>
      (q in t.dirs && !(src <= q)) || (dst <= q && src + q[|dst|..] in t.dirs)
  {
    var kept := set q | q in t.files && !(src <= q);
    var moved := Rehomed(t.files.Keys, src, dst);
    Tree(map q | q in kept + moved :: if q in kept then t.files[q] else t.files[src + q[|dst|..]],
         (set q | q in t.dirs && !(src <= q)) + Rehomed(t.dirs, src, dst))
  }

  lemma DeleteFileKeepsValid(t: Tree, p: Path)
    requires Valid(t)
    ensures Valid(DeleteFile(t, p))
  {
  }

  lemma DeleteDirectoryKeepsValid(t: Tree, d: Path)
    requires Valid(t)
    ensures Valid(DeleteDirectory(t, d))
  {
  }

  lemma WriteFileKeepsValid(t: Tree, p: Path, c: FileData)
    requires Valid(t)
    requires p != [] && p !in t.dirs && AncestorsAreDirs(p, t.dirs)
    ensures Valid(WriteFile(t, p, c))
  {
  }

  lemma ExtractKeepsValid(t: Tree, a: Archive)
    requires Valid(t) && Fits(t, a)
    ensures Valid(Extract(t, a))
  {
    var r := Extract(t, a);
    forall p | p in ArchiveDirs(a)
      ensures p != [] && p !in r.files && AncestorsAreDirs(p, r.dirs)
    {
      var q, k :| q in a && 0 < k < |q| && p == q[..k];
      forall j | 0 < j < |p|
        ensures p[..j] in r.dirs
      {
        assert p[..j] == q[..j];
      }
    }
  }
}
