/**
 Normalising an imported custom database (VersionMenu.cs:91-99 and
 156-173): find the folder that holds the player-setup file by always
 descending into the first subfolder, then lift that folder's contents to
 the Data folder and delete every other subfolder except "Fonts".
 */
module Relocation {
  import opened NameOrder
  import opened FileTree

  /** The one subfolder of the Data folder that relocation never deletes. */
  const ProtectedFolder: Name := "Fonts"

  /** The first entry of Directory.GetDirectories(folder). */
  function FirstSubfolder(t: Tree, folder: Path): (r: Path)
    requires ChildDirs(t, folder) != {}
    ensures r in t.dirs && folder < r && |r| == |folder| + 1
    ensures forall n :: n in ChildDirs(t, folder) ==> NameLessEq(r[|folder|], n)
  {
    folder + [FirstName(ChildDirs(t, folder))]
  }

  /** The folders strictly below `folder`. */
  ghost function Descendants(t: Tree, folder: Path): set<Path>
  {
    set q | q in t.dirs && folder < q
  }

  lemma DescendantsShrink(t: Tree, folder: Path)
    requires ChildDirs(t, folder) != {}
    ensures Descendants(t, FirstSubfolder(t, folder)) < Descendants(t, folder)
  {
    var child := FirstSubfolder(t, folder);
    assert child in Descendants(t, folder);
  }

  /** FindFolderContainingData(folder): the folder, unless it is the Data
      folder, when it holds the player-setup file; otherwise the answer for
      its first subfolder; the Data folder when there is no subfolder. */
  function FindFolderContainingData(t: Tree, playerSetup: Name, folder: Path): (r: Path)
    requires folder == [] || folder in t.dirs
    ensures r == [] || (r in t.dirs && r + [playerSetup] in t.files && folder <= r)
    decreases Descendants(t, folder)
  {
    if folder + [playerSetup] in t.files && folder != [] then
      folder
    else if ChildDirs(t, folder) != {} then
      DescendantsShrink(t, folder);
      FindFolderContainingData(t, playerSetup, FirstSubfolder(t, folder))
    else
      []
  }

  /** `p` is reached from the Data folder by always taking the first
      subfolder. */
  ghost predicate OnFirstChain(t: Tree, p: Path)
    decreases |p|
  {
    p == [] ||
    (var parent := p[..|p| - 1];
     OnFirstChain(t, parent) && ChildDirs(t, parent) != {} && p == FirstSubfolder(t, parent))
  }

  lemma {:induction false} FirstChainPrefix(t: Tree, p: Path, k: nat)
    requires OnFirstChain(t, p) && k <= |p|
    ensures OnFirstChain(t, p[..k])
    decreases |p|
  {
    if k < |p| {
      var parent := p[..|p| - 1];
      FirstChainPrefix(t, parent, k);
      assert parent[..k] == p[..k];
    } else {
      assert p[..k] == p;
    }
  }

  /** A chain folder strictly below a chain folder lies in the latter's
      first subfolder. */
  lemma FirstChainBelow(t: Tree, folder: Path, p: Path)
    requires OnFirstChain(t, p) && folder < p
    ensures ChildDirs(t, folder) != {} && FirstSubfolder(t, folder) <= p
  {
    FirstChainPrefix(t, p, |folder| + 1);
    var q := p[..|folder| + 1];
    assert q[..|q| - 1] == folder;
  }

  /** What holds for the chain below the first subfolder holds for the
      chain below `folder` when `folder` itself does not match. */
  lemma FirstChainStep(t: Tree, playerSetup: Name, folder: Path, r: Path)
    requires OnFirstChain(t, folder) && ChildDirs(t, folder) != {}
    requires folder == [] || folder + [playerSetup] !in t.files
    requires forall p :: OnFirstChain(t, p) && p != [] && FirstSubfolder(t, folder) <= p && (r == [] || p < r)
                         ==> p + [playerSetup] !in t.files
    ensures forall p :: OnFirstChain(t, p) && p != [] && folder <= p && (r == [] || p < r)
                        ==> p + [playerSetup] !in t.files
  {
    forall p | OnFirstChain(t, p) && p != [] && folder <= p && (r == [] || p < r)
      ensures p + [playerSetup] !in t.files
    {
      if folder < p {
        FirstChainBelow(t, folder, p);
      } else {
        assert p == folder;
      }
    }
  }

  /** The search from a folder on the first-subfolder chain stops at the
      first folder below it (the Data folder excepted) that holds the
      player-setup file, and answers the Data folder when there is none. */
  lemma {:induction false} FindFollowsFirstChain(t: Tree, playerSetup: Name, folder: Path)
    requires OnFirstChain(t, folder)
    requires folder == [] || folder in t.dirs
    ensures var r := FindFolderContainingData(t, playerSetup, folder);
      && (r != [] ==> OnFirstChain(t, r))
      && forall p :: OnFirstChain(t, p) && p != [] && folder <= p && (r == [] || p < r)
                     ==> p + [playerSetup] !in t.files
    decreases Descendants(t, folder)
  {
    var r := FindFolderContainingData(t, playerSetup, folder);
    if folder + [playerSetup] in t.files && folder != [] {
    } else if ChildDirs(t, folder) != {} {
      var child := FirstSubfolder(t, folder);
      assert child[..|child| - 1] == folder;
      DescendantsShrink(t, folder);
      FindFollowsFirstChain(t, playerSetup, child);
      assert r == FindFolderContainingData(t, playerSetup, child);
      FirstChainStep(t, playerSetup, folder, r);
    } else {
      forall p | OnFirstChain(t, p) && p != [] && folder <= p
        ensures p + [playerSetup] !in t.files
      {
        if folder < p {
          FirstChainBelow(t, folder, p);
        } else {
          assert p == folder;
        }
      }
    }
  }

  /** FindFolderContainingData(DataFolder) returns the first folder on the
      first-subfolder chain, the Data folder excepted, that holds the
      player-setup file, and returns the Data folder exactly when no folder
      on that chain does. */
  lemma FindFolderContainingDataFromRoot(t: Tree, playerSetup: Name)
    ensures var r := FindFolderContainingData(t, playerSetup, []);
      && (r == [] <==> forall p :: OnFirstChain(t, p) && p != [] ==> p + [playerSetup] !in t.files)
      && (r != [] ==>
            && r in t.dirs
            && OnFirstChain(t, r)
            && r + [playerSetup] in t.files
            && forall p :: OnFirstChain(t, p) && p != [] && p < r ==> p + [playerSetup] !in t.files)
  {
    FindFollowsFirstChain(t, playerSetup, []);
  }

  /** `q` lies in one of the subfolders `names` of `base`. */
  predicate MovedOut(base: Path, names: set<Name>, q: Path)
  {
    |base| < |q| && q[..|base|] == base && q[|base|] in names
  }

  /** The paths below the subfolders `names` of `base`, re-rooted at the
      Data folder. */
  function LiftedOut(paths: set<Path>, base: Path, names: set<Name>): (r: set<Path>)
    ensures forall q {:trigger q in r} :: q in r <==> |q| > 0 && q[0] in names && base + q in paths
  {
    LiftedOutMembers(paths, base, names);
    set q | q in paths && MovedOut(base, names, q) :: q[|base|..]
  }

  lemma LiftedOutMembers(paths: set<Path>, base: Path, names: set<Name>)
    ensures forall q ::
      q in (set q | q in paths && MovedOut(base, names, q) :: q[|base|..])
      <==> |q| > 0 && q[0] in names && base + q in paths
  {
    forall q | |q| > 0 && q[0] in names && base + q in paths
      ensures q in (set q | q in paths && MovedOut(base, names, q) :: q[|base|..])
    {
      assert (base + q)[|base|..] == q;
      assert MovedOut(base, names, base + q);
    }
    forall q0 | q0 in paths && MovedOut(base, names, q0)
      ensures base + q0[|base|..] == q0
    {
      assert q0 == q0[..|base|] + q0[|base|..];
    }
  }

  /** The first loop of the relocation, once it has moved the subfolders
      `names` of `base` up into the Data folder. */
  function MoveSubfolders(t: Tree, base: Path, names: set<Name>): (r: Tree)
    ensures forall q {:trigger q in r.files} :: q in r.files <==>
      (q in t.files && !MovedOut(base, names, q)) || (|q| > 0 && q[0] in names && base + q in t.files)
    ensures forall q {:trigger r.files[q]} :: q in r.files ==>
      r.files[q] == if q in t.files && !MovedOut(base, names, q) then t.files[q] else t.files[base + q]
    ensures forall q {:trigger q in r.dirs} :: q in r.dirs <==>
      (q in t.dirs && !MovedOut(base, names, q)) || (|q| > 0 && q[0] in names && base + q in t.dirs)
  {
    var kept := set q | q in t.files && !MovedOut(base, names, q);
    var moved := LiftedOut(t.files.Keys, base, names);
    Tree(map q | q in kept + moved :: if q in kept then t.files[q] else t.files[base + q],
         (set q | q in t.dirs && !MovedOut(base, names, q)) + LiftedOut(t.dirs, base, names))
  }

  /** The second loop, once it has copied the files `names` of `base` into
      the Data folder, overwriting. */
  function CopyFilesUp(t: Tree, base: Path, names: set<Name>): (r: Tree)
    ensures r.dirs == t.dirs
    ensures forall q {:trigger q in r.files} :: q in r.files <==>
      q in t.files || (|q| == 1 && q[0] in names && base + q in t.files)
    ensures forall q {:trigger r.files[q]} :: q in r.files ==>
      r.files[q] == if |q| == 1 && q[0] in names && base + q in t.files then t.files[base + q] else t.files[q]
  {
    var lifted := set n | n in names && base + [n] in t.files :: [n];
    SingletonPaths(lifted, names, base, t.files.Keys);
    Tree(t.files + map q | q in lifted :: t.files[base + q], t.dirs)
  }

  lemma SingletonPaths(lifted: set<Path>, names: set<Name>, base: Path, paths: set<Path>)
    requires lifted == set n | n in names && base + [n] in paths :: [n]
    ensures forall q {:trigger q in lifted} :: q in lifted <==> |q| == 1 && q[0] in names && base + q in paths
  {
    forall q | |q| == 1 && q[0] in names && base + q in paths
      ensures q in lifted
    {
      assert q == [q[0]];
    }
  }

  /** The third loop, once it has deleted every subfolder of the Data folder
      whose name is not in `keep`. */
  function PruneRootFolders(t: Tree, keep: set<Name>): (r: Tree)
    ensures forall q {:trigger q in r.files} :: q in r.files <==> q in t.files && (|q| == 1 || (|q| > 1 && q[0] in keep))
    ensures forall q {:trigger r.files[q]} :: q in r.files ==> r.files[q] == t.files[q]
    ensures forall q {:trigger q in r.dirs} :: q in r.dirs <==> q in t.dirs && |q| > 0 && q[0] in keep
  {
    Tree(map q | q in t.files && (|q| == 1 || (|q| > 1 && q[0] in keep)) :: t.files[q],
         set q | q in t.dirs && |q| > 0 && q[0] in keep)
  }

  /** The Data folder after the relocation block has run for `base`. */
  function Relocated(t: Tree, base: Path): Tree
  {
    var moved := MoveSubfolders(t, base, ChildDirs(t, base));
    var copied := CopyFilesUp(moved, base, ChildFiles(moved, base));
    PruneRootFolders(copied, {ProtectedFolder})
  }

  /** Neither Directory.Move nor File.Copy fails: no subfolder of `base`
      has the name of an entry of the Data folder, and no file of `base`
      has the name of a subfolder of the Data folder. */
  ghost predicate CanRelocate(t: Tree, base: Path)
  {
    && (forall n {:trigger n in ChildDirs(t, base)} :: n in ChildDirs(t, base) ==> [n] !in t.dirs && [n] !in t.files)
    && (forall n {:trigger n in ChildFiles(t, base)} :: n in ChildFiles(t, base) ==> [n] !in t.dirs)
  }

  /** The Data folder after the normalising step of the import: relocated
      when the search finds a nested folder, unchanged otherwise. */
  function Normalised(t: Tree, playerSetup: Name): Tree
  {
    var base := FindFolderContainingData(t, playerSetup, []);
    if base == [] then t else Relocated(t, base)
  }
}

module RelocationLemmas {
  import opened NameOrder
  import opened FileTree
  import opened Relocation

  /** The Data folder's first path component of `base` is a subfolder of
      the Data folder. */
  lemma RootOfFolder(t: Tree, base: Path)
    requires Valid(t) && base in t.dirs
    ensures [base[0]] in t.dirs
  {
    if |base| > 1 {
      assert base[..1] == [base[0]];
    } else {
      assert base == [base[0]];
    }
  }

  lemma MoveSubfoldersNone(t: Tree, base: Path)
    ensures MoveSubfolders(t, base, {}) == t
  {
    var r := MoveSubfolders(t, base, {});
    assert r.files == t.files;
    assert r.dirs == t.dirs;
  }

  /** Facts about paths that the move of subfolder `n` of `base` relies on. */
  lemma MoveStepPaths(t: Tree, base: Path, names: set<Name>, n: Name, q: Path)
    requires Valid(t) && base in t.dirs && n !in names
    requires forall m :: m in names + {n} ==> [m] !in t.dirs && [m] !in t.files
    ensures base[0] !in names + {n}
    ensures |q| > 0 && q[0] == n ==>
      && [n] <= q
      && (base + [n]) + q[|[n]|..] == base + q
      && q !in t.files && q !in t.dirs
      && !MovedOut(base, names, base + q)
    ensures !(|q| > 0 && q[0] == n) ==> !([n] <= q)
    ensures base + [n] <= q ==> q[0] == base[0] && MovedOut(base, {n}, q)
    ensures MovedOut(base, names + {n}, q) <==> MovedOut(base, names, q) || base + [n] <= q
  {
    RootOfFolder(t, base);
    assert n in names + {n};
    if |q| > 0 && q[0] == n {
      assert q == [n] + q[1..];
      if |q| == 1 {
        assert q == [n];
      } else {
        assert q[..1] == [n];
      }
    }
    if base + [n] <= q {
      assert q[..|base|] == (base + [n])[..|base|];
    }
    if MovedOut(base, {n}, q) {
      assert q[..|base| + 1] == base + [n];
    }
  }

  lemma MoveStepAt(t: Tree, base: Path, names: set<Name>, n: Name, q: Path)
    requires Valid(t) && base in t.dirs && n !in names
    requires forall m :: m in names + {n} ==> [m] !in t.dirs && [m] !in t.files
    ensures var l := MoveDirectory(MoveSubfolders(t, base, names), base + [n], [n]);
            var r := MoveSubfolders(t, base, names + {n});
            && (q in l.files <==> q in r.files)
            && (q in l.files ==> l.files[q] == r.files[q])
            && (q in l.dirs <==> q in r.dirs)
  {
    MoveStepPaths(t, base, names, n, q);
  }

  /** Moving one more subfolder `n` of `base` up (Directory.Move) extends
      what the loop has done so far. */
  lemma MoveSubfoldersStep(t: Tree, base: Path, names: set<Name>, n: Name)
    requires Valid(t) && base in t.dirs && n !in names
    requires forall m :: m in names + {n} ==> [m] !in t.dirs && [m] !in t.files
    ensures MoveDirectory(MoveSubfolders(t, base, names), base + [n], [n])
            == MoveSubfolders(t, base, names + {n})
  {
    var l := MoveDirectory(MoveSubfolders(t, base, names), base + [n], [n]);
    var r := MoveSubfolders(t, base, names + {n});
    assert l.files == r.files by {
      forall q
        ensures q in l.files <==> q in r.files
        ensures q in l.files ==> l.files[q] == r.files[q]
      {
        MoveStepAt(t, base, names, n, q);
      }
    }
    assert l.dirs == r.dirs by {
      forall q
        ensures q in l.dirs <==> q in r.dirs
      {
        MoveStepAt(t, base, names, n, q);
      }
    }
  }

  /** Nothing the Data folder held before lies inside a name that is free
      at its root. */
  lemma FreeRootNames(t: Tree, names: set<Name>, q: Path)
    requires Valid(t)
    requires forall m :: m in names ==> [m] !in t.dirs && [m] !in t.files
    requires q in t.files || q in t.dirs
    ensures q[0] !in names
  {
    if |q| == 1 {
      assert q == [q[0]];
    } else {
      assert q[..1] == [q[0]];
    }
  }

  /** The enclosing folders of a moved path were moved with it. */
  lemma LiftedAncestors(t: Tree, base: Path, names: set<Name>, q: Path)
    requires Valid(t)
    requires |q| > 0 && q[0] in names && (base + q in t.files || base + q in t.dirs)
    ensures AncestorsAreDirs(q, MoveSubfolders(t, base, names).dirs)
  {
    forall k | 0 < k < |q|
      ensures base + q[..k] in t.dirs
    {
      assert (base + q)[..|base| + k] == base + q[..k];
    }
  }

  /** The enclosing folders of a path that stays were not moved. */
  lemma KeptAncestors(t: Tree, base: Path, names: set<Name>, q: Path)
    requires Valid(t)
    requires (q in t.files || q in t.dirs) && !MovedOut(base, names, q)
    ensures AncestorsAreDirs(q, MoveSubfolders(t, base, names).dirs)
  {
    forall k | 0 < k < |q|
      ensures !MovedOut(base, names, q[..k])
    {
      if |base| < k {
        assert q[..k][..|base|] == q[..|base|];
      }
    }
  }

  lemma MoveKeepsValidAt(t: Tree, base: Path, names: set<Name>, q: Path)
    requires Valid(t) && base in t.dirs
    requires forall m :: m in names ==> [m] !in t.dirs && [m] !in t.files
    ensures var r := MoveSubfolders(t, base, names);
      && (q in r.files ==> q != [] && q !in r.dirs && AncestorsAreDirs(q, r.dirs))
      && (q in r.dirs ==> q != [] && AncestorsAreDirs(q, r.dirs))
  {
    if q in t.files || q in t.dirs {
      FreeRootNames(t, names, q);
      if !MovedOut(base, names, q) {
        KeptAncestors(t, base, names, q);
      }
    }
    if |q| > 0 && q[0] in names && (base + q in t.files || base + q in t.dirs) {
      LiftedAncestors(t, base, names, q);
    }
  }

  lemma MoveSubfoldersKeepsValid(t: Tree, base: Path, names: set<Name>)
    requires Valid(t) && base in t.dirs
    requires forall m :: m in names ==> [m] !in t.dirs && [m] !in t.files
    ensures Valid(MoveSubfolders(t, base, names))
  {
    forall q
      ensures var r := MoveSubfolders(t, base, names);
        && (q in r.files ==> q != [] && q !in r.dirs && AncestorsAreDirs(q, r.dirs))
        && (q in r.dirs ==> q != [] && AncestorsAreDirs(q, r.dirs))
    {
      MoveKeepsValidAt(t, base, names, q);
    }
  }

  lemma CopyFilesUpNone(t: Tree, base: Path)
    ensures CopyFilesUp(t, base, {}) == t
  {
    assert CopyFilesUp(t, base, {}).files == t.files;
  }

  lemma CopyStepAt(t: Tree, base: Path, names: set<Name>, n: Name, q: Path)
    requires base != [] && base + [n] in t.files
    ensures var a := CopyFilesUp(t, base, names);
            var l := a.files[[n] := t.files[base + [n]]];
            var r := CopyFilesUp(t, base, names + {n});
            && (q in l <==> q in r.files)
            && (q in l ==> l[q] == r.files[q])
  {
    if |q| == 1 && q[0] == n {
      assert q == [n];
    } else {
      assert q != [n];
    }
  }

  /** Copying one more file `n` of `base` up (File.Copy with overwrite)
      extends what the loop has done so far. */
  lemma CopyFilesUpStep(t: Tree, base: Path, names: set<Name>, n: Name)
    requires base != [] && base + [n] in t.files
    ensures base + [n] in CopyFilesUp(t, base, names).files
    ensures WriteFile(CopyFilesUp(t, base, names), [n], CopyFilesUp(t, base, names).files[base + [n]])
            == CopyFilesUp(t, base, names + {n})
  {
    var a := CopyFilesUp(t, base, names);
    var r := CopyFilesUp(t, base, names + {n});
    var l := a.files[[n] := t.files[base + [n]]];
    assert a.files[base + [n]] == t.files[base + [n]];
    assert l == r.files by {
      forall q
        ensures q in l <==> q in r.files
        ensures q in l ==> l[q] == r.files[q]
      {
        CopyStepAt(t, base, names, n, q);
      }
    }
  }

  lemma CopyFilesUpKeepsValid(t: Tree, base: Path, names: set<Name>)
    requires Valid(t)
    requires forall n :: n in names ==> [n] !in t.dirs
    ensures Valid(CopyFilesUp(t, base, names))
  {
    var r := CopyFilesUp(t, base, names);
    forall q | q in r.files
      ensures q != [] && q !in r.dirs && AncestorsAreDirs(q, r.dirs)
    {
      if q !in t.files {
        assert q == [q[0]];
      }
    }
  }

  /** Keeping every subfolder of the Data folder changes nothing. */
  lemma PruneRootFoldersNone(t: Tree, keep: set<Name>)
    requires Valid(t) && ChildDirs(t, []) <= keep
    ensures PruneRootFolders(t, keep) == t
  {
    var r := PruneRootFolders(t, keep);
    forall q | q in t.files.Keys + t.dirs && |q| > 1
      ensures q[0] in keep
    {
      assert q[..1] == [] + [q[0]];
    }
    forall q | q in t.dirs
      ensures q in r.dirs
    {
      if |q| == 1 {
        assert q == [] + [q[0]];
      }
    }
    assert r.files == t.files;
  }

  /** Deleting one more subfolder `n` of the Data folder (Directory.Delete,
      recursive) extends what the loop has done so far. */
  lemma PruneRootFoldersStep(t: Tree, keep: set<Name>, n: Name)
    requires [n] !in t.files
    ensures DeleteDirectory(PruneRootFolders(t, keep), [n]) == PruneRootFolders(t, keep - {n})
  {
    var l := DeleteDirectory(PruneRootFolders(t, keep), [n]);
    var r := PruneRootFolders(t, keep - {n});
    forall q
      ensures q in l.files <==> q in r.files
      ensures q in l.dirs <==> q in r.dirs
    {
      if |q| > 0 && q[0] == n {
        assert q[..1] == [n];
        if |q| == 1 {
          assert q == [n];
        }
      }
    }
    assert l.files == r.files;
    assert l.dirs == r.dirs;
  }

  lemma PruneRootFoldersKeepsValid(t: Tree, keep: set<Name>)
    requires Valid(t)
    ensures Valid(PruneRootFolders(t, keep))
  {
    var r := PruneRootFolders(t, keep);
    forall q, k | q in r.files.Keys + r.dirs && 0 < k < |q|
      ensures q[..k] in r.dirs
    {
      assert q[..k][0] == q[0];
    }
  }

  /** Before the loop moves subfolder `n`, it is still below `base` and
      nothing in the Data folder has its name. */
  lemma MovePending(t: Tree, base: Path, done: set<Name>, n: Name)
    requires Valid(t) && base in t.dirs && CanRelocate(t, base)
    requires n in ChildDirs(t, base) && n !in done && done <= ChildDirs(t, base)
    ensures var m := MoveSubfolders(t, base, done);
      base + [n] in m.dirs && [n] !in m.dirs && [n] !in m.files
    ensures forall k :: k in done + {n} ==> [k] !in t.dirs && [k] !in t.files
  {
    assert (base + [n])[..|base|] == base && (base + [n])[|base|] == n;
    assert [n][0] == n;
  }

  /** The files directly in `base` are the same after the first loop. */
  lemma MoveSubfoldersKeepsBaseFiles(t: Tree, base: Path)
    requires Valid(t) && base in t.dirs && CanRelocate(t, base)
    ensures var moved := MoveSubfolders(t, base, ChildDirs(t, base));
      && ChildFiles(moved, base) == ChildFiles(t, base)
      && forall n :: n in ChildFiles(t, base) ==> moved.files[base + [n]] == t.files[base + [n]]
  {
    var names := ChildDirs(t, base);
    var moved := MoveSubfolders(t, base, names);
    RootOfFolder(t, base);
    assert base[0] !in names;
    forall n
      ensures base + [n] in moved.files <==> base + [n] in t.files
      ensures base + [n] in t.files ==> moved.files[base + [n]] == t.files[base + [n]]
    {
      assert (base + [n])[..|base|] == base;
      assert (base + [n])[0] == base[0];
    }
  }

  /** The files at the root of the Data folder are the same after the
      first loop. */
  lemma MoveSubfoldersKeepsRootFiles(t: Tree, base: Path)
    requires Valid(t) && base in t.dirs && CanRelocate(t, base)
    ensures var moved := MoveSubfolders(t, base, ChildDirs(t, base));
      forall n :: ([n] in moved.files <==> [n] in t.files)
                  && ([n] in t.files ==> moved.files[[n]] == t.files[[n]])
  {
    var dirNames := ChildDirs(t, base);
    forall n
      ensures [n] in MoveSubfolders(t, base, dirNames).files <==> [n] in t.files
      ensures [n] in t.files ==> MoveSubfolders(t, base, dirNames).files[[n]] == t.files[[n]]
    {
      assert [n][0] == n;
      if [n] in t.files {
        FreeRootNames(t, dirNames, [n]);
      }
    }
  }

  /** Each of the three loops of the relocation keeps the Data folder
      well formed. */
  lemma RelocatedKeepsValid(t: Tree, base: Path)
    requires Valid(t) && base in t.dirs && CanRelocate(t, base)
    ensures var moved := MoveSubfolders(t, base, ChildDirs(t, base));
      && Valid(moved)
      && (forall n :: n in ChildFiles(moved, base) ==> [n] !in moved.dirs)
      && Valid(CopyFilesUp(moved, base, ChildFiles(moved, base)))
      && Valid(Relocated(t, base))
  {
    var dirNames := ChildDirs(t, base);
    var moved := MoveSubfolders(t, base, dirNames);
    MoveSubfoldersKeepsValid(t, base, dirNames);
    MoveSubfoldersKeepsBaseFiles(t, base);
    forall n | n in ChildFiles(moved, base)
      ensures [n] !in moved.dirs
    {
      assert n !in dirNames;
      assert [n][0] == n;
    }
    CopyFilesUpKeepsValid(moved, base, ChildFiles(moved, base));
    PruneRootFoldersKeepsValid(CopyFilesUp(moved, base, ChildFiles(moved, base)), {ProtectedFolder});
  }

  /** What the relocation block leaves in the Data folder: every file
      directly in `base` is at the root with that file's content, every
      other root file is untouched, no file is added or lost at the root,
      and nothing remains in any subfolder but "Fonts". */
  lemma RelocatedFacts(t: Tree, base: Path)
    requires Valid(t) && base in t.dirs && CanRelocate(t, base)
    ensures var r := Relocated(t, base);
      && Valid(r)
      && (forall n :: n in ChildFiles(t, base) ==> [n] in r.files && r.files[[n]] == t.files[base + [n]])
      && (forall n :: [n] in r.files <==> [n] in t.files || n in ChildFiles(t, base))
      && (forall n :: [n] in t.files && n !in ChildFiles(t, base) ==> r.files[[n]] == t.files[[n]])
      && (forall p :: p in r.dirs ==> p[0] == ProtectedFolder)
      && (forall p :: p in r.files ==> |p| == 1 || p[0] == ProtectedFolder)
  {
    RelocatedKeepsValid(t, base);
    MoveSubfoldersKeepsBaseFiles(t, base);
    MoveSubfoldersKeepsRootFiles(t, base);
    var moved := MoveSubfolders(t, base, ChildDirs(t, base));
    var copied := CopyFilesUp(moved, base, ChildFiles(moved, base));
    var r := PruneRootFolders(copied, {ProtectedFolder});
    forall n
      ensures [n] in r.files <==> [n] in copied.files
      ensures [n] in copied.files ==> r.files[[n]] == copied.files[[n]]
      ensures [n] in copied.files <==> [n] in moved.files || n in ChildFiles(t, base)
      ensures [n] in copied.files ==>
        copied.files[[n]] == (if n in ChildFiles(t, base) then t.files[base + [n]] else moved.files[[n]])
    {
      assert [n][0] == n && base + [n] == base + [n];
    }
  }
}
