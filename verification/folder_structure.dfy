/** `build_folder_structure` of Main_Window.py: the folder list the DPAC
    writer is given, built from a directory walk.  The walk is an
    in-memory list of directories, each with the path `os.path.relpath`
    gives it and its files (name and contents) in the order listed. */
module FolderStructure {
  import opened Bytes
  import opened DpacWriter

  /** One directory yielded by `os.walk`. */
  datatype WalkDir = WalkDir(rel: string, files: seq<InFile>)

  /** The `ValueError`s the builder raises. */
  datatype BuildError = FileTooLarge(folder: string, file: string) | TotalTooLarge | TooManyEntries

  const MaxFileSize: nat := 0x100_0000        // 1 << 24
  const MaxTotal: nat := 80 * 1024 * 1024     // 80 MiB
  const MaxEntries: nat := 65535

  /** `.replace("\\", "/")`. */
  function Slashes(s: string): string {
    seq(|s|, i requires 0 <= i < |s| => if s[i] == '\\' then '/' else s[i])
  }

  /** The folder name of a directory: its relative path with forward
      slashes, and the root's own base name for the root itself. */
  function FolderName(root: string, rel: string): string {
    var name := Slashes(rel);
    if name == "." then root else name
  }

  // ---------------------------------------------------------------------
  // What the loops compute

  /** The files of one folder so far, the running `total_size`, and the
      exception raised, if any. */
  datatype Tally = Tally(files: seq<InFile>, total: nat, err: Option<BuildError>)

  /** The file loop of one directory over `files`, from running total
      `total0`.  The size of a file is checked before it is added, the
      total after. */
  function FileScan(folder: string, files: seq<InFile>, total0: nat): Tally
    decreases |files|
  {
    if files == [] then Tally([], total0, None)
    else
      var p := FileScan(folder, files[..|files| - 1], total0);
      var f := files[|files| - 1];
      if p.err.Some? then p
      else if |f.data| >= MaxFileSize then p.(err := Some(FileTooLarge(folder, f.name)))
      else if p.total + |f.data| > MaxTotal then Tally(p.files, p.total + |f.data|, Some(TotalTooLarge))
      else Tally(p.files + [InFile(Pad4(f.name), f.data)], p.total + |f.data|, None)
  }

  /** The folders so far, the running `total_size`, and the exception
      raised, if any. */
  datatype Built = Built(folders: seq<InFolder>, total: nat, err: Option<BuildError>)

  /** The directory loop over `walk`; a directory without files adds no
      folder. */
  function DirScan(root: string, walk: seq<WalkDir>): Built
    decreases |walk|
  {
    if walk == [] then Built([], 0, None)
    else
      var p := DirScan(root, walk[..|walk| - 1]);
      var d := walk[|walk| - 1];
      var name := FolderName(root, d.rel);
      var t := FileScan(name, d.files, p.total);
      if p.err.Some? then p
      else if t.err.Some? then Built(p.folders, t.total, t.err)
      else if t.files == [] then Built(p.folders, t.total, None)
      else Built(p.folders + [InFolder(Pad4(name), t.files)], t.total, None)
  }

  /** `build_folder_structure`: the folder list, or the exception. */
  function BuildResult(root: string, walk: seq<WalkDir>): (seq<InFolder>, Option<BuildError>) {
    var b := DirScan(root, walk);
    if b.err.Some? then ([], b.err)
    else if RecordCount(b.folders) > MaxEntries then ([], Some(TooManyEntries))
    else (b.folders, None)
  }

  /** Once a file loop has raised, the files after do not matter. */
  lemma {:induction false} FileScanSticks(folder: string, files: seq<InFile>, k: nat, total0: nat)
    requires k <= |files| && FileScan(folder, files[..k], total0).err.Some?
    ensures FileScan(folder, files, total0) == FileScan(folder, files[..k], total0)
    decreases |files| - k
  {
    if k < |files| {
      assert files[..k + 1][..k] == files[..k];
      FileScanSticks(folder, files, k + 1, total0);
    } else {
      assert files[..k] == files;
    }
  }

  /** Once the directory loop has raised, the directories after do not
      matter. */
  lemma {:induction false} DirScanSticks(root: string, walk: seq<WalkDir>, k: nat)
    requires k <= |walk| && DirScan(root, walk[..k]).err.Some?
    ensures DirScan(root, walk) == DirScan(root, walk[..k])
    decreases |walk| - k
  {
    if k < |walk| {
      assert walk[..k + 1][..k] == walk[..k];
      DirScanSticks(root, walk, k + 1);
    } else {
      assert walk[..k] == walk;
    }
  }

  // ---------------------------------------------------------------------
  // The builder

  /** `build_folder_structure(root_folder)` on the walk of `root_folder`,
      whose base name is `root`; the debug output is left out. */
  method BuildFolderStructure(root: string, walk: seq<WalkDir>) returns (folders: seq<InFolder>, err: Option<BuildError>)
    ensures (folders, err) == BuildResult(root, walk)
  {
    folders := [];
    var total: nat := 0;
    var i := 0;
    while i < |walk|
      invariant i <= |walk|
      invariant DirScan(root, walk[..i]) == Built(folders, total, None)
    {
      var d := walk[i];
      var name := FolderName(root, d.rel);
      var files, t, e := FolderFiles(name, d.files, total);
      assert walk[..i + 1][..i] == walk[..i];
      if e.Some? {
        DirScanSticks(root, walk, i + 1);
        return [], e;
      }
      if files != [] {
        folders := folders + [InFolder(Pad4(name), files)];
      }
      total := t;
      i := i + 1;
    }
    assert walk[..i] == walk;
    if RecordCount(folders) > MaxEntries {
      return [], Some(TooManyEntries);
    }
    return folders, None;
  }

  /** The file loop of one directory. */
  method FolderFiles(folder: string, input: seq<InFile>, total0: nat) returns (files: seq<InFile>, total: nat, err: Option<BuildError>)
    ensures Tally(files, total, err) == FileScan(folder, input, total0)
  {
    files, total := [], total0;
    var k := 0;
    while k < |input|
      invariant k <= |input|
      invariant FileScan(folder, input[..k], total0) == Tally(files, total, None)
    {
      var f := input[k];
      assert input[..k + 1][..k] == input[..k];
      if |f.data| >= MaxFileSize {
        FileScanSticks(folder, input, k + 1, total0);
        return files, total, Some(FileTooLarge(folder, f.name));
      }
      total := total + |f.data|;
      if total > MaxTotal {
        FileScanSticks(folder, input, k + 1, total0);
        return files, total, Some(TotalTooLarge);
      }
      files := files + [InFile(Pad4(f.name), f.data)];
      k := k + 1;
    }
    assert input[..k] == input;
    return files, total, None;
  }

  // ---------------------------------------------------------------------
  // Reference definitions and the properties of the builder

  /** The total size of a list of files. */
  function SizeSum(files: seq<InFile>): nat
    decreases |files|
  {
    if files == [] then 0 else SizeSum(files[..|files| - 1]) + |files[|files| - 1].data|
  }

  /** Every file is below the per-file limit. */
  predicate AllSmall(files: seq<InFile>) {
    forall j :: 0 <= j < |files| ==> |files[j].data| < MaxFileSize
  }

  lemma AllSmallAppend(a: seq<InFile>, b: seq<InFile>)
    ensures AllSmall(a + b) <==> AllSmall(a) && AllSmall(b)
  {
    if AllSmall(a + b) {
      forall j | 0 <= j < |a|
        ensures |a[j].data| < MaxFileSize
      {
        assert a[j] == (a + b)[j];
      }
      forall j | 0 <= j < |b|
        ensures |b[j].data| < MaxFileSize
      {
        assert b[j] == (a + b)[|a| + j];
      }
    }
  }

  /** The files with their names cut or NUL-padded to four characters. */
  function Padded(files: seq<InFile>): (r: seq<InFile>)
    ensures |r| == |files|
    decreases |files|
  {
    if files == [] then [] else Padded(files[..|files| - 1]) + [InFile(Pad4(files[|files| - 1].name), files[|files| - 1].data)]
  }

  /** A directory's file loop raises nothing exactly when each file is
      below the per-file limit and the running total stays within 80 MiB;
      it then keeps every file, in order, with its name padded, and adds
      all their sizes to the total. */
  lemma {:induction false} FileScanOk(folder: string, files: seq<InFile>, total0: nat)
    requires total0 <= MaxTotal
    ensures var t := FileScan(folder, files, total0);
            && (t.err == None <==> AllSmall(files) && total0 + SizeSum(files) <= MaxTotal)
            && (t.err == None ==> t.files == Padded(files) && t.total == total0 + SizeSum(files))
    decreases |files|
  {
    if files != [] {
      var init := files[..|files| - 1];
      FileScanOk(folder, init, total0);
      var last := files[|files| - 1];
      assert files == init + [last];
      AllSmallAppend(init, [last]);
      assert SizeSum(files) == SizeSum(init) + |last.data|;
      assert Padded(files) == Padded(init) + [InFile(Pad4(last.name), last.data)];
    }
  }

  /** All files of all directories of the walk. */
  function WalkFiles(walk: seq<WalkDir>): seq<InFile>
    decreases |walk|
  {
    if walk == [] then [] else WalkFiles(walk[..|walk| - 1]) + walk[|walk| - 1].files
  }

  /** The folder list the builder is meant to produce: one folder per
      directory that has files, in walk order, named by its padded folder
      name, holding its files with padded names. */
  function Expected(root: string, walk: seq<WalkDir>): seq<InFolder>
    decreases |walk|
  {
    if walk == [] then []
    else
      var d := walk[|walk| - 1];
      Expected(root, walk[..|walk| - 1])
        + (if d.files == [] then [] else [InFolder(Pad4(FolderName(root, d.rel)), Padded(d.files))])
  }

  lemma {:induction false} SizeSumAppend(a: seq<InFile>, b: seq<InFile>)
    ensures SizeSum(a + b) == SizeSum(a) + SizeSum(b)
    decreases |b|
  {
    if b == [] {
      assert a + b == a;
    } else {
      SizeSumAppend(a, b[..|b| - 1]);
      assert (a + b)[..|a + b| - 1] == a + b[..|b| - 1];
    }
  }

  /** The directory loop raises nothing exactly when every file of the
      walk is below the per-file limit and all of them together fit in
      80 MiB; it then yields the expected folders and the total size. */
  lemma {:induction false} DirScanOk(root: string, walk: seq<WalkDir>)
    ensures var b := DirScan(root, walk);
            && (b.err == None <==> AllSmall(WalkFiles(walk)) && SizeSum(WalkFiles(walk)) <= MaxTotal)
            && (b.err == None ==> b.folders == Expected(root, walk) && b.total == SizeSum(WalkFiles(walk)))
    decreases |walk|
  {
    if walk != [] {
      var init := walk[..|walk| - 1];
      var d := walk[|walk| - 1];
      var p := DirScan(root, init);
      DirScanOk(root, init);
      SizeSumAppend(WalkFiles(init), d.files);
      AllSmallAppend(WalkFiles(init), d.files);
      assert WalkFiles(walk) == WalkFiles(init) + d.files;
      if p.err == None {
        var name := FolderName(root, d.rel);
        FileScanOk(name, d.files, p.total);
        assert Expected(root, walk) == p.folders + (if d.files == [] then [] else [InFolder(Pad4(name), Padded(d.files))]);
      }
    }
  }

  /** `build_folder_structure` raises nothing exactly when every file is
      below 16 MiB, all files together fit in 80 MiB and the expected
      folders need at most 65535 TOC entries; it then returns the expected
      folders. */
  lemma BuildOk(root: string, walk: seq<WalkDir>)
    ensures var (folders, err) := BuildResult(root, walk);
            && (err == None <==> AllSmall(WalkFiles(walk)) && SizeSum(WalkFiles(walk)) <= MaxTotal
                                 && RecordCount(Expected(root, walk)) <= MaxEntries)
            && (err == None ==> folders == Expected(root, walk))
            && (err != None ==> folders == [])
  {
    DirScanOk(root, walk);
  }

  /** A folder the writer can take: it has files, and its name and the
      names of its files have exactly four characters. */
  predicate Shaped(f: InFolder) {
    f.files != [] && |f.name| == 4 && forall j :: 0 <= j < |f.files| ==> |f.files[j].name| == 4
  }

  /** Every expected folder is shaped for the writer. */
  lemma {:induction false} ExpectedShape(root: string, walk: seq<WalkDir>)
    ensures forall i :: 0 <= i < |Expected(root, walk)| ==> Shaped(Expected(root, walk)[i])
    decreases |walk|
  {
    if walk != [] {
      var d := walk[|walk| - 1];
      var init := Expected(root, walk[..|walk| - 1]);
      ExpectedShape(root, walk[..|walk| - 1]);
      var fs := Expected(root, walk);
      if d.files != [] {
        PaddedNames(d.files);
        var last := InFolder(Pad4(FolderName(root, d.rel)), Padded(d.files));
        assert fs == init + [last];
        assert Shaped(last);
        forall i | 0 <= i < |fs|
          ensures Shaped(fs[i])
        {
          if i < |init| {
            assert fs[i] == init[i];
          }
        }
      } else {
        assert fs == init + [];
        assert init + [] == init;
      }
    }
  }

  /** Padding leaves every file name four characters long. */
  lemma {:induction false} PaddedNames(files: seq<InFile>)
    ensures forall j :: 0 <= j < |files| ==> |Padded(files)[j].name| == 4 && Padded(files)[j].data == files[j].data
    decreases |files|
  {
    if files != [] {
      PaddedNames(files[..|files| - 1]);
    }
  }

  /** The root directory takes the root's own name. */
  lemma RootName(root: string)
    ensures FolderName(root, ".") == root
  {
    assert Slashes(".") == ".";
  }
}
