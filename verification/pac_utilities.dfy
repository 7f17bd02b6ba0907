/** Utilities/PACUtilities.py: folder-name sanitising and the mass
    extraction of a parsed DPAC table of contents. */
module PacUtilities {
  import opened Bytes
  import opened DpacReader

  // ---------------------------------------------------------------------
  // sanitize_folder_name

  /** The characters `<>:"/\|?*` that the sanitiser replaces. */
  predicate Invalid(c: char) {
    c == '<' || c == '>' || c == ':' || c == '"' || c == '/' || c == '\\' || c == '|' || c == '?' || c == '*'
  }

  /** One character after `re.sub(r'[<>:"/\\|?*]', "_", ...)`. */
  function Substitute(c: char): char {
    if Invalid(c) then '_' else c
  }

  /** `re.sub(r'[<>:"/\\|?*]', "_", s)`. */
  function Replaced(s: string): (r: string)
    ensures |r| == |s|
  {
    seq(|s|, i requires 0 <= i < |s| => Substitute(s[i]))
  }

  /** `sanitize_folder_name`: substitute, then `str.strip()`. */
  function Sanitize(s: string): string {
    Strip(Replaced(s), IsSpace)
  }

  /** `r` is `x` with some whitespace cut from each end, `lo` characters
      from the front. */
  predicate Trimmed(x: string, r: string, lo: nat) {
    && lo + |r| <= |x| && r == x[lo..lo + |r|]
    && (forall i :: 0 <= i < lo ==> IsSpace(x[i]))
    && (forall i :: lo + |r| <= i < |x| ==> IsSpace(x[i]))
  }

  /** The sanitised name is a run of the substituted characters of `s`,
      in order, cut only by whitespace at both ends: so it holds none of
      the nine characters, starts and ends on a non-space character, and
      is never longer than `s`. */
  lemma SanitizeSpec(s: string)
    ensures var r := Sanitize(s);
            && |r| <= |s|
            && (forall i :: 0 <= i < |r| ==> !Invalid(r[i]))
            && (r == [] || (!IsSpace(r[0]) && !IsSpace(r[|r| - 1])))
            && exists lo :: Trimmed(Replaced(s), r, lo)
  {
    var x := Replaced(s);
    var y := RStrip(x, IsSpace);
    var r := LStrip(y, IsSpace);
    RStripSpec(x, IsSpace);
    LStripSpec(y, IsSpace);
    var lo := |y| - |r|;
    assert r == x[lo..lo + |r|];
    assert r != [] ==> r[|r| - 1] == y[|y| - 1];
    assert Trimmed(x, r, lo);
  }

  /** A sanitised name contains no replaceable character. */
  lemma {:induction false} SanitizedClean(s: string)
    ensures Replaced(Sanitize(s)) == Sanitize(s)
  {
    SanitizeSpec(s);
  }

  /** Sanitising twice is sanitising once. */
  lemma SanitizeIdempotent(s: string)
    ensures Sanitize(Sanitize(s)) == Sanitize(s)
  {
    SanitizedClean(s);
    StripIdempotent(Replaced(s), IsSpace);
  }

  // ---------------------------------------------------------------------
  // mass_extract

  /** The skip rule: a file whose stripped name is empty, or whose pointer
      or size is not positive, is not extracted. */
  predicate Skip(f: TocFile) {
    Strip(f.name, IsSpace) == [] || f.pointer <= 0 || f.size <= 0
  }

  /** One file written: under the sanitised folder name, with the
      stripped file name, the `size` bytes at `pointer`. */
  datatype FileWrite = FileWrite(folder: string, name: string, data: seq<byte>)

  function WriteOf(image: seq<byte>, folder: string, f: TocFile): FileWrite {
    FileWrite(Sanitize(folder), Strip(f.name, IsSpace), Read(image, f.pointer, f.size))
  }

  /** The writes for the files of one folder, in order. */
  function FolderWrites(image: seq<byte>, folder: string, files: seq<TocFile>): seq<FileWrite>
    decreases |files|
  {
    if files == [] then []
    else
      var f := files[|files| - 1];
      FolderWrites(image, folder, files[..|files| - 1]) + (if Skip(f) then [] else [WriteOf(image, folder, f)])
  }

  /** The writes for every folder of the table, in order. */
  function AllWrites(image: seq<byte>, toc: seq<TocFolder>): seq<FileWrite>
    decreases |toc|
  {
    if toc == [] then []
    else
      var fo := toc[|toc| - 1];
      AllWrites(image, toc[..|toc| - 1]) + FolderWrites(image, fo.name, fo.files)
  }

  /** `mass_extract(dpac, output_dir)` over the archive bytes `image` and
      its table of contents: the files it writes, in order.  Directory
      creation, the file system and the messages are left out. */
  method MassExtract(image: seq<byte>, toc: seq<TocFolder>) returns (writes: seq<FileWrite>)
    ensures writes == AllWrites(image, toc)
  {
    writes := [];
    var i := 0;
    while i < |toc|
      invariant i <= |toc|
      invariant writes == AllWrites(image, toc[..i])
    {
      var folderWrites := ExtractFolder(image, toc[i]);
      writes := writes + folderWrites;
      assert toc[..i + 1][..i] == toc[..i];
      i := i + 1;
    }
    assert toc[..i] == toc;
  }

  /** The files of one folder that `mass_extract` writes, in order. */
  method ExtractFolder(image: seq<byte>, folder: TocFolder) returns (writes: seq<FileWrite>)
    ensures writes == FolderWrites(image, folder.name, folder.files)
  {
    var sanitized := Sanitize(folder.name);
    writes := [];
    var j := 0;
    while j < |folder.files|
      invariant j <= |folder.files|
      invariant writes == FolderWrites(image, folder.name, folder.files[..j])
    {
      var file := folder.files[j];
      var fileName := Strip(file.name, IsSpace);
      assert folder.files[..j + 1][..j] == folder.files[..j];
      if !(fileName == [] || file.pointer <= 0 || file.size <= 0) {
        var data := Read(image, file.pointer, file.size);
        writes := writes + [FileWrite(sanitized, fileName, data)];
      }
      j := j + 1;
    }
    assert folder.files[..j] == folder.files;
  }

  /** The number of skipped files. */
  function Skipped(files: seq<TocFile>): nat
    decreases |files|
  {
    if files == [] then 0 else Skipped(files[..|files| - 1]) + (if Skip(files[|files| - 1]) then 1 else 0)
  }

  /** Every file of a folder is either skipped or written, and each write
      has a non-empty name with no edge whitespace and the sanitised
      folder name. */
  lemma {:induction false} FolderWritesSpec(image: seq<byte>, folder: string, files: seq<TocFile>)
    ensures var w := FolderWrites(image, folder, files);
            && |w| + Skipped(files) == |files|
            && forall k :: 0 <= k < |w| ==> Sound(folder, w[k])
    decreases |files|
  {
    if files != [] {
      var f := files[|files| - 1];
      var init := FolderWrites(image, folder, files[..|files| - 1]);
      FolderWritesSpec(image, folder, files[..|files| - 1]);
      if !Skip(f) {
        var w := WriteOf(image, folder, f);
        StripEmptyIff(f.name, IsSpace);
        StripEdges(f.name);
        assert Sound(folder, w);
        assert FolderWrites(image, folder, files) == init + [w];
      } else {
        assert FolderWrites(image, folder, files) == init + [];
      }
    }
  }

  /** A write with a non-empty name without edge whitespace, under the
      sanitised folder name. */
  predicate Sound(folder: string, w: FileWrite) {
    && w.folder == Sanitize(folder) && w.name != []
    && !IsSpace(w.name[0]) && !IsSpace(w.name[|w.name| - 1])
  }

  /** A stripped string starts and ends on a kept character. */
  lemma StripEdges(s: string)
    ensures var r := Strip(s, IsSpace);
            r == [] || (!IsSpace(r[0]) && !IsSpace(r[|r| - 1]))
  {
    var y := RStrip(s, IsSpace);
    RStripSpec(s, IsSpace);
    LStripSpec(y, IsSpace);
  }
}
