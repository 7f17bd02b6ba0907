/** PACTool.py: the `DPAC` and `EPK8` loaders and the `PACTool.HEADER_MAP`
    dispatch of `PACTool.load_file`.  A file is its bytes; the file cursor
    of the loaders is a position into them. */
module PacToolLoaders {
  import opened Bytes

  /** `TOC_OFFSET` and `DATA_OFFSET`, shared by both loaders. */
  const TocOffset: nat := 0x800
  const DataOffset: nat := 0x4000

  /** A file name is the `<H` identifier of a numeric record or the
      NUL-stripped latin-1 text of a named one. */
  datatype FileName = NumericId(id: nat) | Named(text: string)

  /** `{"name": ..., "data": ...}` */
  datatype LoadedFile = LoadedFile(name: FileName, data: seq<byte>)

  /** `{"name": ..., "files": [...]}` */
  datatype LoadedFolder = LoadedFolder(name: string, files: seq<LoadedFile>)

  /** The exceptions a loader or `load_file` lets escape. */
  datatype LoadError =
    | BadMagic        // ValueError: wrong magic for the loader
    | StructError     // struct.error: a field read past the end of the file
    | UnknownMagic    // ValueError from load_file: no loader for the tag
    | UnboundLocal    // UnboundLocalError in the MPQ loader

  /** `.decode("latin-1").strip("\x00")` */
  function NameText(bs: seq<byte>): string {
    Strip(Latin1(bs), IsNul)
  }

  // ---------------------------------------------------------------------
  // Bit fields (shifts and masks of non-negative values, as arithmetic)

  /** `raw_file_count & 0x7F` */
  function LowCount(raw: nat): nat {
    raw % 128
  }

  /** `(raw_file_count & 0x80) != 0` */
  predicate NumericFlag(raw: nat) {
    (raw / 128) % 2 == 1
  }

  // ---------------------------------------------------------------------
  // DPAC.load

  /** The file block size: 4 bytes for numeric identifiers, else 8. */
  function Width(numeric: bool): nat {
    if numeric then 4 else 8
  }

  /** A decoded file block: its name, where its data starts and how long
      it is (`file_length`, before the zero-length test). */
  datatype Block = Block(name: FileName, pointer: nat, length: nat)

  /** The block at `pos`.  A numeric block takes its data from `cur`, the
      running `current_pointer`; a named block from `(raw << 11) + 0x4000`. */
  function DpacBlock(file: seq<byte>, pos: nat, numeric: bool, cur: nat): Block
    requires pos + Width(numeric) <= |file|
  {
    if numeric then Block(NumericId(U16LE(file, pos)), cur, BlockLength(file, pos, true))
    else Block(Named(NameText(file[pos..pos + 4])), U16LE(file, pos + 4) * 2048 + DataOffset, BlockLength(file, pos, false))
  }

  /** `file_length`: the `<H` after the identifier, or after the pointer
      of a named block, shifted left by 8. */
  function BlockLength(file: seq<byte>, pos: nat, numeric: bool): nat
    requires pos + Width(numeric) <= |file|
  {
    if numeric then U16LE(file, pos + 2) * 256 else U16LE(file, pos + 6) * 256
  }

  /** Every one of the `n` blocks from `pos` lies in the file and has a
      non-zero length. */
  predicate AllListed(file: seq<byte>, pos: nat, n: nat, numeric: bool)
    decreases n
  {
    n == 0 || (pos + Width(numeric) <= |file| && BlockLength(file, pos, numeric) > 0 && AllListed(file, pos + Width(numeric), n - 1, numeric))
  }

  /** Where the file loop of one folder stands: cursor, `current_pointer`,
      `entries_parsed` and the files appended so far. */
  datatype FileRun = FileRun(pos: nat, cur: nat, parsed: nat, files: seq<LoadedFile>)

  /** One pass of the file loop over a block that lies in the file.  A
      zero-length block only moves the cursor (`continue`); any other
      block appends its file and counts one entry.  A numeric block moves
      `current_pointer` on by its length. */
  function DpacStep(file: seq<byte>, s: FileRun, numeric: bool): FileRun
    requires s.pos + Width(numeric) <= |file|
  {
    var b := DpacBlock(file, s.pos, numeric, s.cur);
    var cur := if numeric then s.cur + b.length else s.cur;
    if b.length == 0 then FileRun(s.pos + Width(numeric), cur, s.parsed, s.files)
    else FileRun(s.pos + Width(numeric), cur, s.parsed + 1, s.files + [LoadedFile(b.name, Read(file, b.pointer, b.length))])
  }

  /** The last `n` passes of `for file_idx in range(file_count)`.  A short
      block breaks out of the loop with the cursor at the end of the file. */
  function DpacFiles(file: seq<byte>, s: FileRun, n: nat, numeric: bool): (r: FileRun)
    ensures r.pos >= s.pos
    decreases n
  {
    if n == 0 then s
    else if s.pos + Width(numeric) > |file| then s.(pos := Max(s.pos, |file|))
    else DpacFiles(file, DpacStep(file, s, numeric), n - 1, numeric)
  }

  /** A prefix of a prefix is a prefix. */
  lemma PrefixTrans<T>(a: seq<T>, b: seq<T>, c: seq<T>)
    requires |a| <= |b| <= |c| && b[..|a|] == a && c[..|b|] == b
    ensures c[..|a|] == a
  {
    assert c[..|a|] == c[..|b|][..|a|];
  }

  /** One pass appends at most one file and counts exactly what it appends. */
  lemma DpacStepAppends(file: seq<byte>, s: FileRun, numeric: bool)
    requires s.pos + Width(numeric) <= |file|
    ensures var t := DpacStep(file, s, numeric);
            |s.files| <= |t.files| && t.files[..|s.files|] == s.files && t.parsed == s.parsed + |t.files| - |s.files|
  {
    var t := DpacStep(file, s, numeric);
    if |t.files| != |s.files| {
      assert t.files[..|s.files|] == s.files;
    }
  }

  /** The file loop only appends, and `entries_parsed` grows by exactly
      the number of files it appends. */
  lemma {:induction false} DpacFilesListing(file: seq<byte>, s: FileRun, n: nat, numeric: bool)
    ensures var r := DpacFiles(file, s, n, numeric);
            |s.files| <= |r.files| && r.files[..|s.files|] == s.files && r.parsed == s.parsed + |r.files| - |s.files|
    decreases n
  {
    if n > 0 && s.pos + Width(numeric) <= |file| {
      var t := DpacStep(file, s, numeric);
      DpacStepAppends(file, s, numeric);
      DpacFilesUnfold(file, s, n, numeric);
      DpacFilesListing(file, t, n - 1, numeric);
      PrefixTrans(s.files, t.files, DpacFiles(file, t, n - 1, numeric).files);
    }
  }

  /** Where the folder loop stands, and the exception that ended it. */
  datatype Walk = Walk(pos: nat, parsed: nat, folders: seq<LoadedFolder>, err: Option<LoadError>)

  /** One pass of the folder loop over a header that lies in the file.  A
      nameless header with a zero count is skipped and counted; any other
      header is appended with the files its loop reads. */
  function DpacFolder(file: seq<byte>, w: Walk): (v: Walk)
    requires w.pos + 8 <= |file|
    ensures v.pos >= w.pos + 8 && v.err == w.err
  {
    var name := NameText(file[w.pos..w.pos + 4]);
    var raw := U16LE(file, w.pos + 4);
    if name == [] && LowCount(raw) == 0 then w.(pos := w.pos + 8, parsed := w.parsed + 1)
    else
      var r := DpacFiles(file, FileRun(w.pos + 8, DataOffset, w.parsed, []), LowCount(raw), NumericFlag(raw));
      Walk(r.pos, r.parsed, w.folders + [LoadedFolder(name, r.files)], w.err)
  }

  /** The `while entries_parsed < toc_entry_count` loop.  The `break` after
      a folder tests the same condition as the loop, so here it is the loop
      test of the next pass.  A header cut short raises `struct.error`. */
  function DpacWalk(file: seq<byte>, w: Walk, count: nat): Walk
    decreases |file| - w.pos
  {
    if w.parsed >= count then w
    else if w.pos + 8 > |file| then w.(err := Some(StructError))
    else DpacWalk(file, DpacFolder(file, w), count)
  }

  const DpacMagic: seq<byte> := [0x44, 0x50, 0x41, 0x43]  // "DPAC"

  /** `DPAC.load` on a loader whose `folders` holds `prior`. */
  function DpacLoad(file: seq<byte>, prior: seq<LoadedFolder>): Walk {
    if Read(file, 0, 4) != DpacMagic then Walk(0, 0, prior, Some(BadMagic))
    else if |file| < 16 then Walk(4, 0, prior, Some(StructError))
    else DpacWalk(file, Walk(TocOffset, 0, prior, None), U32LE(file, 4) / 8)
  }

  /** The files of `n` numeric blocks from `pos` whose data runs on from
      `cur`: each file is named by its identifier, and its data starts
      where the data of the file before it ends. */
  function NumericListed(file: seq<byte>, pos: nat, cur: nat, n: nat): (r: seq<LoadedFile>)
    requires pos + 4 * n <= |file|
    ensures |r| == n
    decreases n
  {
    if n == 0 then []
    else
      var length := U16LE(file, pos + 2) * 256;
      [LoadedFile(NumericId(U16LE(file, pos)), Read(file, cur, length))] + NumericListed(file, pos + 4, cur + length, n - 1)
  }

  /** The files of `n` named blocks from `pos`, one per block, in order. */
  function NamedListed(file: seq<byte>, pos: nat, n: nat): (r: seq<LoadedFile>)
    requires pos + 8 * n <= |file|
    ensures |r| == n
    decreases n
  {
    if n == 0 then [] else [NamedFileAt(file, pos)] + NamedListed(file, pos + 8, n - 1)
  }

  /** One pass of the file loop, unfolded. */
  lemma DpacFilesUnfold(file: seq<byte>, s: FileRun, n: nat, numeric: bool)
    requires n > 0 && s.pos + Width(numeric) <= |file|
    ensures DpacFiles(file, s, n, numeric) == DpacFiles(file, DpacStep(file, s, numeric), n - 1, numeric)
  {
  }

  /** A numeric block of non-zero length appends the file of its
      identifier, whose data starts at `current_pointer`, and moves
      `current_pointer` past it. */
  lemma NumericStep(file: seq<byte>, s: FileRun)
    requires s.pos + 4 <= |file| && BlockLength(file, s.pos, true) > 0
    ensures var length := U16LE(file, s.pos + 2) * 256;
            DpacStep(file, s, true)
            == FileRun(s.pos + 4, s.cur + length, s.parsed + 1, s.files + [LoadedFile(NumericId(U16LE(file, s.pos)), Read(file, s.cur, length))])
  {
  }

  /** The first of `n` listed numeric blocks, unfolded: its file is
      appended and the rest of the blocks are still listed. */
  lemma NumericFilesStep(file: seq<byte>, s: FileRun, n: nat)
    requires n > 0 && s.pos + 4 * n <= |file| && AllListed(file, s.pos, n, true)
    ensures var length := U16LE(file, s.pos + 2) * 256;
            var f := LoadedFile(NumericId(U16LE(file, s.pos)), Read(file, s.cur, length));
            && AllListed(file, s.pos + 4, n - 1, true)
            && DpacFiles(file, s, n, true) == DpacFiles(file, FileRun(s.pos + 4, s.cur + length, s.parsed + 1, s.files + [f]), n - 1, true)
  {
    NumericStep(file, s);
    DpacFilesUnfold(file, s, n, true);
  }

  /** In a numeric folder whose blocks all lie in the file and all have a
      non-zero length, the file loop appends one file per block, in block
      order, each counted, with the data of each starting where the data
      of the one before it ends and the first at `current_pointer`. */
  lemma {:induction false} NumericFilesAll(file: seq<byte>, s: FileRun, n: nat)
    requires s.pos + 4 * n <= |file| && AllListed(file, s.pos, n, true)
    ensures var r := DpacFiles(file, s, n, true);
            r.pos == s.pos + 4 * n && r.parsed == s.parsed + n && r.files == s.files + NumericListed(file, s.pos, s.cur, n)
    decreases n
  {
    if n > 0 {
      var length := U16LE(file, s.pos + 2) * 256;
      var f := LoadedFile(NumericId(U16LE(file, s.pos)), Read(file, s.cur, length));
      NumericFilesStep(file, s, n);
      NumericFilesAll(file, FileRun(s.pos + 4, s.cur + length, s.parsed + 1, s.files + [f]), n - 1);
      var rest := NumericListed(file, s.pos + 4, s.cur + length, n - 1);
      assert NumericListed(file, s.pos, s.cur, n) == [f] + rest;
      assert (s.files + [f]) + rest == s.files + ([f] + rest);
    } else {
      assert s.files + [] == s.files;
    }
  }

  /** A named block of non-zero length appends the file it names. */
  lemma NamedStep(file: seq<byte>, s: FileRun)
    requires s.pos + 8 <= |file| && BlockLength(file, s.pos, false) > 0
    ensures DpacStep(file, s, false) == FileRun(s.pos + 8, s.cur, s.parsed + 1, s.files + [NamedFileAt(file, s.pos)])
  {
  }

  /** In a named folder whose blocks all lie in the file and all have a
      non-zero length, the file loop appends one file per block, in block
      order, each counted: its name, data at `(raw_pointer << 11) + 0x4000`
      and `raw_size << 8` bytes. */
  lemma {:induction false} NamedFilesAll(file: seq<byte>, s: FileRun, n: nat)
    requires s.pos + 8 * n <= |file| && AllListed(file, s.pos, n, false)
    ensures var r := DpacFiles(file, s, n, false);
            r.pos == s.pos + 8 * n && r.parsed == s.parsed + n && r.files == s.files + NamedListed(file, s.pos, n)
    decreases n
  {
    if n > 0 {
      var f := NamedFileAt(file, s.pos);
      assert (s.files + [f]) + NamedListed(file, s.pos + 8, n - 1)
         == s.files + ([f] + NamedListed(file, s.pos + 8, n - 1));
      NamedStep(file, s);
      DpacFilesUnfold(file, s, n, false);
      NamedFilesAll(file, FileRun(s.pos + 8, s.cur, s.parsed + 1, s.files + [f]), n - 1);
    } else {
      assert s.files + [] == s.files;
    }
  }

  /** The file of the named block at `pos`. */
  function NamedFileAt(file: seq<byte>, pos: nat): LoadedFile
    requires pos + 8 <= |file|
  {
    LoadedFile(Named(NameText(file[pos..pos + 4])), Read(file, U16LE(file, pos + 4) * 2048 + DataOffset, U16LE(file, pos + 6) * 256))
  }

  /** The walk ends without an exception exactly when `entries_parsed`
      has reached the entry count; otherwise a header was cut short by the
      end of the file and `struct.error` was raised. */
  lemma {:induction false} DpacWalkEnds(file: seq<byte>, w: Walk, count: nat)
    requires w.err == None
    ensures var r := DpacWalk(file, w, count);
            && (r.err == None <==> r.parsed >= count)
            && (r.err != None ==> r.err == Some(StructError) && r.pos + 8 > |file|)
            && |w.folders| <= |r.folders| && r.folders[..|w.folders|] == w.folders
    decreases |file| - w.pos
  {
    if w.parsed < count && w.pos + 8 <= |file| {
      var v := DpacFolder(file, w);
      assert |w.folders| <= |v.folders| && v.folders[..|w.folders|] == w.folders;
      DpacWalkEnds(file, v, count);
      var r := DpacWalk(file, v, count);
      assert r.folders[..|w.folders|] == r.folders[..|v.folders|][..|w.folders|];
    }
  }

  /** A header with a name and a zero count is appended with no files;
      only a nameless one is skipped, and it counts as an entry. */
  lemma EmptyHeaders(file: seq<byte>, w: Walk)
    requires w.pos + 8 <= |file| && LowCount(U16LE(file, w.pos + 4)) == 0
    ensures var name := NameText(file[w.pos..w.pos + 4]);
            DpacFolder(file, w)
            == if name == [] then w.(pos := w.pos + 8, parsed := w.parsed + 1)
               else w.(pos := w.pos + 8, folders := w.folders + [LoadedFolder(name, [])])
  {
  }

  /** The `DPAC` loader object. */
  class DpacLoader {
    var folders: seq<LoadedFolder>

    constructor ()
      ensures folders == []
    {
      folders := [];
    }

    /** `DPAC.load`: the folders it appends, and the exception it raises. */
    method Load(file: seq<byte>) returns (err: Option<LoadError>)
      modifies this
      ensures var r := DpacLoad(file, old(folders));
              folders == r.folders && err == r.err
    {
      if Read(file, 0, 4) != DpacMagic {
        return Some(BadMagic);
      }
      if |file| < 16 {
        return Some(StructError);
      }
      var count := U32LE(file, 4) / 8;
      var pos: nat, parsed: nat := TocOffset, 0;
      ghost var goal := DpacWalk(file, Walk(pos, parsed, folders, None), count);
      while parsed < count && pos + 8 <= |file|
        invariant DpacWalk(file, Walk(pos, parsed, folders, None), count) == goal
        decreases |file| - pos
      {
        pos, parsed, folders := ReadDpacFolder(file, pos, parsed, folders);
      }
      // a folder header cut short raises `struct.error`
      err := if parsed < count then Some(StructError) else None;
    }
  }

  /** One pass of the `while entries_parsed < toc_entry_count` loop of
      `DPAC.load`: a nameless header without files is counted and skipped,
      any other folder is appended with its files. */
  method ReadDpacFolder(file: seq<byte>, pos: nat, parsed: nat, folders: seq<LoadedFolder>)
    returns (pos': nat, parsed': nat, folders': seq<LoadedFolder>)
    requires pos + 8 <= |file|
    ensures Walk(pos', parsed', folders', None) == DpacFolder(file, Walk(pos, parsed, folders, None))
  {
    var name := NameText(file[pos..pos + 4]);
    var raw := U16LE(file, pos + 4);
    var fileCount := LowCount(raw);
    if name == [] && fileCount == 0 {
      return pos + 8, parsed + 1, folders;
    }
    var files;
    pos', parsed', files := ReadDpacFiles(file, pos + 8, fileCount, NumericFlag(raw), parsed);
    folders' := folders + [LoadedFolder(name, files)];
  }

  /** One pass of the file loop of `DPAC.load` over a block that lies in
      the file: a zero-length block only moves the cursor, any other
      appends its file and counts one entry; a numeric block moves
      `current_pointer` on by its length. */
  method ReadDpacBlock(file: seq<byte>, pos: nat, cur: nat, parsed: nat, files: seq<LoadedFile>, numeric: bool)
    returns (cur': nat, parsed': nat, files': seq<LoadedFile>)
    requires pos + Width(numeric) <= |file|
    ensures FileRun(pos + Width(numeric), cur', parsed', files') == DpacStep(file, FileRun(pos, cur, parsed, files), numeric)
  {
    var b := DpacBlock(file, pos, numeric, cur);
    cur', parsed', files' := cur, parsed, files;
    if numeric {
      cur' := cur + b.length;
    }
    if b.length != 0 {
      var data := Read(file, b.pointer, b.length);
      files', parsed' := files + [LoadedFile(b.name, data)], parsed + 1;
    }
  }

  /** The `for file_idx in range(file_count)` loop of `DPAC.load`. */
  method ReadDpacFiles(file: seq<byte>, start: nat, n: nat, numeric: bool, parsed0: nat)
    returns (pos: nat, parsed: nat, files: seq<LoadedFile>)
    ensures var r := DpacFiles(file, FileRun(start, DataOffset, parsed0, []), n, numeric);
            pos == r.pos && parsed == r.parsed && files == r.files
  {
    ghost var goal := DpacFiles(file, FileRun(start, DataOffset, parsed0, []), n, numeric);
    pos, parsed, files := start, parsed0, [];
    var cur: nat := DataOffset;
    var width := Width(numeric);
    var i := 0;
    while i < n
      invariant i <= n
      invariant DpacFiles(file, FileRun(pos, cur, parsed, files), n - i, numeric) == goal
    {
      if pos + width > |file| {
        pos := Max(pos, |file|);
        break;
      }
      DpacFilesUnfold(file, FileRun(pos, cur, parsed, files), n - i, numeric);
      cur, parsed, files := ReadDpacBlock(file, pos, cur, parsed, files, numeric);
      pos, i := pos + width, i + 1;
    }
  }

  // ---------------------------------------------------------------------
  // EPK8.load

  /** Where the file loop of one EPK8 folder stands: cursor,
      `entries_parsed` and the files appended so far. */
  datatype Epk8Run = Epk8Run(pos: nat, parsed: nat, files: seq<LoadedFile>)

  /** An EPK8 file block is a placeholder when its raw pointer and its
      length are both zero. */
  predicate Epk8Placeholder(file: seq<byte>, pos: nat)
    requires pos + 16 <= |file|
  {
    U32LE(file, pos + 8) == 0 && U32LE(file, pos + 12) * 256 == 0
  }

  /** The file of the 16-byte block at `pos`: 8-byte name, data at
      `(raw_pointer << 11) + 0x4000`, `raw_length << 8` bytes. */
  function Epk8FileAt(file: seq<byte>, pos: nat): LoadedFile
    requires pos + 16 <= |file|
  {
    LoadedFile(Named(NameText(file[pos..pos + 8])),
               Read(file, U32LE(file, pos + 8) * 2048 + DataOffset, U32LE(file, pos + 12) * 256))
  }

  /** One pass of the EPK8 file loop over a block that lies in the file. */
  function Epk8Step(file: seq<byte>, s: Epk8Run): Epk8Run
    requires s.pos + 16 <= |file|
  {
    if Epk8Placeholder(file, s.pos) then s.(pos := s.pos + 16)
    else Epk8Run(s.pos + 16, s.parsed + 1, s.files + [Epk8FileAt(file, s.pos)])
  }

  /** The last `n` passes of the EPK8 file loop; a short block breaks out
      with the cursor at the end of the file. */
  function Epk8Files(file: seq<byte>, s: Epk8Run, n: nat): (r: Epk8Run)
    ensures r.pos >= s.pos
    decreases n
  {
    if n == 0 then s
    else if s.pos + 16 > |file| then s.(pos := Max(s.pos, |file|))
    else Epk8Files(file, Epk8Step(file, s), n - 1)
  }

  lemma Epk8FilesUnfold(file: seq<byte>, s: Epk8Run, n: nat)
    requires n > 0 && s.pos + 16 <= |file|
    ensures Epk8Files(file, s, n) == Epk8Files(file, Epk8Step(file, s), n - 1)
  {
  }

  /** One EPK8 pass skips a placeholder or appends and counts one file. */
  lemma Epk8StepAppends(file: seq<byte>, s: Epk8Run)
    requires s.pos + 16 <= |file|
    ensures var t := Epk8Step(file, s);
            |s.files| <= |t.files| && t.files[..|s.files|] == s.files && t.parsed == s.parsed + |t.files| - |s.files|
  {
    if !Epk8Placeholder(file, s.pos) {
      assert (s.files + [Epk8FileAt(file, s.pos)])[..|s.files|] == s.files;
    }
  }

  /** The EPK8 file loop only appends, and `entries_parsed` grows by
      exactly the number of files it appends. */
  lemma {:induction false} Epk8FilesListing(file: seq<byte>, s: Epk8Run, n: nat)
    ensures var r := Epk8Files(file, s, n);
            |s.files| <= |r.files| && r.files[..|s.files|] == s.files && r.parsed == s.parsed + |r.files| - |s.files|
    decreases n
  {
    if n > 0 && s.pos + 16 <= |file| {
      var t := Epk8Step(file, s);
      Epk8StepAppends(file, s);
      Epk8FilesUnfold(file, s, n);
      Epk8FilesListing(file, t, n - 1);
      PrefixTrans(s.files, t.files, Epk8Files(file, t, n - 1).files);
    }
  }

  /** Every one of the `n` EPK8 blocks from `pos` lies in the file and is
      not a placeholder. */
  predicate Epk8AllListed(file: seq<byte>, pos: nat, n: nat)
    decreases n
  {
    n == 0 || (pos + 16 <= |file| && !Epk8Placeholder(file, pos) && Epk8AllListed(file, pos + 16, n - 1))
  }

  /** The files of the `n` blocks from `pos`, one per block, in order. */
  function Epk8Listed(file: seq<byte>, pos: nat, n: nat): (r: seq<LoadedFile>)
    requires pos + 16 * n <= |file|
    ensures |r| == n
    decreases n
  {
    if n == 0 then [] else [Epk8FileAt(file, pos)] + Epk8Listed(file, pos + 16, n - 1)
  }

  /** In an EPK8 folder whose blocks all lie in the file and none is a
      placeholder, the file loop appends one file per block, in block
      order, and counts each. */
  lemma {:induction false} Epk8FilesAll(file: seq<byte>, s: Epk8Run, n: nat)
    requires s.pos + 16 * n <= |file| && Epk8AllListed(file, s.pos, n)
    ensures Epk8Files(file, s, n) == Epk8Run(s.pos + 16 * n, s.parsed + n, s.files + Epk8Listed(file, s.pos, n))
    decreases n
  {
    if n > 0 {
      var f := Epk8FileAt(file, s.pos);
      assert (s.files + [f]) + Epk8Listed(file, s.pos + 16, n - 1)
         == s.files + ([f] + Epk8Listed(file, s.pos + 16, n - 1));
      Epk8FilesUnfold(file, s, n);
      Epk8FilesAll(file, Epk8Run(s.pos + 16, s.parsed + 1, s.files + [f]), n - 1);
    } else {
      assert s.files + [] == s.files;
    }
  }

  /** A block with a zero raw pointer but a non-zero length is kept: only
      both fields zero make a placeholder. */
  lemma Epk8ZeroPointerKept(file: seq<byte>, s: Epk8Run, n: nat)
    requires n > 0 && s.pos + 16 <= |file| && U32LE(file, s.pos + 8) == 0 && U32LE(file, s.pos + 12) > 0
    ensures var r := Epk8Files(file, s, n);
            |s.files| < |r.files|
            && r.files[|s.files|] == LoadedFile(Named(NameText(file[s.pos..s.pos + 8])), Read(file, DataOffset, U32LE(file, s.pos + 12) * 256))
  {
    assert !Epk8Placeholder(file, s.pos);
    Epk8FirstKept(file, s, n);
    assert Epk8FileAt(file, s.pos) == LoadedFile(Named(NameText(file[s.pos..s.pos + 8])), Read(file, DataOffset, U32LE(file, s.pos + 12) * 256));
  }

  /** The first block, when it is not a placeholder, gives the first file
      the loop appends. */
  lemma Epk8FirstKept(file: seq<byte>, s: Epk8Run, n: nat)
    requires n > 0 && s.pos + 16 <= |file| && !Epk8Placeholder(file, s.pos)
    ensures var r := Epk8Files(file, s, n);
            |s.files| < |r.files| && r.files[|s.files|] == Epk8FileAt(file, s.pos)
  {
    var t := Epk8Step(file, s);
    assert t.files == s.files + [Epk8FileAt(file, s.pos)];
    Epk8FilesUnfold(file, s, n);
    Epk8FilesListing(file, t, n - 1);
    var r := Epk8Files(file, t, n - 1);
    assert r.files[|s.files|] == r.files[..|t.files|][|s.files|];
  }

  /** One pass of the EPK8 folder loop over a 12-byte record that lies in
      the file: a nameless record with a zero count is skipped and
      counted, any other is appended with the files its loop reads. */
  function Epk8Folder(file: seq<byte>, w: Walk): (v: Walk)
    requires w.pos + 12 <= |file|
    ensures v.pos >= w.pos + 12 && v.err == w.err
  {
    var name := NameText(file[w.pos..w.pos + 4]);
    var fileCount := U16LE(file, w.pos + 4) / 4;
    if name == [] && fileCount == 0 then w.(pos := w.pos + 12, parsed := w.parsed + 1)
    else
      var r := Epk8Files(file, Epk8Run(w.pos + 12, w.parsed, []), fileCount);
      Walk(r.pos, r.parsed, w.folders + [LoadedFolder(name, r.files)], w.err)
  }

  /** The EPK8 folder loop.  A short folder record breaks out of the loop
      without an exception. */
  function Epk8Walk(file: seq<byte>, w: Walk, count: nat): Walk
    decreases |file| - w.pos
  {
    if w.parsed >= count || w.pos + 12 > |file| then w
    else Epk8Walk(file, Epk8Folder(file, w), count)
  }

  const Epk8Magic: seq<byte> := [0x45, 0x50, 0x4B, 0x38]  // "EPK8"

  /** `EPK8.load` on a loader whose `folders` holds `prior`. */
  function Epk8Load(file: seq<byte>, prior: seq<LoadedFolder>): Walk {
    if Read(file, 0, 4) != Epk8Magic then Walk(0, 0, prior, Some(BadMagic))
    else if |file| < 16 then Walk(4, 0, prior, Some(StructError))
    else Epk8Walk(file, Walk(TocOffset, 0, prior, None), U32LE(file, 4) / 16 + 1)
  }

  /** Past the header, `EPK8.load` raises nothing, keeps the folders it
      had, and ends once `entries_parsed` reaches the count or the next
      folder record is cut short. */
  lemma {:induction false} Epk8WalkEnds(file: seq<byte>, w: Walk, count: nat)
    ensures var r := Epk8Walk(file, w, count);
            && r.err == w.err && (r.parsed >= count || r.pos + 12 > |file|)
            && |w.folders| <= |r.folders| && r.folders[..|w.folders|] == w.folders
    decreases |file| - w.pos
  {
    if w.parsed < count && w.pos + 12 <= |file| {
      var v := Epk8Folder(file, w);
      assert |w.folders| <= |v.folders| && v.folders[..|w.folders|] == w.folders;
      Epk8WalkEnds(file, v, count);
      var r := Epk8Walk(file, v, count);
      assert r.folders[..|w.folders|] == r.folders[..|v.folders|][..|w.folders|];
    }
  }

  /** `EPK8.load` raises exactly for a wrong magic or a header shorter than
      sixteen bytes. */
  lemma Epk8LoadErrors(file: seq<byte>, prior: seq<LoadedFolder>)
    ensures var r := Epk8Load(file, prior);
            && (r.err == None <==> Read(file, 0, 4) == Epk8Magic && |file| >= 16)
            && (r.err == Some(BadMagic) <==> Read(file, 0, 4) != Epk8Magic)
            && r.err in {None, Some(BadMagic), Some(StructError)}
            && |prior| <= |r.folders| && r.folders[..|prior|] == prior
  {
    if Read(file, 0, 4) == Epk8Magic && |file| >= 16 {
      Epk8WalkEnds(file, Walk(TocOffset, 0, prior, None), U32LE(file, 4) / 16 + 1);
    }
  }

  /** The `EPK8` loader object. */
  class Epk8Loader {
    var folders: seq<LoadedFolder>

    constructor ()
      ensures folders == []
    {
      folders := [];
    }

    /** `EPK8.load`: the folders it appends, and the exception it raises. */
    method Load(file: seq<byte>) returns (err: Option<LoadError>)
      modifies this
      ensures var r := Epk8Load(file, old(folders));
              folders == r.folders && err == r.err
    {
      if Read(file, 0, 4) != Epk8Magic {
        return Some(BadMagic);
      }
      if |file| < 16 {
        return Some(StructError);
      }
      var count := U32LE(file, 4) / 16 + 1;
      var pos: nat, parsed: nat := TocOffset, 0;
      ghost var goal := Epk8Walk(file, Walk(pos, parsed, folders, None), count);
      while parsed < count && pos + 12 <= |file|
        invariant Epk8Walk(file, Walk(pos, parsed, folders, None), count) == goal
        decreases |file| - pos
      {
        pos, parsed, folders := ReadEpk8Folder(file, pos, parsed, folders);
      }
      return None;
    }
  }

  /** One pass of the EPK8 file loop over a block that lies in the file:
      a block whose raw pointer and length are both zero is skipped, any
      other appends its file and counts one entry. */
  method ReadEpk8Step(file: seq<byte>, pos: nat, parsed: nat, files: seq<LoadedFile>)
    returns (parsed': nat, files': seq<LoadedFile>)
    requires pos + 16 <= |file|
    ensures Epk8Run(pos + 16, parsed', files') == Epk8Step(file, Epk8Run(pos, parsed, files))
  {
    var rawPointer := U32LE(file, pos + 8);
    var length := U32LE(file, pos + 12) * 256;
    if rawPointer == 0 && length == 0 {
      return parsed, files;
    }
    var data := Read(file, rawPointer * 2048 + DataOffset, length);
    return parsed + 1, files + [LoadedFile(Named(NameText(file[pos..pos + 8])), data)];
  }

  /** One pass of the folder loop of `EPK8.load`: a nameless record
      without files is counted and skipped, any other folder is appended
      with its files. */
  method ReadEpk8Folder(file: seq<byte>, pos: nat, parsed: nat, folders: seq<LoadedFolder>)
    returns (pos': nat, parsed': nat, folders': seq<LoadedFolder>)
    requires pos + 12 <= |file|
    ensures Walk(pos', parsed', folders', None) == Epk8Folder(file, Walk(pos, parsed, folders, None))
  {
    var name := NameText(file[pos..pos + 4]);
    var fileCount := U16LE(file, pos + 4) / 4;
    if name == [] && fileCount == 0 {
      return pos + 12, parsed + 1, folders;
    }
    var files;
    pos', parsed', files := ReadEpk8Files(file, pos + 12, fileCount, parsed);
    folders' := folders + [LoadedFolder(name, files)];
  }

  /** The file loop of `EPK8.load`. */
  method ReadEpk8Files(file: seq<byte>, start: nat, n: nat, parsed0: nat)
    returns (pos: nat, parsed: nat, files: seq<LoadedFile>)
    ensures var r := Epk8Files(file, Epk8Run(start, parsed0, []), n);
            pos == r.pos && parsed == r.parsed && files == r.files
  {
    ghost var goal := Epk8Files(file, Epk8Run(start, parsed0, []), n);
    pos, parsed, files := start, parsed0, [];
    var i := 0;
    while i < n
      invariant i <= n
      invariant Epk8Files(file, Epk8Run(pos, parsed, files), n - i) == goal
    {
      if pos + 16 > |file| {
        pos := Max(pos, |file|);
        break;
      }
      Epk8FilesUnfold(file, Epk8Run(pos, parsed, files), n - i);
      parsed, files := ReadEpk8Step(file, pos, parsed, files);
      pos, i := pos + 16, i + 1;
    }
  }

  // ---------------------------------------------------------------------
  // PACTool.load_file

  /** The loader classes of `HEADER_MAP`. */
  datatype Format = Dpac | Epac | Epk8 | Dpk8 | Hspc | Shdc | Pac | Pach | Mpq

  const MpqTag: seq<byte> := [0x4D, 0x50, 0x51]  // "MPQ"

  /** `PACTool.HEADER_MAP`: eight four-byte tags and the three-byte "MPQ". */
  const HeaderMap: map<seq<byte>, Format> := map[
    DpacMagic := Dpac,
    [0x45, 0x50, 0x41, 0x43] := Epac,
    Epk8Magic := Epk8,
    [0x44, 0x50, 0x4B, 0x38] := Dpk8,
    [0x48, 0x53, 0x50, 0x43] := Hspc,
    [0x53, 0x48, 0x44, 0x43] := Shdc,
    [0x50, 0x41, 0x43, 0x20] := Pac,
    [0x50, 0x41, 0x43, 0x48] := Pach,
    MpqTag := Mpq
  ]

  /** What `load_file` returns or raises. */
  datatype Loaded = Loaded(format: Format, folders: seq<LoadedFolder>) | Failed(error: LoadError)

  /** `MPQ.load` of PACTool.py: after the magic test it evaluates
      `entries_parsed < file_count` before `file_count` is assigned. */
  function MpqLoad(file: seq<byte>): LoadError {
    if Read(file, 0, 3) != MpqTag then BadMagic else UnboundLocal
  }

  /** `PACTool.load_file`: the loader chosen by the first four bytes, run
      on a fresh instance.  EPAC, DPK8, HSPC, SHDC, PAC and PACH loaders
      only print, so they return no folders. */
  function LoadFile(file: seq<byte>): Loaded {
    var magic := Read(file, 0, 4);
    if magic !in HeaderMap then Failed(UnknownMagic)
    else match HeaderMap[magic]
      case Dpac =>
        var w := DpacLoad(file, []);
        if w.err.Some? then Failed(w.err.value) else Loaded(Dpac, w.folders)
      case Epk8 =>
        var w := Epk8Load(file, []);
        if w.err.Some? then Failed(w.err.value) else Loaded(Epk8, w.folders)
      case Mpq => Failed(MpqLoad(file))
      case other => Loaded(other, [])
  }

  /** The first four bytes are a prefix of length `min(4, |file|)`. */
  lemma TagOf(file: seq<byte>)
    ensures Read(file, 0, 4) == file[..Min(4, |file|)]
  {
  }

  /** The three-byte key "MPQ" matches only a file that is exactly those
      three bytes; any longer MPQ archive is an unknown tag. */
  lemma MpqKeyMatchesOnlyItself(file: seq<byte>)
    ensures Read(file, 0, 4) == MpqTag <==> file == MpqTag
  {
    TagOf(file);
    if Read(file, 0, 4) == MpqTag {
      assert |file| == 3;
    }
  }

  /** `load_file` raises `UnboundLocalError` exactly for the file "MPQ". */
  lemma LoadFileMpq(file: seq<byte>)
    ensures LoadFile(file) == Failed(UnboundLocal) <==> file == MpqTag
  {
    MpqKeyMatchesOnlyItself(file);
    var magic := Read(file, 0, 4);
    if file == MpqTag {
      assert magic in HeaderMap && HeaderMap[magic] == Mpq;
      assert Read(file, 0, 3) == MpqTag;
    } else if magic in HeaderMap && HeaderMap[magic] == Dpac {
      DpacLoadError(file);    } else if magic in HeaderMap && HeaderMap[magic] == Epk8 {
      Epk8LoadErrors(file, []);
    }
  }

  /** `DPAC.load` raises only `ValueError` for the magic or `struct.error`. */
  lemma DpacLoadError(file: seq<byte>)
    ensures DpacLoad(file, []).err in {None, Some(BadMagic), Some(StructError)}
  {
    if Read(file, 0, 4) == DpacMagic && |file| >= 16 {
      DpacWalkEnds(file, Walk(TocOffset, 0, [], None), U32LE(file, 4) / 8);
    }
  }

  /** A file whose first four bytes are no key of the map, in particular
      any file shorter than four bytes other than "MPQ", is rejected. */
  lemma UnknownTagRejected(file: seq<byte>)
    ensures LoadFile(file) == Failed(UnknownMagic) <==> Read(file, 0, 4) !in HeaderMap
  {
    var magic := Read(file, 0, 4);
    if magic in HeaderMap && HeaderMap[magic] == Dpac {
      DpacLoadError(file);    } else if magic in HeaderMap && HeaderMap[magic] == Epk8 {
      Epk8LoadErrors(file, []);
    }
  }
}
