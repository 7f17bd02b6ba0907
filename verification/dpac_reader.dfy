/** The reading half of DPAC/DPAC.py: `parse_header` and `parse_toc` of
    class `DPAC`, over the archive held as a byte string. */
module DpacReader {
  import opened Bytes
  import opened DpacFormat

  /** One entry of a folder's "files" list. */
  datatype TocFile = TocFile(name: string, pointer: nat, size: nat)

  /** One element of `self.toc`. */
  datatype TocFolder = TocFolder(name: string, fileCount: nat, pointer: nat, files: seq<TocFile>)

  /** Where the walk of `parse_toc` stands: reading folder headers, or inside
      the file loop of one folder (`left` iterations of `range(file_count)`
      remain, `current` is `current_pointer`). */
  datatype Phase =
    | Headers
    | Records(folder: TocFolder, numeric: bool, left: nat, current: nat)

  datatype Walk = Walk(pos: nat, listings: nat, toc: seq<TocFolder>, phase: Phase)

  /** How `parse_toc` ends: the folders it appended, its counters, and
      whether it raised `TOCParseError` (a short read). */
  datatype Walked = Walked(toc: seq<TocFolder>, listings: nat, pos: nat, failed: bool)

  /** A 4-byte name field: latin-1 text with trailing NULs removed. */
  function NameAt(file: seq<byte>, pos: nat): string
    requires pos + 4 <= |file|
  {
    RStrip(Latin1(file[pos..pos + 4]), IsNul)
  }

  /** `not folder_name.strip()`. */
  predicate IsBlankName(name: string) {
    Strip(name, IsSpace) == []
  }

  function HexValue(s: string): nat {
    if s == [] then 0 else 16 * HexValue(s[..|s| - 1]) + HexDigitValue(s[|s| - 1])
  }

  /** `file_id_raw[::-1].hex().upper()`: the two ID bytes reversed, as four
      upper-case hex digits, which spell the little-endian value. */
  function NumericId(file: seq<byte>, pos: nat): (id: string)
    requires pos + 2 <= |file|
    ensures |id| == 4 && HexValue(id) == U16LE(file, pos)
  {
    var id := HexByte(file[pos + 1]) + HexByte(file[pos]);
    HexValueOfFour(id);
    id
  }

  lemma HexValueOfFour(s: string)
    requires |s| == 4
    ensures HexValue(s) == 4096 * HexDigitValue(s[0]) + 256 * HexDigitValue(s[1])
                           + 16 * HexDigitValue(s[2]) + HexDigitValue(s[3])
  {
    var s3, s2, s1 := s[..3], s[..2], s[..1];
    assert s3[..2] == s2 && s2[..1] == s1 && s1[..0] == [];
    assert HexValue(s1) == HexDigitValue(s[0]);
    assert HexValue(s2) == 16 * HexValue(s1) + HexDigitValue(s[1]);
    assert HexValue(s3) == 16 * HexValue(s2) + HexDigitValue(s[2]);
  }

  /** A 4-byte numeric record: the ID, then the size in units of 256 bytes;
      its data follows the previous file's. */
  function NumericFile(file: seq<byte>, pos: nat, current: nat): TocFile
    requires pos + 4 <= |file|
  {
    TocFile(NumericId(file, pos), current, ResolveFileSize(U16LE(file, pos + 2)))
  }

  /** An 8-byte named record: the name, the raw pointer, the raw size. */
  function NamedFile(file: seq<byte>, pos: nat): TocFile
    requires pos + 8 <= |file|
  {
    TocFile(NameAt(file, pos), ResolvePointer(U16LE(file, pos + 4)), ResolveFileSize(U16LE(file, pos + 6)))
  }

  /** One step of `parse_toc`: either the next state of the walk, or how
      the walk ends. */
  datatype Step = Next(w: Walk) | Stop(r: Walked)

  function StepOf(file: seq<byte>, size: nat, limit: int, w: Walk): Step {
    match w.phase
    case Headers =>
      if !(w.pos < TocEnd && w.listings < limit) then Stop(Walked(w.toc, w.listings, w.pos, false))
      else if w.pos + 8 > |file| then Stop(Walked(w.toc, w.listings, w.pos, true))
      else
        var name := NameAt(file, w.pos);
        var field := U16LE(file, w.pos + 4);
        var raw := U16LE(file, w.pos + 6);
        if IsBlankName(name) && raw == 0 then
          Stop(Walked(w.toc, w.listings, w.pos + 8, false))
        else
          var p := ResolvePointer(raw);
          if p < DataOffset || p >= size then
            Next(w.(pos := w.pos + 8))
          else
            var n := FileCountOf(field);
            Next(w.(pos := w.pos + 8, phase := Records(TocFolder(name, n, p, []), IsNumericMode(field), n, p)))
    case Records(folder, numeric, left, current) =>
      if left == 0 || w.pos >= TocEnd || w.listings >= limit then
        Next(w.(toc := if folder.fileCount > 0 then w.toc + [folder] else w.toc, phase := Headers))
      else if numeric then
        if w.pos + 4 > |file| then Stop(Walked(w.toc, w.listings, w.pos, true))
        else
          var f := NumericFile(file, w.pos, current);
          Next(Walk(w.pos + 4, w.listings + 1, w.toc,
                    Records(folder.(files := folder.files + [f]), numeric, left - 1, current + f.size)))
      else
        if w.pos + 8 > |file| then Stop(Walked(w.toc, w.listings, w.pos, true))
        else
          var rawPointer := U16LE(file, w.pos + 4);
          var rawSize := U16LE(file, w.pos + 6);
          if rawPointer == 0 && rawSize == 0 then
            Next(w.(pos := w.pos + 8, phase := Records(folder, numeric, left - 1, current)))
          else
            var f := NamedFile(file, w.pos);
            Next(Walk(w.pos + 8, w.listings + 1, w.toc,
                      Records(folder.(files := folder.files + [f]), numeric, left - 1, current + f.size)))
  }

  /** Termination measure: every step either advances the cursor, which
      stays below `TocEnd + 8`, or leaves a file loop. */
  function Rank(w: Walk): nat {
    2 * (if w.pos <= TocEnd + 8 then TocEnd + 8 - w.pos else 0) + (if w.phase.Records? then 1 else 0)
  }

  lemma StepDecreasesIfNext(file: seq<byte>, size: nat, limit: int, w: Walk)
    ensures StepOf(file, size, limit, w).Next? ==> Rank(StepOf(file, size, limit, w).w) < Rank(w)
  {
  }

  /** The whole of `parse_toc` from state `w`, as a function of the archive
      bytes, `raw_file_size` and the listing limit. */
  function Run(file: seq<byte>, size: nat, limit: int, w: Walk): (r: Walked)
    decreases Rank(w), 1
  {
    StepDecreasesIfNext(file, size, limit, w);
    Finish(file, size, limit, StepOf(file, size, limit, w), Rank(w))
  }

  /** The rest of the walk after one step. */
  function Finish(file: seq<byte>, size: nat, limit: int, s: Step, bound: nat): Walked
    requires s.Next? ==> Rank(s.w) < bound
    decreases bound, 0
  {
    match s
    case Stop(r) => r
    case Next(w') => Run(file, size, limit, w')
  }

  lemma RunNext(file: seq<byte>, size: nat, limit: int, w: Walk, w': Walk)
    requires StepOf(file, size, limit, w) == Next(w')
    ensures Run(file, size, limit, w) == Run(file, size, limit, w')
  {
  }

  // One lemma per branch of `StepOf`, so that callers need not unfold it.

  lemma RunHeadersDone(file: seq<byte>, size: nat, limit: int, pos: nat, listings: nat, toc: seq<TocFolder>)
    requires !(pos < TocEnd && listings < limit)
    ensures Run(file, size, limit, Walk(pos, listings, toc, Headers)) == Walked(toc, listings, pos, false)
  {
  }

  lemma RunHeadersShort(file: seq<byte>, size: nat, limit: int, pos: nat, listings: nat, toc: seq<TocFolder>)
    requires pos < TocEnd && listings < limit && pos + 8 > |file|
    ensures Run(file, size, limit, Walk(pos, listings, toc, Headers)) == Walked(toc, listings, pos, true)
  {
  }

  lemma RunHeadersBlank(file: seq<byte>, size: nat, limit: int, pos: nat, listings: nat, toc: seq<TocFolder>)
    requires pos < TocEnd && listings < limit && pos + 8 <= |file|
    requires IsBlankName(NameAt(file, pos)) && U16LE(file, pos + 6) == 0
    ensures Run(file, size, limit, Walk(pos, listings, toc, Headers)) == Walked(toc, listings, pos + 8, false)
  {
  }

  lemma RunHeadersSkip(file: seq<byte>, size: nat, limit: int, pos: nat, listings: nat, toc: seq<TocFolder>)
    requires pos < TocEnd && listings < limit && pos + 8 <= |file|
    requires !(IsBlankName(NameAt(file, pos)) && U16LE(file, pos + 6) == 0)
    requires ResolvePointer(U16LE(file, pos + 6)) >= size
    ensures Run(file, size, limit, Walk(pos, listings, toc, Headers))
            == Run(file, size, limit, Walk(pos + 8, listings, toc, Headers))
  {
    RunNext(file, size, limit, Walk(pos, listings, toc, Headers), Walk(pos + 8, listings, toc, Headers));
  }

  lemma RunHeadersEnter(file: seq<byte>, size: nat, limit: int, pos: nat, listings: nat, toc: seq<TocFolder>)
    requires pos < TocEnd && listings < limit && pos + 8 <= |file|
    requires !(IsBlankName(NameAt(file, pos)) && U16LE(file, pos + 6) == 0)
    requires ResolvePointer(U16LE(file, pos + 6)) < size
    ensures var p := ResolvePointer(U16LE(file, pos + 6));
            var field := U16LE(file, pos + 4);
            Run(file, size, limit, Walk(pos, listings, toc, Headers))
            == Run(file, size, limit, Walk(pos + 8, listings, toc,
                     Records(TocFolder(NameAt(file, pos), FileCountOf(field), p, []), IsNumericMode(field), FileCountOf(field), p)))
  {
    var p := ResolvePointer(U16LE(file, pos + 6));
    var field := U16LE(file, pos + 4);
    RunNext(file, size, limit, Walk(pos, listings, toc, Headers),
            Walk(pos + 8, listings, toc,
                 Records(TocFolder(NameAt(file, pos), FileCountOf(field), p, []), IsNumericMode(field), FileCountOf(field), p)));
  }

  lemma RunRecordsClose(file: seq<byte>, size: nat, limit: int, pos: nat, listings: nat, toc: seq<TocFolder>,
                        folder: TocFolder, numeric: bool, left: nat, current: nat)
    requires left == 0 || pos >= TocEnd || listings >= limit
    ensures Run(file, size, limit, Walk(pos, listings, toc, Records(folder, numeric, left, current)))
            == Run(file, size, limit, Walk(pos, listings, if folder.fileCount > 0 then toc + [folder] else toc, Headers))
  {
    RunNext(file, size, limit, Walk(pos, listings, toc, Records(folder, numeric, left, current)),
            Walk(pos, listings, if folder.fileCount > 0 then toc + [folder] else toc, Headers));
  }

  lemma RunRecordsShort(file: seq<byte>, size: nat, limit: int, pos: nat, listings: nat, toc: seq<TocFolder>,
                        folder: TocFolder, numeric: bool, left: nat, current: nat)
    requires left > 0 && pos < TocEnd && listings < limit
    requires pos + (if numeric then 4 else 8) > |file|
    ensures Run(file, size, limit, Walk(pos, listings, toc, Records(folder, numeric, left, current)))
            == Walked(toc, listings, pos, true)
  {
  }

  lemma RunNumericRecord(file: seq<byte>, size: nat, limit: int, pos: nat, listings: nat, toc: seq<TocFolder>,
                         folder: TocFolder, left: nat, current: nat)
    requires left > 0 && pos < TocEnd && listings < limit && pos + 4 <= |file|
    ensures var f := NumericFile(file, pos, current);
            Run(file, size, limit, Walk(pos, listings, toc, Records(folder, true, left, current)))
            == Run(file, size, limit, Walk(pos + 4, listings + 1, toc,
                     Records(folder.(files := folder.files + [f]), true, left - 1, current + f.size)))
  {
    var f := NumericFile(file, pos, current);
    RunNext(file, size, limit, Walk(pos, listings, toc, Records(folder, true, left, current)),
            Walk(pos + 4, listings + 1, toc, Records(folder.(files := folder.files + [f]), true, left - 1, current + f.size)));
  }

  lemma RunNamedEmpty(file: seq<byte>, size: nat, limit: int, pos: nat, listings: nat, toc: seq<TocFolder>,
                      folder: TocFolder, left: nat, current: nat)
    requires left > 0 && pos < TocEnd && listings < limit && pos + 8 <= |file|
    requires U16LE(file, pos + 4) == 0 && U16LE(file, pos + 6) == 0
    ensures Run(file, size, limit, Walk(pos, listings, toc, Records(folder, false, left, current)))
            == Run(file, size, limit, Walk(pos + 8, listings, toc, Records(folder, false, left - 1, current)))
  {
    RunNext(file, size, limit, Walk(pos, listings, toc, Records(folder, false, left, current)),
            Walk(pos + 8, listings, toc, Records(folder, false, left - 1, current)));
  }

  lemma RunNamedRecord(file: seq<byte>, size: nat, limit: int, pos: nat, listings: nat, toc: seq<TocFolder>,
                       folder: TocFolder, left: nat, current: nat)
    requires left > 0 && pos < TocEnd && listings < limit && pos + 8 <= |file|
    requires !(U16LE(file, pos + 4) == 0 && U16LE(file, pos + 6) == 0)
    ensures var f := NamedFile(file, pos);
            Run(file, size, limit, Walk(pos, listings, toc, Records(folder, false, left, current)))
            == Run(file, size, limit, Walk(pos + 8, listings + 1, toc,
                     Records(folder.(files := folder.files + [f]), false, left - 1, current + f.size)))
  {
    var f := NamedFile(file, pos);
    RunNext(file, size, limit, Walk(pos, listings, toc, Records(folder, false, left, current)),
            Walk(pos + 8, listings + 1, toc, Records(folder.(files := folder.files + [f]), false, left - 1, current + f.size)));
  }

  function InitialWalk(): Walk { Walk(TocStart, 0, [], Headers) }

  /** The listing limit `parse_toc` computes from the header fields. */
  function TocLimit(tocCount: int, bigTocCount: int): int {
    if tocCount > 12 then bigTocCount else tocCount
  }

  // ---------------------------------------------------------------------
  // What every run of `parse_toc` guarantees

  /** Total size of a list of files. */
  function SizeSum(files: seq<TocFile>): nat {
    if files == [] then 0 else SizeSum(files[..|files| - 1]) + files[|files| - 1].size
  }

  /** Numeric-mode layout: the files lie back to back from `start`. */
  predicate Contiguous(start: nat, files: seq<TocFile>) {
    files == []
    || (Contiguous(start, files[..|files| - 1])
        && files[|files| - 1].pointer == start + SizeSum(files[..|files| - 1]))
  }

  /** Named-mode layout: every file starts on a sector boundary of the data region. */
  predicate Aligned(files: seq<TocFile>) {
    forall i :: 0 <= i < |files| ==> files[i].pointer >= DataOffset && (files[i].pointer - DataOffset) % Sector == 0
  }

  /** Sizes are whole 256-byte units and names at most four characters. */
  predicate WellFormedFiles(files: seq<TocFile>) {
    forall i :: 0 <= i < |files| ==> files[i].size % 256 == 0 && |files[i].name| <= 4
  }

  /** A folder as `parse_toc` appends it to `self.toc`. */
  predicate GoodFolder(f: TocFolder, size: nat) {
    0 < f.fileCount < 0x8000 && DataOffset <= f.pointer < size && |f.files| <= f.fileCount
    && (Contiguous(f.pointer, f.files) || Aligned(f.files)) && WellFormedFiles(f.files)
  }

  /** Number of files listed in a table of contents. */
  function FileTotal(toc: seq<TocFolder>): nat {
    if toc == [] then 0 else FileTotal(toc[..|toc| - 1]) + |toc[|toc| - 1].files|
  }

  /** The invariant of the walk: the cursor stays within one record of
      `toc_end`, the listing counter within the limit and equal to the
      number of files read, the appended folders are good, and the folder
      being read is on its way to being good. */
  predicate WalkInv(size: nat, limit: int, w: Walk) {
    w.pos < TocEnd + 8 && w.listings <= Max(limit, 0)
    && (forall i :: 0 <= i < |w.toc| ==> GoodFolder(w.toc[i], size))
    && match w.phase
       case Headers => w.listings == FileTotal(w.toc)
       case Records(folder, numeric, left, current) =>
         w.listings == FileTotal(w.toc) + |folder.files|
         && folder.fileCount < 0x8000 && DataOffset <= folder.pointer < size
         && |folder.files| + left <= folder.fileCount
         && (numeric ==> Contiguous(folder.pointer, folder.files) && current == folder.pointer + SizeSum(folder.files))
         && (!numeric ==> Aligned(folder.files))
         && WellFormedFiles(folder.files)
  }

  /** What the result of a walk satisfies. */
  predicate WalkedOk(size: nat, limit: int, r: Walked) {
    r.pos < TocEnd + 8 && r.listings <= Max(limit, 0)
    && (forall i :: 0 <= i < |r.toc| ==> GoodFolder(r.toc[i], size))
    && (if r.failed then r.listings >= FileTotal(r.toc) else r.listings == FileTotal(r.toc))
  }

  lemma AppendFolder(toc: seq<TocFolder>, f: TocFolder)
    ensures FileTotal(toc + [f]) == FileTotal(toc) + |f.files|
  {
    assert (toc + [f])[..|toc|] == toc;
  }

  lemma AppendFile(start: nat, files: seq<TocFile>, f: TocFile)
    requires Contiguous(start, files) && f.pointer == start + SizeSum(files)
    ensures Contiguous(start, files + [f]) && SizeSum(files + [f]) == SizeSum(files) + f.size
  {
    assert (files + [f])[..|files|] == files;
  }

  lemma HeadersStepKeepsInv(file: seq<byte>, size: nat, limit: int, w: Walk)
    requires w.phase.Headers? && WalkInv(size, limit, w)
    ensures match StepOf(file, size, limit, w)
            case Next(w') => WalkInv(size, limit, w')
            case Stop(r) => WalkedOk(size, limit, r)
  {
    if w.pos < TocEnd && w.listings < limit && w.pos + 8 <= |file| {
      CountFieldSplit(U16LE(file, w.pos + 4));
    }
  }

  lemma CloseStepKeepsInv(file: seq<byte>, size: nat, limit: int, w: Walk)
    requires w.phase.Records? && WalkInv(size, limit, w)
    requires w.phase.left == 0 || w.pos >= TocEnd || w.listings >= limit
    ensures StepOf(file, size, limit, w).Next? && WalkInv(size, limit, StepOf(file, size, limit, w).w)
  {
    if w.phase.folder.fileCount > 0 {
      AppendFolder(w.toc, w.phase.folder);
    }
  }

  lemma NumericStepKeepsInv(file: seq<byte>, size: nat, limit: int, w: Walk)
    requires w.phase.Records? && w.phase.numeric && WalkInv(size, limit, w)
    requires !(w.phase.left == 0 || w.pos >= TocEnd || w.listings >= limit) && w.pos + 4 <= |file|
    ensures StepOf(file, size, limit, w).Next? && WalkInv(size, limit, StepOf(file, size, limit, w).w)
  {
    var f := NumericFile(file, w.pos, w.phase.current);
    AppendFile(w.phase.folder.pointer, w.phase.folder.files, f);
  }

  lemma NamedStepKeepsInv(file: seq<byte>, size: nat, limit: int, w: Walk)
    requires w.phase.Records? && !w.phase.numeric && WalkInv(size, limit, w)
    requires !(w.phase.left == 0 || w.pos >= TocEnd || w.listings >= limit) && w.pos + 8 <= |file|
    ensures StepOf(file, size, limit, w).Next? && WalkInv(size, limit, StepOf(file, size, limit, w).w)
  {
    if !(U16LE(file, w.pos + 4) == 0 && U16LE(file, w.pos + 6) == 0) {
      var f := NamedFile(file, w.pos);
      assert (w.phase.folder.files + [f])[|w.phase.folder.files|] == f;
    }
  }

  lemma RecordsStepKeepsInv(file: seq<byte>, size: nat, limit: int, w: Walk)
    requires w.phase.Records? && WalkInv(size, limit, w)
    ensures match StepOf(file, size, limit, w)
            case Next(w') => WalkInv(size, limit, w')
            case Stop(r) => WalkedOk(size, limit, r)
  {
    if w.phase.left == 0 || w.pos >= TocEnd || w.listings >= limit {
      CloseStepKeepsInv(file, size, limit, w);
    } else if w.phase.numeric && w.pos + 4 <= |file| {
      NumericStepKeepsInv(file, size, limit, w);
    } else if !w.phase.numeric && w.pos + 8 <= |file| {
      NamedStepKeepsInv(file, size, limit, w);
    }
  }

  /** Every run from a state satisfying the invariant ends in a result
      satisfying `WalkedOk`. */
  lemma {:induction false} RunOk(file: seq<byte>, size: nat, limit: int, w: Walk)
    requires WalkInv(size, limit, w)
    ensures WalkedOk(size, limit, Run(file, size, limit, w))
    decreases Rank(w)
  {
    if w.phase.Headers? {
      HeadersStepKeepsInv(file, size, limit, w);
    } else {
      RecordsStepKeepsInv(file, size, limit, w);
    }
    match StepOf(file, size, limit, w)
    case Stop(r) =>
    case Next(w') =>
      StepDecreasesIfNext(file, size, limit, w);
      RunOk(file, size, limit, w');
  }

  /** One pass of the file loop of `parse_toc`: a record cut short fails
      the walk, an empty named record is skipped, any other is appended. */
  method ParseRecord(file: seq<byte>, size: nat, limit: int, ghost acc: seq<TocFolder>, ghost goal: Walked,
                     pos: nat, listings: nat, folder: TocFolder, numeric: bool, left: nat, current: nat)
    returns (failed: bool, pos': nat, listings': nat, folder': TocFolder, current': nat)
    requires left > 0 && pos < TocEnd && listings < limit
    requires Run(file, size, limit, Walk(pos, listings, acc, Records(folder, numeric, left, current))) == goal
    ensures folder'.fileCount == folder.fileCount
    ensures failed ==> pos' == pos && goal == Walked(acc, listings', pos', true)
    ensures !failed ==>
              pos < pos' <= pos + 8
              && Run(file, size, limit, Walk(pos', listings', acc, Records(folder', numeric, left - 1, current'))) == goal
  {
    pos', listings', folder', current' := pos, listings, folder, current;
    if pos + (if numeric then 4 else 8) > |file| {
      RunRecordsShort(file, size, limit, pos, listings, acc, folder, numeric, left, current);
      return true, pos', listings', folder', current';
    }
    failed := false;
    if numeric {
      RunNumericRecord(file, size, limit, pos, listings, acc, folder, left, current);
      var f := NumericFile(file, pos, current);
      folder' := folder.(files := folder.files + [f]);
      current' := current + f.size;
      listings' := listings + 1;
      pos' := pos + 4;
    } else if U16LE(file, pos + 4) == 0 && U16LE(file, pos + 6) == 0 {
      RunNamedEmpty(file, size, limit, pos, listings, acc, folder, left, current);
      pos' := pos + 8;
    } else {
      RunNamedRecord(file, size, limit, pos, listings, acc, folder, left, current);
      var f := NamedFile(file, pos);
      folder' := folder.(files := folder.files + [f]);
      current' := current + f.size;
      listings' := listings + 1;
      pos' := pos + 8;
    }
  }

  /** `parse_toc` never reads a record starting at or past `toc_end`, never
      counts beyond the listing limit, counts each appended file exactly
      once (folder headers and skipped records are not counted), and appends
      only folders with a positive file count and a pointer in
      `[0x4000, raw_file_size)`, whose files are laid out back to back
      (numeric mode) or on sector boundaries (named mode). */
  lemma ParseTocGuarantees(file: seq<byte>, size: nat, limit: int)
    ensures WalkedOk(size, limit, Run(file, size, limit, InitialWalk()))
  {
    RunOk(file, size, limit, InitialWalk());
  }

  method ParseFiles(file: seq<byte>, size: nat, limit: int, ghost acc: seq<TocFolder>, ghost goal: Walked,
                    pos0: nat, listings0: nat, folder0: TocFolder, numeric: bool, left0: nat, current0: nat)
    returns (failed: bool, pos: nat, listings: nat, folder: TocFolder, left: nat, current: nat)
    requires pos0 <= TocEnd + 8
    requires Run(file, size, limit, Walk(pos0, listings0, acc, Records(folder0, numeric, left0, current0))) == goal
    ensures pos0 <= pos <= TocEnd + 8
    ensures folder.fileCount == folder0.fileCount
    ensures failed ==> goal == Walked(acc, listings, pos, true)
    ensures !failed ==>
              (left == 0 || pos >= TocEnd || listings >= limit)
              && Run(file, size, limit, Walk(pos, listings, acc, Records(folder, numeric, left, current))) == goal
  {
    pos, listings, folder, left, current := pos0, listings0, folder0, left0, current0;
    while left > 0
      invariant pos0 <= pos <= TocEnd + 8
      invariant folder.fileCount == folder0.fileCount
      invariant Run(file, size, limit, Walk(pos, listings, acc, Records(folder, numeric, left, current))) == goal
      decreases left
    {
      if pos >= TocEnd || listings >= limit {
        return false, pos, listings, folder, left, current;
      }
      failed, pos, listings, folder, current := ParseRecord(file, size, limit, acc, goal, pos, listings, folder, numeric, left, current);
      if failed {
        return true, pos, listings, folder, left, current;
      }
      left := left - 1;
    }
    return false, pos, listings, folder, left, current;
  }

  /** The loop of `parse_toc` over the folder headers: the folders it
      appends, and whether it stops on a short read. */
  method ParseFolders(file: seq<byte>, size: nat, limit: int) returns (folders: seq<TocFolder>, failed: bool)
    ensures var r := Run(file, size, limit, InitialWalk());
            folders == r.toc && failed == r.failed
  {
    ghost var goal := Run(file, size, limit, InitialWalk());
    folders := [];
    var pos: nat := TocStart;
    var listings: nat := 0;
    while pos < TocEnd && listings < limit
      invariant pos <= TocEnd + 8
      invariant Run(file, size, limit, Walk(pos, listings, folders, Headers)) == goal
      decreases TocEnd + 8 - pos
    {
      var stop;
      stop, failed, pos, listings, folders := ParseFolder(file, size, limit, goal, pos, listings, folders);
      if stop {
        return folders, failed;
      }
    }
    RunHeadersDone(file, size, limit, pos, listings, folders);
    return folders, false;
  }

  /** One pass of the header loop of `parse_toc`: a short header fails
      the walk, a blank one stops it, one pointing outside the data is
      skipped, and any other folder is read with its files and appended
      when it has any. */
  method ParseFolder(file: seq<byte>, size: nat, limit: int, ghost goal: Walked,
                     pos: nat, listings: nat, folders: seq<TocFolder>)
    returns (stop: bool, failed: bool, pos': nat, listings': nat, folders': seq<TocFolder>)
    requires pos < TocEnd && listings < limit
    requires Run(file, size, limit, Walk(pos, listings, folders, Headers)) == goal
    ensures stop ==> folders' == goal.toc && failed == goal.failed
    ensures !stop ==>
              pos < pos' <= TocEnd + 8
              && Run(file, size, limit, Walk(pos', listings', folders', Headers)) == goal
  {
    pos', listings', folders', failed := pos, listings, folders, false;
    if pos + 8 > |file| {
      RunHeadersShort(file, size, limit, pos, listings, folders);
      return true, true, pos', listings', folders';
    }
    var name := NameAt(file, pos);
    var field := U16LE(file, pos + 4);
    var raw := U16LE(file, pos + 6);
    if IsBlankName(name) && raw == 0 {
      RunHeadersBlank(file, size, limit, pos, listings, folders);
      return true, false, pos', listings', folders';
    }
    stop := false;
    var folderPointer := ResolvePointer(raw);
    if folderPointer < DataOffset || folderPointer >= size {
      RunHeadersSkip(file, size, limit, pos, listings, folders);
      pos' := pos + 8;
      return;
    }
    RunHeadersEnter(file, size, limit, pos, listings, folders);
    var fileCount := FileCountOf(field);
    var short, left, current, folder;
    short, pos', listings', folder, left, current :=
      ParseFiles(file, size, limit, folders, goal, pos + 8, listings,
                 TocFolder(name, fileCount, folderPointer, []), IsNumericMode(field), fileCount, folderPointer);
    if short {
      return true, true, pos', listings', folders';
    }
    RunRecordsClose(file, size, limit, pos', listings', folders, folder, IsNumericMode(field), left, current);
    if folder.fileCount > 0 {
      folders' := folders + [folder];
    }
  }

  /** The header `parse_header` accepts: the magic, a packed count whose
      two derived counts pass its checks, and the size and sector fields. */
  predicate HeaderAccepted(file: seq<byte>) {
    |file| >= 16 && file[..4] == Magic && 8 <= U32LE(file, 4) < 0x40018
  }

  class Dpac {
    var tocCount: int
    var bigTocCount: int
    var rawFileSize: nat
    var sectorSize: nat
    var toc: seq<TocFolder>

    constructor ()
      ensures tocCount == 0 && bigTocCount == 0 && rawFileSize == 0 && sectorSize == 0 && toc == []
    {
      tocCount, bigTocCount, rawFileSize, sectorSize, toc := 0, 0, 0, 0, [];
    }

    /** `parse_header`: checks the magic, derives the two TOC counts from the
        packed field (storing them before validating them), then reads the
        declared size and the sector field. */
    method ParseHeader(file: seq<byte>) returns (err: Option<DpacError>)
      modifies this`tocCount, this`bigTocCount, this`rawFileSize, this`sectorSize
      ensures err == None <==> HeaderAccepted(file)
      ensures err != Some(TocParse)
      ensures |file| < 4 || file[..4] != Magic ==>
                err == Some(InvalidDpacFile) && unchanged(this)
      ensures |file| >= 4 && file[..4] == Magic && |file| < 8 ==>
                err == Some(ShortRead) && unchanged(this)
      ensures |file| >= 8 && file[..4] == Magic ==>
                tocCount == SmallTocCount(U32LE(file, 4)) && bigTocCount == BigTocCount(U32LE(file, 4))
      ensures |file| >= 8 && file[..4] == Magic && bigTocCount > 0xFFFF ==>
                err == Some(InvalidBigTocCount(bigTocCount))
                && rawFileSize == old(rawFileSize) && sectorSize == old(sectorSize)
      ensures |file| >= 8 && file[..4] == Magic && bigTocCount <= 0xFFFF && tocCount <= 0 ==>
                err == Some(ZeroTocCount)
                && rawFileSize == old(rawFileSize) && sectorSize == old(sectorSize)
      ensures |file| >= 8 && file[..4] == Magic && bigTocCount <= 0xFFFF && tocCount > 0 ==>
                (err == None <==> |file| >= 16) && (err != None ==> err == Some(ShortRead))
                && rawFileSize == (if |file| >= 12 then U32LE(file, 8) else old(rawFileSize))
                && sectorSize == (if |file| >= 16 then U32LE(file, 12) else old(sectorSize))
    {
      if |file| < 4 || file[..4] != Magic {
        return Some(InvalidDpacFile);
      }
      if |file| < 8 {
        return Some(ShortRead);
      }
      var packed := U32LE(file, 4);
      tocCount := SmallTocCount(packed);
      bigTocCount := BigTocCount(packed);
      HeaderCountAccepted(packed);
      if bigTocCount > 0xFFFF {
        return Some(InvalidBigTocCount(bigTocCount));
      }
      if tocCount <= 0 {
        return Some(ZeroTocCount);
      }
      if |file| < 12 {
        return Some(ShortRead);
      }
      rawFileSize := U32LE(file, 8);
      if |file| < 16 {
        return Some(ShortRead);
      }
      sectorSize := U32LE(file, 12);
      return None;
    }

    /** `parse_toc`: appends to `toc` exactly the folders of the walk `Run`,
        and fails (with everything appended so far kept) exactly when the
        walk hits a short read. */
    method ParseToc(file: seq<byte>) returns (err: Option<DpacError>)
      modifies this`toc
      ensures var r := Run(file, rawFileSize, TocLimit(tocCount, bigTocCount), InitialWalk());
              toc == old(toc) + r.toc && (err == None <==> !r.failed)
              && (err != None ==> err == Some(TocParse))
    {
      var folders, failed := ParseFolders(file, rawFileSize, TocLimit(tocCount, bigTocCount));
      toc := toc + folders;
      err := if failed then Some(TocParse) else None;
    }

    /** `load`: the header, then the table of contents.  A header error
        leaves the table untouched; a table error keeps the folders listed
        before it; the header fields are left as `parse_header` left them. */
    method Load(file: seq<byte>) returns (err: Option<DpacError>)
      modifies this`tocCount, this`bigTocCount, this`rawFileSize, this`sectorSize, this`toc
      ensures err == None <==>
                HeaderAccepted(file)
                && !Run(file, U32LE(file, 8), BigTocCount(U32LE(file, 4)), InitialWalk()).failed
      ensures HeaderAccepted(file) ==>
                toc == old(toc) + Run(file, U32LE(file, 8), BigTocCount(U32LE(file, 4)), InitialWalk()).toc
                && (err != None ==> err == Some(TocParse))
      ensures !HeaderAccepted(file) ==> toc == old(toc) && err != None && err != Some(TocParse)
      ensures |file| >= 8 && file[..4] == Magic ==>
                tocCount == SmallTocCount(U32LE(file, 4)) && bigTocCount == BigTocCount(U32LE(file, 4))
      ensures |file| < 8 || file[..4] != Magic ==>
                tocCount == old(tocCount) && bigTocCount == old(bigTocCount)
      ensures rawFileSize ==
                if |file| >= 12 && file[..4] == Magic && 8 <= U32LE(file, 4) < 0x40018
                then U32LE(file, 8) else old(rawFileSize)
      ensures sectorSize == if HeaderAccepted(file) then U32LE(file, 12) else old(sectorSize)
    {
      err := ParseHeader(file);
      if err == None {
        err := ParseToc(file);
      }
    }
  }
}
