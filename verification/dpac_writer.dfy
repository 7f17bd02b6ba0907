/** The writing half of DPAC/DPAC.py: `create_new_dpac` and its four steps
    `_write_header`, `_write_toc`, `_write_file_data` and `_finalize_file`,
    over an in-memory stream with Python's seek and write semantics.  Each
    step is specified by a function giving the bytes it writes and the
    exception it raises. */
module DpacWriter {
  import opened Bytes
  import opened DpacFormat

  /** One element of a folder's "files": `file_name` and `file_data`. */
  datatype InFile = InFile(name: string, data: seq<byte>)

  /** One element of `folder_structure`: `folder_name` and `files`. */
  datatype InFolder = InFolder(name: string, files: seq<InFile>)

  /** `name.ljust(4, "\x00")[:4]`. */
  function Pad4(s: string): (r: string)
    ensures |r| == 4
  {
    if |s| >= 4 then s[..4] else s + seq(4 - |s|, _ => '\0')
  }

  /** A padded name keeps the first four characters and fills the rest
      with NUL; a name of exactly four characters is unchanged. */
  lemma Pad4Spec(s: string)
    ensures |s| >= 4 ==> Pad4(s) == s[..4]
    ensures |s| < 4 ==> Pad4(s)[..|s|] == s && forall i :: |s| <= i < 4 ==> Pad4(s)[i] == '\0'
    ensures |s| == 4 ==> Pad4(s) == s
  {
  }

  /** `sum(len(folder["files"]) + 1 for folder in folder_structure)`. */
  function RecordCount(folders: seq<InFolder>): nat {
    if folders == [] then 0
    else RecordCount(folders[..|folders| - 1]) + |folders[|folders| - 1].files| + 1
  }

  /** Number of files over all folders (`toc_entries`). */
  function FileCount(folders: seq<InFolder>): nat {
    if folders == [] then 0
    else FileCount(folders[..|folders| - 1]) + |folders[|folders| - 1].files|
  }

  // ---------------------------------------------------------------------
  // The stream

  /** A file opened with mode "wb": its bytes and its position. */
  class Stream {
    var bytes: seq<byte>
    var pos: nat

    constructor ()
      ensures bytes == [] && pos == 0
    {
      bytes, pos := [], 0;
    }

    /** `f.seek(p)`. */
    method Seek(p: nat)
      modifies this`pos
      ensures pos == p
    {
      pos := p;
    }

    /** `f.write(x)`. */
    method Write(x: seq<byte>)
      modifies this`bytes, this`pos
      ensures bytes == Overwrite(old(bytes), old(pos), x) && pos == old(pos) + |x|
    {
      bytes, pos := Overwrite(bytes, pos, x), pos + |x|;
    }
  }

  /** Bytes written so far, and the exception that stopped the writer. */
  datatype Written = Written(bytes: seq<byte>, err: Option<DpacError>)

  /** Two consecutive stretches of writing: the second happens only when
      the first raised nothing. */
  function Then(a: Written, b: Written): Written {
    if a.err.Some? then a else Written(a.bytes + b.bytes, b.err)
  }

  // ---------------------------------------------------------------------
  // Step 1: `_write_header`

  /** The header once complete: magic, `toc_count << 3`, the size (0 until
      `_finalize_file`) and the sector field 7. */
  function HeaderBytes(records: nat, total: nat): seq<byte>
    requires 8 * records < 0x1_0000_0000 && total < 0x1_0000_0000
  {
    Magic + EncodeU32LE(8 * records) + (EncodeU32LE(total) + EncodeU32LE(7))
  }

  /** What `_write_header` writes: the magic, then `struct.error` when the
      packed count does not fit 32 bits, else the rest of the header. */
  function HeaderWritten(folders: seq<InFolder>): (w: Written)
    ensures w.err == None <==> 8 * RecordCount(folders) < 0x1_0000_0000
    ensures w.err != None ==> w == Written(Magic, Some(FieldOverflow))
  {
    var r := RecordCount(folders);
    if 8 * r >= 0x1_0000_0000 then Written(Magic, Some(FieldOverflow))
    else Written(HeaderBytes(r, 0), None)
  }

  /** A header written without error reads back as magic, the packed count,
      a zero size and the sector field 7. */
  lemma HeaderFields(folders: seq<InFolder>)
    requires HeaderWritten(folders).err == None
    ensures var w := HeaderWritten(folders).bytes;
            |w| == 16 && w[..4] == Magic && U32LE(w, 4) == 8 * RecordCount(folders)
            && U32LE(w, 8) == 0 && U32LE(w, 12) == 7
  {
    var r := RecordCount(folders);
    var h := HeaderBytes(r, 0);
    assert h[4..8] == EncodeU32LE(8 * r) && h[8..12] == EncodeU32LE(0) && h[12..16] == EncodeU32LE(7);
    U32LESlice(h, 4);
    U32LESlice(h, 8);
    U32LESlice(h, 12);
  }

  lemma U32LESlice(s: seq<byte>, at: nat)
    requires at + 4 <= |s|
    ensures U32LE(s, at) == U32LE(s[at..at + 4], 0)
  {
  }

  method WriteHeader(s: Stream, folders: seq<InFolder>) returns (err: Option<DpacError>)
    modifies s
    ensures s.bytes == Overwrite(old(s.bytes), old(s.pos), HeaderWritten(folders).bytes) && s.pos == old(s.pos) + |HeaderWritten(folders).bytes|
            && err == HeaderWritten(folders).err
  {
    ghost var b0, p0, w := s.bytes, s.pos, HeaderWritten(folders);
    s.Write(Magic);
    var records := RecordCount(folders);
    var packed := Pack32(8 * records);
    if packed == None {
      assert HeaderWritten(folders).bytes == Magic;
      return Some(FieldOverflow);
    }
    var count := packed.value;
    assert count == EncodeU32LE(8 * records);
    s.Write(count);
    OverwriteAdjacent(b0, p0, Magic, count);
    ghost var done := Magic + count;
    WriteHeaderTail(s);
    OverwriteAdjacent(b0, p0, done, EncodeU32LE(0) + EncodeU32LE(7));
    return None;
  }

  /** The size placeholder 0 and the sector field 7. */
  method WriteHeaderTail(s: Stream)
    modifies s
    ensures s.bytes == Overwrite(old(s.bytes), old(s.pos), EncodeU32LE(0) + EncodeU32LE(7))
    ensures s.pos == old(s.pos) + 8
  {
    ghost var b0, p0 := s.bytes, s.pos;
    var size, sector := EncodeU32LE(0), EncodeU32LE(7);
    s.Write(size);
    s.Write(sector);
    OverwriteAdjacent(b0, p0, size, sector);
  }

  // ---------------------------------------------------------------------
  // Step 2: `_write_toc`

  /** The latin-1 bytes of a padded name. */
  function NameBytes(name: string): (r: Option<seq<byte>>)
    ensures r.Some? ==> |r.value| == 4
  {
    EncodeLatin1(Pad4(name))
  }

  /** A folder's 8-byte entry: name, `len(files) << 1` and a zero pointer.
      Encoding the name raises before anything is written; packing a count
      above 0xFFFF raises after the name. */
  function FolderHeaderWritten(f: InFolder): (w: Written)
    ensures w.err == None ==> |w.bytes| == 8
  {
    match NameBytes(f.name)
    case None => Written([], Some(NameNotLatin1))
    case Some(nb) =>
      if 2 * |f.files| >= 0x1_0000 then Written(nb, Some(FieldOverflow))
      else Written(nb + EncodeU16LE(2 * |f.files|) + EncodeU16LE(0), None)
  }

  /** A file's 8-byte record: name, a zero pointer placeholder and
      `len(file_data) >> 8`. */
  function FileRecordWritten(f: InFile): (w: Written)
    ensures w.err == None ==> |w.bytes| == 8
  {
    match NameBytes(f.name)
    case None => Written([], Some(NameNotLatin1))
    case Some(nb) =>
      if |f.data| / 256 >= 0x1_0000 then Written(nb + EncodeU16LE(0), Some(FieldOverflow))
      else Written(nb + EncodeU16LE(0) + EncodeU16LE(|f.data| / 256), None)
  }

  /** The records from `k` on, written after `acc`; nothing more is written
      once a record has raised. */
  function RecordsFrom(files: seq<InFile>, k: nat, acc: Written): Written
    requires k <= |files|
    decreases |files| - k, 1
  {
    if k == |files| || acc.err.Some? then acc
    else RecordsThen(files, k, Then(acc, FileRecordWritten(files[k])))
  }

  /** The records after record `k`, following `acc`. */
  function RecordsThen(files: seq<InFile>, k: nat, acc: Written): Written
    requires k < |files|
    decreases |files| - k, 0
  {
    RecordsFrom(files, k + 1, acc)
  }

  /** The file records of one folder, in order. */
  function FileRecordsWritten(files: seq<InFile>): Written {
    RecordsFrom(files, 0, Written([], None))
  }

  function FolderEntryWritten(f: InFolder): Written {
    Then(FolderHeaderWritten(f), FileRecordsWritten(f.files))
  }

  /** The pointer fields of `n` consecutive file records from `start` on. */
  function PointerFields(start: nat, n: nat): (r: seq<nat>)
    ensures |r| == n
  {
    if n == 0 then [] else PointerFields(start, n - 1) + [start + 8 * (n - 1) + 4]
  }

  lemma {:induction false} PointerFieldsIndex(start: nat, n: nat, i: nat)
    requires i < n
    ensures PointerFields(start, n)[i] == start + 8 * i + 4
  {
    if i < n - 1 {
      PointerFieldsIndex(start, n - 1, i);
    }
  }

  /** The `folder_pointers` key of a folder: its padded name with
      whitespace stripped (NUL is not whitespace to Python). */
  function FolderKey(f: InFolder): string {
    Strip(Pad4(f.name), IsSpace)
  }

  /** What `_write_toc` has produced after some folders: the bytes written
      from 0x800 on, `folder_pointers`, the `pointer_location` of every file
      and `toc_entries`. */
  datatype TocState = TocState(out: Written, keys: map<string, nat>, locs: seq<seq<nat>>, entries: nat)

  /** The state after folder `f`: its entry appended to the output and,
      when the entry raised nothing, its `folder_pointers` key, the pointer
      locations of its files and its file count recorded. */
  function TocNext(f: InFolder, st: TocState): TocState {
    var at := TocStart + |st.out.bytes|;
    var out := Then(st.out, FolderEntryWritten(f));
    if out.err.Some? then st.(out := out)
    else TocState(out, st.keys[FolderKey(f) := at + 6],
                  st.locs + [PointerFields(at + 8, |f.files|)], st.entries + |f.files|)
  }

  /** The folders from `j` on; nothing more is written once an entry has
      raised. */
  function TocFrom(folders: seq<InFolder>, j: nat, st: TocState): TocState
    requires j <= |folders|
    decreases |folders| - j, 1
  {
    if j == |folders| || st.out.err.Some? then st
    else TocThen(folders, j, TocNext(folders[j], st))
  }

  /** The folders after folder `j`, from the state that follows it. */
  function TocThen(folders: seq<InFolder>, j: nat, st: TocState): TocState
    requires j < |folders|
    decreases |folders| - j, 0
  {
    TocFrom(folders, j + 1, st)
  }

  /** Everything `_write_toc` does, starting from an empty dictionary. */
  function TocWritten(folders: seq<InFolder>): TocState {
    TocFrom(folders, 0, TocState(Written([], None), map[], [], 0))
  }

  /** Offset of folder `j`'s entry: one 8-byte record per earlier folder
      and per earlier file. */
  function EntryStart(folders: seq<InFolder>, j: nat): nat
    requires j <= |folders|
  {
    TocStart + 8 * RecordCount(folders[..j])
  }

  lemma {:induction false} RecordsFromLength(files: seq<InFile>, k: nat, acc: Written)
    requires k <= |files| && RecordsFrom(files, k, acc).err == None
    ensures |RecordsFrom(files, k, acc).bytes| == |acc.bytes| + 8 * (|files| - k)
    decreases |files| - k
  {
    if k < |files| {
      RecordsFromLength(files, k + 1, Then(acc, FileRecordWritten(files[k])));
    }
  }

  lemma FileRecordsLength(files: seq<InFile>)
    requires FileRecordsWritten(files).err == None
    ensures |FileRecordsWritten(files).bytes| == 8 * |files|
  {
    RecordsFromLength(files, 0, Written([], None));
  }

  /** `_write_toc` after the first `j` folders, none of which raised:
      8 bytes per record, `toc_entries` counting files, one pointer
      location per file record and the key of each folder pointing 6
      bytes into its entry. */
  predicate TocSoFar(folders: seq<InFolder>, j: nat, st: TocState)
    requires j <= |folders|
  {
    && st.out.err == None
    && |st.out.bytes| == 8 * RecordCount(folders[..j])
    && st.entries == FileCount(folders[..j])
    && LocsSoFar(folders, j, st.locs)
    && KeysSoFar(folders, j, st.keys)
  }

  predicate LocsSoFar(folders: seq<InFolder>, j: nat, locs: seq<seq<nat>>)
    requires j <= |folders|
  {
    |locs| == j && forall i {:trigger locs[i]} :: 0 <= i < j ==> locs[i] == PointerFields(EntryStart(folders, i) + 8, |folders[i].files|)
  }

  /** No folder after `i` and before `j` shares folder `i`'s key, so among
      the first `j` its entry in `folder_pointers` is the one kept. */
  predicate LastBefore(folders: seq<InFolder>, i: nat, j: nat)
    requires i < j <= |folders|
  {
    forall i' {:trigger FolderKey(folders[i'])} :: i < i' < j ==> FolderKey(folders[i']) != FolderKey(folders[i])
  }

  predicate KeysSoFar(folders: seq<InFolder>, j: nat, keys: map<string, nat>)
    requires j <= |folders|
  {
    forall i {:trigger FolderKey(folders[i])} :: 0 <= i < j && LastBefore(folders, i, j)
                ==> FolderKey(folders[i]) in keys && keys[FolderKey(folders[i])] == EntryStart(folders, i) + 6
  }

  lemma EntryStartNext(folders: seq<InFolder>, j: nat)
    requires j < |folders|
    ensures EntryStart(folders, j + 1) == EntryStart(folders, j) + 8 * (|folders[j].files| + 1)
    ensures RecordCount(folders[..j + 1]) == RecordCount(folders[..j]) + |folders[j].files| + 1
    ensures FileCount(folders[..j + 1]) == FileCount(folders[..j]) + |folders[j].files|
  {
    assert folders[..j + 1][..j] == folders[..j];
  }

  /** A folder entry that raised nothing is 8 bytes plus 8 per file. */
  lemma FolderEntryLength(f: InFolder)
    requires FolderEntryWritten(f).err == None
    ensures |FolderEntryWritten(f).bytes| == 8 * (|f.files| + 1)
  {
    FileRecordsLength(f.files);
  }

  lemma KeysNext(folders: seq<InFolder>, j: nat, keys: map<string, nat>)
    requires j < |folders| && KeysSoFar(folders, j, keys)
    ensures KeysSoFar(folders, j + 1, keys[FolderKey(folders[j]) := EntryStart(folders, j) + 6])
  {
    var keys' := keys[FolderKey(folders[j]) := EntryStart(folders, j) + 6];
    forall i | 0 <= i < j + 1 && LastBefore(folders, i, j + 1)
      ensures FolderKey(folders[i]) in keys' && keys'[FolderKey(folders[i])] == EntryStart(folders, i) + 6
    {
      if i < j {
        assert FolderKey(folders[j]) != FolderKey(folders[i]);
        assert LastBefore(folders, i, j);
      }
    }
  }

  lemma LocsNext(folders: seq<InFolder>, j: nat, locs: seq<seq<nat>>)
    requires j < |folders| && LocsSoFar(folders, j, locs)
    ensures LocsSoFar(folders, j + 1, locs + [PointerFields(EntryStart(folders, j) + 8, |folders[j].files|)])
  {
  }

  lemma TocNextSoFar(folders: seq<InFolder>, j: nat, st: TocState)
    requires j < |folders| && TocSoFar(folders, j, st) && TocNext(folders[j], st).out.err == None
    ensures TocSoFar(folders, j + 1, TocNext(folders[j], st))
  {
    var f := folders[j];
    var at := EntryStart(folders, j);
    var entry := FolderEntryWritten(f);
    FolderEntryLength(f);
    EntryStartNext(folders, j);
    assert TocStart + |st.out.bytes| == at;
    var keys := st.keys[FolderKey(f) := at + 6];
    var locs := st.locs + [PointerFields(at + 8, |f.files|)];
    assert TocNext(f, st) == TocState(Written(st.out.bytes + entry.bytes, None), keys, locs, st.entries + |f.files|);
    KeysNext(folders, j, st.keys);
    LocsNext(folders, j, st.locs);
    assert |st.out.bytes + entry.bytes| == 8 * RecordCount(folders[..j + 1]);
  }

  /** Nothing more is written once an entry has raised. */
  lemma TocFromStops(folders: seq<InFolder>, j: nat, st: TocState)
    requires j <= |folders|
    ensures st.out.err.Some? ==> TocFrom(folders, j, st) == st
  {
  }

  lemma {:induction false} TocFromSoFar(folders: seq<InFolder>, j: nat, st: TocState)
    requires j <= |folders| && TocSoFar(folders, j, st) && TocFrom(folders, j, st).out.err == None
    ensures TocSoFar(folders, |folders|, TocFrom(folders, j, st))
    decreases |folders| - j
  {
    if j < |folders| {
      var st' := TocNext(folders[j], st);
      TocFromStops(folders, j + 1, st');
      TocNextSoFar(folders, j, st);
      TocFromSoFar(folders, j + 1, st');
    }
  }

  /** The table of contents `_write_toc` writes when nothing raises: one
      8-byte record per folder and per file, `toc_entries` counting only
      files, each file's `pointer_location` at offset 4 of its record and
      each folder's `folder_pointers` entry 6 bytes into its own entry
      (the last folder with a given key wins). */
  lemma TocLayout(folders: seq<InFolder>)
    requires TocWritten(folders).out.err == None
    ensures var t := TocWritten(folders);
            && |t.out.bytes| == 8 * RecordCount(folders)
            && t.entries == FileCount(folders)
            && |t.locs| == |folders|
            && (forall j {:trigger t.locs[j]} :: 0 <= j < |folders| ==> t.locs[j] == PointerFields(EntryStart(folders, j) + 8, |folders[j].files|))
            && (forall j {:trigger FolderKey(folders[j])} :: 0 <= j < |folders| && LastBefore(folders, j, |folders|)
                  ==> FolderKey(folders[j]) in t.keys && t.keys[FolderKey(folders[j])] == EntryStart(folders, j) + 6)
  {
    var st := TocState(Written([], None), map[], [], 0);
    assert folders[..0] == [];
    TocFromSoFar(folders, 0, st);
    assert folders[..|folders|] == folders;
  }

  /** The folder back-patch of `_write_file_data` seeks to the
      `folder_pointers` entry plus 6: for a folder with files that is its
      first file's pointer field, 12 bytes into the folder's entry, while
      the folder's own pointer field (6 bytes in) is never the target. */
  lemma BackPatchTarget(folders: seq<InFolder>, j: nat)
    requires TocWritten(folders).out.err == None
    requires j < |folders| && LastBefore(folders, j, |folders|) && |folders[j].files| > 0
    ensures var t := TocWritten(folders);
            && FolderKey(folders[j]) in t.keys && |t.locs| == |folders| && |t.locs[j]| == |folders[j].files|
            && t.keys[FolderKey(folders[j])] == EntryStart(folders, j) + 6
            && t.locs[j][0] == EntryStart(folders, j) + 12
  {
    var t := TocWritten(folders);
    var start := EntryStart(folders, j);
    TocLayout(folders);
    assert t.locs[j] == PointerFields(start + 8, |folders[j].files|);
    PointerFieldsIndex(start + 8, |folders[j].files|, 0);
  }

  /** A folder entry holds the padded name, `len(files) << 1` and a zero
      pointer; a file record holds the padded name, a zero pointer and
      `len(file_data) >> 8`. */
  lemma RecordFields(f: InFolder, g: InFile)
    ensures var w := FolderHeaderWritten(f);
            w.err == None ==> && Some(w.bytes[..4]) == EncodeLatin1(Pad4(f.name))
                              && U16LE(w.bytes, 4) == 2 * |f.files| && U16LE(w.bytes, 6) == 0
    ensures var w := FileRecordWritten(g);
            w.err == None ==> && Some(w.bytes[..4]) == EncodeLatin1(Pad4(g.name))
                              && U16LE(w.bytes, 4) == 0 && U16LE(w.bytes, 6) == |g.data| / 256
  {
    var w := FolderHeaderWritten(f);
    if w.err == None {
      var nb := NameBytes(f.name).value;
      assert w.bytes[..4] == nb;
      assert w.bytes[4..6] == EncodeU16LE(2 * |f.files|) && w.bytes[6..8] == EncodeU16LE(0);
    }
    var v := FileRecordWritten(g);
    if v.err == None {
      var nb := NameBytes(g.name).value;
      assert v.bytes[..4] == nb;
      assert v.bytes[4..6] == EncodeU16LE(0) && v.bytes[6..8] == EncodeU16LE(|g.data| / 256);
    }
  }

  /** The reader masks the count field with 0x7FFF and never halves it:
      a folder of `n` files written this way is read back as `2n` files,
      and from 16384 files on as a numeric-mode folder. */
  lemma CountFieldAsRead(n: nat)
    requires 2 * n < 0x1_0000
    ensures FileCountOf(2 * n) == 2 * n % 0x8000
    ensures IsNumericMode(2 * n) <==> n >= 0x4000
  {
  }

  /** One more record keeps the pointer fields in step with the records. */
  lemma RecordStep(p0: nat, k: nat, done: seq<byte>, rec: seq<byte>, locs: seq<nat>, loc: nat)
    requires |done| == 8 * k && |rec| == 8 && locs == PointerFields(p0, k) && loc == p0 + |done| + 4
    ensures |done + rec| == 8 * (k + 1) && locs + [loc] == PointerFields(p0, k + 1)
  {
  }

  method WriteFileRecord(s: Stream, f: InFile) returns (loc: nat, err: Option<DpacError>)
    modifies s
    ensures s.bytes == Overwrite(old(s.bytes), old(s.pos), FileRecordWritten(f).bytes) && s.pos == old(s.pos) + |FileRecordWritten(f).bytes|
            && err == FileRecordWritten(f).err
    ensures err == None ==> loc == old(s.pos) + 4
  {
    ghost var b0, p0, w := s.bytes, s.pos, FileRecordWritten(f);
    var name := NameBytes(f.name);
    if name == None {
      return 0, Some(NameNotLatin1);
    }
    s.Write(name.value);
    loc := s.pos;
    var pointer := EncodeU16LE(0);
    s.Write(pointer);
    OverwriteAdjacent(b0, p0, name.value, pointer);
    var size := Pack16(|f.data| / 256);
    if size == None {
      return loc, Some(FieldOverflow);
    }
    s.Write(size.value);
    OverwriteAdjacent(b0, p0, name.value + pointer, size.value);
    assert name.value + pointer + size.value == w.bytes;
    return loc, None;
  }

  method WriteFolderHeader(s: Stream, f: InFolder) returns (keyLoc: nat, err: Option<DpacError>)
    modifies s
    ensures s.bytes == Overwrite(old(s.bytes), old(s.pos), FolderHeaderWritten(f).bytes) && s.pos == old(s.pos) + |FolderHeaderWritten(f).bytes|
            && err == FolderHeaderWritten(f).err
    ensures err == None ==> keyLoc == old(s.pos) + 6
  {
    ghost var b0, p0, w := s.bytes, s.pos, FolderHeaderWritten(f);
    var name := NameBytes(f.name);
    if name == None {
      return 0, Some(NameNotLatin1);
    }
    s.Write(name.value);
    var count := Pack16(2 * |f.files|);
    if count == None {
      return 0, Some(FieldOverflow);
    }
    s.Write(count.value);
    OverwriteAdjacent(b0, p0, name.value, count.value);
    keyLoc := s.pos;
    var pointer := EncodeU16LE(0);
    s.Write(pointer);
    OverwriteAdjacent(b0, p0, name.value + count.value, pointer);
    assert name.value + count.value + pointer == w.bytes;
    return keyLoc, None;
  }

  /** The file loop of `_write_toc` for one folder. */
  method WriteFileRecords(s: Stream, files: seq<InFile>) returns (locs: seq<nat>, err: Option<DpacError>)
    modifies s
    ensures s.bytes == Overwrite(old(s.bytes), old(s.pos), FileRecordsWritten(files).bytes) && s.pos == old(s.pos) + |FileRecordsWritten(files).bytes|
            && err == FileRecordsWritten(files).err
    ensures err == None ==> locs == PointerFields(old(s.pos), |files|)
  {
    ghost var b0, p0, goal := s.bytes, s.pos, FileRecordsWritten(files);
    ghost var done: seq<byte> := [];
    locs, err := [], None;
    var k := 0;
    while k < |files| && err == None
      invariant k <= |files|
      invariant RecordsFrom(files, k, Written(done, err)) == goal
      invariant s.bytes == Overwrite(b0, p0, done) && s.pos == p0 + |done|
      invariant err == None ==> |done| == 8 * k && locs == PointerFields(p0, k)
    {
      ghost var rec := FileRecordWritten(files[k]);
      var loc;
      loc, err := WriteFileRecord(s, files[k]);
      OverwriteAdjacent(b0, p0, done, rec.bytes);
      if err == None {
        RecordStep(p0, k, done, rec.bytes, locs, loc);
      }
      done := done + rec.bytes;
      locs := locs + [loc];
      k := k + 1;
    }
  }

  method WriteFolderEntry(s: Stream, f: InFolder) returns (keyLoc: nat, locs: seq<nat>, err: Option<DpacError>)
    modifies s
    ensures s.bytes == Overwrite(old(s.bytes), old(s.pos), FolderEntryWritten(f).bytes) && s.pos == old(s.pos) + |FolderEntryWritten(f).bytes|
            && err == FolderEntryWritten(f).err
    ensures err == None ==> keyLoc == old(s.pos) + 6 && locs == PointerFields(old(s.pos) + 8, |f.files|)
  {
    ghost var b0, p0 := s.bytes, s.pos;
    keyLoc, err := WriteFolderHeader(s, f);
    locs := [];
    if err != None {
      return;
    }
    ghost var head := FolderHeaderWritten(f).bytes;
    locs, err := WriteFileRecords(s, f.files);
    OverwriteAdjacent(b0, p0, head, FileRecordsWritten(f.files).bytes);
  }

  method WriteToc(s: Stream, folders: seq<InFolder>)
    returns (entries: nat, keys: map<string, nat>, locs: seq<seq<nat>>, err: Option<DpacError>)
    modifies s
    ensures s.bytes == Overwrite(old(s.bytes), TocStart, TocWritten(folders).out.bytes)
    ensures s.pos == TocStart + |TocWritten(folders).out.bytes|
    ensures err == TocWritten(folders).out.err
    ensures err == None ==> entries == TocWritten(folders).entries && keys == TocWritten(folders).keys
                            && locs == TocWritten(folders).locs
  {
    ghost var b0, goal := s.bytes, TocWritten(folders);
    s.Seek(TocStart);
    ghost var done: seq<byte> := [];
    entries, keys, locs, err := 0, map[], [], None;
    var j := 0;
    while j < |folders| && err == None
      invariant j <= |folders|
      invariant TocFrom(folders, j, TocState(Written(done, err), keys, locs, entries)) == goal
      invariant s.bytes == Overwrite(b0, TocStart, done) && s.pos == TocStart + |done|
    {
      var f := folders[j];
      ghost var st := TocState(Written(done, err), keys, locs, entries);
      ghost var entry := FolderEntryWritten(f);
      var keyLoc, fileLocs, e := WriteFolderEntry(s, f);
      OverwriteAdjacent(b0, TocStart, done, entry.bytes);
      done := done + entry.bytes;
      err := e;
      if err == None {
        keys := keys[FolderKey(f) := keyLoc];
        locs := locs + [fileLocs];
        entries := entries + |f.files|;
      }
      assert TocNext(f, st) == TocState(Written(done, err), keys, locs, entries);
      j := j + 1;
    }
  }

  // ---------------------------------------------------------------------
  // Step 3: `_write_file_data`

  /** A value that `struct.pack("<H", ...)` accepts. */
  type U16 = n: nat | n < 0x1_0000

  /** Progress of `_write_file_data`: the writes so far, the stream
      position, `current_pointer`, `total_written_size`, the current
      folder's `folder_first_file_pointer` and the exception raised. */
  datatype DataState = DataState(image: seq<byte>, pos: nat, current: nat, total: nat,
                                 first: Option<U16>, err: Option<DpacError>)

  /** Bytes of zero padding after a payload ending at `end`. */
  function Padding(end: nat): (pad: nat)
    ensures pad < Sector && (end + pad) % Sector == 0
  {
    (Sector - end % Sector) % Sector
  }

  /** The pointer patch of a file whose payload ends at `end`: the raw
      pointer is written at `loc`, the stream moves to `end` and the folder's
      first pointer is remembered. */
  function Patched(st: DataState, loc: nat, raw: U16, end: nat): DataState {
    st.(image := Overwrite(st.image, loc, EncodeU16LE(raw)), pos := end, current := end,
        first := if st.first.None? then Some(raw) else st.first)
  }

  /** Zero padding from `current_pointer` up to the next sector boundary. */
  function Padded(st: DataState): DataState {
    var pad := Padding(st.current);
    if pad == 0 then st
    else st.(image := Overwrite(st.image, st.current, Zeros(pad)), pos := st.current + pad,
             current := st.current + pad, total := st.total + pad)
  }

  /** One file: its payload written where the stream stands, its raw
      pointer computed from `current_pointer` and patched into the TOC,
      then the stream moved past the payload and padded to a sector. */
  function FileNext(data: seq<byte>, loc: nat, st: DataState): DataState {
    var written := st.(image := Overwrite(st.image, st.pos, data), pos := st.pos + |data|, total := st.total + |data|);
    if st.current < DataOffset then written.(err := Some(PointerBelowData(st.current)))
    else if (st.current - DataOffset) / Sector > 0xFFFF then
      written.(err := Some(PointerOutOfRange((st.current - DataOffset) / Sector)))
    else Padded(Patched(written, loc, (st.current - DataOffset) / Sector, st.current + |data|))
  }

  /** The files of one folder from `k` on. */
  function FilesFrom(files: seq<InFile>, locs: seq<nat>, k: nat, st: DataState): DataState
    requires k <= |files| == |locs|
    decreases |files| - k, 1
  {
    if k == |files| || st.err.Some? then st
    else FilesThen(files, locs, k, FileNext(files[k].data, locs[k], st))
  }

  function FilesThen(files: seq<InFile>, locs: seq<nat>, k: nat, st: DataState): DataState
    requires k < |files| == |locs|
    decreases |files| - k, 0
  {
    FilesFrom(files, locs, k + 1, st)
  }

  /** After a folder's files: when one was written, the first file's raw
      pointer is written 6 bytes past the folder's `folder_pointers` entry,
      looked up by the folder's own name.  The stream is then left just past
      that write (`seekBack == false`, the code as written) or returned to
      `current_pointer` (`seekBack == true`). */
  function FolderClose(name: string, keys: map<string, nat>, seekBack: bool, st: DataState): DataState {
    if st.err.Some? || st.first.None? then st
    else if name !in keys then st.(err := Some(MissingFolderKey))
    else
      var at := keys[name] + 6;
      st.(image := Overwrite(st.image, at, EncodeU16LE(st.first.value)),
          pos := if seekBack then st.current else at + 2)
  }

  function FolderNext(f: InFolder, locs: seq<nat>, keys: map<string, nat>, seekBack: bool, st: DataState): DataState
    requires |locs| == |f.files|
  {
    FolderClose(f.name, keys, seekBack, FilesFrom(f.files, locs, 0, st.(first := None)))
  }

  /** Pointer locations shaped like the folders they belong to. */
  predicate LocsFit(folders: seq<InFolder>, locs: seq<seq<nat>>) {
    |locs| == |folders| && forall j :: 0 <= j < |folders| ==> |locs[j]| == |folders[j].files|
  }

  function FoldersFrom(folders: seq<InFolder>, locs: seq<seq<nat>>, keys: map<string, nat>, seekBack: bool,
                       j: nat, st: DataState): DataState
    requires LocsFit(folders, locs) && j <= |folders|
    decreases |folders| - j, 1
  {
    if j == |folders| || st.err.Some? then st
    else FoldersThen(folders, locs, keys, seekBack, j, FolderNext(folders[j], locs[j], keys, seekBack, st))
  }

  function FoldersThen(folders: seq<InFolder>, locs: seq<seq<nat>>, keys: map<string, nat>, seekBack: bool,
                       j: nat, st: DataState): DataState
    requires LocsFit(folders, locs) && j < |folders|
    decreases |folders| - j, 0
  {
    FoldersFrom(folders, locs, keys, seekBack, j + 1, st)
  }

  /** The state `_write_file_data` starts from after `file.seek(0x4000)`
      on a file holding `image`. */
  function DataStart(image: seq<byte>): DataState {
    DataState(image, DataOffset, DataOffset, 0, None, None)
  }

  /** Everything `_write_file_data` does. */
  function DataWritten(image: seq<byte>, folders: seq<InFolder>, locs: seq<seq<nat>>, keys: map<string, nat>,
                       seekBack: bool): DataState
    requires LocsFit(folders, locs)
  {
    FoldersFrom(folders, locs, keys, seekBack, 0, DataStart(image))
  }

  /** The stream holds the state's image and stands at its position. */
  predicate StreamAt(s: Stream, st: DataState)
    reads s
  {
    s.bytes == st.image && s.pos == st.pos
  }

  /** One pass of the inner loop of `_write_file_data`. */
  method WritePayload(s: Stream, data: seq<byte>, loc: nat, current: nat, total: nat, first: Option<U16>,
                      ghost st: DataState)
    returns (current': nat, total': nat, first': Option<U16>, err: Option<DpacError>)
    requires st.err == None && st.current == current && st.total == total && st.first == first
    requires StreamAt(s, st)
    modifies s
    ensures var n := FileNext(data, loc, st);
            StreamAt(s, n) && current' == n.current && total' == n.total && first' == n.first && err == n.err
  {
    current', first', err := current, first, None;
    s.Write(data);
    total' := total + |data|;
    ghost var g := st.(image := s.bytes, pos := s.pos, total := total');
    if current < DataOffset {
      err := Some(PointerBelowData(current));
      assert FileNext(data, loc, st) == g.(err := err);
      return;
    }
    var raw := (current - DataOffset) / Sector;
    if raw > 0xFFFF {
      err := Some(PointerOutOfRange(raw));
      assert FileNext(data, loc, st) == g.(err := err);
      return;
    }
    s.Seek(loc);
    s.Write(EncodeU16LE(raw));
    s.Seek(current + |data|);
    if first == None {
      first' := Some(raw);
    }
    current' := current + |data|;
    g := Patched(g, loc, raw, current');
    assert FileNext(data, loc, st) == Padded(g);
    current', total' := PadToSector(s, current', total', g);
  }

  /** The zero padding that ends each file's pass. */
  method PadToSector(s: Stream, current: nat, total: nat, ghost st: DataState)
    returns (current': nat, total': nat)
    requires StreamAt(s, st) && st.pos == st.current == current && st.total == total
    modifies s
    ensures StreamAt(s, Padded(st)) && current' == Padded(st).current && total' == Padded(st).total
  {
    current', total' := current, total;
    var pad := (Sector - current % Sector) % Sector;
    if pad > 0 {
      s.Write(Zeros(pad));
      total' := total' + pad;
      current' := current' + pad;
    }
  }

  /** The file loop of `_write_file_data` for one folder, then the folder's
      pointer update. */
  method WriteFolderData(s: Stream, f: InFolder, locs: seq<nat>, keys: map<string, nat>, seekBack: bool,
                         current: nat, total: nat, ghost st: DataState)
    returns (current': nat, total': nat, err: Option<DpacError>)
    requires |locs| == |f.files| && st.err == None && st.current == current && st.total == total
    requires StreamAt(s, st)
    modifies s
    ensures var n := FolderNext(f, locs, keys, seekBack, st);
            StreamAt(s, n) && current' == n.current && total' == n.total && err == n.err
  {
    var first: Option<U16> := None;
    current', total', err := current, total, None;
    ghost var g := st.(first := None);
    ghost var goal := FilesFrom(f.files, locs, 0, g);
    var k := 0;
    while k < |f.files| && err == None
      invariant k <= |f.files|
      invariant FilesFrom(f.files, locs, k, g) == goal
      invariant StreamAt(s, g) && g.current == current' && g.total == total' && g.first == first && g.err == err
    {
      current', total', first, err := WritePayload(s, f.files[k].data, locs[k], current', total', first, g);
      g := FileNext(f.files[k].data, locs[k], g);
      k := k + 1;
    }
    if err != None || first == None {
      return;
    }
    if f.name !in keys {
      return current', total', Some(MissingFolderKey);
    }
    var at := keys[f.name] + 6;
    s.Seek(at);
    s.Write(EncodeU16LE(first.value));
    if seekBack {
      s.Seek(current');
    }
  }

  /** `_write_file_data`; `seekBack == false` is the code as written. */
  method WriteFileData(s: Stream, folders: seq<InFolder>, locs: seq<seq<nat>>, keys: map<string, nat>,
                       seekBack: bool)
    returns (total: nat, err: Option<DpacError>)
    requires LocsFit(folders, locs)
    modifies s
    ensures var n := DataWritten(old(s.bytes), folders, locs, keys, seekBack);
            StreamAt(s, n) && total == n.total && err == n.err
  {
    ghost var goal := DataWritten(s.bytes, folders, locs, keys, seekBack);
    s.Seek(DataOffset);
    var current := DataOffset;
    total, err := 0, None;
    ghost var g := DataStart(s.bytes);
    var j := 0;
    while j < |folders| && err == None
      invariant j <= |folders|
      invariant FoldersFrom(folders, locs, keys, seekBack, j, g) == goal
      invariant StreamAt(s, g) && g.current == current && g.total == total && g.err == err
    {
      current, total, err := WriteFolderData(s, folders[j], locs[j], keys, seekBack, current, total, g);
      g := FolderNext(folders[j], locs[j], keys, seekBack, g);
      j := j + 1;
    }
  }

  // ---------------------------------------------------------------------
  // Properties of `_write_file_data`

  /** Bytes a payload of `n` bytes occupies once padded to a sector. */
  function PaddedSize(n: nat): nat {
    n + Padding(n)
  }

  /** Payload and padding bytes of the given files. */
  function FilesSize(files: seq<InFile>): nat {
    if files == [] then 0 else PaddedSize(|files[0].data|) + FilesSize(files[1..])
  }

  /** Payload and padding bytes of every file of every folder. */
  function DataSize(folders: seq<InFolder>): nat {
    if folders == [] then 0 else FilesSize(folders[0].files) + DataSize(folders[1..])
  }

  /** `current_pointer` lies on a sector boundary of the data region and
      `total_written_size` counts exactly the bytes from 0x4000 to it. */
  predicate Aligned(st: DataState) {
    st.current >= DataOffset && st.current % Sector == 0 && st.total == st.current - DataOffset
  }

  lemma PaddingShift(c: nat, n: nat)
    requires c % Sector == 0
    ensures Padding(c + n) == Padding(n)
  {
    assert c == Sector * (c / Sector);
    assert (c + n) % Sector == n % Sector;
  }

  /** One file from an aligned state: it raises exactly when its raw
      pointer exceeds 0xFFFF; otherwise `current_pointer` advances by the
      padded payload size, stays aligned, and the stream stands there. */
  lemma FileNextAligned(data: seq<byte>, loc: nat, st: DataState)
    requires Aligned(st) && st.err == None
    ensures var n := FileNext(data, loc, st);
            && (n.err == None <==> RawPointer(st.current) <= 0xFFFF)
            && (n.err == None ==> Aligned(n) && n.pos == n.current && n.current == st.current + PaddedSize(|data|))
  {
    PaddingShift(st.current, |data|);
  }

  lemma FilesFromStops(files: seq<InFile>, locs: seq<nat>, k: nat, st: DataState)
    requires k <= |files| == |locs|
    ensures st.err.Some? ==> FilesFrom(files, locs, k, st) == st
  {
  }

  lemma {:induction false} FilesFromAligned(files: seq<InFile>, locs: seq<nat>, k: nat, st: DataState)
    requires k <= |files| == |locs| && Aligned(st) && st.err == None
    requires FilesFrom(files, locs, k, st).err == None
    ensures Aligned(FilesFrom(files, locs, k, st))
    ensures FilesFrom(files, locs, k, st).current == st.current + FilesSize(files[k..])
    decreases |files| - k
  {
    if k < |files| {
      var st' := FileNext(files[k].data, locs[k], st);
      FilesFromStops(files, locs, k + 1, st');
      FileNextAligned(files[k].data, locs[k], st);
      FilesFromAligned(files, locs, k + 1, st');
      assert files[k..][1..] == files[k + 1..];
    } else {
      assert files[k..] == [];
    }
  }

  /** One folder from an aligned state advances `current_pointer` by the
      padded sizes of its files and keeps it aligned. */
  lemma FolderNextAligned(f: InFolder, locs: seq<nat>, keys: map<string, nat>, seekBack: bool, st: DataState)
    requires |locs| == |f.files| && Aligned(st) && st.err == None
    requires FolderNext(f, locs, keys, seekBack, st).err == None
    ensures Aligned(FolderNext(f, locs, keys, seekBack, st))
    ensures FolderNext(f, locs, keys, seekBack, st).current == st.current + FilesSize(f.files)
  {
    var g := st.(first := None);
    var mid := FilesFrom(f.files, locs, 0, g);
    assert FolderClose(f.name, keys, seekBack, mid).err == None;
    assert mid.err == None;
    FilesFromAligned(f.files, locs, 0, g);
    assert f.files[0..] == f.files;
  }

  lemma FoldersFromStops(folders: seq<InFolder>, locs: seq<seq<nat>>, keys: map<string, nat>, seekBack: bool,
                         j: nat, st: DataState)
    requires LocsFit(folders, locs) && j <= |folders|
    ensures st.err.Some? ==> FoldersFrom(folders, locs, keys, seekBack, j, st) == st
  {
  }

  lemma {:induction false} FoldersFromAligned(folders: seq<InFolder>, locs: seq<seq<nat>>, keys: map<string, nat>,
                                              seekBack: bool, j: nat, st: DataState)
    requires LocsFit(folders, locs) && j <= |folders| && Aligned(st) && st.err == None
    requires FoldersFrom(folders, locs, keys, seekBack, j, st).err == None
    ensures Aligned(FoldersFrom(folders, locs, keys, seekBack, j, st))
    ensures FoldersFrom(folders, locs, keys, seekBack, j, st).current == st.current + DataSize(folders[j..])
    decreases |folders| - j
  {
    if j < |folders| {
      var st' := FolderNext(folders[j], locs[j], keys, seekBack, st);
      FoldersFromStops(folders, locs, keys, seekBack, j + 1, st');
      FolderNextAligned(folders[j], locs[j], keys, seekBack, st);
      FoldersFromAligned(folders, locs, keys, seekBack, j + 1, st');
      assert folders[j..][1..] == folders[j + 1..];
    } else {
      assert folders[j..] == [];
    }
  }

  /** When `_write_file_data` raises nothing, `total_written_size` is the
      payload bytes plus padding of every file, and `current_pointer` ends
      on a sector boundary that far past 0x4000. */
  lemma DataTotal(image: seq<byte>, folders: seq<InFolder>, locs: seq<seq<nat>>, keys: map<string, nat>, seekBack: bool)
    requires LocsFit(folders, locs) && DataWritten(image, folders, locs, keys, seekBack).err == None
    ensures var d := DataWritten(image, folders, locs, keys, seekBack);
            d.total == DataSize(folders) && d.current == DataOffset + DataSize(folders) && d.current % Sector == 0
  {
    FoldersFromAligned(folders, locs, keys, seekBack, 0, DataStart(image));
    assert folders[0..] == folders;
  }

  /** The raw pointer patched into a file's record in the TOC resolves to
      the `current_pointer` the file was given, and the padding that
      follows leaves it intact. */
  lemma FilePointerResolves(data: seq<byte>, loc: nat, st: DataState)
    requires Aligned(st) && st.err == None && FileNext(data, loc, st).err == None
    requires loc + 2 <= DataOffset
    ensures var n := FileNext(data, loc, st);
            loc + 2 <= |n.image| && U16LE(n.image, loc) == RawPointer(st.current)
            && ResolvePointer(U16LE(n.image, loc)) == st.current
  {
    var raw := RawPointer(st.current);
    var end := st.current + |data|;
    var written := st.(image := Overwrite(st.image, st.pos, data), pos := st.pos + |data|, total := st.total + |data|);
    var p := Patched(written, loc, raw, end);
    OverwriteU16(written.image, loc, raw);
    var pad := Padding(end);
    if pad > 0 {
      OverwriteFrame(p.image, end, Zeros(pad), loc);
      OverwriteFrame(p.image, end, Zeros(pad), loc + 1);
    }
    ResolveRawPointer(st.current);
  }

  /** When the stream stands at `current_pointer`, a file's payload lands
      there, where its raw pointer resolves. */
  lemma FilePayloadPlaced(data: seq<byte>, loc: nat, st: DataState)
    requires Aligned(st) && st.err == None && st.pos == st.current && FileNext(data, loc, st).err == None
    requires loc + 2 <= DataOffset && data != []
    ensures var img := FileNext(data, loc, st).image;
            st.current + |data| <= |img| && img[st.current..st.current + |data|] == data
  {
    var img := FileNext(data, loc, st).image;
    PayloadByte(data, loc, st, |data| - 1);
    forall i | 0 <= i < |data|
      ensures img[st.current..st.current + |data|][i] == data[i]
    {
      PayloadByte(data, loc, st, i);
    }
  }

  lemma PayloadByte(data: seq<byte>, loc: nat, st: DataState, i: nat)
    requires Aligned(st) && st.err == None && st.pos == st.current && FileNext(data, loc, st).err == None
    requires loc + 2 <= DataOffset && i < |data|
    ensures st.current + i < |FileNext(data, loc, st).image| && FileNext(data, loc, st).image[st.current + i] == data[i]
  {
    var raw := RawPointer(st.current);
    var end := st.current + |data|;
    var written := st.(image := Overwrite(st.image, st.pos, data), pos := st.pos + |data|, total := st.total + |data|);
    var p := Patched(written, loc, raw, end);
    var pad := Padding(end);
    assert FileNext(data, loc, st) == Padded(p);
    OverwriteHit(st.image, st.pos, data, st.current + i);
    OverwriteFrame(written.image, loc, EncodeU16LE(raw), st.current + i);
    if pad > 0 {
      OverwriteFrame(p.image, end, Zeros(pad), st.current + i);
    }
  }

  /** As written, closing a folder that has files leaves the stream just
      past the folder-pointer write, at its `folder_pointers` entry plus 8,
      which is inside the TOC; the next payload is written there. */
  lemma FolderCloseAsWritten(name: string, keys: map<string, nat>, st: DataState)
    requires st.err == None && st.first.Some? && name in keys
    ensures FolderClose(name, keys, false, st).pos == keys[name] + 8
    ensures FolderClose(name, keys, true, st).pos == st.current
  {
  }

  /** With the seek back to `current_pointer`, the stream stands at the
      aligned `current_pointer` after every folder, so every payload is
      written where its raw pointer resolves (`FilePayloadPlaced`). */
  lemma {:induction false} FoldersFromSettled(folders: seq<InFolder>, locs: seq<seq<nat>>, keys: map<string, nat>,
                                              j: nat, st: DataState)
    requires LocsFit(folders, locs) && j <= |folders| && Aligned(st) && st.err == None && st.pos == st.current
    requires FoldersFrom(folders, locs, keys, true, j, st).err == None
    ensures FoldersFrom(folders, locs, keys, true, j, st).pos == FoldersFrom(folders, locs, keys, true, j, st).current
    decreases |folders| - j
  {
    if j < |folders| {
      var st' := FolderNext(folders[j], locs[j], keys, true, st);
      FoldersFromStops(folders, locs, keys, true, j + 1, st');
      FolderNextAligned(folders[j], locs[j], keys, true, st);
      FolderNextSettled(folders[j], locs[j], keys, st);
      FoldersFromSettled(folders, locs, keys, j + 1, st');
    }
  }

  lemma FolderNextSettled(f: InFolder, locs: seq<nat>, keys: map<string, nat>, st: DataState)
    requires |locs| == |f.files| && Aligned(st) && st.err == None && st.pos == st.current
    requires FolderNext(f, locs, keys, true, st).err == None
    ensures FolderNext(f, locs, keys, true, st).pos == FolderNext(f, locs, keys, true, st).current
  {
    var g := st.(first := None);
    var mid := FilesFrom(f.files, locs, 0, g);
    assert mid.err == None;
    FilesFromSettled(f.files, locs, 0, g);
  }

  lemma {:induction false} FilesFromSettled(files: seq<InFile>, locs: seq<nat>, k: nat, st: DataState)
    requires k <= |files| == |locs| && Aligned(st) && st.err == None && st.pos == st.current
    requires FilesFrom(files, locs, k, st).err == None
    ensures FilesFrom(files, locs, k, st).pos == FilesFrom(files, locs, k, st).current
    decreases |files| - k
  {
    if k < |files| {
      var st' := FileNext(files[k].data, locs[k], st);
      FilesFromStops(files, locs, k + 1, st');
      FileNextAligned(files[k].data, locs[k], st);
      FilesFromSettled(files, locs, k + 1, st');
    }
  }

  // ---------------------------------------------------------------------
  // Step 4: `_finalize_file`, and `create_new_dpac`

  /** `_finalize_file`: `total_written_size` packed little-endian at offset
      8, or the `struct.error` of a total beyond 32 bits. */
  function Finalized(image: seq<byte>, total: nat): Written {
    if total < 0x1_0000_0000 then Written(Overwrite(image, 8, EncodeU32LE(total)), None)
    else Written(image, Some(FieldOverflow))
  }

  method FinalizeFile(s: Stream, total: nat) returns (err: Option<DpacError>)
    modifies s
    ensures s.bytes == Finalized(old(s.bytes), total).bytes && err == Finalized(old(s.bytes), total).err
  {
    s.Seek(8);
    var packed := Pack32(total);
    if packed == None {
      return Some(FieldOverflow);
    }
    s.Write(packed.value);
    return None;
  }

  /** The pointer locations `_write_toc` returns are shaped like the folders. */
  lemma TocLocsFit(folders: seq<InFolder>)
    requires TocWritten(folders).out.err == None
    ensures LocsFit(folders, TocWritten(folders).locs)
  {
    TocLayout(folders);
  }

  /** The file `create_new_dpac` leaves behind, and the exception it
      re-raises, when it writes a new file; `seekBack` as for `FolderClose`. */
  function Created(folders: seq<InFolder>, seekBack: bool): Written {
    var h := HeaderWritten(folders);
    if h.err.Some? then h
    else
      var t := TocWritten(folders);
      var image := Overwrite(h.bytes, TocStart, t.out.bytes);
      if t.out.err.Some? then Written(image, t.out.err)
      else
        TocLocsFit(folders);
        var d := DataWritten(image, folders, t.locs, t.keys, seekBack);
        if d.err.Some? then Written(d.image, d.err)
        else Finalized(d.image, d.total)
  }

  /** `create_new_dpac`: header, TOC, file data and size field written in
      turn to a new, empty file, stopping at the first exception. */
  method CreateNewDpac(folders: seq<InFolder>, seekBack: bool) returns (image: seq<byte>, err: Option<DpacError>)
    ensures Written(image, err) == Created(folders, seekBack)
  {
    var s := new Stream();
    err := WriteHeader(s, folders);
    OverwriteAppend([], HeaderWritten(folders).bytes);
    assert [] + HeaderWritten(folders).bytes == HeaderWritten(folders).bytes;
    if err != None {
      return s.bytes, err;
    }
    var entries, keys, locs;
    entries, keys, locs, err := WriteToc(s, folders);
    if err != None {
      return s.bytes, err;
    }
    TocLocsFit(folders);
    var total;
    total, err := WriteFileData(s, folders, locs, keys, seekBack);
    if err != None {
      return s.bytes, err;
    }
    err := FinalizeFile(s, total);
    return s.bytes, err;
  }

  // ---------------------------------------------------------------------
  // The header of a created file

  /** The data phase has left the first `lo` bytes as they were in `b`, and
      the stream and `current_pointer` stand at or after `lo`. */
  predicate Above(st: DataState, b: seq<byte>, lo: nat) {
    lo <= |b| && lo <= |st.image| && st.image[..lo] == b[..lo] && st.pos >= lo && st.current >= lo
  }

  predicate KeysAbove(keys: map<string, nat>, lo: nat) {
    forall n :: n in keys ==> keys[n] >= lo
  }

  predicate LocsAbove(locs: seq<nat>, lo: nat) {
    forall k :: 0 <= k < |locs| ==> locs[k] >= lo
  }

  lemma FileNextAbove(data: seq<byte>, loc: nat, st: DataState, b: seq<byte>, lo: nat)
    requires Above(st, b, lo) && loc >= lo
    ensures Above(FileNext(data, loc, st), b, lo)
  {
    var written := st.(image := Overwrite(st.image, st.pos, data), pos := st.pos + |data|, total := st.total + |data|);
    OverwritePrefix(st.image, st.pos, data, lo);
    if st.current >= DataOffset && RawPointer(st.current) <= 0xFFFF {
      PatchedAbove(written, loc, RawPointer(st.current), st.current + |data|, b, lo);
      assert FileNext(data, loc, st) == Padded(Patched(written, loc, RawPointer(st.current), st.current + |data|));
    }
  }

  lemma PatchedAbove(st: DataState, loc: nat, raw: U16, end: nat, b: seq<byte>, lo: nat)
    requires Above(st, b, lo) && loc >= lo && end >= lo
    ensures Above(Padded(Patched(st, loc, raw, end)), b, lo)
  {
    var p := Patched(st, loc, raw, end);
    OverwritePrefix(st.image, loc, EncodeU16LE(raw), lo);
    var pad := Padding(p.current);
    if pad > 0 {
      OverwritePrefix(p.image, p.current, Zeros(pad), lo);
    }
  }

  lemma {:induction false} FilesFromAbove(files: seq<InFile>, locs: seq<nat>, k: nat, st: DataState, b: seq<byte>, lo: nat)
    requires k <= |files| == |locs| && Above(st, b, lo) && LocsAbove(locs, lo)
    ensures Above(FilesFrom(files, locs, k, st), b, lo)
    decreases |files| - k
  {
    if k < |files| && st.err == None {
      FileNextAbove(files[k].data, locs[k], st, b, lo);
      FilesFromAbove(files, locs, k + 1, FileNext(files[k].data, locs[k], st), b, lo);
    }
  }

  lemma FolderNextAbove(f: InFolder, locs: seq<nat>, keys: map<string, nat>, seekBack: bool, st: DataState,
                        b: seq<byte>, lo: nat)
    requires |locs| == |f.files| && Above(st, b, lo) && LocsAbove(locs, lo) && KeysAbove(keys, lo)
    ensures Above(FolderNext(f, locs, keys, seekBack, st), b, lo)
  {
    var mid := FilesFrom(f.files, locs, 0, st.(first := None));
    FilesFromAbove(f.files, locs, 0, st.(first := None), b, lo);
    if mid.err == None && mid.first.Some? && f.name in keys {
      OverwritePrefix(mid.image, keys[f.name] + 6, EncodeU16LE(mid.first.value), lo);
    }
  }

  lemma {:induction false} FoldersFromAbove(folders: seq<InFolder>, locs: seq<seq<nat>>, keys: map<string, nat>,
                                            seekBack: bool, j: nat, st: DataState, b: seq<byte>, lo: nat)
    requires LocsFit(folders, locs) && j <= |folders| && Above(st, b, lo) && KeysAbove(keys, lo)
    requires forall i :: 0 <= i < |locs| ==> LocsAbove(locs[i], lo)
    ensures Above(FoldersFrom(folders, locs, keys, seekBack, j, st), b, lo)
    decreases |folders| - j
  {
    if j < |folders| && st.err == None {
      FolderNextAbove(folders[j], locs[j], keys, seekBack, st, b, lo);
      FoldersFromAbove(folders, locs, keys, seekBack, j + 1, FolderNext(folders[j], locs[j], keys, seekBack, st), b, lo);
    }
  }

  /** Every key `_write_toc` records lies in the TOC. */
  lemma {:induction false} TocFromKeys(folders: seq<InFolder>, j: nat, st: TocState)
    requires j <= |folders| && KeysAbove(st.keys, TocStart)
    ensures KeysAbove(TocFrom(folders, j, st).keys, TocStart)
    decreases |folders| - j
  {
    if j < |folders| && st.out.err == None {
      TocFromKeys(folders, j + 1, TocNext(folders[j], st));
    }
  }

  /** Every pointer location `_write_toc` returns lies in the TOC. */
  lemma TocLocsAbove(folders: seq<InFolder>)
    requires TocWritten(folders).out.err == None
    ensures var t := TocWritten(folders);
            |t.locs| == |folders| && forall i :: 0 <= i < |t.locs| ==> LocsAbove(t.locs[i], TocStart)
  {
    var t := TocWritten(folders);
    TocLayout(folders);
    forall i | 0 <= i < |t.locs|
      ensures LocsAbove(t.locs[i], TocStart)
    {
      assert t.locs[i] == PointerFields(EntryStart(folders, i) + 8, |folders[i].files|);
      forall k | 0 <= k < |t.locs[i]|
        ensures t.locs[i][k] >= TocStart
      {
        PointerFieldsIndex(EntryStart(folders, i) + 8, |folders[i].files|, k);
      }
    }
  }

  /** `_finalize_file` changes only the size field. */
  lemma FinalizedFields(image: seq<byte>, total: nat)
    requires total < 0x1_0000_0000 && 16 <= |image|
    ensures var w := Finalized(image, total).bytes;
            && |w| == |image| && w[..4] == image[..4] && U32LE(w, 8) == total
            && U32LE(w, 4) == U32LE(image, 4) && U32LE(w, 12) == U32LE(image, 12)
  {
    var x := EncodeU32LE(total);
    var w := Overwrite(image, 8, x);
    OverwriteLength(image, 8, x);
    OverwriteU32(image, 8, total);
    forall i | 0 <= i < 16 && !(8 <= i < 12)
      ensures w[i] == image[i]
    {
      OverwriteFrame(image, 8, x, i);
    }
    assert w[..4] == image[..4];
  }

  /** The TOC and the data phase of `create_new_dpac` leave the header's
      16 bytes as `_write_header` wrote them. */
  lemma CreatedKeepsHeader(folders: seq<InFolder>, seekBack: bool)
    requires HeaderWritten(folders).err == None && TocWritten(folders).out.err == None
    ensures var h := HeaderWritten(folders).bytes;
            var t := TocWritten(folders);
            var image := Overwrite(h, TocStart, t.out.bytes);
            LocsFit(folders, t.locs)
            && var d := DataWritten(image, folders, t.locs, t.keys, seekBack);
               16 <= |d.image| && d.image[..16] == h
  {
    var h := HeaderWritten(folders).bytes;
    HeaderFields(folders);
    var t := TocWritten(folders);
    var image := Overwrite(h, TocStart, t.out.bytes);
    OverwritePrefix(h, TocStart, t.out.bytes, 16);
    TocLocsFit(folders);
    TocLocsAbove(folders);
    TocFromKeys(folders, 0, TocState(Written([], None), map[], [], 0));
    FoldersFromAbove(folders, t.locs, t.keys, seekBack, 0, DataStart(image), image, 16);
    assert h[..16] == h;
  }

  /** A file `create_new_dpac` completes starts with "DPAC" and
      `toc_count << 3` (one 8-byte record per folder and per file), holds at
      offset 8 the payload bytes plus padding of every file, and ends its
      header with the sector field 7. */
  lemma CreatedHeader(folders: seq<InFolder>, seekBack: bool)
    requires Created(folders, seekBack).err == None
    ensures var w := Created(folders, seekBack).bytes;
            && 16 <= |w| && w[..4] == Magic && U32LE(w, 4) == 8 * RecordCount(folders)
            && U32LE(w, 8) == DataSize(folders) && U32LE(w, 12) == 7
  {
    var h := HeaderWritten(folders).bytes;
    HeaderFields(folders);
    var t := TocWritten(folders);
    var image := Overwrite(h, TocStart, t.out.bytes);
    CreatedKeepsHeader(folders, seekBack);
    var d := DataWritten(image, folders, t.locs, t.keys, seekBack);
    DataTotal(image, folders, t.locs, t.keys, seekBack);
    assert Created(folders, seekBack) == Finalized(d.image, d.total);
    FinalizedFields(d.image, d.total);
    SamePrefixFields(d.image, h);
  }

  lemma SamePrefixFields(d: seq<byte>, h: seq<byte>)
    requires |h| == 16 <= |d| && d[..16] == h
    ensures d[..4] == h[..4] && U32LE(d, 4) == U32LE(h, 4) && U32LE(d, 12) == U32LE(h, 12)
  {
    assert forall i :: 0 <= i < 16 ==> d[i] == h[i];
  }

  // ---------------------------------------------------------------------
  // When `_write_toc` raises

  /** A file record `_write_toc` can write: a latin-1 name and a size field
      within 16 bits. */
  predicate RecordFits(g: InFile) {
    NameBytes(g.name).Some? && |g.data| / 256 < 0x1_0000
  }

  /** A folder entry `_write_toc` can write: a latin-1 name, a count field
      `len(files) << 1` within 16 bits and records that fit. */
  predicate EntryFits(f: InFolder) {
    NameBytes(f.name).Some? && 2 * |f.files| < 0x1_0000 && forall k :: 0 <= k < |f.files| ==> RecordFits(f.files[k])
  }

  lemma {:induction false} RecordsFromFit(files: seq<InFile>, k: nat, acc: Written)
    requires k <= |files|
    ensures RecordsFrom(files, k, acc).err == None <==> acc.err == None && forall i :: k <= i < |files| ==> RecordFits(files[i])
    decreases |files| - k
  {
    if k < |files| && acc.err == None {
      RecordsFromFit(files, k + 1, Then(acc, FileRecordWritten(files[k])));
    }
  }

  lemma EntryFit(f: InFolder)
    ensures FolderEntryWritten(f).err == None <==> EntryFits(f)
  {
    RecordsFromFit(f.files, 0, Written([], None));
  }

  lemma {:induction false} TocFromFit(folders: seq<InFolder>, j: nat, st: TocState)
    requires j <= |folders|
    ensures TocFrom(folders, j, st).out.err == None
            <==> st.out.err == None && forall i :: j <= i < |folders| ==> EntryFits(folders[i])
    decreases |folders| - j
  {
    if j < |folders| && st.out.err == None {
      var st' := TocNext(folders[j], st);
      EntryFit(folders[j]);
      assert st'.out.err == None <==> EntryFits(folders[j]);
      TocFromFit(folders, j + 1, st');
      assert TocFrom(folders, j, st) == TocFrom(folders, j + 1, st');
      assert (forall i :: j <= i < |folders| ==> EntryFits(folders[i]))
             <==> EntryFits(folders[j]) && forall i :: j + 1 <= i < |folders| ==> EntryFits(folders[i]);
    }
  }

  /** `_write_toc` raises exactly when some folder or file name is not
      latin-1, some folder has 32768 files or more, or some file is
      16 MiB or larger. */
  lemma TocFits(folders: seq<InFolder>)
    ensures TocWritten(folders).out.err == None <==> forall i :: 0 <= i < |folders| ==> EntryFits(folders[i])
  {
    TocFromFit(folders, 0, TocState(Written([], None), map[], [], 0));
  }

  // ---------------------------------------------------------------------
  // A payload written into the TOC

  /** Two folders of one one-byte file each. */
  const TwoFolders: seq<InFolder> := [InFolder("AAAA", [InFile("a", [1])]), InFolder("BBBB", [InFile("b", [2])])]

  /** Every name of `TwoFolders` is latin-1, so `_write_toc` raises nothing. */
  lemma TwoFoldersFit()
    ensures TocWritten(TwoFolders).out.err == None
  {
    var F := TwoFolders;
    EncodeLatin1Spec(Pad4("AAAA"));
    EncodeLatin1Spec(Pad4("BBBB"));
    EncodeLatin1Spec(Pad4("a"));
    EncodeLatin1Spec(Pad4("b"));
    assert EntryFits(F[0]) && EntryFits(F[1]);
    TocFits(F);
  }

  /** The TOC of `TwoFolders`: 32 bytes, the files' pointer fields at 0x80C
      and 0x81C, and the folder keys 6 bytes into each entry. */
  lemma TwoFoldersToc()
    ensures var t := TocWritten(TwoFolders);
            && t.out.err == None && |t.out.bytes| == 32 && t.locs == [[0x80C], [0x81C]]
            && "AAAA" in t.keys && t.keys["AAAA"] == 0x806 && "BBBB" in t.keys && t.keys["BBBB"] == 0x816
    ensures RecordCount(TwoFolders) == 4
  {
    var F, t := TwoFolders, TocWritten(TwoFolders);
    TwoFoldersFit();
    TocLayout(F);
    TwoFoldersStarts();
    TwoFoldersKeys();
    assert t.locs[0] == PointerFields(0x808, 1);
    assert t.locs[1] == PointerFields(0x818, 1);
    assert LastBefore(F, 0, 2) && LastBefore(F, 1, 2);
  }

  lemma TwoFoldersStarts()
    ensures EntryStart(TwoFolders, 0) == 0x800 && EntryStart(TwoFolders, 1) == 0x810
    ensures RecordCount(TwoFolders) == 4
  {
    var F := TwoFolders;
    assert F[..0] == [] && F[..1] == [F[0]] && F[..2] == F;
    assert [F[0]][..0] == [];
  }

  lemma TwoFoldersKeys()
    ensures FolderKey(TwoFolders[0]) == "AAAA" && FolderKey(TwoFolders[1]) == "BBBB"
    ensures PointerFields(0x808, 1) == [0x80C] && PointerFields(0x818, 1) == [0x81C]
  {
    assert PointerFields(0x808, 0) == [] && PointerFields(0x818, 0) == [];
    KeyOfPlainName("AAAA");
    KeyOfPlainName("BBBB");
  }

  /** Four characters, none of them whitespace, are their own key. */
  lemma KeyOfPlainName(name: string)
    requires |name| == 4 && !IsSpace(name[0]) && !IsSpace(name[3])
    ensures Strip(Pad4(name), IsSpace) == name
  {
    Pad4Spec(name);
    assert RStrip(name, IsSpace) == name;
  }

  /** Folder AAAA of `TwoFolders`: file a at 0x4000, padded to 0x4800, its
      pointer and the folder's patch both 0; the stream is then left at
      0x80E as written, or at 0x4800 with the seek back. */
  lemma FolderAData(img: seq<byte>, keys: map<string, nat>, seekBack: bool) returns (st: DataState)
    requires |img| == 0x820 && "AAAA" in keys && keys["AAAA"] == 0x806
    ensures st == FolderNext(TwoFolders[0], [0x80C], keys, seekBack, DataStart(img))
    ensures st.err == None && st.current == 0x4800 && st.total == 0x800
    ensures st.pos == if seekBack then 0x4800 else 0x80E
    ensures |st.image| == 0x4800 && st.image[0x80E] == img[0x80E]
  {
    var f, s0 := TwoFolders[0], DataStart(img);
    var i1 := Overwrite(img, 0x4000, [1]);
    var i2 := Overwrite(i1, 0x80C, EncodeU16LE(0));
    var i3 := Overwrite(i2, 0x4001, Zeros(0x7FF));
    var a := DataState(i3, 0x4800, 0x4800, 0x800, Some(0), None);
    assert FileNext([1], 0x80C, s0) == a;
    assert FilesFrom(f.files, [0x80C], 0, s0) == a;
    var i4 := Overwrite(i3, 0x80C, EncodeU16LE(0));
    st := a.(image := i4, pos := if seekBack then 0x4800 else 0x80E);
    OverwriteLength(img, 0x4000, [1]);
    OverwriteLength(i1, 0x80C, EncodeU16LE(0));
    OverwriteLength(i2, 0x4001, Zeros(0x7FF));
    OverwriteLength(i3, 0x80C, EncodeU16LE(0));
    OverwriteFrame(img, 0x4000, [1], 0x80E);
    OverwriteFrame(i1, 0x80C, EncodeU16LE(0), 0x80E);
    OverwriteFrame(i2, 0x4001, Zeros(0x7FF), 0x80E);
    OverwriteFrame(i3, 0x80C, EncodeU16LE(0), 0x80E);
  }

  /** Folder BBBB of `TwoFolders` after folder AAAA: file b's payload is
      written where the stream stands, its pointer 1 patched at 0x81C and
      padding written from 0x4801. */
  lemma FolderBData(st: DataState, keys: map<string, nat>, seekBack: bool) returns (st': DataState)
    requires st.err == None && st.current == 0x4800 && st.total == 0x800 && |st.image| == 0x4800
    requires st.pos == if seekBack then 0x4800 else 0x80E
    requires "BBBB" in keys && keys["BBBB"] == 0x816
    ensures st' == FolderNext(TwoFolders[1], [0x81C], keys, seekBack, st)
    ensures st'.err == None && st'.total == 0x1000 && |st'.image| == 0x5000
    ensures st'.image[st.pos] == 2 && U16LE(st'.image, 0x81C) == 1
    ensures seekBack ==> st'.image[0x80E] == st.image[0x80E]
    ensures !seekBack ==> st'.image[0x4800] == 0
  {
    var f, g := TwoFolders[1], st.(first := None);
    var i5 := Overwrite(st.image, st.pos, [2]);
    var i6 := Overwrite(i5, 0x81C, EncodeU16LE(1));
    var i7 := Overwrite(i6, 0x4801, Zeros(0x7FF));
    var b := DataState(i7, 0x5000, 0x5000, 0x1000, Some(1), None);
    assert FileNext([2], 0x81C, g) == b;
    assert FilesFrom(f.files, [0x81C], 0, g) == b;
    var i8 := Overwrite(i7, 0x81C, EncodeU16LE(1));
    st' := b.(image := i8, pos := if seekBack then 0x5000 else 0x81E);
    OverwriteLength(st.image, st.pos, [2]);
    OverwriteLength(i5, 0x81C, EncodeU16LE(1));
    OverwriteLength(i6, 0x4801, Zeros(0x7FF));
    OverwriteLength(i7, 0x81C, EncodeU16LE(1));
    OverwriteHit(st.image, st.pos, [2], st.pos);
    OverwriteFrame(i5, 0x81C, EncodeU16LE(1), st.pos);
    OverwriteFrame(i6, 0x4801, Zeros(0x7FF), st.pos);
    OverwriteFrame(i7, 0x81C, EncodeU16LE(1), st.pos);
    OverwriteU16(i7, 0x81C, 1);
    if seekBack {
      OverwriteFrame(st.image, st.pos, [2], 0x80E);
      OverwriteFrame(i5, 0x81C, EncodeU16LE(1), 0x80E);
      OverwriteFrame(i6, 0x4801, Zeros(0x7FF), 0x80E);
      OverwriteFrame(i7, 0x81C, EncodeU16LE(1), 0x80E);
    } else {
      OverwriteIndex(i6, 0x4801, Zeros(0x7FF), 0x4800);
      OverwriteFrame(i7, 0x81C, EncodeU16LE(1), 0x4800);
    }
  }

  /** As written: after folder AAAA the stream is left at 0x80E, inside the
      TOC, so file b's payload overwrites the low byte of file a's size
      field, while b's pointer is patched to 1, which resolves to 0x4800,
      where the file holds zero padding. */
  lemma PayloadInTocAsWritten(img: seq<byte>, keys: map<string, nat>)
    requires |img| == 0x820
    requires "AAAA" in keys && keys["AAAA"] == 0x806 && "BBBB" in keys && keys["BBBB"] == 0x816
    ensures var d := DataWritten(img, TwoFolders, [[0x80C], [0x81C]], keys, false);
            && d.err == None && d.total == 0x1000 && |d.image| == 0x5000
            && d.image[0x80E] == 2 && U16LE(d.image, 0x81C) == 1 && ResolvePointer(1) == 0x4800
            && d.image[0x4800] == 0
  {
    var a := FolderAData(img, keys, false);
    var b := FolderBData(a, keys, false);
    assert DataWritten(img, TwoFolders, [[0x80C], [0x81C]], keys, false) == b;
  }

  /** With the seek back to `current_pointer`, file b's payload lands at
      0x4800, where its pointer resolves, and file a's size field keeps
      what `_write_toc` wrote. */
  lemma PayloadInDataCorrected(img: seq<byte>, keys: map<string, nat>)
    requires |img| == 0x820
    requires "AAAA" in keys && keys["AAAA"] == 0x806 && "BBBB" in keys && keys["BBBB"] == 0x816
    ensures var d := DataWritten(img, TwoFolders, [[0x80C], [0x81C]], keys, true);
            && d.err == None && d.total == 0x1000 && |d.image| == 0x5000
            && d.image[0x80E] == img[0x80E] && U16LE(d.image, 0x81C) == 1 && ResolvePointer(1) == 0x4800
            && d.image[0x4800] == 2
  {
    var a := FolderAData(img, keys, true);
    var b := FolderBData(a, keys, true);
    assert DataWritten(img, TwoFolders, [[0x80C], [0x81C]], keys, true) == b;
  }

  /** What `create_new_dpac` has written for `TwoFolders` when
      `_write_file_data` starts: the header, then the TOC up to 0x820. */
  lemma TwoFoldersImage() returns (img: seq<byte>)
    ensures HeaderWritten(TwoFolders).err == None
    ensures var t := TocWritten(TwoFolders);
            && t.out.err == None && img == Overwrite(HeaderWritten(TwoFolders).bytes, TocStart, t.out.bytes)
            && |img| == 0x820 && t.locs == [[0x80C], [0x81C]] && LocsFit(TwoFolders, t.locs)
            && "AAAA" in t.keys && t.keys["AAAA"] == 0x806 && "BBBB" in t.keys && t.keys["BBBB"] == 0x816
  {
    TwoFoldersToc();
    HeaderFields(TwoFolders);
    var t := TocWritten(TwoFolders);
    img := Overwrite(HeaderWritten(TwoFolders).bytes, TocStart, t.out.bytes);
    OverwriteLength(HeaderWritten(TwoFolders).bytes, TocStart, t.out.bytes);
    TocLocsFit(TwoFolders);
  }

  /** `create_new_dpac` as written on `TwoFolders` completes without an
      exception, yet the file it leaves gives file a a size field of 2
      (512 bytes) and points file b at 0x4800, which holds 0, not b's byte 2. */
  lemma CreatedPayloadInToc()
    ensures var c := Created(TwoFolders, false);
            && c.err == None && |c.bytes| == 0x5000
            && c.bytes[0x80E] == 2 && U16LE(c.bytes, 0x81C) == 1 && ResolvePointer(1) == 0x4800
            && c.bytes[0x4800] == 0
  {
    var img := TwoFoldersImage();
    var t := TocWritten(TwoFolders);
    PayloadInTocAsWritten(img, t.keys);
    var d := DataWritten(img, TwoFolders, t.locs, t.keys, false);
    assert Created(TwoFolders, false) == Finalized(d.image, d.total);
    FinalizedKeeps(d.image, d.total, 0x80E);
    FinalizedKeeps(d.image, d.total, 0x81C);
    FinalizedKeeps(d.image, d.total, 0x81D);
    FinalizedKeeps(d.image, d.total, 0x4800);
  }

  /** With the seek back, `create_new_dpac` on `TwoFolders` leaves b's byte
      at 0x4800, where b's pointer resolves. */
  lemma CreatedPayloadInData()
    ensures var c := Created(TwoFolders, true);
            && c.err == None && |c.bytes| == 0x5000
            && U16LE(c.bytes, 0x81C) == 1 && ResolvePointer(1) == 0x4800 && c.bytes[0x4800] == 2
  {
    var img := TwoFoldersImage();
    var t := TocWritten(TwoFolders);
    PayloadInDataCorrected(img, t.keys);
    var d := DataWritten(img, TwoFolders, t.locs, t.keys, true);
    assert Created(TwoFolders, true) == Finalized(d.image, d.total);
    FinalizedKeeps(d.image, d.total, 0x81C);
    FinalizedKeeps(d.image, d.total, 0x81D);
    FinalizedKeeps(d.image, d.total, 0x4800);
  }

  // ---------------------------------------------------------------------
  // With the seek back, every payload where its pointer resolves

  /** A file as the data phase left it: the two bytes at `loc` hold `raw`
      and, unless it is empty, the payload sits at `at`. */
  predicate Placed(img: seq<byte>, loc: nat, raw: nat, at: nat, data: seq<byte>) {
    loc + 2 <= |img| && U16LE(img, loc) == raw
    && (data != [] ==> at + |data| <= |img| && img[at..at + |data|] == data)
  }

  lemma PayloadKept(img: seq<byte>, p: nat, x: seq<byte>, at: nat, data: seq<byte>)
    requires data != [] && at + |data| <= |img| && img[at..at + |data|] == data
    requires p + |x| <= at || at + |data| <= p
    ensures var img' := Overwrite(img, p, x);
            at + |data| <= |img'| && img'[at..at + |data|] == data
  {
    var img' := Overwrite(img, p, x);
    OverwriteFrame(img, p, x, at + |data| - 1);
    forall i | 0 <= i < |data|
      ensures img'[at..at + |data|][i] == data[i]
    {
      OverwriteFrame(img, p, x, at + i);
    }
  }

  /** A write that misses both the pointer field and the payload keeps them. */
  lemma PlacedKept(img: seq<byte>, p: nat, x: seq<byte>, loc: nat, raw: nat, at: nat, data: seq<byte>)
    requires Placed(img, loc, raw, at, data)
    requires p + |x| <= loc || loc + 2 <= p
    requires p + |x| <= at || at + |data| <= p
    ensures Placed(Overwrite(img, p, x), loc, raw, at, data)
  {
    OverwriteFrame(img, p, x, loc);
    OverwriteFrame(img, p, x, loc + 1);
    if data != [] {
      PayloadKept(img, p, x, at, data);
    }
  }

  /** Writing the same pointer again keeps the file as it was placed. */
  lemma PlacedRewritten(img: seq<byte>, loc: nat, raw: nat, at: nat, data: seq<byte>)
    requires Placed(img, loc, raw, at, data) && raw < 0x1_0000 && loc + 2 <= at
    ensures Placed(Overwrite(img, loc, EncodeU16LE(raw)), loc, raw, at, data)
  {
    OverwriteU16(img, loc, raw);
    if data != [] {
      PayloadKept(img, loc, EncodeU16LE(raw), at, data);
    }
  }

  /** A later file, whose pointer field lies past `loc` in the TOC and whose
      payload goes past `at`, keeps a placed file; a folder's first pointer,
      once remembered, stays. */
  lemma FileNextKeeps(data': seq<byte>, loc': nat, st: DataState, loc: nat, raw: nat, at: nat, data: seq<byte>)
    requires Aligned(st) && st.err == None && st.pos == st.current && FileNext(data', loc', st).err == None
    requires Placed(st.image, loc, raw, at, data) && loc + 2 <= DataOffset <= at && at + |data| <= st.current
    requires loc + 2 <= loc' && loc' + 2 <= DataOffset
    ensures Placed(FileNext(data', loc', st).image, loc, raw, at, data)
    ensures st.first.Some? ==> FileNext(data', loc', st).first == st.first
  {
    var written := st.(image := Overwrite(st.image, st.pos, data'), pos := st.pos + |data'|, total := st.total + |data'|);
    PlacedKept(st.image, st.pos, data', loc, raw, at, data);
    var p := Patched(written, loc', RawPointer(st.current), st.current + |data'|);
    PlacedKept(written.image, loc', EncodeU16LE(RawPointer(st.current)), loc, raw, at, data);
    var pad := Padding(p.current);
    if pad > 0 {
      PlacedKept(p.image, p.current, Zeros(pad), loc, raw, at, data);
    }
    assert FileNext(data', loc', st) == Padded(p);
  }

  lemma {:induction false} FilesFromKeeps(files: seq<InFile>, locs: seq<nat>, k: nat, st: DataState,
                                          loc: nat, raw: nat, at: nat, data: seq<byte>)
    requires k <= |files| == |locs| && Aligned(st) && st.err == None && st.pos == st.current
    requires FilesFrom(files, locs, k, st).err == None
    requires Placed(st.image, loc, raw, at, data) && loc + 2 <= DataOffset <= at && at + |data| <= st.current
    requires forall t :: k <= t < |locs| ==> loc + 2 <= locs[t] && locs[t] + 2 <= DataOffset
    ensures Placed(FilesFrom(files, locs, k, st).image, loc, raw, at, data)
    ensures st.first.Some? ==> FilesFrom(files, locs, k, st).first == st.first
    decreases |files| - k
  {
    if k < |files| {
      var st' := FileNext(files[k].data, locs[k], st);
      FilesFromStops(files, locs, k + 1, st');
      FileNextAligned(files[k].data, locs[k], st);
      FileNextKeeps(files[k].data, locs[k], st, loc, raw, at, data);
      FilesFromKeeps(files, locs, k + 1, st', loc, raw, at, data);
    }
  }

  /** Closing a folder keeps a placed file when the back-patch misses its
      pointer field or writes the very value it holds. */
  lemma FolderCloseKeeps(name: string, keys: map<string, nat>, st: DataState,
                         loc: nat, raw: nat, at: nat, data: seq<byte>)
    requires st.err == None && Placed(st.image, loc, raw, at, data) && loc + 2 <= DataOffset <= at
    requires st.first.Some? && name in keys ==>
               keys[name] + 8 <= DataOffset
               && (keys[name] + 8 <= loc || loc + 2 <= keys[name] + 6 || (keys[name] + 6 == loc && st.first.value == raw))
    ensures Placed(FolderClose(name, keys, true, st).image, loc, raw, at, data)
  {
    if st.first.Some? && name in keys {
      var a := keys[name] + 6;
      if a == loc && st.first.value == raw {
        PlacedRewritten(st.image, loc, raw, at, data);
      } else {
        PlacedKept(st.image, a, EncodeU16LE(st.first.value), loc, raw, at, data);
      }
    }
  }

  /** Every pointer field of a later folder lies in `[lo, 0x4000)`. */
  predicate WritesWithin(locs: seq<nat>, lo: nat) {
    forall t :: 0 <= t < |locs| ==> lo <= locs[t] && locs[t] + 2 <= DataOffset
  }

  /** The back-patch of a later folder lies below 0x4000 and misses the
      two bytes at `loc`. */
  predicate CloseWithin(f: InFolder, keys: map<string, nat>, loc: nat) {
    f.files != [] && f.name in keys ==>
      keys[f.name] + 8 <= DataOffset && (keys[f.name] + 8 <= loc || loc + 2 <= keys[f.name] + 6)
  }

  predicate LaterWithin(folders: seq<InFolder>, locs: seq<seq<nat>>, keys: map<string, nat>, j: nat, loc: nat)
    requires LocsFit(folders, locs) && j <= |folders|
  {
    forall m :: j <= m < |folders| ==> WritesWithin(locs[m], loc + 2) && CloseWithin(folders[m], keys, loc)
  }

  lemma FolderNextKeeps(f: InFolder, locs: seq<nat>, keys: map<string, nat>, st: DataState,
                        loc: nat, raw: nat, at: nat, data: seq<byte>)
    requires |locs| == |f.files| && Aligned(st) && st.err == None && st.pos == st.current
    requires FolderNext(f, locs, keys, true, st).err == None
    requires Placed(st.image, loc, raw, at, data) && loc + 2 <= DataOffset <= at && at + |data| <= st.current
    requires WritesWithin(locs, loc + 2) && CloseWithin(f, keys, loc)
    ensures Placed(FolderNext(f, locs, keys, true, st).image, loc, raw, at, data)
  {
    var g := st.(first := None);
    var mid := FilesFrom(f.files, locs, 0, g);
    assert mid.err == None;
    FilesFromKeeps(f.files, locs, 0, g, loc, raw, at, data);
    FolderCloseKeeps(f.name, keys, mid, loc, raw, at, data);
  }

  lemma {:induction false} FoldersFromKeeps(folders: seq<InFolder>, locs: seq<seq<nat>>, keys: map<string, nat>,
                                            j: nat, st: DataState, loc: nat, raw: nat, at: nat, data: seq<byte>)
    requires LocsFit(folders, locs) && j <= |folders| && Aligned(st) && st.err == None && st.pos == st.current
    requires FoldersFrom(folders, locs, keys, true, j, st).err == None
    requires Placed(st.image, loc, raw, at, data) && loc + 2 <= DataOffset <= at && at + |data| <= st.current
    requires LaterWithin(folders, locs, keys, j, loc)
    ensures Placed(FoldersFrom(folders, locs, keys, true, j, st).image, loc, raw, at, data)
    decreases |folders| - j
  {
    if j < |folders| {
      var st' := FolderNext(folders[j], locs[j], keys, true, st);
      FoldersFromStops(folders, locs, keys, true, j + 1, st');
      FolderNextAligned(folders[j], locs[j], keys, true, st);
      FolderNextSettled(folders[j], locs[j], keys, st);
      FolderNextKeeps(folders[j], locs[j], keys, st, loc, raw, at, data);
      FoldersFromKeeps(folders, locs, keys, j + 1, st', loc, raw, at, data);
    }
  }

  /** File `target` of a folder whose pointer fields are 8 bytes apart from
      `base`: its raw pointer names a sector-aligned offset holding its
      payload once the folder's files are written, and for the first file
      that raw pointer is the one the folder remembers. */
  lemma {:induction false} FilesFromPlaced(files: seq<InFile>, locs: seq<nat>, k: nat, st: DataState,
                                           target: nat, base: nat) returns (at: nat)
    requires k <= target < |files| == |locs| && Aligned(st) && st.err == None && st.pos == st.current
    requires FilesFrom(files, locs, k, st).err == None
    requires forall t :: 0 <= t < |locs| ==> locs[t] == base + 8 * t && locs[t] + 2 <= DataOffset
    ensures var n := FilesFrom(files, locs, k, st);
            && at >= DataOffset && at % Sector == 0 && at + |files[target].data| <= n.current
            && Placed(n.image, locs[target], RawPointer(at), at, files[target].data)
            && (target == k && st.first.None? ==> n.first.Some? && n.first.value == RawPointer(at))
    decreases |files| - k
  {
    var st' := FileNext(files[k].data, locs[k], st);
    FilesFromStops(files, locs, k + 1, st');
    FileNextAligned(files[k].data, locs[k], st);
    if k < target {
      at := FilesFromPlaced(files, locs, k + 1, st', target, base);
    } else {
      at := st.current;
      FileNextPlaced(files[k].data, locs[k], st);
      FilesFromAligned(files, locs, k + 1, st');
      FilesFromKeeps(files, locs, k + 1, st', locs[k], RawPointer(at), at, files[k].data);
    }
  }

  /** A file written from an aligned state with the stream at
      `current_pointer` is placed there, and becomes the folder's first
      pointer if it has none. */
  lemma FileNextPlaced(data: seq<byte>, loc: nat, st: DataState)
    requires Aligned(st) && st.err == None && st.pos == st.current && FileNext(data, loc, st).err == None
    requires loc + 2 <= DataOffset
    ensures var n := FileNext(data, loc, st);
            && Placed(n.image, loc, RawPointer(st.current), st.current, data)
            && (st.first.None? ==> n.first.Some? && n.first.value == RawPointer(st.current))
  {
    FilePointerResolves(data, loc, st);
    if data != [] {
      FilePayloadPlaced(data, loc, st);
    }
  }

  /** File `k` of folder `i`, given where the TOC writes around it fall:
      its own folder's back-patch either misses its pointer field or, for
      the first file, writes the same raw pointer again; every TOC write of
      a later folder lies past it. */
  lemma {:induction false} FoldersFromPlaced(folders: seq<InFolder>, locs: seq<seq<nat>>, keys: map<string, nat>,
                                             j: nat, st: DataState, i: nat, k: nat, base: nat) returns (at: nat)
    requires LocsFit(folders, locs) && j <= i < |folders| && k < |folders[i].files|
    requires Aligned(st) && st.err == None && st.pos == st.current
    requires FoldersFrom(folders, locs, keys, true, j, st).err == None
    requires forall t :: 0 <= t < |locs[i]| ==> locs[i][t] == base + 8 * t && locs[i][t] + 2 <= DataOffset
    requires folders[i].name in keys && keys[folders[i].name] + 8 <= DataOffset
    requires var a := keys[folders[i].name] + 6;
             a + 2 <= locs[i][k] || locs[i][k] + 2 <= a || (k == 0 && a == locs[i][k])
    requires LaterWithin(folders, locs, keys, i + 1, locs[i][k])
    ensures var n := FoldersFrom(folders, locs, keys, true, j, st);
            at >= DataOffset && at % Sector == 0 && Placed(n.image, locs[i][k], RawPointer(at), at, folders[i].files[k].data)
    decreases |folders| - j
  {
    var st' := FolderNext(folders[j], locs[j], keys, true, st);
    FoldersFromStops(folders, locs, keys, true, j + 1, st');
    FolderNextAligned(folders[j], locs[j], keys, true, st);
    FolderNextSettled(folders[j], locs[j], keys, st);
    if j < i {
      at := FoldersFromPlaced(folders, locs, keys, j + 1, st', i, k, base);
    } else {
      var f := folders[i];
      var g := st.(first := None);
      var mid := FilesFrom(f.files, locs[i], 0, g);
      assert mid.err == None;
      at := FilesFromPlaced(f.files, locs[i], 0, g, k, base);
      var data := f.files[k].data;
      FolderCloseKeeps(f.name, keys, mid, locs[i][k], RawPointer(at), at, data);
      FoldersFromKeeps(folders, locs, keys, i + 1, st', locs[i][k], RawPointer(at), at, data);
    }
  }

  /** A name with no whitespace at either end. */
  predicate Trimmed(s: string) {
    s == [] || (!IsSpace(s[0]) && !IsSpace(s[|s| - 1]))
  }

  lemma StripTrimmed(s: string)
    requires Trimmed(s)
    ensures Strip(s, IsSpace) == s
  {
  }

  /** A `folder_pointers` key has at most 4 characters and no whitespace at
      either end. */
  lemma KeyShape(f: InFolder)
    ensures |FolderKey(f)| <= 4 && Trimmed(FolderKey(f))
  {
    var r := RStrip(Pad4(f.name), IsSpace);
    RStripSpec(Pad4(f.name), IsSpace);
    LStripSpec(r, IsSpace);
    var t := FolderKey(f);
    if t != [] {
      assert t == r[|r| - |t|..];
      assert t[|t| - 1] == r[|r| - 1];
    }
  }

  /** A folder named after a key whose own name has the shape of a key is
      looked up under its own key. */
  lemma KeyOfKey(f: InFolder, g: InFolder)
    requires |f.name| <= 4 && Trimmed(f.name) && g.name == FolderKey(f)
    ensures FolderKey(g) == g.name
  {
    var p := Pad4(f.name);
    Pad4Spec(f.name);
    assert Trimmed(p) by {
      if |f.name| < 4 {
        assert p[3] == '\0';
        assert f.name == [] ==> p[0] == '\0';
      }
    }
    StripTrimmed(p);
    Pad4Spec(p);
    StripTrimmed(Pad4(p));
  }

  /** Every key in `folder_pointers` is the key of some folder. */
  predicate KeysNamed(folders: seq<InFolder>, keys: map<string, nat>) {
    forall n :: n in keys ==> exists j :: 0 <= j < |folders| && FolderKey(folders[j]) == n
  }

  lemma {:induction false} TocFromNamed(folders: seq<InFolder>, j: nat, st: TocState)
    requires j <= |folders| && KeysNamed(folders, st.keys)
    ensures KeysNamed(folders, TocFrom(folders, j, st).keys)
    decreases |folders| - j
  {
    if j < |folders| && st.out.err == None {
      var st' := TocNext(folders[j], st);
      forall n | n in st'.keys
        ensures exists j' :: 0 <= j' < |folders| && FolderKey(folders[j']) == n
      {
        if n == FolderKey(folders[j]) {
          assert FolderKey(folders[j]) == n;
        }
      }
      TocFromNamed(folders, j + 1, st');
    }
  }

  /** Every folder with files has its name among the keys. */
  predicate NamesKnown(folders: seq<InFolder>, keys: map<string, nat>) {
    forall m :: 0 <= m < |folders| && folders[m].files != [] ==> folders[m].name in keys
  }

  /** Once a file of a folder is written, the folder has a first pointer. */
  lemma {:induction false} FilesFromFirst(files: seq<InFile>, locs: seq<nat>, k: nat, st: DataState)
    requires k <= |files| == |locs| && st.err == None && FilesFrom(files, locs, k, st).err == None
    requires k < |files| || st.first.Some?
    ensures FilesFrom(files, locs, k, st).first.Some?
    decreases |files| - k
  {
    if k < |files| {
      var st' := FileNext(files[k].data, locs[k], st);
      FilesFromStops(files, locs, k + 1, st');
      FilesFromFirst(files, locs, k + 1, st');
    }
  }

  /** When `_write_file_data` raises nothing, it has found the name of
      every folder with files among the keys. */
  lemma {:induction false} FoldersFromKnown(folders: seq<InFolder>, locs: seq<seq<nat>>, keys: map<string, nat>,
                                            seekBack: bool, j: nat, st: DataState)
    requires LocsFit(folders, locs) && j <= |folders| && st.err == None
    requires FoldersFrom(folders, locs, keys, seekBack, j, st).err == None
    ensures forall m :: j <= m < |folders| && folders[m].files != [] ==> folders[m].name in keys
    decreases |folders| - j
  {
    if j < |folders| {
      var st' := FolderNext(folders[j], locs[j], keys, seekBack, st);
      FoldersFromStops(folders, locs, keys, seekBack, j + 1, st');
      var mid := FilesFrom(folders[j].files, locs[j], 0, st.(first := None));
      assert mid.err == None;
      if folders[j].files != [] {
        FilesFromFirst(folders[j].files, locs[j], 0, st.(first := None));
      }
      FoldersFromKnown(folders, locs, keys, seekBack, j + 1, st');
    }
  }

  lemma {:induction false} EntryStartMono(folders: seq<InFolder>, j1: nat, j2: nat)
    requires j1 < j2 <= |folders|
    ensures EntryStart(folders, j1) + 8 * (|folders[j1].files| + 1) <= EntryStart(folders, j2)
    decreases j2
  {
    if j1 + 1 == j2 {
      EntryStartNext(folders, j1);
    } else {
      EntryStartMono(folders, j1, j2 - 1);
      EntryStartNext(folders, j2 - 1);
    }
  }

  /** The folder whose entry the `folder_pointers` key of folder `i` ends
      up naming: the last one, from `i` on, with the same key. */
  lemma {:induction false} KeyTarget(folders: seq<InFolder>, i: nat) returns (j: nat)
    requires i < |folders|
    ensures i <= j < |folders| && FolderKey(folders[j]) == FolderKey(folders[i]) && LastBefore(folders, j, |folders|)
    decreases |folders| - i
  {
    if LastBefore(folders, i, |folders|) {
      j := i;
    } else {
      var i' :| i < i' < |folders| && FolderKey(folders[i']) == FolderKey(folders[i]);
      j := KeyTarget(folders, i');
    }
  }

  /** The TOC ends 6 bytes or more before 0x4000. */
  predicate TocRoom(folders: seq<InFolder>) {
    TocStart + 8 * RecordCount(folders) + 6 <= DataOffset
  }

  /** Every entry, together with the 6 bytes after it, lies below 0x4000. */
  lemma EntryBelowData(folders: seq<InFolder>, m: nat)
    requires TocRoom(folders) && m < |folders|
    ensures EntryStart(folders, m) + 8 * (|folders[m].files| + 1) + 6 <= DataOffset
  {
    var n := |folders|;
    assert folders[..n] == folders;
    if m + 1 < n {
      EntryStartMono(folders, m, n);
    } else {
      EntryStartNext(folders, m);
    }
  }

  /** The pointer field of file `s` of folder `m` is 12 + 8 * s bytes into
      the folder's entry. */
  lemma FieldInEntry(folders: seq<InFolder>, m: nat, s: nat)
    requires TocWritten(folders).out.err == None && TocRoom(folders)
    requires m < |folders| && s < |folders[m].files|
    ensures var t := TocWritten(folders);
            |t.locs| == |folders| && |t.locs[m]| == |folders[m].files|
            && t.locs[m][s] == EntryStart(folders, m) + 12 + 8 * s && t.locs[m][s] + 2 <= DataOffset
  {
    TocLayout(folders);
    PointerFieldsIndex(EntryStart(folders, m) + 8, |folders[m].files|, s);
    EntryBelowData(folders, m);
  }

  /** The back-patch of a folder with files, looked up by its name, lands
      12 bytes into the entry of a folder `j` that comes at or after it or
      has no files; in the second case the target is the count field of
      the next folder's entry, or lies just past the TOC. */
  lemma CloseTarget(folders: seq<InFolder>, m: nat) returns (j: nat)
    requires TocWritten(folders).out.err == None && NamesKnown(folders, TocWritten(folders).keys)
    requires TocRoom(folders) && m < |folders| && folders[m].files != []
    ensures var keys := TocWritten(folders).keys;
            j < |folders| && folders[m].name in keys && keys[folders[m].name] == EntryStart(folders, j) + 6
            && keys[folders[m].name] + 8 <= DataOffset && (m <= j || folders[j].files == [])
  {
    var t := TocWritten(folders);
    var name := folders[m].name;
    TocLayout(folders);
    TocFromNamed(folders, 0, TocState(Written([], None), map[], [], 0));
    var j0 :| 0 <= j0 < |folders| && FolderKey(folders[j0]) == name;
    j := KeyTarget(folders, j0);
    if folders[j].files != [] {
      // The folder found has files, so its own name is a key, and a key
      // of a key-shaped name is that name: folder m has its own key.
      var j1 :| 0 <= j1 < |folders| && FolderKey(folders[j1]) == folders[j].name;
      KeyShape(folders[j1]);
      KeyOfKey(folders[j], folders[m]);
      j := KeyTarget(folders, m);
    }
    EntryBelowData(folders, j);
  }

  /** The back-patch of folder `m` misses the pointer field of file `k` of
      a folder `i` with `i <= m`, except that folder `i`'s own back-patch
      hits its first file's field. */
  lemma CloseMisses(folders: seq<InFolder>, i: nat, k: nat, m: nat)
    requires TocWritten(folders).out.err == None && NamesKnown(folders, TocWritten(folders).keys)
    requires TocRoom(folders) && i <= m < |folders| && k < |folders[i].files| && folders[m].files != []
    ensures var t := TocWritten(folders);
            |t.locs| == |folders| && |t.locs[i]| == |folders[i].files|
            && folders[m].name in t.keys && t.keys[folders[m].name] + 8 <= DataOffset
            && (var a := t.keys[folders[m].name] + 6;
                a + 2 <= t.locs[i][k] || t.locs[i][k] + 2 <= a || (m == i && k == 0 && a == t.locs[i][k]))
  {
    FieldInEntry(folders, i, k);
    var j := CloseTarget(folders, m);
    if j < i {
      EntryStartMono(folders, j, i);
    } else if j > i {
      EntryStartMono(folders, i, j);
    }
  }

  /** Every TOC write made for a folder after folder `i` misses the pointer
      field of file `k` of folder `i`. */
  lemma LaterFolderWithin(folders: seq<InFolder>, i: nat, k: nat, m: nat)
    requires TocWritten(folders).out.err == None && NamesKnown(folders, TocWritten(folders).keys)
    requires TocRoom(folders) && i < m < |folders| && k < |folders[i].files|
    ensures var t := TocWritten(folders);
            |t.locs| == |folders| && |t.locs[i]| == |folders[i].files|
            && WritesWithin(t.locs[m], t.locs[i][k] + 2) && CloseWithin(folders[m], t.keys, t.locs[i][k])
  {
    var t := TocWritten(folders);
    FieldInEntry(folders, i, k);
    EntryStartMono(folders, i, m);
    TocLocsFit(folders);
    assert |t.locs[m]| == |folders[m].files|;
    forall s | 0 <= s < |t.locs[m]|
      ensures t.locs[i][k] + 2 <= t.locs[m][s] && t.locs[m][s] + 2 <= DataOffset
    {
      FieldInEntry(folders, m, s);
    }
    if folders[m].files != [] {
      CloseMisses(folders, i, k, m);
    }
  }

  /** Where the TOC writes of the data phase fall relative to the pointer
      field of file `k` of folder `i`, when the TOC leaves room and the
      name of every folder with files is a key. */
  lemma PayloadLayout(folders: seq<InFolder>, i: nat, k: nat)
    requires TocWritten(folders).out.err == None && NamesKnown(folders, TocWritten(folders).keys)
    requires TocRoom(folders) && i < |folders| && k < |folders[i].files|
    ensures var t := TocWritten(folders);
            && LocsFit(folders, t.locs)
            && (forall s :: 0 <= s < |t.locs[i]| ==>
                  t.locs[i][s] == EntryStart(folders, i) + 12 + 8 * s && t.locs[i][s] + 2 <= DataOffset)
            && folders[i].name in t.keys && t.keys[folders[i].name] + 8 <= DataOffset
            && (var a := t.keys[folders[i].name] + 6;
                a + 2 <= t.locs[i][k] || t.locs[i][k] + 2 <= a || (k == 0 && a == t.locs[i][k]))
            && LaterWithin(folders, t.locs, t.keys, i + 1, t.locs[i][k])
  {
    var t := TocWritten(folders);
    TocLocsFit(folders);
    forall s | 0 <= s < |t.locs[i]|
      ensures t.locs[i][s] == EntryStart(folders, i) + 12 + 8 * s && t.locs[i][s] + 2 <= DataOffset
    {
      FieldInEntry(folders, i, s);
    }
    CloseMisses(folders, i, k, i);
    forall m | i + 1 <= m < |folders|
      ensures WritesWithin(t.locs[m], t.locs[i][k] + 2) && CloseWithin(folders[m], t.keys, t.locs[i][k])
    {
      LaterFolderWithin(folders, i, k, m);
    }
  }

  /** With the seek back to `current_pointer`, every file of every folder
      can be read back from the file `create_new_dpac` leaves: its raw
      pointer resolves to its payload.  This needs the TOC to end 6 bytes
      or more before 0x4000; a longer TOC runs into the data region, which
      `create_new_dpac` does not check. */
  lemma CreatedPayloadReadable(folders: seq<InFolder>, i: nat, k: nat)
    requires Created(folders, true).err == None && TocRoom(folders)
    requires i < |folders| && k < |folders[i].files|
    ensures var t := TocWritten(folders);
            var img := Created(folders, true).bytes;
            var data := folders[i].files[k].data;
            && |t.locs| == |folders| && k < |t.locs[i]| && t.locs[i][k] + 2 <= |img|
            && Read(img, ResolvePointer(U16LE(img, t.locs[i][k])), |data|) == data
  {
    var h := HeaderWritten(folders);
    var t := TocWritten(folders);
    assert h.err == None && t.out.err == None;
    var image := Overwrite(h.bytes, TocStart, t.out.bytes);
    TocLocsFit(folders);
    var d := DataWritten(image, folders, t.locs, t.keys, true);
    assert d.err == None;
    assert Created(folders, true) == Finalized(d.image, d.total);
    FoldersFromKnown(folders, t.locs, t.keys, true, 0, DataStart(image));
    PayloadLayout(folders, i, k);
    var at := FoldersFromPlaced(folders, t.locs, t.keys, 0, DataStart(image), i, k, EntryStart(folders, i) + 12);
    var data := folders[i].files[k].data;
    var loc := t.locs[i][k];
    TocLocsAbove(folders);
    assert LocsAbove(t.locs[i], TocStart);
    PlacedKept(d.image, 8, EncodeU32LE(d.total), loc, RawPointer(at), at, data);
    ResolveRawPointer(at);
  }

  /** `_finalize_file` leaves every byte after the header alone. */
  lemma FinalizedKeeps(image: seq<byte>, total: nat, i: nat)
    requires total < 0x1_0000_0000 && 16 <= i < |image|
    ensures |Finalized(image, total).bytes| == |image| && Finalized(image, total).bytes[i] == image[i]
  {
    OverwriteLength(image, 8, EncodeU32LE(total));
    OverwriteFrame(image, 8, EncodeU32LE(total), i);
  }
}
