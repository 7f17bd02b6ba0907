/** DPAC.py at the top of the repository: an older reader of DPAC archives,
    class `DirectoryPackage`, and the helpers beside it. */
module DirectoryPackage {
  import opened Bytes
  import opened DpacFormat

  // ---------------------------------------------------------------------
  // Helpers

  /** `AlignTo2048`: `(cp + 2047) & ~2047`.  Clearing the low eleven bits
      of a non-negative number rounds it down to a multiple of 2048. */
  function AlignTo2048(cp: nat): (r: nat)
    ensures r % 2048 == 0 && cp <= r < cp + 2048
  {
    (cp + 2047) / 2048 * 2048
  }

  /** `AlignTo2048` is the least multiple of 2048 at or after `cp`. */
  lemma AlignSmallest(cp: nat, m: nat)
    requires m % 2048 == 0 && m >= cp
    ensures AlignTo2048(cp) <= m
  {
  }

  /** `FixSize`: `val << 8`, the size in bytes of a raw size field; it
      agrees with `resolve_file_size` of DPAC/DPAC.py. */
  function FixSize(v: nat): (r: nat)
    ensures r == ResolveFileSize(v)
  {
    v * 256
  }

  /** `FixOffset`: `(val << 11) + 0x4000`; it agrees with `resolve_pointer`
      of DPAC/DPAC.py, so it lands on a sector of the data region. */
  function FixOffset(v: nat): (r: nat)
    ensures r == ResolvePointer(v) && r >= DataOffset && (r - DataOffset) % Sector == 0
  {
    v * 2048 + 0x4000
  }

  /** `ISOSeek`: the position of sector `v`. */
  function IsoSeek(v: nat): (r: nat)
    ensures r % Sector == 0 && r / Sector == v
  {
    v * 2048
  }

  /** `ResolveIndices` on the two bytes at `pos`: the big-endian value as
      a decimal string. */
  function IndexAt(toc: seq<byte>, pos: nat): (s: string)
    requires pos + 2 <= |toc|
    ensures AllDigits(s) && DecimalValue(s) == U16BE(toc, pos)
  {
    DecimalRoundTrip(U16BE(toc, pos));
    Decimal(U16BE(toc, pos))
  }

  /** The exceptions `DirectoryPackage` lets escape. */
  datatype DpError =
    | Truncated     // struct.error: fewer bytes than the format needs
    | NotAscii      // UnicodeDecodeError from `decode('ascii')`
    | NameTooShort  // ValueError from `Enforce4x2`

  /** `Enforce4x2`: raises for a name of fewer than four characters. */
  function Enforce4x2(name: string): (r: Option<DpError>)
    ensures r.Some? <==> |name| < 4
    ensures r.Some? ==> r.value == NameTooShort
  {
    if |name| < 4 then Some(NameTooShort) else None
  }

  // ---------------------------------------------------------------------
  // `Bin2Dict`, as a function of the two buffers

  /** One tuple of a folder's entry list: the name or decimal index, the
      size in bytes and the data offset. */
  datatype Entry = Entry(key: string, size: nat, ptr: nat)

  /** One tuple of `self.Contents`. */
  datatype Folder = Folder(name: string, fileCount: nat, entries: seq<Entry>)

  /** A 4-byte name decoded as ASCII, trailing spaces removed. */
  function NameOf(nb: seq<byte>): string {
    RStrip(Latin1(nb), IsBlank)
  }

  /** Progress through the file loop of one folder: the TOC and data
      positions, the `yes` counter, the entries so far, the exception raised. */
  datatype Entries = Entries(tocPos: nat, dataPos: nat, yes: int, entries: seq<Entry>, err: Option<DpError>)

  /** The entry of a named record at `p`: its ASCII name, `FixSize` of the
      size field and `FixOffset` of the offset field. */
  function NamedRecord(toc: seq<byte>, p: nat): Entry
    requires p + 8 <= |toc|
  {
    Entry(NameOf(toc[p..p + 4]), FixSize(U16LE(toc, p + 6)), FixOffset(U16LE(toc, p + 4)))
  }

  /** The entry of a numeric record at `p` read while the data buffer
      stands at `ptr`: the big-endian index in decimal and `FixSize` of the
      size field. */
  function NumericRecord(toc: seq<byte>, p: nat, ptr: nat): Entry
    requires p + 4 <= |toc|
  {
    Entry(IndexAt(toc, p), FixSize(U16LE(toc, p + 2)), ptr)
  }

  /** Bytes a record of either mode occupies. */
  function Width(numeric: bool): nat { if numeric then 4 else 8 }

  /** A numeric-mode record: a big-endian index and a size; the entry
      starts where the data buffer stands, and reading it moves the buffer on. */
  function NumericEntry(toc: seq<byte>, data: seq<byte>, e: Entries): (r: Entries)
    requires e.tocPos <= |toc|
    ensures r.tocPos <= |toc|
  {
    var p := e.tocPos;
    if p + 2 > |toc| then e.(tocPos := |toc|, err := Some(Truncated))
    else if p + 4 > |toc| then e.(tocPos := |toc|, yes := e.yes - 2, err := Some(Truncated))
    else
      var entry := NumericRecord(toc, p, e.dataPos);
      Entries(p + 4, DataAfter(data, e.dataPos, entry.size), e.yes - 4, e.entries + [entry], None)
  }

  /** A named record: an ASCII name, a raw offset and a raw size. */
  function NamedEntry(toc: seq<byte>, data: seq<byte>, e: Entries): (r: Entries)
    requires e.tocPos <= |toc|
    ensures r.tocPos <= |toc|
  {
    var p := e.tocPos;
    if p + 4 > |toc| then e.(tocPos := |toc|, err := Some(Truncated))
    else if !IsAscii(toc[p..p + 4]) then e.(tocPos := p + 4, err := Some(NotAscii))
    else if p + 8 > |toc| then e.(tocPos := |toc|, yes := e.yes - 4, err := Some(Truncated))
    else
      var entry := NamedRecord(toc, p);
      Entries(p + 8, DataAfter(data, entry.ptr, entry.size), e.yes - 8, e.entries + [entry], None)
  }

  function EntryNext(toc: seq<byte>, data: seq<byte>, numeric: bool, e: Entries): (r: Entries)
    requires e.tocPos <= |toc|
    ensures r.tocPos <= |toc|
  {
    if numeric then NumericEntry(toc, data, e) else NamedEntry(toc, data, e)
  }

  /** Iterations `i` to `n` of `for i in range(fileCount)`. */
  function EntriesFrom(toc: seq<byte>, data: seq<byte>, numeric: bool, n: nat, i: nat, e: Entries): (r: Entries)
    requires i <= n && e.tocPos <= |toc|
    ensures r.tocPos <= |toc|
    decreases n - i
  {
    if i == n || e.err.Some? then e
    else EntriesFrom(toc, data, numeric, n, i + 1, EntryNext(toc, data, numeric, e))
  }

  /** Where `Bin2Dict` stands between folders. */
  datatype Bin = Bin(tocPos: nat, dataPos: nat, yes: int, contents: seq<Folder>, err: Option<DpError>)

  /** Whether a folder header is numeric: its first count byte is 0x80. */
  predicate NumericAt(toc: seq<byte>, p: nat)
    requires p + 6 <= |toc|
  {
    toc[p + 4] == 0x80
  }

  /** `fileCount`: the second count byte halved in numeric mode, the whole
      little-endian field halved otherwise. */
  function CountAt(toc: seq<byte>, p: nat): nat
    requires p + 6 <= |toc|
  {
    if NumericAt(toc, p) then toc[p + 5] / 2 else U16LE(toc, p + 4) / 2
  }

  /** The folder header of one pass of the `while 0 < yes` loop: a name,
      then the count field and the base offset. */
  function FolderHead(toc: seq<byte>, b: Bin): (h: Bin)
    requires b.tocPos <= |toc|
    ensures h.tocPos <= |toc| && h.contents == b.contents
    ensures h.err == None ==>
              && b.tocPos + 8 <= |toc| && IsAscii(toc[b.tocPos..b.tocPos + 4])
              && h == b.(tocPos := b.tocPos + 8, dataPos := FixOffset(U16LE(toc, b.tocPos + 6)), yes := b.yes - 8)
  {
    var p := b.tocPos;
    if p + 4 > |toc| then b.(tocPos := |toc|, err := Some(Truncated))
    else if !IsAscii(toc[p..p + 4]) then b.(tocPos := p + 4, err := Some(NotAscii))
    else FieldsHead(toc, b.(tocPos := p + 4, yes := b.yes - 4))
  }

  /** The count field and the base offset of a folder header, to which
      the data buffer moves. */
  function FieldsHead(toc: seq<byte>, b: Bin): (h: Bin)
    requires b.tocPos <= |toc|
    ensures h.tocPos <= |toc| && h.contents == b.contents
  {
    var q := b.tocPos;
    if q + 2 > |toc| then b.(tocPos := |toc|, err := Some(Truncated))
    else if q + 4 > |toc| then b.(tocPos := |toc|, yes := b.yes - 2, err := Some(Truncated))
    else b.(tocPos := q + 4, dataPos := FixOffset(U16LE(toc, q + 2)), yes := b.yes - 4)
  }

  /** One pass of the `while 0 < yes` loop: a folder header and its files. */
  function FolderStep(toc: seq<byte>, data: seq<byte>, b: Bin): (r: Bin)
    requires b.tocPos <= |toc|
    ensures r.tocPos <= |toc|
  {
    var h := FolderHead(toc, b);
    if h.err.Some? then h
    else
      var p := b.tocPos;
      var numeric, count := NumericAt(toc, p), CountAt(toc, p);
      var e := EntriesFrom(toc, data, numeric, count, 0, Entries(h.tocPos, h.dataPos, h.yes, [], None));
      Bin(e.tocPos, e.dataPos, e.yes,
          if e.err.None? then b.contents + [Folder(NameOf(toc[p..p + 4]), count, e.entries)] else b.contents,
          e.err)
  }

  /** The loop from `b` on. */
  function Bin2DictFrom(toc: seq<byte>, data: seq<byte>, b: Bin): (r: Bin)
    requires b.tocPos <= |toc|
    ensures r.tocPos <= |toc|
    decreases if b.yes > 0 then b.yes else 0
  {
    if b.err.Some? || b.yes <= 0 then b
    else
      var b' := FolderStep(toc, data, b);
      FolderLayout(toc, data, b);
      if b'.err.Some? then b' else Bin2DictFrom(toc, data, b')
  }

  /** Everything `Bin2Dict` does, from the buffers' positions: the counter
      starts at the length of the whole TOC buffer. */
  function Bin2DictSpec(toc: seq<byte>, data: seq<byte>, tocPos: nat, dataPos: nat): Bin
    requires tocPos <= |toc|
  {
    Bin2DictFrom(toc, data, Bin(tocPos, dataPos, |toc|, [], None))
  }

  // ---------------------------------------------------------------------
  // Properties of the walk

  /** A file loop that raises nothing reads exactly one record per file,
      lowers `yes` by the record width each time and appends one entry per
      file. */
  lemma {:induction false} EntriesConsume(toc: seq<byte>, data: seq<byte>, numeric: bool, n: nat, i: nat, e: Entries)
    requires i <= n && e.tocPos <= |toc| && e.err == None
    requires EntriesFrom(toc, data, numeric, n, i, e).err == None
    ensures var r := EntriesFrom(toc, data, numeric, n, i, e);
            && r.tocPos == e.tocPos + (n - i) * Width(numeric)
            && r.yes == e.yes - (n - i) * Width(numeric)
            && |r.entries| == |e.entries| + (n - i) && r.entries[..|e.entries|] == e.entries
    decreases n - i
  {
    if i < n {
      EntriesStep(toc, data, numeric, n, i, e);
      var e' := EntryNext(toc, data, numeric, e);
      var w := Width(numeric);
      assert e'.tocPos == e.tocPos + w && e'.yes == e.yes - w
          && |e'.entries| == |e.entries| + 1 && e'.entries[..|e.entries|] == e.entries by {
        if numeric { NumericEntryOk(toc, data, e); } else { NamedEntryOk(toc, data, e); }
      }
      EntriesConsume(toc, data, numeric, n, i + 1, e');
      assert (n - i) * w == (n - (i + 1)) * w + w;
      var r := EntriesFrom(toc, data, numeric, n, i, e);
      assert r.entries[..|e'.entries|][..|e.entries|] == r.entries[..|e.entries|];
    }
  }

  /** A folder read without an exception: numeric exactly when its first
      count byte is 0x80, with `CountAt` files, consuming the 8-byte header
      and one record per file, lowering `yes` by as many bytes and
      appending one tuple with one entry per file. */
  lemma FolderLayout(toc: seq<byte>, data: seq<byte>, b: Bin)
    requires b.tocPos <= |toc|
    ensures var r := FolderStep(toc, data, b);
            r.err == None && b.err == None ==>
              && b.tocPos + 8 <= |toc|
              && var count := CountAt(toc, b.tocPos);
                 && r.tocPos == b.tocPos + 8 + count * Width(NumericAt(toc, b.tocPos))
                 && r.yes == b.yes - (r.tocPos - b.tocPos) && r.yes <= b.yes - 8
                 && |r.contents| == |b.contents| + 1 && r.contents[..|b.contents|] == b.contents
                 && r.contents[|b.contents|].name == NameOf(toc[b.tocPos..b.tocPos + 4])
                 && r.contents[|b.contents|].fileCount == count
                 && |r.contents[|b.contents|].entries| == count
  {
    var p := b.tocPos;
    var r := FolderStep(toc, data, b);
    if r.err == None && b.err == None {
      var numeric, count := NumericAt(toc, p), CountAt(toc, p);
      var e0 := Entries(p + 8, FixOffset(U16LE(toc, p + 6)), b.yes - 8, [], None);
      EntriesConsume(toc, data, numeric, count, 0, e0);
      assert (b.contents + [r.contents[|b.contents|]])[..|b.contents|] == b.contents;
    }
  }

  /** The tuple a folder adds holds its records in order: in named mode
      the 8-byte records after the header, in numeric mode the 4-byte
      records, the first starting at the folder's base offset. */
  lemma FolderRecords(toc: seq<byte>, data: seq<byte>, b: Bin)
    requires b.tocPos <= |toc| && b.err == None && FolderStep(toc, data, b).err == None
    ensures var p := b.tocPos;
            && p + 8 <= |toc|
            && var count := CountAt(toc, p);
               && p + 8 + Width(NumericAt(toc, p)) * count <= |toc|
               && var r := FolderStep(toc, data, b);
                  && |r.contents| == |b.contents| + 1
                  && r.contents[|b.contents|].entries
                     == if NumericAt(toc, p) then NumericRecords(toc, data, p + 8, FixOffset(U16LE(toc, p + 6)), count)
                        else NamedRecords(toc, p + 8, count)
  {
    var p := b.tocPos;
    FolderStepEntries(toc, data, b);
    var numeric, count := NumericAt(toc, p), CountAt(toc, p);
    var e0 := Entries(p + 8, FixOffset(U16LE(toc, p + 6)), b.yes - 8, [], None);
    var e := EntriesFrom(toc, data, numeric, count, 0, e0);
    var r := FolderStep(toc, data, b);
    assert |r.contents| == |b.contents| + 1 && r.contents[|b.contents|].entries == e.entries;
    if numeric {
      NumericEntriesAre(toc, data, count, 0, e0);
      assert Width(numeric) * count == 4 * count;
    } else {
      NamedEntriesAre(toc, data, count, 0, e0);
      assert Width(numeric) * count == 8 * count;
    }
  }

  /** A folder read without an exception appends one tuple, whose entries
      are those of the file loop started right after the 8-byte header. */
  lemma FolderStepEntries(toc: seq<byte>, data: seq<byte>, b: Bin)
    requires b.tocPos <= |toc| && b.err == None && FolderStep(toc, data, b).err == None
    ensures var p := b.tocPos;
            && p + 8 <= |toc|
            && var e0 := Entries(p + 8, FixOffset(U16LE(toc, p + 6)), b.yes - 8, [], None);
               && var e := EntriesFrom(toc, data, NumericAt(toc, p), CountAt(toc, p), 0, e0);
                  && e.err == None
                  && FolderStep(toc, data, b).contents == b.contents + [Folder(NameOf(toc[p..p + 4]), CountAt(toc, p), e.entries)]
  {
    assert FolderHead(toc, b).err == None;
  }

  /** Every iteration of the loop keeps `tocPos + yes` fixed. */
  lemma {:induction false} Bin2DictBalance(toc: seq<byte>, data: seq<byte>, b: Bin)
    requires b.tocPos <= |toc| && b.err == None
    requires Bin2DictFrom(toc, data, b).err == None
    ensures var r := Bin2DictFrom(toc, data, b);
            r.tocPos + r.yes == b.tocPos + b.yes && r.yes <= 0 && b.contents <= r.contents
    decreases if b.yes > 0 then b.yes else 0
  {
    if b.yes > 0 {
      var b' := FolderStep(toc, data, b);
      FolderLayout(toc, data, b);
      Bin2DictBalance(toc, data, b');
    }
  }

  /** `Bin2Dict` finishes without an exception only when it starts at the
      head of the TOC buffer and the records fill that buffer exactly: the
      counter ends at 0 and the buffer is read to its end. */
  lemma Bin2DictTiles(toc: seq<byte>, data: seq<byte>, tocPos: nat, dataPos: nat)
    requires tocPos <= |toc| && Bin2DictSpec(toc, data, tocPos, dataPos).err == None
    ensures var r := Bin2DictSpec(toc, data, tocPos, dataPos);
            tocPos == 0 && r.tocPos == |toc| && r.yes == 0
  {
    Bin2DictBalance(toc, data, Bin(tocPos, dataPos, |toc|, [], None));
  }

  /** One loop iteration that raises nothing, unfolded. */
  lemma EntriesStep(toc: seq<byte>, data: seq<byte>, numeric: bool, n: nat, i: nat, e: Entries)
    requires i < n && e.tocPos <= |toc| && e.err == None
    requires EntriesFrom(toc, data, numeric, n, i, e).err == None
    ensures EntryNext(toc, data, numeric, e).err == None
    ensures EntriesFrom(toc, data, numeric, n, i, e) == EntriesFrom(toc, data, numeric, n, i + 1, EntryNext(toc, data, numeric, e))
  {
  }

  /** A named record read without an exception: eight bytes, one entry. */
  lemma NamedEntryOk(toc: seq<byte>, data: seq<byte>, e: Entries)
    requires e.tocPos <= |toc| && NamedEntry(toc, data, e).err == None
    ensures var p := e.tocPos;
            && p + 8 <= |toc|
            && var r := NamedEntry(toc, data, e);
               && r.tocPos == p + 8 && r.yes == e.yes - 8
               && r.entries == e.entries + [NamedRecord(toc, p)]
  {
  }

  /** A numeric record read without an exception: four bytes, one entry
      starting at the data position, which moves past the bytes read. */
  lemma NumericEntryOk(toc: seq<byte>, data: seq<byte>, e: Entries)
    requires e.tocPos <= |toc| && NumericEntry(toc, data, e).err == None
    ensures var p := e.tocPos;
            && p + 4 <= |toc|
            && var r := NumericEntry(toc, data, e);
               && r.tocPos == p + 4 && r.yes == e.yes - 4
               && r.entries == e.entries + [NumericRecord(toc, p, e.dataPos)]
               && r.dataPos == DataAfter(data, e.dataPos, r.entries[|e.entries|].size)
  {
  }

  /** The entries of `m` consecutive named records from `p`. */
  function NamedRecords(toc: seq<byte>, p: nat, m: nat): (r: seq<Entry>)
    requires p + 8 * m <= |toc|
    ensures |r| == m
    decreases m
  {
    if m == 0 then [] else [NamedRecord(toc, p)] + NamedRecords(toc, p + 8, m - 1)
  }

  /** A named file loop that raises nothing reads one record per file, in
      order: its entries are the consecutive 8-byte records after the header. */
  lemma {:induction false} NamedEntriesAre(toc: seq<byte>, data: seq<byte>, n: nat, i: nat, e: Entries)
    requires i <= n && e.tocPos <= |toc| && e.err == None
    requires EntriesFrom(toc, data, false, n, i, e).err == None
    ensures e.tocPos + 8 * (n - i) <= |toc|
    ensures EntriesFrom(toc, data, false, n, i, e).entries == e.entries + NamedRecords(toc, e.tocPos, n - i)
    decreases n - i
  {
    if i < n {
      EntriesStep(toc, data, false, n, i, e);
      var e' := NamedEntry(toc, data, e);
      NamedEntryOk(toc, data, e);
      NamedEntriesAre(toc, data, n, i + 1, e');
      assert e.entries + [NamedRecord(toc, e.tocPos)] + NamedRecords(toc, e.tocPos + 8, n - (i + 1))
          == e.entries + NamedRecords(toc, e.tocPos, n - i);
    }
  }

  /** Where the data buffer stands after reading `size` bytes from `ptr`:
      past the bytes read, which end early only at the end of the buffer. */
  function DataAfter(data: seq<byte>, ptr: nat, size: nat): nat {
    if ptr >= |data| then ptr else Min(ptr + size, |data|)
  }

  /** Reading `size` bytes at `ptr` leaves the data buffer at `DataAfter`:
      past the bytes read, exactly `ptr + size` while the buffer lasts. */
  lemma DataAfterRead(data: seq<byte>, ptr: nat, size: nat)
    ensures DataAfter(data, ptr, size) == ptr + |Read(data, ptr, size)|
    ensures ptr + size <= |data| ==> DataAfter(data, ptr, size) == ptr + size
    ensures ptr + size > |data| ==> DataAfter(data, ptr, size) == Max(ptr, |data|)
  {
  }

  /** The entries of `m` consecutive numeric records from `p`, the first
      read with the data buffer at `ptr`, each later one where the bytes of
      the one before end. */
  function NumericRecords(toc: seq<byte>, data: seq<byte>, p: nat, ptr: nat, m: nat): (r: seq<Entry>)
    requires p + 4 * m <= |toc|
    ensures |r| == m
    decreases m
  {
    if m == 0 then []
    else
      var entry := NumericRecord(toc, p, ptr);
      [entry] + NumericRecords(toc, data, p + 4, DataAfter(data, ptr, entry.size), m - 1)
  }

  /** The first of `m` numeric records, then the rest from where its
      bytes end. */
  lemma NumericRecordsUnfold(toc: seq<byte>, data: seq<byte>, p: nat, ptr: nat, m: nat)
    requires p + 4 * m <= |toc| && m > 0
    ensures var entry := NumericRecord(toc, p, ptr);
            NumericRecords(toc, data, p, ptr, m) == [entry] + NumericRecords(toc, data, p + 4, DataAfter(data, ptr, entry.size), m - 1)
  {
  }

  /** One pass of a numeric file loop that raises nothing: four bytes
      read, one entry appended, the data buffer moved past its bytes. */
  lemma NumericLoopStep(toc: seq<byte>, data: seq<byte>, n: nat, i: nat, e: Entries)
    requires i < n && e.tocPos <= |toc| && e.err == None
    requires EntriesFrom(toc, data, true, n, i, e).err == None
    ensures e.tocPos + 4 <= |toc|
    ensures var entry := NumericRecord(toc, e.tocPos, e.dataPos);
            var e' := Entries(e.tocPos + 4, DataAfter(data, e.dataPos, entry.size), e.yes - 4, e.entries + [entry], None);
            && EntriesFrom(toc, data, true, n, i + 1, e').err == None
            && EntriesFrom(toc, data, true, n, i, e) == EntriesFrom(toc, data, true, n, i + 1, e')
  {
    EntriesStep(toc, data, true, n, i, e);
    NumericEntryOk(toc, data, e);
  }

  /** Appending the first of `m` numeric records, then the rest, appends
      all `m`. */
  lemma NumericRecordsAppend(toc: seq<byte>, data: seq<byte>, es: seq<Entry>, p: nat, ptr: nat, m: nat)
    requires p + 4 * m <= |toc| && m > 0
    ensures var entry := NumericRecord(toc, p, ptr);
            (es + [entry]) + NumericRecords(toc, data, p + 4, DataAfter(data, ptr, entry.size), m - 1)
            == es + NumericRecords(toc, data, p, ptr, m)
  {
    var entry := NumericRecord(toc, p, ptr);
    var rest := NumericRecords(toc, data, p + 4, DataAfter(data, ptr, entry.size), m - 1);
    NumericRecordsUnfold(toc, data, p, ptr, m);
    assert es + [entry] + rest == es + ([entry] + rest);
  }

  /** A numeric file loop that raises nothing reads one record per file, in
      order, each entry starting where the previous one's bytes end. */
  lemma {:induction false} NumericEntriesAre(toc: seq<byte>, data: seq<byte>, n: nat, i: nat, e: Entries)
    requires i <= n && e.tocPos <= |toc| && e.err == None
    requires EntriesFrom(toc, data, true, n, i, e).err == None
    ensures e.tocPos + 4 * (n - i) <= |toc|
    ensures EntriesFrom(toc, data, true, n, i, e).entries == e.entries + NumericRecords(toc, data, e.tocPos, e.dataPos, n - i)
    decreases n - i
  {
    if i < n {
      NumericLoopStep(toc, data, n, i, e);
      var entry := NumericRecord(toc, e.tocPos, e.dataPos);
      var e' := Entries(e.tocPos + 4, DataAfter(data, e.dataPos, entry.size), e.yes - 4, e.entries + [entry], None);
      NumericEntriesAre(toc, data, n, i + 1, e');
      NumericRecordsAppend(toc, data, e.entries, e.tocPos, e.dataPos, n - i);
    }
  }

  /** Entries lie back to back in the data buffer: each one after the
      first starts where the bytes of the one before end. */
  predicate Chained(data: seq<byte>, es: seq<Entry>) {
    forall k :: 0 <= k < |es| - 1 ==> es[k + 1].ptr == DataAfter(data, es[k].ptr, es[k].size)
  }

  /** Consecutive numeric records lie back to back in the data buffer,
      the first at `ptr`: entry `k + 1` starts where the bytes of entry `k`
      end, which is right after them as long as the buffer lasts. */
  lemma {:induction false} NumericRecordsContiguous(toc: seq<byte>, data: seq<byte>, p: nat, ptr: nat, m: nat)
    requires p + 4 * m <= |toc|
    ensures var es := NumericRecords(toc, data, p, ptr, m);
            Chained(data, es) && (m > 0 ==> es[0].ptr == ptr)
    decreases m
  {
    if m > 0 {
      var entry := NumericRecord(toc, p, ptr);
      var next := DataAfter(data, ptr, entry.size);
      var rest := NumericRecords(toc, data, p + 4, next, m - 1);
      NumericRecordsUnfold(toc, data, p, ptr, m);
      var es := [entry] + rest;
      NumericRecordsContiguous(toc, data, p + 4, next, m - 1);
      forall k | 0 <= k < |es| - 1
        ensures es[k + 1].ptr == DataAfter(data, es[k].ptr, es[k].size)
      {
        if k > 0 {
          assert es[k] == rest[k - 1] && es[k + 1] == rest[k];
        }
      }
    }
  }

  // ---------------------------------------------------------------------
  // The object

  /** A `DirectoryPackage` instance: its TOC and data buffers (`BytesIO`)
      with their positions, and `Contents`. */
  class Package {
    var toc: seq<byte>
    var tocPos: nat
    var data: seq<byte>
    var dataPos: nat
    var contents: seq<Folder>

    /** A `BytesIO` position never passes the end of the TOC buffer here. */
    predicate Valid()
      reads this
    {
      tocPos <= |toc|
    }

    /** An instance before `Load`: empty buffers. */
    constructor ()
      ensures Valid() && toc == [] && tocPos == 0 && data == [] && dataPos == 0 && contents == []
    {
      toc, tocPos, data, dataPos, contents := [], 0, [], 0, [];
    }

    /** `Load` on a file holding `file`: three little-endian words at offset
        4 (`SubSectorSize`, `DataSize`, `SectorCount`), the TOC buffer of
        `SubSectorSize` bytes from sector 1 and the data buffer of
        `DataSize` bytes from sector `SectorCount + 1`. */
    method Load(file: seq<byte>) returns (err: Option<DpError>)
      modifies this
      ensures Valid()
      ensures |file| < 16 ==> err == Some(Truncated) && toc == old(toc) && tocPos == old(tocPos)
                              && data == old(data) && dataPos == old(dataPos)
      ensures |file| >= 16 ==> err == None && tocPos == 0 && dataPos == 0
                               && toc == Read(file, IsoSeek(1), U32LE(file, 4))
                               && data == Read(file, IsoSeek(U32LE(file, 12) + 1), U32LE(file, 8))
      ensures contents == old(contents)
      requires Valid()
    {
      if |file| < 16 {
        return Some(Truncated);
      }
      var subSectorSize, dataSize, sectorCount := U32LE(file, 4), U32LE(file, 8), U32LE(file, 12);
      var t := Read(file, IsoSeek(1), subSectorSize);
      var nextSector := sectorCount + 1;
      var d := Read(file, IsoSeek(nextSector), dataSize);
      data, dataPos := d, 0;
      toc, tocPos := t, 0;
      return None;
    }

    /** `Bin2Dict`: the folder walk over the TOC buffer, reading entry
        positions from the data buffer. */
    method Bin2Dict() returns (result: seq<Folder>, err: Option<DpError>)
      requires Valid()
      modifies this
      ensures Valid() && toc == old(toc) && data == old(data)
      ensures var b := Bin2DictSpec(old(toc), old(data), old(tocPos), old(dataPos));
              tocPos == b.tocPos && dataPos == b.dataPos && contents == b.contents && err == b.err
      ensures err == None ==> result == contents
    {
      ghost var goal := Bin2DictSpec(toc, data, tocPos, dataPos);
      var yes: int := |toc|;
      contents := [];
      while 0 < yes
        invariant Valid() && toc == old(toc) && data == old(data)
        invariant Bin2DictFrom(toc, data, Bin(tocPos, dataPos, yes, contents, None)) == goal
        decreases if yes > 0 then yes else 0
      {
        ghost var b := Bin(tocPos, dataPos, yes, contents, None);
        FolderLayout(toc, data, b);
        yes, err := ReadFolder(yes);
        assert Bin(tocPos, dataPos, yes, contents, err) == FolderStep(toc, data, b);
        if err != None {
          return contents, err;
        }
      }
      return contents, None;
    }

    /** One pass of the loop of `Bin2Dict`. */
    method ReadFolder(yes: int) returns (yes': int, err: Option<DpError>)
      requires Valid()
      modifies this
      ensures Valid() && toc == old(toc) && data == old(data)
      ensures Bin(tocPos, dataPos, yes', contents, err)
              == FolderStep(toc, data, Bin(old(tocPos), old(dataPos), yes, old(contents), None))
    {
      var folderName, numeric, fileCount;
      yes', folderName, numeric, fileCount, err := ReadFolderHeader(yes);
      if err != None {
        return;
      }
      var entry: seq<Entry>;
      entry, yes', err := ReadEntries(numeric, fileCount, yes');
      if err == None {
        contents := contents + [Folder(folderName, fileCount, entry)];
      }
    }

    /** The folder header: the name, then the count field and the base. */
    method ReadFolderHeader(yes: int) returns (yes': int, folderName: string, numeric: bool, fileCount: nat, err: Option<DpError>)
      requires Valid()
      modifies this
      ensures Valid() && toc == old(toc) && data == old(data) && contents == old(contents)
      ensures Bin(tocPos, dataPos, yes', contents, err) == FolderHead(toc, Bin(old(tocPos), old(dataPos), yes, contents, None))
      ensures err == None ==>
                var p := old(tocPos);
                && p + 8 <= |toc| && folderName == NameOf(toc[p..p + 4])
                && numeric == NumericAt(toc, p) && fileCount == CountAt(toc, p)
    {
      ghost var p := tocPos;
      yes', folderName, numeric, fileCount := yes, [], false, 0;
      var nameBytes := Read(toc, tocPos, 4);
      tocPos := tocPos + |nameBytes|;
      if |nameBytes| < 4 {
        return yes', folderName, numeric, fileCount, Some(Truncated);
      }
      assert nameBytes == toc[p..p + 4];
      if !IsAscii(nameBytes) {
        return yes', folderName, numeric, fileCount, Some(NotAscii);
      }
      folderName := NameOf(nameBytes);
      yes' := yes' - 4;
      yes', numeric, fileCount, err := ReadFolderFields(yes');
    }

    /** The count field, read once in numeric mode and, after seeking back,
        once more as a whole otherwise, then the base offset. */
    method ReadFolderFields(yes: int) returns (yes': int, numeric: bool, fileCount: nat, err: Option<DpError>)
      requires Valid()
      modifies this
      ensures Valid() && toc == old(toc) && data == old(data) && contents == old(contents)
      ensures Bin(tocPos, dataPos, yes', contents, err) == FieldsHead(toc, Bin(old(tocPos), old(dataPos), yes, contents, None))
      ensures err == None ==>
                var q := old(tocPos);
                && q + 4 <= |toc| && numeric == (toc[q] == 0x80)
                && fileCount == if numeric then toc[q + 1] / 2 else U16LE(toc, q) / 2
    {
      ghost var q := tocPos;
      var ok;
      yes', numeric, fileCount, ok := ReadCountField(yes);
      if !ok {
        return yes', numeric, fileCount, Some(Truncated);
      }
      var baseBytes := Read(toc, tocPos, 2);
      tocPos := tocPos + |baseBytes|;
      if |baseBytes| < 2 {
        return yes', numeric, fileCount, Some(Truncated);
      }
      yes' := yes' - 2;
      assert baseBytes == toc[q + 2..q + 4];
      dataPos := FixOffset(U16LE(baseBytes, 0));
      err := None;
    }

    /** The count field: its first byte, read alone, selects numeric mode
        and its second byte the count; otherwise the buffer seeks back and
        reads both bytes as one little-endian count. */
    method ReadCountField(yes: int) returns (yes': int, numeric: bool, fileCount: nat, ok: bool)
      requires Valid()
      modifies this
      ensures Valid() && toc == old(toc) && data == old(data) && contents == old(contents) && dataPos == old(dataPos)
      ensures var q := old(tocPos);
              if q + 2 > |toc| then !ok && tocPos == |toc| && yes' == yes
              else && ok && tocPos == q + 2 && yes' == yes - 2
                   && numeric == (toc[q] == 0x80)
                   && fileCount == if numeric then toc[q + 1] / 2 else U16LE(toc, q) / 2
    {
      ghost var q := tocPos;
      yes', numeric, fileCount := yes, false, 0;
      var v := Read(toc, tocPos, 2);
      tocPos := tocPos + |v|;
      if |v| < 2 {
        return yes', numeric, fileCount, false;
      }
      assert v == toc[q..q + 2];
      if v[0] == 0x80 {
        fileCount, numeric := v[1] / 2, true;
      } else {
        tocPos := tocPos - 2;
        var c := Read(toc, tocPos, 2);
        tocPos := tocPos + |c|;
        assert c == v;
        fileCount, numeric := U16LE(c, 0) / 2, false;
      }
      yes' := yes' - 2;
      ok := true;
    }

    /** The `for i in range(fileCount)` loop of either mode. */
    method ReadEntries(numeric: bool, fileCount: nat, yes: int) returns (entry: seq<Entry>, yes': int, err: Option<DpError>)
      requires Valid()
      modifies this
      ensures Valid() && toc == old(toc) && data == old(data) && contents == old(contents)
      ensures Entries(tocPos, dataPos, yes', entry, err)
              == EntriesFrom(toc, data, numeric, fileCount, 0, Entries(old(tocPos), old(dataPos), yes, [], None))
    {
      ghost var goal := EntriesFrom(toc, data, numeric, fileCount, 0, Entries(tocPos, dataPos, yes, [], None));
      entry, yes', err := [], yes, None;
      var i := 0;
      while i < fileCount
        invariant i <= fileCount && Valid() && toc == old(toc) && data == old(data) && contents == old(contents)
        invariant err == None
        invariant EntriesFrom(toc, data, numeric, fileCount, i, Entries(tocPos, dataPos, yes', entry, None)) == goal
      {
        ghost var e := Entries(tocPos, dataPos, yes', entry, None);
        if numeric {
          entry, yes', err := ReadNumericEntry(entry, yes');
        } else {
          entry, yes', err := ReadNamedEntry(entry, yes');
        }
        assert Entries(tocPos, dataPos, yes', entry, err) == EntryNext(toc, data, numeric, e);
        if err != None {
          assert EntriesFrom(toc, data, numeric, fileCount, i + 1, Entries(tocPos, dataPos, yes', entry, err))
                 == Entries(tocPos, dataPos, yes', entry, err);
          return;
        }
        i := i + 1;
      }
    }

    method ReadNumericEntry(entry: seq<Entry>, yes: int) returns (entry': seq<Entry>, yes': int, err: Option<DpError>)
      requires Valid()
      modifies this
      ensures Valid() && toc == old(toc) && data == old(data) && contents == old(contents)
      ensures Entries(tocPos, dataPos, yes', entry', err) == NumericEntry(toc, data, Entries(old(tocPos), old(dataPos), yes, entry, None))
    {
      ghost var p := tocPos;
      entry', yes', err := entry, yes, None;
      var ib := Read(toc, tocPos, 2);
      tocPos := tocPos + |ib|;
      if |ib| < 2 {
        return entry', yes', Some(Truncated);
      }
      assert ib == toc[p..p + 2];
      var index := Decimal(U16BE(ib, 0));
      yes' := yes' - 2;
      var sb := Read(toc, tocPos, 2);
      tocPos := tocPos + |sb|;
      if |sb| < 2 {
        return entry', yes', Some(Truncated);
      }
      assert sb == toc[p + 2..p + 4];
      yes' := yes' - 2;
      var ptr := dataPos;
      var size := FixSize(U16LE(sb, 0));
      var got := Read(data, dataPos, size);
      DataAfterRead(data, dataPos, size);
      dataPos := dataPos + |got|;
      entry' := entry' + [Entry(index, size, ptr)];
    }

    method ReadNamedEntry(entry: seq<Entry>, yes: int) returns (entry': seq<Entry>, yes': int, err: Option<DpError>)
      requires Valid()
      modifies this
      ensures Valid() && toc == old(toc) && data == old(data) && contents == old(contents)
      ensures Entries(tocPos, dataPos, yes', entry', err) == NamedEntry(toc, data, Entries(old(tocPos), old(dataPos), yes, entry, None))
    {
      ghost var p := tocPos;
      entry', yes', err := entry, yes, None;
      var nb := Read(toc, tocPos, 4);
      tocPos := tocPos + |nb|;
      if |nb| < 4 {
        return entry', yes', Some(Truncated);
      }
      if !IsAscii(nb) {
        return entry', yes', Some(NotAscii);
      }
      assert nb == toc[p..p + 4];
      var name := NameOf(nb);
      yes' := yes' - 4;
      var fields := Read(toc, tocPos, 4);
      tocPos := tocPos + |fields|;
      if |fields| < 4 {
        return entry', yes', Some(Truncated);
      }
      assert fields == toc[p + 4..p + 8];
      assert U16LE(fields, 0) == U16LE(toc, p + 4) && U16LE(fields, 2) == U16LE(toc, p + 6);
      yes' := yes' - 4;
      var ptr := FixOffset(U16LE(fields, 0));
      var size := FixSize(U16LE(fields, 2));
      dataPos := ptr;
      var got := Read(data, dataPos, size);
      DataAfterRead(data, dataPos, size);
      dataPos := dataPos + |got|;
      entry' := entry' + [Entry(name, size, ptr)];
    }
  }
}
