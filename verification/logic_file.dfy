/** logic/file.py: `File.read`, a reader of the DPAC layout that slices
    the table of contents as it goes and keeps whatever it decoded before
    the first exception. */
module LogicFile {
  import opened Bytes

  /** `File.SECTOR_SIZE`. */
  const SectorSize: nat := 2048

  /** The innermost dictionary: raw sector, raw size and payload. */
  datatype FileRec = FileRec(sector: nat, size: nat, payload: seq<byte>)

  /** The returned dictionary: folder name bytes to file name bytes to file. */
  type Folders = map<seq<byte>, map<seq<byte>, FileRec>>

  /** The only exception `File.read` lets escape: `unpack` of a header
      shorter than eight bytes. */
  datatype HeaderError = ShortHeader

  /** `thing.setdefault(folder, {}).setdefault(name, {})` followed by the
      three stores into the file's dictionary. */
  function Store(thing: Folders, folder: seq<byte>, name: seq<byte>, rec: FileRec): Folders {
    var inner := if folder in thing then thing[folder] else map[];
    thing[folder := inner[name := rec]]
  }

  /** A later record for the same folder and name replaces the earlier one;
      every other folder and every other file of the folder is kept. */
  lemma StoreFrame(thing: Folders, folder: seq<byte>, name: seq<byte>, rec: FileRec)
    ensures var r := Store(thing, folder, name, rec);
            && folder in r && name in r[folder] && r[folder][name] == rec
            && r.Keys == thing.Keys + {folder}
            && (forall f :: f in thing && f != folder ==> r[f] == thing[f])
            && r[folder].Keys == (if folder in thing then thing[folder].Keys else {}) + {name}
            && (forall n :: folder in thing && n in thing[folder] && n != name ==> r[folder][n] == thing[folder][n])
  {
  }

  /** Whether `view.cast('H')[:2]` unpacks into two halfwords, for the view
      `toc[p..]`: its length must be even and at least four bytes. */
  predicate TwoHalves(toc: seq<byte>, p: nat) {
    p + 4 <= |toc| && (|toc| - p) % 2 == 0
  }

  /** A record or header at `p` can be read: four bytes, then two halfwords. */
  predicate RecordOk(toc: seq<byte>, p: nat) {
    p + 4 <= |toc| && TwoHalves(toc, p + 4)
  }

  /** The file of the 8-byte record at `p`: its sector and size halfwords
      and `data[sector * 2048 : sector * 2048 + size * 256]`.  The halfwords
      are read little-endian, the byte order of `cast('H')` on a
      little-endian host. */
  function RecordAt(toc: seq<byte>, data: seq<byte>, p: nat): FileRec
    requires p + 8 <= |toc|
  {
    var sector, size := U16LE(toc, p + 4), U16LE(toc, p + 6);
    FileRec(sector, size, Read(data, sector * SectorSize, size * 256))
  }

  /** Where the file loop of one folder stands: the TOC position, the
      dictionary, and whether an exception has ended the walk. */
  datatype Progress = Progress(pos: nat, thing: Folders, stopped: bool)

  /** The last `n` iterations of `for i in range(file_count)` from `p`. */
  function FilesFrom(toc: seq<byte>, data: seq<byte>, folder: seq<byte>, p: nat, n: nat, thing: Folders): (r: Progress)
    requires p <= |toc|
    ensures !r.stopped ==> p <= r.pos <= |toc|
    decreases n
  {
    if n == 0 then Progress(p, thing, false)
    else if !RecordOk(toc, p) then Progress(p, thing, true)
    else FilesFrom(toc, data, folder, p + 8, n - 1, Store(thing, folder, toc[p..p + 4], RecordAt(toc, data, p)))
  }

  /** One iteration of the file loop, unfolded. */
  lemma FilesStep(toc: seq<byte>, data: seq<byte>, folder: seq<byte>, p: nat, n: nat, thing: Folders)
    requires p <= |toc| && n > 0
    ensures !RecordOk(toc, p) ==> FilesFrom(toc, data, folder, p, n, thing) == Progress(p, thing, true)
    ensures RecordOk(toc, p) ==>
              FilesFrom(toc, data, folder, p, n, thing)
              == FilesFrom(toc, data, folder, p + 8, n - 1, Store(thing, folder, toc[p..p + 4], RecordAt(toc, data, p)))
  {
  }

  /** The `while True` loop from the folder header at `p`. */
  function WalkFrom(toc: seq<byte>, data: seq<byte>, p: nat, thing: Folders): Folders
    decreases |toc| - p
  {
    if !RecordOk(toc, p) then thing
    else
      var count := U16LE(toc, p + 4);
      if count >= 0x8000 || count > 4095 then thing
      else
        var r := FilesFrom(toc, data, toc[p..p + 4], p + 8, count / 2, thing);
        if r.stopped then r.thing else WalkFrom(toc, data, r.pos, r.thing)
  }

  /** Slicing the view `toc == full[p..]` past one 8-byte record or header:
      its first four bytes and its two halfwords are those of `full` at `p`. */
  lemma ViewStep(full: seq<byte>, p: nat, toc: seq<byte>)
    requires p + 8 <= |full| && toc == full[p..]
    ensures toc[..4] == full[p..p + 4] && toc[4..][4..] == full[p + 8..]
    ensures U16LE(toc[4..], 0) == U16LE(full, p + 4) && U16LE(toc[4..], 2) == U16LE(full, p + 6)
  {
    assert toc[4..][0] == full[p + 4] && toc[4..][1] == full[p + 5];
    assert toc[4..][2] == full[p + 6] && toc[4..][3] == full[p + 7];
  }

  /** The TOC buffer: `toc_size` bytes from sector 1. */
  function TocOf(file: seq<byte>, start: nat): seq<byte>
    requires start + 8 <= |file|
  {
    Read(file, SectorSize, U32LE(file, start))
  }

  /** The data buffer: `data_size` bytes from sector 8. */
  function DataOf(file: seq<byte>, start: nat): seq<byte>
    requires start + 8 <= |file|
  {
    Read(file, SectorSize * 8, U32LE(file, start + 4))
  }

  /** `File.read` on a file holding `file` whose position is `start`. */
  method ReadFile(file: seq<byte>, start: nat) returns (thing: Folders, err: Option<HeaderError>)
    ensures err.Some? <==> start + 8 > |file|
    ensures err == None ==> thing == WalkFrom(TocOf(file, start), DataOf(file, start), 0, map[])
  {
    var head := Read(file, start, 8);
    if |head| < 8 {
      return map[], Some(ShortHeader);
    }
    assert head == file[start..start + 8];
    var tocSize, dataSize := U32LE(head, 0), U32LE(head, 4);
    assert tocSize == U32LE(file, start) && dataSize == U32LE(file, start + 4);
    var toc := Read(file, SectorSize, tocSize);
    var data := Read(file, SectorSize * 8, dataSize);
    assert toc == TocOf(file, start) && data == DataOf(file, start);
    thing := WalkToc(toc, data);
    return thing, None;
  }

  /** The `while True` loop of `File.read` over the TOC buffer `full`. */
  method WalkToc(full: seq<byte>, data: seq<byte>) returns (thing: Folders)
    ensures thing == WalkFrom(full, data, 0, map[])
  {
    var toc := full;
    thing := map[];
    ghost var goal := WalkFrom(full, data, 0, map[]);
    ghost var p: nat := 0;
    var done := false;
    while !done
      invariant p <= |full|
      invariant !done ==> toc == full[p..] && WalkFrom(full, data, p, thing) == goal
      invariant done ==> thing == goal
      decreases if done then 0 else |toc| + 1
    {
      var folder, fileCount, ok;
      toc, folder, fileCount, ok := ReadFolderHeader(full, p, toc);
      if !ok {
        done := true;
      } else {
        var stopped;
        toc, thing, stopped := ReadFiles(full, data, p + 8, toc, folder, fileCount, thing);
        if stopped {
          done := true;
        } else {
          p := |full| - |toc|;
        }
      }
    }
  }

  /** The head of one pass of the `while True` loop: the folder name, the
      two halfwords, the assertion on bit 0x8000 and the 4095 limit. */
  method ReadFolderHeader(ghost full: seq<byte>, ghost p: nat, toc: seq<byte>) returns (toc': seq<byte>, folder: seq<byte>, fileCount: nat, ok: bool)
    requires p <= |full| && toc == full[p..]
    ensures ok <==> RecordOk(full, p) && U16LE(full, p + 4) < 0x8000 && U16LE(full, p + 4) <= 4095
    ensures ok ==> toc' == full[p + 8..] && folder == full[p..p + 4] && fileCount == U16LE(full, p + 4) / 2
  {
    ghost var view := toc;
    folder := toc[..Min(4, |toc|)];
    toc' := toc[Min(4, |toc|)..];
    if !(|toc'| % 2 == 0 && |toc'| >= 4) {
      assert !RecordOk(full, p);
      return toc', folder, 0, false;
    }
    ViewStep(full, p, view);
    var sector;
    fileCount, sector := U16LE(toc', 0), U16LE(toc', 2);
    toc' := toc'[4..];
    if fileCount >= 0x8000 {
      return toc', folder, fileCount, false;
    }
    if fileCount > 4095 {
      return toc', folder, fileCount, false;
    }
    fileCount := fileCount / 2;
    ok := true;
  }

  /** The `for i in range(file_count)` loop of `File.read` over the view
      `toc`, which is `full[p..]`. */
  method ReadFiles(ghost full: seq<byte>, data: seq<byte>, ghost p: nat, toc: seq<byte>, folder: seq<byte>, fileCount: nat, thing: Folders)
    returns (toc': seq<byte>, thing': Folders, stopped: bool)
    requires p <= |full| && toc == full[p..]
    ensures var r := FilesFrom(full, data, folder, p, fileCount, thing);
            thing' == r.thing && stopped == r.stopped && (!stopped ==> toc' == full[r.pos..])
  {
    ghost var goal := FilesFrom(full, data, folder, p, fileCount, thing);
    ghost var q: nat := p;
    toc', thing', stopped := toc, thing, false;
    var i := 0;
    while i < fileCount && !stopped
      invariant i <= fileCount && q <= |full|
      invariant !stopped ==> toc' == full[q..] && FilesFrom(full, data, folder, q, fileCount - i, thing') == goal
      invariant stopped ==> goal == Progress(q, thing', true)
      decreases fileCount - i, if stopped then 0 else 1
    {
      var rest, stored, ok := ReadFileRecord(full, data, q, toc', folder, thing', fileCount - i);
      if ok {
        toc', thing' := rest, stored;
        q, i := q + 8, i + 1;
      } else {
        stopped := true;
      }
    }
  }

  /** One iteration of the file loop, as the specification of the
      remaining `n` iterations sees it: a record that cannot be read ends
      the walk, any other is stored and leaves `n - 1` iterations. */
  method ReadFileRecord(ghost full: seq<byte>, data: seq<byte>, ghost q: nat, toc: seq<byte>, folder: seq<byte>,
                        thing: Folders, ghost n: nat)
    returns (toc': seq<byte>, thing': Folders, ok: bool)
    requires q <= |full| && toc == full[q..] && n > 0
    ensures !ok ==> FilesFrom(full, data, folder, q, n, thing) == Progress(q, thing, true)
    ensures ok ==> q + 8 <= |full| && toc' == full[q + 8..]
                   && FilesFrom(full, data, folder, q + 8, n - 1, thing') == FilesFrom(full, data, folder, q, n, thing)
  {
    FilesStep(full, data, folder, q, n, thing);
    toc', thing', ok := ReadRecord(full, data, q, toc, folder, thing);
  }

  /** One iteration of the file loop: name, two halfwords, the payload
      slice and the stores into the dictionary. */
  method ReadRecord(ghost full: seq<byte>, data: seq<byte>, ghost q: nat, toc: seq<byte>, folder: seq<byte>, thing: Folders)
    returns (toc': seq<byte>, thing': Folders, ok: bool)
    requires q <= |full| && toc == full[q..]
    ensures ok <==> RecordOk(full, q)
    ensures ok ==> toc' == full[q + 8..] && thing' == Store(thing, folder, full[q..q + 4], RecordAt(full, data, q))
    ensures !ok ==> thing' == thing
  {
    ghost var view := toc;
    thing' := thing;
    var name := toc[..Min(4, |toc|)];
    toc' := toc[Min(4, |toc|)..];
    if !(|toc'| % 2 == 0 && |toc'| >= 4) {
      assert !RecordOk(full, q);
      return toc', thing', false;
    }
    ViewStep(full, q, view);
    var sector, size := U16LE(toc', 0), U16LE(toc', 2);
    toc' := toc'[4..];
    var offset := sector * SectorSize;
    var rawSize := size * 256;
    var payload := Read(data, offset, rawSize);
    thing' := Store(thing', folder, name, FileRec(sector, size, payload));
    ok := true;
  }

  // ---------------------------------------------------------------------
  // Properties of the walk

  /** What every entry of the dictionary satisfies: a 4-byte folder name
      holding at least one file, each file under a 4-byte name and equal to
      the record at some TOC position carrying that name. */
  ghost predicate Good(toc: seq<byte>, data: seq<byte>, thing: Folders) {
    forall f :: f in thing ==>
      && |f| == 4 && thing[f] != map[]
      && forall n :: n in thing[f] ==>
           exists q: nat :: q + 8 <= |toc| && Named(toc, q, n) && RecordAt(toc, data, q) == thing[f][n]
  }

  /** The record at `q` carries the name `n`. */
  predicate Named(toc: seq<byte>, q: nat, n: seq<byte>)
    requires q + 8 <= |toc|
  {
    toc[q..q + 4] == n
  }

  lemma StoreGood(toc: seq<byte>, data: seq<byte>, thing: Folders, folder: seq<byte>, q: nat)
    requires Good(toc, data, thing) && |folder| == 4 && q + 8 <= |toc|
    ensures Good(toc, data, Store(thing, folder, toc[q..q + 4], RecordAt(toc, data, q)))
  {
    var name := toc[q..q + 4];
    var r := Store(thing, folder, name, RecordAt(toc, data, q));
    StoreFrame(thing, folder, name, RecordAt(toc, data, q));
    forall f | f in r
      ensures |f| == 4 && r[f] != map[]
      ensures forall n :: n in r[f] ==> exists q': nat :: q' + 8 <= |toc| && Named(toc, q', n) && RecordAt(toc, data, q') == r[f][n]
    {
      if f == folder {
        assert name in r[f];
        forall n | n in r[f]
          ensures exists q': nat :: q' + 8 <= |toc| && Named(toc, q', n) && RecordAt(toc, data, q') == r[f][n]
        {
          if n == name {
            assert Named(toc, q, n);
          }
        }
      }
    }
  }

  lemma {:induction false} FilesGood(toc: seq<byte>, data: seq<byte>, folder: seq<byte>, p: nat, n: nat, thing: Folders)
    requires p <= |toc| && Good(toc, data, thing) && |folder| == 4
    ensures Good(toc, data, FilesFrom(toc, data, folder, p, n, thing).thing)
    decreases n
  {
    if n > 0 && RecordOk(toc, p) {
      StoreGood(toc, data, thing, folder, p);
      FilesGood(toc, data, folder, p + 8, n - 1, Store(thing, folder, toc[p..p + 4], RecordAt(toc, data, p)));
    }
  }

  /** The walk keeps `Good`: no folder appears without a file, and every
      file is the record of a TOC entry of its name, with the raw sector and
      size halfwords and the payload sliced from the data buffer. */
  lemma {:induction false} WalkGood(toc: seq<byte>, data: seq<byte>, p: nat, thing: Folders)
    requires Good(toc, data, thing)
    ensures Good(toc, data, WalkFrom(toc, data, p, thing))
    decreases |toc| - p
  {
    if RecordOk(toc, p) {
      var count := U16LE(toc, p + 4);
      if !(count >= 0x8000 || count > 4095) {
        FilesGood(toc, data, toc[p..p + 4], p + 8, count / 2, thing);
        var r := FilesFrom(toc, data, toc[p..p + 4], p + 8, count / 2, thing);
        if !r.stopped {
          WalkGood(toc, data, r.pos, r.thing);
        }
      }
    }
  }

  /** `File.read` on any file that has a header returns a `Good` dictionary. */
  lemma ReadFileGood(file: seq<byte>, start: nat)
    requires start + 8 <= |file|
    ensures Good(TocOf(file, start), DataOf(file, start), WalkFrom(TocOf(file, start), DataOf(file, start), 0, map[]))
  {
    WalkGood(TocOf(file, start), DataOf(file, start), 0, map[]);
  }

  /** A TOC buffer of odd length gives an empty dictionary: the first
      `cast('H')` already fails. */
  lemma OddTocEmpty(toc: seq<byte>, data: seq<byte>)
    requires |toc| % 2 == 1
    ensures WalkFrom(toc, data, 0, map[]) == map[]
  {
  }

  /** The walk never removes a folder or a file. */
  lemma {:induction false} FilesGrow(toc: seq<byte>, data: seq<byte>, folder: seq<byte>, p: nat, n: nat, thing: Folders)
    requires p <= |toc|
    ensures var r := FilesFrom(toc, data, folder, p, n, thing).thing;
            forall f :: f in thing ==> f in r && thing[f].Keys <= r[f].Keys
    decreases n
  {
    if n > 0 && RecordOk(toc, p) {
      var rec := RecordAt(toc, data, p);
      StoreFrame(thing, folder, toc[p..p + 4], rec);
      FilesGrow(toc, data, folder, p + 8, n - 1, Store(thing, folder, toc[p..p + 4], rec));
    }
  }

  lemma {:induction false} WalkGrows(toc: seq<byte>, data: seq<byte>, p: nat, thing: Folders)
    ensures var r := WalkFrom(toc, data, p, thing);
            forall f :: f in thing ==> f in r && thing[f].Keys <= r[f].Keys
    decreases |toc| - p
  {
    if RecordOk(toc, p) {
      var count := U16LE(toc, p + 4);
      if !(count >= 0x8000 || count > 4095) {
        FilesGrow(toc, data, toc[p..p + 4], p + 8, count / 2, thing);
        var r := FilesFrom(toc, data, toc[p..p + 4], p + 8, count / 2, thing);
        if !r.stopped {
          WalkGrows(toc, data, r.pos, r.thing);
        }
      }
    }
  }

  /** A folder header whose count has bit 0x8000 set, or exceeds 4095, ends
      the walk with the dictionary as it stood. */
  lemma BadCountStops(toc: seq<byte>, data: seq<byte>, p: nat, thing: Folders)
    requires RecordOk(toc, p) && U16LE(toc, p + 4) > 4095
    ensures WalkFrom(toc, data, p, thing) == thing
  {
  }

  /** A folder "AAAA" with a count field of 4 (two files) whose two
      records both name the file "a\0\0\0": sector 1 and size 1, then
      sector 2 and size 3. */
  const DupToc: seq<byte> := [0x41, 0x41, 0x41, 0x41, 4, 0, 0, 0,
                              0x61, 0, 0, 0, 1, 0, 1, 0,
                              0x61, 0, 0, 0, 2, 0, 3, 0]

  lemma DupTocFields()
    ensures |DupToc| == 24 && RecordOk(DupToc, 0) && RecordOk(DupToc, 8) && RecordOk(DupToc, 16)
    ensures DupToc[8..12] == DupToc[16..20] == [0x61, 0, 0, 0] && DupToc[0..4] == [0x41, 0x41, 0x41, 0x41]
    ensures U16LE(DupToc, 4) == 4 && U16LE(DupToc, 20) == 2 && U16LE(DupToc, 22) == 3
  {
    assert DupToc[8..12] == [DupToc[8], DupToc[9], DupToc[10], DupToc[11]];
    assert DupToc[16..20] == [DupToc[16], DupToc[17], DupToc[18], DupToc[19]];
    assert DupToc[0..4] == [DupToc[0], DupToc[1], DupToc[2], DupToc[3]];
  }

  /** Of two records naming the same file in one folder, the second one's
      sector and size are the ones kept. */
  lemma LastRecordWins(data: seq<byte>)
    ensures var r := WalkFrom(DupToc, data, 0, map[]);
            var folder: seq<byte>, name: seq<byte> := [0x41, 0x41, 0x41, 0x41], [0x61, 0, 0, 0];
            && r.Keys == {folder} && r[folder].Keys == {name}
            && r[folder][name].sector == 2 && r[folder][name].size == 3
  {
    DupTocFields();
    var folder: seq<byte>, name: seq<byte> := [0x41, 0x41, 0x41, 0x41], [0x61, 0, 0, 0];
    var m1 := Store(map[], folder, name, RecordAt(DupToc, data, 8));
    StoreFrame(map[], folder, name, RecordAt(DupToc, data, 8));
    var m2 := Store(m1, folder, name, RecordAt(DupToc, data, 16));
    StoreFrame(m1, folder, name, RecordAt(DupToc, data, 16));
    assert FilesFrom(DupToc, data, folder, 8, 2, map[]) == Progress(24, m2, false);
    assert WalkFrom(DupToc, data, 0, map[]) == WalkFrom(DupToc, data, 24, m2) == m2;
  }
}
