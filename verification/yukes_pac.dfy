/** The "PAC " package reader `CData` of Yukes/Package/PAC/PAC.py: a
    little-endian magic and entry count, then one 8-byte record per entry
    (u16 identifier, u16 offset, u32 size), and the data each record
    points at.  The open file is the byte string `pac` with a cursor. */
module YukesPac {
  import opened Bytes

  const PacMagic: nat := 0x20434150  // "PAC " read as a little-endian u32

  /** `struct.error` when a read comes back short, `TypeError` when a
      field that was never set is used. */
  datatype PacError = StructError | TypeError

  /** One dictionary of `FileEntries`; `data` is absent until `GetData`. */
  datatype Entry = Entry(id: nat, rva: nat, size: nat, data: Option<seq<byte>>)

  /** The record at `at`. */
  function RecordAt(pac: seq<byte>, at: nat): Entry
    requires at + 8 <= |pac|
  {
    Entry(U16LE(pac, at), U16LE(pac, at + 2), U32LE(pac, at + 4), None)
  }

  /** The `n` records from `at`, in file order. */
  function Records(pac: seq<byte>, at: nat, n: nat): (r: seq<Entry>)
    requires at + 8 * n <= |pac|
    ensures |r| == n
    decreases n
  {
    if n == 0 then [] else [RecordAt(pac, at)] + Records(pac, at + 8, n - 1)
  }

  /** Record `k` of a run is the record `8k` bytes on. */
  lemma {:induction false} RecordsAt(pac: seq<byte>, at: nat, n: nat, k: nat)
    requires at + 8 * n <= |pac| && k < n
    ensures Records(pac, at, n)[k] == RecordAt(pac, at + 8 * k)
    decreases k
  {
    if k > 0 {
      RecordsAt(pac, at + 8, n - 1, k - 1);
    }
  }

  /** Reading `a + b` records is reading `a` and then `b` more where the
      first run stopped. */
  lemma {:induction false} RecordsSplit(pac: seq<byte>, at: nat, a: nat, b: nat)
    requires at + 8 * (a + b) <= |pac|
    ensures Records(pac, at, a + b) == Records(pac, at, a) + Records(pac, at + 8 * a, b)
    decreases a
  {
    if a > 0 {
      RecordsSplit(pac, at + 8, a - 1, b);
      assert Records(pac, at, a + b) == [RecordAt(pac, at)] + Records(pac, at + 8, (a - 1) + b);
    }
  }

  /** The state `Search` works on: the cursor, the three fields it sets,
      `FileEntries`, and the exception that stopped it. */
  datatype Scan = Scan(cursor: nat, id: Option<nat>, rva: Option<nat>, size: Option<nat>,
                       entries: seq<Entry>, err: Option<PacError>)

  /** One pass of the `Search` loop: three reads of 2, 2 and 4 bytes, each
      setting its field; a short read raises with the cursor at the end of
      the file and the fields read so far set. */
  function RecordStep(pac: seq<byte>, s: Scan): Scan {
    var c := s.cursor;
    if c + 2 > |pac| then s.(cursor := Max(c, |pac|), err := Some(StructError))
    else if c + 4 > |pac| then s.(cursor := |pac|, id := Some(U16LE(pac, c)), err := Some(StructError))
    else if c + 8 > |pac| then
      s.(cursor := |pac|, id := Some(U16LE(pac, c)), rva := Some(U16LE(pac, c + 2)), err := Some(StructError))
    else
      Scan(c + 8, Some(U16LE(pac, c)), Some(U16LE(pac, c + 2)), Some(U32LE(pac, c + 4)),
           s.entries + [RecordAt(pac, c)], None)
  }

  /** The last `n` passes of the `Search` loop. */
  function SearchFrom(pac: seq<byte>, s: Scan, n: nat): Scan
    decreases n
  {
    if n == 0 || s.err.Some? then s else SearchFrom(pac, RecordStep(pac, s), n - 1)
  }

  /** When all `n` records lie in the file, `Search` appends them in order
      and leaves the cursor after them. */
  lemma {:induction false} SearchComplete(pac: seq<byte>, s: Scan, n: nat)
    requires s.err == None && s.cursor + 8 * n <= |pac|
    ensures var r := SearchFrom(pac, s, n);
            r.err == None && r.cursor == s.cursor + 8 * n && r.entries == s.entries + Records(pac, s.cursor, n)
    decreases n
  {
    if n > 0 {
      var t := RecordStep(pac, s);
      assert t.cursor == s.cursor + 8 && t.entries == s.entries + [RecordAt(pac, s.cursor)] && t.err == None;
      SearchComplete(pac, t, n - 1);
      assert (s.entries + [RecordAt(pac, s.cursor)]) + Records(pac, s.cursor + 8, n - 1)
         == s.entries + ([RecordAt(pac, s.cursor)] + Records(pac, s.cursor + 8, n - 1));
    } else {
      assert s.entries + [] == s.entries;
    }
  }

  /** When the records run past the end of the file, `Search` appends the
      whole records that fit and raises `struct.error` with the cursor at
      the end of the file. */
  lemma {:induction false} SearchShort(pac: seq<byte>, s: Scan, n: nat)
    requires s.err == None && s.cursor <= |pac| < s.cursor + 8 * n
    ensures var r := SearchFrom(pac, s, n);
            && r.err == Some(StructError) && r.cursor == |pac|
            && r.entries == s.entries + Records(pac, s.cursor, (|pac| - s.cursor) / 8)
    decreases n
  {
    var t := RecordStep(pac, s);
    if s.cursor + 8 <= |pac| {
      assert t.cursor == s.cursor + 8 && t.entries == s.entries + [RecordAt(pac, s.cursor)] && t.err == None;
      SearchShort(pac, t, n - 1);
      assert (|pac| - s.cursor) / 8 == (|pac| - t.cursor) / 8 + 1;
      assert (s.entries + [RecordAt(pac, s.cursor)]) + Records(pac, s.cursor + 8, (|pac| - t.cursor) / 8)
         == s.entries + ([RecordAt(pac, s.cursor)] + Records(pac, s.cursor + 8, (|pac| - t.cursor) / 8));
    } else {
      assert (|pac| - s.cursor) / 8 == 0;
      assert s.entries + [] == s.entries;
    }
  }

  /** `GetData` on one entry: `Size` bytes at absolute offset `RVA`. */
  function Filled(pac: seq<byte>, e: Entry): Entry {
    e.(data := Some(Read(pac, e.rva, e.size)))
  }

  /** `GetData` on every entry, in order. */
  function AllFilled(pac: seq<byte>, es: seq<Entry>): (r: seq<Entry>)
    ensures |r| == |es|
  {
    if es == [] then [] else AllFilled(pac, es[..|es| - 1]) + [Filled(pac, es[|es| - 1])]
  }

  /** Every entry keeps its identifier, offset and size and gets the bytes
      it points at, whatever `Data_TBL` is; an entry inside the file gets
      exactly `Size` bytes. */
  lemma {:induction false} AllFilledAt(pac: seq<byte>, es: seq<Entry>, k: nat)
    requires k < |es|
    ensures var e := AllFilled(pac, es)[k];
            && e.id == es[k].id && e.rva == es[k].rva && e.size == es[k].size
            && e.data == Some(Read(pac, es[k].rva, es[k].size))
            && (es[k].rva + es[k].size <= |pac| ==> e.data == Some(pac[es[k].rva..es[k].rva + es[k].size]))
    decreases |es|
  {
    if k < |es| - 1 {
      AllFilledAt(pac, es[..|es| - 1], k);
    }
    if es[k].rva + es[k].size <= |pac| {
      ReadInside(pac, es[k].rva, es[k].size);
    }
  }

  /** Filling entry `k` of a partly filled list extends the filled prefix
      by one. */
  lemma FillOne(pac: seq<byte>, es: seq<Entry>, k: nat, cur: seq<Entry>)
    requires k < |es| && cur == AllFilled(pac, es[..k]) + es[k..]
    ensures cur[k := Filled(pac, cur[k])] == AllFilled(pac, es[..k + 1]) + es[k + 1..]
  {
    assert es[..k + 1][..k] == es[..k];
    assert cur[k] == es[k];
  }

  /** `CData`. */
  class CData {
    const pac: seq<byte>
    var cursor: nat
    var eCount: Option<nat>
    var size: Option<nat>
    var id: Option<nat>
    var rva: Option<nat>
    var dataTbl: Option<nat>
    var fileEntries: seq<Entry>

    /** `CData(path)` on a file holding `pac`. */
    constructor (pac: seq<byte>)
      ensures this.pac == pac && cursor == 0 && fileEntries == []
      ensures eCount == None && size == None && id == None && rva == None && dataTbl == None
    {
      this.pac := pac;
      cursor := 0;
      eCount, size, id, rva, dataTbl := None, None, None, None, None;
      fileEntries := [];
    }

    /** `SetAdr`: a wrong magic returns silently with `ECount` untouched;
        the right one sets `ECount` to the next word and `Data_TBL` to
        `ECount * 8 + 8`. */
    method SetAdr() returns (err: Option<PacError>)
      modifies this`cursor, this`eCount, this`dataTbl
      ensures var c := old(cursor);
              if c + 4 > |pac| then
                err == Some(StructError) && cursor == Max(c, |pac|)
                && eCount == old(eCount) && dataTbl == old(dataTbl)
              else if U32LE(pac, c) != PacMagic then
                err == None && cursor == c + 4 && eCount == old(eCount) && dataTbl == old(dataTbl)
              else if c + 8 > |pac| then
                err == Some(StructError) && cursor == |pac| && eCount == old(eCount) && dataTbl == old(dataTbl)
              else
                err == None && cursor == c + 8
                && eCount == Some(U32LE(pac, c + 4)) && dataTbl == Some(U32LE(pac, c + 4) * 8 + 8)
    {
      if cursor + 4 > |pac| {
        cursor := Max(cursor, |pac|);
        return Some(StructError);
      }
      var actualMagic := U32LE(pac, cursor);
      cursor := cursor + 4;
      if actualMagic != PacMagic {
        return None;
      }
      if cursor + 4 > |pac| {
        cursor := |pac|;
        return Some(StructError);
      }
      var count := U32LE(pac, cursor);
      cursor := cursor + 4;
      eCount := Some(count);
      dataTbl := Some(count * 8 + 8);
      return None;
    }

    /** `Search`: `ECount` passes of the record loop, appending to
        `FileEntries` without clearing it. */
    method Search() returns (err: Option<PacError>)
      modifies this`cursor, this`id, this`rva, this`size, this`fileEntries
      ensures old(eCount) == None ==> err == Some(TypeError) && unchanged(this)
      ensures old(eCount) != None ==>
                var r := SearchFrom(pac, Scan(old(cursor), old(id), old(rva), old(size), old(fileEntries), None), old(eCount).value);
                cursor == r.cursor && id == r.id && rva == r.rva && size == r.size && fileEntries == r.entries && err == r.err
    {
      if eCount == None {
        return Some(TypeError);
      }
      var n := eCount.value;
      ghost var goal := SearchFrom(pac, Scan(cursor, id, rva, size, fileEntries, None), n);
      err := None;
      var i := 0;
      while i < n && err == None
        invariant i <= n
        invariant SearchFrom(pac, Scan(cursor, id, rva, size, fileEntries, err), n - i) == goal
      {
        ghost var t := RecordStep(pac, Scan(cursor, id, rva, size, fileEntries, err));
        if cursor + 2 > |pac| {
          cursor, err := Max(cursor, |pac|), Some(StructError);
        } else {
          id := Some(U16LE(pac, cursor));
          cursor := cursor + 2;
          if cursor + 2 > |pac| {
            cursor, err := |pac|, Some(StructError);
          } else {
            rva := Some(U16LE(pac, cursor));
            cursor := cursor + 2;
            if cursor + 4 > |pac| {
              cursor, err := |pac|, Some(StructError);
            } else {
              size := Some(U32LE(pac, cursor));
              cursor := cursor + 4;
              fileEntries := fileEntries + [Entry(id.value, rva.value, size.value, None)];
            }
          }
        }
        assert Scan(cursor, id, rva, size, fileEntries, err) == t;
        i := i + 1;
      }
    }

    /** `GetData`: seeks to `Data_TBL` (a `TypeError` when it was never
        set), then gives every entry its data and returns `FileEntries`. */
    method GetData() returns (entries: seq<Entry>, err: Option<PacError>)
      modifies this`cursor, this`fileEntries
      ensures dataTbl == None ==> err == Some(TypeError) && unchanged(this) && entries == []
      ensures dataTbl != None ==> err == None && entries == fileEntries && fileEntries == AllFilled(pac, old(fileEntries))
      ensures dataTbl != None && old(fileEntries) == [] ==> cursor == dataTbl.value
      ensures dataTbl != None && old(fileEntries) != [] ==>
                var e := old(fileEntries)[|old(fileEntries)| - 1];
                cursor == e.rva + |Read(pac, e.rva, e.size)|
    {
      if dataTbl == None {
        return [], Some(TypeError);
      }
      cursor := dataTbl.value;
      ghost var es := fileEntries;
      var k := 0;
      while k < |fileEntries|
        invariant k <= |fileEntries| == |es|
        invariant fileEntries == AllFilled(pac, es[..k]) + es[k..]
        invariant k == 0 ==> cursor == dataTbl.value
        invariant k > 0 ==> cursor == es[k - 1].rva + |Read(pac, es[k - 1].rva, es[k - 1].size)|
      {
        var entry := fileEntries[k];
        cursor := entry.rva;
        var data := Read(pac, cursor, entry.size);
        cursor := cursor + |data|;
        FillOne(pac, es, k, fileEntries);
        fileEntries := fileEntries[k := entry.(data := Some(data))];
        k := k + 1;
      }
      assert es[..k] == es;
      return fileEntries, None;
    }
  }

  /** Two calls of `Search` on a file holding both runs read `ECount`
      records and then the next `ECount`: the second call appends the
      records after the first, not a second copy of them. */
  lemma SearchTwice(pac: seq<byte>, s: Scan, n: nat)
    requires s.err == None && s.cursor + 8 * (n + n) <= |pac|
    ensures var r := SearchFrom(pac, SearchFrom(pac, s, n), n);
            r.err == None && r.entries == s.entries + Records(pac, s.cursor, n + n)
  {
    SearchComplete(pac, s, n);
    var r1 := SearchFrom(pac, s, n);
    SearchComplete(pac, r1, n);
    RecordsSplit(pac, s.cursor, n, n);
    assert s.entries + Records(pac, s.cursor, n) + Records(pac, s.cursor + 8 * n, n)
       == s.entries + (Records(pac, s.cursor, n) + Records(pac, s.cursor + 8 * n, n));
  }
}
