/** The MPQ archive of MPQ/MPQ.py: the magic "MPQ", a big-endian entry
    count at 0x0C, a table of big-endian file pointers from 0x10, and the
    extraction of one file per pointer. */
module Mpq {
  import opened Bytes

  const TocCountOffset: nat := 0x0C
  const TocOffset: nat := 0x10
  const MpqMagic: seq<byte> := [0x4D, 0x50, 0x51]  // "MPQ"

  /** What the archive code raises: `ValueError` for the magic or an
      out-of-range pointer, `struct.error` for a table cut short. */
  datatype MpqError = BadMagic | StructError | OutOfBounds(index: nat, pointer: nat)

  /** `check_magic`: the first three bytes (a slice, so shorter data simply
      compares unequal) must be "MPQ". */
  function CheckMagic(data: seq<byte>): (r: Option<MpqError>)
    ensures r == None <==> |data| >= 3 && data[..3] == MpqMagic
    ensures r != None ==> r == Some(BadMagic)
  {
    if Read(data, 0, 3) == MpqMagic then None else Some(BadMagic)
  }

  /** The table entry `i`: the big-endian word at `0x10 + 4i`. */
  function PointerAt(data: seq<byte>, i: nat): nat
    requires TocOffset + 4 * i + 4 <= |data|
  {
    U32BE(data, TocOffset + 4 * i)
  }

  /** The table fits: the count word is present and so are all the
      pointers it announces. */
  predicate TocFits(data: seq<byte>) {
    TocCountOffset + 4 <= |data| && TocOffset + 4 * U32BE(data, TocCountOffset) <= |data|
  }

  /** `parse_toc`: exactly `count` pointers, in table order, or
      `struct.error` (None) when the count word or a pointer is cut short. */
  method ParseToc(data: seq<byte>) returns (pointers: Option<seq<nat>>)
    ensures pointers.Some? <==> TocFits(data)
    ensures pointers.Some? ==> |pointers.value| == U32BE(data, TocCountOffset)
    ensures pointers.Some? ==> forall i :: 0 <= i < |pointers.value| ==> pointers.value[i] == PointerAt(data, i)
  {
    if TocCountOffset + 4 > |data| {
      return None;
    }
    var count := U32BE(data, TocCountOffset);
    var ps: seq<nat> := [];
    var i := 0;
    while i < count
      invariant i <= count && |ps| == i && TocOffset + 4 * i <= |data|
      invariant forall j :: 0 <= j < i ==> ps[j] == PointerAt(data, j)
    {
      if TocOffset + 4 * i + 4 > |data| {
        return None;
      }
      ps := ps + [U32BE(data, TocOffset + 4 * i)];
      i := i + 1;
    }
    return Some(ps);
  }

  /** Python's `data[start:end]` for non-negative bounds. */
  function Slice(data: seq<byte>, start: nat, end: nat): (r: seq<byte>)
    ensures start < end && start < |data| ==> r == data[start..Min(end, |data|)]
    ensures end <= start || |data| <= start ==> r == []
  {
    if start < end && start < |data| then data[start..Min(end, |data|)] else []
  }

  /** `f"{i:04}.bin"`. */
  function FileName(i: nat): string {
    ZeroPad4(i) + ".bin"
  }

  /** One extracted file: its index in the pointer table and its content;
      it is written under `OutputName`. */
  datatype Extracted = Extracted(index: nat, content: seq<byte>)

  function OutputName(e: Extracted): string {
    FileName(e.index)
  }

  /** Where file `i` ends.  As written (`nextBound == false`) the test is
      `i + 1 > len(file_pointers)`, which never holds inside the loop, so
      every file runs to the end of the data; with `nextBound` the test
      reads `i + 1 < len(file_pointers)` and a file ends at the next
      pointer. */
  function End(data: seq<byte>, pointers: seq<nat>, i: nat, nextBound: bool): nat
    requires i < |pointers|
  {
    var takeNext := if nextBound then i + 1 < |pointers| else i + 1 > |pointers|;
    if takeNext && i + 1 < |pointers| then pointers[i + 1] else |data|
  }

  /** What `extract_files` writes from index `i` on, and the exception
      that ends it (None when every pointer is in range). */
  datatype Extraction = Extraction(files: seq<Extracted>, err: Option<MpqError>)

  function ExtractFrom(data: seq<byte>, pointers: seq<nat>, i: nat, nextBound: bool): Extraction
    requires i <= |pointers|
    decreases |pointers| - i
  {
    if i == |pointers| then Extraction([], None)
    else if pointers[i] >= |data| then Extraction([], Some(OutOfBounds(i, pointers[i])))
    else
      var rest := ExtractFrom(data, pointers, i + 1, nextBound);
      rest.(files := [Extracted(i, Slice(data, pointers[i], End(data, pointers, i, nextBound)))] + rest.files)
  }

  /** One pass of the extraction loop over an in-range pointer, unfolded. */
  lemma ExtractUnfold(data: seq<byte>, pointers: seq<nat>, i: nat, nextBound: bool)
    requires i < |pointers| && pointers[i] < |data|
    ensures var f := Extracted(i, Slice(data, pointers[i], End(data, pointers, i, nextBound)));
            ExtractFrom(data, pointers, i, nextBound).files == [f] + ExtractFrom(data, pointers, i + 1, nextBound).files
  {
  }

  /** `extract_files` over a pointer list; the output directory and the
      file writes are left out. */
  method ExtractFiles(data: seq<byte>, pointers: seq<nat>, nextBound: bool) returns (files: seq<Extracted>, err: Option<MpqError>)
    ensures Extraction(files, err) == ExtractFrom(data, pointers, 0, nextBound)
  {
    ghost var goal := ExtractFrom(data, pointers, 0, nextBound);
    files := [];
    var i := 0;
    while i < |pointers|
      invariant i <= |pointers|
      invariant goal.err == ExtractFrom(data, pointers, i, nextBound).err
      invariant goal.files == files + ExtractFrom(data, pointers, i, nextBound).files
    {
      var pointer := pointers[i];
      if pointer >= |data| {
        return files, Some(OutOfBounds(i, pointer));
      }
      var start := pointer;
      var takeNext := if nextBound then i + 1 < |pointers| else i + 1 > |pointers|;
      var end := if takeNext && i + 1 < |pointers| then pointers[i + 1] else |data|;
      var f := Extracted(i, Slice(data, start, end));
      assert (files + [f]) + ExtractFrom(data, pointers, i + 1, nextBound).files
         == files + ([f] + ExtractFrom(data, pointers, i + 1, nextBound).files);
      files := files + [f];
      i := i + 1;
    }
    assert files + [] == files;
    return files, None;
  }

  /** Every pointer from `i` on is in range. */
  predicate AllInRange(data: seq<byte>, pointers: seq<nat>, i: nat)
    requires i <= |pointers|
  {
    forall j :: i <= j < |pointers| ==> pointers[j] < |data|
  }

  /** The index of the first out-of-range pointer from `i` on, or the
      length of the table when there is none. */
  function FirstOutOfRange(data: seq<byte>, pointers: seq<nat>, i: nat): (k: nat)
    requires i <= |pointers|
    ensures i <= k <= |pointers|
    ensures forall j :: i <= j < k ==> pointers[j] < |data|
    ensures k < |pointers| ==> pointers[k] >= |data|
    decreases |pointers| - i
  {
    if i == |pointers| || pointers[i] >= |data| then i else FirstOutOfRange(data, pointers, i + 1)
  }

  /** `extract_files` writes one file for each pointer before the first
      out-of-range one and then raises naming it; with every pointer in
      range it writes one file per pointer and raises nothing. */
  lemma {:induction false} ExtractShape(data: seq<byte>, pointers: seq<nat>, i: nat, nextBound: bool)
    requires i <= |pointers|
    ensures var r := ExtractFrom(data, pointers, i, nextBound);
            var k := FirstOutOfRange(data, pointers, i);
            && |r.files| == k - i
            && r.err == (if k == |pointers| then None else Some(OutOfBounds(k, pointers[k])))
    decreases |pointers| - i
  {
    if i < |pointers| && pointers[i] < |data| {
      ExtractShape(data, pointers, i + 1, nextBound);
    }
  }

  /** File `k` written by `extract_files` is the one of pointer `k`, so it
      is named `kkkk.bin`. */
  lemma {:induction false} ExtractNames(data: seq<byte>, pointers: seq<nat>, i: nat, nextBound: bool)
    requires i <= |pointers|
    ensures var r := ExtractFrom(data, pointers, i, nextBound);
            forall k :: 0 <= k < |r.files| ==> r.files[k].index == i + k
    decreases |pointers| - i
  {
    if i < |pointers| && pointers[i] < |data| {
      ExtractNames(data, pointers, i + 1, nextBound);
      var rest := ExtractFrom(data, pointers, i + 1, nextBound).files;
      var r := ExtractFrom(data, pointers, i, nextBound).files;
      ExtractUnfold(data, pointers, i, nextBound);
      forall k | 1 <= k < |r|
        ensures r[k].index == i + k
      {
        assert r[k] == rest[k - 1] && (i + 1) + (k - 1) == i + k;
      }
    }
  }

  /** File `f` is the one of pointer `j` and runs from that pointer to the
      end of the data. */
  predicate ToEnd(data: seq<byte>, pointers: seq<nat>, j: nat, f: Extracted) {
    j < |pointers| && pointers[j] < |data| && f.index == j && f.content == data[pointers[j]..]
  }

  /** As written, every extracted file runs from its pointer to the end of
      the data. */
  lemma {:induction false} AsWrittenToEnd(data: seq<byte>, pointers: seq<nat>, i: nat)
    requires i <= |pointers|
    ensures var r := ExtractFrom(data, pointers, i, false);
            forall k :: 0 <= k < |r.files| ==> ToEnd(data, pointers, i + k, r.files[k])
    decreases |pointers| - i
  {
    if i < |pointers| && pointers[i] < |data| {
      AsWrittenToEnd(data, pointers, i + 1);
      var rest := ExtractFrom(data, pointers, i + 1, false).files;
      var r := ExtractFrom(data, pointers, i, false).files;
      ExtractUnfold(data, pointers, i, false);
      assert End(data, pointers, i, false) == |data|;
      forall k | 0 <= k < |r|
        ensures ToEnd(data, pointers, i + k, r[k])
      {
        if k == 0 {
          assert r[k].content == data[pointers[i + k]..];
        } else {
          assert r[k] == rest[k - 1] && (i + 1) + (k - 1) == i + k;
        }
      }
    }
  }

  /** Pointers in strictly increasing order. */
  predicate Increasing(pointers: seq<nat>) {
    forall j :: 0 <= j < |pointers| - 1 ==> pointers[j] < pointers[j + 1]
  }

  /** The contents of the extracted files, one after another. */
  function Joined(files: seq<Extracted>): seq<byte> {
    if files == [] then [] else files[0].content + Joined(files[1..])
  }

  /** With each file ending at the next pointer, the files of an
      increasing, in-range pointer table tile the data from the first
      pointer to the end: nothing is lost and nothing is extracted twice. */
  lemma {:induction false} NextBoundTiles(data: seq<byte>, pointers: seq<nat>, i: nat)
    requires i < |pointers| && Increasing(pointers) && AllInRange(data, pointers, 0)
    ensures Joined(ExtractFrom(data, pointers, i, true).files) == data[pointers[i]..]
    decreases |pointers| - i
  {
    var r := ExtractFrom(data, pointers, i + 1, true);
    var f := Slice(data, pointers[i], End(data, pointers, i, true));
    var all := [Extracted(i, f)] + r.files;
    assert all[1..] == r.files;
    if i + 1 < |pointers| {
      NextBoundTiles(data, pointers, i + 1);
      assert f == data[pointers[i]..pointers[i + 1]];
      assert data[pointers[i]..] == data[pointers[i]..pointers[i + 1]] + data[pointers[i + 1]..];
    } else {
      assert r.files == [];
      assert f == data[pointers[i]..];
    }
  }

  /** A three-byte archive body with pointers 0 and 1: as written the first
      file takes all three bytes and the second repeats the last two. */
  const Sample: seq<byte> := [0x41, 0x42, 0x43]
  const SamplePointers: seq<nat> := [0, 1]

  /** As written, the files of the sample overlap: together they are longer
      than the data they come from. */
  lemma AsWrittenOverlaps()
    ensures var r := ExtractFrom(Sample, SamplePointers, 0, false);
            |r.files| == 2 && r.files[0].content == Sample && |Joined(r.files)| == 5
  {
    AsWrittenToEnd(Sample, SamplePointers, 0);
    ExtractShape(Sample, SamplePointers, 0, false);
    var r := ExtractFrom(Sample, SamplePointers, 0, false);
    assert r.files[0].content == Sample[0..];
    assert r.files[1].content == Sample[1..];
    assert Joined(r.files) == r.files[0].content + Joined(r.files[1..]);
    assert r.files[1..][1..] == [];
  }

  /** With each file ending at the next pointer, the sample splits into
      "A" and "BC". */
  lemma NextBoundSplits()
    ensures Joined(ExtractFrom(Sample, SamplePointers, 0, true).files) == Sample
  {
    NextBoundTiles(Sample, SamplePointers, 0);
    assert Sample[0..] == Sample;
  }
}
