/** GUI/GUI.py: the two magic classifiers of the viewer and the offset
    arithmetic it uses to locate a DPAC entry. */
module GuiClassify {
  import opened Bytes
  import DpacFormat
  import YukesPac

  /** "PAC " */
  const PacTag: seq<byte> := [0x50, 0x41, 0x43, 0x20]
  /** "DPAC", the DPAC container's magic. */
  const DpacTag: seq<byte> := DpacFormat.Magic
  /** The largest file count `is_pac_file` accepts. */
  const MaxPacFiles: nat := 100000

  /** The labels `get_file_type` returns. */
  datatype FileType = Raw | Pac | Dpac

  /** `get_file_type(blob)`. */
  function GetFileType(blob: seq<byte>): (t: FileType)
    ensures t == Pac <==> |blob| >= 4 && blob[..4] == PacTag
    ensures t == Dpac <==> |blob| >= 4 && blob[..4] == DpacTag
  {
    if |blob| < 4 then Raw
    else if blob[..4] == PacTag then Pac
    else if blob[..4] == DpacTag then Dpac
    else Raw
  }

  /** `is_pac_file(blob)`. */
  function IsPacFile(blob: seq<byte>): (b: bool)
    ensures b ==> GetFileType(blob) == Pac
    ensures b <==> |blob| >= 8 && blob[..4] == PacTag && 0 < U32LE(blob, 4) <= MaxPacFiles
  {
    if |blob| < 8 then false
    else if blob[..4] != PacTag then false
    else 0 < U32LE(blob, 4) <= MaxPacFiles
  }

  /** Only the first four bytes decide the label: bytes read past them
      never change it. */
  lemma {:induction false} FileTypePrefix(blob: seq<byte>, more: seq<byte>)
    requires |blob| >= 4
    ensures GetFileType(blob + more) == GetFileType(blob)
  {
    assert (blob + more)[..4] == blob[..4];
  }

  /** A blob labelled "PAC" has exactly the magic the Yukes PAC reader
      checks: the little-endian word 0x20434150 at offset 0. */
  lemma {:induction false} PacTagIsYukesMagic(blob: seq<byte>)
    requires |blob| >= 4
    ensures GetFileType(blob) == Pac <==> U32LE(blob, 0) == YukesPac.PacMagic
  {
    var v := U32LE(blob, 0);
    if v == YukesPac.PacMagic {
      assert U16LE(blob, 0) == 0x4150 && U16LE(blob, 2) == 0x2043;
      assert blob[0] == 0x50 && blob[1] == 0x41;
      assert blob[2] == 0x43 && blob[3] == 0x20;
      assert blob[..4] == PacTag;
    }
  }

  /** Python's `x << k` on a non-negative integer. */
  function Shl(x: nat, k: nat): (r: nat)
    decreases k
  {
    if k == 0 then x else 2 * Shl(x, k - 1)
  }

  /** A left shift multiplies by a power of two: `x << (j + k)` is
      `(x << j) << k`, and shifting zero gives zero. */
  lemma {:induction false} ShlAdd(x: nat, j: nat, k: nat)
    ensures Shl(x, j + k) == Shl(Shl(x, j), k)
    ensures x == 0 <==> Shl(x, k) == 0
    decreases k
  {
    if k > 0 {
      ShlAdd(x, j, k - 1);
    }
  }

  /** `x << 8` is `x * 256`. */
  lemma {:induction false} Shl8(x: nat)
    ensures Shl(x, 8) == 256 * x
  {
    ShlAdd(x, 4, 4);
    assert Shl(x, 4) == 16 * x;
  }

  /** `x << 11` is `x * 2048`. */
  lemma {:induction false} Shl11(x: nat)
    ensures Shl(x, 11) == 2048 * x
  {
    Shl8(x);
    ShlAdd(x, 8, 3);
  }

  /** `base = (logic << 11) + 0x4000` in `load_pac`. */
  function EntryBase(logic: nat): nat {
    Shl(logic, 11) + 0x4000
  }

  /** `size << 8` in `load_pac`: the number of bytes read for the entry. */
  function EntryLength(size: nat): nat {
    Shl(size, 8)
  }

  /** The viewer locates an entry exactly where the DPAC reader resolves
      its pointer: sector `logic` of the data area, which starts at 0x4000. */
  lemma EntryBaseResolves(logic: nat)
    ensures EntryBase(logic) == DpacFormat.ResolvePointer(logic)
    ensures EntryBase(logic) >= DpacFormat.DataOffset
    ensures (EntryBase(logic) - DpacFormat.DataOffset) % DpacFormat.Sector == 0
  {
    Shl11(logic);
  }

  /** The viewer reads exactly as many bytes as the DPAC reader resolves
      for the entry: `size` units of 256 bytes. */
  lemma EntryLengthResolves(size: nat)
    ensures EntryLength(size) == DpacFormat.ResolveFileSize(size)
    ensures EntryLength(size) % 256 == 0 && EntryLength(size) / 256 == size
  {
    Shl8(size);
  }
}
