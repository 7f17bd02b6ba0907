/** Layout constants and pure arithmetic of the DPAC container as
    DPAC/DPAC.py reads and writes it. */
module DpacFormat {
  import opened Bytes

  /** First byte of the table of contents (`toc_start`). */
  const TocStart: nat := 0x800
  /** One past the last byte of the table of contents (`toc_end`). */
  const TocEnd: nat := 0x4000
  /** First byte of the data region (`data_offset`). */
  const DataOffset: nat := 0x4000
  /** Granularity of stored pointers and of payload padding. */
  const Sector: nat := 2048
  /** The four bytes "DPAC". */
  const Magic: seq<byte> := [0x44, 0x50, 0x41, 0x43]

  /** Exception kinds raised by DPAC/DPAC.py (DPAC/DPACExceptions.py and the
      built-in Python exceptions that escape it). */
  datatype DpacError =
    | InvalidDpacFile            // InvalidDPACFileError: bad magic
    | ShortRead                  // struct.error on a truncated field
    | InvalidBigTocCount(n: int) // ValueError: big TOC count above 0xFFFF
    | ZeroTocCount               // ZeroTOCCountError
    | TocParse                   // TOCParseError wrapping any failure in parse_toc
    | NameNotLatin1              // UnicodeEncodeError while writing a name
    | FieldOverflow              // struct.error from struct.pack on a too large value
    | PointerOutOfRange(raw: int)// ValueError: raw pointer above 0xFFFF
    | PointerBelowData(at: int)  // ValueError: data position below 0x4000
    | MissingFolderKey           // KeyError on the folder-pointer dictionary

  /** `resolve_pointer`: raw sector index to absolute offset.  The special
      case for a raw value of 0 agrees with the general formula. */
  function ResolvePointer(raw: nat): (p: nat)
    ensures p == raw * Sector + DataOffset
    ensures p >= DataOffset && (p - DataOffset) % Sector == 0
  {
    if raw == 0 then DataOffset else raw * Sector + DataOffset
  }

  /** `resolve_file_size`: raw size in units of 256 bytes. */
  function ResolveFileSize(raw: nat): (n: nat)
    ensures n % 256 == 0 && n / 256 == raw
  {
    raw * 256
  }

  /** The writer's inverse of `resolve_pointer`: `(start - 0x4000) >> 11`. */
  function RawPointer(start: nat): nat
    requires start >= DataOffset
  {
    (start - DataOffset) / Sector
  }

  /** Every sector-aligned offset in the data region is reproduced exactly by
      resolving the raw pointer the writer stores for it. */
  lemma ResolveRawPointer(start: nat)
    requires start >= DataOffset && start % Sector == 0
    ensures ResolvePointer(RawPointer(start)) == start
  {
    var k := (start - DataOffset) / Sector;
    assert start - DataOffset == k * Sector + (start - DataOffset) % Sector;
    assert (start - DataOffset) % Sector == 0 by {
      assert DataOffset == 8 * Sector;
    }
  }

  /** A folder header's 16-bit count field: `field & 0x7FFF` files, numeric
      mode when `field & 0x8000` is set. */
  function FileCountOf(field: nat): nat
    requires field < 0x1_0000
  {
    field % 0x8000
  }

  predicate IsNumericMode(field: nat)
    requires field < 0x1_0000
  {
    field >= 0x8000
  }

  /** The two parts of the count field are its low 15 bits and its top bit. */
  lemma CountFieldSplit(field: nat)
    requires field < 0x1_0000
    ensures FileCountOf(field) < 0x8000
    ensures field == FileCountOf(field) + (if IsNumericMode(field) then 0x8000 else 0)
  {
  }

  /** Count field 0x8003: numeric mode with three files. */
  lemma CountFieldExample()
    ensures IsNumericMode(0x8003) && FileCountOf(0x8003) == 3
  {
  }

  /** `toc_count = packed >> 3`. */
  function SmallTocCount(packed: nat): nat { packed / 8 }

  /** `big_toc_count`, which is also the listing limit of `parse_toc`. */
  function BigTocCount(packed: nat): int {
    if SmallTocCount(packed) > 12 then packed / 4 - 6 else SmallTocCount(packed)
  }

  /** `parse_header` accepts the packed count exactly when it lies in
      [8, 0x40018): below 8 the small count is 0, from 0x40018 on the big
      count exceeds 0xFFFF. */
  lemma {:induction false} HeaderCountAccepted(packed: nat)
    ensures (BigTocCount(packed) <= 0xFFFF && SmallTocCount(packed) > 0)
            <==> 8 <= packed < 0x40018
    ensures SmallTocCount(packed) > 0 ==> BigTocCount(packed) >= SmallTocCount(packed)
  {
    if packed / 8 > 12 {
      assert packed / 4 == 2 * (packed / 8) + (packed % 8) / 4;
    }
  }
}
