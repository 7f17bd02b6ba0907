# PACTool archive formats in Dafny

A model of the archive codecs of PACTool, a toolkit for the "DPAC" sector
archives of Yuke's games and a few sibling containers. Every reader works on
the archive as a byte sequence (`seq<byte>`). A Python file object becomes
that sequence plus a cursor. `file.read(n)` becomes `Bytes.Read`, which
returns fewer bytes at the end of the file.

The modules follow the repository's files:

- `Bytes` (bytes.dfy): the little- and big-endian fields, latin-1 text, `str.strip`, hexadecimal and decimal rendering.
- `DpacFormat`, `DpacReader`, `DpacWriter` (dpac_format.dfy, dpac_reader.dfy, dpac_writer.dfy): DPAC/DPAC.py.
  - The reader is `parse_header` and `parse_toc`: a two-mode walk over 8-byte named and 4-byte numeric records.
  - The writer is `create_new_dpac`. Its four steps write into a `Stream` class with Python's seek and write semantics, and back-patch pointers and the size field.
- `DirectoryPackage` (directory_package.dfy): the older reader DPAC.py, with its byte-counter walk `Bin2Dict`.
- `LogicFile` (logic_file.dfy): logic/file.py, the memoryview reader that files records into a dictionary.
- `PacToolLoaders` (pactool_loaders.dfy): the `DPAC` and `EPK8` loaders of PACTool.py and the `HEADER_MAP` dispatch of `load_file`.
- `Mpq` (mpq.dfy): MPQ/MPQ.py, the big-endian pointer table and the extraction ranges.
- `YukesPac` (yukes_pac.dfy): the `CData` class of Yukes/Package/PAC/PAC.py, the "PAC " container.
- `FolderStructure` (folder_structure.dfy): `build_folder_structure` of Main_Window.py over a directory listing.
- `PacUtilities` (pac_utilities.dfy): `sanitize_folder_name` and `mass_extract` of Utilities/PACUtilities.py.
- `GuiClassify` (gui_classify.dfy): the magic classifiers of GUI/GUI.py and its DPAC entry arithmetic.

Loops of the source are methods with loop invariants. Each method is proved
equal to a specification function, and the lemmas state what the source
promises about that function. Objects whose fields the source updates are
classes: `DpacReader.Dpac`, `DpacWriter.Stream`, `DirectoryPackage.Package`,
the two loader classes and `YukesPac.CData`.

Where the code and its documentation disagree, the model follows the code:

- The `HEADER_MAP` key `b"MPQ"` has three bytes, and `load_file` looks up the first four bytes of the file. The key therefore matches only a file that is exactly "MPQ". `MPQ.load` then reads `file_count` before assigning it.
- A second `CData.Search` does not append copies of the same entries. The cursor is never reset, so it appends the next `ECount` records of the file.
- In DPAC.py, numeric entries lie back to back only while the data buffer lasts. Each entry starts where the buffer stood after the reads before it, and `BytesIO.read` stops at the end of the buffer.
- `_write_toc` keys `folder_pointers` by the padded name with its whitespace stripped. `_write_file_data` looks the folder up by its raw name, so for some names the lookup raises `KeyError` (`MissingFolderKey`).

## Model

| member | source | states |
|---|---|---|
| Bytes.U32LE | DPAC/DPAC.py:18-21 | `struct.unpack("<I")` is a value below 2^32 whose low and high halfwords are the two little-endian u16 fields |
| Bytes.U32BE | MPQ/MPQ.py:36 | `struct.unpack(">I")` is a value below 2^32 whose high and low halfwords are the two big-endian u16 fields |
| Bytes.EncodeU16LE | DPAC/DPAC.py:267 | `struct.pack("<H", v)` gives 2 bytes that read back as `v` |
| Bytes.EncodeU32LE | DPAC/DPAC.py:237 | `struct.pack("<I", v)` gives 4 bytes that read back as `v` |
| Bytes.ReadSpec | DPAC/DPAC.py:28-30 | `file.read(n)` at a position: at most `n` bytes, exactly `data[pos..pos+n]` when they exist, empty past the end |
| Bytes.EncodeLatin1Spec | DPAC/DPAC.py:266 | latin-1 encoding succeeds iff every character is below 256, and then maps each character to its code |
| Bytes.Latin1RoundTrip | DPAC/DPAC.py:98 | decoding latin-1 bytes and encoding them again gives the bytes back |
| Bytes.RStripSpec | DPAC/DPAC.py:98 | `rstrip` keeps a prefix that ends on a kept character and removes only dropped characters |
| Bytes.LStripSpec | PACTool.py:60-62 | `lstrip` keeps a suffix that starts on a kept character and removes only dropped characters |
| Bytes.StripEmptyIff | Utilities/PACUtilities.py:30-35 | a string strips to nothing iff every character is whitespace |
| Bytes.StripIdempotent | Utilities/PACUtilities.py:12 | stripping twice is stripping once |
| Bytes.HexByte | DPAC/DPAC.py:135 | `.hex()` of one byte is two hex digits whose value is the byte |
| Bytes.DecimalRoundTrip | DPAC.py:17-20 | `str(val)` is a digit string whose decimal value is `val` |
| Bytes.ZeroPad4Spec | MPQ/MPQ.py:58 | `f"{i:04}"` has at least four digits and its decimal value is `i` |
| DpacFormat.ResolvePointer | DPAC/DPAC.py:32-48 | `resolve_pointer(raw)` is `raw*2048 + 0x4000` for every raw value, including the special case 0 |
| DpacFormat.ResolveFileSize | DPAC/DPAC.py:50-55 | `resolve_file_size(raw)` is a whole number of 256-byte units equal to `raw` |
| DpacFormat.ResolveRawPointer | DPAC/DPAC.py:328 | the writer's raw pointer `(start - 0x4000) >> 11` resolves back to every aligned start in the data region |
| DpacFormat.CountFieldSplit | DPAC/DPAC.py:103-104 | the count field is its low 15 bits (`file_count`) plus the numeric-mode bit 0x8000 |
| DpacFormat.CountFieldExample | DPAC/DPAC.py:103-104 | field 0x8003 is numeric mode with three files |
| DpacFormat.HeaderCountAccepted | DPAC/DPAC.py:69-79 | `parse_header` accepts the packed count iff it lies in [8, 0x40018), and the big count is never below the small one |
| DpacReader.NumericId | DPAC/DPAC.py:132-135 | the reversed-bytes hex ID has four digits and spells the little-endian value |
| DpacReader.HexValueOfFour | DPAC/DPAC.py:135 | a four-digit hex string is worth its digits weighted by 4096, 256, 16 and 1 |
| DpacReader.RunHeadersDone | DPAC/DPAC.py:94 | the walk ends without failing once the cursor reaches `toc_end` or the listing count reaches the limit |
| DpacReader.RunHeadersBlank | DPAC/DPAC.py:109-111 | a header with a blank name and a zero raw pointer stops the walk |
| DpacReader.RunHeadersSkip | DPAC/DPAC.py:113-116 | a header whose resolved pointer is at or past the declared size is skipped after its 8 bytes |
| DpacReader.RunHeadersEnter | DPAC/DPAC.py:113-125 | any other header opens a folder with `field & 0x7FFF` files, the numeric flag and the resolved pointer as current pointer |
| DpacReader.RunRecordsClose | DPAC/DPAC.py:126-172 | the file loop ends at the count, at `toc_end` or at the limit, and the folder is appended iff its file count is positive |
| DpacReader.RunNumericRecord | DPAC/DPAC.py:131-147 | a numeric record appends a file at the current pointer, advances the pointer by its size and counts one listing |
| DpacReader.RunNamedEmpty | DPAC/DPAC.py:153-155 | a named record with zero pointer and size is neither appended nor counted |
| DpacReader.RunNamedRecord | DPAC/DPAC.py:149-169 | any other named record appends the named file with its resolved pointer and size and counts one listing |
| DpacReader.RunHeadersShort | DPAC/DPAC.py:177-178 | a header cut short by the end of the file fails the walk (`TOCParseError`) |
| DpacReader.RunRecordsShort | DPAC/DPAC.py:177-178 | a record cut short by the end of the file fails the walk |
| DpacReader.RunOk | DPAC/DPAC.py:94-172 | every run from a state satisfying the walk invariant ends satisfying `WalkedOk` |
| DpacReader.ParseTocGuarantees | DPAC/DPAC.py:86-178 | the cursor stays within one record of `toc_end`, the listings within the limit and equal to the appended files; appended folders have a positive count and a pointer in [0x4000, size), and their files lie back to back or on sectors |
| DpacReader.ParseRecord | DPAC/DPAC.py:127-172 | one record: cut short it fails the walk, an empty named record is skipped, any other is appended, as the walk specification says |
| DpacReader.ParseFolder | DPAC/DPAC.py:94-172 | one header: short it fails, blank it stops, outside the data it is skipped, otherwise its files are read, as the walk specification says |
| DpacReader.ParseFiles | DPAC/DPAC.py:126-169 | the file loop ends in the state the walk specification reaches |
| DpacReader.ParseFolders | DPAC/DPAC.py:94-178 | the header loop returns exactly the folders of the walk specification, and fails exactly when it does |
| DpacReader.Dpac.ParseHeader | DPAC/DPAC.py:57-84 | succeeds iff the header has 16 bytes, the magic and a packed count in [8, 0x40018); wrong magic raises `InvalidDPACFileError` with nothing changed; the two counts are stored before they are checked; a big count above 0xFFFF or a zero count raises with the size and sector fields untouched; the size and sector fields are set exactly when the file reaches them |
| DpacReader.Dpac.ParseToc | DPAC/DPAC.py:86-178 | `toc` grows by exactly the walk's folders, and the call fails exactly when the walk does |
| DpacReader.Dpac.Load | DPAC/DPAC.py:418-421 | succeeds iff the header is accepted and the TOC walk does not fail; a header error leaves the TOC as it was; after an accepted header the walk's folders are appended, also when the walk then fails; counts, size and sector are left as `parse_header` leaves them |
| DpacWriter.Pad4 | DPAC/DPAC.py:260 | `ljust(4, "\x00")[:4]` has exactly four characters |
| DpacWriter.Pad4Spec | DPAC/DPAC.py:260-276 | a padded name keeps the first four characters and fills the rest with NUL |
| DpacWriter.HeaderWritten | DPAC/DPAC.py:230-246 | `_write_header` raises `struct.error` iff the packed count does not fit 32 bits, having written only the magic |
| DpacWriter.HeaderFields | DPAC/DPAC.py:235-241 | the header is "DPAC", `Σ(files+1) << 3`, a zero size and the sector field 7 |
| DpacWriter.WriteHeader | DPAC/DPAC.py:230-246 | the stream receives exactly the header bytes, or the magic and the error |
| DpacWriter.FolderHeaderWritten | DPAC/DPAC.py:260-269 | a folder entry written without error is 8 bytes |
| DpacWriter.FileRecordWritten | DPAC/DPAC.py:276-285 | a file record written without error is 8 bytes |
| DpacWriter.RecordFields | DPAC/DPAC.py:260-285 | a folder entry holds the padded name, `len(files) << 1` and a zero pointer; a file record holds the padded name, a zero pointer and `len(data) >> 8` |
| DpacWriter.CountFieldAsRead | DPAC/DPAC.py:103-104 | the reader masks the doubled count and never halves it; from 16384 files the folder reads as numeric |
| DpacWriter.FolderEntryLength | DPAC/DPAC.py:259-289 | a folder entry written without error is 8 bytes plus 8 per file |
| DpacWriter.TocLayout | DPAC/DPAC.py:249-292 | the TOC is one 8-byte record per folder and file; each pointer location is 4 bytes into its record, and the last folder with a key records 6 bytes into its entry |
| DpacWriter.BackPatchTarget | DPAC/DPAC.py:357-359 | the folder back-patch lands on the first file's pointer field, 12 bytes into the entry, never on the folder's own field |
| DpacWriter.TocFits | DPAC/DPAC.py:260-285 | `_write_toc` raises nothing iff every name is latin-1, every count field and every size field fits 16 bits |
| DpacWriter.WriteFileRecord | DPAC/DPAC.py:276-289 | the stream receives exactly one file record and the pointer location is 4 bytes into it |
| DpacWriter.WriteFolderHeader | DPAC/DPAC.py:260-271 | the stream receives the folder entry and the key location is 6 bytes into it |
| DpacWriter.WriteFileRecords | DPAC/DPAC.py:275-289 | the stream receives the records in order, and the locations are their pointer fields |
| DpacWriter.WriteFolderEntry | DPAC/DPAC.py:259-289 | the stream receives one folder entry and its records |
| DpacWriter.WriteToc | DPAC/DPAC.py:249-296 | the stream receives the TOC from 0x800, and the entries, keys and locations are those of the specification |
| DpacWriter.Padding | DPAC/DPAC.py:347-348 | the padding is below 2048 and brings the pointer to a sector boundary |
| DpacWriter.WritePayload | DPAC/DPAC.py:314-344 | one pass of the inner loop reaches the state of the specification |
| DpacWriter.PadToSector | DPAC/DPAC.py:346-353 | the zero padding reaches the padded state |
| DpacWriter.WriteFolderData | DPAC/DPAC.py:308-359 | one folder's files and its pointer update reach the specification's state |
| DpacWriter.WriteFileData | DPAC/DPAC.py:299-367 | `_write_file_data` reaches the specification's state |
| DpacWriter.FileNextAligned | DPAC/DPAC.py:326-353 | a file raises iff its raw pointer exceeds 0xFFFF; otherwise the pointer advances by the padded size and stays aligned |
| DpacWriter.FolderNextAligned | DPAC/DPAC.py:308-359 | a folder advances the pointer by its files' padded sizes and keeps it aligned |
| DpacWriter.DataTotal | DPAC/DPAC.py:305-363 | `total_written_size` is every payload plus padding, and the pointer ends aligned that far past 0x4000 |
| DpacWriter.FilePointerResolves | DPAC/DPAC.py:328-336 | the patched raw pointer resolves to the file's `current_pointer` |
| DpacWriter.FilePayloadPlaced | DPAC/DPAC.py:322 | with the stream at `current_pointer`, the payload lands where its pointer resolves |
| DpacWriter.FolderCloseAsWritten | DPAC/DPAC.py:356-359 | as written, closing a folder with files leaves the stream at its key plus 8, inside the TOC |
| DpacWriter.FoldersFromSettled | DPAC/DPAC.py:308-359 | with the seek back, the stream stands at `current_pointer` after every folder |
| DpacWriter.FinalizeFile | DPAC/DPAC.py:370-382 | the stream receives the total packed at offset 8, or `struct.error` |
| DpacWriter.FinalizedFields | DPAC/DPAC.py:375-377 | `_finalize_file` changes only the size field at offset 8 |
| DpacWriter.FinalizedKeeps | DPAC/DPAC.py:376-377 | every byte after the header is left alone |
| DpacWriter.CreateNewDpac | DPAC/DPAC.py:180-207 | the four steps run in turn on an empty file and stop at the first exception |
| DpacWriter.CreatedKeepsHeader | DPAC/DPAC.py:187-202 | the TOC and data steps leave the 16 header bytes as written |
| DpacWriter.CreatedHeader | DPAC/DPAC.py:180-241 | a completed file starts "DPAC", `Σ(files+1) << 3`, the payload-plus-padding total and the sector field 7 |
| DpacWriter.PayloadInTocAsWritten | DPAC/DPAC.py:337-359 | as written, the second folder's payload overwrites the first file's size field in the TOC |
| DpacWriter.PayloadInDataCorrected | DPAC/DPAC.py:337-359 | with the seek back, the payload lands at 0x4800 where its pointer resolves |
| DpacWriter.CreatedPayloadInToc | DPAC/DPAC.py:180-207 | `create_new_dpac` on two one-file folders completes, yet the second file's data is not where its pointer resolves |
| DpacWriter.CreatedPayloadInData | DPAC/DPAC.py:180-207 | with the seek back the second file's byte sits where its pointer resolves |
| DpacWriter.CreatedPayloadReadable | DPAC/DPAC.py:299-367 | with the seek back, whenever `create_new_dpac` raises nothing and the TOC ends 6 bytes or more before 0x4000, the raw pointer of every file of every folder resolves to an offset from which its whole payload reads back |
| DpacWriter.FilesFromPlaced | DPAC/DPAC.py:314-353 | the raw pointer patched for a file names a sector-aligned offset holding its payload, and for the first file it is the folder's first pointer |
| DpacWriter.FoldersFromKeeps | DPAC/DPAC.py:308-359 | payloads, padding, pointer patches and back-patches of later folders that miss a file's pointer field and payload keep both |
| DpacWriter.FoldersFromKnown | DPAC/DPAC.py:355-357 | when `_write_file_data` raises nothing, the name of every folder with files is a `folder_pointers` key |
| DpacWriter.KeyShape | DPAC/DPAC.py:260-271 | a `folder_pointers` key has at most 4 characters and no whitespace at either end |
| DpacWriter.KeyOfKey | DPAC/DPAC.py:260-271 | a folder named after the key of a name shaped like a key is looked up under its own key |
| DpacWriter.CloseTarget | DPAC/DPAC.py:355-359 | the back-patch of a folder with files lands 12 bytes into the entry of a folder that comes at or after it or has no files, below 0x4000 |
| DpacWriter.CloseMisses | DPAC/DPAC.py:355-359 | that back-patch misses the pointer field of every file of the folder and of earlier folders, except the folder's own first file's field |
| DirectoryPackage.AlignTo2048 | DPAC.py:4-7 | `(cp + 2047) & ~2047` is a multiple of 2048 in [cp, cp + 2048) |
| DirectoryPackage.AlignSmallest | DPAC.py:4-7 | it is the least multiple of 2048 at or after `cp` |
| DirectoryPackage.FixSize | DPAC.py:9-11 | `val << 8` agrees with `resolve_file_size` |
| DirectoryPackage.FixOffset | DPAC.py:13-15 | `(val << 11) + 0x4000` agrees with `resolve_pointer` and lands on a sector of the data region |
| DirectoryPackage.IsoSeek | DPAC.py:22-23 | sector `v` is at `v * 2048` |
| DirectoryPackage.IndexAt | DPAC.py:17-20 | `ResolveIndices` is a digit string worth the big-endian u16 |
| DirectoryPackage.Enforce4x2 | DPAC.py:25-27 | raises iff the name has fewer than four characters |
| DirectoryPackage.FolderHead | DPAC.py:50-82 | a folder header read without error is an ASCII name and 8 bytes, and the data buffer moves to `FixOffset(Base)` |
| DirectoryPackage.EntriesConsume | DPAC.py:61-94 | a file loop without error reads one record per file and lowers the counter by the record width each time |
| DirectoryPackage.FolderLayout | DPAC.py:49-95 | a folder consumes its header and one record per file, lowers the counter by as much, and appends one tuple with its name and count |
| DirectoryPackage.FolderStepEntries | DPAC.py:49-95 | a folder read without an exception appends one tuple holding its name, its count and the entries of the file loop started right after its 8-byte header |
| DirectoryPackage.NumericLoopStep | DPAC.py:61-71 | one numeric pass without an exception reads 4 bytes, appends the record at the data position and moves the data buffer past the bytes read |
| DirectoryPackage.FolderRecords | DPAC.py:58-95 | the appended tuple holds the records in order, numeric ones from the folder's base offset |
| DirectoryPackage.Bin2DictBalance | DPAC.py:47-96 | the cursor plus the counter never changes, and the counter ends at or below 0 |
| DirectoryPackage.Bin2DictTiles | DPAC.py:46-96 | a walk without error starts at the head of the TOC buffer and its records fill it exactly |
| DirectoryPackage.NamedEntryOk | DPAC.py:85-93 | a named record is 8 bytes and appends `(name, FixSize(size), FixOffset(offset))` |
| DirectoryPackage.NumericEntryOk | DPAC.py:62-71 | a numeric record is 4 bytes and appends an entry at the data position, which moves past the bytes read |
| DirectoryPackage.NamedEntriesAre | DPAC.py:84-94 | a named loop's entries are the consecutive 8-byte records after the header |
| DirectoryPackage.DataAfterRead | DPAC.py:66-68 | after reading `size` bytes at `ptr`, the data buffer is just past the bytes read: `ptr + size` while the buffer lasts, else its end |
| DirectoryPackage.NumericEntriesAre | DPAC.py:61-71 | a numeric loop's entries are the consecutive 4-byte records, each starting where the previous one's bytes end |
| DirectoryPackage.NumericRecordsContiguous | DPAC.py:66-71 | the first entry starts at the data position, and each later entry starts where the bytes of the entry before it end |
| DirectoryPackage.Package.Load | DPAC.py:30-40 | three LE u32 at offset 4; the TOC is `SubSectorSize` bytes from sector 1 and the data `DataSize` bytes from sector `SectorCount + 1` |
| DirectoryPackage.Package.Bin2Dict | DPAC.py:46-96 | the walk reaches the specification's state, and the result is `Contents` |
| DirectoryPackage.Package.ReadFolder | DPAC.py:49-95 | one pass of the loop is one step of the specification |
| DirectoryPackage.Package.ReadFolderHeader | DPAC.py:50-80 | the name, the numeric flag and the count of a header |
| DirectoryPackage.Package.ReadFolderFields | DPAC.py:52-82 | after the count field the base offset is read and the data buffer moves to `FixOffset(Base)`; a short field raises and leaves the state the specification gives |
| DirectoryPackage.Package.ReadCountField | DPAC.py:52-78 | numeric iff the first count byte is 0x80, then `second // 2` files, else the whole u16 `// 2`; two bytes are consumed either way, and a short field is reported |
| DirectoryPackage.Package.ReadEntries | DPAC.py:61-94 | the file loop reaches the specification's state |
| DirectoryPackage.Package.ReadNumericEntry | DPAC.py:62-71 | one numeric record as specified |
| DirectoryPackage.Package.ReadNamedEntry | DPAC.py:85-93 | one named record as specified |
| LogicFile.StoreFrame | logic/file.py:32-36 | a later record for the same folder and name replaces the earlier one, and every other folder and file is kept |
| LogicFile.FilesStep | logic/file.py:24-36 | a record that cannot be cast ends the walk; any other is stored and the loop moves 8 bytes on |
| LogicFile.ReadFile | logic/file.py:7-39 | a short header raises; otherwise the result is the walk over `toc_size` bytes from 2048 and `data_size` bytes from 16384 |
| LogicFile.ReadFolderHeader | logic/file.py:16-23 | a header reads iff it can be cast, bit 0x8000 is clear and the count is at most 4095; the file count is `count // 2` |
| LogicFile.WalkToc | logic/file.py:14-39 | the folder loop reaches the state of the specification |
| LogicFile.ReadFiles | logic/file.py:24-36 | the file loop reaches the specification's state |
| LogicFile.ReadFileRecord | logic/file.py:25-36 | one pass of the file loop either ends the walk as the specification ends it or consumes 8 bytes and advances the specification by one record |
| LogicFile.ReadRecord | logic/file.py:25-36 | one record is stored with its sector, size and payload slice |
| LogicFile.WalkGood | logic/file.py:14-39 | no folder appears without a file, and every file is the record of a TOC entry of its name with its payload slice |
| LogicFile.ReadFileGood | logic/file.py:7-39 | `File.read` on any file with a header returns such a dictionary |
| LogicFile.OddTocEmpty | logic/file.py:18 | a TOC buffer of odd length gives an empty dictionary |
| LogicFile.WalkGrows | logic/file.py:32-36 | the walk never removes a folder or a file |
| LogicFile.BadCountStops | logic/file.py:20-38 | a count with bit 0x8000 or above 4095 ends the walk with the dictionary as it stood |
| LogicFile.LastRecordWins | logic/file.py:32-36 | of two records naming one file, the second one's sector and size are kept |
| PacToolLoaders.DpacFilesListing | PACTool.py:84-126 | the DPAC file loop only appends, and `entries_parsed` grows by the number of files appended |
| PacToolLoaders.NumericFilesAll | PACTool.py:82-126 | numeric blocks append one file each, in order, the first at 0x4000 and each later one where the previous one's data ends |
| PacToolLoaders.NamedFilesAll | PACTool.py:104-126 | named blocks append one file each, with data at `(raw << 11) + 0x4000` of length `raw << 8` |
| PacToolLoaders.NumericFilesStep | PACTool.py:97-126 | the first of several listed numeric blocks appends the file of its identifier with data at `current_pointer`, and the blocks after it stay listed |
| PacToolLoaders.NamedStep | PACTool.py:104-126 | a named block of non-zero length appends the file it names |
| PacToolLoaders.DpacFolder | PACTool.py:60-128 | one pass over a header consumes at least its 8 bytes |
| PacToolLoaders.EmptyHeaders | PACTool.py:71-128 | a nameless header with zero count is counted and skipped; a named one is appended with no files |
| PacToolLoaders.DpacWalkEnds | PACTool.py:59-134 | the walk ends without error iff `entries_parsed` reached the count; otherwise a short header raised `struct.error` |
| PacToolLoaders.DpacLoader.Load | PACTool.py:40-134 | the loader appends the specification's folders and raises its error |
| PacToolLoaders.ReadDpacFiles | PACTool.py:84-126 | the file loop reaches the specification's state |
| PacToolLoaders.Epk8FilesListing | PACTool.py:202-233 | the EPK8 file loop only appends and counts each appended file |
| PacToolLoaders.Epk8FilesAll | PACTool.py:202-233 | non-placeholder 16-byte blocks append one file each, in order, and count each |
| PacToolLoaders.Epk8ZeroPointerKept | PACTool.py:215-223 | a block with a zero pointer but a non-zero length is kept |
| PacToolLoaders.Epk8Folder | PACTool.py:176-235 | one pass over a 12-byte record consumes at least its 12 bytes |
| PacToolLoaders.Epk8WalkEnds | PACTool.py:174-241 | past the header the walk raises nothing, keeps its folders, and ends at the count or at a short folder record |
| PacToolLoaders.Epk8LoadErrors | PACTool.py:155-168 | `EPK8.load` raises exactly for a wrong magic or a header shorter than 16 bytes |
| PacToolLoaders.Epk8Loader.Load | PACTool.py:155-241 | the loader appends the specification's folders and raises its error |
| PacToolLoaders.ReadEpk8Step | PACTool.py:203-233 | one block: skipped iff its raw pointer and length are both zero, otherwise its named file is appended and counted |
| PacToolLoaders.ReadDpacBlock | PACTool.py:85-126 | one block: a zero-length block only moves the cursor, any other appends its file and counts one entry; numeric blocks move `current_pointer` on |
| PacToolLoaders.ReadDpacFolder | PACTool.py:60-128 | one folder pass as the walk specification says |
| PacToolLoaders.ReadEpk8Folder | PACTool.py:176-233 | one folder pass as the walk specification says |
| PacToolLoaders.ReadEpk8Files | PACTool.py:202-233 | the file loop reaches the specification's state |
| PacToolLoaders.TagOf | PACTool.py:330 | the tag is the first `min(4, len)` bytes |
| PacToolLoaders.MpqKeyMatchesOnlyItself | PACTool.py:315-332 | the key "MPQ" matches iff the file is exactly "MPQ" |
| PacToolLoaders.LoadFileMpq | PACTool.py:290-337 | `load_file` raises `UnboundLocalError` iff the file is exactly "MPQ" |
| PacToolLoaders.DpacLoadError | PACTool.py:40-134 | `DPAC.load` raises only its magic `ValueError` or `struct.error` |
| PacToolLoaders.UnknownTagRejected | PACTool.py:332-334 | `load_file` raises the unknown-magic `ValueError` iff the tag is no key of the map |
| Mpq.CheckMagic | MPQ/MPQ.py:23-29 | no error iff the first three bytes are "MPQ" |
| Mpq.ParseToc | MPQ/MPQ.py:31-47 | the count is the BE u32 at 0x0C and pointer `i` the BE u32 at `0x10 + 4i`; it raises iff the table runs past the data |
| Mpq.Slice | MPQ/MPQ.py:73 | `data[start:end]` with Python's clamping |
| Mpq.ExtractFiles | MPQ/MPQ.py:49-79 | the loop produces the extraction the specification gives |
| Mpq.FirstOutOfRange | MPQ/MPQ.py:62-63 | the first pointer at or past the end of the data |
| Mpq.ExtractShape | MPQ/MPQ.py:56-63 | files are extracted up to the first out-of-range pointer, which raises |
| Mpq.ExtractNames | MPQ/MPQ.py:56-58 | file `k` is named by its index, four digits and ".bin" |
| Mpq.AsWrittenToEnd | MPQ/MPQ.py:66-73 | as written every file runs from its pointer to the end of the data |
| Mpq.NextBoundTiles | MPQ/MPQ.py:65-70 | bounded by the next pointer, increasing pointers tile the data from the first pointer |
| Mpq.AsWrittenOverlaps | MPQ/MPQ.py:66-73 | as written, pointers [0, 1] over "ABC" give files that overlap, 5 bytes in all |
| Mpq.NextBoundSplits | MPQ/MPQ.py:65-70 | bounded by the next pointer, the files join to exactly "ABC" |
| YukesPac.Records | Yukes/Package/PAC/PAC.py:30-34 | `n` consecutive 8-byte records give `n` entries |
| YukesPac.RecordsSplit | Yukes/Package/PAC/PAC.py:30-34 | records of `a + b` are those of `a` followed by those of `b` |
| YukesPac.SearchComplete | Yukes/Package/PAC/PAC.py:29-34 | with room for `n` records, `Search` appends exactly those records and moves `8n` bytes |
| YukesPac.SearchShort | Yukes/Package/PAC/PAC.py:29-34 | without room, it appends the whole records there are and raises `struct.error` |
| YukesPac.SearchTwice | Yukes/Package/PAC/PAC.py:12-34 | a second call appends the next `n` records, not a copy |
| YukesPac.AllFilled | Yukes/Package/PAC/PAC.py:38-40 | every entry is given data, and the entry count is unchanged |
| YukesPac.AllFilledAt | Yukes/Package/PAC/PAC.py:38-40 | each entry keeps its fields and gets the `Size` bytes at `RVA` |
| YukesPac.CData.SetAdr | Yukes/Package/PAC/PAC.py:21-27 | a wrong magic returns with `ECount` untouched; otherwise `ECount` is the next word and `Data_TBL = ECount*8 + 8` |
| YukesPac.CData.Search | Yukes/Package/PAC/PAC.py:29-34 | without `ECount` it raises `TypeError`; otherwise it reaches the search specification |
| YukesPac.CData.GetData | Yukes/Package/PAC/PAC.py:36-42 | without `Data_TBL` it raises `TypeError`; otherwise every entry is filled and the seek to `Data_TBL` matters only when there are no entries |
| FolderStructure.BuildFolderStructure | Main_Window.py:132-193 | the loop returns the folders and the error of the specification |
| FolderStructure.FolderFiles | Main_Window.py:157-177 | one directory's file loop reaches the specification's state |
| FolderStructure.FileScanOk | Main_Window.py:164-177 | a directory passes iff every file is below 2^24 and the running total stays within 80 MiB; its files are the padded names with their data |
| FolderStructure.DirScanOk | Main_Window.py:143-181 | the walk passes iff every file is small and the total within 80 MiB; it keeps exactly the non-empty directories |
| FolderStructure.BuildOk | Main_Window.py:139-189 | no error iff all files are small, the total is within 80 MiB and `Σ(files+1) <= 65535`; then the result is the expected folder list |
| FolderStructure.ExpectedShape | Main_Window.py:152-181 | every folder has a 4-character name and at least one file, and every file name has 4 characters |
| FolderStructure.PaddedNames | Main_Window.py:152-159 | names are cut to four characters and padded with NUL |
| FolderStructure.RootName | Main_Window.py:148-149 | the root directory uses its base name |
| FolderStructure.FileScanSticks | Main_Window.py:169-175 | once a file raised, later files change nothing |
| FolderStructure.DirScanSticks | Main_Window.py:191-193 | once a directory raised, later directories change nothing |
| PacUtilities.Replaced | Utilities/PACUtilities.py:11 | the substitution keeps the length |
| PacUtilities.SanitizeSpec | Utilities/PACUtilities.py:6-12 | the result has none of `<>:"/\|?*`, no edge whitespace, is no longer than the input, and is a run of the substituted input cut only by whitespace |
| PacUtilities.SanitizedClean | Utilities/PACUtilities.py:11 | a sanitised name has nothing left to substitute |
| PacUtilities.SanitizeIdempotent | Utilities/PACUtilities.py:6-12 | sanitising twice is sanitising once |
| PacUtilities.MassExtract | Utilities/PACUtilities.py:15-57 | the writes, in order, are those of the specification |
| PacUtilities.ExtractFolder | Utilities/PACUtilities.py:25-54 | the writes for one folder, in order, are those of the specification |
| PacUtilities.FolderWritesSpec | Utilities/PACUtilities.py:29-50 | every file is skipped or written, never both; each write has a non-empty name without edge whitespace under the sanitised folder |
| PacUtilities.StripEdges | Utilities/PACUtilities.py:30 | a stripped name starts and ends on a non-space character |
| GuiClassify.GetFileType | GUI/GUI.py:36-44 | "PAC" iff at least 4 bytes starting 'PAC ', "DPAC" iff starting 'DPAC', else "RAW" |
| GuiClassify.IsPacFile | GUI/GUI.py:46-52 | true iff at least 8 bytes, magic 'PAC ' and the LE u32 at 4 in (0, 100000] |
| GuiClassify.FileTypePrefix | GUI/GUI.py:39 | only the first four bytes decide the label |
| GuiClassify.PacTagIsYukesMagic | GUI/GUI.py:40 | the 'PAC ' label agrees with the magic word 0x20434150 that `CData.SetAdr` checks |
| GuiClassify.ShlAdd | GUI/GUI.py:81-83 | shifts compose, and only zero shifts to zero |
| GuiClassify.Shl11 | GUI/GUI.py:81 | `x << 11` is `x * 2048` |
| GuiClassify.Shl8 | GUI/GUI.py:83 | `x << 8` is `x * 256` |
| GuiClassify.EntryBaseResolves | GUI/GUI.py:81 | `(logic << 11) + 0x4000` equals `resolve_pointer(logic)` and lies on a sector of the data region |
| GuiClassify.EntryLengthResolves | GUI/GUI.py:83 | `size << 8` equals `resolve_file_size(size)` |

## Left out

- Output, printing, GUI widgets, dialogs, the Windows registry and shell integration: none of these affect the archive logic.
- File opening and closing are left out. Every reader takes the archive as a byte sequence, and a file that cannot be opened is outside the model. This includes `CData._dt` and the file objects of `mass_extract`.
- `os.walk` becomes a list of (relative path, files) pairs, each file holding its name and data. The root's base name is a parameter.
- `mass_extract` does not model directory creation or the file system. The model is the ordered list of writes, so a later write to the same path overwriting an earlier one is not represented. A per-file exception cannot happen in the model, because `Read` never fails.
- `format_size` (Utilities/PACUtilities.py, GUI/GUI.py) and `human_size` are left out, because they use floating point or `Decimal` rounding.
- `validate_folder_structure` and `_finalize_toc` of DPAC/DPAC.py are left out, because nothing calls them.
- The EPAC, DPK8, HSPC, PAC, PACH and SHDC loaders of PACTool.py only print. They are modelled as loading no folders.
- PacToolLoaders.MpqLoad: the MPQ loader of PACTool.py is modelled only by the error it raises.
- DpacWriter.CreateNewDpac: on an exception, the bytes already written are returned as they stand, and the file is not removed.
- Python dictionaries keep insertion order. `LogicFile` models them as Dafny maps, which have no order.
- Shifts and masks are written as multiplication, division and remainder on non-negative integers.
- `str.strip()` uses the whitespace set of `Bytes.IsSpace`. Unicode case or normalisation does not arise.
- PacUtilities.FolderWritesSpec: says nothing about the length of the data, which `Bytes.Read` states for every write.
- DpacWriter.CreatedPayloadReadable: holds only when the TOC ends 6 bytes or more before 0x4000, that is, for at most 1791 records. `create_new_dpac` does not check this; a longer TOC is overwritten by the first payloads, and a back-patch landing just past it can reach the data region.
- LogicFile: `memoryview.cast('H')` reads 16-bit values in the host's byte order. The model reads them little-endian, so it assumes a little-endian host.
- YukesPac.CData.GetData: entries are values, so the entry dictionaries shared between `FileEntries` and the returned list are not modelled as aliases.

## Findings

| source | as written | input that shows it | evidently intended | confidence | as-written member | corrected member |
|---|---|---|---|---|---|---|
| DPAC/DPAC.py:337-359 | after a folder's pointer update the stream stays in the TOC, at the folder's key plus 8, and the next folder's payload is written there | two folders "AAAA" and "BBBB" of one one-byte file each: file b's byte lands at 0x80E, in file a's size field, while b's pointer resolves to 0x4800 | seek back to `current_pointer` after the update, so every payload lands where its pointer resolves | not executed | DpacWriter.CreatedPayloadInToc | DpacWriter.CreatedPayloadReadable |
| MPQ/MPQ.py:67-70 | `i + 1 > len(file_pointers)` never holds inside the loop, so every file runs to the end of the data | pointers [0, 1] over "ABC": file 0 is "ABC", file 1 is "BC", 5 bytes for a 3-byte archive | `i + 1 < len(file_pointers)`: each file ends at the next pointer, the last at the end of the data | not executed | Mpq.AsWrittenOverlaps | Mpq.NextBoundSplits |
