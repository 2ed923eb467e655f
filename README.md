# Game audio bank tools, modelled in Dafny

This project models the format logic of four small Win32 tools that pack, unpack and
re-label game sound banks:

- **XSBTool** (`xsb_tool.dfy`) handles the Xbox XBB/XSB pair.
  - The `.xbb` holds a u32 size, a u32 entry count and a series of entries. Each entry is a
    WAV-style header followed by an 8-byte little-endian `(offset, length)` descriptor.
  - The `.xsb` holds the raw payloads back to back.
  - Extraction walks the entries. It patches each header's RIFF and `data` sizes and appends
    the payload.
  - Repack splits WAV files into header and payload, writes the entries and payloads, and
    stores the final size in bytes 0..3.
- **DSHTool** (`dsh_tool.dfy`) handles the GameCube DSH bank.
  - A DSH file is a 0x20-byte head holding a big-endian count, then 0x160-byte entries.
  - Each entry is a 256-byte NUL-padded file name followed by the first 0x60 bytes of a DSP
    file.
  - The model covers the builder, the lister and the queued file list (at most 1024 paths).
- **FloGui** is an editor for the event tables of a `.flo` file.
  - `flo_events.dfy` holds the tables, the link resolution and the orderings.
  - `flo_parse.dfy` reads the tables from the lines of the file.
  - `flo_editor.dfy` holds the editor state: load, sort, and the two "add" actions.
  - `flo_patch.dfy` is the in-place byte patch that inserts a row and rewrites the section's
    count.
- **WavRenameGladius** renames extracted WAVs after the EventMap names of a `.flo`.
  - `wav_flo.dfy` is its line-driven `.flo` state machine and name map.
  - `wav_rename.dfy` covers `join_ids`, stem parsing, sanitising and the collision-checked
    rename loop.

Three modules are shared:

- `bytes.dfy`: bytes, u32 and the LE/BE u32 codecs;
- `text.dfy`: `Trim`, `std::getline`, `std::stoi`, `_wtoi` and decimal formatting;
- `option.dfy`: `Option`.

Files are modelled as byte or line sequences. Directory listings, file opens and foreign
conversions are parameters. The loops that change state (the extraction and repack loops, the
DSH builder and lister, the `.flo` readers, the patch and the rename loop) are methods with
loop invariants, proved equal to recursive specification functions. The search loops that
only compute a value are modelled as recursive functions alone: FindSdfFilename,
FindSimpleEvent, FindComplex, LinkIds and the file-name collection of
GetSoundFilenamesForEventMap (FLO:205-291), and the three `std::replace` calls of the rename
(WavRename.Sanitize, WAV:542-544). The properties are lemmas about those functions.

Source paths below are relative to the repository root. The abbreviations used in this text
are:

- XSB: `XBOX-XSB_XBBTool/XSBTool/XSBTool.cpp`;
- DSH: `DSHTool/DSHTool/WindowsProject1.cpp`;
- FLO: `FloGui/FloGui.cpp`;
- WAV: `WavRenameGladius/WavRenameGladius/WavRenameGladius.cpp`.

## Model

| member | source | states |
|---|---|---|
| Bytes.Wrap32 | XBOX-XSB_XBBTool/XSBTool/XSBTool.cpp:98 | a u32 sum or difference is the exact value when it fits, otherwise it is off by exactly 2^32 |
| Bytes.Le32Digits | XBOX-XSB_XBBTool/XSBTool/XSBTool.cpp:76-78 | the four bytes stored for v on a little-endian machine read back as v |
| Bytes.Le32OfBytes | XBOX-XSB_XBBTool/XSBTool/XSBTool.cpp:76-78 | the little-endian encoding of v reads back as v |
| Bytes.Le32BytesOf | XBOX-XSB_XBBTool/XSBTool/XSBTool.cpp:82-85 | a little-endian u32 read is one-to-one: the four bytes are the encoding of the value they read as |
| Bytes.Le32At | XBOX-XSB_XBBTool/XSBTool/XSBTool.cpp:92-95 | reading a u32 where its encoding was stored gives the value back |
| Bytes.Le32Encode | XBOX-XSB_XBBTool/XSBTool/XSBTool.cpp:213-214 | fwrite of a u32 emits its little-endian encoding |
| Bytes.Get16Be | DSHTool/DSHTool/WindowsProject1.cpp:109 | the loop flag built from two bytes is below 2^16 |
| Bytes.Be32Digits | DSHTool/DSHTool/WindowsProject1.cpp:18-23 | the four bytes put32be stores for v, most significant first, read back through get32be as v |
| Bytes.Get32BeOfBytes | DSHTool/DSHTool/WindowsProject1.cpp:14-23 | get32be undoes put32be |
| Bytes.Be32BytesOf | DSHTool/DSHTool/WindowsProject1.cpp:14-17 | get32be is one-to-one on four bytes |
| Bytes.Get32BeAt | DSHTool/DSHTool/WindowsProject1.cpp:14-23 | get32be at a position where put32be stored v gives v |
| Bytes.Be32Encode | DSHTool/DSHTool/WindowsProject1.cpp:18-23 | the bytes put32be emits are the big-endian encoding |
| Bytes.Store4Fields | DSHTool/DSHTool/WindowsProject1.cpp:18-23 | a four-byte store sets exactly those four bytes and keeps every other byte |
| Bytes.Put32Be | DSHTool/DSHTool/WindowsProject1.cpp:18-23 | put32be on a buffer overwrites four bytes with the big-endian encoding, most significant first, and nothing else |
| Bytes.Put32Le | XBOX-XSB_XBBTool/XSBTool/XSBTool.cpp:98-100 | memcpy of a u32 into a buffer overwrites four bytes with its little-endian encoding and nothing else |
| Bytes.FlattenAt | XBOX-XSB_XBBTool/XSBTool/XSBTool.cpp:213-221 | in output written piece by piece, piece i starts where the pieces before it end |
| Bytes.FlattenUniform | DSHTool/DSHTool/WindowsProject1.cpp:192-260 | n pieces of w bytes each write out n * w bytes |
| Text.Trim | FloGui/FloGui.cpp:187-202 | the result is empty exactly when the input is all space, tab, CR and LF; otherwise it starts and ends with another character |
| Text.TrimCore | FloGui/FloGui.cpp:187-194 | the input is white space, then the result, then white space: Trim cuts white space and only white space at either end |
| Text.TrimOfPadded | WavRenameGladius/WavRenameGladius/WavRenameGladius.cpp:27-32 | padding a core that starts and ends non-blank with white space and trimming gives back the core |
| Text.TrimIdempotent | WavRenameGladius/WavRenameGladius/WavRenameGladius.cpp:35-40 | trimming twice is trimming once |
| Text.NatToDecimal | XBOX-XSB_XBBTool/XSBTool/XSBTool.cpp:104 | "%u" prints digits without a leading zero that read back as the number |
| Text.Stoi | FloGui/FloGui.cpp:892 | std::stoi gives an int, and throws exactly when no digit follows the optional sign or the value is outside int |
| Text.Wtoi | FloGui/FloGui.cpp:338 | _wtoi stays inside int, agrees with std::stoi where that succeeds, and gives 0 when there is no digit |
| Text.DecimalRoundTrip | FloGui/FloGui.cpp:921 | std::stoi and _wtoi of what "%d" / std::to_string prints give the number back |
| Text.StoiOfDigits | WavRenameGladius/WavRenameGladius/WavRenameGladius.cpp:518-530 | a digit string parses to its value when that fits an int and throws otherwise |
| Text.IndexOf | FloGui/FloGui.cpp:344 | the first position of the delimiter, or none when it does not occur |
| Text.Getline | FloGui/FloGui.cpp:344-346 | std::getline on a failed stream leaves the token alone, and a successful call consumes input or ends the stream |
| Text.GetlineSeriesOfJoined | FloGui/FloGui.cpp:398-401 | successive getline calls over fields joined by their delimiters return exactly the fields |
| Text.SplitJoined | WavRenameGladius/WavRenameGladius/WavRenameGladius.cpp:176-180 | the token loop over a delimiter-free field, the delimiter and a rest yields the field and then the tokens of the rest |
| Text.SplitSingle | WavRenameGladius/WavRenameGladius/WavRenameGladius.cpp:176-180 | a non-empty delimiter-free line is one token |
| Text.PaddedDecimal | FloGui/FloGui.cpp:338 | a decimal behind blanks reads back through Trim and _wtoi as its value |
| XsbTool.WalkInsideSpans | XBOX-XSB_XBBTool/XSBTool/XSBTool.cpp:80-122 | when the first k headers read as lengths h_0 .. h_(k-1), entry k starts at the first entry's offset plus the sum of (h_j + 8), and the remaining entries still lie inside both files |
| XsbTool.WalkSpans | XBOX-XSB_XBBTool/XSBTool/XSBTool.cpp:80-122 | the files after the first k are the walk started at that offset, with k fewer entries |
| XsbTool.TrackAfterSpans | XBOX-XSB_XBBTool/XSBTool/XSBTool.cpp:80-122 | output file k is the track at the offset after the first k headers and their 8-byte descriptors |
| XsbTool.PatchedHeaderFields | XBOX-XSB_XBBTool/XSBTool/XSBTool.cpp:97-101 | for a non-empty payload bytes 4..7 read as headerLen - 8 + dataLength (mod 2^32) and bytes 44..47 as dataLength, every other byte kept; an empty payload patches nothing |
| XsbTool.Payload | XBOX-XSB_XBBTool/XSBTool/XSBTool.cpp:111-119 | a track's payload has exactly the length its descriptor gives |
| XsbTool.TrackFileLayout | XBOX-XSB_XBBTool/XSBTool/XSBTool.cpp:82-119 | an output file is the entry's headerLen-byte header, patched as above, followed by the dataLength bytes of the .xsb from dataOffset |
| XsbTool.Walk | XBOX-XSB_XBBTool/XSBTool/XSBTool.cpp:80-123 | walking n entries gives n output files |
| XsbTool.ExtractSpec | XBOX-XSB_XBBTool/XSBTool/XSBTool.cpp:75-123 | an extraction writes one file per entry the count in bytes 4..7 announces |
| XsbTool.PatchHeaderInPlace | XBOX-XSB_XBBTool/XSBTool/XSBTool.cpp:97-101 | the memcpy patch of the copied header buffer gives the patched header |
| XsbTool.ExtractEntry | XBOX-XSB_XBBTool/XSBTool/XSBTool.cpp:81-119 | one entry read, patched and joined with its payload gives that entry's output file |
| XsbTool.ExtractStep | XBOX-XSB_XBBTool/XSBTool/XSBTool.cpp:80-122 | one loop pass appends the current entry's file and moves to the next entry without changing what the whole walk produces |
| XsbTool.Extract | XBOX-XSB_XBBTool/XSBTool/XSBTool.cpp:63-128 | DoExtract writes exactly the walk's files, in entry order, starting at offset 8 |
| XsbTool.TrackFileName | XBOX-XSB_XBBTool/XSBTool/XSBTool.cpp:104 | output file i is named "track_", then max(3, number of decimal digits of i) digits whose value is i, then ".wav" |
| XsbTool.TrackStem | XBOX-XSB_XBBTool/XSBTool/XSBTool.cpp:104 | the stem is "track_", then max(0, 3 - number of digits of i) zeros, then the decimal digits of i |
| XsbTool.TrackFileNamesDistinct | XBOX-XSB_XBBTool/XSBTool/XSBTool.cpp:104 | different indices give different file names, so no output file overwrites another |
| XsbTool.PaddedStem | XBOX-XSB_XBBTool/XSBTool/XSBTool.cpp:104 | "track_" and a digit string padded with zeros to three digits has max(3, digits) digits of the same value |
| XsbTool.DigitsValueZeroPadded | XBOX-XSB_XBBTool/XSBTool/XSBTool.cpp:104 | the zero padding of "%03u" does not change the value the digits read as |
| XsbTool.WavFiles | XBOX-XSB_XBBTool/XSBTool/XSBTool.cpp:147-161 | repack packs every listed match that is not a directory |
| XsbTool.Split | XBOX-XSB_XBBTool/XSBTool/XSBTool.cpp:187-205 | a WAV splits into a header of (chunkSize + 8) - dataLength bytes and the dataLength bytes right after it |
| XsbTool.XsbSize | XBOX-XSB_XBBTool/XSBTool/XSBTool.cpp:178-221 | the .xsb is as long as all payloads together, and the first i payloads take the sum of their lengths |
| XsbTool.EntriesSize | XBOX-XSB_XBBTool/XSBTool/XSBTool.cpp:207-215 | the entry area is as long as the headers plus 8 bytes per entry |
| XsbTool.EntryLayout | XBOX-XSB_XBBTool/XSBTool/XSBTool.cpp:207-215 | entry i is its header immediately followed by the u32 offset (the sum of the previous payload lengths) and the u32 payload length |
| XsbTool.EntryBytes | XBOX-XSB_XBBTool/XSBTool/XSBTool.cpp:207-215 | entry i starts after the headers and descriptors of the entries before it |
| XsbTool.PayloadLayout | XBOX-XSB_XBBTool/XSBTool/XSBTool.cpp:213-221 | payload i sits in the .xsb at the offset its descriptor gives, the sum of the lengths before it |
| XsbTool.XbbFile | XBOX-XSB_XBBTool/XSBTool/XSBTool.cpp:173-229 | the repacked .xbb is 8 bytes plus every header and descriptor long |
| XsbTool.XbbFileHeader | XBOX-XSB_XBBTool/XSBTool/XSBTool.cpp:173-229 | bytes 0..3 of the repacked .xbb hold its size 8 + sum(headerLen + 8), and bytes 4..7 the number of entries |
| XsbTool.AppendEntry | XBOX-XSB_XBBTool/XSBTool/XSBTool.cpp:180-224 | one repack pass appends entry i and payload i and advances entryStart and currentOffset to the new output lengths |
| XsbTool.Repack | XBOX-XSB_XBBTool/XSBTool/XSBTool.cpp:131-234 | DoRepack's outputs are the .xbb and .xsb the layout lemmas above describe |
| XsbTool.StoreFinalSize | XBOX-XSB_XBBTool/XSBTool/XSBTool.cpp:226-229 | the seek back to offset 0 replaces the placeholder with the final size and leaves the rest |
| XsbTool.RepackFolder | XBOX-XSB_XBBTool/XSBTool/XSBTool.cpp:147-175 | no output without a single match; otherwise the repack of the matches that are not directories, in enumeration order |
| XsbTool.RepackedLengthField | XBOX-XSB_XBBTool/XSBTool/XSBTool.cpp:188-210 | in a repacked .xbb the length field extraction reads for the first entry holds the WAV's RIFF size, not its header length |
| DshTool.NameStart | DSHTool/DSHTool/WindowsProject1.cpp:196-201 | the file name starts right after the last backslash, or at 0 when there is none; no backslash follows |
| DshTool.FileNameOnly | DSHTool/DSHTool/WindowsProject1.cpp:138-144 | the name shown and stored holds no backslash |
| DshTool.CStr | DSHTool/DSHTool/WindowsProject1.cpp:92-97 | the name read is the prefix before the first NUL, or all bytes when there is none |
| DshTool.NameBytes | DSHTool/DSHTool/WindowsProject1.cpp:204-221 | the stored name is NUL-free and below 256 bytes, and empty when the conversion fails |
| DshTool.NameRegion | DSHTool/DSHTool/WindowsProject1.cpp:193-221 | the name region is 256 bytes |
| DshTool.NameRegionRoundTrip | DSHTool/DSHTool/WindowsProject1.cpp:195-221 | the region holds the name and zeros after it, and reading it back up to the first NUL gives the name |
| DshTool.CStrOfTerminated | DSHTool/DSHTool/WindowsProject1.cpp:92-97 | a NUL-free name followed by a NUL reads back as itself |
| DshTool.HeaderRegion | DSHTool/DSHTool/WindowsProject1.cpp:233-259 | the header region is 0x60 bytes |
| DshTool.EntryBytes | DSHTool/DSHTool/WindowsProject1.cpp:192-260 | every entry written is 0x160 bytes |
| DshTool.AllEntries | DSHTool/DSHTool/WindowsProject1.cpp:192-261 | one entry per queued path |
| DshTool.DshImageLayout | DSHTool/DSHTool/WindowsProject1.cpp:180-260 | a DSH image is 0x20 + n * 0x160 bytes: the count big-endian in bytes 0..3, 28 zero bytes, and entry k at 0x20 + k * 0x160 |
| DshTool.DshFileLayout | DSHTool/DSHTool/WindowsProject1.cpp:180-260 | the repacked file holds the path count big-endian, 28 zeros, and the entry built for path k at 0x20 + k * 0x160 |
| DshTool.BuildEntry | DSHTool/DSHTool/WindowsProject1.cpp:193-259 | memset, the name memcpy and the header fread give the name region followed by the header region, and the warning flag is set exactly when the name or the header is missing |
| DshTool.EntryOfCopies | DSHTool/DSHTool/WindowsProject1.cpp:193-248 | copying the name and, when read, the header into a zeroed buffer gives the name region followed by the header region |
| DshTool.CopyInto | DSHTool/DSHTool/WindowsProject1.cpp:219 | memcpy overwrites the copied range and nothing else |
| DshTool.WriteEntries | DSHTool/DSHTool/WindowsProject1.cpp:191-261 | the loop writes the entries of all queued paths in order and reports success exactly when every entry was complete |
| DshTool.ParseEntry | DSHTool/DSHTool/WindowsProject1.cpp:92-111 | the name read from an entry fits its 256-byte region |
| DshTool.ListingSpec | DSHTool/DSHTool/WindowsProject1.cpp:73-114 | the listing's count is the big-endian u32 at 0; it lists min(count, whole entries present) entries and is complete exactly when all counted entries are present |
| DshTool.EntriesFromSnoc | DSHTool/DSHTool/WindowsProject1.cpp:87-114 | reading one more entry appends the entry at 0x20 + n * 0x160 |
| DshTool.ExtractDsh | DSHTool/DSHTool/WindowsProject1.cpp:43-119 | ExtractDsh lists the entries of the listing above, stopping at the first one it cannot read whole |
| DshTool.DspList.constructor | DSHTool/DSHTool/WindowsProject1.cpp:31-34 | the list starts empty |
| DshTool.DspList.AddFileToList | DSHTool/DSHTool/WindowsProject1.cpp:131-159 | a path is queued, and its file name shown, exactly when fewer than 1024 are queued and the list view accepts it; otherwise nothing changes |
| DshTool.DspList.ClearDspList | DSHTool/DSHTool/WindowsProject1.cpp:121-129 | the list and the view become empty |
| DshTool.DspList.RepackDshFromList | DSHTool/DSHTool/WindowsProject1.cpp:161-274 | with no queued path or no output file nothing is written and the list is kept; otherwise the DSH of the queued paths is written with the all-successful flag and the list is cleared |
| DshTool.ExtractOfRepack | DSHTool/DSHTool/WindowsProject1.cpp:176-261 | listing a repacked DSH gives its count, is complete, and lists each queued file with the name and header fields it was written from |
| DshTool.ListingOfImage | DSHTool/DSHTool/WindowsProject1.cpp:87-114 | listing an image of whole entries finds every entry, in order |
| DshTool.EntryFields | DSHTool/DSHTool/WindowsProject1.cpp:92-111 | parsing the entry built for a path gives its name and the header fields of its DSP file |
| DshTool.ParseOfRegions | DSHTool/DSHTool/WindowsProject1.cpp:92-111 | an entry parses to the name before the first NUL, the BE u32s at +0, +4, +8, the BE u16 at +12 and the BE u32s at +16, +20 of its header |
| FloEvents.LinkTypeOf | FloGui/FloGui.cpp:524-529 | link values 0, 1, 2 map to Simple, Random, Compound and every other value to Unknown |
| FloEvents.LinkTypeRoundTrip | FloGui/FloGui.cpp:737-742 | every known link type is read back from its own value |
| FloEvents.FirstWithId | FloGui/FloGui.cpp:205-222 | the index found holds the id and no earlier element does; none means no element holds it |
| FloEvents.FindSdfFilename | FloGui/FloGui.cpp:205-212 | the file name of the first sound data file with the id, or empty when none has it |
| FloEvents.FindSimpleEvent | FloGui/FloGui.cpp:215-222 | the first simple event with the id, or null exactly when none has it |
| FloEvents.FindComplex | FloGui/FloGui.cpp:237-262 | the first random or compound event with the id, or none exactly when none has it |
| FloEvents.LinkIds | FloGui/FloGui.cpp:243-245 | the simple event ids of the links, in order |
| FloEvents.CollectedIdsOfComplex | FloGui/FloGui.cpp:237-262 | a Random or Compound link collects exactly the link ids of the first such event with the linked id, and nothing when there is none |
| FloEvents.FilenameForId | FloGui/FloGui.cpp:278-291 | the text shown for a collected id is never empty |
| FloEvents.SoundFilenamesShape | FloGui/FloGui.cpp:227-298 | the file name list is never empty; Unknown gives exactly "N/A (Unknown Link Type)"; otherwise there is one entry per collected id, in order |
| FloEvents.SimpleLinkFilename | FloGui/FloGui.cpp:231-291 | a Simple link whose event and file resolve shows exactly that file name |
| FloEvents.LoadLessIsKeyOrder | FloGui/FloGui.cpp:551-555 | on Pre and Pos entries the load comparator is the lexicographic order of (section, event id) |
| FloEvents.InsertBy | FloGui/FloGui.cpp:551-555 | an insertion adds the element and keeps every other one |
| FloEvents.SortBy | FloGui/FloGui.cpp:551-555 | sorting permutes the list |
| FloEvents.InsertMembers | FloGui/FloGui.cpp:551-555 | the elements after an insertion are the new one and the old ones |
| FloEvents.AllPreOrPosOfPerm | FloGui/FloGui.cpp:551-606 | a rearrangement of Pre and Pos entries holds only Pre and Pos entries |
| FloEvents.InsertBySorted | FloGui/FloGui.cpp:551-606 | inserting into a list sorted under a strict order on Pre and Pos entries keeps it sorted |
| FloEvents.SortBySorted | FloGui/FloGui.cpp:551-606 | sorting Pre and Pos entries under a strict order leaves no entry less than one before it |
| FloEvents.LoadLessStrict | FloGui/FloGui.cpp:551-555 | the load comparator is irreflexive and transitive on Pre and Pos entries |
| FloEvents.LoadSortSorted | FloGui/FloGui.cpp:551-555 | after the load sort no entry is less than one before it, and all are still Pre or Pos |
| FloEvents.LoadSortOrder | FloGui/FloGui.cpp:551-555 | the load sort permutes the entries, puts every Pre before every Pos, and orders each section by event id |
| FloEvents.Compare | FloGui/FloGui.cpp:574-584 | the three-way comparison is negative, zero or positive as x is below, equal to or above y |
| FloEvents.StringCompare | FloGui/FloGui.cpp:596 | std::wstring::compare is zero exactly for equal strings |
| FloEvents.StringCompareLex | FloGui/FloGui.cpp:596 | the comparison is negative exactly when the first string is a proper prefix of the second or is smaller at the first position where they differ |
| FloEvents.LexBeforeTail | FloGui/FloGui.cpp:596 | behind a common first character the lexicographic order is that of the rests |
| FloEvents.StringCompareAntisym | FloGui/FloGui.cpp:596 | swapping the strings flips the sign of the comparison |
| FloEvents.PreBeforePos | FloGui/FloGui.cpp:566-571 | for every column but Section and either direction, the comparator puts Pre before Pos and never Pos before Pre |
| FloEvents.ParseEventMapLine | FloGui/FloGui.cpp:514-529 | an EventMap row takes the sub-section it is read in, the link type its value maps to, no file names and the not-new mark |
| FloEvents.DecimalField | FloGui/FloGui.cpp:1018 | a decimal behind blanks is a field that reads as its value |
| FloEvents.ParseSimpleEventOfFields | FloGui/FloGui.cpp:396-401 | four comma-joined fields that read as values parse to the simple event of those values |
| FloEvents.SimpleEventLineRoundTrip | FloGui/FloGui.cpp:1015-1020 | a serialised simple event line ends in CRLF, and reading it back gives the same four values |
| FloParse.Max0 | FloGui/FloGui.cpp:365 | a negative count becomes 0 and any other is kept |
| FloParse.FindLine | FloGui/FloGui.cpp:331-333 | the first line at or after the start that trims to the name, or none when no line does |
| FloParse.FindSection | FloGui/FloGui.cpp:356-359 | the header search loop finds that line |
| FloParse.RowCount | FloGui/FloGui.cpp:366-368 | a counted loop reads the clamped count, but never past the last line |
| FloParse.RowsShape | FloGui/FloGui.cpp:366-376 | row k of a table is line start + k read as a row, for as many rows as the count asks and the file holds |
| FloParse.ReadRows | FloGui/FloGui.cpp:366-376 | the row loop with its break at the end of the file reads those rows |
| FloParse.CountedSection | FloGui/FloGui.cpp:356-380 | a missing header or a missing or blank count line gives no rows and count 0; otherwise the count is the clamped _wtoi of the trimmed count line and the rows follow it |
| FloParse.ReadCountedSection | FloGui/FloGui.cpp:356-380 | reading a counted table gives that section |
| FloParse.ComplexFrom | FloGui/FloGui.cpp:438-449 | no more events are read than the count asks for |
| FloParse.ComplexFromShape | FloGui/FloGui.cpp:411-449 | each event is its header's id with the link rows right below it, and the next event starts after its last link row |
| FloParse.ComplexSection | FloGui/FloGui.cpp:429-450 | no header or no count line gives nothing; otherwise the clamped count and the events read from two lines below the header |
| FloParse.ReadComplexEvents | FloGui/FloGui.cpp:438-449 | the event loop reads those events |
| FloParse.ReadComplexSection | FloGui/FloGui.cpp:453-474 | reading a RandomEvents or CompoundEvents table gives that section |
| FloParse.EventMapRows | FloGui/FloGui.cpp:511-531 | at most the clamped count of rows, each tagged with its sub-section, its mapped link type, no file names, not new |
| FloParse.SubSection | FloGui/FloGui.cpp:486-535 | the count is clamped at 0 and read from the line after the first matching header below EventMaps; only Pre and Pos yield entries |
| FloParse.ReadSubSection | FloGui/FloGui.cpp:486-535 | reading one EventMaps sub-section gives that result |
| FloParse.WithFilenames | FloGui/FloGui.cpp:544-547 | each entry gets the file names its link resolves to and is otherwise unchanged |
| FloParse.ResolveFilenames | FloGui/FloGui.cpp:544-547 | the loop fills in those file names |
| FloPatch.SearchFrom | FloGui/FloGui.cpp:858 | a position std::search finds lies inside the data |
| FloPatch.SearchFromSpec | FloGui/FloGui.cpp:858 | std::search finds the first occurrence at or after the start, and none means there is none |
| FloPatch.NthMarkerSpec | FloGui/FloGui.cpp:852-867 | FindNthMarker gives the start of an occurrence with exactly n - 1 occurrences (overlaps included) before it, and npos exactly when the marker is empty, n < 1 or there are fewer than n occurrences |
| FloPatch.FindNthMarker | FloGui/FloGui.cpp:852-867 | the search loop gives that position |
| FloPatch.NthMarkerPrefix | FloGui/FloGui.cpp:948 | changes after the n-th occurrence do not move it |
| FloPatch.NextCrlfIsSearch | FloGui/FloGui.cpp:881 | the CRLF scan is std::search for "\r\n" |
| FloPatch.FirstNotBlank | FloGui/FloGui.cpp:923 | find_first_not_of(" \t") gives the first non-blank position, npos meaning all blank |
| FloPatch.LeadingPad | FloGui/FloGui.cpp:923-930 | the kept padding is a blank prefix of the count line |
| FloPatch.LeadingPadSpec | FloGui/FloGui.cpp:923-930 | the padding is the whole blank run before the count, or one character of a non-empty all-blank line |
| FloPatch.Inc32 | FloGui/FloGui.cpp:920 | the incremented count stays an int; it is count + 1 below INT_MAX and wraps to INT_MIN at INT_MAX, so it always equals count + 1 modulo 2^32 |
| FloPatch.CountField | FloGui/FloGui.cpp:921-944 | the rewritten count field has the width of the old one |
| FloPatch.CountFieldReadsBack | FloGui/FloGui.cpp:921-944 | when padding and digits fit the old width the new field reads back as the new count, otherwise it is their truncation |
| FloPatch.EnsureCrlf | FloGui/FloGui.cpp:903-910 | a non-empty buffer without a final CRLF gets one, and nothing else changes |
| FloPatch.InsertionPoint | FloGui/FloGui.cpp:899-915 | the insertion point lies inside the data, which is kept or made to end with CRLF |
| FloPatch.RowsEndEnough | FloGui/FloGui.cpp:899-915 | with k more CRLFs after the count line, the new row goes right after the k-th |
| FloPatch.RowsEndShort | FloGui/FloGui.cpp:899-915 | with fewer CRLFs the walk runs off the end |
| FloPatch.InsertionPointSpec | FloGui/FloGui.cpp:899-915 | the new row goes after count further CRLF-ended rows, or at the end of the data made to end with CRLF |
| FloPatch.LocateCount | FloGui/FloGui.cpp:876-885 | the count line found ends at a CRLF |
| FloPatch.AnnouncedCount | FloGui/FloGui.cpp:886-897 | a blank count line announces 0, a negative count becomes 0, and the patch fails exactly when std::stoi rejects the trimmed line |
| FloPatch.PatchInsertFails | FloGui/FloGui.cpp:876-897 | the patch fails exactly when the marker is not found n times, the count line has no CRLF, or the count is not numeric |
| FloPatch.PatchAtLayout | FloGui/FloGui.cpp:917-970 | a successful patch is the data up to the count, the rewritten count field, the rows, the new line, and the rest |
| FloPatch.PatchInsertKeepsMarker | FloGui/FloGui.cpp:946-952 | after the insertion the marker and the count line are found again where they were |
| FloPatch.PatchInsertNoMarker | FloGui/FloGui.cpp:876-877 | a missing n-th marker fails the patch |
| FloPatch.PatchInsertNoLineEnd | FloGui/FloGui.cpp:880-882 | a count line without CRLF fails the patch |
| FloPatch.PatchInsertBadCount | FloGui/FloGui.cpp:886-895 | a count std::stoi rejects fails the patch |
| FloPatch.PatchInsertAt | FloGui/FloGui.cpp:870-976 | with a found count line and a count, the patch succeeds with the layout above |
| FloPatch.WalkRows | FloGui/FloGui.cpp:899-915 | the row loop reaches the insertion point |
| FloPatch.InsertAndRecount | FloGui/FloGui.cpp:917-970 | inserting the row and rewriting the count gives that patch |
| FloPatch.PatchInsertLineInSection | FloGui/FloGui.cpp:870-977 | it reports success exactly when the patch applies, the data is patched on success, and it is left alone on failure |
| FloEditor.ReadTables | FloGui/FloGui.cpp:329-474 | the bundles, tables and clamped counts are those of the counted and complex sections of the lines |
| FloEditor.ReadEventMaps | FloGui/FloGui.cpp:486-555 | the Pre, Pan and Pos counts, and the Pre and Pos entries with their file names in load order |
| FloEditor.ReadFlo | FloGui/FloGui.cpp:305-558 | the load result holds only Pre and Pos entries, with Pre before Pos |
| FloEditor.LoadShape | FloGui/FloGui.cpp:305-558 | loading succeeds exactly when a line trims to "EventMaps"; counts are never negative, tables hold at most their counts, totals equal the loaded counts, no entries without success, Pre before Pos |
| FloEditor.LoadedEventsOrdered | FloGui/FloGui.cpp:544-555 | the loaded list permutes the Pre and Pos rows with their file names, Pre before Pos, each section in event id order |
| FloEditor.LoadSortPrePos | FloGui/FloGui.cpp:551-555 | the load sort permutes, puts Pre before Pos, and orders each section by event id |
| FloEditor.InsertKeepsPrePos | FloGui/FloGui.cpp:565-571 | inserting with a comparator that ranks sections keeps Pre before Pos |
| FloEditor.SortRanksSections | FloGui/FloGui.cpp:565-571 | sorting with such a comparator puts every Pre before every Pos, whatever the order before |
| FloEditor.ColumnCompareLaws | FloGui/FloGui.cpp:573-601 | on Pre and Pos entries each column's comparison flips sign with its arguments and is transitive below and above zero (columns 3 and 4 given a consistent _wcsicmp) |
| FloEditor.ColumnLessStrict | FloGui/FloGui.cpp:565-603 | the SortEvents comparator of each column is irreflexive and transitive on Pre and Pos entries, in either direction |
| FloEditor.ColumnSortOrder | FloGui/FloGui.cpp:562-604 | sorting by a column permutes the list; on any column but Section Pre comes before Pos; on Section Pos comes first ascending and last descending; within a section the column's comparison rises ascending and falls descending |
| FloEditor.SortedEventsKeepsSections | FloGui/FloGui.cpp:562-606 | SortEvents by a column other than Section permutes the list and keeps Pre before Pos; with no column it changes nothing |
| FloEditor.Clip | FloGui/FloGui.cpp:726-729 | GetWindowTextW keeps a prefix of at most size - 1 characters, all of a shorter text |
| FloEditor.FirstPos | FloGui/FloGui.cpp:748-750 | find_if gives the first Pos entry, or the end when there is none |
| FloEditor.InsertIndex | FloGui/FloGui.cpp:746-756 | the insertion position is inside the list |
| FloEditor.InsertEventMembers | FloGui/FloGui.cpp:756 | AddEvent's insertion adds the one entry and keeps every other |
| FloEditor.InsertEventPlace | FloGui/FloGui.cpp:746-756 | a Pre entry goes after every Pre and before every Pos entry, any other at the end; the others keep their order and Pre stays before Pos |
| FloEditor.AddedEventCounts | FloGui/FloGui.cpp:751-760 | the loaded count of the entry's section grows by one, both totals become the loaded counts, the other counters are kept |
| FloEditor.AddCheck | FloGui/FloGui.cpp:790-805 | AddSoundAndSimpleEvent rejects an empty type or file name, then an existing sound data file id, then an existing simple event id, and adds otherwise |
| FloEditor.RefreshedKeeps | FloGui/FloGui.cpp:813-829 | the refresh changes file names only, and only of invalid entries or direct links to the new event, so sections and order are kept |
| FloEditor.RefreshedDirectLink | FloGui/FloGui.cpp:813-829 | after a successful addition, an entry that links directly to the new simple event shows the new file name |
| FloEditor.Editor.constructor | FloGui/FloGui.cpp:157-183 | the editor starts with empty tables, zero counts and no sort column |
| FloEditor.Editor.ParseFloFile | FloGui/FloGui.cpp:305-558 | the state becomes the load result and the sort settings are kept |
| FloEditor.Editor.ResetSort | FloGui/FloGui.cpp:687-688 | after a load the sort column is cleared and the list stays in load order |
| FloEditor.Editor.SortEvents | FloGui/FloGui.cpp:562-606 | the list is sorted by the selected column, or left alone without one, and the tables are kept |
| FloEditor.Editor.ClickColumn | FloGui/FloGui.cpp:1494-1504 | clicking the sorted column flips the direction, another column sorts ascending by it |
| FloEditor.Editor.AddEvent | FloGui/FloGui.cpp:721-770 | the entry built from the fields is inserted in its section's place and the list re-sorted; counts as in AddedEventCounts |
| FloEditor.Editor.InsertEntry | FloGui/FloGui.cpp:746-763 | inserting an entry updates the list and the counts, tables unchanged |
| FloEditor.Editor.AddSoundAndSimpleEvent | FloGui/FloGui.cpp:773-848 | the checked pair is appended to both tables with the simple count raised and the list refreshed; a rejected pair changes nothing |
| FloEditor.Editor.AddPair | FloGui/FloGui.cpp:790-829 | the same for a pair already built |
| FloEditor.RefreshEvents | FloGui/FloGui.cpp:813-829 | the refresh loop gives the refreshed list and keeps Pre before Pos |
| WavFlo.TrimAll | WavRenameGladius/WavRenameGladius/WavRenameGladius.cpp:178-180 | one trimmed token per token |
| WavFlo.TrimAllAt | WavRenameGladius/WavRenameGladius/WavRenameGladius.cpp:178-180 | token k is trimmed |
| WavFlo.Tokenize | WavRenameGladius/WavRenameGladius/WavRenameGladius.cpp:175-180 | the getline token loop gives the trimmed comma fields |
| WavFlo.TypeChar | WavRenameGladius/WavRenameGladius/WavRenameGladius.cpp:186 | the type is the first character of the field, or ' ' when it is empty |
| WavFlo.AfterStar | WavRenameGladius/WavRenameGladius/WavRenameGladius.cpp:247-252 | the name drops everything up to and including the first '*', and is kept whole without one |
| WavFlo.ParseEachValues | WavRenameGladius/WavRenameGladius/WavRenameGladius.cpp:183-195 | the first n fields parse exactly when each of them parses, and value k is field k's own value |
| WavFlo.NumbersValues | WavRenameGladius/WavRenameGladius/WavRenameGladius.cpp:183-195 | the stoi calls on the first n fields succeed exactly when each succeeds alone, and number k is stoi of field k |
| WavFlo.LinkLines | WavRenameGladius/WavRenameGladius/WavRenameGladius.cpp:205-216 | one link reading per line |
| WavFlo.ReadLinks | WavRenameGladius/WavRenameGladius/WavRenameGladius.cpp:205-237 | the link loop consumes at most the announced rows, keeps what it read before, and stops short only at the end of the file |
| WavFlo.ReadLinkRow | WavRenameGladius/WavRenameGladius/WavRenameGladius.cpp:206-211 | one link row is read and trimmed |
| WavFlo.ReadLinkRows | WavRenameGladius/WavRenameGladius/WavRenameGladius.cpp:205-217 | the inner link loop reads those links |
| WavFlo.LinkedRow | WavRenameGladius/WavRenameGladius/WavRenameGladius.cpp:199-238 | a random or compound row consumes lines forward only |
| WavFlo.EntryRow | WavRenameGladius/WavRenameGladius/WavRenameGladius.cpp:174-263 | an entry row consumes lines forward only |
| WavFlo.HeaderStep | WavRenameGladius/WavRenameGladius/WavRenameGladius.cpp:265-310 | a header step moves forward |
| WavFlo.Step | WavRenameGladius/WavRenameGladius/WavRenameGladius.cpp:170-312 | each loop pass moves forward, so the reading loop ends |
| WavFlo.ReadEntry | WavRenameGladius/WavRenameGladius/WavRenameGladius.cpp:174-263 | the body for an entry row has that row's effect |
| WavFlo.ReadStep | WavRenameGladius/WavRenameGladius/WavRenameGladius.cpp:170-311 | one pass of the loop body is that step |
| WavFlo.ReadLines | WavRenameGladius/WavRenameGladius/WavRenameGladius.cpp:170-312 | the reading loop fills the tables the state machine describes |
| WavFlo.BuildNames | WavRenameGladius/WavRenameGladius/WavRenameGladius.cpp:316-371 | the post-parse loop builds the name map |
| WavFlo.ParseFlo | WavRenameGladius/WavRenameGladius/WavRenameGladius.cpp:139-373 | an unopenable file fails with empty tables; otherwise the parsed tables and their name map |
| WavFlo.ClassifyNames | WavRenameGladius/WavRenameGladius/WavRenameGladius.cpp:266-269 | every header name is recognised as that header |
| WavFlo.ClassifyOnlyNames | WavRenameGladius/WavRenameGladius/WavRenameGladius.cpp:266-269 | a line counts as a header only when it is exactly that header's name |
| WavFlo.ParseKeeps | WavRenameGladius/WavRenameGladius/WavRenameGladius.cpp:170-312 | reading keeps the tables well formed (keys equal ids, entries in Pre, Pan or Pos) and only adds to them |
| WavFlo.ParsedWellFormed | WavRenameGladius/WavRenameGladius/WavRenameGladius.cpp:139-312 | the parsed tables are well formed |
| WavFlo.EventMapEntryOrigin | WavRenameGladius/WavRenameGladius/WavRenameGladius.cpp:240-254 | an EventMap entry is added only while reading EventMaps rows in a sub-section, from a row of four fields, tagged with the sub-section, holding stoi of the first three fields as its id, sound data file id and type, and named after the first '*' |
| WavFlo.SectionRows | WavRenameGladius/WavRenameGladius/WavRenameGladius.cpp:170-263 | blank lines are skipped and do not count; the section is left once the announced count is read, its header forgotten unless it is EventMaps |
| WavFlo.ParseBlank | WavRenameGladius/WavRenameGladius/WavRenameGladius.cpp:171-172 | a blank line changes nothing |
| WavFlo.ParseRow | WavRenameGladius/WavRenameGladius/WavRenameGladius.cpp:174-263 | a non-blank row while entries are due has its effect and counts once |
| WavFlo.StraySubsection | WavRenameGladius/WavRenameGladius/WavRenameGladius.cpp:271-281 | Pre, Pan or Pos outside EventMaps resets section and sub-section and reads no count |
| WavFlo.StepIsHeader | WavRenameGladius/WavRenameGladius/WavRenameGladius.cpp:265-270 | with no entries due, a header line takes the header branch |
| WavFlo.HeaderCount | WavRenameGladius/WavRenameGladius/WavRenameGladius.cpp:283-300 | a header and its count set the section and the entries due; a zero count forgets the section except for EventMaps' Pan and Pos |
| WavFlo.HeaderBadCount | WavRenameGladius/WavRenameGladius/WavRenameGladius.cpp:301-305 | a count line std::stoi rejects forgets the section |
| WavFlo.ResolveIsFirstSimple | WavRenameGladius/WavRenameGladius/WavRenameGladius.cpp:316-351 | a reference resolves as a simple event, else through the first choice of a random event, else the first component of a compound event, else not at all |
| WavFlo.NamesLastWins | WavRenameGladius/WavRenameGladius/WavRenameGladius.cpp:354-364 | the name map holds an id exactly when some entry resolves to it, with the name of the last such entry |
| WavRename.JoinIds | WavRenameGladius/WavRenameGladius/WavRenameGladius.cpp:87-94 | the joined text is empty exactly for no ids |
| WavRename.JoinIdsSnoc | WavRenameGladius/WavRenameGladius/WavRenameGladius.cpp:89-92 | a further id is appended after ", ", the first without a separator |
| WavRename.JoinIdsText | WavRenameGladius/WavRenameGladius/WavRenameGladius.cpp:87-94 | the join_ids loop builds the joined text |
| WavRename.SplitJoinedIds | WavRenameGladius/WavRenameGladius/WavRenameGladius.cpp:87-94 | a joined list splits at its commas into pieces that trim to the ids' decimals |
| WavRename.JoinIdsRoundTrip | WavRenameGladius/WavRenameGladius/WavRenameGladius.cpp:87-94 | the joined list, split at commas and trimmed, reads back as the ids: ", " separators and no trailing one |
| WavRename.RefsNamed | WavRenameGladius/WavRenameGladius/WavRenameGladius.cpp:415-418 | at most one reference per entry |
| WavRename.RefsNamedCount | WavRenameGladius/WavRenameGladius/WavRenameGladius.cpp:415-424 | a name has references exactly when an entry carries it, and more than one exactly when two entries do |
| WavRename.NameLinkage | WavRenameGladius/WavRenameGladius/WavRenameGladius.cpp:415-418 | the linkage map holds each used name with the references of its entries, in order |
| WavRename.LastDot | WavRenameGladius/WavRenameGladius/WavRenameGladius.cpp:53 | the last '.' of the name, or none |
| WavRename.ExtensionStart | WavRenameGladius/WavRenameGladius/WavRenameGladius.cpp:53 | the extension starts inside the name |
| WavRename.LowerAscii | WavRenameGladius/WavRenameGladius/WavRenameGladius.cpp:54 | lowering keeps the length |
| WavRename.ExtensionShape | WavRenameGladius/WavRenameGladius/WavRenameGladius.cpp:52-56 | stem and extension make up the name, and the extension is empty or a dot with dot-free text |
| WavRename.IsWavNameIff | WavRenameGladius/WavRenameGladius/WavRenameGladius.cpp:507 | a file is taken for a WAV exactly when its extension is ".wav" in any letter case |
| WavRename.WavNameParts | WavRenameGladius/WavRenameGladius/WavRenameGladius.cpp:547 | a non-empty base with ".wav" has that stem and extension |
| WavRename.StemIndex | WavRenameGladius/WavRenameGladius/WavRenameGladius.cpp:509-536 | a stem index is never negative and fits an int |
| WavRename.StemIndexValue | WavRenameGladius/WavRenameGladius/WavRenameGladius.cpp:509-536 | the trimmed stem without "track_" gives an index exactly when it is non-empty, all digits and within int, and the index is its value |
| WavRename.StemIndexOfDecimal | WavRenameGladius/WavRenameGladius/WavRenameGladius.cpp:509-530 | "k" and "track_k" both give index k |
| WavRename.Sanitize | WavRenameGladius/WavRenameGladius/WavRenameGladius.cpp:542-544 | each '*', '/' and '\' becomes '_' and every other character is kept |
| WavRename.SanitizeClean | WavRenameGladius/WavRenameGladius/WavRenameGladius.cpp:542-544 | no such character is left, a clean name is unchanged, and sanitising twice is sanitising once |
| WavRename.TargetParts | WavRenameGladius/WavRenameGladius/WavRenameGladius.cpp:540-547 | a WAV renamed to a non-empty name is still a WAV whose stem is the sanitised name, with no path separator |
| WavRename.EmptyTarget | WavRenameGladius/WavRenameGladius/WavRenameGladius.cpp:547 | renaming to the empty name gives ".wav", which is no longer taken for a WAV |
| WavRename.Entries | WavRenameGladius/WavRenameGladius/WavRenameGladius.cpp:505-547 | one planned entry per listed file |
| WavRename.ApplyStep | WavRenameGladius/WavRenameGladius/WavRenameGladius.cpp:550-575 | a rename adds its unused target to the collision map, and each counter grows by one for its kind of outcome |
| WavRename.RunCounts | WavRenameGladius/WavRenameGladius/WavRenameGladius.cpp:501-580 | files_renamed and rename_errors count the renames and the errors, together at most one per file |
| WavRename.RunUsed | WavRenameGladius/WavRenameGladius/WavRenameGladius.cpp:550-575 | the collision map holds exactly the targets renamed to |
| WavRename.RunUsedSize | WavRenameGladius/WavRenameGladius/WavRenameGladius.cpp:550-575 | the collision map grows by one per rename |
| WavRename.RenamedDistinct | WavRenameGladius/WavRenameGladius/WavRenameGladius.cpp:550-557 | two renames never share a target |
| WavRename.RenamedMeans | WavRenameGladius/WavRenameGladius/WavRenameGladius.cpp:505-575 | a renamed file is a regular WAV whose stem index is mapped, renamed to the sanitised mapped name, which was unused and not another existing file |
| WavRename.RenameWavs | WavRenameGladius/WavRenameGladius/WavRenameGladius.cpp:501-580 | the rename loop ends in the state the rename plan gives |
| WavRename.ProcessFlo | WavRenameGladius/WavRenameGladius/WavRenameGladius.cpp:391-581 | no extracted folder skips the .flo, a failed parse reports it, and otherwise the .flo's name map renames the folder's WAVs |
| WavRename.RenamedByLastEntry | WavRenameGladius/WavRenameGladius/WavRenameGladius.cpp:316-372 | a renamed WAV gets the name of the last EventMap entry that resolves to its sound data file |

## Left out

- Windows user interface. Window procedures, dialogs, list-view drawing, message boxes and
  log text have no stateable behaviour. User choices are parameters instead: the file
  dialogs, whether the list view accepts an item (`insertOk`), and whether an output file
  opens (`outputOk`).
- File and directory I/O. Containers are byte sequences, text files are line sequences, and
  directory listings are given in enumeration order. `fs::exists` is membership in a set of
  names (case-sensitive). `fs::rename` failure is a per-file flag.
- FloEditor.Editor.ParseFloFile: a `wifstream` that fails to open (`if (!in) return false`)
  is not modelled; the model starts from the lines read.
- Text encodings. `WideCharToMultiByte`, `MultiByteToWideChar` and `s2ws` are a `convert`
  parameter or taken as the identity. Characters stand for both `char` and `wchar_t`.
- DshTool.ExtractDsh: the names it lists are the raw UTF-8 bytes; the conversion to wide
  text is not modelled.
- Locale behaviour. `towlower` and `iswdigit` are taken in the C locale, and `_wcsicmp` is
  an `icmp` parameter.
- `std::stof` is a `floatOk` parameter. Compound delays are checked for parse failure but
  not kept.
- Codecs. No ADPCM codec, DSP channel-header codec or WAV `fmt` reader appears in these
  files.
- XBB round trip. There is no extract-after-repack round trip for XBB. Repack stores the
  WAV header unchanged, so bytes 4..7 of an entry hold the RIFF size, and extraction reads
  them as the header length (see XsbTool.RepackedLengthField). Each direction is modelled
  on its own.
- XsbTool.Extract, XsbTool.Repack: out-of-range reads of the `.xbb`, `.xsb` or a WAV, and
  u32 wrap-around of offsets and sizes during repack, are excluded by preconditions. The
  header size field is the exception: its wrap is modelled (Bytes.Wrap32).
- XsbTool.Extract: the `break`s on a failed `malloc` or a failed output open are not
  modelled.
- XsbTool.RepackFolder: a failure to create the output files is not modelled.
- XsbTool.WavFiles: its contract gives membership. The order is stated only by its
  definition (enumeration order).
- DshTool.ExtractDsh requires at least 4 bytes. A shorter file would read the count from an
  uninitialised buffer.
- DshTool.HeaderRegion, DshTool.ParseEntry, XsbTool.Payload, FloParse.ComplexFrom,
  WavFlo.LinkedRow, WavFlo.EntryRow, WavFlo.Step: each own contract gives only a size or a
  bound. The contents are stated by the lemma or method beside each (EntryFields,
  ParseOfRegions, TrackFileLayout, ComplexFromShape, ReadLines and the WavFlo step lemmas).
- FloEvents.SortBy: `std::sort` in SortEvents is modelled by a stable insertion sort under
  the same comparator. The proofs (FloEditor.ColumnSortOrder, FloEvents.LoadSortOrder) state
  order and permutation. They do not depend on which order equal elements end up in.
- FloEditor.ColumnSortOrder: for columns 3 and 4 the order is proved only when `_wcsicmp`
  is a consistent three-way comparison (sign flips with the arguments, "less" is
  transitive). `_wcsicmp` is not part of this model and is a parameter.
- Integer width. Counters and ids are unbounded integers. The one 32-bit wrap that matters
  for correctness is modelled explicitly: the count increment in FloPatch.Inc32.
- FloGui's filter combo box and `PopulateList` are display only. `OpenAndLoadFlo` is
  modelled as Editor.ParseFloFile followed by Editor.ResetSort.
- `SaveFlo`, `SerializeEventMapLine` and `SerializeSoundDataFileLine` are not modelled.
  SerializeSimpleEventLine is modelled, with its round trip.
- FloEditor.RefreshedDirectLink covers direct Simple links only. This matches the source,
  which re-resolves only invalid entries and direct links.
- FloParse.ComplexSection: a RandomEvents or CompoundEvents header row with one field is
  read by a second `std::getline` that fails and keeps the token it already holds, so the
  link count repeats the id ("7" gives id 7 and 7 links). The model does the same.
- WavFlo.LinkedRow: a RandomEvents or CompoundEvents row with one field indexes `tokens[1]`
  out of range (WAV:203-204, 222-223), which is undefined behaviour. The model, like
  WavFlo.ReadEntry, treats it as a row whose numbers do not parse.
- WavRename.ProcessFlo: the recursive folder walk and the choice of `.flo` files are not
  modelled, and the presence of the "extracted" folder is a parameter. Of the analysis
  logging, only the name-linkage map is modelled (WavRename.NameLinkage).
- WavRename.Sanitize: only the three replacements the source makes are modelled; other
  characters that are invalid in file names are kept, as in the source.
- FloPatch.PatchInsertLineInSection, WavFlo.ReadLines, FloEditor.ReadFlo: the `vector` and
  map updates are modelled on sequence and map values. The in-place, aliasing view of
  `data` is not.
- FloPatch.CountFieldReadsBack: a new count wider than the old field is truncated to that
  width, as the source does. That case is stated as the truncation, not as a readable
  count.
