/** The GameCube DSH sound bank: a 32-byte file header holding the entry count
    as a big-endian u32 followed by zeros, then one 0x160-byte entry per DSP
    file: a 256-byte name region holding the file name in UTF-8, and the first
    0x60 bytes of the DSP file (its header, big-endian fields). */
module DshTool {
  import opened Bytes
  import opened Optional

  const FILE_HEADER_SIZE: nat := 0x20
  const NAME_REGION_SIZE: nat := 0x100
  const DSP_HEADER_SIZE: nat := 0x60
  const ENTRY_SIZE: nat := 0x160
  const MAX_DSP_FILES: nat := 1024

  // ---------------------------------------------------------------------------
  // Names
  // ---------------------------------------------------------------------------

  /** Where the file name of a path starts: just after its last backslash, or
      at 0 when it has none. */
  function NameStart(path: seq<char>): (i: nat)
    ensures i <= |path|
    ensures 0 < i ==> path[i - 1] == '\\'
    ensures forall k :: i <= k < |path| ==> path[k] != '\\'
  {
    if path == [] then 0
    else if path[|path| - 1] == '\\' then |path|
    else NameStart(path[..|path| - 1])
  }

  /** The part of a path after its last backslash, or the whole path when it
      has none (wcsrchr(path, '\\') + 1). */
  function FileNameOnly(path: seq<char>): (name: seq<char>)
    ensures '\\' !in name
  {
    path[NameStart(path)..]
  }

  /** The bytes before the first NUL (all of them when there is none): what
      strlen counts and memchr(..., '\0', n) finds. */
  function CStr(b: seq<byte>): (r: seq<byte>)
    ensures r <= b && 0 !in r
    ensures |r| < |b| ==> b[|r|] == 0
  {
    if b == [] || b[0] == 0 then [] else [b[0]] + CStr(b[1..])
  }

  /** The name bytes repack copies for a DSP file: the UTF-8 conversion of its
      file name, as left in a zeroed 256-byte buffer that the conversion may
      fill up to 255 bytes, up to its first NUL; nothing when the conversion
      reports failure. */
  function NameBytes(converted: Option<seq<byte>>): (r: seq<byte>)
    ensures |r| < NAME_REGION_SIZE && 0 !in r
  {
    match converted
    case None => []
    case Some(b) => CStr(if |b| < NAME_REGION_SIZE then b else b[..NAME_REGION_SIZE - 1])
  }

  /** The buffer h with src copied over it from `at` on. */
  ghost function Splice(h: seq<byte>, at: nat, src: seq<byte>): (r: seq<byte>)
    requires at + |src| <= |h|
    ensures |r| == |h|
  {
    seq(|h|, k requires 0 <= k < |h| => if at <= k < at + |src| then src[k - at] else h[k])
  }

  /** The 256-byte name region of an entry: the name bytes, then zeros. */
  function NameRegion(name: seq<byte>): (r: seq<byte>)
    requires |name| <= NAME_REGION_SIZE
    ensures |r| == NAME_REGION_SIZE
  {
    seq(NAME_REGION_SIZE, k requires 0 <= k < NAME_REGION_SIZE => if k < |name| then name[k] else 0)
  }

  /** The name region holds the name and every other byte is zero; reading it
      back up to the first NUL gives the name again. */
  lemma NameRegionRoundTrip(name: seq<byte>)
    requires |name| < NAME_REGION_SIZE && 0 !in name
    ensures NameRegion(name)[..|name|] == name
    ensures forall k :: |name| <= k < NAME_REGION_SIZE ==> NameRegion(name)[k] == 0
    ensures CStr(NameRegion(name)) == name
  {
    var r := NameRegion(name);
    assert r[..|name|] == name;
    CStrOfTerminated(name, r);
  }

  /** A NUL-free string followed by a NUL reads back as itself. */
  lemma {:induction false} CStrOfTerminated(name: seq<byte>, b: seq<byte>)
    requires |name| < |b| && b[..|name|] == name && 0 !in name && b[|name|] == 0
    ensures CStr(b) == name
  {
    if name != [] {
      assert b[0] == name[0];
      assert b[1..][..|name| - 1] == name[1..];
      CStrOfTerminated(name[1..], b[1..]);
    }
  }

  // ---------------------------------------------------------------------------
  // Repack
  // ---------------------------------------------------------------------------

  /** The 0x60-byte header region of an entry: the start of the DSP file, or
      zeros when the file cannot be opened or is shorter than 0x60 bytes. */
  function HeaderRegion(file: Option<seq<byte>>): (r: seq<byte>)
    ensures |r| == DSP_HEADER_SIZE
  {
    match file
    case Some(c) => if |c| < DSP_HEADER_SIZE then seq(DSP_HEADER_SIZE, _ => 0) else c[..DSP_HEADER_SIZE]
    case None => seq(DSP_HEADER_SIZE, _ => 0)
  }

  /** The entry written for the DSP file at `path`, where `convert` is the
      UTF-8 conversion of a file name and `open` the file system (None for a
      file that cannot be opened). */
  function EntryBytes(path: seq<char>, convert: seq<char> -> Option<seq<byte>>,
                      open: seq<char> -> Option<seq<byte>>): (r: seq<byte>)
    ensures |r| == ENTRY_SIZE
  {
    NameRegion(NameBytes(convert(FileNameOnly(path)))) + HeaderRegion(open(path))
  }

  /** Whether the entry was written without a warning: the name converted, and
      the file opened and held a full header. */
  predicate EntryOk(path: seq<char>, convert: seq<char> -> Option<seq<byte>>,
                    open: seq<char> -> Option<seq<byte>>)
  {
    convert(FileNameOnly(path)).Some? && open(path).Some? && |open(path).value| >= DSP_HEADER_SIZE
  }

  function AllEntries(paths: seq<seq<char>>, convert: seq<char> -> Option<seq<byte>>,
                      open: seq<char> -> Option<seq<byte>>): (es: seq<seq<byte>>)
    ensures |es| == |paths|
  {
    seq(|paths|, k requires 0 <= k < |paths| => EntryBytes(paths[k], convert, open))
  }

  /** A DSH image: the count as a big-endian u32, 28 zero bytes, then the
      entries one after the other. */
  ghost function DshImage(count: u32, es: seq<seq<byte>>): seq<byte> {
    Be32Bytes(count) + seq(FILE_HEADER_SIZE - 4, _ => 0) + Flatten(es)
  }

  /** The DSH file repack writes for a list of DSP paths: the count, then the
      entries in list order. */
  ghost function DshFile(paths: seq<seq<char>>, convert: seq<char> -> Option<seq<byte>>,
                         open: seq<char> -> Option<seq<byte>>): seq<byte>
    requires |paths| < U32_MOD
  {
    DshImage(|paths|, AllEntries(paths, convert, open))
  }

  /** A DSH image of n 0x160-byte entries is 0x20 + n * 0x160 bytes, reads
      back its count from bytes 0..3, is zero in bytes 4..0x1f and holds entry
      k at 0x20 + k * 0x160. */
  lemma DshImageLayout(count: u32, es: seq<seq<byte>>)
    requires forall j :: 0 <= j < |es| ==> |es[j]| == ENTRY_SIZE
    ensures var f := DshImage(count, es);
            |f| == FILE_HEADER_SIZE + |es| * ENTRY_SIZE &&
            Get32Be(f, 0) == count && (forall k :: 4 <= k < FILE_HEADER_SIZE ==> f[k] == 0) &&
            forall k :: 0 <= k < |es| ==>
              f[FILE_HEADER_SIZE + k * ENTRY_SIZE .. FILE_HEADER_SIZE + (k + 1) * ENTRY_SIZE] == es[k]
  {
    var f := DshImage(count, es);
    var head := Be32Bytes(count) + seq(FILE_HEADER_SIZE - 4, _ => 0);
    assert f == head + Flatten(es);
    FlattenUniform(es, ENTRY_SIZE);
    assert f[0..4] == Be32Bytes(count);
    Get32BeAt(f, 0, count);
    forall k | 0 <= k < |es|
      ensures f[FILE_HEADER_SIZE + k * ENTRY_SIZE .. FILE_HEADER_SIZE + (k + 1) * ENTRY_SIZE] == es[k]
    {
      EntryAt(head, es, k);
    }
  }

  /** A repacked DSH is 0x20 + n * 0x160 bytes, starts with the count as a
      big-endian u32 and 28 zero bytes, and holds the entry for path k, with
      its name region and its header region, at 0x20 + k * 0x160. */
  lemma DshFileLayout(paths: seq<seq<char>>, convert: seq<char> -> Option<seq<byte>>,
                      open: seq<char> -> Option<seq<byte>>)
    requires |paths| < U32_MOD
    ensures var f := DshFile(paths, convert, open);
            |f| == FILE_HEADER_SIZE + |paths| * ENTRY_SIZE &&
            Get32Be(f, 0) == |paths| && (forall k :: 4 <= k < FILE_HEADER_SIZE ==> f[k] == 0) &&
            forall k :: 0 <= k < |paths| ==>
              f[FILE_HEADER_SIZE + k * ENTRY_SIZE .. FILE_HEADER_SIZE + (k + 1) * ENTRY_SIZE] ==
              EntryBytes(paths[k], convert, open)
  {
    var es := AllEntries(paths, convert, open);
    DshImageLayout(|paths|, es);
    assert DshFile(paths, convert, open) == DshImage(|paths|, es);
    assert forall k :: 0 <= k < |paths| ==> es[k] == EntryBytes(paths[k], convert, open);
  }

  /** Entry k of a list of 0x160-byte entries written after a 0x20-byte head. */
  lemma EntryAt(head: seq<byte>, es: seq<seq<byte>>, k: nat)
    requires |head| == FILE_HEADER_SIZE && k < |es| && forall j :: 0 <= j < |es| ==> |es[j]| == ENTRY_SIZE
    ensures var f := head + Flatten(es);
            FILE_HEADER_SIZE + (k + 1) * ENTRY_SIZE <= |f| &&
            f[FILE_HEADER_SIZE + k * ENTRY_SIZE .. FILE_HEADER_SIZE + (k + 1) * ENTRY_SIZE] == es[k]
  {
    FlattenAt(es, k);
    FlattenUniform(es[..k], ENTRY_SIZE);
    var f := head + Flatten(es);
    var at := FILE_HEADER_SIZE + k * ENTRY_SIZE;
    assert f[at .. at + ENTRY_SIZE] == Flatten(es)[k * ENTRY_SIZE .. k * ENTRY_SIZE + ENTRY_SIZE];
  }

  /** Whether every entry of the list is written without a warning. */
  predicate AllOk(paths: seq<seq<char>>, convert: seq<char> -> Option<seq<byte>>,
                  open: seq<char> -> Option<seq<byte>>)
  {
    forall k :: 0 <= k < |paths| ==> EntryOk(paths[k], convert, open)
  }

  /** One entry of RepackDshFromList: a zeroed 0x160-byte buffer receives the
      converted name (strlen bytes of it) and the first 0x60 bytes of the DSP
      file when it opens and is long enough. */
  method BuildEntry(path: seq<char>, convert: seq<char> -> Option<seq<byte>>,
                    open: seq<char> -> Option<seq<byte>>) returns (entry: array<byte>, ok: bool)
    ensures fresh(entry)
    ensures entry[..] == EntryBytes(path, convert, open)
    ensures ok == EntryOk(path, convert, open)
  {
    entry := new byte[ENTRY_SIZE](_ => 0);
    ok := true;
    var dspFilenameOnly := FileNameOnly(path);
    var converted := convert(dspFilenameOnly);
    var name: seq<byte> := [];
    if converted.Some? {
      var b := converted.value;
      var buffer := if |b| < NAME_REGION_SIZE then b else b[..NAME_REGION_SIZE - 1];
      name := CStr(buffer);
      CopyInto(entry, 0, name);
    } else {
      ok := false;
      assert entry[..] == Splice(seq(ENTRY_SIZE, _ => 0), 0, []);
    }
    var dsp := open(path);
    var header := seq(DSP_HEADER_SIZE, _ => 0);
    ghost var copied := false;
    if dsp.Some? {
      if |dsp.value| < DSP_HEADER_SIZE {
        ok := false;
      } else {
        header := dsp.value[..DSP_HEADER_SIZE];
        CopyInto(entry, NAME_REGION_SIZE, header);
        copied := true;
      }
    } else {
      ok := false;
    }
    EntryOfCopies(name, header, copied, entry[..]);
  }

  /** A zeroed entry with the name copied to its start and, when `copied`,
      the header copied to 0x100 is the name region followed by the header
      region (all zeros when nothing was copied). */
  lemma EntryOfCopies(name: seq<byte>, header: seq<byte>, copied: bool, entry: seq<byte>)
    requires |name| <= NAME_REGION_SIZE && |header| == DSP_HEADER_SIZE
    requires copied || header == seq(DSP_HEADER_SIZE, _ => 0)
    requires var afterName := Splice(seq(ENTRY_SIZE, _ => 0), 0, name);
             entry == if copied then Splice(afterName, NAME_REGION_SIZE, header) else afterName
    ensures entry == NameRegion(name) + header
  {
    assert forall k :: 0 <= k < ENTRY_SIZE ==> entry[k] == (NameRegion(name) + header)[k];
  }

  /** memcpy(a + at, src, |src|). */
  method CopyInto(a: array<byte>, at: nat, src: seq<byte>)
    requires at + |src| <= a.Length
    modifies a
    ensures a[..] == Splice(old(a[..]), at, src)
  {
    var i := 0;
    while i < |src|
      invariant 0 <= i <= |src|
      invariant forall k :: 0 <= k < a.Length ==> a[k] == if at <= k < at + i then src[k - at] else old(a[k])
    {
      a[at + i] := src[i];
      i := i + 1;
    }
  }

  /** The loop of RepackDshFromList: builds and writes one entry per queued
      path, in order, noting whether any of them was incomplete. */
  method WriteEntries(paths: seq<seq<char>>, convert: seq<char> -> Option<seq<byte>>,
                      open: seq<char> -> Option<seq<byte>>) returns (body: seq<byte>, allOk: bool)
    ensures body == Flatten(AllEntries(paths, convert, open))
    ensures allOk == AllOk(paths, convert, open)
  {
    ghost var es := AllEntries(paths, convert, open);
    body := [];
    allOk := true;
    var i := 0;
    while i < |paths|
      invariant 0 <= i <= |paths|
      invariant body == Flatten(es[..i])
      invariant allOk == AllOk(paths[..i], convert, open)
    {
      var entry, ok := BuildEntry(paths[i], convert, open);
      AllOkSnoc(paths, i, convert, open);
      var e := entry[..];
      assert e == es[i];
      FlattenSnoc(es, i);
      assert body + e == Flatten(es[..i + 1]);
      body := body + e;
      if !ok {
        allOk := false;
      }
      i := i + 1;
    }
    assert es[..i] == es && paths[..i] == paths;
  }

  lemma AllOkSnoc(paths: seq<seq<char>>, i: nat, convert: seq<char> -> Option<seq<byte>>,
                  open: seq<char> -> Option<seq<byte>>)
    requires i < |paths|
    ensures AllOk(paths[..i + 1], convert, open) == (AllOk(paths[..i], convert, open) && EntryOk(paths[i], convert, open))
  {
    assert paths[..i + 1][i] == paths[i];
    assert forall k :: 0 <= k < i ==> paths[..i + 1][k] == paths[..i][k];
  }

  // ---------------------------------------------------------------------------
  // Extract
  // ---------------------------------------------------------------------------

  /** The fields ExtractDsh prints for an entry. */
  datatype DshEntry = DshEntry(name: seq<byte>, samples: u32, nibbles: u32, rate: u32,
                               loopFlag: int, loopStart: u32, loopEnd: u32)

  /** What ExtractDsh reports: the count from the file header, the entries it
      could read, and whether it stopped early at an incomplete entry. */
  datatype DshListing = DshListing(count: u32, entries: seq<DshEntry>, complete: bool)

  /** The entry held by the 0x160 bytes at `at`: the name up to the first NUL
      of the name region, and the big-endian fields of the DSP header that
      follows (sample count at +0, nibble count at +4, rate at +8, the 16-bit
      loop flag at +12, loop start at +16, loop end at +20). */
  function ParseEntry(dsh: seq<byte>, at: nat): (e: DshEntry)
    requires at + ENTRY_SIZE <= |dsh|
    ensures |e.name| <= NAME_REGION_SIZE
  {
    var dh := at + NAME_REGION_SIZE;
    DshEntry(CStr(dsh[at .. at + NAME_REGION_SIZE]), Get32Be(dsh, dh), Get32Be(dsh, dh + 4), Get32Be(dsh, dh + 8),
             Get16Be(dsh, dh + 12), Get32Be(dsh, dh + 16), Get32Be(dsh, dh + 20))
  }

  /** How many whole entries the file holds after its 0x20-byte header. */
  function EntriesAvailable(dsh: seq<byte>): nat {
    if |dsh| < FILE_HEADER_SIZE then 0 else (|dsh| - FILE_HEADER_SIZE) / ENTRY_SIZE
  }

  lemma EntriesAvailableFit(dsh: seq<byte>, i: nat)
    requires i < EntriesAvailable(dsh)
    ensures FILE_HEADER_SIZE + (i + 1) * ENTRY_SIZE <= |dsh|
  {
  }

  lemma EntriesAvailableLong(dsh: seq<byte>, i: nat)
    requires FILE_HEADER_SIZE + (i + 1) * ENTRY_SIZE <= |dsh|
    ensures i < EntriesAvailable(dsh)
  {
  }

  lemma EntriesAvailableShort(dsh: seq<byte>, i: nat)
    requires |dsh| < FILE_HEADER_SIZE + (i + 1) * ENTRY_SIZE
    ensures EntriesAvailable(dsh) <= i
  {
  }

  /** The listing of a DSH: the entries 0..n-1 for n the smaller of the count
      and the whole entries present, complete exactly when every counted entry
      is present. */
  function ListingSpec(dsh: seq<byte>): (l: DshListing)
    requires 4 <= |dsh|
    ensures l.count == Get32Be(dsh, 0)
    ensures |l.entries| <= l.count && |l.entries| <= EntriesAvailable(dsh)
    ensures l.complete <==> l.count <= EntriesAvailable(dsh)
    ensures !l.complete ==> |l.entries| == EntriesAvailable(dsh)
    ensures l.complete ==> |l.entries| == l.count
  {
    var count := Get32Be(dsh, 0);
    var n := if count <= EntriesAvailable(dsh) then count else EntriesAvailable(dsh);
    DshListing(count, EntriesFrom(dsh, n), count <= EntriesAvailable(dsh))
  }

  /** The first n entries of a DSH that holds at least n whole entries. */
  function EntriesFrom(dsh: seq<byte>, n: nat): (es: seq<DshEntry>)
    requires n <= EntriesAvailable(dsh)
    ensures |es| == n
  {
    seq(n, k requires 0 <= k < n => EntriesAvailableFit(dsh, k); ParseEntry(dsh, FILE_HEADER_SIZE + k * ENTRY_SIZE))
  }

  /** Reading one more entry appends it. */
  lemma EntriesFromSnoc(dsh: seq<byte>, n: nat)
    requires n < EntriesAvailable(dsh)
    ensures FILE_HEADER_SIZE + (n + 1) * ENTRY_SIZE <= |dsh|
    ensures EntriesFrom(dsh, n + 1) == EntriesFrom(dsh, n) + [ParseEntry(dsh, FILE_HEADER_SIZE + n * ENTRY_SIZE)]
  {
    EntriesAvailableFit(dsh, n);
    assert forall k :: 0 <= k < n ==> EntriesFrom(dsh, n + 1)[k] == EntriesFrom(dsh, n)[k];
  }

  /** ExtractDsh: reads the count from bytes 0..3, seeks to 0x20 and reads
      0x160-byte entries, stopping at the first one it cannot read whole. */
  method ExtractDsh(dsh: seq<byte>) returns (listing: DshListing)
    requires 4 <= |dsh|
    ensures listing == ListingSpec(dsh)
  {
    var count := Get32Be(dsh, 0);
    var entries: seq<DshEntry> := [];
    var complete := true;
    var pos := FILE_HEADER_SIZE;
    var i := 0;
    while i < count
      invariant 0 <= i <= count && i <= EntriesAvailable(dsh) && pos == FILE_HEADER_SIZE + i * ENTRY_SIZE
      invariant entries == EntriesFrom(dsh, i)
      invariant complete
    {
      if |dsh| < pos + ENTRY_SIZE {
        EntriesAvailableShort(dsh, i);
        complete := false;
        break;
      }
      EntriesAvailableLong(dsh, i);
      EntriesFromSnoc(dsh, i);
      var e := ParseEntry(dsh, pos);
      entries := entries + [e];
      i := i + 1;
      pos := pos + ENTRY_SIZE;
    }
    listing := DshListing(count, entries, complete);
  }

  // ---------------------------------------------------------------------------
  // The file list
  // ---------------------------------------------------------------------------

  /** The DSP files queued for repacking: a fixed table of 1024 paths and the
      number in use, and the file names the list view shows for them. */
  class DspList {
    const paths: array<seq<char>>
    var count: nat
    var shown: seq<seq<char>>

    ghost predicate Valid()
      reads this, paths
    {
      paths.Length == MAX_DSP_FILES && count <= MAX_DSP_FILES && |shown| == count &&
      forall k :: 0 <= k < count ==> shown[k] == FileNameOnly(paths[k])
    }

    /** The queued paths, in the order they were added. */
    ghost function Contents(): seq<seq<char>>
      reads this, paths
      requires Valid()
    {
      paths[..count]
    }

    constructor ()
      ensures Valid() && Contents() == [] && shown == []
    {
      paths := new seq<char>[MAX_DSP_FILES](_ => []);
      count := 0;
      shown := [];
    }

    /** AddFileToList: a full list is left unchanged; otherwise the file name
        is inserted into the list view and, when that succeeds (insertOk), the
        path is queued. */
    method AddFileToList(fullPath: seq<char>, insertOk: bool) returns (added: bool)
      requires Valid()
      modifies this, paths
      ensures Valid()
      ensures added <==> old(count) < MAX_DSP_FILES && insertOk
      ensures added ==> Contents() == old(Contents()) + [fullPath] &&
                        shown == old(shown) + [FileNameOnly(fullPath)]
      ensures !added ==> Contents() == old(Contents()) && shown == old(shown)
    {
      if count >= MAX_DSP_FILES {
        return false;
      }
      var fileName := FileNameOnly(fullPath);
      if !insertOk {
        return false;
      }
      ghost var before := paths[..count];
      shown := shown + [fileName];
      paths[count] := fullPath;
      assert paths[..count] == before;
      count := count + 1;
      assert paths[..count] == before + [fullPath];
      added := true;
    }

    /** ClearDspList: empties the list view and forgets every queued path. */
    method ClearDspList()
      requires Valid()
      modifies this
      ensures Valid() && Contents() == [] && shown == []
    {
      shown := [];
      count := 0;
    }

    /** RepackDshFromList: with an empty list nothing happens; when the output
        file cannot be chosen or created (outputOk false) nothing is written
        and the list is kept; otherwise the DSH for the queued paths is
        written, with a flag telling whether every entry was complete, and the
        list is cleared. */
    method RepackDshFromList(outputOk: bool, convert: seq<char> -> Option<seq<byte>>,
                             open: seq<char> -> Option<seq<byte>>)
      returns (out: Option<(seq<byte>, bool)>)
      requires Valid()
      modifies this
      ensures Valid()
      ensures old(count) == 0 || !outputOk ==> out == None && count == old(count) && shown == old(shown)
      ensures old(count) > 0 && outputOk ==>
                out == Some((DshFile(old(Contents()), convert, open), AllOk(old(Contents()), convert, open))) &&
                Contents() == [] && shown == []
    {
      if count == 0 || !outputOk {
        return None;
      }
      var n := count;
      var buf4 := new byte[4];
      Put32Be(buf4, 0, n);
      assert buf4[..] == Be32Bytes(n);
      var entries, allSuccessful := WriteEntries(paths[..n], convert, open);
      var f := buf4[..] + seq(FILE_HEADER_SIZE - 4, _ => 0) + entries;
      assert f == DshImage(n, AllEntries(paths[..n], convert, open));
      out := Some((f, allSuccessful));
      ClearDspList();
    }
  }

  /** The fields ExtractDsh should report for the entry repack writes for
      `path`: the converted name, and the header fields of the DSP header
      region. */
  function Described(path: seq<char>, convert: seq<char> -> Option<seq<byte>>,
                     open: seq<char> -> Option<seq<byte>>): DshEntry
  {
    var h := HeaderRegion(open(path));
    DshEntry(NameBytes(convert(FileNameOnly(path))), Get32Be(h, 0), Get32Be(h, 4), Get32Be(h, 8),
             Get16Be(h, 12), Get32Be(h, 16), Get32Be(h, 20))
  }

  /** Extracting a repacked DSH lists every queued file, in order, with its
      name as converted and the header fields read from its DSP header region,
      and reports no incomplete entry. */
  lemma ExtractOfRepack(paths: seq<seq<char>>, convert: seq<char> -> Option<seq<byte>>,
                        open: seq<char> -> Option<seq<byte>>)
    requires |paths| < U32_MOD
    ensures var l := ListingSpec(DshFile(paths, convert, open));
            l.count == |paths| && l.complete && |l.entries| == |paths| &&
            forall k :: 0 <= k < |paths| ==> l.entries[k] == Described(paths[k], convert, open)
  {
    var es := AllEntries(paths, convert, open);
    ListingOfImage(es);
    assert DshFile(paths, convert, open) == DshImage(|paths|, es);
    forall k | 0 <= k < |paths|
      ensures ParseEntry(es[k], 0) == Described(paths[k], convert, open)
    {
      EntryFields(paths[k], convert, open);
    }
  }

  /** Listing a DSH image of whole entries finds them all, in order. */
  lemma ListingOfImage(es: seq<seq<byte>>)
    requires |es| < U32_MOD && forall j :: 0 <= j < |es| ==> |es[j]| == ENTRY_SIZE
    ensures var l := ListingSpec(DshImage(|es|, es));
            l.count == |es| && l.complete && |l.entries| == |es| &&
            forall k :: 0 <= k < |es| ==> l.entries[k] == ParseEntry(es[k], 0)
  {
    var f := DshImage(|es|, es);
    DshImageLayout(|es|, es);
    assert EntriesAvailable(f) == |es|;
    var l := ListingSpec(f);
    assert l.count == |es| && l.complete;
    forall k | 0 <= k < |es|
      ensures l.entries[k] == ParseEntry(es[k], 0)
    {
      assert l.entries[k] == ParseEntry(f, FILE_HEADER_SIZE + k * ENTRY_SIZE);
      ParseEntryShift(f, FILE_HEADER_SIZE + k * ENTRY_SIZE, es[k]);
    }
  }

  /** An entry parses the same wherever it is found. */
  lemma ParseEntryShift(f: seq<byte>, at: nat, e: seq<byte>)
    requires at + ENTRY_SIZE <= |f| && f[at .. at + ENTRY_SIZE] == e
    ensures ParseEntry(f, at) == ParseEntry(e, 0)
  {
    assert f[at .. at + NAME_REGION_SIZE] == e[..NAME_REGION_SIZE];
    assert forall k :: 0 <= k < ENTRY_SIZE ==> f[at + k] == e[k];
  }

  /** Parsing the entry written for `path` gives the name and fields it was
      written from. */
  lemma EntryFields(path: seq<char>, convert: seq<char> -> Option<seq<byte>>,
                    open: seq<char> -> Option<seq<byte>>)
    ensures ParseEntry(EntryBytes(path, convert, open), 0) == Described(path, convert, open)
  {
    var name := NameBytes(convert(FileNameOnly(path)));
    var h := HeaderRegion(open(path));
    var e := EntryBytes(path, convert, open);
    assert e[..NAME_REGION_SIZE] == NameRegion(name);
    NameRegionRoundTrip(name);
    ParseOfRegions(NameRegion(name), h);
  }

  /** An entry made of a name region and a header region parses to the name
      before the first NUL and the big-endian fields of the header. */
  lemma ParseOfRegions(names: seq<byte>, h: seq<byte>)
    requires |names| == NAME_REGION_SIZE && |h| == DSP_HEADER_SIZE
    ensures ParseEntry(names + h, 0) ==
            DshEntry(CStr(names), Get32Be(h, 0), Get32Be(h, 4), Get32Be(h, 8), Get16Be(h, 12), Get32Be(h, 16), Get32Be(h, 20))
  {
    var e := names + h;
    assert e[..NAME_REGION_SIZE] == names;
  }
}
