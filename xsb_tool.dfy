/** The Xbox XBB/XSB sound bank pair. The .xbb holds a u32 total size, a u32
    entry count, and then one entry after another: a WAV-style header (whose
    length is the little-endian u32 at offset 4 of the entry) followed by an
    8-byte little-endian (offset, length) descriptor into the .xsb, which holds
    the raw audio payloads back to back. All numbers are little-endian u32s. */
module XsbTool {
  import opened Bytes
  import opened Text
  import opened Optional

  // ---------------------------------------------------------------------------
  // Extraction
  // ---------------------------------------------------------------------------

  /** The header length extraction reads for the entry at `at`. */
  function HeaderLen(xbb: seq<byte>, at: nat): (v: u32)
    requires at + 8 <= |xbb|
  {
    Le32(xbb, at + 4)
  }

  /** Every read extraction makes for the entry at `at` stays inside the files:
      the header and its descriptor lie in the .xbb, a non-empty payload lies in
      the .xsb, and a header that gets patched (non-empty payload) has room for
      the data-size field at 44..47. */
  predicate EntryInside(xbb: seq<byte>, xsb: seq<byte>, at: nat) {
    at + 8 <= |xbb| && at + HeaderLen(xbb, at) + 8 <= |xbb| &&
    var d := at + HeaderLen(xbb, at);
    (Le32(xbb, d + 4) > 0 ==> 48 <= HeaderLen(xbb, at) && Le32(xbb, d) + Le32(xbb, d + 4) <= |xsb|)
  }

  /** The entry after the one at `at`: its header and the 8-byte descriptor. */
  function NextEntry(xbb: seq<byte>, at: nat): (next: nat)
    requires at + 8 <= |xbb|
    ensures next == at + HeaderLen(xbb, at) + 8
  {
    at + Le32(xbb, at + 4) + 8
  }

  /** n consecutive entries starting at `at` are all inside the files. */
  predicate WalkInside(xbb: seq<byte>, xsb: seq<byte>, at: nat, n: nat)
    decreases n
  {
    n == 0 || (EntryInside(xbb, xsb, at) && WalkInside(xbb, xsb, NextEntry(xbb, at), n - 1))
  }

  /** The files extraction can walk: the 8-byte file header exists, the .xbb is
      addressable by a u32 offset, and all `entryCount` entries are inside. */
  predicate ExtractInside(xbb: seq<byte>, xsb: seq<byte>) {
    8 <= |xbb| < U32_MOD && WalkInside(xbb, xsb, 8, Le32(xbb, 4))
  }

  /** Byte k of the header written out for a track whose entry header is h:
      when the payload is non-empty the RIFF size at 4..7 becomes
      |h| - 8 + dataLength (u32 arithmetic) and the data size at 44..47 becomes
      dataLength, both little-endian; every other byte is copied. */
  ghost function PatchedByte(h: seq<byte>, dataLength: u32, k: nat): byte
    requires k < |h| < U32_MOD && (dataLength > 0 ==> 48 <= |h|)
  {
    if dataLength > 0 && 4 <= k < 8 then Le32Bytes(Wrap32(|h| - 8 + dataLength))[k - 4]
    else if dataLength > 0 && 44 <= k < 48 then Le32Bytes(dataLength)[k - 44]
    else h[k]
  }

  /** The header written out for a track. */
  ghost function PatchedHeader(h: seq<byte>, dataLength: u32): (r: seq<byte>)
    requires |h| < U32_MOD && (dataLength > 0 ==> 48 <= |h|)
    ensures |r| == |h|
  {
    seq(|h|, k requires 0 <= k < |h| => PatchedByte(h, dataLength, k))
  }

  /** Patching touches the two size fields only, and only when the payload is
      non-empty; the fields then read back as the new RIFF size and dataLength. */
  lemma PatchedHeaderFields(h: seq<byte>, dataLength: u32)
    requires |h| < U32_MOD && (dataLength > 0 ==> 48 <= |h|)
    ensures dataLength == 0 ==> PatchedHeader(h, dataLength) == h
    ensures dataLength > 0 ==>
              var r := PatchedHeader(h, dataLength);
              Le32(r, 4) == Wrap32(|h| - 8 + dataLength) && Le32(r, 44) == dataLength &&
              r[..4] == h[..4] && r[8..44] == h[8..44] && r[48..] == h[48..]
  {
    var r := PatchedHeader(h, dataLength);
    if dataLength == 0 {
      assert r == h;
    } else {
      assert r[4..8] == Le32Bytes(Wrap32(|h| - 8 + dataLength));
      Le32At(r, 4, Wrap32(|h| - 8 + dataLength));
      assert r[44..48] == Le32Bytes(dataLength);
      Le32At(r, 44, dataLength);
      assert r[..4] == h[..4];
      assert r[8..44] == h[8..44];
      assert r[48..] == h[48..];
    }
  }

  /** The payload of the entry at `at`: dataLength bytes of the .xsb from
      dataOffset, nothing when dataLength is 0. */
  function Payload(xbb: seq<byte>, xsb: seq<byte>, at: nat): (p: seq<byte>)
    requires EntryInside(xbb, xsb, at)
    ensures |p| == Le32(xbb, at + HeaderLen(xbb, at) + 4)
  {
    var d := at + HeaderLen(xbb, at);
    var off := Le32(xbb, d);
    var len := Le32(xbb, d + 4);
    seq(len, k requires 0 <= k < len => xsb[off + k])
  }

  /** An output .wav as extraction writes it: the header, then the payload. */
  datatype TrackOut = TrackOut(header: seq<byte>, payload: seq<byte>)
  {
    function Contents(): seq<byte> {
      header + payload
    }
  }

  /** The output file for the entry at `at`: its patched header followed by its
      payload. */
  ghost function TrackFile(xbb: seq<byte>, xsb: seq<byte>, at: nat): TrackOut
    requires EntryInside(xbb, xsb, at)
  {
    var hl := HeaderLen(xbb, at);
    TrackOut(PatchedHeader(xbb[at .. at + hl], Le32(xbb, at + hl + 4)), Payload(xbb, xsb, at))
  }

  /** Each extracted file is the entry's header followed by exactly
      `dataLength` bytes of the .xsb taken from `dataOffset`. With an empty
      payload the header is written unchanged; otherwise its RIFF size reads
      headerLen - 8 + dataLength (mod 2^32), its data size reads dataLength, and
      no other header byte changes. */
  lemma TrackFileLayout(xbb: seq<byte>, xsb: seq<byte>, at: nat)
    requires EntryInside(xbb, xsb, at)
    ensures var hl := HeaderLen(xbb, at);
            var off := Le32(xbb, at + hl);
            var len := Le32(xbb, at + hl + 4);
            var h := xbb[at .. at + hl];
            var t := TrackFile(xbb, xsb, at);
            |t.header| == hl && |t.payload| == len &&
            (len == 0 ==> t.header == h) &&
            (len > 0 ==> t.payload == xsb[off .. off + len] &&
                         Le32(t.header, 4) == Wrap32(hl - 8 + len) && Le32(t.header, 44) == len &&
                         t.header[..4] == h[..4] && t.header[8..44] == h[8..44] && t.header[48..] == h[48..])
  {
    var hl := HeaderLen(xbb, at);
    PatchedHeaderFields(xbb[at .. at + hl], Le32(xbb, at + hl + 4));
  }

  /** The output files of walking n entries from `at`: the file of the entry
      at `at`, then those of the walk from the next entry. */
  ghost function Walk(xbb: seq<byte>, xsb: seq<byte>, at: nat, n: nat): (r: seq<TrackOut>)
    requires WalkInside(xbb, xsb, at, n)
    ensures |r| == n
    decreases n
  {
    if n == 0 then [] else [TrackFile(xbb, xsb, at)] + Walk(xbb, xsb, NextEntry(xbb, at), n - 1)
  }

  /** The room entries with header lengths hls take in the .xbb: each one's
      header and its 8-byte descriptor. */
  function Spans(hls: seq<nat>): nat {
    if hls == [] then 0 else hls[0] + 8 + Spans(hls[1..])
  }

  /** Walking from `at` reads the header lengths hls, one entry after another. */
  ghost predicate ReadsHeaders(xbb: seq<byte>, at: nat, hls: seq<nat>)
    decreases hls
  {
    hls == [] ||
    (at + 8 <= |xbb| && HeaderLen(xbb, at) == hls[0] && ReadsHeaders(xbb, at + hls[0] + 8, hls[1..]))
  }

  /** The entries after those whose header lengths are hls are still inside. */
  lemma {:induction false} WalkInsideSpans(xbb: seq<byte>, xsb: seq<byte>, at: nat, n: nat, hls: seq<nat>)
    requires WalkInside(xbb, xsb, at, n) && |hls| <= n && ReadsHeaders(xbb, at, hls)
    ensures WalkInside(xbb, xsb, at + Spans(hls), n - |hls|)
    decreases hls
  {
    if hls == [] {
      assert at + Spans(hls) == at;
    } else {
      var next := NextEntry(xbb, at);
      assert at + Spans(hls) == next + Spans(hls[1..]);
      WalkInsideSpans(xbb, xsb, next, n - 1, hls[1..]);
    }
  }

  /** After the entries whose header lengths are hls, the walk goes on from
      the entry at `at` + the sum of (hls[j] + 8), just past their headers and
      8-byte descriptors. */
  lemma {:induction false} WalkSpans(xbb: seq<byte>, xsb: seq<byte>, at: nat, n: nat, hls: seq<nat>)
    requires WalkInside(xbb, xsb, at, n) && |hls| <= n && ReadsHeaders(xbb, at, hls)
    ensures WalkInside(xbb, xsb, at + Spans(hls), n - |hls|) &&
            Walk(xbb, xsb, at, n)[|hls|..] == Walk(xbb, xsb, at + Spans(hls), n - |hls|)
    decreases hls
  {
    WalkInsideSpans(xbb, xsb, at, n, hls);
    if hls == [] {
      assert at + Spans(hls) == at;
    } else {
      var next := NextEntry(xbb, at);
      var tl := hls[1..];
      assert at + Spans(hls) == next + Spans(tl);
      WalkSpans(xbb, xsb, next, n - 1, tl);
      var w := Walk(xbb, xsb, at, n);
      assert w[|hls|..] == Walk(xbb, xsb, next, n - 1)[|tl|..] by {
        assert w == [TrackFile(xbb, xsb, at)] + Walk(xbb, xsb, next, n - 1);
      }
    }
  }

  /** The track after the entries whose header lengths are hls is the file of
      the entry at `at` + the sum of (hls[j] + 8). */
  lemma TrackAfterSpans(xbb: seq<byte>, xsb: seq<byte>, at: nat, n: nat, hls: seq<nat>)
    requires WalkInside(xbb, xsb, at, n) && |hls| < n && ReadsHeaders(xbb, at, hls)
    ensures EntryInside(xbb, xsb, at + Spans(hls)) &&
            Walk(xbb, xsb, at, n)[|hls|] == TrackFile(xbb, xsb, at + Spans(hls))
  {
    WalkSpans(xbb, xsb, at, n, hls);
    var rest := Walk(xbb, xsb, at + Spans(hls), n - |hls|);
    assert Walk(xbb, xsb, at, n)[|hls|] == rest[0];
  }

  /** The output files of an extraction: the walk over Le32(xbb, 4) entries
      from offset 8. */
  ghost function ExtractSpec(xbb: seq<byte>, xsb: seq<byte>): (r: seq<TrackOut>)
    requires ExtractInside(xbb, xsb)
    ensures |r| == Le32(xbb, 4)
  {
    Walk(xbb, xsb, 8, Le32(xbb, 4))
  }

  /** The in-place patch DoExtract applies to a copied header: the RIFF size
      at 4..7 and the data size at 44..47, both only for a non-empty payload. */
  method PatchHeaderInPlace(headerBuf: array<byte>, dataLength: u32)
    requires headerBuf.Length < U32_MOD && (dataLength > 0 ==> 48 <= headerBuf.Length)
    modifies headerBuf
    ensures headerBuf[..] == PatchedHeader(old(headerBuf[..]), dataLength)
  {
    if dataLength > 0 {
      ghost var h := headerBuf[..];
      Put32Le(headerBuf, 4, Wrap32(headerBuf.Length - 8 + dataLength));
      Put32Le(headerBuf, 44, dataLength);
      assert headerBuf[..] == PatchedHeader(h, dataLength);
    } else {
      assert headerBuf[..] == PatchedHeader(headerBuf[..], dataLength);
    }
  }

  /** The output file of one entry: copies the entry's header into a buffer,
      patches its size fields, and reads the payload from the .xsb. */
  method ExtractEntry(xbb: seq<byte>, xsb: seq<byte>, entryStart: nat) returns (file: TrackOut)
    requires EntryInside(xbb, xsb, entryStart)
    ensures file == TrackFile(xbb, xsb, entryStart)
  {
    var headerLen: int := Le32(xbb, entryStart + 4);
    var headerBuf := new byte[headerLen](k requires 0 <= k < headerLen => xbb[entryStart + k]);
    assert headerBuf[..] == xbb[entryStart .. entryStart + headerLen];
    var dataOffset: int := Le32(xbb, entryStart + headerLen);
    var dataLength: int := Le32(xbb, entryStart + headerLen + 4);
    PatchHeaderInPlace(headerBuf, dataLength);
    var payload := [];
    if dataLength > 0 {
      payload := xsb[dataOffset .. dataOffset + dataLength];
    }
    file := TrackOut(headerBuf[..], payload);
  }

  /** The state of DoExtract's loop: `tracks` followed by the walk of the
      `rest` entries from entryStart is the whole extraction `all`. */
  ghost predicate Extracting(xbb: seq<byte>, xsb: seq<byte>, tracks: seq<TrackOut>, entryStart: nat, rest: nat,
                             all: seq<TrackOut>)
  {
    WalkInside(xbb, xsb, entryStart, rest) && tracks + Walk(xbb, xsb, entryStart, rest) == all
  }

  /** One iteration of DoExtract's loop: the output file of the entry at
      entryStart is appended and the walk moves on to the next entry. */
  method ExtractStep(xbb: seq<byte>, xsb: seq<byte>, ghost rest: nat, entryStart: nat, tracks: seq<TrackOut>,
                     ghost all: seq<TrackOut>)
    returns (tracks': seq<TrackOut>, next: nat)
    requires Extracting(xbb, xsb, tracks, entryStart, rest, all) && 0 < rest
    ensures Extracting(xbb, xsb, tracks', next, rest - 1, all)
  {
    var file := ExtractEntry(xbb, xsb, entryStart);
    tracks' := tracks + [file];
    next := NextEntry(xbb, entryStart);
    SnocAssoc(tracks, file, Walk(xbb, xsb, next, rest - 1));
  }

  /** DoExtract: walks the .xbb entries from offset 8; each entry's output file
      is followed by the next entry, headerLen + 8 bytes further on. */
  method Extract(xbb: seq<byte>, xsb: seq<byte>) returns (tracks: seq<TrackOut>)
    requires ExtractInside(xbb, xsb)
    ensures tracks == ExtractSpec(xbb, xsb)
  {
    var entryCount := Le32(xbb, 4);
    var entryStart: nat := 8;
    tracks := [];
    var i := 0;
    ghost var left: nat := entryCount;
    ghost var all := ExtractSpec(xbb, xsb);
    assert Extracting(xbb, xsb, tracks, entryStart, left, all);
    while i < entryCount
      invariant i <= entryCount && left == entryCount - i
      invariant Extracting(xbb, xsb, tracks, entryStart, left, all)
    {
      tracks, entryStart := ExtractStep(xbb, xsb, left, entryStart, tracks, all);
      i, left := i + 1, left - 1;
    }
    assert tracks + [] == tracks;
  }

  /** The name of the i-th output file, "track_%03u.wav": "track_", then i in
      decimal padded with zeros to at least three digits, then ".wav". */
  function TrackFileName(i: nat): (name: seq<char>)
    ensures |name| == 10 + Max(3, |NatToDecimal(i)|)
    ensures name[..6] == "track_" && name[|name| - 4..] == ".wav"
    ensures AllDigits(name[6..|name| - 4]) && DigitsValue(name[6..|name| - 4]) == i
  {
    var stem := TrackStem(i);
    var name := stem + ".wav";
    assert name[..|stem|] == stem && name[6..|name| - 4] == stem[6..];
    name
  }

  /** Distinct tracks are written to distinct files. */
  lemma TrackFileNamesDistinct(i: nat, j: nat)
    requires i != j
    ensures TrackFileName(i) != TrackFileName(j)
  {
  }

  function Max(a: int, b: int): int {
    if a < b then b else a
  }

  /** "track_" followed by i in decimal, zero-padded to at least three digits:
      exactly Max(3, digits of i) digits whose value is i. */
  function TrackStem(i: nat): (stem: seq<char>)
    ensures stem == "track_" + Zeros(Max(0, 3 - |NatToDecimal(i)|)) + NatToDecimal(i)
    ensures |stem| == 6 + Max(3, |NatToDecimal(i)|) && stem[..6] == "track_"
    ensures AllDigits(stem[6..]) && DigitsValue(stem[6..]) == i
  {
    var d := NatToDecimal(i);
    PaddedStem(d);
    "track_" + Zeros(Max(0, 3 - |d|)) + d
  }

  /** "track_" and a digit string padded with zeros to three digits. */
  lemma PaddedStem(d: seq<char>)
    requires AllDigits(d)
    ensures var stem := "track_" + Zeros(Max(0, 3 - |d|)) + d;
            |stem| == 6 + Max(3, |d|) && stem[..6] == "track_" &&
            AllDigits(stem[6..]) && DigitsValue(stem[6..]) == DigitsValue(d)
  {
    var z := Zeros(Max(0, 3 - |d|));
    DigitsValueZeroPadded(|z|, d);
    var stem := "track_" + z + d;
    assert stem[6..] == z + d;
  }

  /** A run of k zero digits. */
  function Zeros(k: nat): (z: seq<char>)
    ensures |z| == k && forall j :: 0 <= j < k ==> z[j] == '0'
  {
    seq(k, _ => '0')
  }

  /** Leading zeros do not change the value of a digit string. */
  lemma {:induction false} DigitsValueZeroPadded(k: nat, d: seq<char>)
    requires AllDigits(d)
    ensures AllDigits(Zeros(k) + d)
    ensures DigitsValue(Zeros(k) + d) == DigitsValue(d)
    decreases |d|
  {
    var z: seq<char> := Zeros(k);
    if d == [] {
      assert z + d == z;
      ZerosValue(k);
    } else {
      var s := z + d;
      assert s[..|s| - 1] == z + d[..|d| - 1];
      DigitsValueZeroPadded(k, d[..|d| - 1]);
    }
  }

  lemma {:induction false} ZerosValue(k: nat)
    ensures AllDigits(Zeros(k))
    ensures DigitsValue(Zeros(k)) == 0
  {
    if k > 0 {
      var z: seq<char> := Zeros(k);
      assert z[..k - 1] == Zeros(k - 1);
      ZerosValue(k - 1);
    }
  }

  // ---------------------------------------------------------------------------
  // Repack
  // ---------------------------------------------------------------------------

  /** A directory entry as the .wav enumeration reports it. */
  datatype DirEntry = DirEntry(name: seq<char>, isDirectory: bool, contents: seq<byte>)

  /** The files repack packs, in enumeration order: every match that is not a
      directory. */
  function WavFiles(listing: seq<DirEntry>): (ws: seq<seq<byte>>)
    ensures |ws| <= |listing|
    ensures forall e :: e in listing && !e.isDirectory ==> e.contents in ws
  {
    if listing == [] then []
    else if listing[0].isDirectory then WavFiles(listing[1..])
    else [listing[0].contents] + WavFiles(listing[1..])
  }

  /** The payload length a WAV declares: the u32 at offset 44. */
  function WavDataLen(w: seq<byte>): u32
    requires 48 <= |w|
  {
    Le32(w, 44)
  }

  /** The header length repack takes for a WAV: (chunkSize + 8) - dataLength,
      chunkSize being the RIFF size at offset 4. */
  function WavHeaderLen(w: seq<byte>): int
    requires 48 <= |w|
  {
    Le32(w, 4) + 8 - Le32(w, 44)
  }

  /** The WAV can be read as repack reads it: both size fields exist, the u32
      header length computation neither underflows nor overflows, and the
      header and the payload that follows it lie inside the file. */
  predicate WavInside(w: seq<byte>) {
    48 <= |w| && 0 <= WavHeaderLen(w) < U32_MOD && WavHeaderLen(w) + WavDataLen(w) <= |w|
  }

  predicate AllWavsInside(ws: seq<seq<byte>>) {
    forall k :: 0 <= k < |ws| ==> WavInside(ws[k])
  }

  /** A WAV as repack reads it: the headerBuf and the dataBuf. */
  datatype WavParts = WavParts(header: seq<byte>, data: seq<byte>)

  /** The first headerLen bytes of the WAV, then the dataLength bytes that
      follow them. */
  function Split(w: seq<byte>): (p: WavParts)
    requires WavInside(w)
    ensures |p.header| == WavHeaderLen(w) && |p.data| == WavDataLen(w)
    ensures p.header + p.data == w[..WavHeaderLen(w) + WavDataLen(w)]
  {
    var hl := WavHeaderLen(w);
    var p := WavParts(w[..hl], w[hl .. hl + WavDataLen(w)]);
    assert p.header + p.data == w[..hl + WavDataLen(w)];
    p
  }

  /** The parts of every WAV, in order. */
  function AllParts(ws: seq<seq<byte>>): (ps: seq<WavParts>)
    requires AllWavsInside(ws)
    ensures |ps| == |ws|
  {
    seq(|ws|, k requires 0 <= k < |ws| => Split(ws[k]))
  }

  /** The payload of each WAV, in order. */
  function Payloads(ps: seq<WavParts>): (ds: seq<seq<byte>>)
    ensures |ds| == |ps|
  {
    seq(|ps|, k requires 0 <= k < |ps| => ps[k].data)
  }

  /** The .xsb repack writes: the payloads back to back. */
  function Xsb(ps: seq<WavParts>): seq<byte> {
    Flatten(Payloads(ps))
  }

  /** What repack writes to the .xbb for WAV k: its header, then the offset of
      its payload in the .xsb (the size of all payloads before it) and the
      payload length, both as little-endian u32s. */
  ghost function EntryChunk(ps: seq<WavParts>, k: nat): seq<byte>
    requires k < |ps|
  {
    ps[k].header + Le32Bytes(|Flatten(Payloads(ps)[..k])| % U32_MOD) + Le32Bytes(|ps[k].data| % U32_MOD)
  }

  ghost function EntryChunks(ps: seq<WavParts>): (es: seq<seq<byte>>)
    ensures |es| == |ps|
  {
    seq(|ps|, k requires 0 <= k < |ps| => EntryChunk(ps, k))
  }

  /** The .xbb entries repack writes after the 8-byte file header. */
  ghost function Entries(ps: seq<WavParts>): seq<byte> {
    Flatten(EntryChunks(ps))
  }

  /** The sum of the payload lengths, counted from the front. */
  function SumDataLen(ps: seq<WavParts>): nat {
    if ps == [] then 0 else |ps[0].data| + SumDataLen(ps[1..])
  }

  /** The sum of header lengths plus 8 per descriptor, counted from the front. */
  function SumEntrySize(ps: seq<WavParts>): nat {
    if ps == [] then 0 else |ps[0].header| + 8 + SumEntrySize(ps[1..])
  }

  lemma {:induction false} SumDataLenSnoc(ps: seq<WavParts>)
    requires ps != []
    ensures SumDataLen(ps) == SumDataLen(ps[..|ps| - 1]) + |ps[|ps| - 1].data|
  {
    if |ps| > 1 {
      assert ps[1..][..|ps[1..]| - 1] == ps[..|ps| - 1][1..];
      SumDataLenSnoc(ps[1..]);
    }
  }

  lemma {:induction false} SumEntrySizeSnoc(ps: seq<WavParts>)
    requires ps != []
    ensures SumEntrySize(ps) == SumEntrySize(ps[..|ps| - 1]) + |ps[|ps| - 1].header| + 8
  {
    if |ps| > 1 {
      assert ps[1..][..|ps[1..]| - 1] == ps[..|ps| - 1][1..];
      SumEntrySizeSnoc(ps[1..]);
    }
  }

  /** Strings as long as the payloads write out to SumDataLen bytes. */
  lemma {:induction false} DataLens(ss: seq<seq<byte>>, ps: seq<WavParts>)
    requires |ss| == |ps| && forall k :: 0 <= k < |ss| ==> |ss[k]| == |ps[k].data|
    ensures |Flatten(ss)| == SumDataLen(ps)
  {
    if ss != [] {
      DataLens(ss[..|ss| - 1], ps[..|ps| - 1]);
      SumDataLenSnoc(ps);
    }
  }

  /** Strings as long as the headers plus 8 write out to SumEntrySize bytes. */
  lemma {:induction false} EntryLens(ss: seq<seq<byte>>, ps: seq<WavParts>)
    requires |ss| == |ps| && forall k :: 0 <= k < |ss| ==> |ss[k]| == |ps[k].header| + 8
    ensures |Flatten(ss)| == SumEntrySize(ps)
  {
    if ss != [] {
      EntryLens(ss[..|ss| - 1], ps[..|ps| - 1]);
      SumEntrySizeSnoc(ps);
    }
  }

  /** The .xsb is as long as all payloads together, and the payloads of the
      first i WAVs take SumDataLen(ps[..i]) bytes of it. */
  lemma XsbSize(ps: seq<WavParts>, i: nat)
    requires i <= |ps|
    ensures |Flatten(Payloads(ps)[..i])| == SumDataLen(ps[..i]) <= |Xsb(ps)| == SumDataLen(ps)
  {
    DataLens(Payloads(ps)[..i], ps[..i]);
    DataLens(Payloads(ps), ps);
    FlattenGrows(Payloads(ps), i, |ps|);
    assert Payloads(ps)[..|ps|] == Payloads(ps);
  }

  /** The entries are as long as all headers plus 8 bytes per entry, and the
      first i entries take SumEntrySize(ps[..i]) bytes. */
  lemma EntriesSize(ps: seq<WavParts>, i: nat)
    requires i <= |ps|
    ensures |Flatten(EntryChunks(ps)[..i])| == SumEntrySize(ps[..i]) <= |Entries(ps)| == SumEntrySize(ps)
  {
    EntryLens(EntryChunks(ps)[..i], ps[..i]);
    EntryLens(EntryChunks(ps), ps);
    FlattenGrows(EntryChunks(ps), i, |ps|);
    assert EntryChunks(ps)[..|ps|] == EntryChunks(ps);
  }

  /** Entry i of the .xbb entry area starts SumEntrySize(ps[..i]) bytes in,
      with the WAV's header followed by the descriptor: the offset of its
      payload in the .xsb, which is the sum of the payload lengths of entries
      0..i-1, and the payload length. */
  lemma EntryLayout(ps: seq<WavParts>, i: nat)
    requires i < |ps| && |Xsb(ps)| < U32_MOD
    ensures var e := SumEntrySize(ps[..i]);
            var h := ps[i].header;
            var x := Entries(ps);
            SumDataLen(ps[..i]) < U32_MOD && |ps[i].data| < U32_MOD &&
            e + |h| + 8 <= |x| && x[e .. e + |h|] == h &&
            x[e + |h| .. e + |h| + 4] == Le32Bytes(SumDataLen(ps[..i])) &&
            x[e + |h| + 4 .. e + |h| + 8] == Le32Bytes(|ps[i].data|)
  {
    EntryBytes(ps, i);
    ChunkBytes(Entries(ps), SumEntrySize(ps[..i]), ps[i].header, SumDataLen(ps[..i]), |ps[i].data|);
  }

  /** Entry i, the header and the two descriptor words, sits in the entry
      area SumEntrySize(ps[..i]) bytes in. */
  lemma EntryBytes(ps: seq<WavParts>, i: nat)
    requires i < |ps| && |Xsb(ps)| < U32_MOD
    ensures SumDataLen(ps[..i]) < U32_MOD && |ps[i].data| < U32_MOD
    ensures var e, h, x := SumEntrySize(ps[..i]), ps[i].header, Entries(ps);
            e + |h| + 8 <= |x| &&
            x[e .. e + |h| + 8] == h + Le32Bytes(SumDataLen(ps[..i])) + Le32Bytes(|ps[i].data|)
  {
    EntryChunkAt(ps, i);
    FlattenAt(EntryChunks(ps), i);
    EntriesSize(ps, i);
  }

  /** Without wrap-around, entry i is the header, the payload offset and the
      payload length. */
  lemma EntryChunkAt(ps: seq<WavParts>, i: nat)
    requires i < |ps| && |Xsb(ps)| < U32_MOD
    ensures SumDataLen(ps[..i]) < U32_MOD && |ps[i].data| < U32_MOD
    ensures EntryChunks(ps)[i] == ps[i].header + Le32Bytes(SumDataLen(ps[..i])) + Le32Bytes(|ps[i].data|)
  {
    XsbSize(ps, i);
    PayloadEnd(ps, i);
    ModOfSmall(SumDataLen(ps[..i]));
    ModOfSmall(|ps[i].data|);
  }

  /** The payloads up to and including entry i fit in the .xsb. */
  lemma PayloadEnd(ps: seq<WavParts>, i: nat)
    requires i < |ps|
    ensures SumDataLen(ps[..i]) + |ps[i].data| <= |Xsb(ps)|
  {
    XsbSize(ps, i + 1);
    SumDataLenSnoc(ps[..i + 1]);
    assert ps[..i + 1][..i] == ps[..i];
  }

  /** Where x holds h followed by two little-endian u32s at e, the three
      fields sit at e, e + |h| and e + |h| + 4. */
  lemma ChunkBytes(x: seq<byte>, e: nat, h: seq<byte>, off: u32, len: u32)
    requires e + |h| + 8 <= |x| && x[e .. e + |h| + 8] == h + Le32Bytes(off) + Le32Bytes(len)
    ensures x[e .. e + |h|] == h
    ensures x[e + |h| .. e + |h| + 4] == Le32Bytes(off)
    ensures x[e + |h| + 4 .. e + |h| + 8] == Le32Bytes(len)
  {
    var c := x[e .. e + |h| + 8];
    var a, b := Le32Bytes(off), Le32Bytes(len);
    assert c[..|h|] == h;
    assert c[|h| .. |h| + 4] == a;
    assert c[|h| + 4 ..] == b;
    assert forall k | e <= k < e + |h| + 8 :: x[k] == c[k - e];
  }

  /** The payload of entry i sits in the .xsb at the sum of the payload lengths
      of entries 0..i-1. */
  lemma PayloadLayout(ps: seq<WavParts>, i: nat)
    requires i < |ps|
    ensures var off := SumDataLen(ps[..i]);
            off + |ps[i].data| <= |Xsb(ps)| && Xsb(ps)[off .. off + |ps[i].data|] == ps[i].data
  {
    FlattenAt(Payloads(ps), i);
    XsbSize(ps, i);
  }

  lemma ModOfSmall(x: nat)
    requires x < U32_MOD
    ensures x % U32_MOD == x
  {
  }

  /** Parts repack can write without any u32 wrap-around: the count, every
      payload offset and the final size fit in a u32. */
  predicate PartsFit(ps: seq<WavParts>) {
    |ps| < U32_MOD && SumDataLen(ps) < U32_MOD && 8 + SumEntrySize(ps) < U32_MOD
  }

  /** WAV lists repack reads inside their bounds and writes without any u32
      wrap-around. */
  predicate RepackFits(ws: seq<seq<byte>>) {
    AllWavsInside(ws) && PartsFit(AllParts(ws))
  }

  /** The .xbb repack writes: the final size, the entry count, the entries. */
  ghost function XbbFile(ps: seq<WavParts>): (xbb: seq<byte>)
    requires PartsFit(ps)
    ensures |xbb| == 8 + SumEntrySize(ps)
  {
    EntriesSize(ps, 0);
    Le32Bytes(8 + SumEntrySize(ps)) + Le32Bytes(|ps|) + Entries(ps)
  }

  /** The .xbb and .xsb repack writes for a list of WAVs. */
  ghost function RepackXbb(ws: seq<seq<byte>>): seq<byte>
    requires RepackFits(ws)
  {
    XbbFile(AllParts(ws))
  }

  /** The 8-byte file header of a repacked .xbb: bytes 0..3 hold the file size
      8 + sum(headerLen + 8) and bytes 4..7 the number of entries. */
  lemma XbbFileHeader(ps: seq<WavParts>)
    requires PartsFit(ps)
    ensures Le32(XbbFile(ps), 0) == |XbbFile(ps)| == 8 + SumEntrySize(ps)
    ensures Le32(XbbFile(ps), 4) == |ps|
  {
    var x := XbbFile(ps);
    assert x[0..4] == Le32Bytes(8 + SumEntrySize(ps));
    assert x[4..8] == Le32Bytes(|ps|);
    Le32At(x, 0, 8 + SumEntrySize(ps));
    Le32At(x, 4, |ps|);
  }

  /** One iteration of DoRepack's loop, once the WAV is read: its header and
      descriptor are appended to the .xbb, its payload to the .xsb, and both
      running positions advance. */
  method AppendEntry(ghost ps: seq<WavParts>, i: nat, headerBuf: seq<byte>, dataBuf: seq<byte>,
                     headerLen: u32, dataLength: u32, xbb: seq<byte>, xsb: seq<byte>,
                     entryStart: u32, currentOffset: u32)
    returns (xbb': seq<byte>, xsb': seq<byte>, entryStart': u32, currentOffset': u32)
    requires PartsFit(ps) && i < |ps| && ps[i] == WavParts(headerBuf, dataBuf)
    requires headerLen == |headerBuf| && dataLength == |dataBuf|
    requires xsb == Flatten(Payloads(ps)[..i]) && currentOffset == |xsb|
    requires xbb == [0, 0, 0, 0] + Le32Bytes(|ps|) + Flatten(EntryChunks(ps)[..i]) && entryStart == |xbb|
    ensures xsb' == Flatten(Payloads(ps)[..i + 1]) && currentOffset' == |xsb'|
    ensures xbb' == [0, 0, 0, 0] + Le32Bytes(|ps|) + Flatten(EntryChunks(ps)[..i + 1]) && entryStart' == |xbb'|
  {
    var offsetBytes := Le32Encode(currentOffset);
    var lengthBytes := Le32Encode(dataLength);
    ModOfSmall(currentOffset);
    ModOfSmall(dataLength);
    assert EntryChunks(ps)[i] == headerBuf + offsetBytes + lengthBytes;
    FlattenSnoc(EntryChunks(ps), i);
    FlattenSnoc(Payloads(ps), i);
    EntriesSize(ps, i + 1);
    XsbSize(ps, i + 1);
    ghost var head := [0, 0, 0, 0] + Le32Bytes(|ps|);
    ghost var entries := Flatten(EntryChunks(ps)[..i]);
    xbb' := xbb + headerBuf + offsetBytes + lengthBytes;
    assert xbb' == head + (entries + (headerBuf + offsetBytes + lengthBytes)) by {
      AppendAssoc(head, entries, headerBuf, offsetBytes, lengthBytes);
    }
    entryStart' := entryStart + headerLen + 8;
    xsb' := xsb + dataBuf;
    currentOffset' := currentOffset + dataLength;
  }

  lemma SnocAssoc<T>(a: seq<T>, x: T, b: seq<T>)
    ensures a + [x] + b == a + ([x] + b)
  {
  }

  lemma AppendAssoc(a: seq<byte>, b: seq<byte>, c: seq<byte>, d: seq<byte>, e: seq<byte>)
    ensures a + b + c + d + e == a + (b + (c + d + e))
  {
  }

  /** DoRepack over the enumerated WAV files: writes a zero placeholder and the
      entry count, then for each WAV reads chunkSize and dataLength, takes
      headerLen = (chunkSize + 8) - dataLength, writes the header and the
      descriptor to the .xbb and the payload to the .xsb at the running offset,
      and finally seeks back to store the .xbb size in bytes 0..3. */
  method Repack(ws: seq<seq<byte>>) returns (xbb: seq<byte>, xsb: seq<byte>)
    requires RepackFits(ws)
    ensures xbb == RepackXbb(ws)
    ensures xsb == Xsb(AllParts(ws))
  {
    ghost var ps := AllParts(ws);
    var entryCount: u32 := |ws|;
    var countBytes := Le32Encode(entryCount);
    xbb := [0, 0, 0, 0] + countBytes;
    xsb := [];
    var entryStart: u32 := 8;
    var currentOffset: u32 := 0;
    var i: u32 := 0;
    while i < entryCount
      invariant i <= entryCount
      invariant xsb == Flatten(Payloads(ps)[..i]) && currentOffset == |xsb|
      invariant xbb == [0, 0, 0, 0] + Le32Bytes(entryCount) + Flatten(EntryChunks(ps)[..i]) && entryStart == |xbb|
    {
      var w := ws[i];
      var dataLength := WavDataLen(w);
      var headerLen: u32 := WavHeaderLen(w);
      var parts := Split(w);
      assert parts == ps[i];
      xbb, xsb, entryStart, currentOffset :=
        AppendEntry(ps, i, parts.header, parts.data, headerLen, dataLength, xbb, xsb, entryStart, currentOffset);
      i := i + 1;
    }
    assert Payloads(ps)[..i] == Payloads(ps) && EntryChunks(ps)[..i] == EntryChunks(ps);
    xbb := StoreFinalSize(ps, xbb, entryStart);
  }

  /** The seek back to offset 0 that overwrites the placeholder with the final
      .xbb size, entryStart. */
  method StoreFinalSize(ghost ps: seq<WavParts>, xbb: seq<byte>, entryStart: u32) returns (xbb': seq<byte>)
    requires PartsFit(ps)
    requires xbb == [0, 0, 0, 0] + Le32Bytes(|ps|) + Entries(ps) && entryStart == |xbb|
    ensures xbb' == XbbFile(ps)
  {
    var finalSize: u32 := entryStart;
    var sizeBytes := Le32Encode(finalSize);
    ghost var entries := Entries(ps);
    EntriesSize(ps, 0);
    assert xbb[4..] == Le32Bytes(|ps|) + entries;
    xbb' := sizeBytes + xbb[4..];
    AppendAssoc3(sizeBytes, Le32Bytes(|ps|), entries);
  }

  /** DoRepack on a folder: nothing is written when the enumeration finds no
      match; otherwise the non-directory matches are packed in enumeration
      order. */
  method RepackFolder(listing: seq<DirEntry>) returns (out: Option<(seq<byte>, seq<byte>)>)
    requires RepackFits(WavFiles(listing))
    ensures listing == [] ==> out == None
    ensures listing != [] ==> out == Some((RepackXbb(WavFiles(listing)), Xsb(AllParts(WavFiles(listing)))))
  {
    if listing == [] {
      return None;
    }
    var wavFiles := WavFiles(listing);
    var xbb, xsb := Repack(wavFiles);
    out := Some((xbb, xsb));
  }

  /** Extraction takes an entry's length from bytes 4..7 of its header, and repack
      stores the WAV's header unchanged, so a repacked entry's length field holds
      the WAV's RIFF size rather than its header length. */
  lemma RepackedLengthField(ws: seq<seq<byte>>)
    requires RepackFits(ws) && ws != []
    ensures 8 <= WavHeaderLen(ws[0]) ==> 16 <= |RepackXbb(ws)| && HeaderLen(RepackXbb(ws), 8) == Le32(ws[0], 4)
  {
    if 8 <= WavHeaderLen(ws[0]) {
      var ps := AllParts(ws);
      var x := RepackXbb(ws);
      var entries := Entries(ps);
      var h := ps[0].header;
      XsbSize(ps, 0);
      EntryLayout(ps, 0);
      assert ps[..0] == [];
      assert entries[4..8] == ws[0][4..8] by {
        assert h == ws[0][..WavHeaderLen(ws[0])];
        assert entries[4..8] == entries[0..|h|][4..8];
      }
      assert x[8..] == entries;
      assert x[12..16] == x[8..][4..8];
      Le32Same(x, 12, ws[0], 4);
    }
  }

  /** Two equal four-byte windows read as the same u32. */
  lemma Le32Same(s: seq<byte>, a: nat, t: seq<byte>, b: nat)
    requires a + 4 <= |s| && b + 4 <= |t| && s[a..a + 4] == t[b..b + 4]
    ensures Le32(s, a) == Le32(t, b)
  {
    assert s[a] == s[a..a + 4][0] && s[a + 1] == s[a..a + 4][1] && s[a + 2] == s[a..a + 4][2] && s[a + 3] == s[a..a + 4][3];
    assert t[b] == t[b..b + 4][0] && t[b + 1] == t[b..b + 4][1] && t[b + 2] == t[b..b + 4][2] && t[b + 3] == t[b..b + 4][3];
  }
}
