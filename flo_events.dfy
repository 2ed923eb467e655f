/** The event tables of a .flo file as the FLO event editor holds them: sound
    data files, simple events, random and compound events (lists of links to
    simple events), sound data bundles and the EventMap entries of the Pre and
    Pos sub-sections; the lookups that resolve an EventMap entry to the sound
    files it plays; the orderings of the event list; and the reading and
    writing of single table lines. */
module FloEvents {
  import opened Optional
  import opened Text

  // ---------------------------------------------------------------------------
  // Data
  // ---------------------------------------------------------------------------

  /** EventLinkType: Simple = 0, Random = 1, Compound = 2, Unknown = -1. */
  datatype LinkType = Simple | Random | Compound | Unknown

  function LinkTypeValue(t: LinkType): int {
    match t
    case Simple => 0
    case Random => 1
    case Compound => 2
    case Unknown => -1
  }

  /** The link type an EventMap line's second value stands for. */
  function LinkTypeOf(v: int): (t: LinkType)
    ensures t == Unknown <==> v != 0 && v != 1 && v != 2
    ensures t != Unknown ==> LinkTypeValue(t) == v
  {
    if v == 0 then Simple else if v == 1 then Random else if v == 2 then Compound else Unknown
  }

  /** Every link type but Unknown is read back from its own value. */
  lemma LinkTypeRoundTrip(t: LinkType)
    ensures t != Unknown ==> LinkTypeOf(LinkTypeValue(t)) == t
    ensures LinkTypeOf(LinkTypeValue(Unknown)) == Unknown
  {
  }

  /** One link line of a random or compound event. */
  datatype EventLink = EventLink(param1: int, simpleEventId: int)

  /** A RandomEvent or a CompoundEvent: an id and its links. */
  datatype ComplexEvent = ComplexEvent(id: int, links: seq<EventLink>)

  datatype SoundDataFile = SoundDataFile(id: int, typeChar: seq<char>, filename: seq<char>, isNewlyAdded: bool)

  datatype SimpleEvent = SimpleEvent(id: int, soundDataFileId: int, kind: int, linkedEventId: int, isNewlyAdded: bool)

  datatype SoundDataBundle = SoundDataBundle(id: int, kind: seq<char>, path: seq<char>)

  /** An EventMap entry of the Pre or Pos sub-section, with the file names it
      resolves to. */
  datatype SoundEvent = SoundEvent(eventId: int, linkTypeVal: int, linkedId: int, eventName: seq<char>,
                                   section: seq<char>, linkType: LinkType, filenames: seq<seq<char>>,
                                   isNewlyAdded: bool)

  /** The tables an EventMap entry is resolved against. */
  datatype Tables = Tables(soundDataFiles: seq<SoundDataFile>, simpleEvents: seq<SimpleEvent>,
                           randomEvents: seq<ComplexEvent>, compoundEvents: seq<ComplexEvent>)

  // ---------------------------------------------------------------------------
  // Lookups
  // ---------------------------------------------------------------------------

  /** The index of the first element whose id is `id`. */
  function FirstWithId<T>(xs: seq<T>, key: T -> int, id: int): (r: Option<nat>)
    ensures r.None? ==> forall k :: 0 <= k < |xs| ==> key(xs[k]) != id
    ensures r.Some? ==> r.value < |xs| && key(xs[r.value]) == id &&
                        forall k :: 0 <= k < r.value ==> key(xs[k]) != id
  {
    if xs == [] then None
    else if key(xs[0]) == id then Some(0)
    else match FirstWithId(xs[1..], key, id)
      case None => None
      case Some(i) => Some(i + 1)
  }

  /** FindSdfFilename: the file name of the first sound data file with the id,
      or the empty string when there is none. */
  function FindSdfFilename(sdfs: seq<SoundDataFile>, id: int): (name: seq<char>)
    ensures (forall k :: 0 <= k < |sdfs| ==> sdfs[k].id != id) ==> name == []
    ensures forall k :: 0 <= k < |sdfs| && sdfs[k].id == id && (forall j :: 0 <= j < k ==> sdfs[j].id != id) ==>
              name == sdfs[k].filename
  {
    match FirstWithId(sdfs, (s: SoundDataFile) => s.id, id)
    case None => []
    case Some(k) => sdfs[k].filename
  }

  /** FindSimpleEvent: the first simple event with the id, or None (nullptr). */
  function FindSimpleEvent(ses: seq<SimpleEvent>, id: int): (r: Option<SimpleEvent>)
    ensures r.None? <==> forall k :: 0 <= k < |ses| ==> ses[k].id != id
    ensures forall k :: 0 <= k < |ses| && ses[k].id == id && (forall j :: 0 <= j < k ==> ses[j].id != id) ==>
              r == Some(ses[k])
  {
    match FirstWithId(ses, (s: SimpleEvent) => s.id, id)
    case None => None
    case Some(k) => Some(ses[k])
  }

  /** The first random or compound event with the id. */
  function FindComplex(es: seq<ComplexEvent>, id: int): (r: Option<ComplexEvent>)
    ensures r.None? <==> forall k :: 0 <= k < |es| ==> es[k].id != id
    ensures forall k :: 0 <= k < |es| && es[k].id == id && (forall j :: 0 <= j < k ==> es[j].id != id) ==>
              r == Some(es[k])
  {
    match FirstWithId(es, (e: ComplexEvent) => e.id, id)
    case None => None
    case Some(k) => Some(es[k])
  }

  function LinkIds(links: seq<EventLink>): (ids: seq<int>)
    ensures |ids| == |links| && forall k :: 0 <= k < |links| ==> ids[k] == links[k].simpleEventId
  {
    seq(|links|, k requires 0 <= k < |links| => links[k].simpleEventId)
  }

  /** The simple event ids GetSoundFilenamesForEventMap looks up: the linked id
      itself for a Simple link, the links of the first random (compound) event
      with the linked id for a Random (Compound) link, none when there is no
      such event or the link type is Unknown. */
  function CollectedIds(e: SoundEvent, t: Tables): seq<int> {
    match e.linkType
    case Simple => [e.linkedId]
    case Random => (match FindComplex(t.randomEvents, e.linkedId) case Some(c) => LinkIds(c.links) case None => [])
    case Compound => (match FindComplex(t.compoundEvents, e.linkedId) case Some(c) => LinkIds(c.links) case None => [])
    case Unknown => []
  }

  /** For a Random or Compound link the collected ids are exactly the links of
      the first event of that kind whose id is the linked id, and none when no
      event has it. */
  lemma CollectedIdsOfComplex(e: SoundEvent, t: Tables, k: nat)
    requires e.linkType == Random || e.linkType == Compound
    ensures var es := if e.linkType == Random then t.randomEvents else t.compoundEvents;
            ((forall j :: 0 <= j < |es| ==> es[j].id != e.linkedId) ==> CollectedIds(e, t) == []) &&
            (k < |es| && es[k].id == e.linkedId && (forall j :: 0 <= j < k ==> es[j].id != e.linkedId) ==>
               CollectedIds(e, t) == LinkIds(es[k].links))
  {
  }

  /** The text shown for one collected simple event id: the file name of its
      sound data file, or a note saying which link is broken. */
  function FilenameForId(seId: int, t: Tables): (name: seq<char>)
    ensures name != []
  {
    match FindSimpleEvent(t.simpleEvents, seId)
    case None => "N/A (SimpleEvent Link Invalid: ID " + IntToDecimal(seId) + ")"
    case Some(se) =>
      var f := FindSdfFilename(t.soundDataFiles, se.soundDataFileId);
      if f == [] then "N/A (SDF Invalid: ID " + IntToDecimal(se.soundDataFileId) + ")" else f
  }

  /** GetSoundFilenamesForEventMap: one text per collected simple event id, in
      order; a single note when the link type is Unknown or nothing was
      collected. */
  function GetSoundFilenamesForEventMap(e: SoundEvent, t: Tables): (names: seq<seq<char>>)
  {
    if e.linkType == Unknown then ["N/A (Unknown Link Type)"]
    else
      var ids := CollectedIds(e, t);
      if ids == [] then
        [if e.linkType == Simple then "N/A (SimpleEvent Missing?)" else "N/A (Complex Link Target Invalid/Empty)"]
      else
        var names := seq(|ids|, k requires 0 <= k < |ids| => FilenameForId(ids[k], t));
        if names == [] then ["N/A (All Links Invalid?)"] else names
  }

  /** The result is never empty; an Unknown link gives exactly the one note;
      otherwise, when ids were collected, there is one entry per id, in order,
      and the entry for a simple event whose sound data file has a name is
      that name. */
  lemma SoundFilenamesShape(e: SoundEvent, t: Tables)
    ensures var names := GetSoundFilenamesForEventMap(e, t);
            names != [] &&
            (e.linkType == Unknown ==> names == ["N/A (Unknown Link Type)"]) &&
            (e.linkType != Unknown && CollectedIds(e, t) != [] ==>
               |names| == |CollectedIds(e, t)| &&
               forall k :: 0 <= k < |names| ==> names[k] == FilenameForId(CollectedIds(e, t)[k], t))
  {
  }

  /** A Simple link always yields exactly one entry: the file name behind the
      linked simple event when both lookups succeed and the name is not empty. */
  lemma SimpleLinkFilename(e: SoundEvent, t: Tables, se: SimpleEvent)
    requires e.linkType == Simple && FindSimpleEvent(t.simpleEvents, e.linkedId) == Some(se)
    requires FindSdfFilename(t.soundDataFiles, se.soundDataFileId) != []
    ensures GetSoundFilenamesForEventMap(e, t) == [FindSdfFilename(t.soundDataFiles, se.soundDataFileId)]
  {
    var ids := CollectedIds(e, t);
    assert ids == [e.linkedId];
    var names := seq(|ids|, k requires 0 <= k < |ids| => FilenameForId(ids[k], t));
    assert names[0] == FilenameForId(e.linkedId, t);
  }

  /** Whether t occurs in s (s.find(t) != npos). */
  predicate Contains(s: seq<char>, t: seq<char>) {
    exists i :: 0 <= i <= |s| - |t| && OccursAt(s, t, i)
  }

  predicate OccursAt(s: seq<char>, t: seq<char>, i: int) {
    0 <= i <= |s| - |t| && s[i .. i + |t|] == t
  }

  // ---------------------------------------------------------------------------
  // Orderings
  // ---------------------------------------------------------------------------

  /** The comparator of the stable sort at the end of ParseFloFile: Pre before
      Pos, otherwise by event id. */
  predicate LoadLess(a: SoundEvent, b: SoundEvent) {
    if a.section == "Pre" && b.section == "Pos" then true
    else if a.section == "Pos" && b.section == "Pre" then false
    else a.eventId < b.eventId
  }

  predicate PreOrPos(e: SoundEvent) {
    e.section == "Pre" || e.section == "Pos"
  }

  function SectionRank(e: SoundEvent): int {
    if e.section == "Pre" then 0 else 1
  }

  /** On Pre and Pos entries the comparator is the lexicographic order of
      (section, event id), a strict weak order. */
  lemma LoadLessIsKeyOrder(a: SoundEvent, b: SoundEvent)
    requires PreOrPos(a) && PreOrPos(b)
    ensures LoadLess(a, b) <==>
            SectionRank(a) < SectionRank(b) || (SectionRank(a) == SectionRank(b) && a.eventId < b.eventId)
  {
  }

  /** Insert x before the first element it is strictly less than: after the
      elements it ties with, which keeps a sort built from it stable. */
  function InsertBy(x: SoundEvent, s: seq<SoundEvent>, less: (SoundEvent, SoundEvent) -> bool): (r: seq<SoundEvent>)
    ensures |r| == |s| + 1 && multiset(r) == multiset(s) + multiset{x}
  {
    if s == [] then [x]
    else if less(x, s[0]) then [x] + s
    else
      assert s == [s[0]] + s[1..];
      [s[0]] + InsertBy(x, s[1..], less)
  }

  /** A stable insertion sort under the comparator `less`. */
  function SortBy(s: seq<SoundEvent>, less: (SoundEvent, SoundEvent) -> bool): (r: seq<SoundEvent>)
    ensures |r| == |s| && multiset(r) == multiset(s)
  {
    if s == [] then []
    else
      assert s == s[..|s| - 1] + [s[|s| - 1]];
      InsertBy(s[|s| - 1], SortBy(s[..|s| - 1], less), less)
  }

  /** No element is less, under `less`, than one before it. */
  predicate SortedBy(s: seq<SoundEvent>, less: (SoundEvent, SoundEvent) -> bool) {
    forall i, j :: 0 <= i < j < |s| ==> !less(s[j], s[i])
  }

  predicate AllPreOrPos(s: seq<SoundEvent>) {
    forall k :: 0 <= k < |s| ==> PreOrPos(s[k])
  }

  /** `less` is a strict order on Pre and Pos entries: irreflexive and
      transitive. */
  ghost predicate StrictOnPrePos(less: (SoundEvent, SoundEvent) -> bool) {
    (forall a :: PreOrPos(a) ==> !less(a, a)) &&
    (forall a, b, c :: PreOrPos(a) && PreOrPos(b) && PreOrPos(c) && less(a, b) && less(b, c) ==> less(a, c))
  }

  /** The elements of InsertBy(x, s) are x and the elements of s. */
  lemma InsertMembers(x: SoundEvent, s: seq<SoundEvent>, less: (SoundEvent, SoundEvent) -> bool, e: SoundEvent)
    ensures e in InsertBy(x, s, less) <==> e == x || e in s
  {
    var r := InsertBy(x, s, less);
    assert e in r <==> e in multiset(r);
    assert e in s <==> e in multiset(s);
  }

  /** A permutation of Pre and Pos entries holds only Pre and Pos entries. */
  lemma AllPreOrPosOfPerm(a: seq<SoundEvent>, b: seq<SoundEvent>)
    requires multiset(a) == multiset(b) && AllPreOrPos(b)
    ensures AllPreOrPos(a)
  {
    forall k | 0 <= k < |a| ensures PreOrPos(a[k]) {
      assert a[k] in multiset(b);
      var m :| 0 <= m < |b| && b[m] == a[k];
    }
  }

  /** Inserting into a sorted list of Pre and Pos entries under a strict order
      keeps it sorted. */
  lemma {:induction false} InsertBySorted(x: SoundEvent, s: seq<SoundEvent>, less: (SoundEvent, SoundEvent) -> bool)
    requires StrictOnPrePos(less) && PreOrPos(x) && AllPreOrPos(s) && SortedBy(s, less)
    ensures SortedBy(InsertBy(x, s, less), less)
  {
    var r := InsertBy(x, s, less);
    if s == [] {
    } else if less(x, s[0]) {
      assert r == [x] + s;
      forall j | 0 < j < |r| ensures !less(r[j], x) {
        assert r[j] == s[j - 1] && PreOrPos(s[j - 1]);
        if j > 1 {
          assert !less(s[j - 1], s[0]);
        }
      }
    } else {
      InsertBySorted(x, s[1..], less);
      var t := InsertBy(x, s[1..], less);
      assert r == [s[0]] + t;
      forall j | 0 <= j < |t| ensures !less(t[j], s[0]) {
        InsertMembers(x, s[1..], less, t[j]);
        if t[j] != x {
          var m :| 0 <= m < |s[1..]| && s[1..][m] == t[j];
          assert s[m + 1] == t[j];
        }
      }
    }
  }

  /** Sorting Pre and Pos entries under a strict order leaves no entry less than
      one before it. */
  lemma {:induction false} SortBySorted(s: seq<SoundEvent>, less: (SoundEvent, SoundEvent) -> bool)
    requires StrictOnPrePos(less) && AllPreOrPos(s)
    ensures SortedBy(SortBy(s, less), less) && AllPreOrPos(SortBy(s, less))
  {
    AllPreOrPosOfPerm(SortBy(s, less), s);
    if s != [] {
      var init := s[..|s| - 1];
      SortBySorted(init, less);
      AllPreOrPosOfPerm(SortBy(init, less), init);
      InsertBySorted(s[|s| - 1], SortBy(init, less), less);
    }
  }

  /** The load comparator is a strict order on Pre and Pos entries. */
  lemma LoadLessStrict()
    ensures StrictOnPrePos(LoadLess)
  {
    forall a, b, c | PreOrPos(a) && PreOrPos(b) && PreOrPos(c) && LoadLess(a, b) && LoadLess(b, c)
      ensures LoadLess(a, c)
    {
      LoadLessIsKeyOrder(a, b);
      LoadLessIsKeyOrder(b, c);
      LoadLessIsKeyOrder(a, c);
    }
  }

  /** The sort at the end of ParseFloFile orders Pre and Pos entries by the
      comparator and keeps every entry. */
  lemma LoadSortSorted(s: seq<SoundEvent>)
    requires AllPreOrPos(s)
    ensures SortedBy(SortBy(s, LoadLess), LoadLess) && AllPreOrPos(SortBy(s, LoadLess))
  {
    LoadLessStrict();
    SortBySorted(s, LoadLess);
  }

  /** After the load sort every Pre entry precedes every Pos entry, and entries
      of the same section are in event id order. */
  lemma LoadSortOrder(s: seq<SoundEvent>)
    requires AllPreOrPos(s)
    ensures var r := SortBy(s, LoadLess);
            multiset(r) == multiset(s) &&
            forall i, j :: 0 <= i < j < |r| ==>
              (r[j].section == "Pre" ==> r[i].section == "Pre") &&
              (r[i].section == r[j].section ==> r[i].eventId <= r[j].eventId)
  {
    var r := SortBy(s, LoadLess);
    LoadSortSorted(s);
    forall i, j | 0 <= i < j < |r|
      ensures (r[j].section == "Pre" ==> r[i].section == "Pre") &&
              (r[i].section == r[j].section ==> r[i].eventId <= r[j].eventId)
    {
      LoadLessIsKeyOrder(r[j], r[i]);
    }
  }

  /** The comparator of SortEvents for list column `column` (0 event id, 1 link
      type, 2 linked id, 3 name, 4 first file name, 5 section); `icmp` is the
      case-insensitive wide-string comparison _wcsicmp. */
  predicate SortLess(column: int, ascending: bool, icmp: (seq<char>, seq<char>) -> int,
                     a: SoundEvent, b: SoundEvent)
  {
    if column != 5 && a.section == "Pre" && b.section == "Pos" then true
    else if column != 5 && a.section == "Pos" && b.section == "Pre" then false
    else
      var c := ColumnCompare(column, icmp, a, b);
      if ascending then c < 0 else c > 0
  }

  /** The three-way comparison of one column. */
  function ColumnCompare(column: int, icmp: (seq<char>, seq<char>) -> int, a: SoundEvent, b: SoundEvent): int {
    if column == 0 then Compare(a.eventId, b.eventId)
    else if column == 1 then Compare(a.linkTypeVal, b.linkTypeVal)
    else if column == 2 then Compare(a.linkedId, b.linkedId)
    else if column == 3 then icmp(a.eventName, b.eventName)
    else if column == 4 then icmp(FirstOrEmpty(a.filenames), FirstOrEmpty(b.filenames))
    else if column == 5 then
      var c := StringCompare(a.section, b.section);
      if c == 0 then Compare(a.eventId, b.eventId) else c
    else 0
  }

  function Compare(x: int, y: int): (c: int)
    ensures c < 0 <==> x < y
    ensures c > 0 <==> x > y
  {
    if x < y then -1 else if x > y then 1 else 0
  }

  function FirstOrEmpty(names: seq<seq<char>>): seq<char> {
    if names == [] then [] else names[0]
  }

  /** std::wstring::compare: lexicographic by code unit, a proper prefix first. */
  function StringCompare(a: seq<char>, b: seq<char>): (c: int)
    ensures c == 0 <==> a == b
  {
    if a == [] && b == [] then 0
    else if a == [] then -1
    else if b == [] then 1
    else if a[0] < b[0] then -1
    else if a[0] > b[0] then 1
    else
      var c := StringCompare(a[1..], b[1..]);
      assert a == [a[0]] + a[1..] && b == [b[0]] + b[1..];
      c
  }

  /** `a` comes first in the lexicographic order by code unit: it is a proper
      prefix of `b`, or the first position where they differ holds a smaller
      unit in `a`. */
  predicate LexBefore(a: seq<char>, b: seq<char>) {
    (|a| < |b| && a == b[..|a|]) ||
    exists k :: 0 <= k < |a| && k < |b| && a[..k] == b[..k] && a[k] < b[k]
  }

  /** The comparison is negative exactly when `a` comes lexicographically first. */
  lemma {:induction false} StringCompareLex(a: seq<char>, b: seq<char>)
    ensures StringCompare(a, b) < 0 <==> LexBefore(a, b)
    decreases |a|
  {
    if a == [] || b == [] {
    } else if a[0] < b[0] {
      assert a[..0] == b[..0];
    } else if a[0] > b[0] {
      assert |a| < |b| ==> b[..|a|][0] == b[0];
      forall k | 0 < k <= |a| && k <= |b| ensures a[..k] != b[..k] {
        assert a[..k][0] == a[0] && b[..k][0] == b[0];
      }
    } else {
      StringCompareLex(a[1..], b[1..]);
      LexBeforeTail(a, b);
    }
  }

  /** Behind a common first unit the order is that of the rests. */
  lemma LexBeforeTail(a: seq<char>, b: seq<char>)
    requires a != [] && b != [] && a[0] == b[0]
    ensures LexBefore(a, b) <==> LexBefore(a[1..], b[1..])
  {
    var a', b' := a[1..], b[1..];
    if LexBefore(a', b') {
      if |a'| < |b'| && a' == b'[..|a'|] {
        assert a == [a[0]] + a' && b[..|a|] == [b[0]] + b'[..|a'|];
      } else {
        var k :| 0 <= k < |a'| && k < |b'| && a'[..k] == b'[..k] && a'[k] < b'[k];
        assert a[..k + 1] == [a[0]] + a'[..k] && b[..k + 1] == [b[0]] + b'[..k];
        assert a[k + 1] == a'[k] && b[k + 1] == b'[k];
      }
    }
    if LexBefore(a, b) {
      if |a| < |b| && a == b[..|a|] {
        assert a' == b'[..|a'|];
      } else {
        var k :| 0 <= k < |a| && k < |b| && a[..k] == b[..k] && a[k] < b[k];
        assert k != 0;
        assert a'[..k - 1] == a[..k][1..] && b'[..k - 1] == b[..k][1..];
        assert a'[k - 1] == a[k] && b'[k - 1] == b[k];
      }
    }
  }

  /** Swapping the arguments flips the sign of the comparison. */
  lemma {:induction false} StringCompareAntisym(a: seq<char>, b: seq<char>)
    ensures StringCompare(a, b) == -StringCompare(b, a)
    decreases |a|
  {
    if a != [] && b != [] && a[0] == b[0] {
      StringCompareAntisym(a[1..], b[1..]);
    }
  }

  /** Sorting by any column but Section, whatever the direction, puts a Pre
      entry before a Pos entry and never the other way round. */
  lemma PreBeforePos(column: int, ascending: bool, icmp: (seq<char>, seq<char>) -> int, a: SoundEvent, b: SoundEvent)
    requires column != 5 && a.section == "Pre" && b.section == "Pos"
    ensures SortLess(column, ascending, icmp, a, b) && !SortLess(column, ascending, icmp, b, a)
  {
  }

  // ---------------------------------------------------------------------------
  // Table lines
  // ---------------------------------------------------------------------------

  /** "id, type, path": the three tokens read with getline up to ',', ',' and
      the end of the line, each trimmed. */
  function ParseBundleLine(line: seq<char>): SoundDataBundle {
    var toks := GetlineSeries(line, [',', ',', '\n']);
    SoundDataBundle(Wtoi(Trim(toks[0])), Trim(toks[1]), Trim(toks[2]))
  }

  function ParseSoundDataFileLine(line: seq<char>): SoundDataFile {
    var toks := GetlineSeries(line, [',', ',', '\n']);
    SoundDataFile(Wtoi(Trim(toks[0])), Trim(toks[1]), Trim(toks[2]), false)
  }

  /** "id, sound data file id, type, linked event id", four getline calls up to ','. */
  function ParseSimpleEventLine(line: seq<char>): SimpleEvent {
    var toks := GetlineSeries(line, [',', ',', ',', ',']);
    SimpleEvent(Wtoi(Trim(toks[0])), Wtoi(Trim(toks[1])), Wtoi(Trim(toks[2])), Wtoi(Trim(toks[3])), false)
  }

  /** A link line: the first two comma-separated values; the rest is ignored. */
  function ParseLinkLine(line: seq<char>): EventLink {
    var toks := GetlineSeries(line, [',', ',']);
    EventLink(Wtoi(Trim(toks[0])), Wtoi(Trim(toks[1])))
  }

  /** The header line of a random or compound event: its id and link count. */
  function ParseComplexHeader(line: seq<char>): (int, int) {
    var toks := GetlineSeries(line, [',', ',']);
    (Wtoi(Trim(toks[0])), Wtoi(Trim(toks[1])))
  }

  /** An EventMap line "id, link type, linked id, name" of the sub-section
      `section`, with the link type resolved and no file names yet. */
  function ParseEventMapLine(line: seq<char>, section: seq<char>): (e: SoundEvent)
    ensures e.section == section && e.linkType == LinkTypeOf(e.linkTypeVal)
    ensures e.filenames == [] && !e.isNewlyAdded
  {
    var toks := GetlineSeries(line, [',', ',', ',', '\n']);
    var ltv := Wtoi(Trim(toks[1]));
    SoundEvent(Wtoi(Trim(toks[0])), ltv, Wtoi(Trim(toks[2])), Trim(toks[3]), section, LinkTypeOf(ltv), [], false)
  }

  /** SerializeSimpleEventLine: "%d,\t%d, %d, %d\r\n". */
  function SerializeSimpleEventLine(id: int, soundFileId: int, kind: int, linkedEventId: int): seq<char> {
    IntToDecimal(id) + ",\t" + IntToDecimal(soundFileId) + ", " + IntToDecimal(kind) + ", " +
    IntToDecimal(linkedEventId) + "\r\n"
  }

  /** A comma-free field that reads as the value v. */
  predicate ReadsAs(field: seq<char>, v: int) {
    field != [] && ',' !in field && Wtoi(Trim(field)) == v
  }

  /** A decimal behind a blank is a field that reads as its value. */
  lemma DecimalField(pad: seq<char>, n: int)
    requires AllTrimSpace(pad) && ',' !in pad && INT_MIN <= n <= INT_MAX
    ensures ReadsAs(pad + IntToDecimal(n), n)
  {
    DecimalHasNoTrimSpace(n);
    PaddedDecimal(pad, n);
  }

  /** Four fields joined by commas read as a simple event of their values. */
  lemma ParseSimpleEventOfFields(a: seq<char>, b: seq<char>, c: seq<char>, d: seq<char>,
                                 id: int, soundFileId: int, kind: int, linkedEventId: int)
    requires ReadsAs(a, id) && ReadsAs(b, soundFileId) && ReadsAs(c, kind) && ReadsAs(d, linkedEventId)
    ensures ParseSimpleEventLine(Joined([a, b, c, d], ",,,,"))
         == SimpleEvent(id, soundFileId, kind, linkedEventId, false)
  {
    var fs, ds := [a, b, c, d], ",,,,";
    forall k | 0 <= k < |fs| ensures ds[k] !in fs[k] {
      assert ds[k] == ',' && (fs[k] == a || fs[k] == b || fs[k] == c || fs[k] == d);
    }
    GetlineSeriesOfJoined(fs, ds, []);
    var toks := GetlineSeries(Joined(fs, ds), ds);
    assert toks[0] == a && toks[1] == b && toks[2] == c && toks[3] == d;
  }

  /** A serialised simple event line ends in CRLF, and reading the line back
      (as getline delivers it, without the line end) gives the same values. */
  lemma SimpleEventLineRoundTrip(id: int, soundFileId: int, kind: int, linkedEventId: int)
    requires INT_MIN <= id <= INT_MAX && INT_MIN <= soundFileId <= INT_MAX
    requires INT_MIN <= kind <= INT_MAX && INT_MIN <= linkedEventId <= INT_MAX
    ensures var line := SerializeSimpleEventLine(id, soundFileId, kind, linkedEventId);
            |line| >= 2 && line[|line| - 2..] == "\r\n" &&
            ParseSimpleEventLine(line[..|line| - 2]) == SimpleEvent(id, soundFileId, kind, linkedEventId, false)
  {
    DecimalFieldBare(id);
    DecimalFieldAfter('\t', soundFileId);
    DecimalFieldAfter(' ', kind);
    DecimalFieldAfter(' ', linkedEventId);
    SimpleEventLineOfFields(IntToDecimal(id), IntToDecimal(soundFileId), IntToDecimal(kind), IntToDecimal(linkedEventId),
                            id, soundFileId, kind, linkedEventId);
  }

  lemma DecimalFieldBare(n: int)
    requires INT_MIN <= n <= INT_MAX
    ensures ReadsAs(IntToDecimal(n), n)
  {
    DecimalField([], n);
    assert [] + IntToDecimal(n) == IntToDecimal(n);
  }

  lemma DecimalFieldAfter(blank: char, n: int)
    requires (blank == ' ' || blank == '\t') && INT_MIN <= n <= INT_MAX
    ensures ReadsAs([blank] + IntToDecimal(n), n)
  {
    DecimalField([blank], n);
  }

  lemma SimpleEventLineOfFields(a: seq<char>, b: seq<char>, c: seq<char>, d: seq<char>,
                                id: int, soundFileId: int, kind: int, linkedEventId: int)
    requires ReadsAs(a, id) && ReadsAs("\t" + b, soundFileId) && ReadsAs(" " + c, kind) && ReadsAs(" " + d, linkedEventId)
    ensures var line := a + ",\t" + b + ", " + c + ", " + d + "\r\n";
            |line| >= 2 && line[|line| - 2..] == "\r\n" &&
            ParseSimpleEventLine(line[..|line| - 2]) == SimpleEvent(id, soundFileId, kind, linkedEventId, false)
  {
    LineRegroup(a, b, c, d);
    ParseSimpleEventOfFields(a, "\t" + b, " " + c, " " + d, id, soundFileId, kind, linkedEventId);
  }

  /** The layout of a simple event line: four comma-separated fields and CRLF. */
  lemma LineRegroup(a: seq<char>, b: seq<char>, c: seq<char>, d: seq<char>)
    ensures var line := a + ",\t" + b + ", " + c + ", " + d + "\r\n";
            var body := Joined([a, "\t" + b, " " + c, " " + d], ",,,,");
            line == body + "\r\n" && line[..|line| - 2] == body && line[|line| - 2..] == "\r\n"
  {
    var fs, ds := [a, "\t" + b, " " + c, " " + d], ",,,,";
    assert fs[1..][1..][1..] == [" " + d] && ds[1..][1..][1..] == ",";
    assert Joined(fs[1..][1..], ds[1..][1..]) == " " + c + [','] + (" " + d);
    assert Joined(fs[1..], ds[1..]) == "\t" + b + [','] + (" " + c + [','] + (" " + d));
    var body := Joined(fs, ds);
    assert body == a + [','] + ("\t" + b + [','] + (" " + c + [','] + (" " + d)));
    var line := a + ",\t" + b + ", " + c + ", " + d + "\r\n";
    assert line == body + "\r\n";
  }
}
