/** The state of the FLO event editor: the tables of the loaded .flo file, the
    EventMap list shown to the user, the counters shown beside it and the
    current sort column; loading a file, sorting the list, adding an EventMap
    entry and adding a sound data file with its simple event. */
module FloEditor {
  import opened Optional
  import opened Text
  import opened FloEvents
  import opened FloParse

  // ---------------------------------------------------------------------------
  // Loading
  // ---------------------------------------------------------------------------

  /** The tables ParseFloFile fills from the lines of a file. */
  function LoadedTables(lines: seq<seq<char>>): Tables {
    Tables(CountedSection(lines, "SoundDataFiles", ParseSoundDataFileLine).0,
           CountedSection(lines, "SimpleEvents", ParseSimpleEventLine).0,
           ComplexSection(lines, "RandomEvents").0,
           ComplexSection(lines, "CompoundEvents").0)
  }

  /** The Pre and Pos entries found after the EventMaps line at `maps`, in
      file order. */
  function MapEntries(lines: seq<seq<char>>, maps: nat): seq<SoundEvent> {
    SubSection(lines, maps, "Pre").1 + SubSection(lines, maps, "Pos").1
  }

  /** The event list after a load: the entries with their file names, in the
      load order. */
  function LoadedEvents(lines: seq<seq<char>>, maps: nat): seq<SoundEvent> {
    SortBy(WithFilenames(MapEntries(lines, maps), LoadedTables(lines)), LoadLess)
  }

  /** The counters of the editor: the Pre and Pos totals, the entries loaded
      in the Pre, Pos and Pan sub-sections, and the counts of the sound data
      file, simple, random and compound event tables. */
  datatype Counts = Counts(preTotal: int, posTotal: int, loadedPre: int, loadedPos: int, loadedPan: int,
                           soundDataFiles: int, simpleEvents: int, randomEvents: int, compoundEvents: int)

  /** What ParseFloFile leaves behind: its result, the bundles, the tables,
      the counters and the event list. */
  datatype Loaded = Loaded(ok: bool, bundles: seq<SoundDataBundle>, tables: Tables, counts: Counts,
                           events: seq<SoundEvent>)

  /** ParseFloFile over the lines of a file. Every table is read afresh;
      without an EventMaps line the list and the EventMap counters stay empty,
      the tables read so far being kept. The Pre and Pos totals are only
      written when their count line is read, and are then the loaded counts. */
  function Load(lines: seq<seq<char>>): Loaded {
    var bundles := CountedSection(lines, "SoundDataBundles", ParseBundleLine).0;
    var sdf := CountedSection(lines, "SoundDataFiles", ParseSoundDataFileLine).1;
    var se := CountedSection(lines, "SimpleEvents", ParseSimpleEventLine).1;
    var rnd := ComplexSection(lines, "RandomEvents").1;
    var cmp := ComplexSection(lines, "CompoundEvents").1;
    match FindLine(lines, 0, "EventMaps")
    case None => Loaded(false, bundles, LoadedTables(lines), Counts(0, 0, 0, 0, 0, sdf, se, rnd, cmp), [])
    case Some(maps) =>
      var pre := SubSection(lines, maps, "Pre").0;
      var pos := SubSection(lines, maps, "Pos").0;
      var pan := SubSection(lines, maps, "Pan").0;
      Loaded(true, bundles, LoadedTables(lines), Counts(pre, pos, pre, pos, pan, sdf, se, rnd, cmp),
             LoadedEvents(lines, maps))
  }

  /** The table part of ParseFloFile: the bundles, the tables and their counts. */
  method ReadTables(lines: seq<seq<char>>)
    returns (bundles: seq<SoundDataBundle>, t: Tables, sdf: int, se: int, rnd: int, cmp: int)
    ensures bundles == CountedSection(lines, "SoundDataBundles", ParseBundleLine).0
    ensures t == LoadedTables(lines)
    ensures sdf == CountedSection(lines, "SoundDataFiles", ParseSoundDataFileLine).1
    ensures se == CountedSection(lines, "SimpleEvents", ParseSimpleEventLine).1
    ensures rnd == ComplexSection(lines, "RandomEvents").1 && cmp == ComplexSection(lines, "CompoundEvents").1
  {
    var bundleCount, sdfs, ses, rnds, cmps;
    bundles, bundleCount := ReadCountedSection(lines, "SoundDataBundles", ParseBundleLine);
    sdfs, sdf := ReadCountedSection(lines, "SoundDataFiles", ParseSoundDataFileLine);
    ses, se := ReadCountedSection(lines, "SimpleEvents", ParseSimpleEventLine);
    rnds, rnd := ReadComplexSection(lines, "RandomEvents");
    cmps, cmp := ReadComplexSection(lines, "CompoundEvents");
    t := Tables(sdfs, ses, rnds, cmps);
  }

  /** The EventMaps part of ParseFloFile: the Pre, Pan and Pos counts and the
      event list, resolved against `t` and in load order. */
  method ReadEventMaps(lines: seq<seq<char>>, maps: nat, t: Tables)
    returns (pre: int, pan: int, pos: int, events: seq<SoundEvent>)
    ensures pre == SubSection(lines, maps, "Pre").0 && pan == SubSection(lines, maps, "Pan").0
    ensures pos == SubSection(lines, maps, "Pos").0
    ensures events == SortBy(WithFilenames(MapEntries(lines, maps), t), LoadLess)
  {
    var preEntries, panEntries, posEntries;
    pre, preEntries := ReadSubSection(lines, maps, "Pre");
    pan, panEntries := ReadSubSection(lines, maps, "Pan");
    pos, posEntries := ReadSubSection(lines, maps, "Pos");
    events := ResolveFilenames(preEntries + posEntries, t);
    events := SortBy(events, LoadLess);
  }

  /** The reading done by ParseFloFile, into a fresh result. */
  method ReadFlo(lines: seq<seq<char>>) returns (r: Loaded)
    ensures r == Load(lines)
    ensures AllPreOrPos(r.events) && PrePosOrdered(r.events)
  {
    var bundles, t, sdf, se, rnd, cmp := ReadTables(lines);
    var maps := FindSection(lines, 0, "EventMaps");
    if maps.None? {
      return Loaded(false, bundles, t, Counts(0, 0, 0, 0, 0, sdf, se, rnd, cmp), []);
    }
    var pre, pan, pos, events := ReadEventMaps(lines, maps.value, t);
    LoadedEventsOrdered(lines, maps.value);
    r := Loaded(true, bundles, t, Counts(pre, pos, pre, pos, pan, sdf, se, rnd, cmp), events);
  }

  /** A load succeeds exactly when the file has an EventMaps line; the counts
      it keeps are never negative and the Pre and Pos totals equal the loaded
      counts; the list is empty after a failed load, and after a successful
      one holds the Pre and Pos entries of the file with Pre before Pos. */
  lemma LoadShape(lines: seq<seq<char>>)
    ensures var r := Load(lines);
            (r.ok <==> FindLine(lines, 0, "EventMaps").Some?) &&
            r.tables.soundDataFiles == CountedSection(lines, "SoundDataFiles", ParseSoundDataFileLine).0 &&
            |r.tables.soundDataFiles| <= r.counts.soundDataFiles &&
            |r.tables.simpleEvents| <= r.counts.simpleEvents &&
            |r.tables.randomEvents| <= r.counts.randomEvents &&
            |r.tables.compoundEvents| <= r.counts.compoundEvents &&
            r.counts.preTotal == r.counts.loadedPre >= 0 && r.counts.posTotal == r.counts.loadedPos >= 0 &&
            r.counts.loadedPan >= 0 &&
            (!r.ok ==> r.events == []) &&
            (r.ok ==> |r.events| <= r.counts.loadedPre + r.counts.loadedPos) &&
            AllPreOrPos(r.events) && PrePosOrdered(r.events)
  {
    if FindLine(lines, 0, "EventMaps").Some? {
      LoadedEventsOrdered(lines, FindLine(lines, 0, "EventMaps").value);
    }
  }

  /** No Pos entry precedes a Pre entry. */
  predicate PrePosOrdered(s: seq<SoundEvent>) {
    forall i, j :: 0 <= i < j < |s| ==> !(s[i].section == "Pos" && s[j].section == "Pre")
  }

  /** After a load the list holds exactly the Pre and Pos entries of the file,
      each with the file names it resolves to; every Pre entry precedes every
      Pos entry, and the entries of one section are in event id order. */
  lemma LoadedEventsOrdered(lines: seq<seq<char>>, maps: nat)
    ensures var r := LoadedEvents(lines, maps);
            multiset(r) == multiset(WithFilenames(MapEntries(lines, maps), LoadedTables(lines))) &&
            |r| == |SubSection(lines, maps, "Pre").1| + |SubSection(lines, maps, "Pos").1| &&
            AllPreOrPos(r) && PrePosOrdered(r) &&
            forall i, j :: 0 <= i < j < |r| && r[i].section == r[j].section ==> r[i].eventId <= r[j].eventId
  {
    var es := WithFilenames(MapEntries(lines, maps), LoadedTables(lines));
    MapEntriesPreOrPos(lines, maps, LoadedTables(lines));
    LoadSortPrePos(es);
  }

  /** The Pre and Pos entries, with their file names, are Pre and Pos entries. */
  lemma MapEntriesPreOrPos(lines: seq<seq<char>>, maps: nat, t: Tables)
    ensures AllPreOrPos(WithFilenames(MapEntries(lines, maps), t))
  {
    var pre, pos := SubSection(lines, maps, "Pre").1, SubSection(lines, maps, "Pos").1;
    SectionsPreOrPos(pre, pos);
    WithFilenamesPreOrPos(pre + pos, t);
  }

  lemma SectionsPreOrPos(pre: seq<SoundEvent>, pos: seq<SoundEvent>)
    requires forall k :: 0 <= k < |pre| ==> pre[k].section == "Pre"
    requires forall k :: 0 <= k < |pos| ==> pos[k].section == "Pos"
    ensures AllPreOrPos(pre + pos)
  {
    forall k | 0 <= k < |pre + pos| ensures PreOrPos((pre + pos)[k]) {
      if k >= |pre| {
        assert (pre + pos)[k] == pos[k - |pre|];
      }
    }
  }

  lemma WithFilenamesPreOrPos(es: seq<SoundEvent>, t: Tables)
    requires AllPreOrPos(es)
    ensures AllPreOrPos(WithFilenames(es, t))
  {
  }

  /** The load sort of Pre and Pos entries puts Pre before Pos and orders each
      section by event id. */
  lemma LoadSortPrePos(es: seq<SoundEvent>)
    requires AllPreOrPos(es)
    ensures var r := SortBy(es, LoadLess);
            multiset(r) == multiset(es) && AllPreOrPos(r) && PrePosOrdered(r) &&
            forall i, j :: 0 <= i < j < |r| && r[i].section == r[j].section ==> r[i].eventId <= r[j].eventId
  {
    LoadSortOrder(es);
    LoadSortSorted(es);
  }

  // ---------------------------------------------------------------------------
  // Sorting by a list column
  // ---------------------------------------------------------------------------

  /** The comparator SortEvents hands to the sort. */
  function ColumnLess(column: int, ascending: bool, icmp: (seq<char>, seq<char>) -> int)
    : (SoundEvent, SoundEvent) -> bool
  {
    (a: SoundEvent, b: SoundEvent) => SortLess(column, ascending, icmp, a, b)
  }

  /** The list after SortEvents: unchanged while no column is selected. */
  function SortedEvents(s: seq<SoundEvent>, column: int, ascending: bool, icmp: (seq<char>, seq<char>) -> int)
    : seq<SoundEvent>
  {
    if column < 0 then s else SortBy(s, ColumnLess(column, ascending, icmp))
  }

  /** A comparator that puts every Pre entry before every Pos entry. */
  ghost predicate RanksSections(less: (SoundEvent, SoundEvent) -> bool) {
    forall a: SoundEvent, b: SoundEvent :: a.section == "Pre" && b.section == "Pos" ==> less(a, b) && !less(b, a)
  }

  /** Inserting a Pre or Pos entry with such a comparator keeps Pre before Pos. */
  lemma {:induction false} InsertKeepsPrePos(x: SoundEvent, s: seq<SoundEvent>, less: (SoundEvent, SoundEvent) -> bool)
    requires RanksSections(less) && PreOrPos(x) && AllPreOrPos(s) && PrePosOrdered(s)
    ensures PrePosOrdered(InsertBy(x, s, less))
  {
    var r := InsertBy(x, s, less);
    if s == [] {
    } else if less(x, s[0]) {
      assert r == [x] + s;
      if x.section == "Pos" {
        assert s[0].section == "Pos";
      }
    } else {
      var t := InsertBy(x, s[1..], less);
      assert r == [s[0]] + t;
      InsertKeepsPrePos(x, s[1..], less);
      if s[0].section == "Pos" {
        forall j | 0 <= j < |t| ensures t[j].section != "Pre" {
          InsertMembers(x, s[1..], less, t[j]);
          if t[j] != x {
            var m :| 0 <= m < |s[1..]| && s[1..][m] == t[j];
            assert s[m + 1] == t[j];
          }
        }
      }
    }
  }

  /** Sorting Pre and Pos entries with such a comparator puts every Pre entry
      before every Pos entry, whatever the order before. */
  lemma {:induction false} SortRanksSections(s: seq<SoundEvent>, less: (SoundEvent, SoundEvent) -> bool)
    requires RanksSections(less) && AllPreOrPos(s)
    ensures PrePosOrdered(SortBy(s, less)) && AllPreOrPos(SortBy(s, less))
  {
    AllPreOrPosOfPerm(SortBy(s, less), s);
    if s != [] {
      var init := s[..|s| - 1];
      SortRanksSections(init, less);
      InsertKeepsPrePos(s[|s| - 1], SortBy(init, less), less);
    }
  }

  /** SortEvents keeps every entry; on any column but Section (5) it leaves every
      Pre entry before every Pos entry; with no column selected it changes
      nothing. */
  lemma SortedEventsKeepsSections(s: seq<SoundEvent>, column: int, ascending: bool,
                                  icmp: (seq<char>, seq<char>) -> int)
    requires AllPreOrPos(s) && column != 5 && (column < 0 ==> PrePosOrdered(s))
    ensures var r := SortedEvents(s, column, ascending, icmp);
            multiset(r) == multiset(s) && AllPreOrPos(r) && PrePosOrdered(r) &&
            (column < 0 ==> r == s)
  {
    if column >= 0 {
      var less := ColumnLess(column, ascending, icmp);
      forall a: SoundEvent, b: SoundEvent | a.section == "Pre" && b.section == "Pos"
        ensures less(a, b) && !less(b, a)
      {
        PreBeforePos(column, ascending, icmp, a, b);
      }
      SortRanksSections(s, less);
    }
  }

  /** A three-way comparison the sort can rely on: its sign flips with its
      arguments, and "less than" is transitive. */
  ghost predicate ConsistentCompare(icmp: (seq<char>, seq<char>) -> int) {
    (forall x, y :: icmp(x, y) < 0 <==> icmp(y, x) > 0) &&
    (forall x, y, z :: icmp(x, y) < 0 && icmp(y, z) < 0 ==> icmp(x, z) < 0)
  }

  /** On Pre and Pos entries every column comparison is a consistent
      three-way comparison ("Pos" is below "Pre" by code unit). */
  lemma ColumnCompareLaws(column: int, icmp: (seq<char>, seq<char>) -> int, a: SoundEvent, b: SoundEvent, c: SoundEvent)
    requires PreOrPos(a) && PreOrPos(b) && PreOrPos(c)
    requires (column == 3 || column == 4) ==> ConsistentCompare(icmp)
    ensures ColumnCompare(column, icmp, a, b) < 0 <==> ColumnCompare(column, icmp, b, a) > 0
    ensures ColumnCompare(column, icmp, a, b) < 0 && ColumnCompare(column, icmp, b, c) < 0 ==>
            ColumnCompare(column, icmp, a, c) < 0
    ensures ColumnCompare(column, icmp, a, b) > 0 && ColumnCompare(column, icmp, b, c) > 0 ==>
            ColumnCompare(column, icmp, a, c) > 0
  {
    if column == 5 {
      StringCompareLex("Pos", "Pre");
      assert "Pos"[..1] == "Pre"[..1];
      StringCompareAntisym("Pos", "Pre");
    }
  }

  /** The comparator of every column is a strict order on Pre and Pos entries,
      in either direction. */
  lemma ColumnLessStrict(column: int, ascending: bool, icmp: (seq<char>, seq<char>) -> int)
    requires (column == 3 || column == 4) ==> ConsistentCompare(icmp)
    ensures StrictOnPrePos(ColumnLess(column, ascending, icmp))
  {
    var less := ColumnLess(column, ascending, icmp);
    forall a | PreOrPos(a) ensures !less(a, a) {
      ColumnCompareLaws(column, icmp, a, a, a);
    }
    forall a, b, c | PreOrPos(a) && PreOrPos(b) && PreOrPos(c) && less(a, b) && less(b, c)
      ensures less(a, c)
    {
      ColumnCompareLaws(column, icmp, a, b, c);
    }
  }

  /** SortEvents on a column keeps every entry and orders them: on any column
      but Section every Pre entry comes before every Pos entry; on Section the
      Pos entries come first when ascending and last when descending; and
      entries of the same section follow the column's comparison, rising when
      ascending and falling when descending. Columns 3 and 4 need _wcsicmp to
      be a consistent comparison. */
  lemma ColumnSortOrder(s: seq<SoundEvent>, column: int, ascending: bool, icmp: (seq<char>, seq<char>) -> int)
    requires AllPreOrPos(s) && column >= 0
    requires (column == 3 || column == 4) ==> ConsistentCompare(icmp)
    ensures var r := SortedEvents(s, column, ascending, icmp);
            multiset(r) == multiset(s) && AllPreOrPos(r) &&
            forall i, j :: 0 <= i < j < |r| ==>
              (column != 5 || !ascending ==> (r[j].section == "Pre" ==> r[i].section == "Pre")) &&
              (column == 5 && ascending ==> (r[j].section == "Pos" ==> r[i].section == "Pos")) &&
              (r[i].section == r[j].section ==>
                 if ascending then ColumnCompare(column, icmp, r[i], r[j]) <= 0
                 else ColumnCompare(column, icmp, r[i], r[j]) >= 0)
  {
    var less := ColumnLess(column, ascending, icmp);
    var r := SortBy(s, less);
    ColumnLessStrict(column, ascending, icmp);
    SortBySorted(s, less);
    forall i, j | 0 <= i < j < |r|
      ensures (column != 5 || !ascending ==> (r[j].section == "Pre" ==> r[i].section == "Pre")) &&
              (column == 5 && ascending ==> (r[j].section == "Pos" ==> r[i].section == "Pos")) &&
              (r[i].section == r[j].section ==>
                 if ascending then ColumnCompare(column, icmp, r[i], r[j]) <= 0
                 else ColumnCompare(column, icmp, r[i], r[j]) >= 0)
    {
      assert !less(r[j], r[i]);
      ColumnCompareLaws(column, icmp, r[i], r[j], r[j]);
      if column == 5 {
        StringCompareLex("Pos", "Pre");
        assert "Pos"[..1] == "Pre"[..1];
        StringCompareAntisym("Pos", "Pre");
      }
    }
  }

  // ---------------------------------------------------------------------------
  // Adding an EventMap entry
  // ---------------------------------------------------------------------------

  /** GetWindowTextW into a buffer of `size` characters keeps at most size - 1. */
  function Clip(text: seq<char>, size: nat): (r: seq<char>)
    requires size >= 1
    ensures |r| <= size - 1 && |r| <= |text| && r == text[..|r|]
    ensures |text| < size ==> r == text
  {
    if |text| < size then text else text[..size - 1]
  }

  /** The texts of the section drop-down list, in list order. */
  const SectionChoices: seq<seq<char>> := ["Pre", "Pos"]

  /** The entry AddEvent builds from the edit fields and the selected section. */
  function NewEvent(idText: seq<char>, linkTypeText: seq<char>, linkedIdText: seq<char>, nameText: seq<char>,
                    section: seq<char>, t: Tables): (e: SoundEvent)
  {
    var v := Wtoi(Clip(linkTypeText, 64));
    var e0 := SoundEvent(Wtoi(Clip(idText, 64)), v, Wtoi(Clip(linkedIdText, 64)), Trim(Clip(nameText, 256)),
                         section, LinkTypeOf(v), [], true);
    e0.(filenames := GetSoundFilenamesForEventMap(e0, t))
  }

  /** The index of the first Pos entry (find_if), or the length of the list. */
  function FirstPos(s: seq<SoundEvent>): (i: nat)
    ensures i <= |s|
    ensures forall k :: 0 <= k < i ==> s[k].section != "Pos"
    ensures i < |s| ==> s[i].section == "Pos"
  {
    if s == [] then 0
    else if s[0].section == "Pos" then 0
    else 1 + FirstPos(s[1..])
  }

  /** Where AddEvent inserts: before the first Pos entry for a Pre entry, at
      the end otherwise. */
  function InsertIndex(s: seq<SoundEvent>, e: SoundEvent): (i: nat)
    ensures i <= |s|
  {
    if e.section == "Pre" then FirstPos(s) else |s|
  }

  function InsertEvent(s: seq<SoundEvent>, e: SoundEvent): seq<SoundEvent> {
    s[..InsertIndex(s, e)] + [e] + s[InsertIndex(s, e)..]
  }

  /** AddEvent's insertion adds the one entry and keeps every other. */
  lemma InsertEventMembers(s: seq<SoundEvent>, e: SoundEvent)
    ensures multiset(InsertEvent(s, e)) == multiset(s) + multiset{e}
    ensures AllPreOrPos(s) && PreOrPos(e) ==> AllPreOrPos(InsertEvent(s, e))
  {
    var i := InsertIndex(s, e);
    assert s == s[..i] + s[i..];
    var r := InsertEvent(s, e);
    if AllPreOrPos(s) && PreOrPos(e) {
      forall k | 0 <= k < |r| ensures PreOrPos(r[k]) {
        if k < i {
          assert r[k] == s[k];
        } else if k > i {
          assert r[k] == s[k - 1];
        }
      }
    }
  }

  /** In a list with Pre before Pos, AddEvent puts a Pre entry after every Pre
      entry and before every Pos entry, a Pos entry after everything, and so
      keeps Pre before Pos; the other entries keep their order. */
  lemma InsertEventPlace(s: seq<SoundEvent>, e: SoundEvent)
    requires PrePosOrdered(s) && PreOrPos(e)
    ensures var i := InsertIndex(s, e);
            var r := InsertEvent(s, e);
            |r| == |s| + 1 && r[i] == e && r[..i] == s[..i] && r[i + 1..] == s[i..] &&
            (e.section == "Pre" ==> (forall k :: 0 <= k < i ==> s[k].section != "Pos") &&
                                    (forall k :: i <= k < |s| ==> s[k].section != "Pre")) &&
            (e.section != "Pre" ==> i == |s|) &&
            PrePosOrdered(r)
  {
    var i := InsertIndex(s, e);
    var r := InsertEvent(s, e);
    assert r[..i] == s[..i] && r[i + 1..] == s[i..];
    if e.section == "Pre" {
      forall k | i <= k < |s| ensures s[k].section != "Pre" {
        if k > i {
          assert s[i].section == "Pos";
        }
      }
    }
    forall a, b | 0 <= a < b < |r| ensures !(r[a].section == "Pos" && r[b].section == "Pre") {
      if a < i && b == i {
      } else if a < i && b > i {
        assert r[a] == s[a] && r[b] == s[b - 1];
      } else if a == i {
        assert r[b] == s[b - 1];
      } else if a > i {
        assert r[a] == s[a - 1] && r[b] == s[b - 1];
      }
    }
  }

  /** The counters after AddEvent: the loaded count of the entry's section
      grows by one and both totals become the loaded counts. */
  function AddedEventCounts(c: Counts, pre: bool): (r: Counts)
    ensures r.loadedPre == c.loadedPre + (if pre then 1 else 0)
    ensures r.loadedPos == c.loadedPos + (if pre then 0 else 1)
    ensures r.preTotal == r.loadedPre && r.posTotal == r.loadedPos
    ensures r.loadedPan == c.loadedPan && r.soundDataFiles == c.soundDataFiles &&
            r.simpleEvents == c.simpleEvents && r.randomEvents == c.randomEvents &&
            r.compoundEvents == c.compoundEvents
  {
    var c1 := if pre then c.(loadedPre := c.loadedPre + 1) else c.(loadedPos := c.loadedPos + 1);
    c1.(preTotal := c1.loadedPre, posTotal := c1.loadedPos)
  }

  // ---------------------------------------------------------------------------
  // Adding a sound data file and its simple event
  // ---------------------------------------------------------------------------

  /** The outcome of AddSoundAndSimpleEvent: a rejection or the addition. */
  datatype AddOutcome = EmptyField | SdfIdExists | SimpleIdExists | Added

  /** The checks AddSoundAndSimpleEvent makes before it adds anything. */
  function AddCheck(sdfs: seq<SoundDataFile>, ses: seq<SimpleEvent>, sdf: SoundDataFile, se: SimpleEvent)
    : (r: AddOutcome)
    ensures r == EmptyField <==> sdf.typeChar == [] || sdf.filename == []
    ensures r == SdfIdExists <==>
              sdf.typeChar != [] && sdf.filename != [] && exists k :: 0 <= k < |sdfs| && sdfs[k].id == sdf.id
    ensures r == Added <==>
              sdf.typeChar != [] && sdf.filename != [] &&
              (forall k :: 0 <= k < |sdfs| ==> sdfs[k].id != sdf.id) &&
              (forall k :: 0 <= k < |ses| ==> ses[k].id != se.id)
  {
    if sdf.typeChar == [] || sdf.filename == [] then EmptyField
    else if FirstWithId(sdfs, (s: SoundDataFile) => s.id, sdf.id).Some? then SdfIdExists
    else if FindSimpleEvent(ses, se.id).Some? then SimpleIdExists
    else Added
  }

  /** The sound data file AddSoundAndSimpleEvent builds from the edit fields. */
  function NewSoundDataFile(idText: seq<char>, typeText: seq<char>, fileText: seq<char>): SoundDataFile {
    SoundDataFile(Wtoi(Clip(idText, 64)), Trim(Clip(typeText, 64)), Trim(Clip(fileText, 256)), true)
  }

  /** The simple event built with it, under the same id. */
  function NewSimpleEvent(id: int, soundFileText: seq<char>, typeText: seq<char>, linkedText: seq<char>)
    : SimpleEvent
  {
    SimpleEvent(id, Wtoi(Clip(soundFileText, 64)), Wtoi(Clip(typeText, 64)), Wtoi(Clip(linkedText, 64)), true)
  }

  /** The tables with the new sound data file and simple event appended. */
  function AddedTables(t: Tables, sdf: SoundDataFile, se: SimpleEvent): Tables {
    t.(soundDataFiles := t.soundDataFiles + [sdf], simpleEvents := t.simpleEvents + [se])
  }

  /** An entry whose file names are missing or a single "N/A" note. */
  predicate WasInvalid(e: SoundEvent) {
    e.filenames == [] || (|e.filenames| == 1 && Contains(e.filenames[0], "N/A"))
  }

  /** The entries looked up again after an addition: the invalid ones and the
      ones linking directly to the new simple event. */
  predicate NeedsRefresh(e: SoundEvent, seId: int) {
    WasInvalid(e) || (e.linkType == Simple && e.linkedId == seId)
  }

  function Refreshed(es: seq<SoundEvent>, t: Tables, seId: int): seq<SoundEvent> {
    seq(|es|, k requires 0 <= k < |es| =>
      if NeedsRefresh(es[k], seId) then es[k].(filenames := GetSoundFilenamesForEventMap(es[k], t)) else es[k])
  }

  /** The refresh changes file names only, and only those of the entries it
      looks up again; so it keeps the sections and their order. */
  lemma RefreshedKeeps(es: seq<SoundEvent>, t: Tables, seId: int)
    ensures var r := Refreshed(es, t, seId);
            |r| == |es| &&
            (forall k :: 0 <= k < |es| ==> r[k] == es[k].(filenames := r[k].filenames)) &&
            (forall k :: 0 <= k < |es| && !NeedsRefresh(es[k], seId) ==> r[k] == es[k]) &&
            (AllPreOrPos(es) ==> AllPreOrPos(r)) && (PrePosOrdered(es) ==> PrePosOrdered(r))
  {
    var r := Refreshed(es, t, seId);
    assert forall k :: 0 <= k < |es| ==> r[k].section == es[k].section;
  }

  /** After an addition, an entry linking directly to the new simple event
      resolves to the new sound data file's name, when that id has no earlier
      sound data file and the name is not empty. */
  lemma RefreshedDirectLink(es: seq<SoundEvent>, sdfs: seq<SoundDataFile>, ses: seq<SimpleEvent>,
                            rnd: seq<ComplexEvent>, cmp: seq<ComplexEvent>,
                            sdf: SoundDataFile, se: SimpleEvent, k: nat)
    requires AddCheck(sdfs, ses, sdf, se) == Added && se.soundDataFileId == sdf.id
    requires k < |es| && es[k].linkType == Simple && es[k].linkedId == se.id
    ensures Refreshed(es, Tables(sdfs + [sdf], ses + [se], rnd, cmp), se.id)[k].filenames == [sdf.filename]
  {
    var t := Tables(sdfs + [sdf], ses + [se], rnd, cmp);
    assert (ses + [se])[|ses|] == se;
    assert FindSimpleEvent(ses + [se], se.id) == Some(se);
    assert (sdfs + [sdf])[|sdfs|] == sdf;
    assert FindSdfFilename(sdfs + [sdf], sdf.id) == sdf.filename;
    SimpleLinkFilename(es[k], t, se);
  }

  // ---------------------------------------------------------------------------
  // The editor
  // ---------------------------------------------------------------------------

  class Editor {
    var events: seq<SoundEvent>
    var tables: Tables
    var bundles: seq<SoundDataBundle>
    var counts: Counts
    var sortColumn: int
    var sortAscending: bool

    /** The list holds Pre and Pos entries only, and Pre before Pos unless it
        was last sorted by the Section column. */
    predicate Valid()
      reads this
    {
      AllPreOrPos(events) && (sortColumn != 5 ==> PrePosOrdered(events))
    }

    /** The editor at start-up: everything empty, no sort column. */
    constructor ()
      ensures Valid()
      ensures events == [] && tables == Tables([], [], [], []) && bundles == []
      ensures counts == Counts(0, 0, 0, 0, 0, 0, 0, 0, 0)
      ensures sortColumn == -1 && sortAscending
    {
      events, tables, bundles := [], Tables([], [], [], []), [];
      counts := Counts(0, 0, 0, 0, 0, 0, 0, 0, 0);
      sortColumn, sortAscending := -1, true;
    }

    /** ParseFloFile over the lines of the file: the state becomes the load
        result and the sort settings are kept. */
    method ParseFloFile(lines: seq<seq<char>>) returns (ok: bool)
      modifies this
      ensures Valid()
      ensures Loaded(ok, bundles, tables, counts, events) == Load(lines)
      ensures sortColumn == old(sortColumn) && sortAscending == old(sortAscending)
    {
      var r := ReadFlo(lines);
      ok := r.ok;
      bundles := r.bundles;
      tables := r.tables;
      counts := r.counts;
      events := r.events;
    }

    /** After a successful load the file-open handler clears the sort column
        and sorts, which leaves the load order in place. */
    method ResetSort(icmp: (seq<char>, seq<char>) -> int)
      requires AllPreOrPos(events) && PrePosOrdered(events)
      modifies this
      ensures Valid()
      ensures sortColumn == -1 && sortAscending == old(sortAscending)
      ensures events == old(events) && tables == old(tables) && counts == old(counts) && bundles == old(bundles)
    {
      sortColumn := -1;
      SortEvents(icmp);
    }

    /** SortEvents: the list sorted by the selected column, or left alone. */
    method SortEvents(icmp: (seq<char>, seq<char>) -> int)
      requires AllPreOrPos(events) && (sortColumn < 0 ==> PrePosOrdered(events))
      modifies this
      ensures Valid()
      ensures events == SortedEvents(old(events), sortColumn, sortAscending, icmp)
      ensures sortColumn == old(sortColumn) && sortAscending == old(sortAscending)
      ensures tables == old(tables) && bundles == old(bundles) && counts == old(counts)
    {
      if sortColumn < 0 {
        return;
      }
      var sorted := SortBy(events, ColumnLess(sortColumn, sortAscending, icmp));
      if sortColumn != 5 {
        SortedEventsKeepsSections(events, sortColumn, sortAscending, icmp);
      } else {
        AllPreOrPosOfPerm(sorted, events);
      }
      events := sorted;
    }

    /** A click on a list column header: the same column again reverses the
        direction, another column sorts ascending by it. */
    method ClickColumn(column: nat, icmp: (seq<char>, seq<char>) -> int)
      requires Valid()
      modifies this
      ensures Valid()
      ensures sortColumn == column
      ensures sortAscending == (if column == old(sortColumn) then !old(sortAscending) else true)
      ensures events == SortedEvents(old(events), column, sortAscending, icmp)
      ensures tables == old(tables) && counts == old(counts)
    {
      if column == sortColumn {
        sortAscending := !sortAscending;
      } else {
        sortColumn := column;
        sortAscending := true;
      }
      SortEvents(icmp);
    }

    /** AddEvent: the entry built from the edit fields and the selected
        section, resolved against the current tables, is added to the list. */
    method AddEvent(idText: seq<char>, linkTypeText: seq<char>, linkedIdText: seq<char>, nameText: seq<char>,
                    choice: nat, icmp: (seq<char>, seq<char>) -> int)
      requires Valid() && choice < |SectionChoices|
      modifies this
      ensures Valid()
      ensures var e := NewEvent(idText, linkTypeText, linkedIdText, nameText, SectionChoices[choice], tables);
              events == SortedEvents(InsertEvent(old(events), e), sortColumn, sortAscending, icmp)
      ensures counts == AddedEventCounts(old(counts), choice == 0)
      ensures tables == old(tables) && bundles == old(bundles)
      ensures sortColumn == old(sortColumn) && sortAscending == old(sortAscending)
    {
      var e := NewEvent(idText, linkTypeText, linkedIdText, nameText, SectionChoices[choice], tables);
      InsertEntry(e, icmp);
    }

    /** The list part of AddEvent: the entry goes before the first Pos entry
        when it is a Pre entry and at the end otherwise; the count of its
        section grows by one, the totals follow the counts, and the list is
        sorted again by the selected column. */
    method InsertEntry(e: SoundEvent, icmp: (seq<char>, seq<char>) -> int)
      requires Valid() && PreOrPos(e)
      modifies this
      ensures Valid()
      ensures events == SortedEvents(InsertEvent(old(events), e), sortColumn, sortAscending, icmp)
      ensures counts == AddedEventCounts(old(counts), e.section == "Pre")
      ensures tables == old(tables) && bundles == old(bundles)
      ensures sortColumn == old(sortColumn) && sortAscending == old(sortAscending)
    {
      var at := |events|;
      if e.section == "Pre" {
        at := FirstPos(events);
      }
      if sortColumn < 0 {
        InsertEventPlace(events, e);
      }
      InsertEventMembers(events, e);
      events := events[..at] + [e] + events[at..];
      counts := AddedEventCounts(counts, e.section == "Pre");
      SortEvents(icmp);
    }

    /** AddSoundAndSimpleEvent: the sound data file and the simple event
        built from the edit fields, under the same id, are checked and added. */
    method AddSoundAndSimpleEvent(idText: seq<char>, typeText: seq<char>, fileText: seq<char>,
                                  soundFileText: seq<char>, seTypeText: seq<char>, linkedText: seq<char>)
      returns (outcome: AddOutcome)
      requires Valid()
      modifies this
      ensures Valid()
      ensures var sdf := NewSoundDataFile(idText, typeText, fileText);
              var se := NewSimpleEvent(sdf.id, soundFileText, seTypeText, linkedText);
              outcome == AddCheck(old(tables).soundDataFiles, old(tables).simpleEvents, sdf, se) &&
              (outcome == Added ==> tables == AddedTables(old(tables), sdf, se) &&
                                    counts == old(counts).(simpleEvents := old(counts).simpleEvents + 1) &&
                                    events == Refreshed(old(events), tables, se.id))
      ensures outcome != Added ==> events == old(events) && tables == old(tables) && counts == old(counts)
      ensures bundles == old(bundles) && sortColumn == old(sortColumn) && sortAscending == old(sortAscending)
    {
      var sdf := NewSoundDataFile(idText, typeText, fileText);
      var se := NewSimpleEvent(sdf.id, soundFileText, seTypeText, linkedText);
      outcome := AddPair(sdf, se);
    }

    /** The list part of AddSoundAndSimpleEvent: a rejected pair changes
        nothing; an accepted one is appended to both tables, the simple event
        count grows by one, and the entries that were unresolved or link
        directly to the new simple event are looked up again. */
    method AddPair(sdf: SoundDataFile, se: SimpleEvent) returns (outcome: AddOutcome)
      requires Valid()
      modifies this
      ensures Valid()
      ensures outcome == AddCheck(old(tables).soundDataFiles, old(tables).simpleEvents, sdf, se)
      ensures outcome == Added ==> tables == AddedTables(old(tables), sdf, se) &&
                                   counts == old(counts).(simpleEvents := old(counts).simpleEvents + 1) &&
                                   events == Refreshed(old(events), tables, se.id)
      ensures outcome != Added ==> events == old(events) && tables == old(tables) && counts == old(counts)
      ensures bundles == old(bundles) && sortColumn == old(sortColumn) && sortAscending == old(sortAscending)
    {
      if sdf.typeChar == [] || sdf.filename == [] {
        return EmptyField;
      }
      var sdfs, ses := tables.soundDataFiles, tables.simpleEvents;
      var i := 0;
      while i < |sdfs|
        invariant i <= |sdfs|
        invariant forall k :: 0 <= k < i ==> sdfs[k].id != sdf.id
      {
        if sdfs[i].id == sdf.id {
          return SdfIdExists;
        }
        i := i + 1;
      }
      i := 0;
      while i < |ses|
        invariant i <= |ses|
        invariant forall k :: 0 <= k < i ==> ses[k].id != se.id
      {
        if ses[i].id == se.id {
          return SimpleIdExists;
        }
        i := i + 1;
      }
      tables := AddedTables(tables, sdf, se);
      counts := counts.(simpleEvents := counts.simpleEvents + 1);
      events := RefreshEvents(events, tables, se.id);
      outcome := Added;
    }
  }

  /** The loop of AddSoundAndSimpleEvent that looks entries up again. */
  method RefreshEvents(es: seq<SoundEvent>, t: Tables, seId: int) returns (r: seq<SoundEvent>)
    ensures r == Refreshed(es, t, seId)
    ensures AllPreOrPos(es) ==> AllPreOrPos(r)
    ensures PrePosOrdered(es) ==> PrePosOrdered(r)
  {
    RefreshedKeeps(es, t, seId);
    r := es;
    var i := 0;
    while i < |r|
      invariant i <= |r| == |es|
      invariant r[..i] == Refreshed(es, t, seId)[..i] && r[i..] == es[i..]
    {
      if NeedsRefresh(r[i], seId) {
        r := r[i := r[i].(filenames := GetSoundFilenamesForEventMap(r[i], t))];
      }
      i := i + 1;
    }
  }
}
