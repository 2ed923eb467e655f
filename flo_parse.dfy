/** Reading the tables of a .flo file from its lines. Every table sits under a
    header line (SoundDataBundles, SoundDataFiles, SimpleEvents, RandomEvents,
    CompoundEvents, and Pre, Pan and Pos below EventMaps) followed by a count
    line and that many rows; random and compound events are each a header row
    followed by their link rows. */
module FloParse {
  import opened Optional
  import opened Text
  import opened FloEvents

  /** A count, negative ones clamped to zero. */
  function Max0(n: int): (r: nat)
    ensures n >= 0 ==> r == n
    ensures n < 0 ==> r == 0
  {
    if n < 0 then 0 else n
  }

  // ---------------------------------------------------------------------------
  // Finding a header line
  // ---------------------------------------------------------------------------

  /** The first line at or after `from` that trims to `name`. */
  function FindLine(lines: seq<seq<char>>, from: nat, name: seq<char>): (r: Option<nat>)
    ensures r.None? ==> forall i :: from <= i < |lines| ==> Trim(lines[i]) != name
    ensures r.Some? ==> from <= r.value < |lines| && Trim(lines[r.value]) == name &&
                        forall i :: from <= i < r.value ==> Trim(lines[i]) != name
    decreases |lines| - from
  {
    if from >= |lines| then None
    else if Trim(lines[from]) == name then Some(from)
    else FindLine(lines, from + 1, name)
  }

  /** The search loop for a header line. */
  method FindSection(lines: seq<seq<char>>, from: nat, name: seq<char>) returns (idx: Option<nat>)
    ensures idx == FindLine(lines, from, name)
  {
    var i := from;
    while i < |lines|
      invariant from <= i
      invariant FindLine(lines, i, name) == FindLine(lines, from, name)
      decreases |lines| - i
    {
      if Trim(lines[i]) == name {
        return Some(i);
      }
      i := i + 1;
    }
    return None;
  }

  // ---------------------------------------------------------------------------
  // Rows
  // ---------------------------------------------------------------------------

  /** How many rows `for (j = 0; j < count; ++j) { if (start + j >= size) break; … }`
      reads: `count`, but never past the last line and never fewer than none. */
  function RowCount(lines: seq<seq<char>>, start: nat, count: int): (n: nat)
    ensures start + n <= |lines| || n == 0
    ensures n <= Max0(count)
    ensures start + Max0(count) <= |lines| ==> n == Max0(count)
    ensures start + Max0(count) > |lines| ==> n == Max0(|lines| - start)
  {
    if count <= 0 || start >= |lines| then 0
    else if start + count <= |lines| then count
    else |lines| - start
  }

  /** The first n rows from `start`, each read with `parse`. */
  function RowsN<T>(lines: seq<seq<char>>, start: nat, n: nat, parse: seq<char> -> T): (rows: seq<T>)
    requires n == 0 || start + n <= |lines|
    ensures |rows| == n && forall k :: 0 <= k < n ==> rows[k] == parse(lines[start + k])
  {
    seq(n, k requires 0 <= k < n => parse(lines[start + k]))
  }

  /** The rows a counted loop reads from `start`. */
  function Rows<T>(lines: seq<seq<char>>, start: nat, count: int, parse: seq<char> -> T): seq<T> {
    RowsN(lines, start, RowCount(lines, start, count), parse)
  }

  /** The rows of a counted table are the lines after `start` read one by one,
      as many as the count asks for and the file still holds. */
  lemma RowsShape<T>(lines: seq<seq<char>>, start: nat, count: int, parse: seq<char> -> T)
    ensures var rows := Rows(lines, start, count, parse);
            |rows| == RowCount(lines, start, count) && |rows| <= Max0(count) &&
            forall k :: 0 <= k < |rows| ==> start + k < |lines| && rows[k] == parse(lines[start + k])
  {
  }

  lemma RowsNSnoc<T>(lines: seq<seq<char>>, start: nat, n: nat, parse: seq<char> -> T)
    requires start + n < |lines|
    ensures RowsN(lines, start, n + 1, parse) == RowsN(lines, start, n, parse) + [parse(lines[start + n])]
  {
    var a, b := RowsN(lines, start, n + 1, parse), RowsN(lines, start, n, parse) + [parse(lines[start + n])];
    assert |a| == |b|;
    forall k | 0 <= k < |a| ensures a[k] == b[k] {
      if k < n { assert b[k] == RowsN(lines, start, n, parse)[k]; }
    }
  }

  /** The counted row loop, with its break at the end of the file. */
  method ReadRows<T>(lines: seq<seq<char>>, start: nat, count: int, parse: seq<char> -> T) returns (rows: seq<T>)
    ensures rows == Rows(lines, start, count, parse)
  {
    var n := RowCount(lines, start, count);
    rows := [];
    var j := 0;
    while j < count
      invariant 0 <= j <= n
      invariant rows == RowsN(lines, start, j, parse)
    {
      var li := start + j;
      if li >= |lines| {
        break;
      }
      RowsNSnoc(lines, start, j, parse);
      rows := rows + [parse(lines[li])];
      j := j + 1;
    }
    assert j == n;
  }

  // ---------------------------------------------------------------------------
  // Sections
  // ---------------------------------------------------------------------------

  /** A table whose count line must not be blank: the rows read and the count
      kept, which is zero when the header, the count line or its value is
      missing and never negative. */
  function CountedSection<T>(lines: seq<seq<char>>, name: seq<char>, parse: seq<char> -> T): (r: (seq<T>, int))
    ensures r.1 >= 0 && |r.0| <= r.1
    ensures FindLine(lines, 0, name).None? ==> r == ([], 0)
    ensures FindLine(lines, 0, name).Some? ==>
              var i := FindLine(lines, 0, name).value;
              if i + 1 < |lines| && Trim(lines[i + 1]) != [] then
                r.1 == Max0(Wtoi(Trim(lines[i + 1]))) && r.0 == Rows(lines, i + 2, r.1, parse)
              else r == ([], 0)
  {
    match FindLine(lines, 0, name)
    case None => ([], 0)
    case Some(i) =>
      if i + 1 < |lines| && Trim(lines[i + 1]) != [] then
        var c := Max0(Wtoi(Trim(lines[i + 1])));
        RowsShape(lines, i + 2, c, parse);
        (Rows(lines, i + 2, c, parse), c)
      else ([], 0)
  }

  /** Reading one counted table. */
  method ReadCountedSection<T>(lines: seq<seq<char>>, name: seq<char>, parse: seq<char> -> T)
    returns (rows: seq<T>, count: int)
    ensures (rows, count) == CountedSection(lines, name, parse)
  {
    rows, count := [], 0;
    var idx := FindSection(lines, 0, name);
    if idx.Some? && idx.value + 1 < |lines| {
      var countLine := Trim(lines[idx.value + 1]);
      if countLine != [] {
        count := Wtoi(countLine);
        if count < 0 {
          count := 0;
        }
        rows := ReadRows(lines, idx.value + 2, count, parse);
      }
    }
  }

  /** The random or compound events from line `at` on, `remaining` of them at
      most: a header row, read with `header` into the id and the link count,
      then that many link rows, read with `link`, cut short at the end of the
      file. */
  function ComplexFrom(lines: seq<seq<char>>, at: nat, remaining: nat,
                       header: seq<char> -> (int, int), link: seq<char> -> EventLink): (es: seq<ComplexEvent>)
    ensures |es| <= remaining
    decreases remaining
  {
    if remaining == 0 || at >= |lines| then []
    else
      var h := header(lines[at]);
      var links := Rows(lines, at + 1, h.1, link);
      [ComplexEvent(h.0, links)] + ComplexFrom(lines, at + 1 + |links|, remaining - 1, header, link)
  }

  /** Each event read is its header's id and the link rows right below it, and
      the next event starts on the line after its last link. */
  lemma ComplexFromShape(lines: seq<seq<char>>, at: nat, remaining: nat,
                         header: seq<char> -> (int, int), link: seq<char> -> EventLink)
    requires remaining > 0 && at < |lines|
    ensures var es := ComplexFrom(lines, at, remaining, header, link);
            var h := header(lines[at]);
            es != [] && es[0].id == h.0 && es[0].links == Rows(lines, at + 1, h.1, link) &&
            |es[0].links| == RowCount(lines, at + 1, h.1) &&
            es[1..] == ComplexFrom(lines, at + 1 + RowCount(lines, at + 1, h.1), remaining - 1, header, link)
  {
    RowsShape(lines, at + 1, header(lines[at]).1, link);
  }

  /** The RandomEvents or CompoundEvents table, and its count clamped at zero.
      The count line is read even when blank. */
  function ComplexSection(lines: seq<seq<char>>, name: seq<char>): (r: (seq<ComplexEvent>, int))
    ensures r.1 >= 0 && |r.0| <= r.1
    ensures (FindLine(lines, 0, name).None? || FindLine(lines, 0, name).value + 1 >= |lines|) ==> r == ([], 0)
    ensures FindLine(lines, 0, name).Some? && FindLine(lines, 0, name).value + 1 < |lines| ==>
              var i := FindLine(lines, 0, name).value;
              r.1 == Max0(Wtoi(Trim(lines[i + 1]))) &&
              r.0 == ComplexFrom(lines, i + 2, r.1, ParseComplexHeader, ParseLinkLine)
  {
    match FindLine(lines, 0, name)
    case None => ([], 0)
    case Some(i) =>
      if i + 1 < |lines| then
        var c := Max0(Wtoi(Trim(lines[i + 1])));
        (ComplexFrom(lines, i + 2, c, ParseComplexHeader, ParseLinkLine), c)
      else ([], 0)
  }

  /** The event loop of a RandomEvents or CompoundEvents table. */
  method ReadComplexEvents(lines: seq<seq<char>>, start: nat, count: nat,
                           header: seq<char> -> (int, int), link: seq<char> -> EventLink)
    returns (events: seq<ComplexEvent>)
    ensures events == ComplexFrom(lines, start, count, header, link)
  {
    events := [];
    var current: nat := start;
    var i: nat := 0;
    while i < count
      invariant i <= count
      invariant events + ComplexFrom(lines, current, count - i, header, link) == ComplexFrom(lines, start, count, header, link)
    {
      if current >= |lines| {
        break;
      }
      ComplexFromShape(lines, current, count - i, header, link);
      ghost var here := ComplexFrom(lines, current, count - i, header, link);
      var h := header(lines[current]);
      current := current + 1;
      var links := ReadRows(lines, current, h.1, link);
      var linksRead := |links|;
      assert here == [ComplexEvent(h.0, links)] + here[1..];
      assert events + here == (events + [ComplexEvent(h.0, links)]) + here[1..];
      events := events + [ComplexEvent(h.0, links)];
      current := current + linksRead;
      i := i + 1;
    }
  }

  /** Reading a RandomEvents or CompoundEvents table. */
  method ReadComplexSection(lines: seq<seq<char>>, name: seq<char>) returns (events: seq<ComplexEvent>, count: int)
    ensures (events, count) == ComplexSection(lines, name)
  {
    events, count := [], 0;
    var idx := FindSection(lines, 0, name);
    if idx.Some? && idx.value + 1 < |lines| {
      count := Wtoi(Trim(lines[idx.value + 1]));
      if count < 0 {
        count := 0;
      }
      events := ReadComplexEvents(lines, idx.value + 2, count, ParseComplexHeader, ParseLinkLine);
    }
  }

  /** The entries of the Pre or Pos sub-section, `count` rows from `start`. */
  function EventMapRows(lines: seq<seq<char>>, start: nat, count: int, name: seq<char>): (es: seq<SoundEvent>)
    ensures |es| <= Max0(count)
    ensures forall k :: 0 <= k < |es| ==>
              es[k].section == name && es[k].linkType == LinkTypeOf(es[k].linkTypeVal) &&
              es[k].filenames == [] && !es[k].isNewlyAdded
  {
    var es := Rows(lines, start, count, l => ParseEventMapLine(l, name));
    RowsShape(lines, start, count, l => ParseEventMapLine(l, name));
    es
  }

  /** One sub-section of EventMaps, searched for after the EventMaps line: its
      count (zero when the header, the count line or its value is missing), and
      the entries, which only Pre and Pos have. */
  function SubSection(lines: seq<seq<char>>, maps: nat, name: seq<char>): (r: (int, seq<SoundEvent>))
    ensures r.0 >= 0 && |r.1| <= r.0
    ensures name != "Pre" && name != "Pos" ==> r.1 == []
    ensures forall k :: 0 <= k < |r.1| ==>
              r.1[k].section == name && r.1[k].linkType == LinkTypeOf(r.1[k].linkTypeVal) &&
              r.1[k].filenames == [] && !r.1[k].isNewlyAdded
    ensures FindLine(lines, maps + 1, name).Some? && FindLine(lines, maps + 1, name).value + 1 < |lines| ==>
              var i := FindLine(lines, maps + 1, name).value;
              Trim(lines[i + 1]) != [] ==> r.0 == Max0(Wtoi(Trim(lines[i + 1])))
  {
    match FindLine(lines, maps + 1, name)
    case None => (0, [])
    case Some(i) =>
      if i + 1 >= |lines| || Trim(lines[i + 1]) == [] then (0, [])
      else
        var c := Max0(Wtoi(Trim(lines[i + 1])));
        (c, if name == "Pre" || name == "Pos" then EventMapRows(lines, i + 2, c, name) else [])
  }

  /** Reading one EventMaps sub-section. */
  method ReadSubSection(lines: seq<seq<char>>, maps: nat, name: seq<char>) returns (count: int, entries: seq<SoundEvent>)
    ensures (count, entries) == SubSection(lines, maps, name)
  {
    count, entries := 0, [];
    var idx := FindSection(lines, maps + 1, name);
    if idx.None? || idx.value + 1 >= |lines| {
      return;
    }
    var countLine := Trim(lines[idx.value + 1]);
    if countLine == [] {
      return;
    }
    count := Wtoi(countLine);
    if count < 0 {
      count := 0;
    }
    if name == "Pre" || name == "Pos" {
      entries := ReadRows(lines, idx.value + 2, count, l => ParseEventMapLine(l, name));
      assert entries == EventMapRows(lines, idx.value + 2, count, name);
    }
  }

  // ---------------------------------------------------------------------------
  // File names
  // ---------------------------------------------------------------------------

  /** Every entry with the file names it resolves to. */
  function WithFilenames(es: seq<SoundEvent>, t: Tables): (r: seq<SoundEvent>)
    ensures |r| == |es|
    ensures forall k :: 0 <= k < |es| ==> r[k] == es[k].(filenames := GetSoundFilenamesForEventMap(es[k], t))
  {
    seq(|es|, k requires 0 <= k < |es| => es[k].(filenames := GetSoundFilenamesForEventMap(es[k], t)))
  }

  /** The loop that fills in each entry's file names. */
  method ResolveFilenames(es: seq<SoundEvent>, t: Tables) returns (r: seq<SoundEvent>)
    ensures r == WithFilenames(es, t)
  {
    r := es;
    var i := 0;
    while i < |r|
      invariant i <= |r| == |es|
      invariant r[..i] == WithFilenames(es, t)[..i] && r[i..] == es[i..]
    {
      r := r[i := r[i].(filenames := GetSoundFilenamesForEventMap(r[i], t))];
      i := i + 1;
    }
  }
}
