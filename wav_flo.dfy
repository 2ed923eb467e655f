/** The .flo reader of the WAV renamer: a line-driven state machine over the
    trimmed lines of the file that fills the SoundDataFiles, SimpleEvents,
    RandomEvents, CompoundEvents and EventMaps tables, followed by the map from
    SoundDataFile id to the EventMap name that the renamer gives its WAV. */
module WavFlo {
  import opened Optional
  import opened Text

  // ---------------------------------------------------------------------------
  // Tables
  // ---------------------------------------------------------------------------

  datatype SoundDataFile = SoundDataFile(id: int, typeChar: char, xbbFilename: seq<char>)

  datatype SimpleEvent = SimpleEvent(id: int, sdfId: int, paramSetIdx: int, panIdx: int)

  /** A choice of a random event or a component of a compound event: its type
      and the simple event it plays. A component's delay is not kept. */
  datatype Link = Link(kind: int, simpleEventId: int)

  /** A random event with its choices, or a compound event with its components. */
  datatype LinkedEvent = LinkedEvent(id: int, links: seq<Link>)

  datatype EventMapEntry = EventMapEntry(section: Sub, id1: int, type2: int, eventRef: int, name: seq<char>)

  /** What ParseFlo fills: four tables keyed by id (a later row with the same id
      replaces an earlier one), the EventMap entries in file order, and the
      simple event to SoundDataFile map used for resolving names. */
  datatype Flo = Flo(sdfs: map<int, SoundDataFile>, simples: map<int, SimpleEvent>,
                     randoms: map<int, LinkedEvent>, compounds: map<int, LinkedEvent>,
                     eventMaps: seq<EventMapEntry>, seToSdf: map<int, int>)

  const EmptyFlo := Flo(map[], map[], map[], map[], [], map[])

  /** The section headers the reader knows; NoSection is the empty header. */
  datatype Section = NoSection | SoundDataFiles | SimpleEvents | RandomEvents | CompoundEvents
                   | EventMaps | SoundDataBundles | SoundParameterSets

  /** The sub-sections of EventMaps; NoSub is the empty sub-section. */
  datatype Sub = NoSub | Pre | Pan | Pos

  /** The text of a header line. */
  function SectionName(s: Section): seq<char> {
    match s
      case NoSection => ""
      case SoundDataFiles => "SoundDataFiles"
      case SimpleEvents => "SimpleEvents"
      case RandomEvents => "RandomEvents"
      case CompoundEvents => "CompoundEvents"
      case EventMaps => "EventMaps"
      case SoundDataBundles => "SoundDataBundles"
      case SoundParameterSets => "SoundParameterSets"
  }

  function SubName(s: Sub): seq<char> {
    match s
      case NoSub => ""
      case Pre => "Pre"
      case Pan => "Pan"
      case Pos => "Pos"
  }

  /** A trimmed line outside a section: a main header, a sub-section header,
      or anything else. */
  datatype LineKind = SectionLine(section: Section) | SubLine(sub: Sub) | OtherLine

  function Classify(line: seq<char>): LineKind {
    if line == "SoundDataFiles" then SectionLine(SoundDataFiles)
    else if line == "SimpleEvents" then SectionLine(SimpleEvents)
    else if line == "RandomEvents" then SectionLine(RandomEvents)
    else if line == "CompoundEvents" then SectionLine(CompoundEvents)
    else if line == "EventMaps" then SectionLine(EventMaps)
    else if line == "SoundDataBundles" then SectionLine(SoundDataBundles)
    else if line == "SoundParameterSets" then SectionLine(SoundParameterSets)
    else if line == "Pre" then SubLine(Pre)
    else if line == "Pan" then SubLine(Pan)
    else if line == "Pos" then SubLine(Pos)
    else OtherLine
  }

  /** The state variables of the reading loop: the current section header, the
      current EventMaps sub-section, the announced number of entries and the
      number read so far. The header only ever holds a header line's text or
      is empty, and likewise the sub-section, so both are kept as names. */
  datatype Parser = Parser(header: Section, sub: Sub, toRead: int, read: int)

  const Start := Parser(NoSection, NoSub, 0, 0)

  // ---------------------------------------------------------------------------
  // Rows
  // ---------------------------------------------------------------------------

  /** Each of ts trimmed. */
  function TrimAll(ts: seq<seq<char>>): (r: seq<seq<char>>)
    ensures |r| == |ts|
    decreases |ts|
  {
    if ts == [] then [] else TrimAll(ts[..|ts| - 1]) + [Trim(ts[|ts| - 1])]
  }

  lemma {:induction false} TrimAllAt(ts: seq<seq<char>>, k: nat)
    requires k < |ts|
    ensures TrimAll(ts)[k] == Trim(ts[k])
    decreases |ts|
  {
    if k < |ts| - 1 {
      TrimAllAt(ts[..|ts| - 1], k);
    }
  }

  /** The comma-separated fields of a line, each trimmed. */
  function Fields(line: seq<char>): seq<seq<char>> {
    TrimAll(SplitTokens(line, ','))
  }

  lemma TrimAllSnoc(ts: seq<seq<char>>, t: seq<char>)
    ensures TrimAll(ts + [t]) == TrimAll(ts) + [Trim(t)]
  {
    assert (ts + [t])[..|ts|] == ts;
  }

  /** One std::getline call of the token loop: the token variable's old value
      does not matter to what the loop collects. */
  lemma TokensStep(st: LineStream, tok: seq<char>, delim: char)
    ensures var r := Getline(st, tok, delim);
            TokensWhileGood(st, delim) == if r.ok then [r.token] + TokensWhileGood(r.stream, delim) else []
  {
  }

  /** The `while (std::getline(ss, token, ',')) tokens.push_back(TrimA(token))` loop. */
  method Tokenize(line: seq<char>) returns (tokens: seq<seq<char>>)
    ensures tokens == Fields(line)
  {
    tokens := [];
    ghost var raw: seq<seq<char>> := [];
    var st := LineStream(line, true);
    var token: seq<char> := [];
    while true
      invariant raw + TokensWhileGood(st, ',') == SplitTokens(line, ',')
      invariant tokens == TrimAll(raw)
      decreases |st.rest|, st.good
    {
      var r := Getline(st, token, ',');
      if !r.ok {
        assert raw == SplitTokens(line, ',') by { TokensStep(st, token, ','); }
        break;
      }
      assert raw + TokensWhileGood(st, ',') == (raw + [r.token]) + TokensWhileGood(r.stream, ',') by {
        TokensStep(st, token, ',');
      }
      assert TrimAll(raw + [r.token]) == tokens + [Trim(r.token)] by { TrimAllSnoc(raw, r.token); }
      raw := raw + [r.token];
      token := r.token;
      st := r.stream;
      tokens := tokens + [Trim(token)];
    }
  }

  /** The type letter of a SoundDataFile: the first character of its second
      field, or a space when that field is empty. */
  function TypeChar(field: seq<char>): (c: char)
    ensures field == [] ==> c == ' '
    ensures field != [] ==> c == field[0]
  {
    if field == [] then ' ' else field[0]
  }

  /** The text after the first '*', or all of it when there is none. */
  function AfterStar(s: seq<char>): (r: seq<char>)
    ensures |r| <= |s| && r == s[|s| - |r|..]
    ensures '*' !in s ==> r == s
    ensures '*' in s ==> |r| < |s| && s[|s| - |r| - 1] == '*' && '*' !in s[..|s| - |r| - 1]
  {
    match IndexOf(s, '*')
      case None => s
      case Some(p) => s[p + 1..]
  }

  /** The first n fields, each read with `parse`, in order; None as soon as
      one is rejected. */
  function ParseEach(toks: seq<seq<char>>, n: nat, parse: seq<char> -> Option<int>): (r: Option<seq<int>>)
    requires n <= |toks|
    ensures r.Some? ==> |r.value| == n
    decreases n
  {
    if n == 0 then Some([])
    else match ParseEach(toks, n - 1, parse)
      case None => None
      case Some(v) =>
        match parse(toks[n - 1])
          case None => None
          case Some(x) => Some(v + [x])
  }

  /** The fields are all read exactly when each one is accepted, and value k
      is then the reading of field k. */
  lemma {:induction false} ParseEachValues(toks: seq<seq<char>>, n: nat, parse: seq<char> -> Option<int>)
    requires n <= |toks|
    ensures ParseEach(toks, n, parse).Some? <==> forall k :: 0 <= k < n ==> parse(toks[k]).Some?
    ensures ParseEach(toks, n, parse).Some? ==>
              forall k :: 0 <= k < n ==> ParseEach(toks, n, parse).value[k] == parse(toks[k]).value
    decreases n
  {
    if n > 0 {
      ParseEachValues(toks, n - 1, parse);
    }
  }

  /** std::stoi on each of the first n fields, in order; None as soon as one
      throws. */
  function Numbers(toks: seq<seq<char>>, n: nat): (r: Option<seq<int>>)
    requires n <= |toks|
    ensures r.Some? ==> |r.value| == n
  {
    ParseEach(toks, n, Stoi)
  }

  /** The first n fields parse exactly when std::stoi accepts each of them, and
      number k is then std::stoi of field k. */
  lemma NumbersValues(toks: seq<seq<char>>, n: nat)
    requires n <= |toks|
    ensures Numbers(toks, n).Some? <==> forall k :: 0 <= k < n ==> Stoi(toks[k]).Some?
    ensures Numbers(toks, n).Some? ==>
              forall k :: 0 <= k < n ==> Numbers(toks, n).value[k] == Stoi(toks[k]).value
  {
    ParseEachValues(toks, n, Stoi);
  }

  function SdfRow(toks: seq<seq<char>>): Option<SoundDataFile>
    requires |toks| >= 3
  {
    match Numbers(toks, 1)
      case None => None
      case Some(v) => Some(SoundDataFile(v[0], TypeChar(toks[1]), toks[2]))
  }

  function SimpleRow(toks: seq<seq<char>>): Option<SimpleEvent>
    requires |toks| >= 4
  {
    match Numbers(toks, 4)
      case None => None
      case Some(v) => Some(SimpleEvent(v[0], v[1], v[2], v[3]))
  }

  function MapRow(sub: Sub, toks: seq<seq<char>>): Option<EventMapEntry>
    requires |toks| >= 4
  {
    match Numbers(toks, 3)
      case None => None
      case Some(v) => Some(EventMapEntry(sub, v[0], v[1], v[2], AfterStar(toks[3])))
  }

  /** A choice row (width 2) or a component row (width 3, whose third field is
      the delay that std::stof must accept). */
  function LinkOf(toks: seq<seq<char>>, width: nat, floatOk: seq<char> -> bool): Option<Link>
    requires 2 <= width <= |toks|
  {
    match Numbers(toks, 2)
      case None => None
      case Some(v) => if width < 3 || floatOk(toks[2]) then Some(Link(v[0], v[1])) else None
  }

  /** The effect of one entry row of the sections read one line per entry. */
  function RowEffect(header: Section, sub: Sub, toks: seq<seq<char>>, f: Flo): Flo {
    if header == SoundDataFiles then
      if |toks| >= 3 && SdfRow(toks).Some? then
        var e := SdfRow(toks).value;
        f.(sdfs := f.sdfs[e.id := e])
      else f
    else if header == SimpleEvents then
      if |toks| >= 4 && SimpleRow(toks).Some? then
        var e := SimpleRow(toks).value;
        f.(simples := f.simples[e.id := e], seToSdf := f.seToSdf[e.id := e.sdfId])
      else f
    else if header == EventMaps && sub != NoSub && |toks| >= 4 && MapRow(sub, toks).Some? then
      f.(eventMaps := f.eventMaps + [MapRow(sub, toks).value])
    else f
  }

  // ---------------------------------------------------------------------------
  // Random and compound events: a header row and its link rows
  // ---------------------------------------------------------------------------

  /** Where reading stopped, and the links read (None when a row threw). */
  datatype LinkRead = LinkRead(next: nat, links: Option<seq<Link>>)

  /** What one link row yields: too few fields (skipped, but it counts), a
      number that does not parse (the event is abandoned), or a link. */
  datatype LinkLine = Short | Broken | Read(link: Link)

  function ParseLinkLine(toks: seq<seq<char>>, width: nat, floatOk: seq<char> -> bool): LinkLine
    requires 2 <= width
  {
    if |toks| < width then Short
    else match LinkOf(toks, width, floatOk)
      case None => Broken
      case Some(l) => Read(l)
  }

  /** What each line would yield as a link row of the given width. */
  function LinkLines(lines: seq<seq<char>>, width: nat, floatOk: seq<char> -> bool): (r: seq<LinkLine>)
    requires 2 <= width
    ensures |r| == |lines|
  {
    seq(|lines|, k requires 0 <= k < |lines| => ParseLinkLine(Fields(lines[k]), width, floatOk))
  }

  /** The link rows i, i + 1, ... up to count of one event, the first at line
      j (rows[j] is what line j yields). Reading ends early at the end of the
      file; a row with too few fields is skipped but counts; a row whose
      numbers do not parse abandons the event after consuming that row. */
  function ReadLinks(rows: seq<LinkLine>, j: nat, i: int, count: int, acc: seq<Link>): (r: LinkRead)
    requires j <= |rows|
    ensures j <= r.next <= |rows|
    ensures r.next - j <= if i < count then count - i else 0
    ensures r.links.Some? ==> acc <= r.links.value && |r.links.value| - |acc| <= r.next - j
    ensures r.links.Some? && r.next - j < count - i ==> r.next == |rows|
    decreases |rows| - j
  {
    if i >= count || j == |rows| then LinkRead(j, Some(acc))
    else match rows[j]
      case Short => ReadLinks(rows, j + 1, i + 1, count, acc)
      case Broken => LinkRead(j + 1, None)
      case Read(l) => ReadLinks(rows, j + 1, i + 1, count, acc + [l])
  }

  /** One link row, read and trimmed. */
  method ReadLinkRow(raw: seq<seq<char>>, j: nat, width: nat, floatOk: seq<char> -> bool) returns (row: LinkLine)
    requires j < |raw| && 2 <= width
    ensures row == LinkLines(TrimAll(raw), width, floatOk)[j]
  {
    var toks := Tokenize(Trim(raw[j]));
    row := ParseLinkLine(toks, width, floatOk);
    TrimAllAt(raw, j);
  }

  /** The inner for-loop that reads the link rows of one event; `raw` are the
      lines of the file as std::getline returns them, each trimmed when read. */
  method ReadLinkRows(raw: seq<seq<char>>, j: nat, count: int, width: nat, floatOk: seq<char> -> bool)
    returns (r: LinkRead)
    requires j <= |raw| && 2 <= width
    ensures r == ReadLinks(LinkLines(TrimAll(raw), width, floatOk), j, 0, count, [])
  {
    ghost var rows := LinkLines(TrimAll(raw), width, floatOk);
    var next := j;
    var acc: seq<Link> := [];
    var i := 0;
    while i < count
      invariant j <= next <= |raw|
      invariant ReadLinks(rows, next, i, count, acc) == ReadLinks(rows, j, 0, count, [])
      decreases count - i
    {
      if next == |raw| {
        break;
      }
      var row := ReadLinkRow(raw, next, width, floatOk);
      next := next + 1;
      if row.Broken? {
        return LinkRead(next, None);
      } else if row.Read? {
        acc := acc + [row.link];
      }
      i := i + 1;
    }
    r := LinkRead(next, Some(acc));
  }

  /** A random (width 2) or compound (width 3) event whose header row is `toks`
      and whose link rows start at line j. A header row with fewer than two
      fields is treated as one that does not parse. */
  function LinkedRow(lines: seq<seq<char>>, j: nat, toks: seq<seq<char>>, width: nat,
                     floatOk: seq<char> -> bool): (r: (nat, Option<LinkedEvent>))
    requires j <= |lines| && 2 <= width
    ensures j <= r.0 <= |lines|
  {
    if |toks| < 2 || Numbers(toks, 2).None? then (j, None)
    else
      var v := Numbers(toks, 2).value;
      var rd := ReadLinks(LinkLines(lines, width, floatOk), j, 0, v[1], []);
      (rd.next, if rd.links.Some? then Some(LinkedEvent(v[0], rd.links.value)) else None)
  }

  /** The effect of one entry row (line j - 1), and the line after the rows it
      consumed. */
  function EntryRow(lines: seq<seq<char>>, j: nat, p: Parser, toks: seq<seq<char>>, f: Flo,
                    floatOk: seq<char> -> bool): (r: (nat, Flo))
    requires j <= |lines|
    ensures j <= r.0 <= |lines|
  {
    if p.header == RandomEvents then
      var (n, ev) := LinkedRow(lines, j, toks, 2, floatOk);
      (n, if ev.Some? then f.(randoms := f.randoms[ev.value.id := ev.value]) else f)
    else if p.header == CompoundEvents then
      var (n, ev) := LinkedRow(lines, j, toks, 3, floatOk);
      (n, if ev.Some? then f.(compounds := f.compounds[ev.value.id := ev.value]) else f)
    else (j, RowEffect(p.header, p.sub, toks, f))
  }

  // ---------------------------------------------------------------------------
  // The reading loop
  // ---------------------------------------------------------------------------

  /** After an entry: the section is left once the entries read reach the
      announced count, and the header is forgotten unless it is EventMaps. */
  function AfterEntry(p: Parser): Parser {
    var read := p.read + 1;
    if read >= p.toRead then Parser(if p.header != EventMaps then NoSection else p.header, p.sub, 0, read)
    else p.(read := read)
  }

  /** After the count line of header q: a count that does not parse, or a zero
      count (except for EventMaps' Pan and Pos), forgets the header. */
  function AfterCount(q: Parser, count: Option<int>): Parser {
    match count
      case None => q.(toRead := 0, header := NoSection)
      case Some(n) =>
        if n == 0 && !(q.header == EventMaps && (q.sub == Pan || q.sub == Pos))
        then q.(toRead := n, read := 0, header := NoSection)
        else q.(toRead := n, read := 0)
  }

  datatype StepResult = StepResult(next: nat, p: Parser, f: Flo, stop: bool)

  /** A header line at i (outside a section). A sub-section header outside
      EventMaps forgets header and sub-section; any other header reads the
      count on the next line, and a header on the last line ends the loop. */
  function HeaderStep(lines: seq<seq<char>>, i: nat, p: Parser, f: Flo, k: LineKind): (s: StepResult)
    requires i < |lines| && !k.OtherLine?
    ensures i < s.next <= |lines|
  {
    if k.SubLine? && p.header != EventMaps then StepResult(i + 1, p.(header := NoSection, sub := NoSub), f, false)
    else
      var q := if k.SubLine? then p.(sub := k.sub) else p.(header := k.section, sub := NoSub);
      if i + 1 == |lines| then StepResult(i + 1, q, f, true)
      else StepResult(i + 2, AfterCount(q, Stoi(lines[i + 1])), f, false)
  }

  /** One iteration of the reading loop, on line i; `lines` are the lines of
      the file, each already trimmed as the loop trims it when read. */
  function Step(lines: seq<seq<char>>, i: nat, p: Parser, f: Flo, floatOk: seq<char> -> bool): (s: StepResult)
    requires i < |lines|
    ensures i < s.next <= |lines|
  {
    var line := lines[i];
    if line == [] then StepResult(i + 1, p, f, false)
    else if p.toRead > 0 then
      var e := EntryRow(lines, i + 1, p, Fields(line), f, floatOk);
      StepResult(e.0, AfterEntry(p), e.1, false)
    else if !Classify(line).OtherLine? then HeaderStep(lines, i, p, f, Classify(line))
    else StepResult(i + 1, p, f, false)
  }

  /** The tables after reading the trimmed lines from line i on. */
  function Parse(lines: seq<seq<char>>, i: nat, p: Parser, f: Flo, floatOk: seq<char> -> bool): Flo
    requires i <= |lines|
    decreases |lines| - i
  {
    if i == |lines| then f
    else
      var s := Step(lines, i, p, f, floatOk);
      if s.stop then s.f else Parse(lines, s.next, s.p, s.f, floatOk)
  }

  /** One entry row, as the body of the loop reads it. */
  method ReadEntry(raw: seq<seq<char>>, j: nat, p: Parser, toks: seq<seq<char>>, f: Flo,
                   floatOk: seq<char> -> bool) returns (next: nat, g: Flo)
    requires j <= |raw|
    ensures (next, g) == EntryRow(TrimAll(raw), j, p, toks, f, floatOk)
  {
    next, g := j, f;
    if p.header == RandomEvents || p.header == CompoundEvents {
      var width := if p.header == RandomEvents then 2 else 3;
      if |toks| < 2 || Numbers(toks, 2).None? {
        return;
      }
      var v := Numbers(toks, 2).value;
      var rd := ReadLinkRows(raw, j, v[1], width, floatOk);
      next := rd.next;
      if rd.links.Some? {
        var ev := LinkedEvent(v[0], rd.links.value);
        if width == 2 {
          g := f.(randoms := f.randoms[ev.id := ev]);
        } else {
          g := f.(compounds := f.compounds[ev.id := ev]);
        }
      }
    } else {
      g := RowEffect(p.header, p.sub, toks, f);
    }
  }

  /** One pass of the body of ParseFlo's reading loop, on line i; `stop` is
      the break taken when a header is the last line. */
  method ReadStep(raw: seq<seq<char>>, i: nat, p: Parser, f: Flo, floatOk: seq<char> -> bool)
    returns (s: StepResult)
    requires i < |raw|
    ensures s == Step(TrimAll(raw), i, p, f, floatOk)
  {
    var line := Trim(raw[i]);
    TrimAllAt(raw, i);
    if line == [] {
      return StepResult(i + 1, p, f, false);
    }
    if p.toRead > 0 {
      var toks := Tokenize(line);
      var next, g := ReadEntry(raw, i + 1, p, toks, f, floatOk);
      s := StepResult(next, AfterEntry(p), g, false);
    } else if !Classify(line).OtherLine? {
      var k := Classify(line);
      if k.SubLine? && p.header != EventMaps {
        return StepResult(i + 1, p.(header := NoSection, sub := NoSub), f, false);
      }
      var q := if k.SubLine? then p.(sub := k.sub) else p.(header := k.section, sub := NoSub);
      if i + 1 == |raw| {
        return StepResult(i + 1, q, f, true);
      }
      var count := Stoi(Trim(raw[i + 1]));
      TrimAllAt(raw, i + 1);
      s := StepResult(i + 2, AfterCount(q, count), f, false);
    } else {
      s := StepResult(i + 1, p, f, false);
    }
  }

  /** The reading loop of ParseFlo over the lines of the file. */
  method ReadLines(raw: seq<seq<char>>, floatOk: seq<char> -> bool) returns (f: Flo)
    ensures f == Parse(TrimAll(raw), 0, Start, EmptyFlo, floatOk)
  {
    ghost var lines := TrimAll(raw);
    var i := 0;
    var p := Start;
    f := EmptyFlo;
    while i < |raw|
      invariant i <= |raw|
      invariant Parse(lines, i, p, f, floatOk) == Parse(lines, 0, Start, EmptyFlo, floatOk)
      decreases |raw| - i
    {
      var s := ReadStep(raw, i, p, f, floatOk);
      if s.stop {
        f := s.f;
        break;
      }
      i, p, f := s.next, s.p, s.f;
    }
  }

  // ---------------------------------------------------------------------------
  // The name map
  // ---------------------------------------------------------------------------

  /** The SoundDataFile a simple event plays, or -1. */
  function SdfOfSimple(f: Flo, se: int): int {
    if se in f.seToSdf then f.seToSdf[se] else -1
  }

  /** The SoundDataFile an EventMap reference renames, or -1 when it cannot be
      resolved: the reference as a simple event, else the first choice of a
      random event, else the first component of a compound event. A random
      event with choices whose first choice is unknown is not looked up as a
      compound event. */
  function Resolve(f: Flo, ref: int): int {
    if ref in f.seToSdf then f.seToSdf[ref]
    else if ref in f.randoms && f.randoms[ref].links != [] then SdfOfSimple(f, f.randoms[ref].links[0].simpleEventId)
    else if ref in f.compounds && f.compounds[ref].links != [] then SdfOfSimple(f, f.compounds[ref].links[0].simpleEventId)
    else -1
  }

  /** The name map built from EventMap entries es, in order: each resolved
      entry names its SoundDataFile, a later one replacing an earlier one. */
  function Names(f: Flo, es: seq<EventMapEntry>): map<int, seq<char>>
    decreases |es|
  {
    if es == [] then map[]
    else
      var m := Names(f, es[..|es| - 1]);
      var e := es[|es| - 1];
      var k := Resolve(f, e.eventRef);
      if k != -1 then m[k := e.name] else m
  }

  /** The post-parsing loop over the EventMap entries. */
  method BuildNames(f: Flo, es: seq<EventMapEntry>) returns (names: map<int, seq<char>>)
    ensures names == Names(f, es)
  {
    names := map[];
    for n := 0 to |es|
      invariant names == Names(f, es[..n])
    {
      assert es[..n + 1][..n] == es[..n];
      var k := Resolve(f, es[n].eventRef);
      if k != -1 {
        names := names[k := es[n].name];
      }
    }
    assert es[..|es|] == es;
  }

  /** ParseFlo: `canOpen` says whether the file could be opened. */
  method ParseFlo(canOpen: bool, raw: seq<seq<char>>, floatOk: seq<char> -> bool)
    returns (ok: bool, names: map<int, seq<char>>, flo: Flo)
    ensures ok == canOpen
    ensures !ok ==> names == map[] && flo == EmptyFlo
    ensures ok ==> flo == Parse(TrimAll(raw), 0, Start, EmptyFlo, floatOk) && names == Names(flo, flo.eventMaps)
  {
    if !canOpen {
      return false, map[], EmptyFlo;
    }
    flo := ReadLines(raw, floatOk);
    names := BuildNames(flo, flo.eventMaps);
    ok := true;
  }

  // ---------------------------------------------------------------------------
  // Properties of the reader
  // ---------------------------------------------------------------------------

  /** Each header name reads back as its header. */
  lemma ClassifyNames(s: Section, u: Sub)
    ensures s != NoSection ==> Classify(SectionName(s)) == SectionLine(s)
    ensures u != NoSub ==> Classify(SubName(u)) == SubLine(u)
  {
  }

  /** A line is classified as a header only when it is that header's name. */
  lemma ClassifyOnlyNames(line: seq<char>)
    ensures Classify(line).SectionLine? ==> Classify(line).section != NoSection && line == SectionName(Classify(line).section)
    ensures Classify(line).SubLine? ==> Classify(line).sub != NoSub && line == SubName(Classify(line).sub)
  {
  }

  /** Tables keyed by their rows' ids, the simple event to SoundDataFile map in
      step with the SimpleEvents table, and every EventMap entry filed under
      Pre, Pan or Pos. */
  ghost predicate WellFormed(f: Flo) {
    (forall id :: id in f.sdfs ==> f.sdfs[id].id == id) &&
    (forall id :: id in f.simples ==> f.simples[id].id == id) &&
    (forall id :: id in f.randoms ==> f.randoms[id].id == id) &&
    (forall id :: id in f.compounds ==> f.compounds[id].id == id) &&
    f.seToSdf.Keys == f.simples.Keys &&
    (forall id :: id in f.simples ==> f.seToSdf[id] == f.simples[id].sdfId) &&
    (forall k :: 0 <= k < |f.eventMaps| ==> f.eventMaps[k].section != NoSub)
  }

  /** g holds everything f holds: no table loses an id, and EventMap entries
      are only appended. */
  ghost predicate Grows(f: Flo, g: Flo) {
    f.sdfs.Keys <= g.sdfs.Keys && f.simples.Keys <= g.simples.Keys &&
    f.randoms.Keys <= g.randoms.Keys && f.compounds.Keys <= g.compounds.Keys &&
    f.eventMaps <= g.eventMaps
  }

  lemma SdfAdded(f: Flo, e: SoundDataFile)
    requires WellFormed(f)
    ensures WellFormed(f.(sdfs := f.sdfs[e.id := e])) && Grows(f, f.(sdfs := f.sdfs[e.id := e]))
  {
  }

  lemma SimpleAdded(f: Flo, e: SimpleEvent)
    requires WellFormed(f)
    ensures var g := f.(simples := f.simples[e.id := e], seToSdf := f.seToSdf[e.id := e.sdfId]);
            WellFormed(g) && Grows(f, g)
  {
    var g := f.(simples := f.simples[e.id := e], seToSdf := f.seToSdf[e.id := e.sdfId]);
    assert g.seToSdf.Keys == g.simples.Keys;
  }

  lemma MapEntryAdded(f: Flo, e: EventMapEntry)
    requires WellFormed(f) && e.section != NoSub
    ensures WellFormed(f.(eventMaps := f.eventMaps + [e])) && Grows(f, f.(eventMaps := f.eventMaps + [e]))
  {
    var g := f.(eventMaps := f.eventMaps + [e]);
    forall k | 0 <= k < |g.eventMaps| ensures g.eventMaps[k].section != NoSub {
      if k < |f.eventMaps| {
        assert g.eventMaps[k] == f.eventMaps[k];
      }
    }
  }

  lemma RandomAdded(f: Flo, e: LinkedEvent)
    requires WellFormed(f)
    ensures WellFormed(f.(randoms := f.randoms[e.id := e])) && Grows(f, f.(randoms := f.randoms[e.id := e]))
  {
  }

  lemma CompoundAdded(f: Flo, e: LinkedEvent)
    requires WellFormed(f)
    ensures WellFormed(f.(compounds := f.compounds[e.id := e])) && Grows(f, f.(compounds := f.compounds[e.id := e]))
  {
  }

  lemma GrowsRefl(f: Flo)
    ensures Grows(f, f)
  {
  }

  lemma RowEffectKeeps(header: Section, sub: Sub, toks: seq<seq<char>>, f: Flo)
    requires WellFormed(f)
    ensures WellFormed(RowEffect(header, sub, toks, f)) && Grows(f, RowEffect(header, sub, toks, f))
  {
    GrowsRefl(f);
    if header == SoundDataFiles {
      if |toks| >= 3 && SdfRow(toks).Some? {
        SdfAdded(f, SdfRow(toks).value);
      }
    } else if header == SimpleEvents {
      if |toks| >= 4 && SimpleRow(toks).Some? {
        SimpleAdded(f, SimpleRow(toks).value);
      }
    } else if header == EventMaps && sub != NoSub && |toks| >= 4 && MapRow(sub, toks).Some? {
      MapEntryAdded(f, MapRow(sub, toks).value);
    }
  }

  lemma EntryRowKeeps(lines: seq<seq<char>>, j: nat, p: Parser, toks: seq<seq<char>>, f: Flo, floatOk: seq<char> -> bool)
    requires j <= |lines| && WellFormed(f)
    ensures var g := EntryRow(lines, j, p, toks, f, floatOk).1;
            WellFormed(g) && Grows(f, g)
  {
    GrowsRefl(f);
    if p.header == RandomEvents {
      var ev := LinkedRow(lines, j, toks, 2, floatOk).1;
      if ev.Some? {
        RandomAdded(f, ev.value);
      }
    } else if p.header == CompoundEvents {
      var ev := LinkedRow(lines, j, toks, 3, floatOk).1;
      if ev.Some? {
        CompoundAdded(f, ev.value);
      }
    } else {
      RowEffectKeeps(p.header, p.sub, toks, f);
    }
  }

  /** A step changes the tables only through an entry row. */
  lemma StepTables(lines: seq<seq<char>>, i: nat, p: Parser, f: Flo, floatOk: seq<char> -> bool)
    requires i < |lines|
    ensures var s, line := Step(lines, i, p, f, floatOk), lines[i];
            s.f == f || (line != [] && p.toRead > 0 && s.f == EntryRow(lines, i + 1, p, Fields(line), f, floatOk).1)
  {
  }

  lemma StepKeeps(lines: seq<seq<char>>, i: nat, p: Parser, f: Flo, floatOk: seq<char> -> bool)
    requires i < |lines| && WellFormed(f)
    ensures var s := Step(lines, i, p, f, floatOk);
            WellFormed(s.f) && Grows(f, s.f)
  {
    GrowsRefl(f);
    StepTables(lines, i, p, f, floatOk);
    var line := lines[i];
    if line != [] && p.toRead > 0 {
      EntryRowKeeps(lines, i + 1, p, Fields(line), f, floatOk);
    }
  }

  /** Reading keeps the tables well formed and only adds to them. */
  lemma {:induction false} ParseKeeps(lines: seq<seq<char>>, i: nat, p: Parser, f: Flo, floatOk: seq<char> -> bool)
    requires i <= |lines| && WellFormed(f)
    ensures WellFormed(Parse(lines, i, p, f, floatOk)) && Grows(f, Parse(lines, i, p, f, floatOk))
    decreases |lines| - i
  {
    if i < |lines| {
      var s := Step(lines, i, p, f, floatOk);
      StepKeeps(lines, i, p, f, floatOk);
      if !s.stop {
        ParseKeeps(lines, s.next, s.p, s.f, floatOk);
      }
    }
  }

  /** The tables ParseFlo returns are well formed. */
  lemma ParsedWellFormed(lines: seq<seq<char>>, floatOk: seq<char> -> bool)
    ensures WellFormed(Parse(lines, 0, Start, EmptyFlo, floatOk))
  {
    ParseKeeps(lines, 0, Start, EmptyFlo, floatOk);
  }

  /** An EventMap entry is recorded only for an entry row read while EventMaps
      is the current section and a sub-section is set; it is filed under that
      sub-section and carries the text after the first '*' of its fourth field. */
  lemma EventMapEntryOrigin(lines: seq<seq<char>>, i: nat, p: Parser, f: Flo, floatOk: seq<char> -> bool)
    requires i < |lines|
    ensures var s := Step(lines, i, p, f, floatOk);
            s.f.eventMaps == f.eventMaps ||
            (p.toRead > 0 && p.header == EventMaps && p.sub != NoSub &&
             var toks := Fields(lines[i]);
             |toks| >= 4 && Stoi(toks[0]).Some? && Stoi(toks[1]).Some? && Stoi(toks[2]).Some? &&
             s.f.eventMaps == f.eventMaps + [EventMapEntry(p.sub, Stoi(toks[0]).value, Stoi(toks[1]).value,
                                                           Stoi(toks[2]).value, AfterStar(toks[3]))])
  {
    StepTables(lines, i, p, f, floatOk);
    var line := lines[i];
    if line != [] && p.toRead > 0 {
      var toks := Fields(line);
      EntryRowMaps(lines, i + 1, p, toks, f, floatOk);
      if |toks| >= 4 {
        NumbersValues(toks, 3);
      }
    }
  }

  lemma EntryRowMaps(lines: seq<seq<char>>, j: nat, p: Parser, toks: seq<seq<char>>, f: Flo, floatOk: seq<char> -> bool)
    requires j <= |lines|
    ensures var g := EntryRow(lines, j, p, toks, f, floatOk).1;
            g.eventMaps == f.eventMaps ||
            (p.header == EventMaps && p.sub != NoSub && |toks| >= 4 && MapRow(p.sub, toks).Some? &&
             g.eventMaps == f.eventMaps + [MapRow(p.sub, toks).value])
  {
    if p.header != RandomEvents && p.header != CompoundEvents {
      assert EntryRow(lines, j, p, toks, f, floatOk).1 == RowEffect(p.header, p.sub, toks, f);
    }
  }

  /** The number of non-blank lines in [i, e). */
  function NonBlank(lines: seq<seq<char>>, i: nat, e: nat): nat
    requires i <= e <= |lines|
    decreases e - i
  {
    if i == e then 0 else (if lines[i] == [] then 0 else 1) + NonBlank(lines, i + 1, e)
  }

  /** The tables after the rows in [i, e) of a section read one line per
      entry, blank lines skipped. */
  function PlainRows(lines: seq<seq<char>>, i: nat, e: nat, header: Section, sub: Sub, f: Flo): Flo
    requires i <= e <= |lines|
    decreases e - i
  {
    if i == e then f
    else
      var line := lines[i];
      PlainRows(lines, i + 1, e, header, sub, if line == [] then f else RowEffect(header, sub, Fields(line), f))
  }

  lemma {:induction false} NonBlankLast(lines: seq<seq<char>>, i: nat, e: nat)
    requires i < e <= |lines| && lines[e - 1] != []
    ensures NonBlank(lines, i, e) >= 1
    decreases e - i
  {
    if i + 1 < e {
      NonBlankLast(lines, i + 1, e);
    }
  }

  /** A section read one line per entry (all but RandomEvents and
      CompoundEvents): blank lines are skipped and do not count, the next
      toRead - read non-blank lines are its entries, and then the section is
      left, its header forgotten unless it is EventMaps. */
  lemma {:induction false} SectionRows(lines: seq<seq<char>>, i: nat, e: nat, p: Parser, f: Flo, floatOk: seq<char> -> bool)
    requires i < e <= |lines| && lines[e - 1] != []
    requires p.header != RandomEvents && p.header != CompoundEvents
    requires p.toRead > 0 && p.read + NonBlank(lines, i, e) == p.toRead
    ensures Parse(lines, i, p, f, floatOk) ==
            Parse(lines, e, Parser(if p.header == EventMaps then p.header else NoSection, p.sub, 0, p.toRead),
                  PlainRows(lines, i, e, p.header, p.sub, f), floatOk)
    decreases e - i
  {
    if lines[i] == [] {
      ParseBlank(lines, i, p, f, floatOk);
      SectionRows(lines, i + 1, e, p, f, floatOk);
    } else {
      ParseRow(lines, i, p, f, floatOk);
      if i + 1 < e {
        NonBlankLast(lines, i + 1, e);
        SectionRows(lines, i + 1, e, AfterEntry(p), RowEffect(p.header, p.sub, Fields(lines[i]), f), floatOk);
      }
    }
  }

  lemma ParseBlank(lines: seq<seq<char>>, i: nat, p: Parser, f: Flo, floatOk: seq<char> -> bool)
    requires i < |lines| && lines[i] == []
    ensures Parse(lines, i, p, f, floatOk) == Parse(lines, i + 1, p, f, floatOk)
  {
  }

  lemma ParseRow(lines: seq<seq<char>>, i: nat, p: Parser, f: Flo, floatOk: seq<char> -> bool)
    requires i < |lines| && lines[i] != [] && p.toRead > 0
    requires p.header != RandomEvents && p.header != CompoundEvents
    ensures Parse(lines, i, p, f, floatOk) ==
            Parse(lines, i + 1, AfterEntry(p), RowEffect(p.header, p.sub, Fields(lines[i]), f), floatOk)
  {
  }

  /** A sub-section header read while EventMaps is not the current section
      forgets the section and sub-section, and the line after it is not taken
      as a count. */
  lemma StraySubsection(lines: seq<seq<char>>, i: nat, p: Parser, f: Flo, floatOk: seq<char> -> bool)
    requires i < |lines| && p.toRead <= 0
    requires Classify(lines[i]).SubLine? && p.header != EventMaps
    ensures Parse(lines, i, p, f, floatOk) == Parse(lines, i + 1, Parser(NoSection, NoSub, p.toRead, p.read), f, floatOk)
  {
  }

  /** With no entry rows pending, a header line takes the header branch. */
  lemma StepIsHeader(lines: seq<seq<char>>, i: nat, p: Parser, f: Flo, floatOk: seq<char> -> bool)
    requires i < |lines| && p.toRead <= 0 && !Classify(lines[i]).OtherLine?
    ensures Step(lines, i, p, f, floatOk) == HeaderStep(lines, i, p, f, Classify(lines[i]))
  {
  }

  /** A header followed by a count n: the count line is consumed, the section
      expects n entries, and a zero count forgets the section except for the
      Pan and Pos sub-sections of EventMaps. */
  lemma HeaderCount(lines: seq<seq<char>>, i: nat, p: Parser, f: Flo, floatOk: seq<char> -> bool, n: int)
    requires i + 1 < |lines| && p.toRead <= 0
    requires var k := Classify(lines[i]); !k.OtherLine? && (k.SubLine? ==> p.header == EventMaps)
    requires Stoi(lines[i + 1]) == Some(n)
    ensures var k, s := Classify(lines[i]), Step(lines, i, p, f, floatOk);
            s.next == i + 2 && !s.stop && s.f == f && s.p.toRead == n && s.p.read == 0 &&
            s.p.sub == (if k.SubLine? then k.sub else NoSub) &&
            (n != 0 ==> s.p.header == if k.SubLine? then EventMaps else k.section) &&
            (n == 0 ==> (s.p.header == EventMaps <==> k == SubLine(Pan) || k == SubLine(Pos))) &&
            (n == 0 ==> s.p.header == NoSection || s.p.header == EventMaps)
  {
    StepIsHeader(lines, i, p, f, floatOk);
  }

  /** A header whose count line does not parse forgets the section. */
  lemma HeaderBadCount(lines: seq<seq<char>>, i: nat, p: Parser, f: Flo, floatOk: seq<char> -> bool)
    requires i + 1 < |lines| && p.toRead <= 0
    requires var k := Classify(lines[i]); !k.OtherLine? && (k.SubLine? ==> p.header == EventMaps)
    requires Stoi(lines[i + 1]).None?
    ensures var s := Step(lines, i, p, f, floatOk);
            s.next == i + 2 && !s.stop && s.f == f && s.p.header == NoSection && s.p.toRead == 0
  {
    StepIsHeader(lines, i, p, f, floatOk);
  }

  // ---------------------------------------------------------------------------
  // Properties of the name map
  // ---------------------------------------------------------------------------

  /** The simple event an EventMap reference plays first: itself, else the
      first choice of the random event, else the first component of the
      compound event. */
  function FirstSimple(f: Flo, ref: int): Option<int> {
    if ref in f.simples then Some(ref)
    else if ref in f.randoms && f.randoms[ref].links != [] then Some(f.randoms[ref].links[0].simpleEventId)
    else if ref in f.compounds && f.compounds[ref].links != [] then Some(f.compounds[ref].links[0].simpleEventId)
    else None
  }

  /** On well-formed tables a reference renames the SoundDataFile of the simple
      event it plays first, read from the SimpleEvents table. */
  lemma ResolveIsFirstSimple(f: Flo, ref: int)
    requires WellFormed(f)
    ensures Resolve(f, ref) ==
            match FirstSimple(f, ref)
              case Some(se) => if se in f.simples then f.simples[se].sdfId else -1
              case None => -1
  {
  }

  /** The name map holds a SoundDataFile id exactly when some entry resolves to
      it, and its name is that of the last such entry. */
  lemma {:induction false} NamesLastWins(f: Flo, es: seq<EventMapEntry>, k: int)
    ensures k in Names(f, es) <==> k != -1 && exists j :: 0 <= j < |es| && Resolve(f, es[j].eventRef) == k
    ensures k in Names(f, es) ==>
              exists j :: 0 <= j < |es| && Resolve(f, es[j].eventRef) == k && Names(f, es)[k] == es[j].name &&
                          forall j2 :: j < j2 < |es| ==> Resolve(f, es[j2].eventRef) != k
    decreases |es|
  {
    if es != [] {
      var init := es[..|es| - 1];
      NamesLastWins(f, init, k);
      var last := |es| - 1;
      if Resolve(f, es[last].eventRef) == k && k != -1 {
        assert Names(f, es)[k] == es[last].name;
      } else if k in Names(f, es) {
        var j :| 0 <= j < |init| && Resolve(f, init[j].eventRef) == k && Names(f, init)[k] == init[j].name &&
                 forall j2 :: j < j2 < |init| ==> Resolve(f, init[j2].eventRef) != k;
        assert es[j] == init[j];
        assert forall j2 :: j < j2 < |es| ==> Resolve(f, es[j2].eventRef) != k by {
          forall j2 | j < j2 < |es| ensures Resolve(f, es[j2].eventRef) != k {
            if j2 < last {
              assert es[j2] == init[j2];
            }
          }
        }
      } else {
        forall j | 0 <= j < |es| ensures Resolve(f, es[j].eventRef) != k || k == -1 {
          if j < last {
            assert es[j] == init[j];
          }
        }
      }
    }
  }
}
