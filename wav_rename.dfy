/** The renaming half of the WAV renamer: for one .flo whose folder has an
    "extracted" sub-folder, the WAVs named after SoundDataFile indices
    ("12.wav", "track_12.wav") are renamed to the EventMap name the .flo gives
    that SoundDataFile. Also the id lists of the name linkage report. */
module WavRename {
  import opened Optional
  import opened Text
  import opened WavFlo

  // ---------------------------------------------------------------------------
  // join_ids and the name linkage report
  // ---------------------------------------------------------------------------

  /** The ids in order, separated by ", ", each as a wide string stream
      writes an int. */
  function JoinIds(ids: seq<int>): (r: seq<char>)
    ensures r == [] <==> ids == []
    decreases |ids|
  {
    if ids == [] then []
    else if |ids| == 1 then IntToDecimal(ids[0])
    else IntToDecimal(ids[0]) + ", " + JoinIds(ids[1..])
  }

  lemma {:induction false} JoinIdsSnoc(ids: seq<int>, x: int)
    ensures JoinIds(ids + [x]) == if ids == [] then IntToDecimal(x) else JoinIds(ids) + ", " + IntToDecimal(x)
    decreases |ids|
  {
    if |ids| == 1 {
      assert (ids + [x])[1..] == [x];
    } else if |ids| > 1 {
      assert (ids + [x])[1..] == ids[1..] + [x];
      JoinIdsSnoc(ids[1..], x);
      assert IntToDecimal(ids[0]) + ", " + (JoinIds(ids[1..]) + ", " + IntToDecimal(x))
          == (IntToDecimal(ids[0]) + ", " + JoinIds(ids[1..])) + ", " + IntToDecimal(x);
    }
  }

  /** The join_ids loop: a separator before every id but the first. */
  method JoinIdsText(ids: seq<int>) returns (s: seq<char>)
    ensures s == JoinIds(ids)
  {
    s := [];
    for i := 0 to |ids|
      invariant s == JoinIds(ids[..i])
    {
      JoinIdsSnoc(ids[..i], ids[i]);
      assert ids[..i + 1] == ids[..i] + [ids[i]];
      if i > 0 {
        s := s + ", ";
      }
      s := s + IntToDecimal(ids[i]);
    }
    assert ids[..|ids|] == ids;
  }

  /** The decimals of the ids, in order. */
  function Decimals(ids: seq<int>): (r: seq<seq<char>>)
    ensures |r| == |ids|
    decreases |ids|
  {
    if ids == [] then [] else [IntToDecimal(ids[0])] + Decimals(ids[1..])
  }

  lemma {:induction false} DecimalsAt(ids: seq<int>, k: nat)
    requires k < |ids|
    ensures Decimals(ids)[k] == IntToDecimal(ids[k])
    decreases k
  {
    if k > 0 {
      DecimalsAt(ids[1..], k - 1);
    }
  }

  lemma {:induction false} TrimAllCons(a: seq<char>, xs: seq<seq<char>>)
    ensures TrimAll([a] + xs) == [Trim(a)] + TrimAll(xs)
    decreases |xs|
  {
    if xs != [] {
      var n := |xs| - 1;
      assert ([a] + xs)[..|xs|] == [a] + xs[..n];
      TrimAllCons(a, xs[..n]);
    }
  }

  /** Behind blanks, a joined id list splits at its commas into pieces that
      trim to the ids' decimals. */
  lemma {:induction false} SplitJoinedIds(p: seq<char>, ids: seq<int>)
    requires ids != [] && AllTrimSpace(p) && ',' !in p
    ensures TrimAll(SplitTokens(p + JoinIds(ids), ',')) == Decimals(ids)
    decreases |ids|
  {
    var d := IntToDecimal(ids[0]);
    DecimalHasNoTrimSpace(ids[0]);
    TrimOfPadded(p, d, []);
    assert p + d + [] == p + d;
    assert ',' !in p + d;
    if |ids| == 1 {
      SplitSingle(p + d, ',');
      TrimAllCons(p + d, []);
    } else {
      var rest := JoinIds(ids[1..]);
      assert JoinIds(ids) == d + ", " + rest;
      assert p + JoinIds(ids) == (p + d) + [','] + ([' '] + rest) by {
        SplitAfterComma(p, d, rest);
      }
      SplitJoined(p + d, [' '] + rest, ',');
      var more := SplitTokens([' '] + rest, ',');
      TrimAllCons(p + d, more);
      SplitJoinedIds([' '], ids[1..]);
    }
  }

  lemma SplitAfterComma(p: seq<char>, d: seq<char>, rest: seq<char>)
    ensures p + (d + ", " + rest) == (p + d) + [','] + ([' '] + rest)
  {
    assert ", " == [','] + [' '];
  }

  /** The list join_ids writes, split at its commas and each piece trimmed
      as the .flo reader does, reads back as the ids. */
  lemma JoinIdsRoundTrip(ids: seq<int>)
    requires forall k :: 0 <= k < |ids| ==> INT_MIN <= ids[k] <= INT_MAX
    ensures |Fields(JoinIds(ids))| == |ids|
    ensures forall k :: 0 <= k < |ids| ==> Stoi(Fields(JoinIds(ids))[k]) == Some(ids[k])
  {
    if ids == [] {
      assert SplitTokens([], ',') == [];
    } else {
      SplitJoinedIds([], ids);
      assert [] + JoinIds(ids) == JoinIds(ids);
      var toks := Decimals(ids);
      forall k | 0 <= k < |ids|
        ensures Stoi(toks[k]) == Some(ids[k])
      {
        DecimalsAt(ids, k);
        DecimalRoundTrip(ids[k]);
      }
    }
  }

  /** The event references of the EventMap entries with the given name, in
      order. */
  function RefsNamed(es: seq<EventMapEntry>, name: seq<char>): (r: seq<int>)
    ensures |r| <= |es|
    decreases |es|
  {
    if es == [] then []
    else RefsNamed(es[..|es| - 1], name) + (if es[|es| - 1].name == name then [es[|es| - 1].eventRef] else [])
  }

  /** A name has references exactly when some entry carries it, and two or
      more exactly when two entries carry it. */
  lemma {:induction false} RefsNamedCount(es: seq<EventMapEntry>, name: seq<char>)
    ensures RefsNamed(es, name) != [] <==> exists j :: 0 <= j < |es| && es[j].name == name
    ensures |RefsNamed(es, name)| > 1 <==>
            exists j1, j2 :: 0 <= j1 < j2 < |es| && es[j1].name == name && es[j2].name == name
    decreases |es|
  {
    if es != [] {
      var init := es[..|es| - 1];
      RefsNamedCount(init, name);
      assert forall j :: 0 <= j < |init| ==> init[j] == es[j];
      if es[|es| - 1].name == name {
        assert (exists j :: 0 <= j < |es| && es[j].name == name);
        if RefsNamed(init, name) != [] {
          var j :| 0 <= j < |init| && init[j].name == name;
          assert es[j].name == name && es[|es| - 1].name == name;
        }
      }
    }
  }

  /** The eventNameReferencingIDs map: each EventMap name to the references of
      the entries that carry it. */
  method NameLinkage(es: seq<EventMapEntry>) returns (m: map<seq<char>, seq<int>>)
    ensures forall name :: name in m <==> RefsNamed(es, name) != []
    ensures forall name :: name in m ==> m[name] == RefsNamed(es, name)
  {
    m := map[];
    for i := 0 to |es|
      invariant forall name :: RefsNamed(es[..i], name) == if name in m then m[name] else []
      invariant forall name :: name in m ==> m[name] != []
    {
      assert es[..i + 1][..i] == es[..i];
      var e := es[i];
      var refs := if e.name in m then m[e.name] else [];
      m := m[e.name := refs + [e.eventRef]];
    }
    assert es[..|es|] == es;
  }

  /** The names the report lists: those used by more than one entry. */
  function SharedNames(m: map<seq<char>, seq<int>>): set<seq<char>> {
    set name | name in m && |m[name]| > 1
  }

  // ---------------------------------------------------------------------------
  // File names
  // ---------------------------------------------------------------------------

  /** The index of the last '.' of s. */
  function LastDot(s: seq<char>): (r: Option<nat>)
    ensures r.None? ==> '.' !in s
    ensures r.Some? ==> r.value < |s| && s[r.value] == '.' && '.' !in s[r.value + 1..]
    decreases |s|
  {
    if s == [] then None
    else if s[|s| - 1] == '.' then Some(|s| - 1)
    else
      var r := LastDot(s[..|s| - 1]);
      assert s == s[..|s| - 1] + [s[|s| - 1]];
      if r.Some? then
        assert s[r.value + 1..] == s[..|s| - 1][r.value + 1..] + [s[|s| - 1]];
        r
      else r
  }

  /** Where path::extension starts in a file name: at its last '.', except
      in "." and "..", and except when that dot is the first character. */
  function ExtensionStart(name: seq<char>): (i: nat)
    ensures i <= |name|
  {
    if name == "." || name == ".." then |name|
    else match LastDot(name)
      case None => |name|
      case Some(d) => if d == 0 then |name| else d
  }

  /** path::extension and path::stem of a file name. */
  function Extension(name: seq<char>): seq<char> {
    name[ExtensionStart(name)..]
  }

  function Stem(name: seq<char>): seq<char> {
    name[..ExtensionStart(name)]
  }

  /** towlower in the C locale. */
  function LowerChar(c: char): char {
    if 'A' <= c <= 'Z' then (c as int - 'A' as int + 'a' as int) as char else c
  }

  function LowerAscii(s: seq<char>): (r: seq<char>)
    ensures |r| == |s|
  {
    seq(|s|, k requires 0 <= k < |s| => LowerChar(s[k]))
  }

  /** LowerExt(path) == L".wav". */
  predicate IsWavName(name: seq<char>) {
    LowerAscii(Extension(name)) == ".wav"
  }

  /** The extension is empty or a dot followed by dot-free text, and the stem
      and the extension make up the name. */
  lemma ExtensionShape(name: seq<char>)
    ensures Stem(name) + Extension(name) == name
    ensures Extension(name) == [] || (Extension(name)[0] == '.' && '.' !in Extension(name)[1..])
    ensures Extension(name) != [] ==> Stem(name) != []
  {
    var i := ExtensionStart(name);
    if i < |name| {
      assert Extension(name)[1..] == name[i + 1..];
    }
  }

  /** A file is a WAV exactly when its extension is ".wav" in any letter case. */
  lemma IsWavNameIff(name: seq<char>)
    ensures IsWavName(name) <==>
            var e := Extension(name);
            |e| == 4 && e[0] == '.' && e[1] in "wW" && e[2] in "aA" && e[3] in "vV"
  {
    var e := Extension(name);
    if IsWavName(name) {
      assert LowerAscii(e)[1] == 'w' && LowerAscii(e)[2] == 'a' && LowerAscii(e)[3] == 'v';
    }
  }

  lemma {:induction false} LastDotBefore(a: seq<char>, b: seq<char>)
    requires '.' !in b
    ensures LastDot(a + ['.'] + b) == Some(|a|)
    decreases |b|
  {
    var s := a + ['.'] + b;
    if b != [] {
      assert s[..|s| - 1] == a + ['.'] + b[..|b| - 1];
      LastDotBefore(a, b[..|b| - 1]);
    }
  }

  /** A non-empty base with ".wav" appended has the stem base and the
      extension ".wav". */
  lemma WavNameParts(base: seq<char>)
    requires base != []
    ensures Extension(base + ".wav") == ".wav" && Stem(base + ".wav") == base
  {
    assert base + ".wav" == base + ['.'] + "wav";
    LastDotBefore(base, "wav");
  }

  // ---------------------------------------------------------------------------
  // The SoundDataFile index of a WAV
  // ---------------------------------------------------------------------------

  const TrackPrefix: seq<char> := "track_"

  /** The trimmed stem without a leading "track_". */
  function StemDigits(stem: seq<char>): seq<char> {
    var t := Trim(stem);
    if |t| >= |TrackPrefix| && t[..|TrackPrefix|] == TrackPrefix then t[|TrackPrefix|..] else t
  }

  /** The SoundDataFile index a WAV stem names, or None when the WAV is
      skipped: the rest of the stem is empty or not all digits, or std::stoi
      throws out_of_range, or the index is negative. */
  function StemIndex(stem: seq<char>): (r: Option<int>)
    ensures r.Some? ==> 0 <= r.value <= INT_MAX
  {
    var d := StemDigits(stem);
    if !(AllDigits(d) && d != []) then None
    else match Stoi(d)
      case None => None
      case Some(k) => if k < 0 then None else Some(k)
  }

  /** A stem names an index exactly when what follows "track_" is a non-empty
      digit string whose value fits an int; the index is that value, leading
      zeros and all. */
  lemma StemIndexValue(stem: seq<char>)
    ensures var d := StemDigits(stem);
            StemIndex(stem) == if d != [] && AllDigits(d) && DigitsValue(d) <= INT_MAX then Some(DigitsValue(d)) else None
  {
    var d := StemDigits(stem);
    if d != [] && AllDigits(d) {
      StoiOfDigits(d);
    }
  }

  lemma TrimDecimal(p: seq<char>, k: nat)
    requires p == [] || p == TrackPrefix
    ensures Trim(p + NatToDecimal(k)) == p + NatToDecimal(k)
  {
    var s := p + NatToDecimal(k);
    assert IsDigit(s[|s| - 1]);
    TrimOfPadded([], s, []);
    assert [] + s + [] == s;
  }

  /** A trimmed stem that does not start with 't' is its own digit part. */
  lemma StemDigitsUnprefixed(t: seq<char>)
    requires Trim(t) == t && (t == [] || t[0] != 't')
    ensures StemDigits(t) == t
  {
    if |t| >= |TrackPrefix| {
      assert t[..|TrackPrefix|][0] == t[0];
    }
  }

  /** A plain decimal has no "track_" prefix to strip: it starts with a digit. */
  lemma StemDigitsPlain(k: nat)
    ensures StemDigits(NatToDecimal(k)) == NatToDecimal(k)
  {
    var d := NatToDecimal(k);
    TrimDecimal([], k);
    assert [] + d == d;
    assert IsDigit(d[0]);
    StemDigitsUnprefixed(d);
  }

  lemma StemDigitsTrack(k: nat)
    ensures StemDigits(TrackPrefix + NatToDecimal(k)) == NatToDecimal(k)
  {
    var s := TrackPrefix + NatToDecimal(k);
    TrimDecimal(TrackPrefix, k);
    assert s[..|TrackPrefix|] == TrackPrefix && s[|TrackPrefix|..] == NatToDecimal(k);
  }

  lemma StemDigitsOfDecimal(k: nat, track: bool)
    ensures StemDigits((if track then TrackPrefix else []) + NatToDecimal(k)) == NatToDecimal(k)
  {
    if track {
      StemDigitsTrack(k);
    } else {
      StemDigitsPlain(k);
      assert [] + NatToDecimal(k) == NatToDecimal(k);
    }
  }

  /** "k" and "track_k" both name index k. */
  lemma StemIndexOfDecimal(k: nat, track: bool)
    requires k <= INT_MAX
    ensures StemIndex((if track then TrackPrefix else []) + NatToDecimal(k)) == Some(k)
  {
    StemDigitsOfDecimal(k, track);
    StemIndexValue((if track then TrackPrefix else []) + NatToDecimal(k));
  }

  // ---------------------------------------------------------------------------
  // The new name
  // ---------------------------------------------------------------------------

  /** The characters replaced by '_' in a new base name. */
  predicate IsBadChar(c: char) {
    c == '*' || c == '/' || c == '\\'
  }

  /** std::replace(s.begin(), s.end(), a, b). */
  function Replace(s: seq<char>, a: char, b: char): (r: seq<char>) {
    seq(|s|, k requires 0 <= k < |s| => if s[k] == a then b else s[k])
  }

  /** The three std::replace passes over the new base name: together they
      replace each bad character by '_' and keep every other one. */
  function Sanitize(base: seq<char>): (r: seq<char>)
    ensures |r| == |base|
    ensures forall k :: 0 <= k < |base| ==> r[k] == if IsBadChar(base[k]) then '_' else base[k]
  {
    Replace(Replace(Replace(base, '*', '_'), '/', '_'), '\\', '_')
  }

  /** No bad character is left, a clean name is kept as it is, and a
      second pass changes nothing. */
  lemma SanitizeClean(base: seq<char>)
    ensures forall k :: 0 <= k < |base| ==> !IsBadChar(Sanitize(base)[k])
    ensures (forall k :: 0 <= k < |base| ==> !IsBadChar(base[k])) ==> Sanitize(base) == base
    ensures Sanitize(Sanitize(base)) == Sanitize(base)
  {
  }

  /** The file name a WAV is renamed to. */
  function TargetName(base: seq<char>): seq<char> {
    Sanitize(base) + ".wav"
  }

  /** A WAV renamed to a non-empty name is again a WAV, whose stem is the
      sanitised name and so holds no path separator. */
  lemma TargetParts(base: seq<char>)
    requires base != []
    ensures Extension(TargetName(base)) == ".wav" && Stem(TargetName(base)) == Sanitize(base)
    ensures IsWavName(TargetName(base))
    ensures '/' !in Stem(TargetName(base)) && '\\' !in Stem(TargetName(base))
  {
    WavNameParts(Sanitize(base));
    assert LowerAscii(".wav") == ".wav";
    SanitizeClean(base);
  }

  /** A WAV renamed to the empty name becomes ".wav", which has no extension:
      it is no longer taken for a WAV. */
  lemma EmptyTarget()
    ensures TargetName([]) == ".wav" && Extension(".wav") == [] && !IsWavName(".wav")
  {
    assert LastDot(".wav") == Some(0) by {
      assert ".wav" == [] + ['.'] + "wav";
      LastDotBefore([], "wav");
    }
  }

  // ---------------------------------------------------------------------------
  // The rename loop
  // ---------------------------------------------------------------------------

  /** An entry of the extracted folder, in enumeration order: its file name,
      whether it is a regular file, and whether fs::rename of it succeeds. */
  datatype WavFile = WavFile(name: seq<char>, regular: bool, renameOk: bool)

  /** What the checks that do not depend on earlier renames make of an entry:
      not a regular .wav file, no index in its stem, no name for its index,
      or the target file name and the SoundDataFile index. */
  datatype Wanted = NotWav | NoIndex | Unnamed | Target(target: seq<char>, sdf: int)

  function Want(names: map<int, seq<char>>, w: WavFile): Wanted {
    if !w.regular || !IsWavName(w.name) then NotWav
    else match StemIndex(Trim(Stem(w.name)))
      case None => NoIndex
      case Some(k) => if k !in names then Unnamed else Target(TargetName(names[k]), k)
  }

  /** An entry with what those checks made of it. */
  datatype Entry = Entry(name: seq<char>, renameOk: bool, want: Wanted)

  function Entries(names: map<int, seq<char>>, ws: seq<WavFile>): (es: seq<Entry>)
    ensures |es| == |ws|
  {
    seq(|ws|, i requires 0 <= i < |ws| => Entry(ws[i].name, ws[i].renameOk, Want(names, ws[i])))
  }

  /** What the loop does with one entry: skip it, count an error (the target
      was already used, exists already, or the rename failed), or rename it. */
  datatype Outcome =
    | Skipped
    | Collision(target: seq<char>)
    | TargetExists(target: seq<char>)
    | RenameFailed(target: seq<char>)
    | Renamed(target: seq<char>, sdf: int)

  predicate IsError(o: Outcome) {
    o.Collision? || o.TargetExists? || o.RenameFailed?
  }

  /** The loop's state: the names in the folder, the collision map from each
      target used to its SoundDataFile index, and the two counters. */
  datatype RenameState = RenameState(files: set<seq<char>>, used: map<seq<char>, int>, renamed: int, errors: int)

  function Decide(st: RenameState, e: Entry): Outcome {
    match e.want
      case Target(t, k) =>
        if t in st.used then Collision(t)
        else if t in st.files && t != e.name then TargetExists(t)
        else if !e.renameOk then RenameFailed(t)
        else Renamed(t, k)
      case _ => Skipped
  }

  function Apply(st: RenameState, e: Entry, o: Outcome): RenameState {
    if IsError(o) then st.(errors := st.errors + 1)
    else if o.Renamed? then
      RenameState(st.files - {e.name} + {o.target}, st.used[o.target := o.sdf], st.renamed + 1, st.errors)
    else st
  }

  /** The state after the entries es. */
  function Run(st: RenameState, es: seq<Entry>): RenameState
    decreases |es|
  {
    if es == [] then st
    else
      var s := Run(st, es[..|es| - 1]);
      var e := es[|es| - 1];
      Apply(s, e, Decide(s, e))
  }

  /** What happens to each entry. */
  function Outcomes(st: RenameState, es: seq<Entry>): (os: seq<Outcome>)
    ensures |os| == |es|
  {
    seq(|es|, i requires 0 <= i < |es| => Decide(Run(st, es[..i]), es[i]))
  }

  function CountRenamed(os: seq<Outcome>): nat
    decreases |os|
  {
    if os == [] then 0 else CountRenamed(os[..|os| - 1]) + if os[|os| - 1].Renamed? then 1 else 0
  }

  function CountErrors(os: seq<Outcome>): nat
    decreases |os|
  {
    if os == [] then 0 else CountErrors(os[..|os| - 1]) + if IsError(os[|os| - 1]) then 1 else 0
  }

  function RenamedTargets(os: seq<Outcome>): set<seq<char>>
    decreases |os|
  {
    if os == [] then {}
    else RenamedTargets(os[..|os| - 1]) + if os[|os| - 1].Renamed? then {os[|os| - 1].target} else {}
  }

  lemma OutcomesSnoc(st: RenameState, es: seq<Entry>)
    requires es != []
    ensures var n := |es| - 1;
            Outcomes(st, es) == Outcomes(st, es[..n]) + [Decide(Run(st, es[..n]), es[n])]
  {
    var n := |es| - 1;
    forall i | 0 <= i < n
      ensures es[..n][..i] == es[..i]
    {
    }
  }

  /** One entry: a rename adds its target, which was not used yet, to the
      collision map; each counter grows by one for its kind of outcome. */
  lemma ApplyStep(s: RenameState, e: Entry)
    ensures var o := Decide(s, e);
            var r := Apply(s, e, o);
            r.renamed == s.renamed + (if o.Renamed? then 1 else 0) &&
            r.errors == s.errors + (if IsError(o) then 1 else 0) &&
            r.used.Keys == s.used.Keys + (if o.Renamed? then {o.target} else {}) &&
            |r.used.Keys| == |s.used.Keys| + (if o.Renamed? then 1 else 0)
  {
    var o := Decide(s, e);
    if o.Renamed? {
      assert o.target !in s.used.Keys;
      assert Apply(s, e, o).used.Keys == s.used.Keys + {o.target};
    }
  }

  /** The counters count the renames and the errors. */
  lemma {:induction false} RunCounts(st: RenameState, es: seq<Entry>)
    ensures var r, os := Run(st, es), Outcomes(st, es);
            r.renamed == st.renamed + CountRenamed(os) &&
            r.errors == st.errors + CountErrors(os) &&
            CountRenamed(os) + CountErrors(os) <= |es|
    decreases |es|
  {
    if es != [] {
      var n := |es| - 1;
      var s := Run(st, es[..n]);
      var o := Decide(s, es[n]);
      RunCounts(st, es[..n]);
      OutcomesSnoc(st, es);
      var os := Outcomes(st, es);
      assert os[..n] == Outcomes(st, es[..n]);
      ApplyStep(s, es[n]);
      assert !(o.Renamed? && IsError(o));
    }
  }

  /** The collision map holds the targets renamed to. */
  lemma {:induction false} RunUsed(st: RenameState, es: seq<Entry>)
    ensures Run(st, es).used.Keys == st.used.Keys + RenamedTargets(Outcomes(st, es))
    decreases |es|
  {
    if es != [] {
      var n := |es| - 1;
      RunUsed(st, es[..n]);
      OutcomesSnoc(st, es);
      assert Outcomes(st, es)[..n] == Outcomes(st, es[..n]);
      ApplyStep(Run(st, es[..n]), es[n]);
    }
  }

  /** The collision map grows by one target per rename: no target is used
      twice. */
  lemma {:induction false} RunUsedSize(st: RenameState, es: seq<Entry>)
    ensures |Run(st, es).used.Keys| == |st.used.Keys| + CountRenamed(Outcomes(st, es))
    decreases |es|
  {
    if es != [] {
      var n := |es| - 1;
      RunUsedSize(st, es[..n]);
      OutcomesSnoc(st, es);
      assert Outcomes(st, es)[..n] == Outcomes(st, es[..n]);
      ApplyStep(Run(st, es[..n]), es[n]);
    }
  }

  /** The collision map only gains targets as the loop goes on. */
  lemma {:induction false} UsedGrows(st: RenameState, es: seq<Entry>, i: nat, j: nat)
    requires i <= j <= |es|
    ensures Run(st, es[..i]).used.Keys <= Run(st, es[..j]).used.Keys
    decreases j - i
  {
    if i < j {
      UsedGrows(st, es, i, j - 1);
      assert es[..j][..j - 1] == es[..j - 1];
    }
  }

  /** Two renames never share a target. */
  lemma RenamedDistinct(st: RenameState, es: seq<Entry>, i: nat, j: nat)
    requires i < j < |es|
    requires Outcomes(st, es)[i].Renamed? && Outcomes(st, es)[j].Renamed?
    ensures Outcomes(st, es)[i].target != Outcomes(st, es)[j].target
  {
    var t := Outcomes(st, es)[i].target;
    assert es[..i + 1][..i] == es[..i];
    assert t in Run(st, es[..i + 1]).used;
    UsedGrows(st, es, i + 1, j);
  }

  /** A rename takes a regular .wav file whose stem names SoundDataFile k to
      the sanitised name of k; the target was not used before, was not in the
      folder under another name, and the rename succeeded. */
  lemma RenamedMeans(names: map<int, seq<char>>, st: RenameState, ws: seq<WavFile>, i: nat)
    requires i < |ws| && Outcomes(st, Entries(names, ws))[i].Renamed?
    ensures var es := Entries(names, ws);
            var o, w, s := Outcomes(st, es)[i], ws[i], Run(st, es[..i]);
            w.regular && IsWavName(w.name) && w.renameOk &&
            StemIndex(Trim(Stem(w.name))) == Some(o.sdf) && o.sdf in names &&
            o.target == TargetName(names[o.sdf]) &&
            o.target !in s.used && (o.target in s.files ==> o.target == w.name)
  {
    var es := Entries(names, ws);
    assert es[i] == Entry(ws[i].name, ws[i].renameOk, Want(names, ws[i]));
  }

  /** The loop over the extracted folder, with its counters and collision
      map as local variables and `files` the folder's contents; each entry
      already carries what the checks that do not depend on earlier renames
      made of it. */
  method RenameWavs(present: set<seq<char>>, es: seq<Entry>)
    returns (filesRenamed: int, renameErrors: int, used: map<seq<char>, int>, files: set<seq<char>>)
    ensures RenameState(files, used, filesRenamed, renameErrors) == Run(RenameState(present, map[], 0, 0), es)
  {
    ghost var st0 := RenameState(present, map[], 0, 0);
    filesRenamed, renameErrors, used, files := 0, 0, map[], present;
    for i := 0 to |es|
      invariant RenameState(files, used, filesRenamed, renameErrors) == Run(st0, es[..i])
    {
      assert es[..i + 1][..i] == es[..i];
      var e := es[i];
      if !e.want.Target? {
        continue;
      }
      var target := e.want.target;
      if target in used {
        renameErrors := renameErrors + 1;
        continue;
      }
      if target in files && target != e.name {
        renameErrors := renameErrors + 1;
        continue;
      }
      if !e.renameOk {
        renameErrors := renameErrors + 1;
        continue;
      }
      filesRenamed := filesRenamed + 1;
      used := used[target := e.want.sdf];
      files := files - {e.name} + {target};
    }
    assert es[..|es|] == es;
  }

  // ---------------------------------------------------------------------------
  // One .flo
  // ---------------------------------------------------------------------------

  /** The name map of a .flo read from its lines. */
  function FloNames(raw: seq<seq<char>>, floatOk: seq<char> -> bool): map<int, seq<char>> {
    var f := Parse(TrimAll(raw), 0, Start, EmptyFlo, floatOk);
    Names(f, f.eventMaps)
  }

  datatype FloResult = NoExtracted | ParseFailed | Done(names: map<int, seq<char>>, state: RenameState)

  /** The body of ProcessFolder's walk for one .flo: skipped without an
      "extracted" folder beside it or when it does not open; otherwise its
      name map renames the WAVs of that folder. */
  method ProcessFlo(hasExtracted: bool, canOpen: bool, raw: seq<seq<char>>, floatOk: seq<char> -> bool,
                    present: set<seq<char>>, listing: seq<WavFile>) returns (r: FloResult)
    ensures !hasExtracted ==> r == NoExtracted
    ensures hasExtracted && !canOpen ==> r == ParseFailed
    ensures hasExtracted && canOpen ==>
              r == Done(FloNames(raw, floatOk), Run(RenameState(present, map[], 0, 0), Entries(FloNames(raw, floatOk), listing)))
  {
    if !hasExtracted {
      return NoExtracted;
    }
    var ok, names, flo := ParseFlo(canOpen, raw, floatOk);
    if !ok {
      return ParseFailed;
    }
    var renamed, errors, used, files := RenameWavs(present, Entries(names, listing));
    r := Done(names, RenameState(files, used, renamed, errors));
  }

  /** End to end: a WAV renamed for a .flo gets the sanitised name of the last
      EventMap entry of that .flo that resolves to the WAV's SoundDataFile. */
  lemma RenamedByLastEntry(f: Flo, present: set<seq<char>>, listing: seq<WavFile>, i: nat)
    requires i < |listing|
    requires Outcomes(RenameState(present, map[], 0, 0), Entries(Names(f, f.eventMaps), listing))[i].Renamed?
    ensures var o := Outcomes(RenameState(present, map[], 0, 0), Entries(Names(f, f.eventMaps), listing))[i];
            exists j :: 0 <= j < |f.eventMaps| && Resolve(f, f.eventMaps[j].eventRef) == o.sdf &&
                        o.target == TargetName(f.eventMaps[j].name) &&
                        forall j2 :: j < j2 < |f.eventMaps| ==> Resolve(f, f.eventMaps[j2].eventRef) != o.sdf
  {
    var es := f.eventMaps;
    var names := Names(f, es);
    var st := RenameState(present, map[], 0, 0);
    var o := Outcomes(st, Entries(names, listing))[i];
    RenamedMeans(names, st, listing, i);
    NamesLastWins(f, es, o.sdf);
    var j :| 0 <= j < |es| && Resolve(f, es[j].eventRef) == o.sdf && names[o.sdf] == es[j].name &&
             forall j2 :: j < j2 < |es| ==> Resolve(f, es[j2].eventRef) != o.sdf;
    assert o.target == TargetName(es[j].name);
  }
}
