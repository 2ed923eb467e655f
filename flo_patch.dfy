/** Patching the raw bytes of a .flo file when an entry is added: finding the
    n-th occurrence of a section header, inserting the new row below the rows
    the section's count line announces, and rewriting that count in place at
    the width it had. Bytes are modelled as characters. */
module FloPatch {
  import opened Optional
  import opened Text

  const CRLF: seq<char> := "\r\n"

  // ---------------------------------------------------------------------------
  // Searching
  // ---------------------------------------------------------------------------

  /** The pattern occurs in data at index p. */
  predicate OccursAt(data: seq<char>, pat: seq<char>, p: int) {
    0 <= p && p + |pat| <= |data| && data[p .. p + |pat|] == pat
  }

  /** std::search from `from`: the first index at or after it where the
      pattern occurs, None standing for data.end(). */
  function SearchFrom(data: seq<char>, pat: seq<char>, from: nat): (r: Option<nat>)
    ensures r.Some? ==> from <= r.value && r.value + |pat| <= |data|
    decreases |data| - from
  {
    if from + |pat| > |data| then None
    else if data[from .. from + |pat|] == pat then Some(from)
    else SearchFrom(data, pat, from + 1)
  }

  /** The search finds the first occurrence at or after `from`, and None
      means there is none. */
  lemma {:induction false} SearchFromSpec(data: seq<char>, pat: seq<char>, from: nat)
    ensures SearchFrom(data, pat, from).None? ==> forall q :: from <= q ==> !OccursAt(data, pat, q)
    ensures SearchFrom(data, pat, from).Some? ==>
              var p := SearchFrom(data, pat, from).value;
              OccursAt(data, pat, p) && forall q :: from <= q < p ==> !OccursAt(data, pat, q)
    decreases |data| - from
  {
    if from + |pat| <= |data| && data[from .. from + |pat|] != pat {
      SearchFromSpec(data, pat, from + 1);
    }
  }

  /** How many occurrences of the pattern start before index `upTo`. */
  function OccCount(data: seq<char>, pat: seq<char>, upTo: nat): nat
    decreases upTo
  {
    if upTo == 0 then 0
    else OccCount(data, pat, upTo - 1) + (if OccursAt(data, pat, upTo - 1) then 1 else 0)
  }

  /** All occurrences of the pattern. */
  function TotalOcc(data: seq<char>, pat: seq<char>): nat {
    OccCount(data, pat, |data| + 1)
  }

  /** No occurrence between `from` and `to` leaves the count unchanged. */
  lemma {:induction false} OccCountGap(data: seq<char>, pat: seq<char>, lo: nat, hi: nat)
    requires lo <= hi
    requires forall q :: lo <= q < hi ==> !OccursAt(data, pat, q)
    ensures OccCount(data, pat, hi) == OccCount(data, pat, lo)
    decreases hi
  {
    if lo < hi {
      OccCountGap(data, pat, lo, hi - 1);
    }
  }

  /** Past the last place the pattern fits, the count does not grow. */
  lemma OccCountTail(data: seq<char>, pat: seq<char>, from: nat)
    requires SearchFrom(data, pat, from).None?
    ensures TotalOcc(data, pat) == OccCount(data, pat, from) || from > |data| + 1
  {
    SearchFromSpec(data, pat, from);
    if from <= |data| + 1 {
      OccCountGap(data, pat, from, |data| + 1);
    }
  }

  // ---------------------------------------------------------------------------
  // FindNthMarker
  // ---------------------------------------------------------------------------

  /** The search loop of FindNthMarker from `pos`, `found` occurrences having
      been counted so far. */
  function NthFrom(data: seq<char>, marker: seq<char>, pos: nat, found: int, n: int): (r: Option<nat>)
    ensures r.Some? ==> pos <= r.value && r.value + |marker| <= |data|
    decreases |data| - pos
  {
    if pos >= |data| then None
    else match SearchFrom(data, marker, pos)
      case None => None
      case Some(p) => if found + 1 == n then Some(p) else NthFrom(data, marker, p + 1, found + 1, n)
  }

  /** FindNthMarker: the start of the n-th (possibly overlapping) occurrence
      of the marker, None standing for npos; npos for an empty marker. */
  function NthMarker(data: seq<char>, marker: seq<char>, n: int): Option<nat> {
    if marker == [] then None else NthFrom(data, marker, 0, 0, n)
  }

  lemma {:induction false} NthFromSpec(data: seq<char>, marker: seq<char>, pos: nat, found: int, n: int)
    requires marker != [] && found == OccCount(data, marker, pos) && pos <= |data|
    ensures NthFrom(data, marker, pos, found, n).Some? ==>
              var p := NthFrom(data, marker, pos, found, n).value;
              found < n && OccursAt(data, marker, p) && OccCount(data, marker, p) == n - 1
    ensures NthFrom(data, marker, pos, found, n).None? ==> n <= found || TotalOcc(data, marker) < n
    decreases |data| - pos
  {
    if pos < |data| {
      match SearchFrom(data, marker, pos)
      case None =>
        assert NthFrom(data, marker, pos, found, n) == None;
        OccCountTail(data, marker, pos);
      case Some(p) =>
        OccCountHit(data, marker, pos, p);
        if found + 1 == n {
          assert NthFrom(data, marker, pos, found, n) == Some(p);
        } else {
          NthFromSpec(data, marker, p + 1, found + 1, n);
          var r := NthFrom(data, marker, p + 1, found + 1, n);
          NthFromStep(data, marker, pos, found, n, p);
          if r.Some? {
            assert OccCount(data, marker, r.value) == n - 1;
          }
        }
    } else {
      assert NthFrom(data, marker, pos, found, n) == None;
      OccCountEnd(data, marker);
    }
  }

  /** One turn of the search loop that does not yet reach the n-th occurrence. */
  lemma NthFromStep(data: seq<char>, marker: seq<char>, pos: nat, found: int, n: int, p: nat)
    requires pos < |data| && SearchFrom(data, marker, pos) == Some(p) && found + 1 != n
    ensures NthFrom(data, marker, pos, found, n) == NthFrom(data, marker, p + 1, found + 1, n)
  {
  }

  /** The occurrence a search finds is the next one counted. */
  lemma OccCountHit(data: seq<char>, pat: seq<char>, pos: nat, p: nat)
    requires SearchFrom(data, pat, pos) == Some(p)
    ensures OccCount(data, pat, p) == OccCount(data, pat, pos)
    ensures OccCount(data, pat, p + 1) == OccCount(data, pat, pos) + 1
    ensures p + |pat| <= |data| && OccursAt(data, pat, p)
  {
    SearchFromSpec(data, pat, pos);
    OccCountGap(data, pat, pos, p);
  }

  /** A non-empty pattern does not occur at the end of the data. */
  lemma OccCountEnd(data: seq<char>, pat: seq<char>)
    requires pat != []
    ensures TotalOcc(data, pat) == OccCount(data, pat, |data|)
  {
  }

  /** FindNthMarker finds an index exactly when it is the start of an
      occurrence with n - 1 occurrences before it; it gives npos exactly when
      the marker is empty, n is below 1 or there are fewer than n occurrences. */
  lemma NthMarkerSpec(data: seq<char>, marker: seq<char>, n: int)
    ensures NthMarker(data, marker, n).Some? ==>
              var p := NthMarker(data, marker, n).value;
              marker != [] && n >= 1 && OccursAt(data, marker, p) && OccCount(data, marker, p) == n - 1
    ensures NthMarker(data, marker, n).None? <==> marker == [] || n < 1 || TotalOcc(data, marker) < n
  {
    if marker != [] {
      NthFromSpec(data, marker, 0, 0, n);
      if NthMarker(data, marker, n).Some? {
        var p := NthMarker(data, marker, n).value;
        assert OccCount(data, marker, p + 1) == n;
        OccCountMono(data, marker, p + 1, |data| + 1);
      }
    }
  }

  /** The search loop of FindNthMarker. */
  method FindNthMarker(data: seq<char>, marker: seq<char>, n: int) returns (pos: Option<nat>)
    ensures pos == NthMarker(data, marker, n)
  {
    if marker == [] {
      return None;
    }
    var p: nat := 0;
    var found := 0;
    while p < |data|
      invariant NthFrom(data, marker, p, found, n) == NthMarker(data, marker, n)
      decreases |data| - p
    {
      var it := SearchFrom(data, marker, p);
      if it.None? {
        return None;
      }
      p := it.value;
      found := found + 1;
      if found == n {
        return Some(p);
      }
      p := p + 1;
    }
    return None;
  }

  /** Changing bytes at or after `from` leaves the n-th occurrence in place
      when it ends before `from`. */
  lemma {:induction false} NthFromPrefix(data: seq<char>, data': seq<char>, marker: seq<char>, pos: nat, found: int, n: int, from: nat, q: nat)
    requires marker != [] && from <= |data| && from <= |data'| && data[..from] == data'[..from]
    requires NthFrom(data, marker, pos, found, n) == Some(q) && q + |marker| <= from
    ensures NthFrom(data', marker, pos, found, n) == Some(q)
    decreases |data| - pos
  {
    assert pos < |data|;
    var p := SearchFrom(data, marker, pos).value;
    SearchPrefix(data, data', marker, pos, from, p);
    NthFromHit(data, marker, pos, found, n, p);
    NthFromHit(data', marker, pos, found, n, p);
    if found + 1 != n {
      NthFromPrefix(data, data', marker, p + 1, found + 1, n, from, q);
    }
  }

  /** One turn of the search loop of FindNthMarker. */
  lemma NthFromHit(data: seq<char>, marker: seq<char>, pos: nat, found: int, n: int, p: nat)
    requires pos < |data| && SearchFrom(data, marker, pos) == Some(p)
    ensures NthFrom(data, marker, pos, found, n) ==
              if found + 1 == n then Some(p) else NthFrom(data, marker, p + 1, found + 1, n)
  {
  }

  /** A search that succeeds within an unchanged prefix finds the same index. */
  lemma SearchPrefix(data: seq<char>, data': seq<char>, pat: seq<char>, pos: nat, from: nat, p: nat)
    requires from <= |data| && from <= |data'| && data[..from] == data'[..from]
    requires SearchFrom(data, pat, pos) == Some(p) && p + |pat| <= from
    ensures SearchFrom(data', pat, pos) == Some(p)
  {
    SearchFromSpec(data, pat, pos);
    forall q | pos <= q <= p ensures OccursAt(data', pat, q) == OccursAt(data, pat, q) {
      if q + |pat| <= from {
        assert data'[q .. q + |pat|] == data'[..from][q .. q + |pat|];
        assert data[q .. q + |pat|] == data[..from][q .. q + |pat|];
      }
    }
    SearchFirst(data', pat, pos, p);
  }

  /** The first occurrence at or after `pos` is what the search finds. */
  lemma {:induction false} SearchFirst(data: seq<char>, pat: seq<char>, pos: nat, p: nat)
    requires pos <= p && OccursAt(data, pat, p)
    requires forall q :: pos <= q < p ==> !OccursAt(data, pat, q)
    ensures SearchFrom(data, pat, pos) == Some(p)
    decreases p - pos
  {
    if pos < p {
      assert !OccursAt(data, pat, pos) && pos + |pat| <= |data|;
      SearchFirst(data, pat, pos + 1, p);
    } else {
      assert data[pos .. pos + |pat|] == pat;
    }
  }

  /** Bytes changed at or after `from` do not move an n-th occurrence that
      ends before `from`. */
  lemma NthMarkerPrefix(data: seq<char>, data': seq<char>, marker: seq<char>, n: int, from: nat)
    requires from <= |data| && from <= |data'| && data[..from] == data'[..from]
    requires NthMarker(data, marker, n).Some? && NthMarker(data, marker, n).value + |marker| <= from
    ensures NthMarker(data', marker, n) == NthMarker(data, marker, n)
  {
    NthFromPrefix(data, data', marker, 0, 0, n, from, NthMarker(data, marker, n).value);
  }

  /** Counts only grow with the bound. */
  lemma {:induction false} OccCountMono(data: seq<char>, pat: seq<char>, lo: nat, hi: nat)
    requires lo <= hi
    ensures OccCount(data, pat, lo) <= OccCount(data, pat, hi)
    decreases hi
  {
    if lo < hi {
      OccCountMono(data, pat, lo, hi - 1);
    }
  }

  // ---------------------------------------------------------------------------
  // Line ends
  // ---------------------------------------------------------------------------

  /** A CRLF starts at index p. */
  predicate CrlfAt(data: seq<char>, p: int) {
    0 <= p && p + 2 <= |data| && data[p] == '\r' && data[p + 1] == '\n'
  }

  lemma CrlfAtIsOccurrence(data: seq<char>, p: int)
    ensures CrlfAt(data, p) <==> OccursAt(data, CRLF, p)
  {
    if CrlfAt(data, p) {
      assert data[p .. p + 2] == CRLF;
    }
  }

  /** The first CRLF at or after `from`. */
  function NextCrlf(data: seq<char>, from: nat): (r: Option<nat>)
    ensures r.Some? ==> from <= r.value && CrlfAt(data, r.value)
    decreases |data| - from
  {
    if from + 2 > |data| then None
    else if CrlfAt(data, from) then Some(from)
    else NextCrlf(data, from + 1)
  }

  /** NextCrlf is std::search for "\r\n" from `from`. */
  lemma {:induction false} NextCrlfIsSearch(data: seq<char>, from: nat)
    ensures NextCrlf(data, from) == SearchFrom(data, CRLF, from)
    decreases |data| - from
  {
    if from + 2 <= |data| {
      CrlfAtIsOccurrence(data, from);
      if !CrlfAt(data, from) {
        NextCrlfIsSearch(data, from + 1);
      }
    }
  }

  lemma {:induction false} NextCrlfSpec(data: seq<char>, from: nat)
    ensures NextCrlf(data, from).None? ==> forall q :: from <= q ==> !CrlfAt(data, q)
    ensures NextCrlf(data, from).Some? ==> forall q :: from <= q < NextCrlf(data, from).value ==> !CrlfAt(data, q)
    decreases |data| - from
  {
    if from + 2 <= |data| && !CrlfAt(data, from) {
      NextCrlfSpec(data, from + 1);
    }
  }

  /** How many CRLFs start before index `upTo`. */
  function CrlfsBefore(data: seq<char>, upTo: nat): nat
    decreases upTo
  {
    if upTo == 0 then 0
    else CrlfsBefore(data, upTo - 1) + (if CrlfAt(data, upTo - 1) then 1 else 0)
  }

  /** All the CRLFs of the data. */
  function TotalCrlfs(data: seq<char>): nat {
    CrlfsBefore(data, |data|)
  }

  lemma {:induction false} CrlfsGap(data: seq<char>, lo: nat, hi: nat)
    requires lo <= hi
    requires forall q :: lo <= q < hi ==> !CrlfAt(data, q)
    ensures CrlfsBefore(data, hi) == CrlfsBefore(data, lo)
    decreases hi
  {
    if lo < hi {
      CrlfsGap(data, lo, hi - 1);
    }
  }

  lemma {:induction false} CrlfsMono(data: seq<char>, lo: nat, hi: nat)
    requires lo <= hi
    ensures CrlfsBefore(data, lo) <= CrlfsBefore(data, hi)
    decreases hi
  {
    if lo < hi {
      CrlfsMono(data, lo, hi - 1);
    }
  }

  /** When no CRLF follows `from`, every CRLF starts before it. */
  lemma NoCrlfAfter(data: seq<char>, from: nat)
    requires from <= |data| && NextCrlf(data, from).None?
    ensures TotalCrlfs(data) == CrlfsBefore(data, from)
  {
    NextCrlfSpec(data, from);
    CrlfsGap(data, from, |data|);
  }

  /** The CRLF a search finds is the next one counted; none starts on its
      LF, so the count moves past it in two characters. */
  lemma CrlfHit(data: seq<char>, pos: nat, e: nat)
    requires NextCrlf(data, pos) == Some(e)
    ensures e + 2 <= |data| && CrlfsBefore(data, e) == CrlfsBefore(data, pos)
    ensures CrlfsBefore(data, e + 2) == CrlfsBefore(data, pos) + 1
  {
    NextCrlfSpec(data, pos);
    CrlfsGap(data, pos, e);
    assert !CrlfAt(data, e + 1);
  }

  /** When the count says more CRLFs exist than start before `pos`, one
      follows `pos`. */
  lemma CrlfAhead(data: seq<char>, pos: nat, m: nat)
    requires pos <= |data| && CrlfsBefore(data, pos) < m <= TotalCrlfs(data)
    ensures NextCrlf(data, pos).Some?
  {
    if NextCrlf(data, pos).None? {
      NoCrlfAfter(data, pos);
    }
  }

  /** A CRLF found inside an unchanged prefix is found again. */
  lemma {:induction false} NextCrlfPrefix(data: seq<char>, data': seq<char>, from: nat, m: nat, e: nat)
    requires m <= |data| && m <= |data'| && data[..m] == data'[..m]
    requires NextCrlf(data, from) == Some(e) && e + 2 <= m
    ensures NextCrlf(data', from) == Some(e)
    decreases e - from
  {
    assert data'[from] == data'[..m][from] && data'[from + 1] == data'[..m][from + 1];
    assert data[from] == data[..m][from] && data[from + 1] == data[..m][from + 1];
    if from < e {
      NextCrlfPrefix(data, data', from + 1, m, e);
    }
  }

  // ---------------------------------------------------------------------------
  // PatchInsertLineInSection
  // ---------------------------------------------------------------------------

  /** The characters find_first_not_of(" \t") skips. */
  predicate IsBlank(c: char) {
    c == ' ' || c == '\t'
  }

  predicate AllBlank(s: seq<char>) {
    forall i :: 0 <= i < |s| ==> IsBlank(s[i])
  }

  /** s.find_first_not_of(" \t"), None standing for npos. */
  function FirstNotBlank(s: seq<char>): (r: Option<nat>)
    ensures r.None? ==> AllBlank(s)
    ensures r.Some? ==> r.value < |s| && !IsBlank(s[r.value]) && AllBlank(s[..r.value])
  {
    if s == [] then None
    else if !IsBlank(s[0]) then Some(0)
    else match FirstNotBlank(s[1..])
      case None => None
      case Some(i) =>
        assert s[..i + 1] == [s[0]] + s[1..][..i];
        Some(i + 1)
  }

  /** The padding written back in front of the new count: the blanks before
      the first other character, or the first character alone when the count
      line is blank and not empty. */
  function LeadingPad(content: seq<char>): (pad: seq<char>)
    ensures pad <= content && AllBlank(pad)
  {
    var first := FirstNotBlank(content);
    if first.Some? && first.value > 0 then content[..first.value]
    else if content != [] && IsBlank(content[0]) then content[..1]
    else []
  }

  /** The padding is the whole run of blanks in front of the count, or one
      character of a count line made of blanks only. */
  lemma LeadingPadSpec(content: seq<char>)
    ensures !AllBlank(content) ==>
              |LeadingPad(content)| < |content| && !IsBlank(content[|LeadingPad(content)|])
    ensures AllBlank(content) ==> |LeadingPad(content)| == if content == [] then 0 else 1
  {
    if !AllBlank(content) {
      var f := FirstNotBlank(content).value;
      if f == 0 {
        assert !IsBlank(content[0]);
      }
    }
  }

  function Spaces(k: nat): (r: seq<char>)
    ensures |r| == k && AllBlank(r)
  {
    seq(k, _ => ' ')
  }

  /** `current_item_count++` on a 32-bit int: INT_MAX wraps to INT_MIN. */
  function Inc32(v: int): (r: int)
    requires INT_MIN <= v <= INT_MAX
    ensures INT_MIN <= r <= INT_MAX
    ensures v < INT_MAX ==> r == v + 1
    ensures v == INT_MAX ==> r == INT_MIN
    ensures (r - (v + 1)) % 0x1_0000_0000 == 0
  {
    if v == INT_MAX then INT_MIN else v + 1
  }

  /** The count line rewritten for the value v: the padding and std::to_string(v),
      filled with spaces to the width the line had, or cut to that width. */
  function CountField(content: seq<char>, v: int): (f: seq<char>)
    ensures |f| == |content|
  {
    var s := LeadingPad(content) + IntToDecimal(v);
    if |s| < |content| then s + Spaces(|content| - |s|)
    else if |s| > |content| then s[..|content|]
    else s
  }

  /** When the padded value fits in the old width, the rewritten count line
      reads back as that value; when it does not, the line holds the leading
      part of it. */
  lemma CountFieldReadsBack(content: seq<char>, v: int)
    requires 0 <= v <= INT_MAX
    ensures var s := LeadingPad(content) + IntToDecimal(v);
            if |s| <= |content| then
              Stoi(Trim(CountField(content, v))) == Some(v) && Wtoi(Trim(CountField(content, v))) == v
            else CountField(content, v) == s[..|content|]
  {
    var pad := LeadingPad(content);
    var s := pad + IntToDecimal(v);
    if |s| <= |content| {
      var q := Spaces(|content| - |s|);
      assert CountField(content, v) == pad + IntToDecimal(v) + q;
      DecimalHasNoTrimSpace(v);
      assert AllTrimSpace(pad) by {
        forall i | 0 <= i < |pad| ensures IsTrimSpace(pad[i]) { assert IsBlank(pad[i]); }
      }
      assert AllTrimSpace(q) by {
        forall i | 0 <= i < |q| ensures IsTrimSpace(q[i]) { assert IsBlank(q[i]); }
      }
      TrimOfPadded(pad, IntToDecimal(v), q);
      DecimalRoundTrip(v);
    }
  }

  /** The data with CRLF appended when it is not empty and does not already
      end with CRLF. */
  function EnsureCrlf(data: seq<char>): (r: seq<char>)
    ensures r == data || r == data + CRLF
    ensures data != [] ==> |r| >= 2 && r[|r| - 2..] == CRLF
  {
    if |data| < 2 || data[|data| - 2] != '\r' || data[|data| - 1] != '\n' then
      (if data != [] then data + CRLF else data)
    else data
  }

  /** The loop that walks over the k rows the count announces, from `pos`,
      each step moving past the next CRLF: where the k-th row ends, or None
      when the data runs out of CRLFs first. */
  function RowsEnd(data: seq<char>, pos: nat, k: nat): (r: Option<nat>)
    requires pos <= |data|
    ensures r.Some? ==> pos <= r.value <= |data|
    decreases k
  {
    if k == 0 then Some(pos)
    else match NextCrlf(data, pos)
      case None => None
      case Some(e) => RowsEnd(data, e + 2, k - 1)
  }

  /** The data and the insertion point the loop leaves: the end of the k-th
      row, or the end of the data, made to end with CRLF, when there are fewer
      rows. */
  function InsertionPoint(data: seq<char>, pos: nat, k: nat): (r: (seq<char>, nat))
    requires pos <= |data|
    ensures r.0 == data || r.0 == EnsureCrlf(data)
    ensures pos <= r.1 <= |r.0|
  {
    match RowsEnd(data, pos, k)
    case Some(ip) => (data, ip)
    case None => (EnsureCrlf(data), |EnsureCrlf(data)|)
  }

  /** When k more CRLFs follow `pos`, the walk ends right after the k-th of
      them: exactly k of them start between `pos` and the end of the walk. */
  lemma {:induction false} RowsEndEnough(data: seq<char>, pos: nat, k: nat) returns (ip: nat)
    requires pos <= |data| && CrlfsBefore(data, pos) + k <= TotalCrlfs(data)
    ensures RowsEnd(data, pos, k) == Some(ip)
    ensures CrlfsBefore(data, ip) == CrlfsBefore(data, pos) + k
    ensures k == 0 ==> ip == pos
    ensures k > 0 ==> CrlfAt(data, ip - 2)
    decreases k
  {
    if k == 0 {
      ip := pos;
    } else {
      CrlfAhead(data, pos, CrlfsBefore(data, pos) + k);
      var e := NextCrlf(data, pos).value;
      CrlfHit(data, pos, e);
      ip := RowsEndEnough(data, e + 2, k - 1);
    }
  }

  /** With fewer than k CRLFs after `pos`, the walk runs off the end. */
  lemma {:induction false} RowsEndShort(data: seq<char>, pos: nat, k: nat)
    requires pos <= |data| && TotalCrlfs(data) < CrlfsBefore(data, pos) + k
    ensures RowsEnd(data, pos, k).None?
    decreases k
  {
    if k == 0 {
      CrlfsMono(data, pos, |data|);
    } else if NextCrlf(data, pos).Some? {
      var e := NextCrlf(data, pos).value;
      CrlfHit(data, pos, e);
      RowsEndShort(data, e + 2, k - 1);
    }
  }

  /** Where the count line lies: the count field from just after the n-th
      marker up to the first CRLF after it. */
  datatype CountLine = CountLine(cv: nat, ce: nat)

  function LocateCount(data: seq<char>, marker: seq<char>, n: int): (r: Option<CountLine>)
    ensures r.Some? ==> r.value.cv <= r.value.ce && CrlfAt(data, r.value.ce)
  {
    match NthMarker(data, marker, n)
    case None => None
    case Some(sp) =>
      match NextCrlf(data, sp + |marker|)
      case None => None
      case Some(ce) => Some(CountLine(sp + |marker|, ce))
  }

  /** The number of rows the count line announces: 0 for a blank line, None
      where std::stoi throws, and a negative count taken as 0. */
  function AnnouncedCount(content: seq<char>): (r: Option<nat>)
    ensures r.Some? ==> r.value <= INT_MAX
    ensures Trim(content) == [] ==> r == Some(0)
    ensures r.None? <==> Trim(content) != [] && Stoi(Trim(content)).None?
  {
    var t := Trim(content);
    if t == [] then Some(0)
    else match Stoi(t)
      case None => None
      case Some(v) => Some(if v < 0 then 0 else v)
  }

  /** The new line inserted at the point the row walk gives, and the count
      field between cv and ce rewritten for count + 1. */
  function PatchAt(data: seq<char>, loc: CountLine, count: nat, newLine: seq<char>): seq<char>
    requires loc.cv <= loc.ce && loc.ce + 2 <= |data|
    requires count <= INT_MAX
  {
    var (d, ip) := InsertionPoint(data, loc.ce + 2, count);
    var inserted := d[..ip] + newLine + d[ip..];
    inserted[..loc.cv] + CountField(data[loc.cv .. loc.ce], Inc32(count)) + inserted[loc.ce..]
  }

  /** PatchInsertLineInSection: the new line inserted after the rows of the
      section headed by the n-th marker, and the section's count line
      rewritten as one more, at its old width; None where the source gives up
      and leaves the data alone. */
  function PatchInsert(data: seq<char>, marker: seq<char>, n: int, newLine: seq<char>): (r: Option<seq<char>>)
  {
    match LocateCount(data, marker, n)
    case None => None
    case Some(loc) =>
      match AnnouncedCount(data[loc.cv .. loc.ce])
      case None => None
      case Some(count) => Some(PatchAt(data, loc, count, newLine))
  }

  /** The patch gives up, leaving the data as it was, when the marker is empty
      or occurs fewer than n times, when no CRLF ends the count line, and when
      the count line holds something std::stoi rejects; otherwise it succeeds. */
  lemma PatchInsertFails(data: seq<char>, marker: seq<char>, n: int, newLine: seq<char>)
    ensures marker == [] || n < 1 || TotalOcc(data, marker) < n ==> PatchInsert(data, marker, n, newLine).None?
    ensures NthMarker(data, marker, n).Some? ==>
              var cv := NthMarker(data, marker, n).value + |marker|;
              (NextCrlf(data, cv).None? ==> PatchInsert(data, marker, n, newLine).None?) &&
              (NextCrlf(data, cv).Some? ==>
                 var content := data[cv .. NextCrlf(data, cv).value];
                 PatchInsert(data, marker, n, newLine).None? <==> Trim(content) != [] && Stoi(Trim(content)).None?)
  {
    if marker == [] || n < 1 || TotalOcc(data, marker) < n {
      NthMarkerSpec(data, marker, n);
      assert LocateCount(data, marker, n).None?;
    }
    if NthMarker(data, marker, n).Some? {
      var cv := NthMarker(data, marker, n).value + |marker|;
      if NextCrlf(data, cv).Some? {
        var ce := NextCrlf(data, cv).value;
        assert LocateCount(data, marker, n) == Some(CountLine(cv, ce));
      }
    }
  }

  /** Where the row walk leaves the insertion point: right after the k-th
      CRLF following `pos` when there are that many, otherwise at the end of
      the data made to end with CRLF. */
  lemma InsertionPointSpec(data: seq<char>, pos: nat, k: nat)
    requires pos <= |data|
    ensures var (d, ip) := InsertionPoint(data, pos, k);
            d[..pos] == data[..pos] &&
            (CrlfsBefore(data, pos) + k <= TotalCrlfs(data) ==>
               d == data && CrlfsBefore(data, ip) == CrlfsBefore(data, pos) + k &&
               (k == 0 ==> ip == pos) && (k > 0 ==> CrlfAt(data, ip - 2))) &&
            (CrlfsBefore(data, pos) + k > TotalCrlfs(data) ==> d == EnsureCrlf(data) && ip == |d|)
  {
    if CrlfsBefore(data, pos) + k <= TotalCrlfs(data) {
      var ip := RowsEndEnough(data, pos, k);
    } else {
      RowsEndShort(data, pos, k);
      assert EnsureCrlf(data)[..pos] == data[..pos];
    }
  }

  /** The row walk changes nothing before where it starts. */
  lemma InsertionPointPrefix(data: seq<char>, pos: nat, k: nat, m: nat)
    requires m <= pos <= |data|
    ensures InsertionPoint(data, pos, k).0[..m] == data[..m]
  {
    assert EnsureCrlf(data)[..m] == data[..m];
  }

  /** Inserting at ip and then overwriting the field between cv and ce, both
      before ip, in sequence terms. */
  lemma Splice(data: seq<char>, d: seq<char>, cv: nat, ce: nat, ip: nat, field: seq<char>, newLine: seq<char>)
    requires cv <= ce <= ip <= |d| && ce <= |data| && d[..ce] == data[..ce]
    ensures var inserted := d[..ip] + newLine + d[ip..];
            inserted[..cv] + field + inserted[ce..] == data[..cv] + field + d[ce .. ip] + newLine + d[ip..]
  {
    var inserted := d[..ip] + newLine + d[ip..];
    assert inserted[..cv] == data[..cv] by {
      assert inserted[..cv] == d[..cv];
      assert d[..cv] == d[..ce][..cv];
    }
    assert inserted[ce..] == d[ce .. ip] + newLine + d[ip..];
  }

  /** Where the patch puts things: the data up to the count field is
      unchanged; the count field holds the count plus one at its old width;
      the rows between the count line and the insertion point are unchanged,
      and the new line follows them. */
  lemma PatchAtLayout(data: seq<char>, loc: CountLine, count: nat, newLine: seq<char>)
    returns (d: seq<char>, ip: nat)
    requires loc.cv <= loc.ce && CrlfAt(data, loc.ce) && count <= INT_MAX
    ensures (d, ip) == InsertionPoint(data, loc.ce + 2, count)
    ensures loc.ce + 2 <= ip <= |d| && d[..loc.ce + 2] == data[..loc.ce + 2]
    ensures PatchAt(data, loc, count, newLine) ==
              data[..loc.cv] + CountField(data[loc.cv .. loc.ce], Inc32(count)) + d[loc.ce .. ip] + newLine + d[ip..]
  {
    d := InsertionPoint(data, loc.ce + 2, count).0;
    ip := InsertionPoint(data, loc.ce + 2, count).1;
    InsertionPointPrefix(data, loc.ce + 2, count, loc.ce);
    InsertionPointPrefix(data, loc.ce + 2, count, loc.ce + 2);
    Splice(data, d, loc.cv, loc.ce, ip, CountField(data[loc.cv .. loc.ce], Inc32(count)), newLine);
  }

  /** No character of s is a CR. */
  predicate NoCr(s: seq<char>) {
    forall i :: 0 <= i < |s| ==> s[i] != '\r'
  }

  /** The rewritten count field holds blanks, digits and a sign only. */
  lemma CountFieldNoCr(content: seq<char>, v: int)
    ensures NoCr(CountField(content, v))
  {
    var pad := LeadingPad(content);
    var dec := IntToDecimal(v);
    var m := NatToDecimal(if v < 0 then -v else v);
    assert NoCr(dec) by {
      forall i | 0 <= i < |m| ensures m[i] != '\r' { assert IsDigit(m[i]); }
    }
    var s := pad + dec;
    assert NoCr(s) by {
      forall i | 0 <= i < |s| ensures s[i] != '\r' {
        if i < |pad| { assert IsBlank(pad[i]); } else { assert s[i] == dec[i - |pad|]; }
      }
    }
  }

  /** A search for CRLF passes over characters that are not CR. */
  lemma {:induction false} NextCrlfSkip(data: seq<char>, from: nat, to: nat)
    requires from <= to <= |data|
    requires forall q :: from <= q < to ==> data[q] != '\r'
    ensures NextCrlf(data, from) == NextCrlf(data, to)
    decreases |data| - from
  {
    if from < to {
      NextCrlfSkip(data, from + 1, to);
    }
  }

  /** A field without CR written between cv and a CRLF at ce leaves that
      CRLF the first one after cv. */
  lemma NextCrlfOverField(r: seq<char>, cv: nat, ce: nat)
    requires cv <= ce && CrlfAt(r, ce) && NoCr(r[cv .. ce])
    ensures NextCrlf(r, cv) == Some(ce)
  {
    assert forall q :: cv <= q < ce ==> r[q] == r[cv .. ce][q - cv];
    NextCrlfSkip(r, cv, ce);
  }

  /** The count line of a section found by its marker and the first CRLF
      after it. */
  lemma LocateCountOf(data: seq<char>, marker: seq<char>, n: int, sp: nat, ce: nat)
    requires NthMarker(data, marker, n) == Some(sp) && NextCrlf(data, sp + |marker|) == Some(ce)
    ensures LocateCount(data, marker, n) == Some(CountLine(sp + |marker|, ce))
  {
  }

  /** Patching at a count line leaves the marker's n-th occurrence where it
      was: everything before the count field is unchanged. */
  lemma PatchAtKeepsMarker(data: seq<char>, marker: seq<char>, n: int, loc: CountLine, count: nat, newLine: seq<char>)
    requires LocateCount(data, marker, n) == Some(loc) && count <= INT_MAX
    ensures NthMarker(PatchAt(data, loc, count, newLine), marker, n) == NthMarker(data, marker, n)
  {
    var field := CountField(data[loc.cv .. loc.ce], Inc32(count));
    var d, ip := PatchAtLayout(data, loc, count, newLine);
    var r := data[..loc.cv] + field + d[loc.ce .. ip] + newLine + d[ip..];
    assert r[..loc.cv] == data[..loc.cv];
    NthMarkerPrefix(data, r, marker, n, loc.cv);
  }

  /** A field without CR written between cv and a CRLF at ce, the rows after
      it unchanged, leaves that CRLF the first one after cv. */
  lemma LineEndAfterSplice(data: seq<char>, d: seq<char>, cv: nat, ce: nat, ip: nat, field: seq<char>, newLine: seq<char>)
    requires cv <= ce && CrlfAt(data, ce) && ce + 2 <= ip <= |d| && d[..ce + 2] == data[..ce + 2]
    requires |field| == ce - cv && NoCr(field)
    ensures NextCrlf(data[..cv] + field + d[ce .. ip] + newLine + d[ip..], cv) == Some(ce)
  {
    var r := data[..cv] + field + d[ce .. ip] + newLine + d[ip..];
    assert r[cv .. ce] == field;
    assert d[ce] == data[ce] && d[ce + 1] == data[ce + 1] by {
      assert d[ce] == d[..ce + 2][ce] && d[ce + 1] == d[..ce + 2][ce + 1];
    }
    assert r[ce] == d[ce] && r[ce + 1] == d[ce + 1];
    NextCrlfOverField(r, cv, ce);
  }

  /** Patching at a count line leaves the CRLF that ends it where it was: the
      rewritten field holds no CR. */
  lemma PatchAtKeepsLineEnd(data: seq<char>, marker: seq<char>, n: int, loc: CountLine, count: nat, newLine: seq<char>)
    requires LocateCount(data, marker, n) == Some(loc) && count <= INT_MAX
    ensures NextCrlf(PatchAt(data, loc, count, newLine), loc.cv) == Some(loc.ce)
  {
    var field := CountField(data[loc.cv .. loc.ce], Inc32(count));
    var d, ip := PatchAtLayout(data, loc, count, newLine);
    CountFieldNoCr(data[loc.cv .. loc.ce], Inc32(count));
    LineEndAfterSplice(data, d, loc.cv, loc.ce, ip, field, newLine);
  }

  /** A successful patch leaves the marker's n-th occurrence and the count
      line where they were, so the section can be patched again. */
  lemma PatchInsertKeepsMarker(data: seq<char>, marker: seq<char>, n: int, newLine: seq<char>)
    requires PatchInsert(data, marker, n, newLine).Some?
    ensures LocateCount(PatchInsert(data, marker, n, newLine).value, marker, n) == LocateCount(data, marker, n)
    ensures NthMarker(PatchInsert(data, marker, n, newLine).value, marker, n) == NthMarker(data, marker, n)
  {
    assert LocateCount(data, marker, n).Some?;
    var loc := LocateCount(data, marker, n).value;
    assert AnnouncedCount(data[loc.cv .. loc.ce]).Some?;
    var count := AnnouncedCount(data[loc.cv .. loc.ce]).value;
    var r := PatchAt(data, loc, count, newLine);
    assert PatchInsert(data, marker, n, newLine) == Some(r);
    PatchAtKeepsMarker(data, marker, n, loc, count, newLine);
    PatchAtKeepsLineEnd(data, marker, n, loc, count, newLine);
    var sp := NthMarker(data, marker, n).value;
    LocateCountOf(r, marker, n, sp, loc.ce);
  }

  /** Inserting at ip leaves what comes before ip alone. */
  lemma InsertKeepsPrefix(d: seq<char>, ip: nat, newLine: seq<char>, m: nat)
    requires m <= ip <= |d|
    ensures (d[..ip] + newLine + d[ip..])[..m] == d[..m]
  {
    assert (d[..ip] + newLine + d[ip..])[..m] == d[..ip][..m];
  }

  /** After the row is inserted at or after the end of the count line, the
      count line is found again where it was. */
  lemma RefindCountLine(data: seq<char>, marker: seq<char>, n: int, loc: CountLine, d: seq<char>, ip: nat, newLine: seq<char>)
    requires LocateCount(data, marker, n) == Some(loc)
    requires loc.ce + 2 <= ip <= |d| && d[..loc.ce + 2] == data[..loc.ce + 2]
    ensures var inserted := d[..ip] + newLine + d[ip..];
            NthMarker(inserted, marker, n) == NthMarker(data, marker, n) &&
            NextCrlf(inserted, loc.cv) == Some(loc.ce)
  {
    var inserted := d[..ip] + newLine + d[ip..];
    InsertKeepsPrefix(d, ip, newLine, loc.ce + 2);
    NthMarkerPrefix(data, inserted, marker, n, loc.ce + 2);
    NextCrlfPrefix(data, inserted, loc.cv, loc.ce + 2, loc.ce);
  }

  lemma PatchInsertNoMarker(data: seq<char>, marker: seq<char>, n: int, newLine: seq<char>)
    requires NthMarker(data, marker, n).None?
    ensures PatchInsert(data, marker, n, newLine).None?
  {
  }

  lemma PatchInsertNoLineEnd(data: seq<char>, marker: seq<char>, n: int, newLine: seq<char>)
    requires NthMarker(data, marker, n).Some?
    requires NextCrlf(data, NthMarker(data, marker, n).value + |marker|).None?
    ensures PatchInsert(data, marker, n, newLine).None?
  {
  }

  lemma PatchInsertBadCount(data: seq<char>, marker: seq<char>, n: int, newLine: seq<char>, loc: CountLine)
    requires LocateCount(data, marker, n) == Some(loc)
    requires AnnouncedCount(data[loc.cv .. loc.ce]).None?
    ensures PatchInsert(data, marker, n, newLine).None?
  {
  }

  /** A patch that finds its count line and reads a count from it. */
  lemma PatchInsertAt(data: seq<char>, marker: seq<char>, n: int, newLine: seq<char>, loc: CountLine, count: nat)
    requires LocateCount(data, marker, n) == Some(loc)
    requires AnnouncedCount(data[loc.cv .. loc.ce]) == Some(count)
    ensures PatchInsert(data, marker, n, newLine) == Some(PatchAt(data, loc, count, newLine))
  {
  }

  /** The loop of PatchInsertLineInSection that steps over the rows the
      count line announces, adding a final CRLF when the data runs out. */
  method WalkRows(data: seq<char>, pos: nat, count: nat) returns (d: seq<char>, insertPos: nat)
    requires pos <= |data|
    ensures (d, insertPos) == InsertionPoint(data, pos, count)
  {
    d := data;
    insertPos := pos;
    var i := 0;
    while i < count
      invariant 0 <= i <= count && d == data && insertPos <= |data|
      invariant RowsEnd(data, insertPos, count - i) == RowsEnd(data, pos, count)
    {
      var next := NextCrlf(d, insertPos);
      if next.None? {
        if |d| < 2 || d[|d| - 2] != '\r' || d[|d| - 1] != '\n' {
          if d != [] {
            d := d + CRLF;
          }
        }
        insertPos := |d|;
        return;
      }
      insertPos := next.value + 2;
      i := i + 1;
    }
  }

  /** The second half of PatchInsertLineInSection, once the count line is
      found and its count read: the row walk, the insertion, and the count
      line found again and overwritten. */
  method InsertAndRecount(data: seq<char>, marker: seq<char>, n: int, newLine: seq<char>, loc: CountLine, count: nat)
    returns (patched: seq<char>)
    requires LocateCount(data, marker, n) == Some(loc) && count <= INT_MAX
    ensures patched == PatchAt(data, loc, count, newLine)
  {
    // Walk over the rows the count announces.
    var insertPos;
    patched, insertPos := WalkRows(data, loc.ce + 2, count);
    InsertionPointPrefix(data, loc.ce + 2, count, loc.ce + 2);
    RefindCountLine(data, marker, n, loc, patched, insertPos, newLine);
    patched := patched[..insertPos] + newLine + patched[insertPos..];

    // The new count, at the width of the old one.
    var field := CountField(data[loc.cv .. loc.ce], Inc32(count));

    // Find the count line again and overwrite it.
    var again := FindNthMarker(patched, marker, n);
    var countValPos := again.value + |marker|;
    var countLineEnd := NextCrlf(patched, countValPos);
    assert countValPos == loc.cv && countLineEnd == Some(loc.ce);
    patched := patched[..countValPos] + field + patched[countLineEnd.value..];
  }

  /** PatchInsertLineInSection over the file's bytes, step by step as the
      source takes them. After inserting the row it searches for the section
      again; the section is found where it was, so the failure branches of
      that second search are never taken. */
  method PatchInsertLineInSection(data: seq<char>, marker: seq<char>, n: int, newLine: seq<char>)
    returns (ok: bool, patched: seq<char>)
    ensures ok == PatchInsert(data, marker, n, newLine).Some?
    ensures patched == if ok then PatchInsert(data, marker, n, newLine).value else data
  {
    var sectionPos := FindNthMarker(data, marker, n);
    if sectionPos.None? {
      PatchInsertNoMarker(data, marker, n, newLine);
      return false, data;
    }
    var countValPos := sectionPos.value + |marker|;
    var countLineEnd := NextCrlf(data, countValPos);
    if countLineEnd.None? {
      PatchInsertNoLineEnd(data, marker, n, newLine);
      return false, data;
    }
    var loc := CountLine(countValPos, countLineEnd.value);
    LocateCountOf(data, marker, n, sectionPos.value, loc.ce);
    var content := data[loc.cv .. loc.ce];
    var announced := AnnouncedCount(content);
    if announced.None? {
      PatchInsertBadCount(data, marker, n, newLine, loc);
      return false, data;
    }
    var count := announced.value;
    patched := InsertAndRecount(data, marker, n, newLine, loc, count);
    PatchInsertAt(data, marker, n, newLine, loc, count);
    ok := true;
  }
}
