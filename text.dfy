/** Text helpers shared by the .flo tools: the whitespace Trim both tools define
    (identically, for wide and narrow strings), the std::getline tokeniser they
    use on string streams, the decimal parsers std::stoi and _wtoi, and the
    decimal formatting of "%d" and std::to_string. Characters stand for both
    wchar_t and char code units. */
module Text {
  import opened Optional

  const INT_MIN: int := -0x8000_0000
  const INT_MAX: int := 0x7FFF_FFFF

  // ---------------------------------------------------------------------------
  // Trim
  // ---------------------------------------------------------------------------

  /** The characters Trim removes: " \t\r\n". */
  predicate IsTrimSpace(c: char) {
    c == ' ' || c == '\t' || c == '\r' || c == '\n'
  }

  predicate AllTrimSpace(s: seq<char>) {
    forall i :: 0 <= i < |s| ==> IsTrimSpace(s[i])
  }

  /** Trim / TrimA: the substring between the first and the last character that is
      not a space, tab, CR or LF (find_first_not_of and find_last_not_of); empty
      when there is none. Written as peeling one white-space character off
      either end at a time, which cuts the same substring. */
  function Trim(s: seq<char>): (r: seq<char>)
    ensures r == [] <==> AllTrimSpace(s)
    ensures r != [] ==> !IsTrimSpace(r[0]) && !IsTrimSpace(r[|r| - 1])
    ensures |r| <= |s|
    decreases |s|
  {
    if s == [] then []
    else if IsTrimSpace(s[0]) then
      var r := Trim(s[1..]);
      assert AllTrimSpace(s[1..]) ==> AllTrimSpace(s) by {
        if AllTrimSpace(s[1..]) {
          forall i | 0 <= i < |s| ensures IsTrimSpace(s[i]) {
            if i > 0 { assert s[i] == s[1..][i - 1]; }
          }
        }
      }
      r
    else if IsTrimSpace(s[|s| - 1]) then
      var r := Trim(s[..|s| - 1]);
      assert !AllTrimSpace(s[..|s| - 1]) by { assert !IsTrimSpace(s[..|s| - 1][0]); }
      r
    else s
  }

  /** Leading white space goes. */
  lemma {:induction false} TrimLeading(p: seq<char>, t: seq<char>)
    requires AllTrimSpace(p)
    ensures Trim(p + t) == Trim(t)
    decreases |p|
  {
    if p != [] {
      assert (p + t)[0] == p[0] && IsTrimSpace(p[0]);
      assert (p + t)[1..] == p[1..] + t;
      assert AllTrimSpace(p[1..]) by {
        forall i | 0 <= i < |p[1..]| ensures IsTrimSpace(p[1..][i]) { assert p[1..][i] == p[i + 1]; }
      }
      TrimLeading(p[1..], t);
    } else {
      assert p + t == t;
    }
  }

  /** Trailing white space after a core that starts and ends with other
      characters goes. */
  lemma {:induction false} TrimTrailing(m: seq<char>, q: seq<char>)
    requires m != [] && !IsTrimSpace(m[0]) && !IsTrimSpace(m[|m| - 1]) && AllTrimSpace(q)
    ensures Trim(m + q) == m
    decreases |q|
  {
    if q == [] {
      assert m + q == m;
    } else {
      assert (m + q)[..|m + q| - 1] == m + q[..|q| - 1];
      TrimTrailing(m, q[..|q| - 1]);
    }
  }

  /** Trim is exactly "remove the white-space padding": whatever white space
      surrounds a core that neither starts nor ends with white space, Trim
      returns that core. */
  lemma TrimOfPadded(p: seq<char>, m: seq<char>, q: seq<char>)
    requires AllTrimSpace(p) && AllTrimSpace(q)
    requires m == [] || (!IsTrimSpace(m[0]) && !IsTrimSpace(m[|m| - 1]))
    ensures Trim(p + m + q) == m
  {
    if m == [] {
      assert AllTrimSpace(p + m + q) by {
        forall i | 0 <= i < |p + m + q| ensures IsTrimSpace((p + m + q)[i]) {
          if i >= |p| { assert (p + m + q)[i] == q[i - |p|]; }
        }
      }
    } else {
      assert p + m + q == p + (m + q);
      TrimLeading(p, m + q);
      TrimTrailing(m, q);
    }
  }

  /** How many white-space characters Trim cuts off the front. */
  function TrimStart(s: seq<char>): (a: nat)
    ensures a <= |s|
    decreases |s|
  {
    if s != [] && IsTrimSpace(s[0]) then 1 + TrimStart(s[1..]) else 0
  }

  /** s is a white-space prefix of length a, then r, then white space. */
  predicate Padded(s: seq<char>, a: nat, r: seq<char>) {
    a + |r| <= |s| && s[a .. a + |r|] == r && AllTrimSpace(s[..a]) && AllTrimSpace(s[a + |r|..])
  }

  lemma PaddedFront(c: char, t: seq<char>, a: nat, r: seq<char>)
    requires IsTrimSpace(c) && Padded(t, a, r)
    ensures Padded([c] + t, a + 1, r)
  {
    var s := [c] + t;
    assert s[a + 1 .. a + 1 + |r|] == t[a .. a + |r|];
    assert s[..a + 1] == [c] + t[..a];
    assert s[a + 1 + |r|..] == t[a + |r|..];
  }

  lemma PaddedBack(u: seq<char>, c: char, r: seq<char>)
    requires IsTrimSpace(c) && Padded(u, 0, r)
    ensures Padded(u + [c], 0, r)
  {
    var s := u + [c];
    assert s[..|r|] == u[..|r|];
    assert s[|r|..] == u[|r|..] + [c];
  }

  /** Cutting a white-space character off the front keeps the padding. */
  lemma TrimCoreFront(s: seq<char>)
    requires s != [] && IsTrimSpace(s[0]) && Padded(s[1..], TrimStart(s[1..]), Trim(s[1..]))
    ensures Padded(s, TrimStart(s), Trim(s))
  {
    PaddedFront(s[0], s[1..], TrimStart(s[1..]), Trim(s[1..]));
    DropFirst(s);
  }

  /** Cutting a white-space character off the back keeps the padding. */
  lemma TrimCoreBack(s: seq<char>)
    requires s != [] && !IsTrimSpace(s[0]) && IsTrimSpace(s[|s| - 1])
    requires Padded(s[..|s| - 1], TrimStart(s[..|s| - 1]), Trim(s[..|s| - 1]))
    ensures Padded(s, TrimStart(s), Trim(s))
  {
    var u := s[..|s| - 1];
    assert TrimStart(u) == 0;
    PaddedBack(u, s[|s| - 1], Trim(u));
    DropLast(s);
  }

  lemma DropFirst<T>(s: seq<T>)
    requires s != []
    ensures [s[0]] + s[1..] == s
  {
  }

  lemma DropLast<T>(s: seq<T>)
    requires s != []
    ensures s[..|s| - 1] + [s[|s| - 1]] == s
  {
  }

  /** Trim cuts white space and only white space off both ends: the argument is
      white space, then the result, then white space. */
  lemma {:induction false} TrimCore(s: seq<char>)
    ensures Padded(s, TrimStart(s), Trim(s))
    decreases |s|
  {
    if s == [] {
    } else if IsTrimSpace(s[0]) {
      TrimCore(s[1..]);
      TrimCoreFront(s);
    } else if IsTrimSpace(s[|s| - 1]) {
      TrimCore(s[..|s| - 1]);
      TrimCoreBack(s);
    } else {
      assert s[0 .. |s|] == s;
    }
  }

  /** Trim removes nothing more on a second application. */
  lemma TrimIdempotent(s: seq<char>)
    ensures Trim(Trim(s)) == Trim(s)
  {
    TrimOfPadded([], Trim(s), []);
    assert [] + Trim(s) + [] == Trim(s);
  }

  // ---------------------------------------------------------------------------
  // Decimal numbers
  // ---------------------------------------------------------------------------

  predicate IsDigit(c: char) {
    '0' <= c <= '9'
  }

  predicate AllDigits(s: seq<char>) {
    forall i :: 0 <= i < |s| ==> IsDigit(s[i])
  }

  function DigitValue(c: char): nat
    requires IsDigit(c)
  {
    c as int - '0' as int
  }

  function DigitChar(d: nat): (c: char)
    requires d < 10
    ensures IsDigit(c) && DigitValue(c) == d
  {
    ('0' as int + d) as char
  }

  /** The value of a string of decimal digits, most significant first. */
  function DigitsValue(s: seq<char>): nat
    requires AllDigits(s)
  {
    if s == [] then 0 else DigitsValue(s[..|s| - 1]) * 10 + DigitValue(s[|s| - 1])
  }

  /** The digits "%u" prints for n: no leading zero, and they read back as n. */
  function NatToDecimal(n: nat): (r: seq<char>)
    ensures 1 <= |r| && AllDigits(r)
    ensures DigitsValue(r) == n
    ensures |r| > 1 ==> r[0] != '0'
  {
    if n < 10 then [DigitChar(n)]
    else
      var r := NatToDecimal(n / 10) + [DigitChar(n % 10)];
      assert r[..|r| - 1] == NatToDecimal(n / 10);
      r
  }

  /** "%d" / std::to_string for an int. */
  function IntToDecimal(n: int): (r: seq<char>)
  {
    if n < 0 then ['-'] + NatToDecimal(-n) else NatToDecimal(n)
  }

  /** isspace in the C locale, which strtol skips before a number. */
  predicate IsCSpace(c: char) {
    c == ' ' || c == '\t' || c == '\n' || c == '\r' || c == '\U{000B}' || c == '\U{000C}'
  }

  function SkipCSpace(s: seq<char>): (r: seq<char>)
    ensures |r| <= |s| && r == s[|s| - |r|..]
    ensures r == [] || !IsCSpace(r[0])
  {
    if s != [] && IsCSpace(s[0]) then SkipCSpace(s[1..]) else s
  }

  /** The longest prefix of decimal digits. */
  function LeadingDigits(s: seq<char>): (r: seq<char>)
    ensures |r| <= |s| && r == s[..|r|] && AllDigits(r)
    ensures |r| == |s| || !IsDigit(s[|r|])
  {
    if s != [] && IsDigit(s[0]) then [s[0]] + LeadingDigits(s[1..]) else []
  }

  /** The sign and the digit run strtol reads: leading white space, an optional
      '+' or '-', then the digits; everything after the digits is ignored. */
  datatype DecimalScan = DecimalScan(negative: bool, digits: seq<char>)

  function ScanDecimal(s: seq<char>): (r: DecimalScan)
    ensures AllDigits(r.digits)
  {
    var t := SkipCSpace(s);
    if t != [] && (t[0] == '-' || t[0] == '+') then DecimalScan(t[0] == '-', LeadingDigits(t[1..]))
    else DecimalScan(false, LeadingDigits(t))
  }

  function ScanValue(sc: DecimalScan): int
    requires AllDigits(sc.digits)
  {
    if sc.negative then -(DigitsValue(sc.digits) as int) else DigitsValue(sc.digits)
  }

  /** std::stoi: None where it throws, that is when no digit follows the optional
      sign (invalid_argument) or the value is outside int (out_of_range). */
  function Stoi(s: seq<char>): (r: Option<int>)
    ensures r.Some? ==> INT_MIN <= r.value <= INT_MAX
    ensures r.None? <==> ScanDecimal(s).digits == [] || !(INT_MIN <= ScanValue(ScanDecimal(s)) <= INT_MAX)
  {
    var sc := ScanDecimal(s);
    if sc.digits == [] then None
    else
      var v := ScanValue(sc);
      if INT_MIN <= v <= INT_MAX then Some(v) else None
  }

  /** _wtoi: 0 when there are no digits, INT_MAX or INT_MIN when the value
      does not fit in an int. */
  function Wtoi(s: seq<char>): (r: int)
    ensures INT_MIN <= r <= INT_MAX
    ensures Stoi(s).Some? ==> r == Stoi(s).value
    ensures ScanDecimal(s).digits == [] ==> r == 0
  {
    var sc := ScanDecimal(s);
    if sc.digits == [] then 0
    else
      var v := ScanValue(sc);
      if v < INT_MIN then INT_MIN else if v > INT_MAX then INT_MAX else v
  }

  lemma {:induction false} LeadingDigitsOfDigits(s: seq<char>, rest: seq<char>)
    requires AllDigits(s)
    requires rest == [] || !IsDigit(rest[0])
    ensures LeadingDigits(s + rest) == s
  {
    if s != [] {
      assert (s + rest)[1..] == s[1..] + rest;
      LeadingDigitsOfDigits(s[1..], rest);
    }
  }

  lemma ScanOfDigits(s: seq<char>)
    requires s != [] && AllDigits(s)
    ensures ScanDecimal(s) == DecimalScan(false, s)
  {
    assert IsDigit(s[0]);
    assert SkipCSpace(s) == s;
    LeadingDigitsOfDigits(s, []);
    assert s + [] == s;
  }

  /** Parsing what "%d" prints gives the number back. */
  lemma DecimalRoundTrip(n: int)
    requires INT_MIN <= n <= INT_MAX
    ensures Stoi(IntToDecimal(n)) == Some(n)
    ensures Wtoi(IntToDecimal(n)) == n
  {
    if n < 0 {
      var d := NatToDecimal(-n);
      var t := IntToDecimal(n);
      assert t == ['-'] + d;
      assert SkipCSpace(t) == t;
      assert t[1..] == d;
      LeadingDigitsOfDigits(d, []);
      assert d + [] == d;
      assert ScanDecimal(t) == DecimalScan(true, d);
    } else {
      ScanOfDigits(NatToDecimal(n));
    }
  }

  /** A string of digits alone parses to its digit value when that fits. */
  lemma StoiOfDigits(s: seq<char>)
    requires s != [] && AllDigits(s)
    ensures Stoi(s) == if DigitsValue(s) <= INT_MAX then Some(DigitsValue(s)) else None
  {
    ScanOfDigits(s);
  }

  lemma DecimalHasNoTrimSpace(n: int)
    ensures IntToDecimal(n) != []
    ensures !IsTrimSpace(IntToDecimal(n)[0]) && !IsTrimSpace(IntToDecimal(n)[|IntToDecimal(n)| - 1])
    ensures ',' !in IntToDecimal(n)
  {
    var d := NatToDecimal(if n < 0 then -n else n);
    assert IsDigit(d[|d| - 1]);
    assert ',' !in d by {
      forall i | 0 <= i < |d| ensures d[i] != ',' { assert IsDigit(d[i]); }
    }
  }

  // ---------------------------------------------------------------------------
  // std::getline on a string stream
  // ---------------------------------------------------------------------------

  /** The first index of c in s. */
  function IndexOf(s: seq<char>, c: char): (r: Option<nat>)
    ensures r.None? ==> c !in s
    ensures r.Some? ==> r.value < |s| && s[r.value] == c && c !in s[..r.value]
  {
    if s == [] then None
    else if s[0] == c then Some(0)
    else match IndexOf(s[1..], c)
      case None => None
      case Some(i) =>
        assert s[..i + 1] == [s[0]] + s[1..][..i];
        Some(i + 1)
  }

  /** A string stream: the characters not yet read, and whether the stream is
      still good (neither end-of-file nor failure has been signalled). */
  datatype LineStream = LineStream(rest: seq<char>, good: bool)

  /** The stream, the token variable and the truth value of the call after
      std::getline(stream, token, delim). */
  datatype GetlineResult = GetlineResult(stream: LineStream, token: seq<char>, ok: bool)

  /** std::getline(stream, tok, delim). A stream that is no longer good fails at
      once and leaves tok as it was. Otherwise tok receives the characters up to
      the delimiter, which is consumed; when there is no delimiter tok receives
      the rest and end-of-file is signalled, and the call fails only when it
      extracted nothing at all. */
  function Getline(st: LineStream, tok: seq<char>, delim: char): (r: GetlineResult)
    ensures !st.good ==> r == GetlineResult(st, tok, false)
    ensures r.ok ==> |r.stream.rest| < |st.rest| || !r.stream.good
  {
    if !st.good then GetlineResult(st, tok, false)
    else match IndexOf(st.rest, delim)
      case Some(j) => GetlineResult(LineStream(st.rest[j + 1..], true), st.rest[..j], true)
      case None => GetlineResult(LineStream([], false), st.rest, st.rest != [])
  }

  /** The values the token variable holds after each of a fixed series of
      std::getline calls on a stream over `line` (the token starts empty). */
  function GetlineSeries(line: seq<char>, delims: seq<char>): (toks: seq<seq<char>>)
    ensures |toks| == |delims|
  {
    GetlineSeriesFrom(LineStream(line, true), [], delims)
  }

  function GetlineSeriesFrom(st: LineStream, tok: seq<char>, delims: seq<char>): (toks: seq<seq<char>>)
    ensures |toks| == |delims|
    decreases |delims|
  {
    if delims == [] then []
    else
      var r := Getline(st, tok, delims[0]);
      [r.token] + GetlineSeriesFrom(r.stream, r.token, delims[1..])
  }

  /** The tokens collected by `while (std::getline(stream, token, delim)) push(token)`.
      The value the token variable held before a call never reaches the result:
      a call that fails is not pushed, and one that succeeds overwrites it. */
  function TokensWhileGood(st: LineStream, delim: char): seq<seq<char>>
    decreases |st.rest|, st.good
  {
    var r := Getline(st, [], delim);
    if !r.ok then [] else [r.token] + TokensWhileGood(r.stream, delim)
  }

  function SplitTokens(line: seq<char>, delim: char): seq<seq<char>> {
    TokensWhileGood(LineStream(line, true), delim)
  }

  lemma {:induction false} IndexOfAfter(a: seq<char>, c: char, b: seq<char>)
    requires c !in a
    ensures IndexOf(a + [c] + b, c) == Some(|a|)
  {
    if a != [] {
      assert (a + [c] + b)[1..] == a[1..] + [c] + b;
      IndexOfAfter(a[1..], c, b);
    }
  }

  /** One getline step over `a + [delim] + b` returns a when a holds no delimiter. */
  lemma GetlineAt(a: seq<char>, delim: char, b: seq<char>, tok: seq<char>)
    requires delim !in a
    ensures Getline(LineStream(a + [delim] + b, true), tok, delim)
         == GetlineResult(LineStream(b, true), a, true)
  {
    var s := a + [delim] + b;
    IndexOfAfter(a, delim, b);
    assert s[..|a|] == a && s[|a| + 1..] == b;
  }

  /** The last getline on a non-empty remainder without a delimiter returns it. */
  lemma GetlineLast(a: seq<char>, delim: char, tok: seq<char>)
    requires delim !in a && a != []
    ensures Getline(LineStream(a, true), tok, delim) == GetlineResult(LineStream([], false), a, true)
  {
  }

  /** A line of comma-free parts joined by commas splits back into the parts,
      as long as the last part is not empty. */
  lemma {:induction false} SplitJoined(a: seq<char>, rest: seq<char>, delim: char)
    requires delim !in a
    ensures SplitTokens(a + [delim] + rest, delim) == [a] + SplitTokens(rest, delim)
  {
    GetlineAt(a, delim, rest, []);
  }

  lemma SplitSingle(a: seq<char>, delim: char)
    requires delim !in a && a != []
    ensures SplitTokens(a, delim) == [a]
  {
    GetlineLast(a, delim, []);
    assert TokensWhileGood(LineStream([], false), delim) == [];
    assert TokensWhileGood(LineStream(a, true), delim) == [a] + TokensWhileGood(LineStream([], false), delim);
  }

  /** One getline of a series, over a delimiter-free field followed by the delimiter. */
  lemma GetlineSeriesStep(a: seq<char>, delim: char, rest: seq<char>, tok: seq<char>, ds: seq<char>)
    requires delim !in a && ds != [] && ds[0] == delim
    ensures GetlineSeriesFrom(LineStream(a + [delim] + rest, true), tok, ds)
         == [a] + GetlineSeriesFrom(LineStream(rest, true), a, ds[1..])
  {
    GetlineAt(a, delim, rest, tok);
  }

  /** The last getline of a series, over a delimiter-free remainder. */
  lemma GetlineSeriesLast(d: seq<char>, delim: char, tok: seq<char>)
    requires delim !in d && d != []
    ensures GetlineSeriesFrom(LineStream(d, true), tok, [delim]) == [d]
  {
    GetlineLast(d, delim, tok);
    assert [delim][1..] == [];
  }

  /** The fields joined by the delimiters that end all but the last of them. */
  function Joined(fields: seq<seq<char>>, delims: seq<char>): (line: seq<char>)
    requires 1 <= |fields| == |delims|
    decreases |fields|
  {
    if |fields| == 1 then fields[0]
    else fields[0] + [delims[0]] + Joined(fields[1..], delims[1..])
  }

  /** A series of getline calls over fields joined by the delimiters it reads
      up to returns the fields, as long as no field holds its own delimiter and
      the last one is not empty. */
  lemma {:induction false} GetlineSeriesOfJoined(fields: seq<seq<char>>, delims: seq<char>, tok: seq<char>)
    requires 1 <= |fields| == |delims|
    requires forall k :: 0 <= k < |fields| ==> delims[k] !in fields[k]
    requires fields[|fields| - 1] != []
    ensures GetlineSeriesFrom(LineStream(Joined(fields, delims), true), tok, delims) == fields
    decreases |fields|
  {
    if |fields| == 1 {
      GetlineSeriesLast(fields[0], delims[0], tok);
      assert delims == [delims[0]];
    } else {
      GetlineSeriesStep(fields[0], delims[0], Joined(fields[1..], delims[1..]), tok, delims);
      GetlineSeriesOfJoined(fields[1..], delims[1..], fields[0]);
      assert fields == [fields[0]] + fields[1..];
    }
  }

  /** A decimal behind blanks reads back as its value. */
  lemma PaddedDecimal(p: seq<char>, n: int)
    requires AllTrimSpace(p) && INT_MIN <= n <= INT_MAX
    ensures Wtoi(Trim(p + IntToDecimal(n))) == n
  {
    DecimalHasNoTrimSpace(n);
    TrimOfPadded(p, IntToDecimal(n), []);
    assert p + IntToDecimal(n) + [] == p + IntToDecimal(n);
    DecimalRoundTrip(n);
  }
}
