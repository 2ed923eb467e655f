/** Byte-level primitives shared by the container tools: the byte and u32 value
    ranges, and the little-endian (x86 memcpy) and big-endian (get32be/put32be)
    encodings of a u32. */
module Bytes {

  type byte = x: int | 0 <= x < 0x100

  const U32_MOD: int := 0x1_0000_0000

  type u32 = x: int | 0 <= x < 0x1_0000_0000

  /** x reduced modulo 2^32, for an x that is at most one wrap-around away from
      the u32 range (a u32 sum or difference of two u32s). */
  function Wrap32(x: int): (r: u32)
    requires -U32_MOD <= x < 2 * U32_MOD
    ensures r == x || r == x - U32_MOD || r == x + U32_MOD
    ensures 0 <= x < U32_MOD ==> r == x
  {
    if x < 0 then x + U32_MOD else if x < U32_MOD then x else x - U32_MOD
  }

  /** The u32 a little-endian machine reads from s[at..at+4]. */
  function Le32(s: seq<byte>, at: nat): (v: u32)
    requires at + 4 <= |s|
  {
    s[at] as int + 0x100 * s[at + 1] as int + 0x1_0000 * s[at + 2] as int + 0x100_0000 * s[at + 3] as int
  }

  /** The four bytes v is stored as on a little-endian machine, least
      significant first. */
  function Le32Digits(v: u32): (r: seq<byte>)
    ensures |r| == 4 && Le32(r, 0) == v
  {
    var r := [v % 0x100, (v / 0x100) % 0x100, (v / 0x1_0000) % 0x100, v / 0x100_0000];
    assert v == r[0] + 0x100 * (v / 0x100);
    assert v / 0x100 == r[1] + 0x100 * (v / 0x1_0000);
    assert v / 0x1_0000 == r[2] + 0x100 * (v / 0x100_0000);
    r
  }

  /** The four bytes a little-endian machine stores for v, known to the rest of
      the model only by what reading them back gives; Le32BytesOf shows there is
      exactly one such sequence. */
  ghost function Le32Bytes(v: u32): (r: seq<byte>)
    ensures |r| == 4
  {
    Le32Exists(v);
    var r :| |r| == 4 && Le32(r, 0) == v;
    r
  }

  lemma Le32Exists(v: u32)
    ensures exists r: seq<byte> :: |r| == 4 && Le32(r, 0) == v
  {
    var d := Le32Digits(v);
  }

  /** The four bytes Le32Bytes(v) read back as v. */
  lemma Le32OfBytes(v: u32)
    ensures Le32(Le32Bytes(v), 0) == v
  {
  }

  /** A low byte and the quotient above it are determined by the number. */
  lemma ByteDigit(a: byte, x: int, b: byte, y: int)
    requires a + 0x100 * x == b + 0x100 * y
    ensures a == b && x == y
  {
  }

  /** Le32 is one-to-one: four bytes are determined by the u32 they read as. */
  lemma Le32BytesOf(s: seq<byte>, at: nat)
    requires at + 4 <= |s|
    ensures Le32Bytes(Le32(s, at)) == s[at..at + 4]
  {
    var v := Le32(s, at);
    var r := Le32Bytes(v);
    Le32OfBytes(v);
    ByteDigit(r[0], r[1] as int + 0x100 * r[2] as int + 0x1_0000 * r[3] as int,
              s[at], s[at + 1] as int + 0x100 * s[at + 2] as int + 0x1_0000 * s[at + 3] as int);
    ByteDigit(r[1], r[2] as int + 0x100 * r[3] as int, s[at + 1], s[at + 2] as int + 0x100 * s[at + 3] as int);
    ByteDigit(r[2], r[3] as int, s[at + 2], s[at + 3] as int);
  }

  /** Reading four bytes at `at` of a sequence that holds Le32Bytes(v) there gives v. */
  lemma Le32At(s: seq<byte>, at: nat, v: u32)
    requires at + 4 <= |s| && s[at..at + 4] == Le32Bytes(v)
    ensures Le32(s, at) == v
  {
    var r := Le32Bytes(v);
    Le32OfBytes(v);
    assert s[at..at + 4][0] == s[at] && s[at..at + 4][1] == s[at + 1];
    assert s[at..at + 4][2] == s[at + 2] && s[at..at + 4][3] == s[at + 3];
  }

  /** The bytes fwrite(&v, 4, 1, f) emits on a little-endian machine. */
  method Le32Encode(v: u32) returns (b: seq<byte>)
    ensures b == Le32Bytes(v)
  {
    b := Le32Digits(v);
    Le32BytesOf(b, 0);
    assert b[0..4] == b;
  }

  /** get32be: the most significant byte comes first. */
  function Get32Be(p: seq<byte>, at: nat): (v: u32)
    requires at + 4 <= |p|
  {
    p[at] as int * 0x100_0000 + p[at + 1] as int * 0x1_0000 + p[at + 2] as int * 0x100 + p[at + 3] as int
  }

  /** The 16-bit big-endian value (p[at] << 8) | p[at + 1]. */
  function Get16Be(p: seq<byte>, at: nat): (v: int)
    requires at + 2 <= |p|
    ensures 0 <= v < 0x1_0000
  {
    p[at] as int * 0x100 + p[at + 1] as int
  }

  /** The four bytes put32be stores for v, most significant first. */
  function Be32Digits(v: u32): (r: seq<byte>)
    ensures |r| == 4 && Get32Be(r, 0) == v
  {
    var r := [v / 0x100_0000, (v / 0x1_0000) % 0x100, (v / 0x100) % 0x100, v % 0x100];
    assert v == r[3] + 0x100 * (v / 0x100);
    assert v / 0x100 == r[2] + 0x100 * (v / 0x1_0000);
    assert v / 0x1_0000 == r[1] + 0x100 * (v / 0x100_0000);
    r
  }

  /** The four bytes put32be stores for v, known to the rest of the model only
      by what get32be reads back from them; Be32BytesOf shows there is exactly
      one such sequence. */
  ghost function Be32Bytes(v: u32): (r: seq<byte>)
    ensures |r| == 4
  {
    var d := Be32Digits(v);
    var r :| |r| == 4 && Get32Be(r, 0) == v;
    r
  }

  /** The four bytes Be32Bytes(v) read back as v. */
  lemma Get32BeOfBytes(v: u32)
    ensures Get32Be(Be32Bytes(v), 0) == v
  {
  }

  /** get32be is one-to-one: four bytes are determined by the u32 they read as. */
  lemma Be32BytesOf(p: seq<byte>, at: nat)
    requires at + 4 <= |p|
    ensures Be32Bytes(Get32Be(p, at)) == p[at..at + 4]
  {
    var r := Be32Bytes(Get32Be(p, at));
    Get32BeOfBytes(Get32Be(p, at));
    ByteDigit(r[3], r[2] as int + 0x100 * r[1] as int + 0x1_0000 * r[0] as int,
              p[at + 3], p[at + 2] as int + 0x100 * p[at + 1] as int + 0x1_0000 * p[at] as int);
    ByteDigit(r[2], r[1] as int + 0x100 * r[0] as int, p[at + 2], p[at + 1] as int + 0x100 * p[at] as int);
    ByteDigit(r[1], r[0] as int, p[at + 1], p[at] as int);
  }

  /** Reading four bytes at `at` of a sequence that holds Be32Bytes(v) there
      gives v back: get32be undoes put32be. */
  lemma Get32BeAt(p: seq<byte>, at: nat, v: u32)
    requires at + 4 <= |p| && p[at..at + 4] == Be32Bytes(v)
    ensures Get32Be(p, at) == v
  {
    var r := Be32Bytes(v);
    Get32BeOfBytes(v);
    assert p[at..at + 4][0] == p[at] && p[at..at + 4][1] == p[at + 1];
    assert p[at..at + 4][2] == p[at + 2] && p[at..at + 4][3] == p[at + 3];
  }

  /** The bytes put32be emits for v. */
  method Be32Encode(v: u32) returns (b: seq<byte>)
    ensures b == Be32Bytes(v)
  {
    b := Be32Digits(v);
    Be32BytesOf(b, 0);
    assert b[0..4] == b;
  }

  /** The buffer h with the four bytes b stored at `at`. */
  ghost function Store4(h: seq<byte>, at: nat, b: seq<byte>): (r: seq<byte>)
    requires at + 4 <= |h| && |b| == 4
    ensures |r| == |h|
  {
    seq(|h|, k requires 0 <= k < |h| => if at <= k < at + 4 then b[k - at] else h[k])
  }

  /** After the store the four bytes are b and every other byte is kept. */
  lemma Store4Fields(h: seq<byte>, at: nat, b: seq<byte>)
    requires at + 4 <= |h| && |b| == 4
    ensures var r := Store4(h, at, b);
            r[at..at + 4] == b && r[..at] == h[..at] && r[at + 4..] == h[at + 4..]
  {
    var r := Store4(h, at, b);
    assert r[at..at + 4] == b;
    assert r[..at] == h[..at];
    assert r[at + 4..] == h[at + 4..];
  }

  /** put32be(p + at, v): overwrites exactly four bytes of the buffer, most
      significant byte first. */
  method Put32Be(p: array<byte>, at: nat, v: u32)
    requires at + 4 <= p.Length
    modifies p
    ensures p[..] == Store4(old(p[..]), at, Be32Bytes(v))
  {
    var d := Be32Digits(v);
    p[at] := d[0];
    p[at + 1] := d[1];
    p[at + 2] := d[2];
    p[at + 3] := d[3];
    assert p[..][at..at + 4] == d;
    Be32BytesOf(p[..], at);
    assert p[..] == Store4(old(p[..]), at, Be32Bytes(v));
  }

  /** memcpy(p + at, &v, 4) on a little-endian machine. */
  method Put32Le(p: array<byte>, at: nat, v: u32)
    requires at + 4 <= p.Length
    modifies p
    ensures p[..] == Store4(old(p[..]), at, Le32Bytes(v))
  {
    var d := Le32Digits(v);
    p[at] := d[0];
    p[at + 1] := d[1];
    p[at + 2] := d[2];
    p[at + 3] := d[3];
    assert p[..][at..at + 4] == d;
    Le32BytesOf(p[..], at);
    assert p[..] == Store4(old(p[..]), at, Le32Bytes(v));
  }

  /** Byte strings written one after the other. */
  function Flatten(ss: seq<seq<byte>>): seq<byte> {
    if ss == [] then [] else Flatten(ss[..|ss| - 1]) + ss[|ss| - 1]
  }

  /** Writing one more string appends it. */
  lemma FlattenSnoc(ss: seq<seq<byte>>, i: nat)
    requires i < |ss|
    ensures Flatten(ss[..i + 1]) == Flatten(ss[..i]) + ss[i]
  {
    var t := ss[..i + 1];
    assert t[..|t| - 1] == ss[..i] && t[|t| - 1] == ss[i];
  }

  /** What is written first stays in place. */
  lemma {:induction false} FlattenGrows(ss: seq<seq<byte>>, i: nat, j: nat)
    requires i <= j <= |ss|
    ensures Flatten(ss[..i]) <= Flatten(ss[..j])
    decreases j - i
  {
    if i < j {
      FlattenGrows(ss, i, j - 1);
      FlattenSnoc(ss, j - 1);
    }
  }

  /** String i is found in the output right after the strings before it. */
  lemma FlattenAt(ss: seq<seq<byte>>, i: nat)
    requires i < |ss|
    ensures var at := |Flatten(ss[..i])|;
            at + |ss[i]| <= |Flatten(ss)| && Flatten(ss)[at .. at + |ss[i]|] == ss[i]
  {
    var before := Flatten(ss[..i]);
    FlattenSnoc(ss, i);
    FlattenGrows(ss, i + 1, |ss|);
    assert ss[..|ss|] == ss;
    assert Flatten(ss)[|before| .. |before| + |ss[i]|] == (before + ss[i])[|before| .. |before| + |ss[i]|];
  }

  /** n strings of w bytes each write out to n * w bytes. */
  lemma {:induction false} FlattenUniform(ss: seq<seq<byte>>, w: nat)
    requires forall k :: 0 <= k < |ss| ==> |ss[k]| == w
    ensures |Flatten(ss)| == |ss| * w
  {
    if ss != [] {
      FlattenUniform(ss[..|ss| - 1], w);
    }
  }

  /** Concatenation regroups. */
  lemma AppendAssoc3(a: seq<byte>, b: seq<byte>, c: seq<byte>)
    ensures a + (b + c) == a + b + c
  {
  }

  /** Writing string i after a prefix that holds the strings before it. */
  lemma FlattenStep(head: seq<byte>, ss: seq<seq<byte>>, i: nat, f: seq<byte>)
    requires i < |ss| && f == head + Flatten(ss[..i])
    ensures f + ss[i] == head + Flatten(ss[..i + 1])
  {
    FlattenSnoc(ss, i);
    AppendAssoc3(head, Flatten(ss[..i]), ss[i]);
  }
}
