/** The browser's `atob`: the forgiving-base64 decode of the WHATWG Infra
    standard over the alphabet of section 4 of RFC 4648, returning the bytes
    as a string of code points below 256; and the padded encoding of
    section 4 of RFC 4648, which it inverts. */
module Base64 {
  import opened Common

  newtype byte = x: int | 0 <= x < 256

  /** ASCII whitespace, which the forgiving decode removes first. */
  predicate IsAsciiWhitespace(c: char)
  {
    c == '\t' || c == '\n' || c as int == 0x0C || c == '\r' || c == ' '
  }

  /** A character of the alphabet of section 4 of RFC 4648. */
  predicate IsBase64Char(c: char)
  {
    ('A' <= c <= 'Z') || ('a' <= c <= 'z') || ('0' <= c <= '9') || c == '+' || c == '/'
  }

  /** The 6-bit value of an alphabet character (Table 1 of RFC 4648). */
  function CharValue(c: char): (v: int)
    requires IsBase64Char(c)
    ensures 0 <= v < 64
  {
    if 'A' <= c <= 'Z' then c as int - 'A' as int
    else if 'a' <= c <= 'z' then c as int - 'a' as int + 26
    else if '0' <= c <= '9' then c as int - '0' as int + 52
    else if c == '+' then 62
    else 63
  }

  /** The alphabet character of a 6-bit value. */
  function ValueChar(v: int): (c: char)
    requires 0 <= v < 64
    ensures IsBase64Char(c) && CharValue(c) == v
  {
    if v < 26 then (v + 'A' as int) as char
    else if v < 52 then (v - 26 + 'a' as int) as char
    else if v < 62 then (v - 52 + '0' as int) as char
    else if v == 62 then '+'
    else '/'
  }

  function StripWhitespace(s: string): (r: string)
    ensures forall i :: 0 <= i < |r| ==> !IsAsciiWhitespace(r[i])
  {
    if s == [] then []
    else if IsAsciiWhitespace(s[0]) then StripWhitespace(s[1..])
    else [s[0]] + StripWhitespace(s[1..])
  }

  /** Step 2 of the forgiving decode: a length that is a multiple of four
      loses one or two trailing `=`. */
  function StripPadding(s: string): (r: string)
    ensures |r| <= |s|
  {
    if |s| % 4 == 0 && |s| >= 2 && s[|s| - 1] == '=' && s[|s| - 2] == '=' then s[..|s| - 2]
    else if |s| % 4 == 0 && |s| >= 1 && s[|s| - 1] == '=' then s[..|s| - 1]
    else s
  }

  predicate AllBase64(s: string)
  {
    forall i :: 0 <= i < |s| ==> IsBase64Char(s[i])
  }

  /** The three bytes held by four 6-bit values. */
  function DecodeGroup(a: int, b: int, c: int, d: int): (r: seq<byte>)
    requires 0 <= a < 64 && 0 <= b < 64 && 0 <= c < 64 && 0 <= d < 64
    ensures |r| == 3
  {
    [(a * 4 + b / 16) as byte, (b % 16 * 16 + c / 4) as byte, (c % 4 * 64 + d) as byte]
  }

  /** The bytes of a whole number of 4-character groups, followed by a tail
      of 2 or 3 characters whose leftover bits are discarded (read as if
      completed with zero values). `Atob` rejects a tail of one character
      before decoding. */
  function DecodeChars(s: string): seq<byte>
    requires AllBase64(s)
  {
    if |s| >= 4 then
      DecodeGroup(CharValue(s[0]), CharValue(s[1]), CharValue(s[2]), CharValue(s[3])) + DecodeChars(s[4..])
    else if |s| == 3 then
      DecodeGroup(CharValue(s[0]), CharValue(s[1]), CharValue(s[2]), 0)[..2]
    else if |s| == 2 then
      DecodeGroup(CharValue(s[0]), CharValue(s[1]), 0, 0)[..1]
    else []
  }

  /** The forgiving-base64 decode: None where it fails, which is where
      `atob` throws an `InvalidCharacterError`. */
  function DecodeBase64(data: string): (r: Option<seq<byte>>)
    ensures r.Some? <==> var s := StripPadding(StripWhitespace(data)); |s| % 4 != 1 && AllBase64(s)
  {
    var s := StripPadding(StripWhitespace(data));
    if |s| % 4 == 1 || !AllBase64(s) then None else Some(DecodeChars(s))
  }

  /** A "binary string": one character per byte, whose code is the byte. */
  function BinaryString(bytes: seq<byte>): (s: string)
    ensures |s| == |bytes| && forall i :: 0 <= i < |s| ==> s[i] as int == bytes[i] as int
  {
    seq(|bytes|, i requires 0 <= i < |bytes| => bytes[i] as int as char)
  }

  /** `atob`: the decoded bytes as a binary string; None where it throws. */
  function Atob(data: string): (r: Option<string>)
    ensures r.Some? <==> DecodeBase64(data).Some?
    ensures r.Some? ==> |r.value| == |DecodeBase64(data).value|
    ensures r.Some? ==> forall i :: 0 <= i < |r.value| ==> r.value[i] as int == DecodeBase64(data).value[i] as int
  {
    match DecodeBase64(data)
    case Some(bytes) => Some(BinaryString(bytes))
    case None => None
  }

  /** Three bytes cut into four 6-bit values, most significant bits first. */
  function Sextets(x: byte, y: byte, z: byte): (v: seq<int>)
    ensures |v| == 4 && forall i :: 0 <= i < 4 ==> 0 <= v[i] < 64
  {
    var i, j, k := x as int, y as int, z as int;
    [i / 4, i % 4 * 16 + j / 16, j % 16 * 4 + k / 64, k % 64]
  }

  /** Three bytes as four alphabet characters. */
  function EncodeGroup(x: byte, y: byte, z: byte): (r: string)
    ensures |r| == 4 && AllBase64(r)
  {
    var v := Sextets(x, y, z);
    [ValueChar(v[0]), ValueChar(v[1]), ValueChar(v[2]), ValueChar(v[3])]
  }

  /** The values of four characters, read back from the alphabet. */
  function GroupValues(g: string): (v: seq<int>)
    requires |g| == 4 && AllBase64(g)
    ensures |v| == 4 && forall i :: 0 <= i < 4 ==> 0 <= v[i] < 64
  {
    [CharValue(g[0]), CharValue(g[1]), CharValue(g[2]), CharValue(g[3])]
  }

  /** The bits of three bytes survive the cut into sextets and the join. */
  lemma SextetsJoin(x: int, y: int, z: int)
    requires 0 <= x < 256 && 0 <= y < 256 && 0 <= z < 256
    ensures var a, b, c, d := x / 4, x % 4 * 16 + y / 16, y % 16 * 4 + z / 64, z % 64;
      a * 4 + b / 16 == x && b % 16 * 16 + c / 4 == y && c % 4 * 64 + d == z
  {
  }

  /** `DecodeGroup` reads back the three bytes `EncodeGroup` wrote. */
  lemma GroupRoundTrip(x: byte, y: byte, z: byte)
    ensures var v := GroupValues(EncodeGroup(x, y, z));
      DecodeGroup(v[0], v[1], v[2], v[3]) == [x, y, z]
  {
    var v := Sextets(x, y, z);
    assert GroupValues(EncodeGroup(x, y, z)) == v;
    SextetsJoin(x as int, y as int, z as int);
  }

  /** The padded encoding of section 4 of RFC 4648. */
  function Encode(bytes: seq<byte>): string
  {
    if |bytes| >= 3 then EncodeGroup(bytes[0], bytes[1], bytes[2]) + Encode(bytes[3..])
    else if |bytes| == 2 then EncodeGroup(bytes[0], bytes[1], 0)[..3] + "="
    else if |bytes| == 1 then EncodeGroup(bytes[0], 0, 0)[..2] + "=="
    else []
  }

  /** The encoding without its padding. */
  function EncodeUnpadded(bytes: seq<byte>): (r: string)
    ensures AllBase64(r)
  {
    if |bytes| >= 3 then EncodeGroup(bytes[0], bytes[1], bytes[2]) + EncodeUnpadded(bytes[3..])
    else if |bytes| == 2 then EncodeGroup(bytes[0], bytes[1], 0)[..3]
    else if |bytes| == 1 then EncodeGroup(bytes[0], 0, 0)[..2]
    else []
  }

  lemma ModStep(n: nat, m: nat)
    ensures (n + 3) % 3 == n % 3 && (m + 4) % 4 == m % 4
  {
  }

  /** The unpadded encoding leaves 0, 2 or 3 characters after its last
      whole group, as 0, 1 or 2 bytes follow the last whole triple. */
  lemma {:induction false} UnpaddedLength(bytes: seq<byte>)
    ensures |EncodeUnpadded(bytes)| % 4 == (if |bytes| % 3 == 0 then 0 else |bytes| % 3 + 1)
    decreases |bytes|
  {
    if |bytes| >= 3 {
      UnpaddedLength(bytes[3..]);
      var n, m := |bytes[3..]|, |EncodeUnpadded(bytes[3..])|;
      assert EncodeUnpadded(bytes) == EncodeGroup(bytes[0], bytes[1], bytes[2]) + EncodeUnpadded(bytes[3..]);
      assert |bytes| == n + 3 && |EncodeUnpadded(bytes)| == m + 4;
      ModStep(n, m);
    }
  }

  /** The padded encoding is the unpadded one followed by `=` up to a
      multiple of four. */
  lemma {:induction false} EncodeIsPadded(bytes: seq<byte>)
    ensures Encode(bytes) == EncodeUnpadded(bytes) + Padding(|bytes|)
    decreases |bytes|
  {
    if |bytes| >= 3 {
      var g, rest := EncodeGroup(bytes[0], bytes[1], bytes[2]), bytes[3..];
      EncodeIsPadded(rest);
      ModStep(|rest|, 0);
      assert Encode(bytes) == g + Encode(rest);
      assert EncodeUnpadded(bytes) == g + EncodeUnpadded(rest);
      assert Padding(|bytes|) == Padding(|rest|);
    } else {
      assert Padding(|bytes|) == if |bytes| == 2 then "=" else if |bytes| == 1 then "==" else "";
    }
  }

  function Padding(n: nat): string
  {
    if n % 3 == 1 then "==" else if n % 3 == 2 then "=" else ""
  }

  /** Decoding undoes the unpadded encoding group by group. */
  lemma {:induction false} DecodeEncodeUnpadded(bytes: seq<byte>)
    ensures DecodeChars(EncodeUnpadded(bytes)) == bytes
    decreases |bytes|
  {
    if |bytes| >= 3 {
      DecodeEncodeUnpadded(bytes[3..]);
      DecodeStep(bytes);
    } else if |bytes| == 2 {
      DecodeTwoBytes(bytes[0], bytes[1]);
    } else if |bytes| == 1 {
      DecodeOneByte(bytes[0]);
    }
  }

  lemma DecodeStep(bytes: seq<byte>)
    requires |bytes| >= 3 && DecodeChars(EncodeUnpadded(bytes[3..])) == bytes[3..]
    ensures DecodeChars(EncodeUnpadded(bytes)) == bytes
  {
    var g := EncodeGroup(bytes[0], bytes[1], bytes[2]);
    var rest := EncodeUnpadded(bytes[3..]);
    assert EncodeUnpadded(bytes) == g + rest;
    DecodeCharsCons(g, rest);
    GroupRoundTrip(bytes[0], bytes[1], bytes[2]);
    Cons3(bytes);
  }

  lemma Cons3<T>(s: seq<T>)
    requires |s| >= 3
    ensures s == [s[0], s[1], s[2]] + s[3..]
  {
  }

  lemma DecodeCharsCons(g: string, rest: string)
    requires |g| == 4 && AllBase64(g) && AllBase64(rest)
    ensures var v := GroupValues(g);
      DecodeChars(g + rest) == DecodeGroup(v[0], v[1], v[2], v[3]) + DecodeChars(rest)
  {
    var s := g + rest;
    assert s[..4] == g && s[4..] == rest;
  }

  lemma DecodeTwoBytes(x: byte, y: byte)
    ensures DecodeChars(EncodeGroup(x, y, 0)[..3]) == [x, y]
  {
    GroupRoundTrip(x, y, 0);
    assert Sextets(x, y, 0)[3] == 0;
  }

  lemma DecodeOneByte(x: byte)
    ensures DecodeChars(EncodeGroup(x, 0, 0)[..2]) == [x]
  {
    GroupRoundTrip(x, 0, 0);
    assert Sextets(x, 0, 0)[2] == 0 && Sextets(x, 0, 0)[3] == 0;
  }

  /** Round trip: `atob` of the padded encoding of any bytes gives back
      exactly those bytes. */
  lemma AtobEncode(bytes: seq<byte>)
    ensures Atob(Encode(bytes)) == Some(BinaryString(bytes))
  {
    DecodeEncode(bytes);
  }

  lemma DecodeEncode(bytes: seq<byte>)
    ensures DecodeBase64(Encode(bytes)) == Some(bytes)
  {
    var u := EncodeUnpadded(bytes);
    var p := Padding(|bytes|);
    EncodeIsPadded(bytes);
    UnpaddedLength(bytes);
    NoWhitespace(u + p);
    PaddingStripped(u, |bytes|);
    DecodeEncodeUnpadded(bytes);
  }

  /** Step 2 of the forgiving decode removes exactly the padding the encoder
      added. */
  lemma PaddingStripped(u: string, n: nat)
    requires AllBase64(u) && |u| % 4 == (if n % 3 == 0 then 0 else n % 3 + 1)
    ensures StripPadding(u + Padding(n)) == u
  {
    var s := u + Padding(n);
    if n % 3 == 1 {
      assert s[..|s| - 2] == u;
    } else if n % 3 == 2 {
      assert s[..|s| - 1] == u;
      assert s[|s| - 2] == u[|u| - 1];
    } else {
      assert s == u;
      assert u != [] ==> IsBase64Char(u[|u| - 1]);
    }
  }

  /** Text without ASCII whitespace is left alone. */
  lemma {:induction false} NoWhitespace(s: string)
    requires forall i :: 0 <= i < |s| ==> !IsAsciiWhitespace(s[i])
    ensures StripWhitespace(s) == s
    decreases |s|
  {
    if s != [] {
      NoWhitespace(s[1..]);
      assert s == [s[0]] + s[1..];
    }
  }

  /** Whitespace anywhere in the input is ignored. */
  lemma {:induction false} WhitespaceIgnored(a: string, w: char, b: string)
    requires IsAsciiWhitespace(w)
    ensures Atob(a + [w] + b) == Atob(a + b)
  {
    StripWhitespaceAppend(a, [w] + b);
    StripWhitespaceAppend(a, b);
    assert a + [w] + b == a + ([w] + b);
    assert ([w] + b)[1..] == b;
  }

  lemma {:induction false} StripWhitespaceAppend(a: string, b: string)
    ensures StripWhitespace(a + b) == StripWhitespace(a) + StripWhitespace(b)
    decreases |a|
  {
    if a == [] {
      assert a + b == b;
    } else {
      assert (a + b)[1..] == a[1..] + b;
      StripWhitespaceAppend(a[1..], b);
    }
  }

  /** A character outside the alphabet that is neither whitespace nor `=`
      makes the decode fail wherever it stands. */
  lemma ForeignCharRejected(a: string, c: char, b: string)
    requires forall i :: 0 <= i < |a| ==> !IsAsciiWhitespace(a[i])
    requires !IsBase64Char(c) && !IsAsciiWhitespace(c) && c != '='
    ensures DecodeBase64(a + [c] + b).None?
  {
    NoWhitespace(a);
    StripWhitespaceAppend(a, [c] + b);
    assert ([c] + b)[1..] == b;
    assert a + [c] + b == a + ([c] + b);
    var s := StripWhitespace(a + [c] + b);
    assert s == a + [c] + StripWhitespace(b);
    PaddingKeeps(s, |a|);
  }

  /** Removing padding keeps every character that is not `=`. */
  lemma PaddingKeeps(s: string, j: nat)
    requires j < |s| && s[j] != '='
    ensures j < |StripPadding(s)| && StripPadding(s)[j] == s[j]
  {
  }
}
