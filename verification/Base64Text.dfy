/** Base64 as the control API writes recordings, against a decoder from section 4 of RFC 4648. */
module Base64Text {
  import opened Types
  import opened Varints

  const UPPER: string := "ABCDEFGHIJKLMNOPQRSTUVWXYZ"
  const LOWER: string := "abcdefghijklmnopqrstuvwxyz"
  const REST: string := "0123456789+/"
  const ALPHABET: string := UPPER + LOWER + REST

  type Six = x: int | 0 <= x < 64

  // -- What the encoder writes ----------------------------------------------

  /** A missing byte of the last chunk counts as zero. */
  function ByteAt(chunk: seq<Byte>, i: nat): Byte {
    if i < |chunk| then chunk[i] else 0
  }

  function Group24(chunk: seq<Byte>): (n: nat)
    ensures n < 0x100_0000
  {
    0x1_0000 * (ByteAt(chunk, 0) as int) + 0x100 * (ByteAt(chunk, 1) as int) + ByteAt(chunk, 2)
  }

  function Digit(n: nat): char {
    assert |ALPHABET| == 64;
    ALPHABET[n % 64]
  }

  /** Four characters for one to three bytes, padded with `=`. */
  function Quad(chunk: seq<Byte>): (q: string)
    requires 0 < |chunk| <= 3
    ensures |q| == 4
  {
    var n := Group24(chunk);
    [Digit(n / 0x4_0000), Digit(n / 0x1000),
     if |chunk| > 1 then Digit(n / 0x40) else '=',
     if |chunk| > 2 then Digit(n) else '=']
  }

  function Chunk(data: seq<Byte>): seq<Byte> {
    if |data| < 3 then data else data[..3]
  }

  function Encoded(data: seq<Byte>): string {
    if data == [] then "" else Quad(Chunk(data)) + Encoded(data[|Chunk(data)|..])
  }

  // -- The decoder of the standard ------------------------------------------

  function ValueOf(c: char): Option<Six> {
    if 'A' <= c <= 'Z' then Some(c as int - 'A' as int)
    else if 'a' <= c <= 'z' then Some(c as int - 'a' as int + 26)
    else if '0' <= c <= '9' then Some(c as int - '0' as int + 52)
    else if c == '+' then Some(62)
    else if c == '/' then Some(63)
    else None
  }

  function OctetsOf(a: Six, b: Six, c: Six, d: Six): (octets: seq<Byte>)
    ensures |octets| == 3
  {
    [4 * a + b / 16, 16 * (b % 16) + c / 4, 64 * (c % 4) + d]
  }

  /** One quantum: padding is accepted only with the unused bits zero. */
  function UnQuad(q: string): Option<seq<Byte>>
    requires |q| == 4
  {
    var a, b, c, d := ValueOf(q[0]), ValueOf(q[1]), ValueOf(q[2]), ValueOf(q[3]);
    if a.None? || b.None? then None
    else if q[2] == '=' && q[3] == '=' then
      if b.value % 16 == 0 then Some(OctetsOf(a.value, b.value, 0, 0)[..1]) else None
    else if c.None? then None
    else if q[3] == '=' then
      if c.value % 4 == 0 then Some(OctetsOf(a.value, b.value, c.value, 0)[..2]) else None
    else if d.None? then None
    else Some(OctetsOf(a.value, b.value, c.value, d.value))
  }

  /** Padding only in the last quantum. */
  function Decoded(text: string): Option<seq<Byte>> {
    if text == "" then Some([])
    else if |text| < 4 then None
    else
      var octets, rest := UnQuad(text[..4]), Decoded(text[4..]);
      if octets.None? || rest.None? || (|octets.value| < 3 && text[4..] != "") then None
      else Some(octets.value + rest.value)
  }

  // -- Why one undoes the other ---------------------------------------------

  lemma UpperIs(i: nat)
    requires i < 26
    ensures |UPPER| == 26 && UPPER[i] as int == 'A' as int + i
  {
    if i < 13 {
      assert UPPER[0] == 'A' && UPPER[1] == 'B' && UPPER[2] == 'C' && UPPER[3] == 'D' && UPPER[4] == 'E'
        && UPPER[5] == 'F' && UPPER[6] == 'G' && UPPER[7] == 'H' && UPPER[8] == 'I' && UPPER[9] == 'J'
        && UPPER[10] == 'K' && UPPER[11] == 'L' && UPPER[12] == 'M';
    } else {
      assert UPPER[13] == 'N' && UPPER[14] == 'O' && UPPER[15] == 'P' && UPPER[16] == 'Q' && UPPER[17] == 'R'
        && UPPER[18] == 'S' && UPPER[19] == 'T' && UPPER[20] == 'U' && UPPER[21] == 'V' && UPPER[22] == 'W'
        && UPPER[23] == 'X' && UPPER[24] == 'Y' && UPPER[25] == 'Z';
    }
  }

  lemma LowerIs(i: nat)
    requires i < 26
    ensures |LOWER| == 26 && LOWER[i] as int == 'a' as int + i
  {
    if i < 13 {
      assert LOWER[0] == 'a' && LOWER[1] == 'b' && LOWER[2] == 'c' && LOWER[3] == 'd' && LOWER[4] == 'e'
        && LOWER[5] == 'f' && LOWER[6] == 'g' && LOWER[7] == 'h' && LOWER[8] == 'i' && LOWER[9] == 'j'
        && LOWER[10] == 'k' && LOWER[11] == 'l' && LOWER[12] == 'm';
    } else {
      assert LOWER[13] == 'n' && LOWER[14] == 'o' && LOWER[15] == 'p' && LOWER[16] == 'q' && LOWER[17] == 'r'
        && LOWER[18] == 's' && LOWER[19] == 't' && LOWER[20] == 'u' && LOWER[21] == 'v' && LOWER[22] == 'w'
        && LOWER[23] == 'x' && LOWER[24] == 'y' && LOWER[25] == 'z';
    }
  }

  lemma RestIs(i: nat)
    requires i < 12
    ensures |REST| == 12 && REST[i] as int == if i < 10 then '0' as int + i else if i == 10 then '+' as int else '/' as int
  {
    assert REST[0] == '0' && REST[1] == '1' && REST[2] == '2' && REST[3] == '3' && REST[4] == '4'
      && REST[5] == '5' && REST[6] == '6' && REST[7] == '7' && REST[8] == '8' && REST[9] == '9'
      && REST[10] == '+' && REST[11] == '/';
  }

  lemma AlphabetIs(i: nat)
    requires i < 64
    ensures ALPHABET[i] as int ==
            if i < 26 then 'A' as int + i else if i < 52 then 'a' as int + i - 26
            else if i < 62 then '0' as int + i - 52 else if i == 62 then '+' as int else '/' as int
  {
    if i < 26 {
      UpperIs(i);
      assert ALPHABET[i] == UPPER[i];
    } else if i < 52 {
      LowerIs(i - 26);
      assert ALPHABET[i] == LOWER[i - 26];
    } else {
      RestIs(i - 52);
      assert ALPHABET[i] == REST[i - 52];
    }
  }

  lemma DigitsDecode(n: nat)
    ensures ValueOf(Digit(n)) == Some(n % 64) && Digit(n) != '='
  {
    AlphabetIs(n % 64);
  }

  lemma SextetsRebuild(chunk: seq<Byte>)
    requires |chunk| <= 3
    ensures var n := Group24(chunk);
            OctetsOf(n / 0x4_0000 % 64, n / 0x1000 % 64, n / 0x40 % 64, n % 64)
              == [ByteAt(chunk, 0), ByteAt(chunk, 1), ByteAt(chunk, 2)]
    ensures |chunk| < 3 ==> Group24(chunk) / 0x40 % 64 % 4 == 0 && Group24(chunk) % 64 == 0
    ensures |chunk| < 2 ==> Group24(chunk) / 0x1000 % 64 % 16 == 0 && Group24(chunk) / 0x40 % 64 == 0
  {
    var b0, b1, b2 := ByteAt(chunk, 0), ByteAt(chunk, 1), ByteAt(chunk, 2);
    Sextets(b0, b1, b2);
    hide Group24;
    assert Group24(chunk) == 0x1_0000 * (b0 as int) + 0x100 * (b1 as int) + b2 by { GroupIs(chunk); }
    Regroup(b0, b1, b2);
  }

  lemma GroupIs(chunk: seq<Byte>)
    ensures Group24(chunk) == 0x1_0000 * (ByteAt(chunk, 0) as int) + 0x100 * (ByteAt(chunk, 1) as int) + ByteAt(chunk, 2)
  {
  }

  lemma Regroup(b0: int, b1: int, b2: int)
    requires 0 <= b0 < 256 && 0 <= b1 < 256 && 0 <= b2 < 256
    ensures 4 * (b0 / 4) + (16 * (b0 % 4) + b1 / 16) / 16 == b0
    ensures 16 * ((16 * (b0 % 4) + b1 / 16) % 16) + (4 * (b1 % 16) + b2 / 64) / 4 == b1
    ensures 64 * ((4 * (b1 % 16) + b2 / 64) % 4) + b2 % 64 == b2
    ensures b2 == 0 ==> (4 * (b1 % 16) + b2 / 64) % 4 == 0
    ensures b1 == 0 ==> (16 * (b0 % 4) + b1 / 16) % 16 == 0
  {
  }

  lemma Sextets(b0: int, b1: int, b2: int)
    requires 0 <= b0 < 256 && 0 <= b1 < 256 && 0 <= b2 < 256
    ensures var n := 0x1_0000 * b0 + 0x100 * b1 + b2;
            && n / 0x4_0000 % 64 == b0 / 4
            && n / 0x1000 % 64 == 16 * (b0 % 4) + b1 / 16
            && n / 0x40 % 64 == 4 * (b1 % 16) + b2 / 64
            && n % 64 == b2 % 64
  {
    var n := 0x1_0000 * b0 + 0x100 * b1 + b2;
    assert n / 0x4_0000 == b0 / 4;
    assert n / 0x1000 == 16 * b0 + b1 / 16;
    assert n / 0x40 == 64 * (16 * b0 + b1 / 16) + 4 * (b1 % 16) + b2 / 64;
  }

  lemma QuadDigits(chunk: seq<Byte>)
    requires 0 < |chunk| <= 3
    ensures var n, q := Group24(chunk), Quad(chunk);
            && ValueOf(q[0]) == Some(n / 0x4_0000 % 64) && ValueOf(q[1]) == Some(n / 0x1000 % 64)
            && q[0] != '=' && q[1] != '='
            && (if |chunk| > 1 then ValueOf(q[2]) == Some(n / 0x40 % 64) && q[2] != '=' else q[2] == '=')
            && (if |chunk| > 2 then ValueOf(q[3]) == Some(n % 64) && q[3] != '=' else q[3] == '=')
  {
    hide Digit;
    hide ValueOf;
    hide Group24;
    var n := Group24(chunk);
    DigitsDecode(n / 0x4_0000);
    DigitsDecode(n / 0x1000);
    DigitsDecode(n / 0x40);
    DigitsDecode(n);
  }

  lemma QuadRoundTrip(chunk: seq<Byte>)
    requires 0 < |chunk| <= 3
    ensures UnQuad(Quad(chunk)) == Some(chunk)
  {
    var n := Group24(chunk);
    QuadDigits(chunk);
    SextetsRebuild(chunk);
    hide Group24;
    QuantumReads(Quad(chunk), |chunk|, n / 0x4_0000 % 64, n / 0x1000 % 64, n / 0x40 % 64, n % 64);
    hide Quad;
    hide UnQuad;
    assert [ByteAt(chunk, 0), ByteAt(chunk, 1), ByteAt(chunk, 2)][..|chunk|] == chunk;
  }

  lemma QuantumReads(q: string, len: nat, a: Six, b: Six, c: Six, d: Six)
    requires |q| == 4 && 0 < len <= 3 && ValueOf(q[0]) == Some(a) && ValueOf(q[1]) == Some(b)
    requires if len > 1 then ValueOf(q[2]) == Some(c) && q[2] != '=' else q[2] == '=' && b % 16 == 0 && c == 0
    requires if len > 2 then ValueOf(q[3]) == Some(d) && q[3] != '=' else q[3] == '=' && c % 4 == 0 && d == 0
    ensures UnQuad(q) == Some(OctetsOf(a, b, c, d)[..len])
  {
    hide ValueOf;
    hide OctetsOf;
    var octets := OctetsOf(a, b, c, d);
    assert octets[..3] == octets;
  }

  /** Four characters for every three bytes or part of three. */
  lemma {:induction false} TextLength(data: seq<Byte>)
    ensures |Encoded(data)| == 4 * ((|data| + 2) / 3)
  {
    hide Quad;
    if data != [] {
      TextLength(data[|Chunk(data)|..]);
    }
  }

  /** For every byte string, the standard's decoder gives back exactly what was encoded. */
  lemma {:induction false} TextRoundTrip(data: seq<Byte>)
    ensures Decoded(Encoded(data)) == Some(data)
  {
    hide Quad;
    hide UnQuad;
    if data != [] {
      var chunk, rest := Chunk(data), data[|Chunk(data)|..];
      QuadRoundTrip(chunk);
      TextRoundTrip(rest);
      var text := Encoded(data);
      assert text[..4] == Quad(chunk) && text[4..] == Encoded(rest);
      assert chunk + rest == data;
    }
  }

  /** Padding says how many bytes the last chunk is short, and appears nowhere else. */
  lemma {:induction false} PaddingSaysTheRest(data: seq<Byte>, i: nat)
    requires i < |Encoded(data)|
    ensures Encoded(data)[i] == '=' <==> i >= |Encoded(data)| - (if |data| % 3 == 0 then 0 else 3 - |data| % 3)
    decreases |data|
  {
    hide Quad;
    hide ValueOf;
    var chunk, rest := Chunk(data), data[|Chunk(data)|..];
    TextLength(rest);
    QuadDigits(chunk);
    hide Group24;
    assert Encoded(data) == Quad(chunk) + Encoded(rest);
    if i < 4 {
      assert Encoded(data)[i] == Quad(chunk)[i];
      assert i == 0 || i == 1 || i == 2 || i == 3;
    } else {
      PaddingSaysTheRest(rest, i - 4);
      ShortLength(|data|);
    }
  }

  lemma ShortLength(n: nat)
    ensures n >= 3 ==> n % 3 == (n - 3) % 3
  {
  }

  // -- The code -------------------------------------------------------------

  lemma NothingEncoded()
    ensures Encoded([]) == ""
  {
  }

  lemma EncodedMore(data: seq<Byte>)
    requires data != []
    ensures Encoded(data) == Quad(Chunk(data)) + Encoded(data[|Chunk(data)|..])
  {
  }

  method B64(data: seq<Byte>) returns (out: string)
    ensures out == Encoded(data)
  {
    hide Quad;
    hide Encoded;
    out := "";
    NothingEncoded();
    assert data[0..] == data && "" + Encoded(data) == Encoded(data);
    var at := 0;
    while at < |data|
      invariant at <= |data| && Encoded(data) == out + Encoded(data[at..])
    {
      var chunk := if |data| - at < 3 then data[at..] else data[at..at + 3];
      assert chunk == Chunk(data[at..]);
      assert data[at..][|chunk|..] == data[at + |chunk|..];
      EncodedMore(data[at..]);
      var quad := EncodeChunk(chunk);
      assert out + (quad + Encoded(data[at + |chunk|..])) == out + quad + Encoded(data[at + |chunk|..]);
      out := out + quad;
      at := at + |chunk|;
    }
    assert data[|data|..] == [] && out + "" == out;
  }

  method EncodeChunk(chunk: seq<Byte>) returns (out: string)
    requires 0 < |chunk| <= 3
    ensures out == Quad(chunk)
  {
    hide Digit;
    var b0: int := chunk[0];
    var b1: int := if |chunk| > 1 then chunk[1] else 0;
    var b2: int := if |chunk| > 2 then chunk[2] else 0;
    var n := 0x1_0000 * b0 + 0x100 * b1 + b2;
    out := [Digit(n / 0x4_0000)];
    out := out + [Digit(n / 0x1000)];
    out := out + [if |chunk| > 1 then Digit(n / 0x40) else '='];
    out := out + [if |chunk| > 2 then Digit(n) else '='];
  }
}
