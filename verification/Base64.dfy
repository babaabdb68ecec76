/**
 The base64 encodings of sections 4 and 5 of RFC 4648, as the source uses them:
 padded, decoding tolerant of line breaks and of non-zero trailing bits.
 A string holds one byte per character.
*/
module Base64 {
  import opened Prelude

  datatype Alphabet = Std | Url

  predicate IsDigit(v: int) { 0 <= v < 64 }

  function Digit(a: Alphabet, v: int): char
    requires IsDigit(v)
  {
    if v < 26 then 'A' + v as char
    else if v < 52 then 'a' + (v - 26) as char
    else if v < 62 then '0' + (v - 52) as char
    else if v == 62 then (if a.Std? then '+' else '-')
    else (if a.Std? then '/' else '_')
  }

  function Value(a: Alphabet, c: char): (r: Option<int>)
    ensures r.Some? ==> IsDigit(r.value)
  {
    if 'A' <= c <= 'Z' then Some(c as int - 'A' as int)
    else if 'a' <= c <= 'z' then Some(c as int - 'a' as int + 26)
    else if '0' <= c <= '9' then Some(c as int - '0' as int + 52)
    else if c == (if a.Std? then '+' else '-') then Some(62)
    else if c == (if a.Std? then '/' else '_') then Some(63)
    else None
  }

  lemma DigitValue(a: Alphabet, v: int)
    requires IsDigit(v)
    ensures Value(a, Digit(a, v)) == Some(v)
    ensures Digit(a, v) !in "=\r\n:@."
  {
  }

  /** The four digits of three bytes. */
  function Quad(a: Alphabet, x: byte, y: byte, z: byte): string {
    [ Digit(a, x as int / 4),
      Digit(a, x as int % 4 * 16 + y as int / 16),
      Digit(a, y as int % 16 * 4 + z as int / 64),
      Digit(a, z as int % 64) ]
  }

  function Encode(a: Alphabet, b: seq<byte>): string {
    if |b| == 0 then ""
    else if |b| == 1 then Quad(a, b[0], 0, 0)[..2] + "=="
    else if |b| == 2 then Quad(a, b[0], b[1], 0)[..3] + "="
    else Quad(a, b[0], b[1], b[2]) + Encode(a, b[3..])
  }

  function StripBreaks(s: string): string {
    if s == "" then ""
    else (if s[0] == '\r' || s[0] == '\n' then "" else [s[0]]) + StripBreaks(s[1..])
  }

  function First(p: int, q: int): byte
    requires IsDigit(p) && IsDigit(q)
  {
    (p * 4 + q / 16) as byte
  }

  function Second(q: int, r: int): byte
    requires IsDigit(q) && IsDigit(r)
  {
    (q % 16 * 16 + r / 4) as byte
  }

  function Third(r: int, t: int): byte
    requires IsDigit(r) && IsDigit(t)
  {
    (r % 4 * 64 + t) as byte
  }

  const CORRUPT: Result<seq<byte>> := Err("illegal base64 data")

  function DecodeQuads(a: Alphabet, s: string): Result<seq<byte>> {
    if s == "" then Ok([])
    else if |s| < 4 then CORRUPT
    else
      var p, q, r, t := Value(a, s[0]), Value(a, s[1]), Value(a, s[2]), Value(a, s[3]);
      if p.None? || q.None? then CORRUPT
      else if s[2] == '=' then
        if s[3] == '=' && |s| == 4 then Ok([First(p.value, q.value)]) else CORRUPT
      else if r.None? then CORRUPT
      else if s[3] == '=' then
        if |s| == 4 then Ok([First(p.value, q.value), Second(q.value, r.value)]) else CORRUPT
      else if t.None? then CORRUPT
      else
        var rest := DecodeQuads(a, s[4..]);
        if rest.Err? then rest
        else Ok([First(p.value, q.value), Second(q.value, r.value), Third(r.value, t.value)] + rest.value)
  }

  function Decode(a: Alphabet, s: string): Result<seq<byte>> {
    DecodeQuads(a, StripBreaks(s))
  }

  /** q is four digits that decode to x, y and z. */
  ghost predicate Spells(a: Alphabet, q: string, x: byte, y: byte, z: byte) {
    && |q| == 4
    && (forall i :: 0 <= i < 4 ==> Value(a, q[i]).Some? && q[i] != '=' && q[i] != '\r' && q[i] != '\n')
    && First(Value(a, q[0]).value, Value(a, q[1]).value) == x
    && Second(Value(a, q[1]).value, Value(a, q[2]).value) == y
    && Third(Value(a, q[2]).value, Value(a, q[3]).value) == z
  }

  lemma QuadSpells(a: Alphabet, x: byte, y: byte, z: byte)
    ensures Spells(a, Quad(a, x, y, z), x, y, z)
  {
    DigitValue(a, x as int / 4);
    DigitValue(a, x as int % 4 * 16 + y as int / 16);
    DigitValue(a, y as int % 16 * 4 + z as int / 64);
    DigitValue(a, z as int % 64);
  }

  lemma SpelledDecodes(a: Alphabet, q: string, x: byte, y: byte, z: byte, s: string)
    requires Spells(a, q, x, y, z)
    ensures DecodeQuads(a, q[..2] + "==") == Ok([x])
    ensures DecodeQuads(a, q[..3] + "=") == Ok([x, y])
    ensures DecodeQuads(a, s).Ok? ==> DecodeQuads(a, q + s) == Ok([x, y, z] + DecodeQuads(a, s).value)
  {
    assert (q + s)[4..] == s;
  }

  /** What Encode puts before the encoding of the bytes after the third. */
  lemma EncodeHead(a: Alphabet, b: seq<byte>) returns (q: string)
    requires b != []
    ensures Spells(a, q, b[0], if |b| > 1 then b[1] else 0, if |b| > 2 then b[2] else 0)
    ensures Encode(a, b) == if |b| == 1 then q[..2] + "==" else if |b| == 2 then q[..3] + "=" else q + Encode(a, b[3..])
  {
    var y: byte := if |b| > 1 then b[1] else 0;
    var z: byte := if |b| > 2 then b[2] else 0;
    q := Quad(a, b[0], y, z);
    QuadSpells(a, b[0], y, z);
  }

  lemma DecodeTail(a: Alphabet, b: seq<byte>)
    requires 0 < |b| <= 2
    ensures DecodeQuads(a, Encode(a, b)) == Ok(b)
  {
    var q := EncodeHead(a, b);
    SpelledDecodes(a, q, b[0], if |b| > 1 then b[1] else 0, 0, "");
    assert b == if |b| == 1 then [b[0]] else [b[0], b[1]];
  }

  lemma {:induction false} DecodeQuadsEncode(a: Alphabet, b: seq<byte>)
    ensures DecodeQuads(a, Encode(a, b)) == Ok(b)
  {
    if 0 < |b| <= 2 {
      DecodeTail(a, b);
    } else if |b| > 2 {
      var q := EncodeHead(a, b);
      DecodeQuadsEncode(a, b[3..]);
      SpelledDecodes(a, q, b[0], b[1], b[2], Encode(a, b[3..]));
      assert b == [b[0], b[1], b[2]] + b[3..];
    }
  }

  lemma HeadLength(a: Alphabet, b: seq<byte>)
    requires b != []
    ensures |Encode(a, b)| == 4 + if |b| > 2 then |Encode(a, b[3..])| else 0
  {
    var q := EncodeHead(a, b);
  }

  /** Four characters for every three bytes begun. */
  lemma {:induction false} EncodeLength(a: Alphabet, b: seq<byte>)
    ensures |Encode(a, b)| == (|b| + 2) / 3 * 4
  {
    if b != [] {
      HeadLength(a, b);
      if |b| > 2 {
        EncodeLength(a, b[3..]);
        assert (|b| + 2) / 3 == (|b[3..]| + 2) / 3 + 1;
      }
    }
  }

  predicate IsEncoded(a: Alphabet, c: char) {
    c == '=' || Value(a, c).Some?
  }

  /** Only digits and padding occur. */
  lemma {:induction false} EncodeChars(a: Alphabet, b: seq<byte>)
    ensures forall c :: c in Encode(a, b) ==> IsEncoded(a, c)
  {
    var n := |b|;
    if n > 0 {
      var q := Quad(a, b[0], if n > 1 then b[1] else 0, if n > 2 then b[2] else 0);
      QuadSpells(a, b[0], if n > 1 then b[1] else 0, if n > 2 then b[2] else 0);
      assert forall c :: c in q ==> IsEncoded(a, c);
      if n > 2 {
        EncodeChars(a, b[3..]);
      }
    }
  }

  lemma EncodeHasNo(a: Alphabet, b: seq<byte>, c: char)
    requires !IsEncoded(a, c)
    ensures c !in Encode(a, b)
  {
    EncodeChars(a, b);
  }

  lemma {:induction false} NothingToStrip(s: string)
    requires '\r' !in s && '\n' !in s
    ensures StripBreaks(s) == s
  {
    if s != "" {
      assert s[0] in s;
      NothingToStrip(s[1..]);
    }
  }

  /** Decoding undoes encoding, for any bytes. */
  lemma DecodeEncode(a: Alphabet, b: seq<byte>)
    ensures Decode(a, Encode(a, b)) == Ok(b)
  {
    EncodeHasNo(a, b, '\r');
    EncodeHasNo(a, b, '\n');
    NothingToStrip(Encode(a, b));
    DecodeQuadsEncode(a, b);
  }

  lemma EncodeInjective(a: Alphabet, b: seq<byte>, c: seq<byte>)
    requires Encode(a, b) == Encode(a, c)
    ensures b == c
  {
    DecodeEncode(a, b);
    DecodeEncode(a, c);
  }

  const UPPER := "ABCDEFGHIJKLMNOPQRSTUVWXYZ"
  const LOWER := "abcdefghijklmnopqrstuvwxyz"
  const STD_DIGITS := UPPER + LOWER + "0123456789+/"
  const URL_DIGITS := UPPER + LOWER + "0123456789-_"

  lemma UpperLetters(v: int)
    requires 0 <= v < 26
    ensures UPPER[v] == 'A' + v as char
  {
    assert UPPER[0] == 'A' && UPPER[1] == 'B' && UPPER[2] == 'C' && UPPER[3] == 'D' && UPPER[4] == 'E' && UPPER[5] == 'F' &&
           UPPER[6] == 'G' && UPPER[7] == 'H' && UPPER[8] == 'I' && UPPER[9] == 'J' && UPPER[10] == 'K' && UPPER[11] == 'L' &&
           UPPER[12] == 'M' && UPPER[13] == 'N' && UPPER[14] == 'O' && UPPER[15] == 'P' && UPPER[16] == 'Q' && UPPER[17] == 'R' &&
           UPPER[18] == 'S' && UPPER[19] == 'T' && UPPER[20] == 'U' && UPPER[21] == 'V' && UPPER[22] == 'W' && UPPER[23] == 'X' &&
           UPPER[24] == 'Y' && UPPER[25] == 'Z';
  }

  lemma LowerLetters(v: int)
    requires 0 <= v < 26
    ensures LOWER[v] == 'a' + v as char
  {
    assert LOWER[0] == 'a' && LOWER[1] == 'b' && LOWER[2] == 'c' && LOWER[3] == 'd' && LOWER[4] == 'e' && LOWER[5] == 'f' &&
           LOWER[6] == 'g' && LOWER[7] == 'h' && LOWER[8] == 'i' && LOWER[9] == 'j' && LOWER[10] == 'k' && LOWER[11] == 'l' &&
           LOWER[12] == 'm' && LOWER[13] == 'n' && LOWER[14] == 'o' && LOWER[15] == 'p' && LOWER[16] == 'q' && LOWER[17] == 'r' &&
           LOWER[18] == 's' && LOWER[19] == 't' && LOWER[20] == 'u' && LOWER[21] == 'v' && LOWER[22] == 'w' && LOWER[23] == 'x' &&
           LOWER[24] == 'y' && LOWER[25] == 'z';
  }

  /** The tables of RFC 4648, sections 4 and 5. */
  lemma DigitsAreTheTable(v: int)
    requires IsDigit(v)
    ensures Digit(Std, v) == STD_DIGITS[v] && Digit(Url, v) == URL_DIGITS[v]
  {
    if v < 26 {
      UpperLetters(v);
    } else if v < 52 {
      LowerLetters(v - 26);
    } else {
      assert v == 52 || v == 53 || v == 54 || v == 55 || v == 56 || v == 57 || v == 58 || v == 59 ||
             v == 60 || v == 61 || v == 62 || v == 63;
    }
  }

  /** The number three bytes make, and the one four digits make. */
  function Number(x: byte, y: byte, z: byte): int {
    x as int * 65536 + y as int * 256 + z as int
  }

  ghost predicate DigitsMake(a: Alphabet, q: string, n: int) {
    && |q| == 4 && (forall i :: 0 <= i < 4 ==> Value(a, q[i]).Some?)
    && n == Value(a, q[0]).value * 262144 + Value(a, q[1]).value * 4096 + Value(a, q[2]).value * 64 + Value(a, q[3]).value
  }

  /** Four digits are the 24 bits of three bytes, from the highest on. */
  lemma QuadIsTheNumber(a: Alphabet, x: byte, y: byte, z: byte)
    ensures DigitsMake(a, Quad(a, x, y, z), Number(x, y, z))
  {
    DigitValue(a, x as int / 4);
    DigitValue(a, x as int % 4 * 16 + y as int / 16);
    DigitValue(a, y as int % 16 * 4 + z as int / 64);
    DigitValue(a, z as int % 64);
  }

  /** Encoded bytes: four digits for each three bytes, and padding for what is missing from the last three. */
  lemma EncodingIsTheNumbers(a: Alphabet, b: seq<byte>) returns (q: string)
    requires b != []
    ensures DigitsMake(a, q, Number(b[0], if |b| > 1 then b[1] else 0, if |b| > 2 then b[2] else 0))
    ensures Encode(a, b) == if |b| == 1 then q[..2] + "==" else if |b| == 2 then q[..3] + "=" else q + Encode(a, b[3..])
  {
    var y: byte := if |b| > 1 then b[1] else 0;
    var z: byte := if |b| > 2 then b[2] else 0;
    q := Quad(a, b[0], y, z);
    QuadIsTheNumber(a, b[0], y, z);
  }
}
