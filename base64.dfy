/**
 Base64 as `java.util.Base64.getEncoder()` produces it: the alphabet of
 section 4 of RFC 4648, three bytes to four characters, and `=` padding for a
 final group of one or two bytes. The decoder is the partner used to state
 what a receiver reads back from an encoded value.
 */
module Base64 {
  import opened Results
  import opened Text

  /** An index into the 64-character alphabet. */
  type Sextet = x: int | 0 <= x < 64

  /** The character for a sextet: `A`..`Z`, `a`..`z`, `0`..`9`, `+`, `/`. */
  function CharOf(i: Sextet): (c: char)
    ensures c != '='
  {
    if i < 26 then ('A' as int + i) as char
    else if i < 52 then ('a' as int + (i - 26)) as char
    else if i < 62 then ('0' as int + (i - 52)) as char
    else if i == 62 then '+'
    else '/'
  }

  /** The sextet a character stands for, or None for a character outside the alphabet. */
  function SextetOf(c: char): Option<Sextet> {
    if 'A' <= c <= 'Z' then Some(c as int - 'A' as int)
    else if 'a' <= c <= 'z' then Some(c as int - 'a' as int + 26)
    else if '0' <= c <= '9' then Some(c as int - '0' as int + 52)
    else if c == '+' then Some(62)
    else if c == '/' then Some(63)
    else None
  }

  lemma SextetOfCharOf(i: Sextet)
    ensures SextetOf(CharOf(i)) == Some(i)
  {
  }

  predicate InAlphabet(c: char) {
    SextetOf(c).Some?
  }

  /** Three bytes as four characters: each byte's bits, most significant first, six at a time. */
  function EncodeGroup(b0: uint8, b1: uint8, b2: uint8): string {
    [CharOf(b0 as int / 4), CharOf(b0 as int % 4 * 16 + b1 as int / 16),
     CharOf(b1 as int % 16 * 4 + b2 as int / 64), CharOf(b2 as int % 64)]
  }

  /** A final group of two bytes: three characters and one `=`. */
  function EncodePair(b0: uint8, b1: uint8): string {
    [CharOf(b0 as int / 4), CharOf(b0 as int % 4 * 16 + b1 as int / 16),
     CharOf(b1 as int % 16 * 4), '=']
  }

  /** A final group of one byte: two characters and `==`. */
  function EncodeSingle(b0: uint8): string {
    [CharOf(b0 as int / 4), CharOf(b0 as int % 4 * 16), '=', '=']
  }

  /** `Base64.getEncoder().encodeToString(bytes)`. */
  function Encode(b: seq<uint8>): (s: string)
    ensures |s| == 4 * ((|b| + 2) / 3)
    ensures b != [] ==> |s| >= 4
  {
    if |b| == 0 then []
    else if |b| == 1 then EncodeSingle(b[0])
    else if |b| == 2 then EncodePair(b[0], b[1])
    else EncodeGroup(b[0], b[1], b[2]) + Encode(b[3..])
  }

  /** The encoding uses only the alphabet, with `=` at most in its last two places. */
  lemma {:induction false} EncodeAlphabet(b: seq<uint8>)
    ensures forall i :: 0 <= i < |Encode(b)| - 2 ==> InAlphabet(Encode(b)[i])
    ensures forall i :: 0 <= i < |Encode(b)| ==> InAlphabet(Encode(b)[i]) || Encode(b)[i] == '='
    decreases |b|
  {
    if |b| > 3 {
      EncodeAlphabet(b[3..]);
      var g, t := EncodeGroup(b[0], b[1], b[2]), Encode(b[3..]);
      assert Encode(b) == g + t;
      forall i | 0 <= i < |g + t| ensures InAlphabet((g + t)[i]) || (i >= |g + t| - 2 && (g + t)[i] == '=') {
        if i >= 4 {
          assert (g + t)[i] == t[i - 4];
        }
      }
    }
  }

  /** Four alphabet characters as three bytes. */
  function DecodeGroup(c0: char, c1: char, c2: char, c3: char): Option<seq<uint8>> {
    match (SextetOf(c0), SextetOf(c1), SextetOf(c2), SextetOf(c3))
    case (Some(x0), Some(x1), Some(x2), Some(x3)) =>
      Some([(x0 as int * 4 + x1 as int / 16) as uint8,
            (x1 as int % 16 * 16 + x2 as int / 4) as uint8,
            (x2 as int % 4 * 64 + x3 as int) as uint8])
    case _ => None
  }

  /**
   The last four characters, which may end in padding. Bits that padding
   leaves over are ignored (section 3.5 of RFC 4648 lets a decoder do so).
   */
  function DecodeFinal(c0: char, c1: char, c2: char, c3: char): Option<seq<uint8>> {
    if c2 == '=' && c3 == '=' then
      match (SextetOf(c0), SextetOf(c1))
      case (Some(x0), Some(x1)) => Some([(x0 as int * 4 + x1 as int / 16) as uint8])
      case _ => None
    else if c3 == '=' then
      match (SextetOf(c0), SextetOf(c1), SextetOf(c2))
      case (Some(x0), Some(x1), Some(x2)) =>
        Some([(x0 as int * 4 + x1 as int / 16) as uint8,
              (x1 as int % 16 * 16 + x2 as int / 4) as uint8])
      case _ => None
    else
      DecodeGroup(c0, c1, c2, c3)
  }

  /**
   Decoding of padded Base64: None for a length that is not a multiple of
   four, a character outside the alphabet, or padding anywhere but at the end.
   */
  function Decode(s: string): (r: Option<seq<uint8>>)
    ensures r.Some? ==> |s| % 4 == 0
    decreases |s|
  {
    if |s| == 0 then Some([])
    else if |s| < 4 then None
    else if |s| == 4 then DecodeFinal(s[0], s[1], s[2], s[3])
    else
      match DecodeGroup(s[0], s[1], s[2], s[3])
      case None => None
      case Some(head) =>
        match Decode(s[4..])
        case None => None
        case Some(tail) => Some(head + tail)
  }

  /** Splitting a byte at bit `k` from the bottom and joining the halves back. */
  lemma Split4(b: uint8)
    ensures b as int / 4 * 4 + b as int % 4 == b as int
  {
  }

  lemma Split16(b: uint8)
    ensures b as int / 16 * 16 + b as int % 16 == b as int
  {
  }

  lemma Split64(b: uint8)
    ensures b as int / 64 * 64 + b as int % 64 == b as int
  {
  }

  /** The low part of a joined sextet survives division and remainder. */
  lemma Join16(hi: int, lo: int)
    requires 0 <= lo < 16
    ensures (hi * 16 + lo) / 16 == hi && (hi * 16 + lo) % 16 == lo
  {
  }

  lemma Join4(hi: int, lo: int)
    requires 0 <= lo < 4
    ensures (hi * 4 + lo) / 4 == hi && (hi * 4 + lo) % 4 == lo
  {
  }

  lemma DecodeEncodeGroup(b0: uint8, b1: uint8, b2: uint8)
    ensures DecodeGroup(EncodeGroup(b0, b1, b2)[0], EncodeGroup(b0, b1, b2)[1],
                        EncodeGroup(b0, b1, b2)[2], EncodeGroup(b0, b1, b2)[3]) == Some([b0, b1, b2])
  {
    var x0, x1, x2, x3 := b0 as int / 4, b0 as int % 4 * 16 + b1 as int / 16,
                          b1 as int % 16 * 4 + b2 as int / 64, b2 as int % 64;
    var g := EncodeGroup(b0, b1, b2);
    SextetOfCharOf(x0);
    SextetOfCharOf(x1);
    SextetOfCharOf(x2);
    SextetOfCharOf(x3);
    assert SextetOf(g[0]) == Some(x0) && SextetOf(g[1]) == Some(x1);
    assert SextetOf(g[2]) == Some(x2) && SextetOf(g[3]) == Some(x3);
    Join16(b0 as int % 4, b1 as int / 16);
    Join4(b1 as int % 16, b2 as int / 64);
    Split4(b0);
    Split16(b1);
    Split64(b2);
    assert x0 * 4 + x1 / 16 == b0 as int;
    assert x1 % 16 * 16 + x2 / 4 == b1 as int;
    assert x2 % 4 * 64 + x3 == b2 as int;
  }

  lemma DecodeEncodePair(b0: uint8, b1: uint8)
    ensures DecodeFinal(EncodePair(b0, b1)[0], EncodePair(b0, b1)[1],
                        EncodePair(b0, b1)[2], EncodePair(b0, b1)[3]) == Some([b0, b1])
  {
    var x0, x1, x2 := b0 as int / 4, b0 as int % 4 * 16 + b1 as int / 16, b1 as int % 16 * 4;
    SextetOfCharOf(x0);
    SextetOfCharOf(x1);
    SextetOfCharOf(x2);
    Join16(b0 as int % 4, b1 as int / 16);
    Join4(b1 as int % 16, 0);
    Split4(b0);
    Split16(b1);
  }

  lemma DecodeEncodeSingle(b0: uint8)
    ensures DecodeFinal(EncodeSingle(b0)[0], EncodeSingle(b0)[1],
                        EncodeSingle(b0)[2], EncodeSingle(b0)[3]) == Some([b0])
  {
  }

  /** The encoding proceeds one full group at a time. */
  lemma EncodeCons(b: seq<uint8>)
    requires |b| > 3
    ensures Encode(b) == EncodeGroup(b[0], b[1], b[2]) + Encode(b[3..])
  {
  }

  /** One more full group in front of an encoding whose text is known. */
  lemma EncodeGroupThen(b0: uint8, b1: uint8, b2: uint8, rest: seq<uint8>, g: string, tail: string)
    requires EncodeGroup(b0, b1, b2) == g && Encode(rest) == tail
    ensures Encode([b0, b1, b2] + rest) == g + tail
  {
  }

  /** The test vectors of section 10 of RFC 4648 up to one full group: "", "f", "fo", "foo". */
  lemma Rfc4648ShortVectors()
    ensures Encode([]) == ""
    ensures Encode([102]) == "Zg=="
    ensures Encode([102, 111]) == "Zm8="
    ensures Encode([102, 111, 111]) == "Zm9v"
  {
    assert Encode([102, 111, 111]) == EncodeGroup(102, 111, 111) + Encode([]);
  }

  /** The test vectors of section 10 of RFC 4648 past one group: "foob", "fooba", "foobar". */
  lemma Rfc4648LongVectors()
    ensures Encode([102, 111, 111, 98]) == "Zm9v" + "Yg=="
    ensures Encode([102, 111, 111, 98, 97]) == "Zm9v" + "YmE="
    ensures Encode([102, 111, 111, 98, 97, 114]) == "Zm9v" + "YmFy"
  {
    assert EncodeGroup(102, 111, 111) == "Zm9v";
    assert Encode([98]) == "Yg==";
    assert Encode([98, 97]) == "YmE=";
    assert Encode([98, 97, 114]) == "YmFy" + Encode([]);
    EncodeGroupThen(102, 111, 111, [98], "Zm9v", "Yg==");
    EncodeGroupThen(102, 111, 111, [98, 97], "Zm9v", "YmE=");
    EncodeGroupThen(102, 111, 111, [98, 97, 114], "Zm9v", "YmFy");
  }

  /** The user-pass `foo:bar` as bytes, and its encoding. */
  lemma FooBarEncoding()
    ensures Encode([102, 111, 111, 58, 98, 97, 114]) == "Zm9v" + ("OmJh" + "cg==")
  {
    assert EncodeGroup(102, 111, 111) == "Zm9v";
    assert EncodeGroup(58, 98, 97) == "OmJh";
    assert Encode([114]) == "cg==";
    EncodeGroupThen(58, 98, 97, [114], "OmJh", "cg==");
    EncodeGroupThen(102, 111, 111, [58, 98, 97] + [114], "Zm9v", "OmJh" + "cg==");
    assert [102, 111, 111] + ([58, 98, 97] + [114]) == [102, 111, 111, 58, 98, 97, 114];
  }

  /** A full group followed by more encoded text decodes group by group. */
  lemma DecodeAppend(g: string, t: string, head: seq<uint8>, tail: seq<uint8>)
    requires |g| == 4 && |t| > 0
    requires DecodeGroup(g[0], g[1], g[2], g[3]) == Some(head)
    requires Decode(t) == Some(tail)
    ensures Decode(g + t) == Some(head + tail)
  {
  }

  /** A final full group decodes as itself: it carries no padding. */
  lemma DecodeLastGroup(b0: uint8, b1: uint8, b2: uint8)
    ensures Decode(EncodeGroup(b0, b1, b2)) == Some([b0, b1, b2])
  {
    DecodeEncodeGroup(b0, b1, b2);
    assert EncodeGroup(b0, b1, b2)[3] != '=';
  }

  lemma DecodeEncodeOne(b: seq<uint8>)
    requires |b| == 1
    ensures Decode(Encode(b)) == Some(b)
  {
    assert b == [b[0]];
    DecodeEncodeSingle(b[0]);
  }

  lemma DecodeEncodeTwo(b: seq<uint8>)
    requires |b| == 2
    ensures Decode(Encode(b)) == Some(b)
  {
    assert b == [b[0], b[1]];
    DecodeEncodePair(b[0], b[1]);
  }

  lemma DecodeEncodeThree(b: seq<uint8>)
    requires |b| == 3
    ensures Decode(Encode(b)) == Some(b)
  {
    assert Encode(b) == EncodeGroup(b[0], b[1], b[2]) + [];
    DecodeLastGroup(b[0], b[1], b[2]);
    assert b == [b[0], b[1], b[2]];
  }

  lemma SplitFirstThree(b: seq<uint8>)
    requires |b| >= 3
    ensures [b[0], b[1], b[2]] + b[3..] == b
  {
  }

  /** One full group in front of bytes whose round trip holds. */
  lemma DecodeEncodeStep(b: seq<uint8>)
    requires |b| > 3
    requires Decode(Encode(b[3..])) == Some(b[3..])
    ensures Decode(Encode(b)) == Some(b)
  {
    var g := EncodeGroup(b[0], b[1], b[2]);
    assert |Encode(b[3..])| >= 4;
    EncodeCons(b);
    DecodeEncodeGroup(b[0], b[1], b[2]);
    DecodeAppend(g, Encode(b[3..]), [b[0], b[1], b[2]], b[3..]);
    SplitFirstThree(b);
  }

  /** Decoding what the encoder produced gives back exactly the bytes encoded. */
  lemma {:induction false} DecodeEncode(b: seq<uint8>)
    ensures Decode(Encode(b)) == Some(b)
    decreases |b|
  {
    if |b| == 1 {
      DecodeEncodeOne(b);
    } else if |b| == 2 {
      DecodeEncodeTwo(b);
    } else if |b| == 3 {
      DecodeEncodeThree(b);
    } else if |b| > 3 {
      DecodeEncode(b[3..]);
      DecodeEncodeStep(b);
    }
  }
}
