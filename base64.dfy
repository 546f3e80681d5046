/** Base64 with the standard alphabet and padding of section 4 of RFC 4648,
    as the `STANDARD` engine of the `base64` crate applies it: encoding always
    pads to a multiple of four characters, and decoding accepts only the
    canonical form (length a multiple of four, padding only where it belongs,
    and zero bits in the unused low bits of the last character). */
module Base64 {
  import opened Net
  import opened Wrappers

  /** The value of one base64 character. */
  type Sextet = x: int | 0 <= x < 64

  /** The character of the standard alphabet that encodes `v`. */
  function CharOf(v: Sextet): (c: char)
    ensures c != '='
  {
    if v < 26 then ('A' as int + v) as char
    else if v < 52 then ('a' as int + (v - 26)) as char
    else if v < 62 then ('0' as int + (v - 52)) as char
    else if v == 62 then '+'
    else '/'
  }

  /** The value of an alphabet character, `None` for any other character
      (including the padding character). */
  function ValueOf(c: char): Option<Sextet>
  {
    if 'A' <= c <= 'Z' then Some(c as int - 'A' as int)
    else if 'a' <= c <= 'z' then Some(c as int - 'a' as int + 26)
    else if '0' <= c <= '9' then Some(c as int - '0' as int + 52)
    else if c == '+' then Some(62)
    else if c == '/' then Some(63)
    else None
  }

  /** The alphabet is a bijection between the 64 values and 64 characters. */
  lemma AlphabetBijection(v: Sextet, c: char)
    ensures ValueOf(CharOf(v)) == Some(v)
    ensures ValueOf(c).Some? ==> CharOf(ValueOf(c).value) == c
    ensures ValueOf('=') == None
  {
  }

  // The four sextets of three bytes b0 b1 b2 (high bits first).
  function Split0(b0: byte): Sextet { b0 / 4 }
  function Split1(b0: byte, b1: byte): Sextet { (b0 % 4) * 16 + b1 / 16 }
  function Split2(b1: byte, b2: byte): Sextet { (b1 % 16) * 4 + b2 / 64 }
  function Split3(b2: byte): Sextet { b2 % 64 }

  // The three bytes of four sextets v0 v1 v2 v3.
  function Join0(v0: Sextet, v1: Sextet): byte { (v0 as int) * 4 + (v1 as int) / 16 }
  function Join1(v1: Sextet, v2: Sextet): byte { ((v1 as int) % 16) * 16 + (v2 as int) / 4 }
  function Join2(v2: Sextet, v3: Sextet): byte { ((v2 as int) % 4) * 64 + v3 as int }

  lemma JoinSplit(b0: byte, b1: byte, b2: byte)
    ensures Join0(Split0(b0), Split1(b0, b1)) == b0
    ensures Join1(Split1(b0, b1), Split2(b1, b2)) == b1
    ensures Join2(Split2(b1, b2), Split3(b2)) == b2
  {
    assert Split1(b0, b1) / 16 == b0 % 4;
    assert Split1(b0, b1) % 16 == b1 / 16;
    assert Split2(b1, b2) / 4 == b1 % 16;
    assert Split2(b1, b2) % 4 == b2 / 64;
  }

  lemma SplitJoin(v0: Sextet, v1: Sextet, v2: Sextet, v3: Sextet)
    ensures Split0(Join0(v0, v1)) == v0
    ensures Split1(Join0(v0, v1), Join1(v1, v2)) == v1
    ensures Split2(Join1(v1, v2), Join2(v2, v3)) == v2
    ensures Split3(Join2(v2, v3)) == v3
  {
    assert Join0(v0, v1) % 4 == v1 / 16;
    assert Join1(v1, v2) / 16 == v1 % 16;
    assert Join1(v1, v2) % 16 == v2 / 4;
    assert Join2(v2, v3) / 64 == v2 % 4;
  }

  /** Three bytes as four characters. */
  function EncodeBlock(b0: byte, b1: byte, b2: byte): string
  {
    [CharOf(Split0(b0)), CharOf(Split1(b0, b1)), CharOf(Split2(b1, b2)), CharOf(Split3(b2))]
  }

  /** A final pair of bytes: three characters and one padding character. */
  function EncodeTail2(b0: byte, b1: byte): string
  {
    [CharOf(Split0(b0)), CharOf(Split1(b0, b1)), CharOf(Split2(b1, 0)), '=']
  }

  /** A final single byte: two characters and two padding characters. */
  function EncodeTail1(b0: byte): string
  {
    [CharOf(Split0(b0)), CharOf(Split1(b0, 0)), '=', '=']
  }

  /** `STANDARD.encode`. */
  function Encode(bytes: seq<byte>): (s: string)
    ensures |s| == 4 * ((|bytes| + 2) / 3)
    decreases |bytes|
  {
    if |bytes| == 0 then []
    else if |bytes| == 1 then EncodeTail1(bytes[0])
    else if |bytes| == 2 then EncodeTail2(bytes[0], bytes[1])
    else
      assert (|bytes| + 2) / 3 == (|bytes[3..]| + 2) / 3 + 1;
      EncodeBlock(bytes[0], bytes[1], bytes[2]) + Encode(bytes[3..])
  }

  /** Four alphabet characters as three bytes. */
  function DecodeBlock(s: string): Option<seq<byte>>
    requires |s| == 4
  {
    match (ValueOf(s[0]), ValueOf(s[1]), ValueOf(s[2]), ValueOf(s[3]))
    case (Some(v0), Some(v1), Some(v2), Some(v3)) =>
      Some([Join0(v0, v1), Join1(v1, v2), Join2(v2, v3)])
    case _ => None
  }

  /** Two characters followed by two padding characters: one byte, and the
      four low bits of the second character must be zero. */
  function DecodeTail1(c0: char, c1: char): Option<seq<byte>>
  {
    if ValueOf(c0).Some? && ValueOf(c1).Some? && ValueOf(c1).value % 16 == 0 then
      Some([Join0(ValueOf(c0).value, ValueOf(c1).value)])
    else None
  }

  /** Three characters followed by one padding character: two bytes, and the
      two low bits of the third character must be zero. */
  function DecodeTail2(c0: char, c1: char, c2: char): Option<seq<byte>>
  {
    if ValueOf(c0).Some? && ValueOf(c1).Some? && ValueOf(c2).Some? && ValueOf(c2).value % 4 == 0 then
      Some([Join0(ValueOf(c0).value, ValueOf(c1).value), Join1(ValueOf(c1).value, ValueOf(c2).value)])
    else None
  }

  /** The last four characters, which may end in one or two padding
      characters. */
  function DecodeLast(s: string): Option<seq<byte>>
    requires |s| == 4
  {
    if s[2] == '=' && s[3] == '=' then DecodeTail1(s[0], s[1])
    else if s[3] == '=' then DecodeTail2(s[0], s[1], s[2])
    else DecodeBlock(s)
  }

  /** `STANDARD.decode`: `None` is the decode error. */
  function Decode(s: string): Option<seq<byte>>
    decreases |s|
  {
    if |s| == 0 then Some([])
    else if |s| < 4 then None
    else if |s| == 4 then DecodeLast(s)
    else
      match (DecodeBlock(s[..4]), Decode(s[4..]))
      case (Some(head), Some(tail)) => Some(head + tail)
      case _ => None
  }

  lemma DecodeBlockChars(v0: Sextet, v1: Sextet, v2: Sextet, v3: Sextet)
    ensures DecodeBlock([CharOf(v0), CharOf(v1), CharOf(v2), CharOf(v3)])
         == Some([Join0(v0, v1), Join1(v1, v2), Join2(v2, v3)])
  {
    AlphabetBijection(v0, '=');
    AlphabetBijection(v1, '=');
    AlphabetBijection(v2, '=');
    AlphabetBijection(v3, '=');
  }

  lemma DecodeTail1Chars(v0: Sextet, v1: Sextet)
    requires v1 % 16 == 0
    ensures DecodeTail1(CharOf(v0), CharOf(v1)) == Some([Join0(v0, v1)])
  {
    AlphabetBijection(v0, '=');
    AlphabetBijection(v1, '=');
  }

  lemma DecodeTail2Chars(v0: Sextet, v1: Sextet, v2: Sextet)
    requires v2 % 4 == 0
    ensures DecodeTail2(CharOf(v0), CharOf(v1), CharOf(v2)) == Some([Join0(v0, v1), Join1(v1, v2)])
  {
    AlphabetBijection(v0, '=');
    AlphabetBijection(v1, '=');
    AlphabetBijection(v2, '=');
  }

  lemma PaddedBitsAreZero(b0: byte, b1: byte)
    ensures Split1(b0, 0) % 16 == 0
    ensures Split2(b1, 0) % 4 == 0
  {
  }

  lemma BlockDecodes(b0: byte, b1: byte, b2: byte)
    ensures DecodeBlock(EncodeBlock(b0, b1, b2)) == Some([b0, b1, b2])
  {
    DecodeBlockChars(Split0(b0), Split1(b0, b1), Split2(b1, b2), Split3(b2));
    JoinSplit(b0, b1, b2);
  }

  lemma BlockRoundTrip(b0: byte, b1: byte, b2: byte)
    ensures DecodeLast(EncodeBlock(b0, b1, b2)) == Some([b0, b1, b2])
  {
    BlockDecodes(b0, b1, b2);
  }

  lemma Tail2RoundTrip(b0: byte, b1: byte)
    ensures DecodeLast(EncodeTail2(b0, b1)) == Some([b0, b1])
  {
    PaddedBitsAreZero(b0, b1);
    DecodeTail2Chars(Split0(b0), Split1(b0, b1), Split2(b1, 0));
    JoinSplit(b0, b1, 0);
  }

  lemma Tail1Decodes(b0: byte)
    ensures DecodeTail1(CharOf(Split0(b0)), CharOf(Split1(b0, 0))) == Some([b0])
  {
    PaddedBitsAreZero(b0, 0);
    DecodeTail1Chars(Split0(b0), Split1(b0, 0));
    JoinSplit(b0, 0, 0);
  }

  lemma Tail1RoundTrip(b0: byte)
    ensures DecodeLast(EncodeTail1(b0)) == Some([b0])
  {
    assert DecodeLast(EncodeTail1(b0)) == DecodeTail1(CharOf(Split0(b0)), CharOf(Split1(b0, 0)));
    Tail1Decodes(b0);
  }

  /** Decoding an encoding gives back the bytes. */
  lemma {:induction false} DecodeEncode(bytes: seq<byte>)
    ensures Decode(Encode(bytes)) == Some(bytes)
    decreases |bytes|
  {
    if |bytes| == 1 {
      Tail1RoundTrip(bytes[0]);
      assert bytes == [bytes[0]];
    } else if |bytes| == 2 {
      Tail2RoundTrip(bytes[0], bytes[1]);
      assert bytes == [bytes[0], bytes[1]];
    } else if |bytes| == 3 {
      BlockRoundTrip(bytes[0], bytes[1], bytes[2]);
      assert Encode(bytes) == EncodeBlock(bytes[0], bytes[1], bytes[2]) + [];
      assert bytes == [bytes[0], bytes[1], bytes[2]];
    } else if |bytes| > 3 {
      DecodeEncode(bytes[3..]);
      DecodeEncodeStep(bytes);
    }
  }

  lemma DecodeConcat(block: string, rest: string, head: seq<byte>, tail: seq<byte>)
    requires |block| == 4 && |rest| >= 4
    requires DecodeBlock(block) == Some(head) && Decode(rest) == Some(tail)
    ensures Decode(block + rest) == Some(head + tail)
  {
    var s := block + rest;
    assert s[..4] == block;
    assert s[4..] == rest;
  }

  lemma DecodeEncodeStep(bytes: seq<byte>)
    requires |bytes| > 3 && Decode(Encode(bytes[3..])) == Some(bytes[3..])
    ensures Decode(Encode(bytes)) == Some(bytes)
  {
    var rest := Encode(bytes[3..]);
    var n := |bytes[3..]|;
    assert (n + 2) / 3 >= 1;
    BlockDecodes(bytes[0], bytes[1], bytes[2]);
    DecodeConcat(EncodeBlock(bytes[0], bytes[1], bytes[2]), rest, [bytes[0], bytes[1], bytes[2]], bytes[3..]);
    SplitOffThree(bytes);
  }

  lemma SplitOffThree(bytes: seq<byte>)
    requires |bytes| >= 3
    ensures [bytes[0], bytes[1], bytes[2]] + bytes[3..] == bytes
  {
  }

  /** A string of alphabet characters is the characters of its values. */
  lemma CharsOfValues(s: string)
    requires forall i :: 0 <= i < |s| ==> ValueOf(s[i]).Some?
    ensures forall i :: 0 <= i < |s| ==> CharOf(ValueOf(s[i]).value) == s[i]
  {
    forall i | 0 <= i < |s| ensures CharOf(ValueOf(s[i]).value) == s[i] {
      AlphabetBijection(0, s[i]);
    }
  }

  lemma DecodeBlockCanonical(s: string)
    requires |s| == 4 && DecodeBlock(s).Some?
    ensures var b := DecodeBlock(s).value; |b| == 3 && EncodeBlock(b[0], b[1], b[2]) == s
  {
    var v0, v1, v2, v3 := ValueOf(s[0]).value, ValueOf(s[1]).value, ValueOf(s[2]).value, ValueOf(s[3]).value;
    assert DecodeBlock(s).value == [Join0(v0, v1), Join1(v1, v2), Join2(v2, v3)];
    CharsOfValues(s);
    SplitJoin(v0, v1, v2, v3);
    var e := EncodeBlock(Join0(v0, v1), Join1(v1, v2), Join2(v2, v3));
    assert e[0] == s[0] && e[1] == s[1] && e[2] == s[2] && e[3] == s[3];
  }

  lemma Tail1Canonical(v0: Sextet, v1: Sextet)
    requires v1 % 16 == 0
    ensures Split0(Join0(v0, v1)) == v0 && Split1(Join0(v0, v1), 0) == v1
  {
    SplitJoin(v0, v1, 0, 0);
    assert Join1(v1, 0) == 0;
  }

  lemma DecodeTail1Canonical(s: string)
    requires |s| == 4 && s[2] == '=' && s[3] == '=' && DecodeLast(s).Some?
    ensures Encode(DecodeLast(s).value) == s
  {
    var v0, v1 := ValueOf(s[0]).value, ValueOf(s[1]).value;
    assert DecodeLast(s).value == [Join0(v0, v1)];
    CharsOfValues(s[..2]);
    Tail1Canonical(v0, v1);
  }

  lemma DecodeTail2Canonical(s: string)
    requires |s| == 4 && s[2] != '=' && s[3] == '=' && DecodeLast(s).Some?
    ensures Encode(DecodeLast(s).value) == s
  {
    var v0, v1, v2 := ValueOf(s[0]).value, ValueOf(s[1]).value, ValueOf(s[2]).value;
    CharsOfValues(s[..3]);
    var b0, b1 := Join0(v0, v1), Join1(v1, v2);
    SplitJoin(v0, v1, v2, 0);
    assert Join2(v2, 0) == 0 by { assert v2 % 4 == 0; }
    assert EncodeTail2(b0, b1) == s;
  }

  lemma DecodeLastCanonical(s: string)
    requires |s| == 4 && DecodeLast(s).Some?
    ensures Encode(DecodeLast(s).value) == s
  {
    if s[2] == '=' && s[3] == '=' {
      DecodeTail1Canonical(s);
    } else if s[3] == '=' {
      DecodeTail2Canonical(s);
    } else {
      var b := DecodeLast(s).value;
      DecodeBlockCanonical(s);
      assert Encode(b) == EncodeBlock(b[0], b[1], b[2]) + [];
    }
  }

  /** Decoding accepts only canonical encodings: whatever decodes is the
      encoding of what it decodes to. Together with `DecodeEncode` this makes
      `Encode` and `Decode` inverse bijections between byte strings and the
      canonical base64 strings. */
  lemma {:induction false} EncodeDecode(s: string)
    requires Decode(s).Some?
    ensures Encode(Decode(s).value) == s
    decreases |s|
  {
    if |s| == 4 {
      DecodeLastCanonical(s);
    } else if |s| > 4 {
      var head := DecodeBlock(s[..4]).value;
      var tail := Decode(s[4..]).value;
      DecodeBlockCanonical(s[..4]);
      EncodeDecode(s[4..]);
      assert |tail| > 0;
      assert (head + tail)[3..] == tail;
      assert s == s[..4] + s[4..];
    }
  }
}
