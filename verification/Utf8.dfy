/** UTF-8 over Unicode scalar values: the encoder, and the decoder of the Encoding Standard
    (section 8.1.1, "UTF-8 decoder") in replacement mode. */
module Utf8 {

  type Byte = x: int | 0 <= x < 256
  type Continuation = x: int | 0x80 <= x <= 0xBF witness 0x80

  const REPLACEMENT: char := '\U{FFFD}'

  function Encode(c: char): (r: seq<Byte>)
    ensures 1 <= |r| <= 4
    ensures c as int < 0x80 <==> r == [c as int]
  {
    var x := c as int;
    if x < 0x80 then [x]
    else if x < 0x800 then [0xC0 + x / 64, 0x80 + x % 64]
    else if x < 0x10000 then [0xE0 + x / 64 / 64, 0x80 + x / 64 % 64, 0x80 + x % 64]
    else [0xF0 + x / 64 / 64 / 64, 0x80 + x / 64 / 64 % 64, 0x80 + x / 64 % 64, 0x80 + x % 64]
  }

  function EncodeAll(s: string): seq<Byte> {
    if s == "" then [] else Encode(s[0]) + EncodeAll(s[1..])
  }

  function ToChar(codePoint: nat): char {
    if codePoint < 0xD800 || 0xE000 <= codePoint < 0x110000 then codePoint as char else REPLACEMENT
  }

  /** The decoder between two bytes: bytes still needed, bits so far, bounds of the next byte. */
  datatype Pending = Pending(needed: nat, codePoint: nat, lower: Continuation, upper: Continuation)

  const START := Pending(0, 0, 0x80, 0xBF)

  /** The code point so far, after a byte that continues the character. */
  function Extended(p: Pending, b: Continuation): (codePoint: nat) { p.codePoint * 64 + (b - 0x80) }

  function Decode(bs: seq<Byte>, p: Pending := START): string
    decreases |bs|, p.needed
  {
    if bs == [] then if p.needed == 0 then "" else [REPLACEMENT]
    else
      var b, rest := bs[0], bs[1..];
      if p.needed == 0 then
        if b < 0x80 then [b as char] + Decode(rest, START)
        else if 0xC2 <= b <= 0xDF then Decode(rest, Pending(1, b - 0xC0, 0x80, 0xBF))
        else if 0xE0 <= b <= 0xEF then
          Decode(rest, Pending(2, b - 0xE0, if b == 0xE0 then 0xA0 else 0x80, if b == 0xED then 0x9F else 0xBF))
        else if 0xF0 <= b <= 0xF4 then
          Decode(rest, Pending(3, b - 0xF0, if b == 0xF0 then 0x90 else 0x80, if b == 0xF4 then 0x8F else 0xBF))
        else [REPLACEMENT] + Decode(rest, START)
      else if !(p.lower <= b <= p.upper) then [REPLACEMENT] + Decode(bs, START)
      else
        if p.needed == 1 then [ToChar(Extended(p, b))] + Decode(rest, START)
        else Decode(rest, Pending(p.needed - 1, Extended(p, b), 0x80, 0xBF))
  }

  lemma DecodeLast(b: Continuation, rest: seq<Byte>, p: Pending)
    requires p.needed == 1 && p.lower <= b <= p.upper
    ensures Decode([b] + rest, p) == [ToChar(Extended(p, b))] + Decode(rest, START)
  {
    assert ([b] + rest)[0] == b && ([b] + rest)[1..] == rest;
  }

  lemma DecodeMore(b: Continuation, rest: seq<Byte>, p: Pending)
    requires p.needed > 1 && p.lower <= b <= p.upper
    ensures Decode([b] + rest, p) == Decode(rest, Pending(p.needed - 1, Extended(p, b), 0x80, 0xBF))
  {
    assert ([b] + rest)[0] == b && ([b] + rest)[1..] == rest;
  }

  lemma DecodeLead(b: Byte, rest: seq<Byte>)
    ensures 0xC2 <= b <= 0xDF ==> Decode([b] + rest) == Decode(rest, Pending(1, b - 0xC0, 0x80, 0xBF))
    ensures 0xE0 <= b <= 0xEF ==>
              Decode([b] + rest) ==
              Decode(rest, Pending(2, b - 0xE0, if b == 0xE0 then 0xA0 else 0x80, if b == 0xED then 0x9F else 0xBF))
    ensures 0xF0 <= b <= 0xF4 ==>
              Decode([b] + rest) ==
              Decode(rest, Pending(3, b - 0xF0, if b == 0xF0 then 0x90 else 0x80, if b == 0xF4 then 0x8F else 0xBF))
  {
    assert ([b] + rest)[1..] == rest;
  }

  lemma DecodeTwo(b: Byte, c1: Byte, rest: seq<Byte>)
    requires 0xC2 <= b <= 0xDF && 0x80 <= c1 <= 0xBF
    ensures Decode([b, c1] + rest) == [ToChar((b - 0xC0) * 64 + (c1 - 0x80))] + Decode(rest)
  {
    assert [b, c1] + rest == [b] + ([c1] + rest);
    DecodeLead(b, [c1] + rest);
    DecodeLast(c1, rest, Pending(1, b - 0xC0, 0x80, 0xBF));
  }

  lemma DecodeThree(b: Byte, c1: Byte, c2: Byte, rest: seq<Byte>)
    requires 0xE0 <= b <= 0xEF && 0x80 <= c1 <= 0xBF && 0x80 <= c2 <= 0xBF
    requires (b == 0xE0 ==> c1 >= 0xA0) && (b == 0xED ==> c1 <= 0x9F)
    ensures Decode([b, c1, c2] + rest) == [ToChar(((b - 0xE0) * 64 + (c1 - 0x80)) * 64 + (c2 - 0x80))] + Decode(rest)
  {
    assert [b, c1, c2] + rest == [b] + ([c1] + ([c2] + rest));
    DecodeLead(b, [c1] + ([c2] + rest));
    DecodeMore(c1, [c2] + rest,
               Pending(2, b - 0xE0, if b == 0xE0 then 0xA0 else 0x80, if b == 0xED then 0x9F else 0xBF));
    DecodeLast(c2, rest, Pending(1, (b - 0xE0) * 64 + (c1 - 0x80), 0x80, 0xBF));
  }

  lemma DecodeLastTwo(c2: Continuation, c3: Continuation, rest: seq<Byte>, codePoint: nat)
    ensures Decode([c2] + ([c3] + rest), Pending(2, codePoint, 0x80, 0xBF)) ==
            [ToChar((codePoint * 64 + (c2 - 0x80)) * 64 + (c3 - 0x80))] + Decode(rest)
  {
    DecodeMore(c2, [c3] + rest, Pending(2, codePoint, 0x80, 0xBF));
    DecodeLast(c3, rest, Pending(1, codePoint * 64 + (c2 - 0x80), 0x80, 0xBF));
  }

  lemma DecodeFour(b: Byte, c1: Byte, c2: Byte, c3: Byte, rest: seq<Byte>)
    requires 0xF0 <= b <= 0xF4 && 0x80 <= c1 <= 0xBF && 0x80 <= c2 <= 0xBF && 0x80 <= c3 <= 0xBF
    requires (b == 0xF0 ==> c1 >= 0x90) && (b == 0xF4 ==> c1 <= 0x8F)
    ensures Decode([b, c1, c2, c3] + rest) ==
            [ToChar((((b - 0xF0) * 64 + (c1 - 0x80)) * 64 + (c2 - 0x80)) * 64 + (c3 - 0x80))] + Decode(rest)
  {
    assert [b, c1, c2, c3] + rest == [b] + ([c1] + ([c2] + ([c3] + rest)));
    DecodeLead(b, [c1] + ([c2] + ([c3] + rest)));
    DecodeMore(c1, [c2] + ([c3] + rest),
               Pending(3, b - 0xF0, if b == 0xF0 then 0x90 else 0x80, if b == 0xF4 then 0x8F else 0xBF));
    DecodeLastTwo(c2, c3, rest, (b - 0xF0) * 64 + (c1 - 0x80));
  }

  /** The decoder reads back one encoded character, whatever follows it. */
  lemma DecodeEncode(c: char, rest: seq<Byte>)
    ensures Decode(Encode(c) + rest) == [c] + Decode(rest)
  {
    var x := c as int;
    var e := Encode(c);
    if x < 0x80 {
      assert (e + rest)[1..] == rest;
    } else if x < 0x800 {
      DecodeTwo(e[0], e[1], rest);
    } else if x < 0x10000 {
      DecodeThree(e[0], e[1], e[2], rest);
    } else {
      DecodeFour(e[0], e[1], e[2], e[3], rest);
    }
  }

  lemma {:induction false} RoundTrip(s: string)
    ensures Decode(EncodeAll(s)) == s
  {
    if s != "" {
      DecodeEncode(s[0], EncodeAll(s[1..]));
      RoundTrip(s[1..]);
    }
  }
}
