/** application/x-www-form-urlencoded text: the parser and the serializer of section 5 of the
    WHATWG URL Standard, and the serializer of Python's `urlencode`, which keeps other bytes. */
module FormCodec {
  import opened Sequences
  import opened Utf8

  type Pair = (string, string)

  /** Which bytes a serializer writes as they are. */
  datatype Style = Browser | Python

  predicate Alphanumeric(b: Byte) {
    ('0' as int <= b <= '9' as int) || ('A' as int <= b <= 'Z' as int) || ('a' as int <= b <= 'z' as int)
  }

  predicate Kept(style: Style, b: Byte) {
    Alphanumeric(b) || b == '-' as int || b == '.' as int || b == '_' as int
    || b == (match style case Browser => '*' as int case Python => '~' as int)
  }

  function HexDigit(n: nat): (c: char)
    requires n < 16
    ensures '0' <= c <= '9' || 'A' <= c <= 'F'
  {
    if n < 10 then ('0' as int + n) as char else ('A' as int + n - 10) as char
  }

  function EncodeByte(style: Style, b: Byte): string {
    if b == 0x20 then "+"
    else if Kept(style, b) then [b as char]
    else ['%', HexDigit(b / 16), HexDigit(b % 16)]
  }

  function EncodeBytes(style: Style, bs: seq<Byte>): string {
    if bs == [] then "" else EncodeByte(style, bs[0]) + EncodeBytes(style, bs[1..])
  }

  function EncodeText(style: Style, s: string): string {
    EncodeBytes(style, EncodeAll(s))
  }

  function SerializePair(style: Style, p: Pair): string {
    EncodeText(style, p.0) + "=" + EncodeText(style, p.1)
  }

  function Serialize(style: Style, pairs: seq<Pair>): string {
    if pairs == [] then ""
    else if |pairs| == 1 then SerializePair(style, pairs[0])
    else SerializePair(style, pairs[0]) + "&" + Serialize(style, pairs[1..])
  }

  // ------------------------------------------------------------------ parsing

  predicate IsHex(b: Byte) {
    ('0' as int <= b <= '9' as int) || ('A' as int <= b <= 'F' as int) || ('a' as int <= b <= 'f' as int)
  }

  function HexValue(b: Byte): (n: nat)
    requires IsHex(b)
    ensures n < 16
  {
    if b <= '9' as int then b - '0' as int
    else if b <= 'F' as int then b - 'A' as int + 10
    else b - 'a' as int + 10
  }

  /** Plus signs become spaces and percent escapes the byte they name; a percent sign that starts
      no escape stays. */
  function Unescape(bs: seq<Byte>): seq<Byte> {
    if bs == [] then []
    else if bs[0] == '+' as int then [0x20] + Unescape(bs[1..])
    else if bs[0] == '%' as int && |bs| >= 3 && IsHex(bs[1]) && IsHex(bs[2]) then
      [HexValue(bs[1]) * 16 + HexValue(bs[2])] + Unescape(bs[3..])
    else [bs[0]] + Unescape(bs[1..])
  }

  function DecodeText(s: string): string {
    Decode(Unescape(EncodeAll(s)))
  }

  function ParsePair(piece: string): Pair {
    var k := Find(piece, '=');
    if k == |piece| then (DecodeText(piece), "") else (DecodeText(piece[..k]), DecodeText(piece[k + 1..]))
  }

  function Parse(s: string): seq<Pair>
    decreases |s|
  {
    if s == "" then []
    else
      var k := Find(s, '&');
      var rest := if k == |s| then [] else Parse(s[k + 1..]);
      if k == 0 then rest else [ParsePair(s[..k])] + rest
  }

  // --------------------------------------------------------------- round trip

  /** What a serialized name or value is made of. */
  predicate Plain(c: char) {
    c as int < 0x80 && (Alphanumeric(c as int) || c in "*-._~+%")
  }

  predicate AllPlain(s: string) { forall k :: 0 <= k < |s| ==> Plain(s[k]) }

  lemma {:induction false} EncodedIsPlain(style: Style, bs: seq<Byte>)
    ensures AllPlain(EncodeBytes(style, bs))
  {
    if bs != [] { EncodedIsPlain(style, bs[1..]); }
  }

  lemma {:induction false} EncodeAllConcat(s: string, t: string)
    ensures EncodeAll(s + t) == EncodeAll(s) + EncodeAll(t)
  {
    if s == "" {
      assert s + t == t;
    } else {
      assert (s + t)[0] == s[0] && (s + t)[1..] == s[1..] + t;
      EncodeAllConcat(s[1..], t);
    }
  }

  lemma EncodeAscii(c: char)
    requires c as int < 0x80
    ensures EncodeAll([c]) == [c as int]
  {
    assert EncodeAll([c][1..]) == [];
  }

  lemma EncodeByteAscii(style: Style, b: Byte)
    ensures EncodeAll(EncodeByte(style, b)) ==
            if b == 0x20 then ['+' as int]
            else if Kept(style, b) then [b]
            else ['%' as int, HexDigit(b / 16) as int, HexDigit(b % 16) as int]
  {
    if b == 0x20 {
      EncodeAscii('+');
    } else if Kept(style, b) {
      EncodeAscii(b as char);
    } else {
      var h, l := HexDigit(b / 16), HexDigit(b % 16);
      assert ['%', h, l] == ['%'] + ([h] + [l]);
      EncodeAllConcat(['%'], [h] + [l]);
      EncodeAllConcat([h], [l]);
      EncodeAscii('%');
      EncodeAscii(h);
      EncodeAscii(l);
    }
  }

  lemma UnescapeByte(style: Style, b: Byte, rest: seq<Byte>)
    ensures Unescape(EncodeAll(EncodeByte(style, b)) + rest) == [b] + Unescape(rest)
  {
    EncodeByteAscii(style, b);
    var e := EncodeAll(EncodeByte(style, b));
    if b == 0x20 || Kept(style, b) {
      assert (e + rest)[1..] == rest;
    } else {
      assert (e + rest)[3..] == rest;
      var h, l := HexDigit(b / 16) as int, HexDigit(b % 16) as int;
      assert IsHex(h) && IsHex(l) && HexValue(h) == b / 16 && HexValue(l) == b % 16;
      assert b / 16 * 16 + b % 16 == b;
    }
  }

  lemma {:induction false} UnescapeBytes(style: Style, bs: seq<Byte>)
    ensures Unescape(EncodeAll(EncodeBytes(style, bs))) == bs
  {
    if bs != [] {
      EncodeAllConcat(EncodeByte(style, bs[0]), EncodeBytes(style, bs[1..]));
      UnescapeByte(style, bs[0], EncodeAll(EncodeBytes(style, bs[1..])));
      UnescapeBytes(style, bs[1..]);
    }
  }

  lemma TextRoundTrip(style: Style, s: string)
    ensures DecodeText(EncodeText(style, s)) == s
    ensures AllPlain(EncodeText(style, s))
  {
    UnescapeBytes(style, EncodeAll(s));
    RoundTrip(s);
    EncodedIsPlain(style, EncodeAll(s));
  }

  lemma FindAfter(a: string, c: char, b: string)
    requires c !in a
    ensures Find(a + [c] + b, c) == |a|
  {
    var s := a + [c] + b;
    var k := Find(s, c);
    assert s[|a|] == c;
    assert forall j :: 0 <= j < k ==> s[..k][j] != c;
    assert forall j :: 0 <= j < k ==> s[j] != c;
  }

  lemma ParseJoinedPair(name: string, value: string)
    requires '=' !in name
    ensures ParsePair(name + ['='] + value) == (DecodeText(name), DecodeText(value))
  {
    var piece := name + ['='] + value;
    FindAfter(name, '=', value);
    assert piece[..|name|] == name && piece[|name| + 1..] == value;
  }

  lemma PlainHasNoSeparator(s: string)
    requires AllPlain(s)
    ensures '=' !in s && '&' !in s
  {
  }

  lemma PairRoundTrip(style: Style, p: Pair)
    ensures ParsePair(SerializePair(style, p)) == p
    ensures SerializePair(style, p) != "" && '&' !in SerializePair(style, p)
  {
    var name, value := EncodeText(style, p.0), EncodeText(style, p.1);
    TextRoundTrip(style, p.0);
    TextRoundTrip(style, p.1);
    PlainHasNoSeparator(name);
    PlainHasNoSeparator(value);
    ParseJoinedPair(name, value);
    assert SerializePair(style, p) == name + ['='] + value;
  }

  lemma FindAbsent(s: string, c: char)
    requires c !in s
    ensures Find(s, c) == |s|
  {
  }

  lemma ParseOne(piece: string)
    requires piece != "" && '&' !in piece
    ensures Parse(piece) == [ParsePair(piece)]
  {
    FindAbsent(piece, '&');
    assert piece[..|piece|] == piece;
  }

  lemma ParseJoined(piece: string, rest: string)
    requires piece != "" && '&' !in piece
    ensures Parse(piece + "&" + rest) == [ParsePair(piece)] + Parse(rest)
  {
    var s := piece + ['&'] + rest;
    FindAfter(piece, '&', rest);
    assert s[..|piece|] == piece && s[|piece| + 1..] == rest;
  }

  /** Parsing undoes serializing, for every list of names and values: empty ones, repeated ones and
      ones made of separators included. */
  lemma {:induction false} PairsRoundTrip(style: Style, pairs: seq<Pair>)
    ensures Parse(Serialize(style, pairs)) == pairs
  {
    if pairs != [] {
      PairsRoundTrip(style, pairs[1..]);
      SerializeHead(style, pairs);
      assert pairs == [pairs[0]] + pairs[1..];
    }
  }

  lemma SerializeHead(style: Style, pairs: seq<Pair>)
    requires pairs != []
    ensures Parse(Serialize(style, pairs)) == [pairs[0]] + Parse(Serialize(style, pairs[1..]))
  {
    PairRoundTrip(style, pairs[0]);
    if |pairs| == 1 {
      ParseOne(SerializePair(style, pairs[0]));
    } else {
      ParseJoined(SerializePair(style, pairs[0]), Serialize(style, pairs[1..]));
    }
  }

  predicate FormChar(c: char) { Plain(c) || c == '=' || c == '&' }

  predicate AllForm(s: string) { forall k :: 0 <= k < |s| ==> FormChar(s[k]) }

  lemma PairIsForm(style: Style, p: Pair)
    ensures AllForm(SerializePair(style, p)) && SerializePair(style, p) != ""
  {
    TextRoundTrip(style, p.0);
    TextRoundTrip(style, p.1);
  }

  lemma {:induction false} SerializedIsForm(style: Style, pairs: seq<Pair>)
    ensures AllForm(Serialize(style, pairs))
    ensures Serialize(style, pairs) == "" <==> pairs == []
  {
    if pairs != [] {
      PairIsForm(style, pairs[0]);
      SerializedIsForm(style, pairs[1..]);
    }
  }
}
