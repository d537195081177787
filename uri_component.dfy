/** ECMAScript's `encodeURIComponent` over strings of scalar values: every
    character outside the set it leaves alone is written as the `%XX` escapes
    (upper-case hex, section 2.1 of RFC 3986) of its UTF-8 bytes. A small
    percent-decoder is given beside it as the partner of the round trip. */
module UriComponent {
  import opened Wrappers
  import Utf8

  /** The characters `encodeURIComponent` passes through: the unreserved set of
      section 2.3 of RFC 3986 (ALPHA, DIGIT, `-`, `.`, `_`, `~`) plus
      `!`, `*`, `'`, `(` and `)`. */
  predicate IsUnreserved(c: char) {
    || ('A' <= c <= 'Z') || ('a' <= c <= 'z') || ('0' <= c <= '9')
    || c == '-' || c == '_' || c == '.' || c == '!' || c == '~'
    || c == '*' || c == '\'' || c == '(' || c == ')'
  }

  /** A character that can appear in the output of `Encode`. */
  predicate IsEncodedChar(c: char) {
    IsUnreserved(c) || c == '%'
  }

  function HexDigit(k: nat): (c: char)
    requires k < 16
    ensures IsUnreserved(c)
  {
    if k < 10 then ('0' as int + k) as char else ('A' as int + k - 10) as char
  }

  function HexValue(c: char): Option<nat> {
    if '0' <= c <= '9' then Some(c as int - '0' as int)
    else if 'A' <= c <= 'F' then Some(c as int - 'A' as int + 10)
    else if 'a' <= c <= 'f' then Some(c as int - 'a' as int + 10)
    else None
  }

  function PercentByte(b: Utf8.Byte): string {
    ['%', HexDigit(b / 16), HexDigit(b % 16)]
  }

  function PercentBytes(bs: seq<Utf8.Byte>): string {
    if bs == [] then "" else PercentByte(bs[0]) + PercentBytes(bs[1..])
  }

  function EncodeChar(c: char): string {
    if IsUnreserved(c) then [c] else PercentBytes(Utf8.EncodeChar(c))
  }

  /** `encodeURIComponent(s)`. */
  function Encode(s: string): string {
    if s == [] then "" else EncodeChar(s[0]) + Encode(s[1..])
  }

  /** Percent-decoding to bytes: `%XX` is one byte, any other ASCII character
      stands for itself, anything else is refused. */
  function DecodeBytes(t: string): Option<seq<Utf8.Byte>>
    decreases |t|
  {
    if t == [] then Some([])
    else if t[0] == '%' then
      if |t| >= 3 && HexValue(t[1]).Some? && HexValue(t[2]).Some? then
        match DecodeBytes(t[3..])
        case None => None
        case Some(rest) => Some([HexValue(t[1]).value * 16 + HexValue(t[2]).value] + rest)
      else None
    else if t[0] as int < 0x80 then
      match DecodeBytes(t[1..])
      case None => None
      case Some(rest) => Some([t[0] as int] + rest)
    else None
  }

  /** Percent-decoding followed by strict UTF-8 decoding. */
  function Decode(t: string): Option<string> {
    match DecodeBytes(t)
    case None => None
    case Some(bs) => Utf8.Decode(bs)
  }

  lemma HexDigitValue(k: nat)
    requires k < 16
    ensures HexValue(HexDigit(k)) == Some(k)
  {
  }

  lemma {:induction false} DecodePercentBytes(bs: seq<Utf8.Byte>, rest: string)
    ensures DecodeBytes(PercentBytes(bs) + rest)
         == if DecodeBytes(rest).Some? then Some(bs + DecodeBytes(rest).value) else None
  {
    if bs != [] {
      var t := PercentBytes(bs) + rest;
      var b := bs[0];
      assert t == PercentByte(b) + (PercentBytes(bs[1..]) + rest);
      HexDigitValue(b / 16);
      HexDigitValue(b % 16);
      assert t[0] == '%' && t[1] == HexDigit(b / 16) && t[2] == HexDigit(b % 16);
      assert HexValue(t[1]).value * 16 + HexValue(t[2]).value == b;
      assert t[3..] == PercentBytes(bs[1..]) + rest;
      DecodePercentBytes(bs[1..], rest);
      var r := DecodeBytes(t[3..]);
      assert DecodeBytes(t) == if r.Some? then Some([b] + r.value) else None;
      if DecodeBytes(rest).Some? {
        assert [b] + (bs[1..] + DecodeBytes(rest).value) == bs + DecodeBytes(rest).value;
      }
    } else {
      assert PercentBytes(bs) + rest == rest;
      if DecodeBytes(rest).Some? {
        assert bs + DecodeBytes(rest).value == DecodeBytes(rest).value;
      }
    }
  }

  lemma DecodeEncodeChar(c: char, rest: string)
    ensures DecodeBytes(EncodeChar(c) + rest)
         == if DecodeBytes(rest).Some? then Some(Utf8.EncodeChar(c) + DecodeBytes(rest).value) else None
  {
    if IsUnreserved(c) {
      assert (EncodeChar(c) + rest)[1..] == rest;
    } else {
      DecodePercentBytes(Utf8.EncodeChar(c), rest);
    }
  }

  /** Percent-decoding an encoding gives the string's UTF-8 bytes. */
  lemma {:induction false} DecodeBytesEncode(s: string)
    ensures DecodeBytes(Encode(s)) == Some(Utf8.Encode(s))
  {
    if s != [] {
      DecodeEncodeChar(s[0], Encode(s[1..]));
      DecodeBytesEncode(s[1..]);
    }
  }

  /** Round trip: `decodeURIComponent(encodeURIComponent(s)) == s`. */
  lemma DecodeEncode(s: string)
    ensures Decode(Encode(s)) == Some(s)
  {
    DecodeBytesEncode(s);
    Utf8.DecodeEncode(s);
  }

  lemma {:induction false} PercentBytesChars(bs: seq<Utf8.Byte>)
    ensures forall i :: 0 <= i < |PercentBytes(bs)| ==> IsEncodedChar(PercentBytes(bs)[i])
  {
    if bs != [] {
      PercentBytesChars(bs[1..]);
    }
  }

  /** The output holds only unreserved characters and `%`: no `&`, `=`, `?`
      or `#` survives encoding, so an encoded value cannot split a query. */
  lemma {:induction false} EncodeChars(s: string)
    ensures forall i :: 0 <= i < |Encode(s)| ==> IsEncodedChar(Encode(s)[i])
  {
    if s != [] {
      if !IsUnreserved(s[0]) {
        PercentBytesChars(Utf8.EncodeChar(s[0]));
      }
      EncodeChars(s[1..]);
    }
  }
}
