/**
  `encodeURIComponent` as the WhatsApp deep link uses it: every character
  outside the unescaped set is replaced by the percent-escapes of its UTF-8
  bytes, upper-case hex (percent-encoding as in section 2.1 of RFC 3986).
  A decoder is given as its partner: percent-unescaping to bytes, then UTF-8
  decoding, recovers the encoded text.
 */
module UriComponent {
  import opened Wrappers
  import opened Text

  /** The characters `encodeURIComponent` leaves as they are. */
  predicate Unescaped(c: char) {
    || ('A' <= c <= 'Z') || ('a' <= c <= 'z') || ('0' <= c <= '9')
    || c == '-' || c == '_' || c == '.' || c == '!' || c == '~'
    || c == '*' || c == '\'' || c == '(' || c == ')'
  }

  predicate IsByte(b: int) {
    0 <= b < 256
  }

  /** The UTF-8 encoding of one Unicode scalar value. */
  function Utf8(c: char): (bs: seq<int>)
    ensures 1 <= |bs| <= 4
    ensures forall i :: 0 <= i < |bs| ==> IsByte(bs[i])
    ensures |bs| == 1 <==> (c as int) < 0x80
  {
    var n := c as int;
    if n < 0x80 then [n]
    else if n < 0x800 then [0xC0 + n / 64, 0x80 + n % 64]
    else if n < 0x10000 then [0xE0 + n / 4096, 0x80 + n / 64 % 64, 0x80 + n % 64]
    else [0xF0 + n / 262144, 0x80 + n / 4096 % 64, 0x80 + n / 64 % 64, 0x80 + n % 64]
  }

  function Utf8Of(s: string): seq<int> {
    if s == [] then [] else Utf8(s[0]) + Utf8Of(s[1..])
  }

  predicate IsHexDigit(c: char) {
    ('0' <= c <= '9') || ('A' <= c <= 'F') || ('a' <= c <= 'f')
  }

  function HexDigit(d: nat): (c: char)
    requires d < 16
    ensures IsHexDigit(c) && Unescaped(c)
  {
    if d < 10 then DigitChar(d) else ('A' as int + d - 10) as char
  }

  function HexValue(c: char): (d: nat)
    requires IsHexDigit(c)
    ensures d < 16
  {
    if '0' <= c <= '9' then c as int - '0' as int
    else if 'A' <= c <= 'F' then c as int - 'A' as int + 10
    else c as int - 'a' as int + 10
  }

  /** `%XY` for each byte. */
  function Escape(bs: seq<int>): (r: string)
    requires forall i :: 0 <= i < |bs| ==> IsByte(bs[i])
    ensures forall i :: 0 <= i < |r| ==> r[i] == '%' || Unescaped(r[i])
  {
    if bs == [] then []
    else
      var b := bs[0];
      assert IsByte(b);
      ['%', HexDigit(b / 16), HexDigit(b % 16)] + Escape(bs[1..])
  }

  function EncodeChar(c: char): string {
    if Unescaped(c) then [c] else Escape(Utf8(c))
  }

  /**
    `encodeURIComponent(s)`: the result holds only unescaped characters and
    `%`, so it never contains `&`, `#`, `=`, a space or a line break and can
    stand as a whole query-parameter value.
   */
  function EncodeURIComponent(s: string): (r: string)
    ensures forall i :: 0 <= i < |r| ==> r[i] == '%' || Unescaped(r[i])
  {
    if s == [] then [] else EncodeChar(s[0]) + EncodeURIComponent(s[1..])
  }

  /** Text made of unescaped characters only is passed through unchanged. */
  lemma {:induction false} EncodeUnescapedIdentity(s: string)
    requires forall i :: 0 <= i < |s| ==> Unescaped(s[i])
    ensures EncodeURIComponent(s) == s
  {
    if s != [] {
      EncodeUnescapedIdentity(s[1..]);
    }
  }

  // ---------------------------------------------------------------------------
  // The decoding partner
  // ---------------------------------------------------------------------------

  /**
    The bytes a percent-encoded string stands for: `%XY` is one byte, any
    other character stands for its own code (a byte for ASCII text).
   */
  function Unescape(t: string): seq<int> {
    if t == [] then []
    else if t[0] == '%' && |t| >= 3 && IsHexDigit(t[1]) && IsHexDigit(t[2]) then
      [HexValue(t[1]) * 16 + HexValue(t[2])] + Unescape(t[3..])
    else
      [t[0] as int] + Unescape(t[1..])
  }

  /** UTF-8 decoding; `None` for a malformed byte sequence. */
  function Utf8Decode(bs: seq<int>): Option<string>
    decreases |bs|
  {
    if bs == [] then Some([])
    else
      var b0 := bs[0];
      var len := if b0 < 0x80 then 1 else if b0 < 0xE0 then 2 else if b0 < 0xF0 then 3 else 4;
      if |bs| < len then None
      else
        var v :=
          if len == 1 then b0
          else if len == 2 then (b0 - 0xC0) * 64 + (bs[1] - 0x80)
          else if len == 3 then (b0 - 0xE0) * 4096 + (bs[1] - 0x80) * 64 + (bs[2] - 0x80)
          else (b0 - 0xF0) * 262144 + (bs[1] - 0x80) * 4096 + (bs[2] - 0x80) * 64 + (bs[3] - 0x80);
        if !((0 <= v < 0xD800) || (0xE000 <= v < 0x110000)) then None
        else
          match Utf8Decode(bs[len..])
          case None => None
          case Some(rest) => Some([v as char] + rest)
  }

  /** `decodeURIComponent` restricted to what the encoder produces. */
  function DecodeURIComponent(t: string): Option<string> {
    Utf8Decode(Unescape(t))
  }

  lemma HexRoundTrip(b: int)
    requires IsByte(b)
    ensures HexValue(HexDigit(b / 16)) * 16 + HexValue(HexDigit(b % 16)) == b
  {
  }

  /** One `%XY` escape stands for its byte. */
  lemma UnescapeByte(b: int, tail: string)
    requires IsByte(b)
    ensures Unescape(['%', HexDigit(b / 16), HexDigit(b % 16)] + tail) == [b] + Unescape(tail)
  {
    var t := ['%', HexDigit(b / 16), HexDigit(b % 16)] + tail;
    assert t[3..] == tail;
    HexRoundTrip(b);
  }

  /** Splitting off the head of the left operand of a concatenation. */
  lemma ConsAppend(x: seq<int>, y: seq<int>)
    requires x != []
    ensures x + y == [x[0]] + (x[1..] + y)
  {
    assert x == [x[0]] + x[1..];
  }

  /** Percent-unescaping the escapes of some bytes gives those bytes back. */
  lemma {:induction false} UnescapeEscape(bs: seq<int>, rest: string)
    requires forall i :: 0 <= i < |bs| ==> IsByte(bs[i])
    ensures Unescape(Escape(bs) + rest) == bs + Unescape(rest)
  {
    if bs != [] {
      var tail := Escape(bs[1..]) + rest;
      assert Escape(bs) + rest == ['%', HexDigit(bs[0] / 16), HexDigit(bs[0] % 16)] + tail;
      UnescapeByte(bs[0], tail);
      UnescapeEscape(bs[1..], rest);
      ConsAppend(bs, Unescape(rest));
    } else {
      assert Escape(bs) + rest == rest;
    }
  }

  /** Percent-unescaping the encoding of one character gives its UTF-8 bytes. */
  lemma UnescapeEncodeChar(c: char, rest: string)
    ensures Unescape(EncodeChar(c) + rest) == Utf8(c) + Unescape(rest)
  {
    if Unescaped(c) {
      assert ([c] + rest)[1..] == rest;
    } else {
      UnescapeEscape(Utf8(c), rest);
    }
  }

  /** The encoded string stands for exactly the UTF-8 bytes of the input. */
  lemma {:induction false} UnescapeEncode(s: string)
    ensures Unescape(EncodeURIComponent(s)) == Utf8Of(s)
  {
    if s != [] {
      UnescapeEncodeChar(s[0], EncodeURIComponent(s[1..]));
      UnescapeEncode(s[1..]);
    }
  }

  /** Dividing by 64 twice is dividing by 4096. */
  lemma Div64Twice(n: int)
    requires n >= 0
    ensures n / 4096 == n / 64 / 64
  {
    var q := n / 64;
    assert n == (q / 64) * 4096 + ((q % 64) * 64 + n % 64);
  }

  /** `c` in front of a decoded string; a failed decoding stays failed. */
  function ConsChar(c: char, o: Option<string>): Option<string> {
    match o
    case None => None
    case Some(r) => Some([c] + r)
  }

  /** A one-byte (ASCII) character is decoded back. */
  lemma Utf8DecodeOne(c: char, rest: seq<int>)
    requires c as int < 0x80
    ensures Utf8Decode(Utf8(c) + rest) == ConsChar(c, Utf8Decode(rest))
  {
    assert (Utf8(c) + rest)[1..] == rest;
  }

  /** A two-byte character is decoded back. */
  lemma Utf8DecodeTwo(c: char, rest: seq<int>)
    requires 0x80 <= c as int < 0x800
    ensures Utf8Decode(Utf8(c) + rest) == ConsChar(c, Utf8Decode(rest))
  {
    var n := c as int;
    assert (Utf8(c) + rest)[2..] == rest;
    assert n == (n / 64) * 64 + n % 64;
  }

  /** A three-byte character is decoded back. */
  lemma Utf8DecodeThree(c: char, rest: seq<int>)
    requires 0x800 <= c as int < 0x10000
    ensures Utf8Decode(Utf8(c) + rest) == ConsChar(c, Utf8Decode(rest))
  {
    var n := c as int;
    assert (Utf8(c) + rest)[3..] == rest;
    Div64Twice(n);
    assert n == (n / 64) * 64 + n % 64;
    assert n == (n / 4096) * 4096 + (n / 64 % 64) * 64 + n % 64;
  }

  /** The four-byte payload: the four 6-bit groups of `n` put back together. */
  lemma FourGroups(n: int)
    requires n >= 0
    ensures n == (n / 262144) * 262144 + (n / 4096 % 64) * 4096 + (n / 64 % 64) * 64 + n % 64
  {
    Div64Twice(n);
    Div64Twice(n / 64);
    assert n / 262144 == n / 4096 / 64 by {
      var q := n / 4096;
      assert n == (q / 64) * 262144 + ((q % 64) * 4096 + n % 4096);
    }
    assert n == (n / 64) * 64 + n % 64;
    assert n / 64 == (n / 4096) * 64 + n / 64 % 64;
    assert n / 4096 == (n / 262144) * 64 + n / 4096 % 64;
  }

  /** A four-byte character is decoded back. */
  lemma Utf8DecodeFour(c: char, rest: seq<int>)
    requires 0x10000 <= c as int
    ensures Utf8Decode(Utf8(c) + rest) == ConsChar(c, Utf8Decode(rest))
  {
    assert (Utf8(c) + rest)[4..] == rest;
    FourGroups(c as int);
  }

  /** The decoder reads one character's UTF-8 bytes back as that character. */
  lemma Utf8DecodeChar(c: char, rest: seq<int>)
    ensures Utf8Decode(Utf8(c) + rest) == ConsChar(c, Utf8Decode(rest))
  {
    var n := c as int;
    if n < 0x80 {
      Utf8DecodeOne(c, rest);
    } else if n < 0x800 {
      Utf8DecodeTwo(c, rest);
    } else if n < 0x10000 {
      Utf8DecodeThree(c, rest);
    } else {
      Utf8DecodeFour(c, rest);
    }
  }

  lemma {:induction false} Utf8DecodeOf(s: string)
    ensures Utf8Decode(Utf8Of(s)) == Some(s)
  {
    if s != [] {
      Utf8DecodeOf(s[1..]);
      Utf8DecodeChar(s[0], Utf8Of(s[1..]));
      assert [s[0]] + s[1..] == s;
    }
  }

  /** Decoding undoes `encodeURIComponent` on every string. */
  lemma EncodeRoundTrip(s: string)
    ensures DecodeURIComponent(EncodeURIComponent(s)) == Some(s)
  {
    UnescapeEncode(s);
    Utf8DecodeOf(s);
  }
}
