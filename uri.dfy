// `encodeURIComponent` and `decodeURIComponent` as section 19.2.6 of the
// ECMAScript specification defines them (Encode and Decode with an empty
// reserved set): every character outside the unreserved set is written as
// the percent-escaped bytes of its UTF-8 encoding, and decoding reverses this,
// failing (a URIError in the source) on a malformed escape or invalid UTF-8.
// Strings are sequences of Unicode scalar values, so the lone-surrogate error
// of the encoder cannot arise.

module UriComponent {
  import opened Wrappers

  /** The characters `encodeURIComponent` leaves as they are. */
  predicate Unreserved(c: char)
  {
    ('A' <= c <= 'Z') || ('a' <= c <= 'z') || ('0' <= c <= '9') ||
    c == '-' || c == '_' || c == '.' || c == '!' || c == '~' || c == '*' || c == '\'' || c == '(' || c == ')'
  }

  function HexUpper(d: nat): (c: char)
    requires d < 16
    ensures ('0' <= c <= '9') || ('A' <= c <= 'F')
  {
    if d < 10 then ('0' as int + d) as char else ('A' as int + d - 10) as char
  }

  /** The value of a hexadecimal digit of either case. */
  function HexValue(c: char): (r: Option<nat>)
    ensures r.Some? ==> r.value < 16
  {
    if '0' <= c <= '9' then Some(c as int - '0' as int)
    else if 'A' <= c <= 'F' then Some(c as int - 'A' as int + 10)
    else if 'a' <= c <= 'f' then Some(c as int - 'a' as int + 10)
    else None
  }

  lemma HexRoundTrip(d: nat)
    requires d < 16
    ensures HexValue(HexUpper(d)) == Some(d)
  {
  }

  /** The UTF-8 bytes of one scalar value. */
  function Utf8(c: char): (bytes: seq<nat>)
    ensures 1 <= |bytes| <= 4
    ensures forall i :: 0 <= i < |bytes| ==> bytes[i] < 256
  {
    var cp := c as int;
    if cp < 0x80 then [cp]
    else if cp < 0x800 then [0xC0 + cp / 64, 0x80 + cp % 64]
    else if cp < 0x10000 then [0xE0 + cp / 4096, 0x80 + cp / 64 % 64, 0x80 + cp % 64]
    else [0xF0 + cp / 262144, 0x80 + cp / 4096 % 64, 0x80 + cp / 64 % 64, 0x80 + cp % 64]
  }

  function Escape(b: nat): (r: string)
    requires b < 256
    ensures |r| == 3
  {
    ['%', HexUpper(b / 16), HexUpper(b % 16)]
  }

  function EscapeAll(bytes: seq<nat>): (r: string)
    requires forall i :: 0 <= i < |bytes| ==> bytes[i] < 256
    ensures |r| == 3 * |bytes|
  {
    if bytes == [] then [] else Escape(bytes[0]) + EscapeAll(bytes[1..])
  }

  function EncodeChar(c: char): string
  {
    if Unreserved(c) then [c] else EscapeAll(Utf8(c))
  }

  /** `encodeURIComponent(s)`. */
  function Encode(s: string): string
  {
    if s == [] then [] else EncodeChar(s[0]) + Encode(s[1..])
  }

  /** What can appear in an encoded string: unreserved characters and the escape mark. */
  predicate EncodedChar(c: char)
  {
    Unreserved(c) || c == '%'
  }

  lemma {:induction false} EscapeAllChars(bytes: seq<nat>)
    requires forall i :: 0 <= i < |bytes| ==> bytes[i] < 256
    ensures forall i :: 0 <= i < |EscapeAll(bytes)| ==> EncodedChar(EscapeAll(bytes)[i])
  {
    if bytes != [] {
      EscapeAllChars(bytes[1..]);
    }
  }

  /** The encoder never emits a separator: no '=', ';', ',' or space survives encoding. */
  lemma {:induction false} EncodeChars(s: string)
    ensures forall i :: 0 <= i < |Encode(s)| ==> EncodedChar(Encode(s)[i])
  {
    if s != [] {
      EscapeAllChars(Utf8(s[0]));
      EncodeChars(s[1..]);
    }
  }

  /** A string of unreserved characters is its own encoding. */
  lemma {:induction false} EncodeUnreserved(s: string)
    requires forall i :: 0 <= i < |s| ==> Unreserved(s[i])
    ensures Encode(s) == s
  {
    if s != [] {
      EncodeUnreserved(s[1..]);
    }
  }

  /** Any other string changes under encoding: it grows. */
  lemma EncodeChangesReserved(s: string, i: nat)
    requires i < |s| && !Unreserved(s[i])
    ensures Encode(s) != s
  {
    LengthGrows(s, i);
  }

  lemma {:induction false} EncodeLength(s: string)
    ensures |Encode(s)| >= |s|
  {
    if s != [] {
      EncodeLength(s[1..]);
    }
  }

  lemma {:induction false} LengthGrows(s: string, i: nat)
    requires i < |s| && !Unreserved(s[i])
    ensures |Encode(s)| > |s|
  {
    if i == 0 {
      EncodeLength(s[1..]);
    } else {
      LengthGrows(s[1..], i - 1);
    }
  }

  /** The byte a percent-escape at the head of `s` stands for. */
  function EscapedByte(s: string): (r: Option<nat>)
    ensures r.Some? ==> r.value < 256
  {
    if |s| < 3 || s[0] != '%' then None
    else match (HexValue(s[1]), HexValue(s[2]))
      case (Some(hi), Some(lo)) => Some(hi * 16 + lo)
      case _ => None
  }

  /** `n` consecutive escapes read as bytes. */
  function EscapedBytes(s: string, n: nat): (r: Option<seq<nat>>)
    ensures r.Some? ==> |r.value| == n && 3 * n <= |s|
    ensures r.Some? ==> forall i :: 0 <= i < n ==> r.value[i] < 256
  {
    if n == 0 then Some([])
    else match EscapedByte(s)
      case None => None
      case Some(b) =>
        match EscapedBytes(s[3..], n - 1)
        case None => None
        case Some(rest) => Some([b] + rest)
  }

  /** The length of the UTF-8 sequence a lead byte announces; 0 for a byte that cannot lead one. */
  function LeadLength(b: nat): nat
  {
    if 0xC0 <= b < 0xE0 then 2 else if 0xE0 <= b < 0xF0 then 3 else if 0xF0 <= b < 0xF8 then 4 else 0
  }

  /** The scalar value of a well-formed 2- to 4-byte sequence, or None. */
  function Assemble(bytes: seq<nat>): (r: Option<char>)
    requires 2 <= |bytes| <= 4
  {
    if exists i :: 1 <= i < |bytes| && !(0x80 <= bytes[i] < 0xC0) then None
    else if |bytes| == 2 then
      var cp: int := (bytes[0] as int - 0xC0) * 64 + (bytes[1] as int - 0x80);
      if 0x80 <= cp < 0x800 then Some(cp as char) else None
    else if |bytes| == 3 then
      var cp: int := (bytes[0] as int - 0xE0) * 4096 + (bytes[1] as int - 0x80) * 64 + (bytes[2] as int - 0x80);
      if 0x800 <= cp < 0x10000 && !(0xD800 <= cp < 0xE000) then Some(cp as char) else None
    else
      var cp: int := (bytes[0] as int - 0xF0) * 262144 + (bytes[1] as int - 0x80) * 4096 + (bytes[2] as int - 0x80) * 64 + (bytes[3] as int - 0x80);
      if 0x10000 <= cp < 0x110000 then Some(cp as char) else None
  }

  function Prepend(c: char, r: Option<string>): Option<string>
  {
    match r
    case None => None
    case Some(s) => Some([c] + s)
  }

  /** `decodeURIComponent(s)`; None where the source throws a URIError. */
  function Decode(s: string): Option<string>
    decreases |s|
  {
    if s == [] then Some([])
    else if s[0] != '%' then Prepend(s[0], Decode(s[1..]))
    else match EscapedByte(s)
      case None => None
      case Some(b) =>
        if b < 0x80 then Prepend(b as char, Decode(s[3..]))
        else
          var n := LeadLength(b);
          if n == 0 then None
          else match EscapedBytes(s, n)
            case None => None
            case Some(bytes) =>
              match Assemble(bytes)
              case None => None
              case Some(c) => Prepend(c, Decode(s[3 * n..]))
  }

  /** A string without '%' decodes to itself. */
  lemma {:induction false} DecodePlain(s: string)
    requires '%' !in s
    ensures Decode(s) == Some(s)
  {
    if s != [] {
      assert s[0] in s;
      DecodePlain(s[1..]);
      assert [s[0]] + s[1..] == s;
    }
  }

  lemma EscapeRead(b: nat, rest: string)
    requires b < 256
    ensures EscapedByte(Escape(b) + rest) == Some(b)
  {
    HexRoundTrip(b / 16);
    HexRoundTrip(b % 16);
  }

  lemma {:induction false} EscapeAllRead(bytes: seq<nat>, rest: string)
    requires forall i :: 0 <= i < |bytes| ==> bytes[i] < 256
    ensures EscapedBytes(EscapeAll(bytes) + rest, |bytes|) == Some(bytes)
  {
    if bytes != [] {
      var tail := EscapeAll(bytes[1..]) + rest;
      var s := EscapeAll(bytes) + rest;
      EscapeAllCons(bytes, rest);
      EscapeRead(bytes[0], tail);
      EscapeAllRead(bytes[1..], rest);
      EscapedBytesCons(s, |bytes|, bytes[0], bytes[1..]);
      assert [bytes[0]] + bytes[1..] == bytes;
    }
  }

  lemma EscapeAllCons(bytes: seq<nat>, rest: string)
    requires bytes != [] && forall i :: 0 <= i < |bytes| ==> bytes[i] < 256
    ensures (EscapeAll(bytes) + rest)[3..] == EscapeAll(bytes[1..]) + rest
    ensures EscapeAll(bytes) + rest == Escape(bytes[0]) + (EscapeAll(bytes[1..]) + rest)
  {
    assert EscapeAll(bytes) == Escape(bytes[0]) + EscapeAll(bytes[1..]);
    AfterHead(Escape(bytes[0]), EscapeAll(bytes[1..]), rest);
  }

  /** Dropping a three-character head from `h + e + rest`. */
  lemma AfterHead(h: string, e: string, rest: string)
    requires |h| == 3
    ensures (h + e + rest)[3..] == e + rest && h + e + rest == h + (e + rest)
  {
  }

  lemma EscapedBytesCons(s: string, n: nat, b: nat, rest: seq<nat>)
    requires n > 0 && EscapedByte(s) == Some(b) && |s| >= 3 && EscapedBytes(s[3..], n - 1) == Some(rest)
    ensures EscapedBytes(s, n) == Some([b] + rest)
  {
  }

  lemma AssembleTwo(c: char)
    requires 0x80 <= c as int < 0x800
    ensures Assemble(Utf8(c)) == Some(c) && LeadLength(Utf8(c)[0]) == 2
  {
  }

  lemma AssembleThree(c: char)
    requires 0x800 <= c as int < 0x10000
    ensures Assemble(Utf8(c)) == Some(c) && LeadLength(Utf8(c)[0]) == 3
  {
    var cp := c as int;
    assert cp == (cp / 4096) * 4096 + (cp / 64 % 64) * 64 + cp % 64;
  }

  lemma AssembleFour(c: char)
    requires 0x10000 <= c as int
    ensures Assemble(Utf8(c)) == Some(c) && LeadLength(Utf8(c)[0]) == 4
  {
    var cp := c as int;
    assert cp < 0x110000;
    var h, g, q := cp / 64, cp / 4096, cp / 262144;
    assert cp == h * 64 + cp % 64;
    assert h / 64 == g && g / 64 == q;
    assert h == g * 64 + h % 64;
    assert g == q * 64 + g % 64;
    assert q < 5;
    var bytes := Utf8(c);
    assert bytes == [0xF0 + q, 0x80 + g % 64, 0x80 + h % 64, 0x80 + cp % 64];
    assert forall i :: 1 <= i < |bytes| ==> 0x80 <= bytes[i] < 0xC0;
    assert (bytes[0] - 0xF0) * 262144 + (bytes[1] - 0x80) * 4096 + (bytes[2] - 0x80) * 64 + (bytes[3] - 0x80) == cp;
  }

  lemma DecodeUnreservedChar(c: char, rest: string)
    requires Unreserved(c)
    ensures Decode([c] + rest) == Prepend(c, Decode(rest))
  {
    assert ([c] + rest)[1..] == rest;
  }

  lemma DecodeAsciiEscape(c: char, rest: string)
    requires !Unreserved(c) && c as int < 0x80
    ensures Decode(EscapeAll(Utf8(c)) + rest) == Prepend(c, Decode(rest))
  {
    var b := c as int;
    assert Utf8(c) == [b];
    assert EscapeAll([b]) == Escape(b);
    var s := Escape(b) + rest;
    EscapeRead(b, rest);
    assert s[3..] == rest;
  }

  lemma DecodeMultiByte(c: char, rest: string)
    requires 0x80 <= c as int
    ensures Decode(EscapeAll(Utf8(c)) + rest) == Prepend(c, Decode(rest))
  {
    var bytes := Utf8(c);
    var s := EscapeAll(bytes) + rest;
    EscapeAllRead(bytes, rest);
    EscapeAllCons(bytes, rest);
    EscapeRead(bytes[0], EscapeAll(bytes[1..]) + rest);
    assert s[3 * |bytes|..] == rest;
    if c as int < 0x800 {
      AssembleTwo(c);
    } else if c as int < 0x10000 {
      AssembleThree(c);
    } else {
      AssembleFour(c);
    }
  }

  /** Decoding an encoded character gives it back and resumes after its escapes. */
  lemma DecodeEncodeChar(c: char, rest: string)
    ensures Decode(EncodeChar(c) + rest) == Prepend(c, Decode(rest))
  {
    if Unreserved(c) {
      DecodeUnreservedChar(c, rest);
    } else if c as int < 0x80 {
      DecodeAsciiEscape(c, rest);
    } else {
      DecodeMultiByte(c, rest);
    }
  }

  /** `decodeURIComponent(encodeURIComponent(s)) == s`. */
  lemma {:induction false} DecodeEncode(s: string)
    ensures Decode(Encode(s)) == Some(s)
  {
    if s != [] {
      DecodeEncode(s[1..]);
      DecodeEncodeChar(s[0], Encode(s[1..]));
      assert [s[0]] + s[1..] == s;
    }
  }
}
